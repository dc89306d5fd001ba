// The calls a loader makes during a scan, in whatever way they turn out, are steps of the protocol.
module Simulation {
  import opened Wrappers
  import opened Merge
  import opened Statements
  import opened History
  import opened Discovery
  import opened Replication
  import opened Sorting
  import opened Planning
  import Executing
  import opened TableLoader
  import opened Refinement

  type Effect = Executing.Effect
  type Memo = Executing.Memo
  type Compiler = Executing.Compiler

  // ----- What a call does outside -----

  // What is not the loader's: the storage and the Snowflake table.
  datatype World = World(schemas: set<nat>, logs: map<Scope, Log>, folders: map<Scope, set<nat>>, rows: Table, columns: Columns)

  function WorldOf(t: TableState): World { World(t.schemas, t.logs, t.folders, t.rows, t.columns) }

  function Put(t: TableState, w: World): TableState {
    t.(schemas := w.schemas, logs := w.logs, folders := w.folders, rows := w.rows, columns := w.columns)
  }

  // The storage may have grown, the table is the same.
  ghost predicate SameTarget(w: World, w2: World) { w2.rows == w.rows && w2.columns == w.columns }

  // A call that Snowflake or the state file accepts; `denote` is what a statement's text does. A
  // watermark write changes nothing here.
  ghost predicate Accepted(denote: string -> Step, checkpoint: nat, e: Effect, w: World, w2: World) {
    match e
    case Exec(_, _, statement) =>
      var s := denote(statement);
      RunOne(w.columns, s.statement).Some? && w2 == w.(rows := OnTable(s, w.rows), columns := RunOne(w.columns, s.statement).value)
    case Mark(_) => w2 == w
    case Merge(_, s, name) =>
      && (exists f :: FileNamed(if s in w.logs then w.logs[s] else [], name, f) && MergeStatement(w.rows, f, checkpoint, w2.rows))
      && w2 == w.(rows := w2.rows)
  }

  // The world the i-th call has left.
  function Since(start: World, worlds: seq<(World, World)>, i: nat): World
    requires i <= |worlds|
  {
    if i == 0 then start else worlds[i - 1].1
  }

  // The world before and after each call; in between, only the producer is at work.
  ghost predicate Happened(denote: string -> Step, checkpoint: nat, start: World, calls: seq<Effect>, worlds: seq<(World, World)>) {
    && |worlds| == |calls|
    && (forall i | 0 <= i < |calls| :: Accepted(denote, checkpoint, calls[i], worlds[i].0, worlds[i].1))
    && (forall i | 0 <= i < |calls| :: SameTarget(Since(start, worlds, i), worlds[i].0))
  }

  // The protocol goes through the same worlds, one of its steps for each call.
  ghost predicate Follows(src: Source, checkpoint: nat, worlds: seq<(World, World)>, ts: seq<TableState>) {
    && |ts| == |worlds| + 1
    && forall i | 0 <= i < |worlds| ::
         LoaderStep(src, checkpoint, Put(ts[i], worlds[i].0), ts[i + 1]) && WorldOf(ts[i + 1]) == worlds[i].1
  }

  // ----- Where the protocol is -----

  // The statements of a version's DDL are its script.
  ghost predicate Matches(src: Source, denote: string -> Step, compiled: Result<seq<string>>, file: SchemaFile) {
    if !file.query then Script(src, file.version) == []
    else compiled.Ok? ==>
      && |compiled.value| == |Script(src, file.version)|
      && forall i | 0 <= i < |compiled.value| :: denote(compiled.value[i]) == Script(src, file.version)[i]
  }

  ghost predicate ScriptedAt(src: Source, denote: string -> Step, compile: Compiler, files: map<nat, SchemaFile>, memo: Memo, t: Task)
    requires TaskVersion(t) in files
  {
    t.Apply? ==> Matches(src, denote, compile(memo.meta, files[t.version]), files[t.version])
  }

  // Every DDL this work list compiles, from the schema it has then, matches its script.
  ghost predicate Scripted(src: Source, denote: string -> Step, compile: Compiler, files: map<nat, SchemaFile>, memo: Memo, tasks: seq<Task>)
    requires Executing.Covers(files, tasks)
  {
    forall k | 0 <= k < |tasks| ::
      ScriptedAt(src, denote, compile, files, Done(compile, files, memo, tasks, k).memo, tasks[k])
  }

  // The outcome after the first k tasks.
  function Done(compile: Compiler, files: map<nat, SchemaFile>, memo: Memo, tasks: seq<Task>, k: nat): Executing.Outcome
    requires Executing.Covers(files, tasks) && k <= |tasks|
  {
    assert forall t | t in tasks[..k] :: t in tasks;
    Executing.ExecuteAll(compile, files, Executing.Begin(memo), tasks[..k])
  }

  // The protocol is at the k-th task, j statements into it.
  ghost predicate At(tasks: seq<Task>, memo: Memo, k: nat, j: nat, t: TableState)
    requires k <= |tasks|
  {
    && t.stage.Running? && t.stage.pass == j
    && t.stage.pending == DdlsOf(tasks[k..]) && (forall s :: QueueOf(t.stage.queue, s) == StreamOf(tasks[k..], s))
    && t.watermark == memo.watermark && t.cursors == memo.cursors
  }

  // The end of a scan that has worked off its plan: the loader remembers what the protocol has, and
  // the cursors can be stored.
  ghost predicate Finished(memo: Memo, t: TableState) {
    && t.watermark == memo.watermark && t.cursors == memo.cursors && t.stage.Running?
    && PersistCursors(t, t.(durable := t.durable.(cursors := t.cursors), stage := Stage.Done(t.stage.floor)))
  }

  // ----- One call is one step -----

  function AfterMerge(t: TableState, s: Scope, name: Name, rows: Table): TableState
    requires t.stage.Running? && QueueOf(t.stage.queue, s) != []
  {
    t.(rows := rows, cursors := t.cursors[s := name],
       merged := t.merged[s := Later(CountOf(t.merged, s), Position(LogOf(t, s), name))],
       stage := Running(t.stage.floor, t.stage.pending, t.stage.queue[s := QueueOf(t.stage.queue, s)[1..]], 0))
  }

  lemma MergeEnabled(checkpoint: nat, t: TableState, s: Scope, name: Name, f: File, rows: Table)
    requires t.stage.Running? && t.stage.pass == 0 && QueueOf(t.stage.queue, s) != [] && QueueOf(t.stage.queue, s)[0] == name
    requires (forall v | v in t.stage.pending :: s.version < v) && (forall s2: Scope | s2.version < s.version :: QueueOf(t.stage.queue, s2) == [])
    requires FileNamed(LogOf(t, s), name, f) && MergeStatement(t.rows, f, checkpoint, rows)
    ensures MergeNext(checkpoint, t, AfterMerge(t, s, name, rows), s)
  {
    hide MergeStatement, FileNamed, Position, Later;
  }

  lemma MergeGoesOn(tasks: seq<Task>, memo: Memo, k: nat, t: TableState, t2: TableState)
    requires Sorted(tasks, TaskLess) && k < |tasks| && tasks[k].Load? && At(tasks, memo, k, 0, t)
    requires QueueOf(t.stage.queue, tasks[k].scope) != []
    requires t2.watermark == t.watermark && t2.cursors == t.cursors[tasks[k].scope := tasks[k].name]
    requires t2.stage == Running(t.stage.floor, t.stage.pending, t.stage.queue[tasks[k].scope := QueueOf(t.stage.queue, tasks[k].scope)[1..]], 0)
    ensures At(tasks, memo.(cursors := memo.cursors[tasks[k].scope := tasks[k].name]), k + 1, 0, t2)
  {
    NextTaskIsEnabled(tasks, k);
    hide StreamOf, DdlsOf, TaskLess, Sorted;
    var s, name, queue := tasks[k].scope, tasks[k].name, t.stage.queue;
    forall x ensures QueueOf(t2.stage.queue, x) == StreamOf(tasks[k + 1..], x) {
      assert QueueOf(queue, x) == StreamOf(tasks[k..], x) == (if x == s then [name] else []) + StreamOf(tasks[k + 1..], x);
      assert QueueOf(t2.stage.queue, x) == if x == s then QueueOf(queue, s)[1..] else QueueOf(queue, x);
    }
  }

  // The next file of its stream, with nothing older left.
  lemma LoadIsNext(tasks: seq<Task>, memo: Memo, k: nat, t: TableState)
    requires Sorted(tasks, TaskLess) && k < |tasks| && tasks[k].Load? && At(tasks, memo, k, 0, t)
    ensures QueueOf(t.stage.queue, tasks[k].scope) != [] && QueueOf(t.stage.queue, tasks[k].scope)[0] == tasks[k].name
    ensures forall v | v in t.stage.pending :: tasks[k].scope.version < v
    ensures forall s: Scope | s.version < tasks[k].scope.version :: QueueOf(t.stage.queue, s) == []
  {
    NextTaskIsEnabled(tasks, k);
    hide StreamOf, DdlsOf, TaskLess, Sorted;
    assert QueueOf(t.stage.queue, tasks[k].scope) == [tasks[k].name] + StreamOf(tasks[k + 1..], tasks[k].scope);
  }

  lemma IsLoaderStep(src: Source, checkpoint: nat, t: TableState, t2: TableState, s: Scope)
    requires MergeNext(checkpoint, t, t2, s)
    ensures LoaderStep(src, checkpoint, t, t2)
  {
    hide MergeNext;
  }

  lemma MergeIsStep(src: Source, denote: string -> Step, checkpoint: nat, tasks: seq<Task>, memo: Memo, k: nat, t: TableState,
                    file: SchemaFile, w: World, w2: World) returns (t2: TableState)
    requires Sorted(tasks, TaskLess) && k < |tasks| && tasks[k].Load? && At(tasks, memo, k, 0, t)
    requires Accepted(denote, checkpoint, Executing.Merge(file, tasks[k].scope, tasks[k].name), w, w2) && SameTarget(WorldOf(t), w)
    ensures LoaderStep(src, checkpoint, Put(t, w), t2) && WorldOf(t2) == w2
    ensures At(tasks, memo.(cursors := memo.cursors[tasks[k].scope := tasks[k].name]), k + 1, 0, t2)
  {
    LoadIsNext(tasks, memo, k, t);
    var s, name, t1 := tasks[k].scope, tasks[k].name, Put(t, w);
    t2 := AfterMerge(t1, s, name, w2.rows);
    MergeGoesOn(tasks, memo, k, t, t2);
    hide MergeStatement, FileNamed, Position, TaskLess, Sorted, MergeNext, At, LoaderStep, Later, QueueOf;
    var f :| FileNamed(LogOf(t1, s), name, f) && MergeStatement(w.rows, f, checkpoint, w2.rows);
    MergeEnabled(checkpoint, t1, s, name, f, w2.rows);
    IsLoaderStep(src, checkpoint, t1, t2, s);
  }

  lemma ExecIsStep(src: Source, denote: string -> Step, checkpoint: nat, tasks: seq<Task>, memo: Memo, k: nat, j: nat, t: TableState,
                   prev: Option<SchemaFile>, file: SchemaFile, statement: string, w: World, w2: World) returns (t2: TableState)
    requires Sorted(tasks, TaskLess) && k < |tasks| && tasks[k].Apply? && At(tasks, memo, k, j, t)
    requires j < |Script(src, tasks[k].version)| && denote(statement) == Script(src, tasks[k].version)[j]
    requires Accepted(denote, checkpoint, Executing.Exec(prev, file, statement), w, w2) && SameTarget(WorldOf(t), w)
    ensures LoaderStep(src, checkpoint, Put(t, w), t2) && WorldOf(t2) == w2
    ensures At(tasks, memo, k, j + 1, t2)
  {
    NextTaskIsEnabled(tasks, k);
    var t1, s := Put(t, w), denote(statement);
    t2 := t1.(rows := w2.rows, columns := w2.columns, partial := if j < |t1.partial| then t1.partial else t1.partial + [s],
              stage := Running(t1.stage.floor, t1.stage.pending, t1.stage.queue, j + 1));
    hide RunOne, OnTable, Script, StreamOf, DdlsOf, TaskLess, Sorted;
    assert NextDdl(t1) && t1.stage.pending[0] == tasks[k].version;
    assert ExecStatement(src, t1, t2);
  }

  lemma MarkIsStep(src: Source, checkpoint: nat, tasks: seq<Task>, memo: Memo, k: nat, t: TableState, meta: Option<SchemaFile>,
                   w: World) returns (t2: TableState)
    requires Sorted(tasks, TaskLess) && k < |tasks| && tasks[k].Apply? && At(tasks, memo, k, |Script(src, tasks[k].version)|, t)
    requires SameTarget(WorldOf(t), w)
    ensures LoaderStep(src, checkpoint, Put(t, w), t2) && WorldOf(t2) == w
    ensures At(tasks, memo.(meta := meta, watermark := tasks[k].version), k + 1, 0, t2)
  {
    NextTaskIsEnabled(tasks, k);
    var t1, v := Put(t, w), tasks[k].version;
    t2 := t1.(watermark := v, durable := t1.durable.(watermark := v), applied := v, partial := [],
              stage := Running(t1.stage.floor, t1.stage.pending[1..], t1.stage.queue, 0));
    hide Script, StreamOf, DdlsOf, TaskLess, Sorted;
    assert NextDdl(t1) && t1.stage.pending[0] == v;
    assert MarkDdl(src, t1, t2);
  }

  // ----- Which call comes next -----

  // The calls of the k-th task when it can be done.
  function CallsOf(compile: Compiler, files: map<nat, SchemaFile>, memo: Memo, t: Task): seq<Effect>
    requires TaskVersion(t) in files
  {
    match t
    case Load(s, name) => [Executing.Merge(files[s.version], s, name)]
    case Apply(v) =>
      var file := files[v];
      (if file.query && compile(memo.meta, file).Ok? then Executing.Execs(memo.meta, file, compile(memo.meta, file).value) else [])
      + [Executing.Mark(file.version)]
  }

  function MemoAfter(files: map<nat, SchemaFile>, memo: Memo, t: Task): Memo
    requires TaskVersion(t) in files
  {
    match t
    case Load(s, name) => memo.(cursors := memo.cursors[s := name])
    case Apply(v) => memo.(meta := Some(files[v]), watermark := files[v].version)
  }

  // A task fails without a call, or makes its calls.
  lemma TaskCalls(compile: Compiler, files: map<nat, SchemaFile>, o: Executing.Outcome, t: Task)
    requires TaskVersion(t) in files && o.fine
    requires t.Apply? ==> files[t.version].version == t.version && t.version > o.memo.watermark
    ensures var o2 := Executing.Execute(compile, files, o, t);
            if o2.fine then o2.effects == o.effects + CallsOf(compile, files, o.memo, t) && o2.memo == MemoAfter(files, o.memo, t)
            else o2.effects == o.effects
    ensures Executing.Execute(compile, files, o, t).fine && t.Apply? && files[t.version].query ==> compile(o.memo.meta, files[t.version]).Ok?
  {
  }

  // The i-th call is call j of the k-th task.
  ghost predicate Located(compile: Compiler, files: map<nat, SchemaFile>, memo: Memo, tasks: seq<Task>, i: nat, k: nat, j: nat)
    requires Executing.Covers(files, tasks)
  {
    && k <= |tasks| && Done(compile, files, memo, tasks, k).fine
    && i == |Done(compile, files, memo, tasks, k).effects| + j
    && (j > 0 ==> k < |tasks| && j < |CallsOf(compile, files, Done(compile, files, memo, tasks, k).memo, tasks[k])|)
  }

  lemma DoneNext(compile: Compiler, files: map<nat, SchemaFile>, memo: Memo, tasks: seq<Task>, k: nat)
    requires Executing.Covers(files, tasks) && k < |tasks|
    ensures TaskVersion(tasks[k]) in files
    ensures Done(compile, files, memo, tasks, k + 1) == Executing.Execute(compile, files, Done(compile, files, memo, tasks, k), tasks[k])
  {
    assert tasks[k] in tasks;
    assert tasks[..k + 1][..k] == tasks[..k];
  }

  lemma DoneGrows(compile: Compiler, files: map<nat, SchemaFile>, memo: Memo, tasks: seq<Task>, k: nat)
    requires Executing.Covers(files, tasks) && k <= |tasks|
    ensures Done(compile, files, memo, tasks, k).effects <= Done(compile, files, memo, tasks, |tasks|).effects
    ensures !Done(compile, files, memo, tasks, k).fine ==> Done(compile, files, memo, tasks, |tasks|) == Done(compile, files, memo, tasks, k)
  {
    assert tasks == tasks[..k] + tasks[k..];
    assert tasks[..|tasks|] == tasks;
    Executing.ExecuteOn(compile, files, Executing.Begin(memo), tasks[..k], tasks[k..]);
    Executing.EffectsGrow(compile, files, Executing.ExecuteAll(compile, files, Executing.Begin(memo), tasks[..k]), tasks[k..]);
  }

  // A task that is reached makes its calls, or ends the scan without one.
  lemma NextCalls(compile: Compiler, files: map<nat, SchemaFile>, memo: Memo, base: nat, tasks: seq<Task>, k: nat)
    requires Executing.Ready(memo, files, tasks) && Executing.Planful(memo, base, tasks) && k < |tasks|
    requires Done(compile, files, memo, tasks, k).fine
    ensures TaskVersion(tasks[k]) in files && (tasks[k].Apply? ==> files[tasks[k].version].version == tasks[k].version)
    ensures var o, o2, whole := Done(compile, files, memo, tasks, k), Done(compile, files, memo, tasks, k + 1), Done(compile, files, memo, tasks, |tasks|);
            if o2.fine then
              && o2.memo == MemoAfter(files, o.memo, tasks[k]) && o2.effects == o.effects + CallsOf(compile, files, o.memo, tasks[k]) <= whole.effects
              && (tasks[k].Apply? && files[tasks[k].version].query ==> compile(o.memo.meta, files[tasks[k].version]).Ok?)
            else whole == o2 && o2.effects == o.effects
  {
    var o := Done(compile, files, memo, tasks, k);
    DoneNext(compile, files, memo, tasks, k);
    DoneGrows(compile, files, memo, tasks, k + 1);
    Executing.ScanIsFaithful(compile, memo, base, files, tasks, k);
    Executing.NextTaskFits(memo, base, files, tasks, k, o);
    Executing.TaskFacts(memo, base, files, tasks, k);
    hide Executing.ExecuteAll, Executing.Execute, Executing.Along, Executing.Ready, Executing.Planful;
    TaskCalls(compile, files, o, tasks[k]);
  }

  // A call that is made belongs to a task.
  lemma NextCall(compile: Compiler, files: map<nat, SchemaFile>, memo: Memo, base: nat, tasks: seq<Task>, i: nat, k: nat, j: nat)
    requires Executing.Ready(memo, files, tasks) && Executing.Planful(memo, base, tasks)
    requires Located(compile, files, memo, tasks, i, k, j) && i < |Done(compile, files, memo, tasks, |tasks|).effects|
    ensures k < |tasks| && TaskVersion(tasks[k]) in files && (tasks[k].Apply? ==> files[tasks[k].version].version == tasks[k].version)
    ensures var memo2 := Done(compile, files, memo, tasks, k).memo;
            var calls := CallsOf(compile, files, memo2, tasks[k]);
            && j < |calls| && Done(compile, files, memo, tasks, |tasks|).effects[i] == calls[j]
            && (j + 1 < |calls| ==> Located(compile, files, memo, tasks, i + 1, k, j + 1))
            && (j + 1 == |calls| ==> Located(compile, files, memo, tasks, i + 1, k + 1, 0)
                                     && Done(compile, files, memo, tasks, k + 1).memo == MemoAfter(files, memo2, tasks[k]))
            && (tasks[k].Apply? && files[tasks[k].version].query ==> compile(memo2.meta, files[tasks[k].version]).Ok?)
  {
    assert Executing.Covers(files, tasks);
    hide Executing.Covers, Executing.Ready, Executing.Planful, Done, CallsOf, MemoAfter;
    DoneGrows(compile, files, memo, tasks, k);
    if k < |tasks| {
      NextCalls(compile, files, memo, base, tasks, k);
      CallsExist(compile, files, Done(compile, files, memo, tasks, k).memo, tasks[k]);
    }
  }

  lemma CallsExist(compile: Compiler, files: map<nat, SchemaFile>, memo: Memo, t: Task)
    requires TaskVersion(t) in files
    ensures |CallsOf(compile, files, memo, t)| > 0
  {
  }

  // The protocol follows one more call.
  lemma CallIsStep(src: Source, denote: string -> Step, compile: Compiler, files: map<nat, SchemaFile>, checkpoint: nat, tasks: seq<Task>,
                   memo: Memo, k: nat, j: nat, t: TableState, w: World, w2: World) returns (t2: TableState)
    requires Sorted(tasks, TaskLess) && k < |tasks| && TaskVersion(tasks[k]) in files && At(tasks, memo, k, j, t)
    requires tasks[k].Apply? ==> files[tasks[k].version].version == tasks[k].version
    requires tasks[k].Apply? && files[tasks[k].version].query ==> compile(memo.meta, files[tasks[k].version]).Ok?
    requires ScriptedAt(src, denote, compile, files, memo, tasks[k])
    requires var calls := CallsOf(compile, files, memo, tasks[k]);
             j < |calls| && Accepted(denote, checkpoint, calls[j], w, w2) && SameTarget(WorldOf(t), w)
    ensures LoaderStep(src, checkpoint, Put(t, w), t2) && WorldOf(t2) == w2
    ensures if j + 1 < |CallsOf(compile, files, memo, tasks[k])| then At(tasks, memo, k, j + 1, t2)
            else At(tasks, MemoAfter(files, memo, tasks[k]), k + 1, 0, t2)
  {
    var calls := CallsOf(compile, files, memo, tasks[k]);
    hide At, LoaderStep, Sorted;
    match tasks[k]
    case Load(s, name) =>
      t2 := MergeIsStep(src, denote, checkpoint, tasks, memo, k, t, files[s.version], w, w2);
    case Apply(v) =>
      assert |calls| == |Script(src, v)| + 1;
      if j < |Script(src, v)| {
        var ss := compile(memo.meta, files[v]).value;
        assert calls[j] == Executing.Exec(memo.meta, files[v], ss[j]);
        t2 := ExecIsStep(src, denote, checkpoint, tasks, memo, k, j, t, memo.meta, files[v], ss[j], w, w2);
      } else {
        t2 := MarkIsStep(src, checkpoint, tasks, memo, k, t, Some(files[v]), w);
      }
  }

  // ----- The whole scan -----

  lemma FollowOn(src: Source, checkpoint: nat, worlds: seq<(World, World)>, ts: seq<TableState>, t2: TableState)
    requires worlds != [] && Follows(src, checkpoint, worlds[..|worlds| - 1], ts)
    requires LoaderStep(src, checkpoint, Put(ts[|worlds| - 1], worlds[|worlds| - 1].0), t2) && WorldOf(t2) == worlds[|worlds| - 1].1
    ensures Follows(src, checkpoint, worlds, ts + [t2])
  {
    hide LoaderStep;
    var all, n := ts + [t2], |worlds| - 1;
    forall i | 0 <= i < |worlds|
      ensures LoaderStep(src, checkpoint, Put(all[i], worlds[i].0), all[i + 1]) && WorldOf(all[i + 1]) == worlds[i].1
    {
      if i < n {
        assert worlds[..n][i] == worlds[i];
      }
    }
  }

  lemma HappenedBefore(denote: string -> Step, checkpoint: nat, start: World, calls: seq<Effect>, worlds: seq<(World, World)>)
    requires calls != [] && Happened(denote, checkpoint, start, calls, worlds)
    ensures Happened(denote, checkpoint, start, calls[..|calls| - 1], worlds[..|calls| - 1])
  {
    hide Accepted, SameTarget;
    var n := |calls| - 1;
    forall i | 0 <= i < n
      ensures Accepted(denote, checkpoint, calls[..n][i], worlds[..n][i].0, worlds[..n][i].1)
      ensures SameTarget(Since(start, worlds[..n], i), worlds[..n][i].0)
    {
      assert Accepted(denote, checkpoint, calls[i], worlds[i].0, worlds[i].1);
      assert SameTarget(Since(start, worlds, i), worlds[i].0);
    }
  }

  lemma HappensLast(denote: string -> Step, checkpoint: nat, start: World, calls: seq<Effect>, worlds: seq<(World, World)>)
    requires calls != [] && Happened(denote, checkpoint, start, calls, worlds)
    ensures var n := |calls| - 1;
            Accepted(denote, checkpoint, calls[n], worlds[n].0, worlds[n].1) && SameTarget(Since(start, worlds, n), worlds[n].0)
  {
    hide Accepted, SameTarget;
  }

  // Whatever calls of the scan have been made, and however Snowflake and the producer have acted,
  // the protocol has gone through the same worlds.
  lemma {:induction false} CallsAreRun(src: Source, denote: string -> Step, compile: Compiler, files: map<nat, SchemaFile>, memo: Memo,
                                       base: nat, tasks: seq<Task>, checkpoint: nat, t: TableState, made: seq<Effect>, worlds: seq<(World, World)>)
    returns (ts: seq<TableState>, k: nat, j: nat)
    requires Executing.Ready(memo, files, tasks) && Executing.Planful(memo, base, tasks) && Scripted(src, denote, compile, files, memo, tasks)
    requires At(tasks, memo, 0, 0, t) && made <= Done(compile, files, memo, tasks, |tasks|).effects
    requires Happened(denote, checkpoint, WorldOf(t), made, worlds)
    ensures Follows(src, checkpoint, worlds, ts) && ts[0] == t
    ensures Located(compile, files, memo, tasks, |made|, k, j)
    ensures At(tasks, Done(compile, files, memo, tasks, k).memo, k, j, ts[|made|])
    decreases |made|
  {
    if made == [] {
      ts, k, j := [t], 0, 0;
      assert tasks[..0] == [];
    } else {
      hide Executing.Ready, Executing.Planful, Scripted, Located, At, LoaderStep, Accepted, SameTarget;
      var n := |made| - 1;
      HappenedBefore(denote, checkpoint, WorldOf(t), made, worlds);
      HappensLast(denote, checkpoint, WorldOf(t), made, worlds);
      assert n > 0 ==> worlds[..n][n - 1] == worlds[n - 1];
      hide Happened;
      ts, k, j := CallsAreRun(src, denote, compile, files, memo, base, tasks, checkpoint, t, made[..n], worlds[..n]);
      var t2;
      k, j, t2 := NextInRun(src, denote, compile, files, memo, base, tasks, checkpoint, made, k, j, ts[n], worlds[n].0, worlds[n].1, n);
      FollowOn(src, checkpoint, worlds, ts, t2);
      ts := ts + [t2];
    }
  }

  lemma NextInRun(src: Source, denote: string -> Step, compile: Compiler, files: map<nat, SchemaFile>, memo: Memo, base: nat, tasks: seq<Task>,
                  checkpoint: nat, made: seq<Effect>, k: nat, j: nat, t: TableState, w: World, w2: World, n: nat)
    returns (k2: nat, j2: nat, t2: TableState)
    requires Executing.Ready(memo, files, tasks) && Executing.Planful(memo, base, tasks) && Scripted(src, denote, compile, files, memo, tasks)
    requires n < |made| && made <= Done(compile, files, memo, tasks, |tasks|).effects && Located(compile, files, memo, tasks, n, k, j)
    requires At(tasks, Done(compile, files, memo, tasks, k).memo, k, j, t)
    requires Accepted(denote, checkpoint, made[n], w, w2) && SameTarget(WorldOf(t), w)
    ensures LoaderStep(src, checkpoint, Put(t, w), t2) && WorldOf(t2) == w2
    ensures Located(compile, files, memo, tasks, n + 1, k2, j2) && At(tasks, Done(compile, files, memo, tasks, k2).memo, k2, j2, t2)
  {
    assert Executing.Covers(files, tasks) && Sorted(tasks, TaskLess);
    NextCall(compile, files, memo, base, tasks, n, k, j);
    var memo2 := Done(compile, files, memo, tasks, k).memo;
    assert ScriptedAt(src, denote, compile, files, memo2, tasks[k]);
    hide Executing.Covers, Executing.Ready, Executing.Planful, Scripted, ScriptedAt, Done, CallsOf, MemoAfter, At, Accepted, LoaderStep, Sorted, Located;
    t2 := CallIsStep(src, denote, compile, files, checkpoint, tasks, memo2, k, j, t, w, w2);
    if j + 1 < |CallsOf(compile, files, memo2, tasks[k])| {
      k2, j2 := k, j + 1;
    } else {
      k2, j2 := k + 1, 0;
    }
  }

  // Before the end of the list there are calls left.
  lemma CallsAreLeft(compile: Compiler, files: map<nat, SchemaFile>, memo: Memo, base: nat, tasks: seq<Task>, i: nat, k: nat, j: nat)
    requires Executing.Ready(memo, files, tasks) && Executing.Planful(memo, base, tasks)
    requires Located(compile, files, memo, tasks, i, k, j) && k < |tasks| && Done(compile, files, memo, tasks, |tasks|).fine
    ensures i < |Done(compile, files, memo, tasks, |tasks|).effects|
  {
    assert Executing.Covers(files, tasks);
    hide Executing.Covers, Executing.Ready, Executing.Planful, Done, CallsOf, MemoAfter;
    NextCalls(compile, files, memo, base, tasks, k);
    CallsExist(compile, files, Done(compile, files, memo, tasks, k).memo, tasks[k]);
  }

  // After all calls nothing is left to do but to store the cursors.
  lemma AllDone(compile: Compiler, files: map<nat, SchemaFile>, memo: Memo, base: nat, tasks: seq<Task>, k: nat, j: nat, t: TableState)
    requires Executing.Ready(memo, files, tasks) && Executing.Planful(memo, base, tasks)
    requires var o := Done(compile, files, memo, tasks, |tasks|);
             o.fine && Located(compile, files, memo, tasks, |o.effects|, k, j) && At(tasks, Done(compile, files, memo, tasks, k).memo, k, j, t)
    ensures var o := Done(compile, files, memo, tasks, |tasks|);
            Finished(o.memo, t)
  {
    assert Executing.Covers(files, tasks);
    hide Executing.Covers, Executing.Ready, Executing.Planful, Done, CallsOf;
    if k < |tasks| {
      CallsAreLeft(compile, files, memo, base, tasks, |Done(compile, files, memo, tasks, |tasks|).effects|, k, j);
    }
    assert tasks[k..] == [];
  }

  // ----- processTable -----

  // The DDLs of this scan do what the source's scripts say.
  ghost predicate ScanScripted(src: Source, denote: string -> Step, compile: Compiler, memo: Memo, scan: Scan, checkpoint: nat, store: Store)
    requires Labelled(store) && Parsed(store) && MetaFits(memo.watermark, memo.meta) && Readable(store, scan, memo.watermark, memo.meta)
    requires PlanScan(memo.cursors, memo.watermark, checkpoint, store) == Some(scan)
  {
    ScanIsReady(memo, scan, checkpoint, store);
    Scripted(src, denote, compile, FilesOf(store, Needed(scan, memo.watermark, memo.meta)), StartMemo(memo, scan, store), WorkList(scan.ranges))
  }

  lemma NoTasks(ranges: map<PathKey, Range>)
    requires ranges == map[]
    ensures WorkList(ranges) == []
  {
    KeysAreOrdered();
    assert forall k :: k !in WorkOrder(ranges);
  }

  // What a call of processTable does outside, succeed or fail and stop where it may, is a run of the
  // protocol from the plan on; and if it succeeds that run has come to its end.
  lemma ScanIsRun(src: Source, denote: string -> Step, compile: Compiler, memo: Memo, checkpoint: nat, store: Store, scan: Scan,
                  budget: nat, before: seq<Effect>, made: seq<Effect>, ok: bool, loaded: nat, memo2: Memo,
                  t: TableState, worlds: seq<(World, World)>) returns (ts: seq<TableState>)
    requires Labelled(store) && Parsed(store) && MetaFits(memo.watermark, memo.meta)
    requires PlanScan(memo.cursors, memo.watermark, checkpoint, store) == Some(scan)
    requires Scanned(compile, memo, checkpoint, store, budget, before, before + made, ok, loaded, memo2)
    requires Readable(store, scan, memo.watermark, memo.meta) ==> ScanScripted(src, denote, compile, memo, scan, checkpoint, store)
    requires Answers(t, checkpoint, store) && LookedEverywhere(t) && t.watermark == memo.watermark && t.cursors == memo.cursors
    requires Happened(denote, checkpoint, WorldOf(t), made, worlds)
    ensures Follows(src, checkpoint, worlds, ts)
    ensures MakePlan(checkpoint, t, ts[0], DdlsOf(WorkList(scan.ranges)))
    ensures ok ==> Finished(memo2, ts[|made|])
  {
    WhatIsMade(compile, memo, checkpoint, store, scan, budget, before, made, ok, loaded, memo2);
    var t0 := PlanIsAt(memo, checkpoint, store, scan, t);
    hide Scanned, Answers, LookedEverywhere, At, MakePlan, PlanScan, Readable, Labelled, Parsed, MetaFits, Finished, ScanScripted, Happened, Follows, Expected;
    if scan.ranges != map[] && Readable(store, scan, memo.watermark, memo.meta) {
      ts := WorkIsRun(src, denote, compile, memo, checkpoint, store, scan, t0, made, worlds);
    } else {
      NothingMade(src, denote, checkpoint, WorldOf(t), worlds, t0);
      if ok {
        NoTasks(scan.ranges);
        NothingToDo(memo, t0);
      }
      ts := [t0];
    }
  }

  // The calls made are the first of those expected, and all of them on success.
  lemma WhatIsMade(compile: Compiler, memo: Memo, checkpoint: nat, store: Store, scan: Scan,
                   budget: nat, before: seq<Effect>, made: seq<Effect>, ok: bool, loaded: nat, memo2: Memo)
    requires Labelled(store) && MetaFits(memo.watermark, memo.meta) && PlanScan(memo.cursors, memo.watermark, checkpoint, store) == Some(scan)
    requires Scanned(compile, memo, checkpoint, store, budget, before, before + made, ok, loaded, memo2)
    ensures if scan.ranges != map[] && Readable(store, scan, memo.watermark, memo.meta) then
              var o := Expected(compile, memo, scan, checkpoint, store);
              made <= o.effects && (ok ==> made == o.effects && o.fine && memo2 == o.memo)
            else made == [] && (ok ==> scan.ranges == map[] && memo2 == memo)
  {
    hide PlanScan, Readable, Labelled, MetaFits, Expected, CountLoads, WorkList;
    if scan.ranges != map[] && Readable(store, scan, memo.watermark, memo.meta) {
      MadeIs(before, made, Executing.Cut(Expected(compile, memo, scan, checkpoint, store).effects, budget));
    } else {
      MadeIs(before, made, []);
    }
  }

  lemma PlanIsAt(memo: Memo, checkpoint: nat, store: Store, scan: Scan, t: TableState) returns (t0: TableState)
    requires PlanScan(memo.cursors, memo.watermark, checkpoint, store) == Some(scan)
    requires Answers(t, checkpoint, store) && LookedEverywhere(t) && t.watermark == memo.watermark && t.cursors == memo.cursors
    ensures MakePlan(checkpoint, t, t0, DdlsOf(WorkList(scan.ranges))) && At(WorkList(scan.ranges), memo, 0, 0, t0) && WorldOf(t0) == WorldOf(t)
  {
    var tasks := WorkList(scan.ranges);
    PlanRefinesMakePlan(t, checkpoint, store, scan);
    hide Answers, PlanScan, LookedEverywhere, MakePlan, Queues;
    t0 := t.(stage := Running(t.stage.floor, DdlsOf(tasks), Queues(t), 0));
    assert tasks[0..] == tasks;
  }

  lemma NothingMade(src: Source, denote: string -> Step, checkpoint: nat, start: World, worlds: seq<(World, World)>, t: TableState)
    requires Happened(denote, checkpoint, start, [], worlds)
    ensures Follows(src, checkpoint, worlds, [t])
  {
  }

  lemma NothingToDo(memo: Memo, t: TableState)
    requires At([], memo, 0, 0, t)
    ensures Finished(memo, t)
  {
  }

  lemma MadeIs(before: seq<Effect>, made: seq<Effect>, calls: seq<Effect>)
    requires before + made == before + calls
    ensures made == calls
  {
    assert made == (before + made)[|before|..];
    assert calls == (before + calls)[|before|..];
  }

  lemma WorkIsRun(src: Source, denote: string -> Step, compile: Compiler, memo: Memo, checkpoint: nat, store: Store, scan: Scan,
                  t: TableState, made: seq<Effect>, worlds: seq<(World, World)>) returns (ts: seq<TableState>)
    requires Labelled(store) && Parsed(store) && MetaFits(memo.watermark, memo.meta)
    requires PlanScan(memo.cursors, memo.watermark, checkpoint, store) == Some(scan) && Readable(store, scan, memo.watermark, memo.meta)
    requires ScanScripted(src, denote, compile, memo, scan, checkpoint, store)
    requires At(WorkList(scan.ranges), memo, 0, 0, t) && Happened(denote, checkpoint, WorldOf(t), made, worlds)
    requires made <= Expected(compile, memo, scan, checkpoint, store).effects
    ensures Follows(src, checkpoint, worlds, ts) && ts[0] == t
    ensures var o := Expected(compile, memo, scan, checkpoint, store);
            made == o.effects && o.fine ==> Finished(o.memo, ts[|made|])
  {
    ScanIsReady(memo, scan, checkpoint, store);
    var tasks, start := WorkList(scan.ranges), StartMemo(memo, scan, store);
    var files := FilesOf(store, Needed(scan, memo.watermark, memo.meta));
    var base := Executing.Base(SetOf(store.schemas.value), memo.watermark, checkpoint);
    assert tasks[..|tasks|] == tasks;
    assert Expected(compile, memo, scan, checkpoint, store) == Done(compile, files, start, tasks, |tasks|);
    assert At(tasks, start, 0, 0, t);
    hide Executing.Ready, Executing.Planful, Scripted, Located, At, Done, Happened, Follows, Labelled, Parsed, Readable, Expected, PlanScan;
    var k, j;
    ts, k, j := CallsAreRun(src, denote, compile, files, start, base, tasks, checkpoint, t, made, worlds);
    if made == Done(compile, files, start, tasks, |tasks|).effects && Done(compile, files, start, tasks, |tasks|).fine {
      AllDone(compile, files, start, base, tasks, k, j, ts[|made|]);
    }
  }
}
