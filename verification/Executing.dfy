// What working off a task list does to the outside world and to the loader's memory.
module Executing {
  import opened Wrappers
  import opened Discovery
  import opened Replication
  import opened Sorting
  import opened Planning

  // One call that leaves the process: a Snowflake DDL statement, a watermark write, a file merge.
  datatype Effect =
    | Exec(prev: Option<SchemaFile>, next: SchemaFile, statement: string)
    | Mark(version: nat)
    | Merge(schema: SchemaFile, scope: Scope, name: Name)

  // The loader's memory of one table.
  datatype Memo = Memo(watermark: nat, meta: Option<SchemaFile>, cursors: map<Scope, Name>)

  // What the calls made so far were and what is in memory after them; `fine` is false once a DDL
  // could not be compiled or its table has no primary key.
  datatype Outcome = Outcome(memo: Memo, effects: seq<Effect>, fine: bool)

  // GenDDLViaTiDBDDL: the statements that take the previous schema to the next one, or an error.
  type Compiler = (Option<SchemaFile>, SchemaFile) -> Result<seq<string>>

  function Execs(prev: Option<SchemaFile>, next: SchemaFile, statements: seq<string>): (effects: seq<Effect>)
    ensures |effects| == |statements| && forall i | 0 <= i < |effects| :: effects[i] == Exec(prev, next, statements[i])
  {
    if statements == [] then []
    else Execs(prev, next, statements[..|statements| - 1]) + [Exec(prev, next, statements[|statements| - 1])]
  }

  // execDDL and applyDDL.
  function ExecuteDdl(compile: Compiler, o: Outcome, file: SchemaFile): Outcome {
    var known := o.memo.(meta := Some(file));
    if !file.keyed then o.(fine := false)
    else if !file.query then
      if file.version > o.memo.watermark
      then Outcome(known.(watermark := file.version), o.effects + [Mark(file.version)], true)
      else o.(memo := known)
    else if file.version <= o.memo.watermark then o.(memo := known)
    else match compile(o.memo.meta, file)
      case Err(_) => o.(fine := false)
      case Ok(statements) =>
        Outcome(known.(watermark := file.version),
                o.effects + Execs(o.memo.meta, file, statements) + [Mark(file.version)], true)
  }

  function Execute(compile: Compiler, files: map<nat, SchemaFile>, o: Outcome, task: Task): Outcome
    requires TaskVersion(task) in files
  {
    if !o.fine then o
    else match task
      case Apply(v) => ExecuteDdl(compile, o, files[v])
      case Load(s, name) =>
        Outcome(o.memo.(cursors := o.memo.cursors[s := name]), o.effects + [Merge(files[s.version], s, name)], true)
  }

  predicate Covers(files: map<nat, SchemaFile>, tasks: seq<Task>) {
    forall t | t in tasks :: TaskVersion(t) in files
  }

  function ExecuteAll(compile: Compiler, files: map<nat, SchemaFile>, o: Outcome, tasks: seq<Task>): Outcome
    requires Covers(files, tasks)
  {
    if tasks == [] then o
    else Execute(compile, files, ExecuteAll(compile, files, o, tasks[..|tasks| - 1]), tasks[|tasks| - 1])
  }

  function Begin(memo: Memo): Outcome { Outcome(memo, [], true) }

  lemma {:induction false} ExecuteOn(compile: Compiler, files: map<nat, SchemaFile>, o: Outcome, a: seq<Task>, b: seq<Task>)
    requires Covers(files, a + b)
    ensures Covers(files, a) && Covers(files, b)
    ensures ExecuteAll(compile, files, o, a + b) == ExecuteAll(compile, files, ExecuteAll(compile, files, o, a), b)
  {
    assert forall t | t in a :: t in a + b;
    assert forall t | t in b :: t in a + b;
    if b == [] {
      assert a + b == a;
    } else {
      assert (a + b)[..|a + b| - 1] == a + b[..|b| - 1];
      ExecuteOn(compile, files, o, a, b[..|b| - 1]);
    }
  }

  // Effects are only added, and none after a failure.
  lemma {:induction false} EffectsGrow(compile: Compiler, files: map<nat, SchemaFile>, o: Outcome, tasks: seq<Task>)
    requires Covers(files, tasks)
    ensures o.effects <= ExecuteAll(compile, files, o, tasks).effects
    ensures !o.fine ==> ExecuteAll(compile, files, o, tasks) == o
  {
    if tasks != [] {
      EffectsGrow(compile, files, o, tasks[..|tasks| - 1]);
    }
  }

  // ----- When working off a list fails -----

  // Working on task t fails without a call: its schema file's table has no primary key, or its query, which
  // is not yet applied, cannot be translated.
  predicate Refuses(compile: Compiler, files: map<nat, SchemaFile>, memo: Memo, t: Task)
    requires TaskVersion(t) in files
  {
    t.Apply? && var file := files[t.version];
    !file.keyed || (file.query && memo.watermark < file.version && compile(memo.meta, file).Err?)
  }

  lemma FineIff(compile: Compiler, files: map<nat, SchemaFile>, o: Outcome, t: Task)
    requires TaskVersion(t) in files && o.fine
    ensures Execute(compile, files, o, t).fine <==> !Refuses(compile, files, o.memo, t)
  {
  }

  // A list is worked off to its end exactly if no task refuses in the memory that those before it leave.
  lemma {:induction false} AllFineIff(compile: Compiler, files: map<nat, SchemaFile>, memo: Memo, tasks: seq<Task>)
    requires Covers(files, tasks)
    ensures ExecuteAll(compile, files, Begin(memo), tasks).fine <==>
              forall k | 0 <= k < |tasks| :: NotRefused(compile, files, memo, tasks, k)
  {
    if tasks != [] {
      var n := |tasks| - 1;
      AllFineIff(compile, files, memo, tasks[..n]);
      forall k | 0 <= k < n ensures NotRefused(compile, files, memo, tasks[..n], k) <==> NotRefused(compile, files, memo, tasks, k) {
        assert tasks[..n][..k] == tasks[..k] && tasks[..n][k] == tasks[k];
      }
      var o := ExecuteAll(compile, files, Begin(memo), tasks[..n]);
      assert tasks[n] in tasks;
      if o.fine {
        FineIff(compile, files, o, tasks[n]);
      }
      assert ExecuteAll(compile, files, Begin(memo), tasks).fine <==> o.fine && NotRefused(compile, files, memo, tasks, n);
      hide Refuses, Execute, ExecuteAll, NotRefused;
    }
  }

  predicate NotRefused(compile: Compiler, files: map<nat, SchemaFile>, memo: Memo, tasks: seq<Task>, k: nat)
    requires Covers(files, tasks) && k < |tasks|
  {
    assert forall t | t in tasks[..k] :: t in tasks;
    assert tasks[k] in tasks;
    !Refuses(compile, files, ExecuteAll(compile, files, Begin(memo), tasks[..k]).memo, tasks[k])
  }

  // ----- Stopping early -----

  // The calls made when only `budget` of them succeed.
  function Cut(effects: seq<Effect>, budget: nat): seq<Effect> {
    if |effects| <= budget then effects else effects[..budget]
  }

  // A run that stops at a task that fails, or within which the budget runs out, has made the
  // same calls as the whole run.
  lemma StopsHere(compile: Compiler, files: map<nat, SchemaFile>, o: Outcome, done: seq<Task>, rest: seq<Task>, budget: nat)
    requires Covers(files, done + rest)
    ensures Covers(files, done)
    ensures var part, whole := ExecuteAll(compile, files, o, done), ExecuteAll(compile, files, o, done + rest);
            && (!part.fine || |part.effects| > budget ==>
                  Cut(whole.effects, budget) == Cut(part.effects, budget) && !(whole.fine && |whole.effects| <= budget))
  {
    ExecuteOn(compile, files, o, done, rest);
    EffectsGrow(compile, files, ExecuteAll(compile, files, o, done), rest);
  }

  // ----- What holds at every moment of the work -----

  function WatermarkAt(watermark: nat, effects: seq<Effect>): nat {
    if effects == [] then watermark
    else
      var e := effects[|effects| - 1];
      if e.Mark? then e.version else WatermarkAt(watermark, effects[..|effects| - 1])
  }

  function CursorAt(cursors: map<Scope, Name>, effects: seq<Effect>, s: Scope): Name {
    if effects == [] then CursorOf(cursors, s)
    else
      var e := effects[|effects| - 1];
      if e.Merge? && e.scope == s then e.name else CursorAt(cursors, effects[..|effects| - 1], s)
  }

  // Call e, made with these calls before it, is right: statements compile from the schema at the
  // watermark, watermarks grow, a file is merged under the schema version in force, with that
  // version's schema file, and past its stream's cursor.
  ghost predicate Right(memo: Memo, base: nat, before: seq<Effect>, e: Effect) {
    var watermark := WatermarkAt(memo.watermark, before);
    match e
    case Exec(prev, next, _) =>
      next.version > watermark &&
      (if watermark > 0 then prev.Some? && prev.value.version == watermark else prev.None?)
    case Mark(v) => v > watermark
    case Merge(schema, s, name) =>
      && schema.version == s.version == (if watermark > 0 then watermark else base)
      && NameLess(CursorAt(memo.cursors, before, s), name)
  }

  ghost predicate Faithful(memo: Memo, base: nat, effects: seq<Effect>) {
    forall i | 0 <= i < |effects| :: Right(memo, base, effects[..i], effects[i])
  }

  lemma FaithfulAppend(memo: Memo, base: nat, effects: seq<Effect>, e: Effect)
    requires Faithful(memo, base, effects) && Right(memo, base, effects, e)
    ensures Faithful(memo, base, effects + [e])
  {
    var all := effects + [e];
    forall i | 0 <= i < |all| ensures Right(memo, base, all[..i], all[i]) {
      if i < |effects| {
        assert all[..i] == effects[..i];
      } else {
        assert all[..i] == effects;
      }
    }
  }

  // What the loader owes the work list: schema files that say the version they are named after,
  // and metadata of the current version if a DDL is to come.
  ghost predicate Ready(memo: Memo, files: map<nat, SchemaFile>, tasks: seq<Task>) {
    && Covers(files, tasks) && (forall v | v in files :: files[v].version == v)
    && (memo.watermark == 0 ==> memo.meta.None?)
    && (memo.meta.Some? ==> memo.meta.value.version == memo.watermark)
    && (memo.watermark > 0 && (exists t :: t in tasks && t.Apply?) ==> memo.meta.Some?)
  }

  // What the plan owes: sorted tasks, DDLs past the watermark, files past the cursors and of the
  // current version or one whose DDL comes in the same list.
  ghost predicate Planful(memo: Memo, base: nat, tasks: seq<Task>) {
    && Sorted(tasks, TaskLess) && (memo.watermark > 0 ==> base == memo.watermark)
    && (forall t | t in tasks && t.Apply? :: t.version > memo.watermark && t.version > base)
    && (forall t | t in tasks && t.Load? :: NameLess(CursorOf(memo.cursors, t.scope), t.name))
    && (forall t | t in tasks && t.Load? :: t.scope.version == base || Apply(t.scope.version) in tasks)
  }

  // The state after a prefix of the tasks.
  ghost predicate Along(memo: Memo, base: nat, files: map<nat, SchemaFile>, done: seq<Task>, o: Outcome) {
    && Faithful(memo, base, o.effects)
    && (o.fine ==>
      && o.memo.watermark == WatermarkAt(memo.watermark, o.effects)
      && (o.memo.watermark == memo.watermark || o.memo.watermark > base)
      && (forall s :: CursorOf(o.memo.cursors, s) == CursorAt(memo.cursors, o.effects, s))
      && (forall t | t in done && t.Apply? :: t.version <= o.memo.watermark)
      && (o.memo.watermark == memo.watermark || Apply(o.memo.watermark) in done)
      && (forall s :: CursorOf(o.memo.cursors, s) == CursorOf(memo.cursors, s) || Load(s, CursorOf(o.memo.cursors, s)) in done)
      && (if o.memo.watermark == memo.watermark then o.memo.meta == memo.meta
          else o.memo.meta.Some? && o.memo.meta.value.version == o.memo.watermark))
  }

  lemma {:induction false} ExecsAreRight(memo: Memo, base: nat, before: seq<Effect>, prev: Option<SchemaFile>, next: SchemaFile, statements: seq<string>)
    requires Faithful(memo, base, before)
    requires forall statement :: Right(memo, base, before, Exec(prev, next, statement))
    ensures Faithful(memo, base, before + Execs(prev, next, statements))
    ensures WatermarkAt(memo.watermark, before + Execs(prev, next, statements)) == WatermarkAt(memo.watermark, before)
    ensures forall s :: CursorAt(memo.cursors, before + Execs(prev, next, statements), s) == CursorAt(memo.cursors, before, s)
  {
    if statements == [] {
      assert before + Execs(prev, next, statements) == before;
    } else {
      var n := |statements| - 1;
      ExecsAreRight(memo, base, before, prev, next, statements[..n]);
      var all := before + Execs(prev, next, statements);
      assert all == before + Execs(prev, next, statements[..n]) + [Exec(prev, next, statements[n])];
      assert all[..|all| - 1] == before + Execs(prev, next, statements[..n]);
      FaithfulAppend(memo, base, all[..|all| - 1], Exec(prev, next, statements[n]));
    }
  }

  lemma ApplyKeeps(compile: Compiler, memo: Memo, base: nat, files: map<nat, SchemaFile>, done: seq<Task>, o: Outcome, v: nat)
    requires Along(memo, base, files, done, o) && o.fine && v in files && files[v].version == v
    requires v > o.memo.watermark && v > memo.watermark && v > base
    requires memo.watermark == 0 ==> memo.meta.None?
    requires memo.meta.Some? ==> memo.meta.value.version == memo.watermark
    requires memo.watermark > 0 ==> memo.meta.Some?
    ensures Along(memo, base, files, done + [Apply(v)], Execute(compile, files, o, Apply(v)))
  {
    var file, after := files[v], Execute(compile, files, o, Apply(v));
    if !after.fine {
      assert Faithful(memo, base, after.effects);
    } else if file.query {
      var statements := compile(o.memo.meta, file).value;
      DdlIsFaithful(memo, base, files, done, o, file, statements);
      AlongMarked(memo, base, files, done, o, file, o.effects + Execs(o.memo.meta, file, statements));
    } else {
      AlongMarked(memo, base, files, done, o, file, o.effects);
    }
  }

  lemma DdlIsFaithful(memo: Memo, base: nat, files: map<nat, SchemaFile>, done: seq<Task>, o: Outcome, file: SchemaFile, statements: seq<string>)
    requires Along(memo, base, files, done, o) && o.fine && file.version > o.memo.watermark
    requires memo.watermark == 0 ==> memo.meta.None?
    requires memo.meta.Some? ==> memo.meta.value.version == memo.watermark
    requires memo.watermark > 0 ==> memo.meta.Some?
    ensures var ran := o.effects + Execs(o.memo.meta, file, statements);
            && Faithful(memo, base, ran) && WatermarkAt(memo.watermark, ran) == o.memo.watermark
            && forall s :: CursorAt(memo.cursors, ran, s) == CursorAt(memo.cursors, o.effects, s)
  {
    hide Faithful, WatermarkAt, CursorAt;
    ExecsAreRight(memo, base, o.effects, o.memo.meta, file, statements);
  }

  // The version's DDL has run with these calls; its mark is the last.
  lemma AlongMarked(memo: Memo, base: nat, files: map<nat, SchemaFile>, done: seq<Task>, o: Outcome, file: SchemaFile, ran: seq<Effect>)
    requires Along(memo, base, files, done, o) && o.fine
    requires file.version > o.memo.watermark && file.version > memo.watermark && file.version > base
    requires Faithful(memo, base, ran) && WatermarkAt(memo.watermark, ran) == o.memo.watermark
    requires forall s :: CursorAt(memo.cursors, ran, s) == CursorAt(memo.cursors, o.effects, s)
    ensures Along(memo, base, files, done + [Apply(file.version)],
                  Outcome(o.memo.(meta := Some(file), watermark := file.version), ran + [Mark(file.version)], true))
  {
    FaithfulAppend(memo, base, ran, Mark(file.version));
    MarkLast(memo, ran, file.version);
    hide Faithful, WatermarkAt, CursorAt;
    assert forall t | t in done :: t in done + [Apply(file.version)];
    assert Apply(file.version) in done + [Apply(file.version)];
  }

  lemma MarkLast(memo: Memo, effects: seq<Effect>, v: nat)
    ensures WatermarkAt(memo.watermark, effects + [Mark(v)]) == v
    ensures forall s :: CursorAt(memo.cursors, effects + [Mark(v)], s) == CursorAt(memo.cursors, effects, s)
  {
    assert (effects + [Mark(v)])[..|effects|] == effects;
  }

  lemma LoadKeeps(compile: Compiler, memo: Memo, base: nat, files: map<nat, SchemaFile>, done: seq<Task>, o: Outcome, s: Scope, name: Name)
    requires Along(memo, base, files, done, o) && o.fine && s.version in files && files[s.version].version == s.version
    requires s.version == if o.memo.watermark > 0 then o.memo.watermark else base
    requires NameLess(CursorOf(o.memo.cursors, s), name)
    ensures Along(memo, base, files, done + [Load(s, name)], Execute(compile, files, o, Load(s, name)))
  {
    var e := Merge(files[s.version], s, name);
    assert Right(memo, base, o.effects, e);
    FaithfulAppend(memo, base, o.effects, e);
    MergeLast(memo, o.effects, e);
    AlongMerged(memo, base, files, done, o, e);
  }

  lemma AlongMerged(memo: Memo, base: nat, files: map<nat, SchemaFile>, done: seq<Task>, o: Outcome, e: Effect)
    requires Along(memo, base, files, done, o) && o.fine && e.Merge? && Faithful(memo, base, o.effects + [e])
    requires WatermarkAt(memo.watermark, o.effects + [e]) == WatermarkAt(memo.watermark, o.effects)
    requires forall s :: CursorAt(memo.cursors, o.effects + [e], s) == if s == e.scope then e.name else CursorAt(memo.cursors, o.effects, s)
    ensures Along(memo, base, files, done + [Load(e.scope, e.name)],
                  Outcome(o.memo.(cursors := o.memo.cursors[e.scope := e.name]), o.effects + [e], true))
  {
    hide Faithful, WatermarkAt, CursorAt;
    assert forall t | t in done :: t in done + [Load(e.scope, e.name)];
    assert Load(e.scope, e.name) in done + [Load(e.scope, e.name)];
  }

  lemma MergeLast(memo: Memo, effects: seq<Effect>, e: Effect)
    requires e.Merge?
    ensures WatermarkAt(memo.watermark, effects + [e]) == WatermarkAt(memo.watermark, effects)
    ensures forall s :: CursorAt(memo.cursors, effects + [e], s) == if s == e.scope then e.name else CursorAt(memo.cursors, effects, s)
  {
    assert (effects + [e])[..|effects|] == effects;
  }

  // The next task finds the version it needs in force.
  lemma NextTaskFits(memo: Memo, base: nat, files: map<nat, SchemaFile>, tasks: seq<Task>, n: nat, o: Outcome)
    requires Planful(memo, base, tasks) && n < |tasks| && Along(memo, base, files, tasks[..n], o) && o.fine
    ensures tasks[n].Apply? ==> tasks[n].version > o.memo.watermark
    ensures tasks[n].Load? ==> tasks[n].scope.version == if o.memo.watermark > 0 then o.memo.watermark else base
    ensures tasks[n].Load? ==> NameLess(CursorOf(o.memo.cursors, tasks[n].scope), tasks[n].name)
  {
    var t, w := tasks[n], o.memo.watermark;
    assert t in tasks;
    forall u | u in tasks[..n] ensures TaskLess(u, t) {
      var i :| 0 <= i < n && tasks[i] == u;
    }
    forall u | u in tasks && TaskLess(u, t) ensures u in tasks[..n] {
      var i :| 0 <= i < |tasks| && tasks[i] == u;
      assert i > n ==> TaskLess(t, u);
      assert tasks[..n][i] == u;
    }
  }

  lemma AlongStart(memo: Memo, base: nat, files: map<nat, SchemaFile>)
    ensures Along(memo, base, files, [], Begin(memo))
  {
  }

  lemma TaskFacts(memo: Memo, base: nat, files: map<nat, SchemaFile>, tasks: seq<Task>, n: nat)
    requires Ready(memo, files, tasks) && Planful(memo, base, tasks) && n < |tasks|
    ensures TaskVersion(tasks[n]) in files && files[TaskVersion(tasks[n])].version == TaskVersion(tasks[n])
    ensures tasks[n].Apply? ==> tasks[n].version > memo.watermark && tasks[n].version > base
    ensures memo.watermark == 0 ==> memo.meta.None?
    ensures memo.meta.Some? ==> memo.meta.value.version == memo.watermark
    ensures tasks[n].Apply? && memo.watermark > 0 ==> memo.meta.Some?
  {
    assert tasks[n] in tasks;
  }

  // Every call a scan makes is right, whenever the scan stops.
  lemma {:induction false} ScanIsFaithful(compile: Compiler, memo: Memo, base: nat, files: map<nat, SchemaFile>, tasks: seq<Task>, n: nat)
    requires Ready(memo, files, tasks) && Planful(memo, base, tasks) && n <= |tasks|
    ensures Covers(files, tasks[..n])
    ensures Along(memo, base, files, tasks[..n], ExecuteAll(compile, files, Begin(memo), tasks[..n]))
  {
    assert Covers(files, tasks[..n]);
    hide Ready, Planful, Along, Execute;
    if n == 0 {
      AlongStart(memo, base, files);
    } else {
      ScanIsFaithful(compile, memo, base, files, tasks, n - 1);
      var o, t := ExecuteAll(compile, files, Begin(memo), tasks[..n - 1]), tasks[n - 1];
      assert tasks[..n][..n - 1] == tasks[..n - 1] && tasks[..n] == tasks[..n - 1] + [t];
      TaskFacts(memo, base, files, tasks, n - 1);
      NextAlong(compile, memo, base, files, tasks, n - 1, o);
    }
  }

  lemma NextAlong(compile: Compiler, memo: Memo, base: nat, files: map<nat, SchemaFile>, tasks: seq<Task>, n: nat, o: Outcome)
    requires Ready(memo, files, tasks) && Planful(memo, base, tasks) && n < |tasks| && Along(memo, base, files, tasks[..n], o)
    ensures TaskVersion(tasks[n]) in files
    ensures Along(memo, base, files, tasks[..n] + [tasks[n]], Execute(compile, files, o, tasks[n]))
  {
    var t := tasks[n];
    TaskFacts(memo, base, files, tasks, n);
    if !o.fine {
      AlongFailed(memo, base, files, tasks[..n], t, o);
    } else {
      NextTaskFits(memo, base, files, tasks, n, o);
      hide Ready, Planful, Along;
      if t.Apply? {
        ApplyKeeps(compile, memo, base, files, tasks[..n], o, t.version);
      } else {
        LoadKeeps(compile, memo, base, files, tasks[..n], o, t.scope, t.name);
      }
    }
  }

  lemma AlongFailed(memo: Memo, base: nat, files: map<nat, SchemaFile>, done: seq<Task>, t: Task, o: Outcome)
    requires Along(memo, base, files, done, o) && !o.fine
    ensures Along(memo, base, files, done + [t], o)
  {
  }

  lemma EveryCallIsRight(compile: Compiler, memo: Memo, base: nat, files: map<nat, SchemaFile>, tasks: seq<Task>)
    requires Ready(memo, files, tasks) && Planful(memo, base, tasks)
    ensures Faithful(memo, base, ExecuteAll(compile, files, Begin(memo), tasks).effects)
  {
    ScanIsFaithful(compile, memo, base, files, tasks, |tasks|);
    assert tasks[..|tasks|] == tasks;
  }

  // ----- Plans are fit to be worked off -----

  // The version a table's files are read under before the first DDL of a scan; 0 if there is none.
  ghost function Base(schemas: set<nat>, watermark: nat, checkpoint: nat): nat {
    if watermark > 0 then watermark
    else if v: nat :| IsBaseline(schemas, checkpoint, v) then v
    else 0
  }

  lemma {:induction false} DateVersions(s: Scope, dates: seq<(nat, Probe)>)
    ensures forall visit | visit in DateVisits(s, dates) :: visit.Visit? && visit.scope == s
  {
    if dates != [] {
      DateVersions(s, dates[..|dates| - 1]);
    }
  }

  lemma {:induction false} DirsVersions(v: nat, dirs: seq<Dir>)
    ensures forall visit | visit in DirsVisits(v, dirs) :: visit.Visit? ==> visit.scope.version == v
  {
    if dirs != [] {
      DirsVersions(v, dirs[..|dirs| - 1]);
      var dir := dirs[|dirs| - 1];
      if dir.PartitionDir? && dir.dates.Ok? {
        DateVersions(Scope(v, dir.partition), dir.dates.value);
      }
    }
  }

  lemma {:induction false} VisitVersions(store: Store, versions: seq<nat>)
    ensures forall visit | visit in AllVisits(store, versions) :: visit.Visit? ==> visit.scope.version in versions
  {
    if versions != [] {
      var n := |versions| - 1;
      VisitVersions(store, versions[..n]);
      if store.dirs(versions[n]).Ok? {
        DirsVersions(versions[n], store.dirs(versions[n]).value);
      }
    }
  }

  // Keys come from pending schema files and from looked-up directories of the kept versions.
  lemma {:induction false} FoundKeys(cursors: map<Scope, Name>, start: Found, visits: seq<Visit>)
    requires forall k | k in start.index :: k.SchemaKey?
    ensures var index := LookAll(cursors, start, visits).index;
            && (forall v :: SchemaKey(v) in index <==> SchemaKey(v) in start.index)
            && (forall s, d | FileKey(s, d) in index :: CursorOf(cursors, s).date <= d &&
                 exists visit :: visit in visits && visit.Visit? && visit.scope == s && visit.date == d)
  {
    if visits != [] {
      var n := |visits| - 1;
      assert visits == visits[..n] + [visits[n]];
      FoundKeys(cursors, start, visits[..n]);
    }
  }

  lemma RangeTasks(cursors: map<Scope, Name>, index: map<PathKey, nat>, k: PathKey)
    requires k in RangesOf(cursors, index) && (k.FileKey? ==> CursorOf(cursors, k.scope).date <= k.date)
    ensures forall t | t in KeyTasks(k, RangesOf(cursors, index)[k]) && t.Load? ::
              t.scope == k.scope && NameLess(CursorOf(cursors, t.scope), t.name)
  {
  }

  lemma {:induction false} ApplyTasks(keys: seq<PathKey>, ranges: map<PathKey, Range>, v: nat)
    requires forall k | k in keys :: k in ranges
    ensures Apply(v) in Tasks(keys, ranges) <==> SchemaKey(v) in keys
  {
    if keys != [] {
      assert keys == keys[..|keys| - 1] + [keys[|keys| - 1]];
      ApplyTasks(keys[..|keys| - 1], ranges, v);
    }
  }

  // The keys of a plan: one per pending schema version, and directories of the kept versions not
  // before the cursor.
  ghost predicate KeysFit(cursors: map<Scope, Name>, ranges: map<PathKey, Range>, paths: set<nat>, pending: set<nat>) {
    && (forall v :: SchemaKey(v) in ranges <==> v in pending)
    && (forall s, d | FileKey(s, d) in ranges :: CursorOf(cursors, s).date <= d && s.version in paths)
  }

  lemma PlanKeysFit(cursors: map<Scope, Name>, watermark: nat, checkpoint: nat, store: Store)
    requires PlanScan(cursors, watermark, checkpoint, store).Some?
    ensures var scan := PlanScan(cursors, watermark, checkpoint, store).value;
            KeysFit(cursors, scan.ranges, scan.paths, Pending(SetOf(store.schemas.value), watermark, checkpoint))
  {
    var scan, schemas := PlanScan(cursors, watermark, checkpoint, store).value, SetOf(store.schemas.value);
    KeysAreOrdered();
    var versions := VersionOrder(scan.paths);
    var start := Found(PendingKeys(Pending(schemas, watermark, checkpoint)), 0, true);
    VisitVersions(store, versions);
    FoundKeys(cursors, start, AllVisits(store, versions));
  }

  ghost predicate TaskFits(cursors: map<Scope, Name>, paths: set<nat>, pending: set<nat>, t: Task) {
    match t
    case Apply(v) => v in pending
    case Load(s, name) => s.version in paths && NameLess(CursorOf(cursors, s), name)
  }

  lemma PlanTasksFit(cursors: map<Scope, Name>, index: map<PathKey, nat>, paths: set<nat>, pending: set<nat>)
    requires KeysFit(cursors, RangesOf(cursors, index), paths, pending)
    ensures var tasks := WorkList(RangesOf(cursors, index));
            && Sorted(tasks, TaskLess)
            && (forall t | t in tasks :: TaskFits(cursors, paths, pending, t))
            && (forall v | v in pending :: Apply(v) in tasks)
  {
    var ranges := RangesOf(cursors, index);
    var keys := WorkOrder(ranges);
    WorkIsOrdered(keys, ranges);
    TasksBelong(keys, ranges);
    forall t | t in WorkList(ranges) ensures TaskFits(cursors, paths, pending, t) {
      var k :| k in keys && Belongs(t, k) && t in KeyTasks(k, ranges[k]);
      RangeTasks(cursors, index, k);
    }
    forall v | v in pending ensures Apply(v) in WorkList(ranges) {
      ApplyTasks(keys, ranges, v);
    }
  }

  // What getNewFiles returns is fit for handleNewFiles.
  lemma PlansArePlanful(memo: Memo, checkpoint: nat, store: Store)
    requires PlanScan(memo.cursors, memo.watermark, checkpoint, store).Some?
    ensures var scan := PlanScan(memo.cursors, memo.watermark, checkpoint, store).value;
            Planful(memo, Base(SetOf(store.schemas.value), memo.watermark, checkpoint), WorkList(scan.ranges))
  {
    var scan := PlanScan(memo.cursors, memo.watermark, checkpoint, store).value;
    var schemas := SetOf(store.schemas.value);
    var base, tasks := Base(schemas, memo.watermark, checkpoint), WorkList(scan.ranges);
    KeysAreOrdered();
    var start := Found(PendingKeys(Pending(schemas, memo.watermark, checkpoint)), 0, true);
    var index := LookAll(memo.cursors, start, AllVisits(store, VersionOrder(scan.paths))).index;
    PlanKeysFit(memo.cursors, memo.watermark, checkpoint, store);
    PlanTasksFit(memo.cursors, index, scan.paths, Pending(schemas, memo.watermark, checkpoint));
    forall t | t in tasks && t.Load? ensures t.scope.version == base || Apply(t.scope.version) in tasks {
      KeptIsBaseOrPending(schemas, memo.watermark, checkpoint, t.scope.version);
    }
    PendingIsAhead(schemas, memo.watermark, checkpoint);
  }

  lemma KeptIsBaseOrPending(schemas: set<nat>, watermark: nat, checkpoint: nat, v: nat)
    requires v in Planned(schemas, watermark, checkpoint)
    ensures v == Base(schemas, watermark, checkpoint) || v in Pending(schemas, watermark, checkpoint)
  {
  }

  lemma PendingIsAhead(schemas: set<nat>, watermark: nat, checkpoint: nat)
    ensures forall v | v in Pending(schemas, watermark, checkpoint) :: v > watermark && v > Base(schemas, watermark, checkpoint)
  {
  }

  // A call that was not made cannot be wrong.
  lemma CutIsFaithful(memo: Memo, base: nat, effects: seq<Effect>, budget: nat)
    requires Faithful(memo, base, effects)
    ensures Faithful(memo, base, Cut(effects, budget))
  {
    var cut := Cut(effects, budget);
    forall i | 0 <= i < |cut| ensures Right(memo, base, cut[..i], cut[i]) {
      assert cut[..i] == effects[..i];
    }
  }

  // A scan leaves every cursor where it was or moves it on.
  lemma CursorsMoveOn(compile: Compiler, memo: Memo, base: nat, files: map<nat, SchemaFile>, tasks: seq<Task>, s: Scope)
    requires Ready(memo, files, tasks) && Planful(memo, base, tasks)
    ensures var o := ExecuteAll(compile, files, Begin(memo), tasks);
            o.fine ==> var a, b := CursorOf(memo.cursors, s), CursorOf(o.memo.cursors, s); a == b || NameLess(a, b)
  {
    ScanIsFaithful(compile, memo, base, files, tasks, |tasks|);
    assert tasks[..|tasks|] == tasks;
  }
}
