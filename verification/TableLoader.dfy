// The loader's state for one table and the methods that read, plan and load (tableState and its
// users in incremental/loader.go).
module TableLoader {
  import opened Wrappers
  import opened Discovery
  import opened Replication
  import opened Sorting
  import opened CursorKeys
  import opened Planning
  import opened Executing
  import opened Counting
  import ReplicationState

  // Snowflake and the state file. Calls succeed until `budget` is used up; the next one fails,
  // and with it the process ends.
  class Outside {
    var effects: seq<Effect>
    var budget: nat
    var watermark: nat              // as stored for the table
    var cursors: map<string, Name>

    constructor (watermark: nat, cursors: map<string, Name>, budget: nat)
      ensures this.effects == [] && this.watermark == watermark && this.cursors == cursors && this.budget == budget
    {
      effects, this.budget, this.watermark, this.cursors := [], budget, watermark, cursors;
    }

    method Call(e: Effect) returns (ok: bool)
      modifies this
      ensures ok == (old(budget) > 0)
      ensures effects == if ok then old(effects) + [e] else old(effects)
      ensures budget == if ok then old(budget) - 1 else 0
      ensures cursors == old(cursors)
      ensures watermark == if ok && e.Mark? then e.version else old(watermark)
    {
      ok := budget > 0;
      if ok {
        budget := budget - 1;
        effects := effects + [e];
        if e.Mark? {
          watermark := e.version;
        }
      }
    }

    // SetDMLCursors refuses to move a cursor backward.
    method SaveCursors(dirty: map<string, Name>) returns (ok: bool)
      modifies this
      ensures ok <==> old(budget) > 0 && !ReplicationState.MovesBack(old(cursors), dirty)
      ensures effects == old(effects) && watermark == old(watermark)
      ensures cursors == if ok then old(cursors) + dirty else old(cursors)
    {
      ok := budget > 0 && !ReplicationState.MovesBack(cursors, dirty);
      if ok {
        budget := budget - 1;
        cursors := cursors + dirty;
      }
    }
  }

  // Cursors as this program stores them.
  ghost predicate Stored(cursors: map<string, Name>) {
    forall key | key in cursors ::
      (exists s :: Fits(s) && key == CursorKey(s)) && cursors[key].date > 0 && cursors[key].index > 0
  }

  // ----- The maps of tableState -----

  type Indexes = map<PathKey, nat>

  // A cursor per stream, under its printed key, at the newest date consumed.
  ghost predicate Agree(consumed: Indexes, active: map<Scope, nat>, cursors: map<string, Name>) {
    && (forall k | k in consumed :: k.FileKey? && k.scope in active && 0 < k.date <= active[k.scope] && consumed[k] > 0)
    && (forall s | s in active :: Fits(s) && FileKey(s, active[s]) in consumed && CursorKey(s) in cursors
         && cursors[CursorKey(s)] == Name(active[s], consumed[FileKey(s, active[s])]))
    && (forall key | key in cursors :: exists s :: s in active && key == CursorKey(s))
  }

  function CursorsOf(consumed: Indexes, active: map<Scope, nat>): map<Scope, Name> {
    map s | s in active :: Name(active[s], IndexOf(consumed, FileKey(s, active[s])))
  }

  lemma NothingAgrees()
    ensures Agree(map[], map[], map[])
  {
  }

  lemma ConsumeAgrees(consumed: Indexes, active: map<Scope, nat>, cursors: map<string, Name>, s: Scope, name: Name)
    requires Agree(consumed, active, cursors) && Fits(s) && name.date > 0 && name.index > 0
    requires s in active ==> active[s] <= name.date
    ensures Agree(consumed[FileKey(s, name.date) := name.index], active[s := name.date], cursors[CursorKey(s) := name])
  {
    hide CursorKey;
    forall s2 | s2 in active && s2 != s ensures CursorKey(s2) != CursorKey(s) {
      CursorKeysDiffer(s2, s);
    }
    var active2, cursors2 := active[s := name.date], cursors[CursorKey(s) := name];
    forall key | key in cursors2 ensures exists x :: x in active2 && key == CursorKey(x) {
      if key == CursorKey(s) {
        assert s in active2;
      } else {
        var x :| x in active && key == CursorKey(x);
        assert x in active2;
      }
    }
  }

  lemma ConsumeMoves(consumed: Indexes, active: map<Scope, nat>, s: Scope, name: Name)
    ensures CursorsOf(consumed[FileKey(s, name.date) := name.index], active[s := name.date]) == CursorsOf(consumed, active)[s := name]
  {
    var consumed2, active2 := consumed[FileKey(s, name.date) := name.index], active[s := name.date];
    forall x | x in active && x != s ensures FileKey(x, active[x]) != FileKey(s, name.date) {
    }
    assert CursorsOf(consumed2, active2).Keys == CursorsOf(consumed, active).Keys + {s};
  }

  lemma ActiveDateOfCursor(consumed: Indexes, active: map<Scope, nat>, cursors: map<string, Name>, s: Scope)
    requires Agree(consumed, active, cursors)
    ensures CountOf(active, s) == CursorOf(CursorsOf(consumed, active), s).date
    ensures s in active ==> active[s] > 0
  {
  }

  lemma NotYetActive(consumed: Indexes, active: map<Scope, nat>, cursors: map<string, Name>, s: Scope)
    requires Agree(consumed, active, cursors) && CursorKey(s) !in cursors
    ensures s !in active
  {
  }

  lemma CursorsAreStored(consumed: Indexes, active: map<Scope, nat>, cursors: map<string, Name>)
    requires Agree(consumed, active, cursors)
    ensures forall s | Fits(s) :: CursorOf(CursorsOf(consumed, active), s) == StoredAt(cursors, s)
  {
    hide CursorKey;
    forall s | Fits(s) ensures CursorKey(s) in cursors <==> s in active {
      if CursorKey(s) in cursors {
        var s2 :| s2 in active && CursorKey(s) == CursorKey(s2);
        CursorKeysDiffer(s, s2);
      }
    }
  }

  // The index remembered for a directory that is not skipped is what the cursor says.
  lemma ConsumedIndex(consumed: Indexes, active: map<Scope, nat>, cursors: map<string, Name>, s: Scope, date: nat)
    requires Agree(consumed, active, cursors) && !(s in active && date < active[s])
    ensures IndexOf(consumed, FileKey(s, date)) == Consumed(CursorOf(CursorsOf(consumed, active), s), date)
  {
  }

  // ----- The schema files a scan needs -----

  function Versions(keys: set<PathKey>): set<nat> { set k | k in keys :: VersionOf(k) }

  predicate HasDdl(keys: set<PathKey>, watermark: nat) { exists k :: k in keys && k.SchemaKey? && k.version > watermark }

  ghost predicate IsNewestBelow(paths: set<nat>, watermark: nat, v: nat) {
    && (v != 0 ==> v in paths && v <= watermark)
    && (forall u | u in paths && u <= watermark :: u <= v)
  }

  lemma NewestBelowExists(paths: set<nat>, watermark: nat)
    ensures exists v :: IsNewestBelow(paths, watermark, v)
  {
    if u :| u in paths {
      NewestBelowExists(paths - {u}, watermark);
      var v :| IsNewestBelow(paths - {u}, watermark, v);
      var newest := if u <= watermark && u > v then u else v;
      assert forall x | x in paths :: x == u || x in paths - {u};
      assert IsNewestBelow(paths, watermark, newest);
    } else {
      assert IsNewestBelow(paths, watermark, 0);
    }
  }

  // The newest known schema version not past the watermark; 0 if there is none.
  ghost function Applied(scan: Scan, watermark: nat): (v: nat)
    ensures IsNewestBelow(scan.paths, watermark, v)
  {
    NewestBelowExists(scan.paths, watermark);
    var v :| IsNewestBelow(scan.paths, watermark, v);
    v
  }

  ghost predicate NeedsMeta(scan: Scan, watermark: nat, meta: Option<SchemaFile>) {
    meta.None? && watermark != 0 && HasDdl(scan.ranges.Keys, watermark)
  }

  ghost predicate NeedsKnown(scan: Scan, watermark: nat, meta: Option<SchemaFile>) {
    NeedsMeta(scan, watermark, meta) ==> Applied(scan, watermark) != 0
  }

  ghost function Needed(scan: Scan, watermark: nat, meta: Option<SchemaFile>): set<nat> {
    Versions(scan.ranges.Keys) + if NeedsMeta(scan, watermark, meta) then {Applied(scan, watermark)} else {}
  }

  function FilesOf(store: Store, versions: set<nat>): map<nat, SchemaFile> {
    map v | v in versions && store.file(v).Ok? :: store.file(v).value
  }

  // Working towards outcome o with this budget succeeds if o is fine and the budget suffices, and
  // makes o's calls until the budget runs out.
  ghost predicate Did(o: Outcome, ok: bool, budget: nat, left: nat, before: seq<Effect>, after: seq<Effect>) {
    && (ok <==> o.fine && |o.effects| <= budget)
    && (ok ==> left == budget - |o.effects|)
    && after == before + Cut(o.effects, budget)
  }

  // What a compiled DDL calls: its statements, then the watermark write.
  lemma DdlCalls(compile: Compiler, memo: Memo, file: SchemaFile, statements: seq<string>, budget: nat)
    requires file.keyed && file.query && file.version > memo.watermark && compile(memo.meta, file) == Ok(statements)
    ensures var calls := Execs(memo.meta, file, statements);
            && ExecuteDdl(compile, Begin(memo), file)
               == Outcome(memo.(meta := Some(file), watermark := file.version), calls + [Mark(file.version)], true)
            && Cut(calls + [Mark(file.version)], budget) ==
               if |calls| < budget then Cut(calls, budget) + [Mark(file.version)] else Cut(calls, budget)
  {
    var calls := Execs(memo.meta, file, statements);
    assert [] + calls + [Mark(file.version)] == calls + [Mark(file.version)];
  }

  lemma DdlRejected(compile: Compiler, memo: Memo, file: SchemaFile, budget: nat)
    requires file.keyed && file.query && file.version > memo.watermark && compile(memo.meta, file).Err?
    ensures ExecuteDdl(compile, Begin(memo), file) == Outcome(memo, [], false) && Cut([], budget) == []
  {
  }

  predicate Storable(s: Scope, name: Name) { Fits(s) && name.date > 0 && name.index > 0 }

  lemma CutOn(a: seq<Effect>, b: seq<Effect>, budget: nat)
    requires |a| <= budget
    ensures Cut(a + b, budget) == a + Cut(b, budget - |a|)
  {
  }

  // One more task on top of those done.
  lemma NextOutcome(compile: Compiler, files: map<nat, SchemaFile>, first: Memo, done: seq<Task>, t: Task)
    requires Covers(files, done + [t])
    ensures Covers(files, done)
    ensures var o := ExecuteAll(compile, files, Begin(first), done);
            o.fine ==> var part := Execute(compile, files, Begin(o.memo), t);
                       ExecuteAll(compile, files, Begin(first), done + [t]) == Outcome(part.memo, o.effects + part.effects, part.fine)
  {
    assert forall x | x in done :: x in done + [t];
    assert (done + [t])[..|done|] == done;
    assert (done + [t])[|done|] == t;
    assert t in done + [t];
    var o := ExecuteAll(compile, files, Begin(first), done);
    if o.fine {
      ExecuteShift(compile, files, o, t);
    }
  }

  // The tasks done have led to this memory and to these calls.
  ghost predicate Reached(compile: Compiler, files: map<nat, SchemaFile>, first: Memo, done: seq<Task>, budget: nat,
                          before: seq<Effect>, memo: Memo, left: nat, after: seq<Effect>) {
    && Covers(files, done)
    && var o := ExecuteAll(compile, files, Begin(first), done);
    && o.fine && |o.effects| <= budget && memo == o.memo && after == before + o.effects && left == budget - |o.effects|
  }

  lemma NothingReached(compile: Compiler, files: map<nat, SchemaFile>, first: Memo, budget: nat, before: seq<Effect>)
    ensures Reached(compile, files, first, [], budget, before, first, budget, before)
  {
  }

  lemma AllReached(compile: Compiler, files: map<nat, SchemaFile>, first: Memo, tasks: seq<Task>, budget: nat,
                   before: seq<Effect>, memo: Memo, left: nat, after: seq<Effect>)
    requires Reached(compile, files, first, tasks, budget, before, memo, left, after)
    ensures Covers(files, tasks)
    ensures var o := ExecuteAll(compile, files, Begin(first), tasks);
            memo == o.memo && Did(o, true, budget, left, before, after)
  {
  }

  lemma {:induction false} TasksGrow(keys: seq<PathKey>, ranges: map<PathKey, Range>, n: nat)
    requires n <= |keys| && forall k | k in keys :: k in ranges
    ensures forall k | k in keys[..n] :: k in ranges
    ensures Tasks(keys[..n], ranges) <= Tasks(keys, ranges)
  {
    hide KeyTasks;
    if n == |keys| {
      assert keys[..n] == keys;
    } else {
      assert keys[..|keys| - 1][..n] == keys[..n];
      TasksGrow(keys[..|keys| - 1], ranges, n);
    }
  }

  lemma TasksPrefix(keys: seq<PathKey>, ranges: map<PathKey, Range>, n: nat)
    requires n < |keys| && forall k | k in keys :: k in ranges
    ensures (forall k | k in keys[..n] :: k in ranges) && (forall k | k in keys[..n + 1] :: k in ranges)
    ensures Tasks(keys[..n], ranges) + KeyTasks(keys[n], ranges[keys[n]]) == Tasks(keys[..n + 1], ranges) <= Tasks(keys, ranges)
  {
    hide KeyTasks;
    TasksGrow(keys, ranges, n + 1);
    assert keys[..n + 1][..n] == keys[..n];
  }

  lemma KeyLoads(done: seq<Task>, k: PathKey, r: Range)
    ensures CountLoads(done + KeyTasks(k, r)) == CountLoads(done) + if k.FileKey? && 0 < r.start <= r.end then r.end - r.start + 1 else 0
  {
    CountLoadsSum(done, KeyTasks(k, r));
    match k
    case SchemaKey(v) =>
      assert [Apply(v)][..0] == [];
    case FileKey(s, d) =>
      if 0 < r.start <= r.end {
        hide CountLoads;
        CountLoadsOfRange(s, d, r.start - 1, r.end);
      }
  }

  // Doing the next task with what is left of the budget succeeds, or fails the whole list.
  lemma TaskDid(compile: Compiler, files: map<nat, SchemaFile>, first: Memo, base: nat, tasks: seq<Task>, done: seq<Task>, t: Task,
                budget: nat, before: seq<Effect>, memo: Memo, left: nat, effects: seq<Effect>,
                ok: bool, memo2: Memo, left2: nat, effects2: seq<Effect>)
    requires Ready(first, files, tasks) && Planful(first, base, tasks) && done + [t] <= tasks && TaskVersion(t) in files
    requires Reached(compile, files, first, done, budget, before, memo, left, effects)
    requires Did(Execute(compile, files, Begin(memo), t), ok, left, left2, effects, effects2)
    requires ok ==> memo2 == Execute(compile, files, Begin(memo), t).memo
    ensures ok ==> Reached(compile, files, first, done + [t], budget, before, memo2, left2, effects2)
    ensures !ok ==> Covers(files, tasks) && Did(ExecuteAll(compile, files, Begin(first), tasks), false, budget, left2, before, effects2)
  {
    hide Execute, Planful;
    var o, rest := ExecuteAll(compile, files, Begin(first), done), tasks[|done| + 1..];
    var part := Execute(compile, files, Begin(memo), t);
    assert done + [t] + rest == tasks;
    assert Covers(files, tasks) && Covers(files, done + [t]);
    NextOutcome(compile, files, first, done, t);
    CutOn(o.effects, part.effects, budget);
    StopsHere(compile, files, Begin(first), done + [t], rest, budget);
  }

  // What the plan guarantees for the next task.
  lemma NextFits(compile: Compiler, files: map<nat, SchemaFile>, first: Memo, base: nat, tasks: seq<Task>, done: seq<Task>, t: Task,
                 budget: nat, before: seq<Effect>, memo: Memo, left: nat, effects: seq<Effect>)
    requires Ready(first, files, tasks) && Planful(first, base, tasks) && AllStorable(tasks) && done + [t] <= tasks
    requires Reached(compile, files, first, done, budget, before, memo, left, effects)
    ensures TaskVersion(t) in files
    ensures t.Load? ==> Storable(t.scope, t.name) && NameLess(CursorOf(memo.cursors, t.scope), t.name)
  {
    var n := |done|;
    assert tasks[..n] == done && tasks[n] == t && t in tasks;
    ScanIsFaithful(compile, first, base, files, tasks, n);
    NextTaskFits(first, base, files, tasks, n, ExecuteAll(compile, files, Begin(first), done));
  }

  ghost predicate AllStorable(tasks: seq<Task>) { forall t | t in tasks && t.Load? :: Storable(t.scope, t.name) }

  lemma LoadDid(compile: Compiler, files: map<nat, SchemaFile>, memo: Memo, s: Scope, name: Name,
                ok: bool, budget: nat, left: nat, before: seq<Effect>, after: seq<Effect>)
    requires s.version in files && ok == (budget > 0) && left == (if ok then budget - 1 else 0)
    requires after == if ok then before + [Merge(files[s.version], s, name)] else before
    ensures var o := Execute(compile, files, Begin(memo), Load(s, name));
            o.memo == memo.(cursors := memo.cursors[s := name]) && Did(o, ok, budget, left, before, after)
  {
  }

  ghost predicate Unsaved(stored: map<string, Name>, dirty: map<string, Name>, cursors: map<string, Name>) {
    cursors == stored + dirty
  }

  lemma NothingUnsaved(stored: map<string, Name>, cursors: map<string, Name>)
    requires Unsaved(stored, map[], cursors)
    ensures stored == cursors
  {
  }

  lemma UpdateUnsaved(stored: map<string, Name>, dirty: map<string, Name>, cursors: map<string, Name>, key: string, name: Name)
    requires Unsaved(stored, dirty, cursors)
    ensures Unsaved(stored, dirty[key := name], cursors[key := name])
  {
  }

  lemma ExecuteShift(compile: Compiler, files: map<nat, SchemaFile>, o: Outcome, t: Task)
    requires TaskVersion(t) in files && o.fine
    ensures var b := Execute(compile, files, Begin(o.memo), t);
            Execute(compile, files, o, t) == Outcome(b.memo, o.effects + b.effects, b.fine)
  {
    assert o.effects + [] == o.effects;
  }

  lemma {:induction false} LoadsPrefix(s: Scope, d: nat, from: nat, mid: nat, to: nat)
    requires from < mid <= to
    ensures Loads(s, d, from, mid) <= Loads(s, d, from, to)
    ensures Loads(s, d, from, mid) == Loads(s, d, from, mid - 1) + [Load(s, Name(d, mid))]
  {
  }

  // ----- One scan of one table -----

  // A schema file's content carries the version its name says.
  ghost predicate Labelled(store: Store) { forall v | store.file(v).Ok? :: store.file(v).value.version == v }

  // Listed names parse to a stream and a date that can be stored.
  ghost predicate Parsed(store: Store) {
    forall v, visit | visit in VersionVisits(store, v) && visit.Visit? :: Fits(visit.scope) && visit.date > 0
  }

  lemma {:induction false} VisitsParse(store: Store, versions: seq<nat>)
    requires Parsed(store)
    ensures forall visit | visit in AllVisits(store, versions) && visit.Visit? :: Fits(visit.scope) && visit.date > 0
  {
    if versions != [] {
      VisitsParse(store, versions[..|versions| - 1]);
    }
  }

  lemma PlansAreStorable(memo: Memo, checkpoint: nat, store: Store)
    requires Parsed(store) && PlanScan(memo.cursors, memo.watermark, checkpoint, store).Some?
    ensures var scan := PlanScan(memo.cursors, memo.watermark, checkpoint, store).value;
            && AllStorable(WorkList(scan.ranges))
            && (forall k | k in scan.ranges && k.FileKey? :: scan.ranges[k].start > 0)
  {
    var scan, schemas := PlanScan(memo.cursors, memo.watermark, checkpoint, store).value, SetOf(store.schemas.value);
    KeysAreOrdered();
    var versions := VersionOrder(scan.paths);
    var start := Found(PendingKeys(Pending(schemas, memo.watermark, checkpoint)), 0, true);
    VisitsParse(store, versions);
    FoundKeys(memo.cursors, start, AllVisits(store, versions));
    TasksAreStorable(scan.ranges);
  }

  lemma TasksAreStorable(ranges: map<PathKey, Range>)
    requires forall k | k in ranges && k.FileKey? :: Fits(k.scope) && k.date > 0
    ensures AllStorable(WorkList(ranges))
  {
    TasksBelong(WorkOrder(ranges), ranges);
    forall t | t in WorkList(ranges) && t.Load? ensures Storable(t.scope, t.name) {
      var k :| k in WorkOrder(ranges) && Belongs(t, k) && t in KeyTasks(k, ranges[k]);
    }
  }

  // The loader's metadata is that of the version at the watermark, if it has any.
  predicate MetaFits(watermark: nat, meta: Option<SchemaFile>) {
    (watermark == 0 ==> meta.None?) && (meta.Some? ==> meta.value.version == watermark)
  }

  ghost predicate Readable(store: Store, scan: Scan, watermark: nat, meta: Option<SchemaFile>) {
    forall v | v in Needed(scan, watermark, meta) :: store.file(v).Ok?
  }

  // After getNewFiles and loadSchemaFiles, everything handleNewFiles looks up is there: no schema
  // file is missing, and the metadata a DDL starts from is that of the version at the watermark.
  lemma LoadedIsReady(memo: Memo, meta: Option<SchemaFile>, checkpoint: nat, store: Store)
    requires PlanScan(memo.cursors, memo.watermark, checkpoint, store).Some? && Labelled(store) && MetaFits(memo.watermark, meta)
    ensures var scan := PlanScan(memo.cursors, memo.watermark, checkpoint, store).value;
            && NeedsKnown(scan, memo.watermark, meta) && Needed(scan, memo.watermark, meta) <= scan.paths
            && (Readable(store, scan, memo.watermark, meta)
                && memo.meta == (if NeedsMeta(scan, memo.watermark, meta) then Some(store.file(Applied(scan, memo.watermark)).value) else meta)
                ==> Ready(memo, FilesOf(store, Needed(scan, memo.watermark, meta)), WorkList(scan.ranges)))
  {
    var scan, schemas := PlanScan(memo.cursors, memo.watermark, checkpoint, store).value, SetOf(store.schemas.value);
    PlanKeysFit(memo.cursors, memo.watermark, checkpoint, store);
    var needed, tasks := Needed(scan, memo.watermark, meta), WorkList(scan.ranges);
    PlanVersions(memo, checkpoint, store);
    TasksBelong(WorkOrder(scan.ranges), scan.ranges);
    forall t | t in tasks ensures TaskVersion(t) in needed && (t.Apply? ==> SchemaKey(t.version) in scan.ranges) {
      var k :| k in WorkOrder(scan.ranges) && Belongs(t, k) && t in KeyTasks(k, scan.ranges[k]);
    }
  }

  lemma PlanVersions(memo: Memo, checkpoint: nat, store: Store)
    requires PlanScan(memo.cursors, memo.watermark, checkpoint, store).Some?
    ensures var scan := PlanScan(memo.cursors, memo.watermark, checkpoint, store).value;
            && Versions(scan.ranges.Keys) <= scan.paths
            && (forall v: nat | SchemaKey(v) in scan.ranges :: v > memo.watermark)
            && (memo.watermark > 0 ==> Applied(scan, memo.watermark) == memo.watermark && memo.watermark in scan.paths)
  {
    var scan := PlanScan(memo.cursors, memo.watermark, checkpoint, store).value;
    PlanKeysFit(memo.cursors, memo.watermark, checkpoint, store);
    assert memo.watermark > 0 ==> memo.watermark in SetOf(store.schemas.value);
    assert memo.watermark > 0 ==> memo.watermark in scan.paths;
    forall k | k in scan.ranges ensures VersionOf(k) in scan.paths {
      if k.SchemaKey? {
        assert SchemaKey(k.version) in scan.ranges;
      } else {
        assert FileKey(k.scope, k.date) in scan.ranges;
      }
    }
  }

  // What working off this plan does when no call fails.
  ghost function Expected(compile: Compiler, memo: Memo, scan: Scan, checkpoint: nat, store: Store): Outcome
    requires Labelled(store) && MetaFits(memo.watermark, memo.meta) && Readable(store, scan, memo.watermark, memo.meta)
    requires PlanScan(memo.cursors, memo.watermark, checkpoint, store) == Some(scan)
  {
    LoadedIsReady(StartMemo(memo, scan, store), memo.meta, checkpoint, store);
    ExecuteAll(compile, FilesOf(store, Needed(scan, memo.watermark, memo.meta)), Begin(StartMemo(memo, scan, store)), WorkList(scan.ranges))
  }

  // The memory after loadSchemaFiles.
  ghost function StartMemo(memo: Memo, scan: Scan, store: Store): Memo
    requires Readable(store, scan, memo.watermark, memo.meta)
  {
    if NeedsMeta(scan, memo.watermark, memo.meta) then
      assert Applied(scan, memo.watermark) in Needed(scan, memo.watermark, memo.meta);
      memo.(meta := Some(store.file(Applied(scan, memo.watermark)).value))
    else memo
  }

  // What a scan of one table does to the world: nothing if the storage or a schema file cannot be
  // read, else the expected calls as far as the budget goes.
  ghost predicate Scanned(compile: Compiler, memo: Memo, checkpoint: nat, store: Store, budget: nat,
                          before: seq<Effect>, after: seq<Effect>, ok: bool, loaded: nat, memo2: Memo)
    requires Labelled(store) && MetaFits(memo.watermark, memo.meta)
  {
    match PlanScan(memo.cursors, memo.watermark, checkpoint, store)
    case None => !ok && after == before
    case Some(scan) =>
      if scan.ranges == map[] then ok && after == before && loaded == 0 && memo2 == memo
      else if !Readable(store, scan, memo.watermark, memo.meta) then !ok && after == before
      else
        var o, files := Expected(compile, memo, scan, checkpoint, store), CountLoads(WorkList(scan.ranges));
        && after == before + Cut(o.effects, budget)
        && (ok <==> o.fine && |o.effects| + (if files > 0 then 1 else 0) <= budget)
        && (ok ==> loaded == files && memo2 == o.memo)
  }

  // Everything handleNewFiles needs holds after loadSchemaFiles.
  lemma ScanIsReady(memo: Memo, scan: Scan, checkpoint: nat, store: Store)
    requires Labelled(store) && Parsed(store) && MetaFits(memo.watermark, memo.meta)
    requires PlanScan(memo.cursors, memo.watermark, checkpoint, store) == Some(scan)
    ensures store.schemas.Ok? && NeedsKnown(scan, memo.watermark, memo.meta) && Needed(scan, memo.watermark, memo.meta) <= scan.paths
    ensures Readable(store, scan, memo.watermark, memo.meta) ==>
              && Ready(StartMemo(memo, scan, store), FilesOf(store, Needed(scan, memo.watermark, memo.meta)), WorkList(scan.ranges))
              && Planful(StartMemo(memo, scan, store), Base(SetOf(store.schemas.value), memo.watermark, checkpoint), WorkList(scan.ranges))
    ensures AllStorable(WorkList(scan.ranges)) && (forall k | k in scan.ranges && k.FileKey? :: scan.ranges[k].start > 0)
  {
    PlanNeedsSchemas(memo, checkpoint, store);
    hide PlanScan, Needed, AllStorable, Planful, Ready;
    LoadedIsReady(memo, memo.meta, checkpoint, store);
    if Readable(store, scan, memo.watermark, memo.meta) {
      LoadedIsReady(StartMemo(memo, scan, store), memo.meta, checkpoint, store);
      PlansArePlanful(StartMemo(memo, scan, store), checkpoint, store);
    }
    PlansAreStorable(memo, checkpoint, store);
  }

  // Every call of a scan is right, whether the scan succeeds or fails and wherever it stops.
  lemma ScannedIsFaithful(compile: Compiler, memo: Memo, checkpoint: nat, store: Store, budget: nat,
                          before: seq<Effect>, made: seq<Effect>, ok: bool, loaded: nat, memo2: Memo)
    requires Labelled(store) && Parsed(store) && MetaFits(memo.watermark, memo.meta) && store.schemas.Ok?
    requires Scanned(compile, memo, checkpoint, store, budget, before, before + made, ok, loaded, memo2)
    ensures Faithful(memo, Base(SetOf(store.schemas.value), memo.watermark, checkpoint), made)
  {
    var plan, base := PlanScan(memo.cursors, memo.watermark, checkpoint, store), Base(SetOf(store.schemas.value), memo.watermark, checkpoint);
    assert made == (before + made)[|before|..];
    if plan.Some? && plan.value.ranges != map[] && Readable(store, plan.value, memo.watermark, memo.meta) {
      var scan := plan.value;
      var o, start := Expected(compile, memo, scan, checkpoint, store), StartMemo(memo, scan, store);
      ScanIsReady(memo, scan, checkpoint, store);
      EveryCallIsRight(compile, start, base, FilesOf(store, Needed(scan, memo.watermark, memo.meta)), WorkList(scan.ranges));
      CutIsFaithful(start, base, o.effects, budget);
      assert made == (before + Cut(o.effects, budget))[|before|..];
      SameStart(start, memo, base, made);
    } else {
      assert made == [];
    }
  }

  lemma SameStart(memo: Memo, memo2: Memo, base: nat, effects: seq<Effect>)
    requires Faithful(memo, base, effects) && memo2 == memo.(meta := memo2.meta)
    ensures Faithful(memo2, base, effects)
  {
    forall i | 0 <= i < |effects| ensures Right(memo2, base, effects[..i], effects[i]) {
      assert Right(memo, base, effects[..i], effects[i]);
    }
  }

  lemma PlanNeedsSchemas(memo: Memo, checkpoint: nat, store: Store)
    requires PlanScan(memo.cursors, memo.watermark, checkpoint, store).Some?
    ensures store.schemas.Ok?
  {
  }

  // A finished scan leaves metadata of the version at the watermark, and no cursor moved back.
  lemma ScanEnds(compile: Compiler, memo: Memo, base: nat, files: map<nat, SchemaFile>, tasks: seq<Task>)
    requires Ready(memo, files, tasks) && Planful(memo, base, tasks)
    ensures var o := ExecuteAll(compile, files, Begin(memo), tasks);
            o.fine ==> MetaFits(o.memo.watermark, o.memo.meta)
                       && forall s :: var a, b := CursorOf(memo.cursors, s), CursorOf(o.memo.cursors, s); a == b || NameLess(a, b)
  {
    ScanIsFaithful(compile, memo, base, files, tasks, |tasks|);
    assert tasks[..|tasks|] == tasks;
  }

  // Saving after a scan never moves a stored cursor back.
  lemma SavesForward(stored: map<string, Name>, dirty: map<string, Name>,
                     consumed: Indexes, active: map<Scope, nat>, cursors: map<string, Name>,
                     consumed2: Indexes, active2: map<Scope, nat>, cursors2: map<string, Name>)
    requires Agree(consumed, active, cursors) && stored == cursors
    requires Agree(consumed2, active2, cursors2) && Unsaved(stored, dirty, cursors2)
    requires forall s :: CursorOf(CursorsOf(consumed, active), s) == CursorOf(CursorsOf(consumed2, active2), s)
                         || NameLess(CursorOf(CursorsOf(consumed, active), s), CursorOf(CursorsOf(consumed2, active2), s))
    ensures !ReplicationState.MovesBack(stored, dirty)
  {
    hide Agree, CursorKey, CursorOf, CursorsOf, NameLess;
    CursorsAreStored(consumed, active, cursors);
    CursorsAreStored(consumed2, active2, cursors2);
    KeysOfStreams(consumed2, active2, cursors2);
    KeysForward(stored, dirty, cursors2, CursorsOf(consumed, active), CursorsOf(consumed2, active2));
  }

  function StoredAt(cursors: map<string, Name>, s: Scope): Name {
    if CursorKey(s) in cursors then cursors[CursorKey(s)] else NO_NAME
  }

  lemma KeysForward(stored: map<string, Name>, dirty: map<string, Name>, cursors: map<string, Name>,
                    before: map<Scope, Name>, after: map<Scope, Name>)
    requires cursors == stored + dirty
    requires forall s | Fits(s) :: CursorOf(before, s) == StoredAt(stored, s) && CursorOf(after, s) == StoredAt(cursors, s)
    requires forall key | key in cursors :: exists s :: Fits(s) && key == CursorKey(s)
    requires forall s :: CursorOf(before, s) == CursorOf(after, s) || NameLess(CursorOf(before, s), CursorOf(after, s))
    ensures !ReplicationState.MovesBack(stored, dirty)
  {
    hide CursorKey, CursorOf, Fits;
    forall key | key in dirty && key in stored ensures !NameLess(dirty[key], stored[key]) {
      assert key in cursors && cursors[key] == dirty[key];
      var s :| Fits(s) && key == CursorKey(s);
      assert CursorOf(before, s) == stored[key] && CursorOf(after, s) == dirty[key];
    }
  }

  lemma KeysOfStreams(consumed: Indexes, active: map<Scope, nat>, cursors: map<string, Name>)
    requires Agree(consumed, active, cursors)
    ensures forall key | key in cursors :: exists s :: Fits(s) && key == CursorKey(s)
  {
    hide CursorKey;
    forall key | key in cursors ensures exists s :: Fits(s) && key == CursorKey(s) {
      var s :| s in active && key == CursorKey(s);
      assert Fits(s);
    }
  }

  // ----- The walk over schema files -----

  // What the walk has kept of the versions seen so far.
  ghost predicate Walked(seen: set<nat>, watermark: nat, checkpoint: nat, paths: set<nat>, index: map<PathKey, nat>,
                         currentFound: bool, baseline: nat) {
    && index == PendingKeys(Pending(seen, watermark, checkpoint))
    && paths == Pending(seen, watermark, checkpoint) + (if currentFound then {watermark} else {})
    && (currentFound <==> watermark > 0 && watermark in seen)
    && (baseline > 0 ==> baseline in seen && baseline <= checkpoint && watermark == 0)
    && (watermark == 0 ==> forall v | v in seen && v <= checkpoint :: v <= baseline)
  }

  lemma NothingWalked(watermark: nat, checkpoint: nat)
    ensures forall schemas: seq<nat> :: Walked(SetOf(schemas[..0]), watermark, checkpoint, {}, map[], false, 0)
  {
  }

  // The next version: kept as current, pending or baseline, or passed over.
  lemma WalkOne(schemas: seq<nat>, i: nat, watermark: nat, checkpoint: nat, paths: set<nat>, index: map<PathKey, nat>,
                currentFound: bool, baseline: nat)
    requires i < |schemas| && Walked(SetOf(schemas[..i]), watermark, checkpoint, paths, index, currentFound, baseline)
    ensures var v, seen := schemas[i], SetOf(schemas[..i + 1]);
            if watermark > 0 then
              if v == watermark then Walked(seen, watermark, checkpoint, paths + {v}, index, true, baseline)
              else if v > watermark then Walked(seen, watermark, checkpoint, paths + {v}, index[SchemaKey(v) := 0], currentFound, baseline)
              else Walked(seen, watermark, checkpoint, paths, index, currentFound, baseline)
            else if v > checkpoint then Walked(seen, watermark, checkpoint, paths + {v}, index[SchemaKey(v) := 0], currentFound, baseline)
            else Walked(seen, watermark, checkpoint, paths, index, currentFound, if v > baseline then v else baseline)
  {
    var v, before, seen := schemas[i], SetOf(schemas[..i]), SetOf(schemas[..i + 1]);
    assert schemas[..i + 1] == schemas[..i] + [v];
    assert seen == before + {v};
    var pending := Pending(before, watermark, checkpoint);
    if (if watermark > 0 then v > watermark else v > checkpoint) {
      assert Pending(seen, watermark, checkpoint) == pending + {v};
      assert PendingKeys(pending + {v}) == PendingKeys(pending)[SchemaKey(v) := 0];
    } else {
      assert Pending(seen, watermark, checkpoint) == pending;
    }
  }

  lemma WalkEnds(seen: set<nat>, watermark: nat, checkpoint: nat, paths: set<nat>, index: map<PathKey, nat>,
                 currentFound: bool, baseline: nat)
    requires Walked(seen, watermark, checkpoint, paths, index, currentFound, baseline)
    ensures index == PendingKeys(Pending(seen, watermark, checkpoint))
    ensures currentFound <==> watermark > 0 && watermark in seen
    ensures (if baseline > 0 then paths + {baseline} else paths) == Planned(seen, watermark, checkpoint)
  {
    if watermark > 0 {
      assert paths == Planned(seen, watermark, checkpoint);
    } else if baseline > 0 {
      assert IsBaseline(seen, checkpoint, baseline);
      assert forall v | IsBaseline(seen, checkpoint, v) :: v == baseline;
    }
  }

  class Loader {
    var consumed: map<PathKey, nat>      // tableDMLIdxMap
    var activeDate: map<Scope, nat>      // activeDateByDMLScope
    var cursors: map<string, Name>       // dmlCursors
    var dirty: map<string, Name>         // dirtyDMLCursors
    var meta: Option<SchemaFile>         // currentMeta
    var watermark: nat                   // ddlTableVersionWatermark
    const outside: Outside
    const compile: Compiler

    ghost predicate Valid()
      reads this
    {
      Agree(consumed, activeDate, cursors)
    }

    // What the maps say about each stream: the last file consumed.
    ghost function Cursors(): (m: map<Scope, Name>)
      requires Valid()
      reads this
    {
      CursorsOf(consumed, activeDate)
    }

    ghost function Memory(): Memo
      requires Valid()
      reads this
    {
      Memo(watermark, meta, Cursors())
    }

    // newLoader, for one table.
    constructor (stored: map<string, Name>, watermark: nat, outside: Outside, compile: Compiler)
      requires Stored(stored)
      ensures Valid() && dirty == map[] && meta == None && this.watermark == watermark && cursors == stored
      ensures this.outside == outside && this.compile == compile
      ensures forall s | Fits(s) :: CursorOf(Cursors(), s) == StoredAt(stored, s)
    {
      hide Agree, CursorKey, ParseCursorKey;
      this.outside, this.compile := outside, compile;
      consumed, activeDate, cursors, dirty, meta := map[], map[], map[], map[], None;
      this.watermark := watermark;
      new;
      assert Agree(consumed, activeDate, cursors) by { NothingAgrees(); }
      var todo := stored.Keys;
      while todo != {}
        invariant todo <= stored.Keys && Agree(consumed, activeDate, cursors)
        invariant dirty == map[] && meta == None && this.watermark == watermark
        invariant cursors == map key | key in stored && key !in todo :: stored[key]
        decreases |todo|
      {
        var key :| key in todo;
        ghost var printed :| Fits(printed) && key == CursorKey(printed);
        CursorKeyRoundTrip(printed);
        var s, cursor := ParseCursorKey(key).value.0, stored[key];
        NotYetActive(consumed, activeDate, cursors, s);
        ConsumeAgrees(consumed, activeDate, cursors, s, cursor);
        cursors := cursors[key := cursor];
        consumed := consumed[FileKey(s, cursor.date) := cursor.index];
        if cursor.date > CountOf(activeDate, s) {
          activeDate := activeDate[s := cursor.date];
        }
        todo := todo - {key};
      }
      assert cursors == stored;
      CursorsAreStored(consumed, activeDate, cursors);
    }

    // markDMLPathConsumed. The file is recorded whatever came before it; the maps go on saying one
    // thing about each stream as long as dates do not go backward.
    method MarkConsumed(s: Scope, name: Name)
      modifies this`consumed, this`activeDate, this`cursors, this`dirty
      ensures consumed == old(consumed)[FileKey(s, name.date) := name.index]
      ensures cursors == old(cursors)[CursorKey(s) := name] && dirty == old(dirty)[CursorKey(s) := name]
      ensures activeDate == if name.date > CountOf(old(activeDate), s) then old(activeDate)[s := name.date] else old(activeDate)
      ensures old(Valid()) && Storable(s, name) && CountOf(old(activeDate), s) <= name.date ==>
                Valid() && Cursors() == old(Cursors())[s := name]
    {
      hide CursorKey, Agree, CursorsOf, CursorOf;
      if Valid() && Storable(s, name) && CountOf(activeDate, s) <= name.date {
        ActiveDateOfCursor(consumed, activeDate, cursors, s);
        ConsumeAgrees(consumed, activeDate, cursors, s, name);
      }
      consumed := consumed[FileKey(s, name.date) := name.index];
      cursors := cursors[CursorKey(s) := name];
      dirty := dirty[CursorKey(s) := name];
      if name.date > CountOf(activeDate, s) {
        activeDate := activeDate[s := name.date];
      }
      if old(Valid()) && Storable(s, name) && CountOf(old(activeDate), s) <= name.date {
        assert activeDate == old(activeDate)[s := name.date];
        ConsumeMoves(old(consumed), old(activeDate), s, name);
      }
    }

    // The walk over schema files in getNewFiles: which versions are kept, which are pending DDLs,
    // and whether the version at the watermark is there.
    method WalkSchemas(schemas: seq<nat>, checkpoint: nat) returns (paths: set<nat>, index: map<PathKey, nat>, currentFound: bool)
      ensures paths == Planned(SetOf(schemas), watermark, checkpoint)
      ensures index == PendingKeys(Pending(SetOf(schemas), watermark, checkpoint))
      ensures currentFound <==> watermark > 0 && watermark in schemas
    {
      paths, index, currentFound := {}, map[], false;
      var baseline, i := 0, 0;
      NothingWalked(watermark, checkpoint);
      while i < |schemas|
        invariant 0 <= i <= |schemas|
        invariant Walked(SetOf(schemas[..i]), watermark, checkpoint, paths, index, currentFound, baseline)
      {
        hide Walked;
        var version := schemas[i];
        WalkOne(schemas, i, watermark, checkpoint, paths, index, currentFound, baseline);
        if watermark > 0 {
          if version == watermark {
            paths, currentFound := paths + {version}, true;
          } else if version > watermark {
            paths, index := paths + {version}, index[SchemaKey(version) := 0];
          }
        } else if version <= checkpoint {
          if version > baseline {
            baseline := version;
          }
        } else {
          paths, index := paths + {version}, index[SchemaKey(version) := 0];
        }
        i := i + 1;
      }
      assert schemas[..i] == schemas;
      WalkEnds(SetOf(schemas), watermark, checkpoint, paths, index, currentFound, baseline);
      if baseline > 0 {
        paths := paths + {baseline};
      }
    }

    // The active date check and parseDMLIndexFileIfExists, for one date directory.
    method LookAt(s: Scope, date: nat, probe: Probe, found: Found) returns (f: Found)
      requires Valid() && found.fine
      ensures f == Look(Cursors(), found, Visit(s, date, probe))
    {
      ActiveDateOfCursor(consumed, activeDate, cursors, s);
      if s in activeDate && date < activeDate[s] {
        return found;
      }
      ConsumedIndex(consumed, activeDate, cursors, s, date);
      hide Agree, CursorsOf, CursorKey, CursorOf;
      match probe
      case Missing => return found;
      case Unreadable => return found.(fine := false);
      case Shows(n) =>
        var key := FileKey(s, date);
        var consumedIndex := IndexOf(consumed, key);
        f := found;
        if n > consumedIndex {
          f := f.(pending := f.pending + n - consumedIndex);
        }
        if n > IndexOf(f.index, key) {
          f := f.(index := f.index[key := n]);
        }
    }

    // The directories of one schema version, unpartitioned and partitioned layout.
    method ListVersion(version: nat, listing: Result<seq<Dir>>, found: Found) returns (f: Found)
      requires Valid() && found.fine
      ensures f == LookAll(Cursors(), found, ListingVisits(version, listing))
    {
      hide Agree, CursorsOf, CursorKey, Look;
      if listing.Err? {
        f := found.(fine := false);
        LookBad(Cursors(), found);
        return;
      }
      var dirs := listing.value;
      f := found;
      var i := 0;
      while i < |dirs|
        invariant 0 <= i <= |dirs| && f.fine
        invariant f == LookAll(Cursors(), found, DirsVisits(version, dirs[..i]))
      {
        ghost var before := DirsVisits(version, dirs[..i]);
        assert dirs[..i + 1][..i] == dirs[..i];
        LookOn(Cursors(), found, before, DirVisits(version, dirs[i]));
        f := ListDir(version, dirs[i], f);
        if !f.fine {
          DirsPrefix(version, dirs, i + 1);
          FailedPrefix(Cursors(), found, DirsVisits(version, dirs[..i + 1]), DirsVisits(version, dirs));
          return;
        }
        i := i + 1;
      }
      assert dirs[..i] == dirs;
    }

    method ListDir(version: nat, dir: Dir, found: Found) returns (f: Found)
      requires Valid() && found.fine
      ensures f == LookAll(Cursors(), found, DirVisits(version, dir))
    {
      match dir
      case DateDir(date, probe) =>
        f := LookAt(Scope(version, 0), date, probe, found);
        LookOne(Cursors(), found, Visit(Scope(version, 0), date, probe));
      case StrayDir =>
        f := found.(fine := false);
        LookOne(Cursors(), found, Bad);
      case PartitionDir(partition, listing) =>
        if listing.Err? {
          f := found.(fine := false);
          LookOne(Cursors(), found, Bad);
        } else {
          f := ListPartition(Scope(version, partition), listing.value, found);
        }
    }

    method ListPartition(s: Scope, dates: seq<(nat, Probe)>, found: Found) returns (f: Found)
      requires Valid() && found.fine
      ensures f == LookAll(Cursors(), found, DateVisits(s, dates))
    {
      f := found;
      var i := 0;
      while i < |dates|
        invariant 0 <= i <= |dates| && f.fine
        invariant f == LookAll(Cursors(), found, DateVisits(s, dates[..i]))
      {
        assert dates[..i + 1][..i] == dates[..i];
        f := LookAt(s, dates[i].0, dates[i].1, f);
        if !f.fine {
          DatesPrefix(s, dates, i + 1);
          FailedPrefix(Cursors(), found, DateVisits(s, dates[..i + 1]), DateVisits(s, dates));
          return;
        }
        i := i + 1;
      }
      assert dates[..i] == dates;
    }

    // getNewFiles: what is planned depends on the storage, the watermark and the cursors alone.
    method GetNewFiles(checkpoint: nat, store: Store) returns (r: Option<Scan>)
      requires Valid()
      ensures r == PlanScan(Cursors(), watermark, checkpoint, store)
    {
      hide Agree, CursorsOf, CursorKey, Look, LookAll, Planned, Pending;
      if store.schemas.Err? {
        return None;
      }
      var paths, index, currentFound := WalkSchemas(store.schemas.value, checkpoint);
      if watermark > 0 && !currentFound {
        return None;
      }
      KeysAreOrdered();
      var versions := Sort(paths, VersionLess);
      var found := ReadVersions(versions, store, Found(index, 0, true));
      if !found.fine {
        return None;
      }
      FoundKeys(Cursors(), Found(index, 0, true), AllVisits(store, versions));
      var ranges := NewRanges(found.index);
      return Some(Scan(ranges, paths, found.pending));
    }

    method ReadVersions(versions: seq<nat>, store: Store, start: Found) returns (found: Found)
      requires Valid() && start.fine
      ensures found == LookAll(Cursors(), start, AllVisits(store, versions))
    {
      hide Agree, CursorsOf, CursorKey, Look;
      found := start;
      var i := 0;
      while i < |versions|
        invariant 0 <= i <= |versions| && found.fine
        invariant found == LookAll(Cursors(), start, AllVisits(store, versions[..i]))
      {
        assert versions[..i + 1][..i] == versions[..i];
        LookOn(Cursors(), start, AllVisits(store, versions[..i]), VersionVisits(store, versions[i]));
        found := ListVersion(versions[i], store.dirs(versions[i]), found);
        if !found.fine {
          VersionsPrefix(store, versions, i + 1);
          FailedPrefix(Cursors(), start, AllVisits(store, versions[..i + 1]), AllVisits(store, versions));
          return;
        }
        i := i + 1;
      }
      assert versions[..i] == versions;
    }

    // The last loop of getNewFiles.
    method NewRanges(index: map<PathKey, nat>) returns (ranges: map<PathKey, Range>)
      requires Valid() && forall k | k in index && k.FileKey? :: CursorOf(Cursors(), k.scope).date <= k.date
      ensures ranges == RangesOf(Cursors(), index)
    {
      hide Agree, CursorsOf, CursorKey, CursorOf;
      ranges := map[];
      var todo := index.Keys;
      while todo != {}
        invariant todo <= index.Keys
        invariant ranges == map k | k in index && k !in todo && HasNew(Cursors(), k, index[k]) :: RangeOf(Cursors(), k, index[k])
        decreases |todo|
      {
        var key :| key in todo;
        if key.SchemaKey? {
          ranges := ranges[key := Range(0, 0)];
        } else {
          var consumedIndex := IndexOf(consumed, key);
          ActiveDateOfCursor(consumed, activeDate, cursors, key.scope);
          ConsumedIndex(consumed, activeDate, cursors, key.scope, key.date);
          if index[key] > consumedIndex {
            ranges := ranges[key := Range(consumedIndex + 1, index[key])];
          }
        }
        todo := todo - {key};
      }
    }

    // loadSchemaFiles: the schema files of all versions in the plan, and the current version's
    // metadata if a DDL is to come and it is not in memory yet.
    method LoadSchemaFiles(scan: Scan, store: Store) returns (r: Result<map<nat, SchemaFile>>)
      requires Valid()
      modifies this`meta
      ensures Valid() && Cursors() == old(Cursors())
      ensures var needed := Needed(scan, watermark, old(meta));
              && (r.Ok? <==> NeedsKnown(scan, watermark, old(meta)) && forall v | v in needed :: v in scan.paths && store.file(v).Ok?)
              && (r.Ok? ==> r.value == FilesOf(store, needed))
              && meta == if r.Ok? && NeedsMeta(scan, watermark, old(meta)) then Some(store.file(Applied(scan, watermark)).value) else old(meta)
    {
      hide Agree, CursorsOf, CursorKey;
      var required, needsMeta := RequiredVersions(scan);
      var baseline := 0;
      if needsMeta && meta.None? && watermark != 0 {
        baseline := AppliedVersion(scan);
        if baseline == 0 {
          return Err("applied schema file not found");
        }
        required := required + {baseline};
      }
      r := ReadSchemaFiles(required, scan, store);
      if r.Ok? && baseline != 0 {
        meta := Some(r.value[baseline]);
      }
    }

    method RequiredVersions(scan: Scan) returns (required: set<nat>, needsMeta: bool)
      ensures required == Versions(scan.ranges.Keys) && (needsMeta <==> HasDdl(scan.ranges.Keys, watermark))
    {
      required, needsMeta := {}, false;
      var todo := scan.ranges.Keys;
      while todo != {}
        invariant todo <= scan.ranges.Keys
        invariant required == Versions(scan.ranges.Keys - todo)
        invariant needsMeta <==> HasDdl(scan.ranges.Keys - todo, watermark)
        decreases |todo|
      {
        var key :| key in todo;
        ghost var before := scan.ranges.Keys - todo;
        required := required + {VersionOf(key)};
        needsMeta := needsMeta || (key.SchemaKey? && key.version > watermark);
        todo := todo - {key};
        assert scan.ranges.Keys - todo == before + {key};
      }
      assert scan.ranges.Keys - todo == scan.ranges.Keys;
    }

    method AppliedVersion(scan: Scan) returns (baseline: nat)
      ensures baseline == Applied(scan, watermark)
    {
      baseline := 0;
      var todo := scan.paths;
      while todo != {}
        invariant todo <= scan.paths
        invariant IsNewestBelow(scan.paths - todo, watermark, baseline)
        decreases |todo|
      {
        var version :| version in todo;
        if version <= watermark && version > baseline {
          baseline := version;
        }
        assert forall x | x in scan.paths - (todo - {version}) :: x == version || x in scan.paths - todo;
        todo := todo - {version};
      }
      assert scan.paths - todo == scan.paths;
    }

    method ReadSchemaFiles(required: set<nat>, scan: Scan, store: Store) returns (r: Result<map<nat, SchemaFile>>)
      ensures r.Ok? <==> forall v | v in required :: v in scan.paths && store.file(v).Ok?
      ensures r.Ok? ==> r.value == FilesOf(store, required)
    {
      var files, todo := map[], required;
      while todo != {}
        invariant todo <= required
        invariant forall v | v in required - todo :: v in scan.paths && store.file(v).Ok?
        invariant files == FilesOf(store, required - todo)
        decreases |todo|
      {
        var version :| version in todo;
        if version !in scan.paths {
          return Err("schema file not found");
        }
        if store.file(version).Err? {
          return Err("schema file not readable");
        }
        files := files[version := store.file(version).value];
        todo := todo - {version};
      }
      assert required - todo == required;
      return Ok(files);
    }

    // execDDL.
    method ExecDdl(file: SchemaFile) returns (ok: bool)
      requires Valid()
      modifies this`meta, this`watermark, outside
      ensures Valid() && Cursors() == old(Cursors())
      ensures var o := ExecuteDdl(compile, Begin(old(Memory())), file);
              Did(o, ok, old(outside.budget), outside.budget, old(outside.effects), outside.effects) && (ok ==> Memory() == o.memo)
      ensures outside.cursors == old(outside.cursors)
      ensures old(outside.watermark) == old(watermark) && ok ==> outside.watermark == watermark
    {
      hide Agree, CursorsOf, CursorKey;
      if !file.keyed {
        return false;
      }
      if !file.query {
        if file.version > watermark {
          ok := outside.Call(Mark(file.version));
          if !ok {
            return;
          }
          watermark := file.version;
        }
        meta := Some(file);
        return true;
      }
      if file.version <= watermark {
        meta := Some(file);
        return true;
      }
      ok := ApplyDdl(file);
    }

    method ApplyDdl(file: SchemaFile) returns (ok: bool)
      requires Valid() && file.keyed && file.query && file.version > watermark
      modifies this`meta, this`watermark, outside
      ensures Valid() && Cursors() == old(Cursors())
      ensures var o := ExecuteDdl(compile, Begin(old(Memory())), file);
              Did(o, ok, old(outside.budget), outside.budget, old(outside.effects), outside.effects) && (ok ==> Memory() == o.memo)
      ensures outside.cursors == old(outside.cursors)
      ensures ok ==> outside.watermark == watermark
    {
      hide Agree, CursorsOf, CursorKey, CursorOf, ExecuteDdl, Cut, Execs;
      var compiled := compile(meta, file);
      if compiled.Err? {
        DdlRejected(compile, Memory(), file, outside.budget);
        return false;
      }
      var statements := compiled.value;
      DdlCalls(compile, Memory(), file, statements, outside.budget);
      ok := RunStatements(file, statements);
      if !ok {
        return;
      }
      meta := Some(file);
      ok := outside.Call(Mark(file.version));
      if ok {
        watermark := file.version;
      }
    }

    // The loop over the statements of one DDL.
    method RunStatements(file: SchemaFile, statements: seq<string>) returns (ok: bool)
      modifies outside
      ensures outside.cursors == old(outside.cursors) && outside.watermark == old(outside.watermark)
      ensures var calls := Execs(meta, file, statements);
              && outside.effects == old(outside.effects) + Cut(calls, old(outside.budget))
              && (ok <==> |calls| <= old(outside.budget)) && (ok ==> outside.budget == old(outside.budget) - |calls|)
    {
      ghost var calls := Execs(meta, file, statements);
      var i := 0;
      while i < |statements|
        invariant 0 <= i <= |statements| && outside.cursors == old(outside.cursors) && outside.watermark == old(outside.watermark)
        invariant outside.effects == old(outside.effects) + calls[..i]
        invariant outside.budget == old(outside.budget) - i
      {
        assert calls[..i + 1] == calls[..i] + [Exec(meta, file, statements[i])];
        ok := outside.Call(Exec(meta, file, statements[i]));
        if !ok {
          return;
        }
        i := i + 1;
      }
      ok := true;
    }

    // Between two tasks: what is dirty is what the state file does not have.
    ghost predicate InStep()
      reads this, outside
    {
      Valid() && Unsaved(outside.cursors, dirty, cursors) && outside.watermark == watermark
    }

    lemma NextDateIsLater(s: Scope, name: Name)
      requires Valid() && NameLess(CursorOf(Cursors(), s), name)
      ensures CountOf(activeDate, s) <= name.date
    {
      ActiveDateOfCursor(consumed, activeDate, cursors, s);
    }

    // One iteration of the loop over a range's files.
    method LoadFile(files: map<nat, SchemaFile>, s: Scope, name: Name) returns (ok: bool)
      requires InStep() && Storable(s, name) && NameLess(CursorOf(Cursors(), s), name) && s.version in files
      modifies this`consumed, this`activeDate, this`cursors, this`dirty, outside
      ensures InStep() && outside.cursors == old(outside.cursors)
      ensures Cursors() == if ok then old(Cursors())[s := name] else old(Cursors())
      ensures ok ==> dirty != map[]
      ensures ok == (old(outside.budget) > 0) && outside.budget == if ok then old(outside.budget) - 1 else 0
      ensures outside.effects == if ok then old(outside.effects) + [Merge(files[s.version], s, name)] else old(outside.effects)
    {
      hide Agree, CursorsOf, CursorKey, CursorOf, NameLess, Fits, Unsaved;
      ok := outside.Call(Merge(files[s.version], s, name));
      if !ok {
        return;
      }
      UpdateUnsaved(outside.cursors, dirty, cursors, CursorKey(s), name);
      NextDateIsLater(s, name);
      MarkConsumed(s, name);
      assert CursorKey(s) in dirty;
    }

    // The loop over a range's files.
    method LoadRange(files: map<nat, SchemaFile>, s: Scope, d: nat, r: Range, ghost first: Memo, ghost base: nat,
                     ghost tasks: seq<Task>, ghost done: seq<Task>, ghost budget: nat, ghost before: seq<Effect>)
      returns (ok: bool, loaded: nat)
      requires Ready(first, files, tasks) && Planful(first, base, tasks) && AllStorable(tasks)
      requires 0 < r.start <= r.end && done + Loads(s, d, r.start - 1, r.end) <= tasks
      requires InStep() && Reached(compile, files, first, done, budget, before, Memory(), outside.budget, outside.effects)
      modifies this, outside
      ensures ok ==> InStep() && loaded == r.end - r.start + 1 && dirty != map[]
      ensures ok ==> Reached(compile, files, first, done + Loads(s, d, r.start - 1, r.end), budget, before, Memory(), outside.budget, outside.effects)
      ensures !ok ==> Covers(files, tasks) && Did(ExecuteAll(compile, files, Begin(first), tasks), false, budget, outside.budget, before, outside.effects)
      ensures outside.cursors == old(outside.cursors)
    {
      hide Agree, CursorsOf, CursorKey, Ready, Planful, Covers, AllStorable, Storable, Execute, CursorOf, NameLess, Reached, Did, Unsaved;
      var i := r.start;
      loaded := 0;
      assert done + Loads(s, d, r.start - 1, i - 1) == done;
      while i <= r.end
        invariant r.start <= i <= r.end + 1 && loaded == i - r.start
        invariant InStep() && (i > r.start ==> dirty != map[])
        invariant Reached(compile, files, first, done + Loads(s, d, r.start - 1, i - 1), budget, before, Memory(), outside.budget, outside.effects)
        invariant outside.cursors == old(outside.cursors)
      {
        ghost var done2, t := done + Loads(s, d, r.start - 1, i - 1), Load(s, Name(d, i));
        ghost var memo, left, effects := Memory(), outside.budget, outside.effects;
        LoadsPrefix(s, d, r.start - 1, i, r.end);
        assert done2 + [t] == done + Loads(s, d, r.start - 1, i) <= tasks;
        NextFits(compile, files, first, base, tasks, done2, t, budget, before, memo, left, effects);
        ok := LoadFile(files, s, Name(d, i));
        LoadDid(compile, files, memo, s, Name(d, i), ok, left, outside.budget, effects, outside.effects);
        TaskDid(compile, files, first, base, tasks, done2, t, budget, before, memo, left, effects,
                ok, Memory(), outside.budget, outside.effects);
        if !ok {
          return;
        }
        loaded := loaded + 1;
        i := i + 1;
      }
      ok := true;
    }

    // handleNewFiles, with every schema file the plan needs at hand.
    method HandleNewFiles(scan: Scan, files: map<nat, SchemaFile>, ghost base: nat) returns (ok: bool, loaded: nat)
      requires InStep() && Ready(Memory(), files, WorkList(scan.ranges)) && Planful(Memory(), base, WorkList(scan.ranges))
      requires AllStorable(WorkList(scan.ranges)) && forall k | k in scan.ranges && k.FileKey? :: scan.ranges[k].start > 0
      modifies this, outside
      ensures var o := ExecuteAll(compile, files, Begin(old(Memory())), WorkList(scan.ranges));
              && Did(o, ok, old(outside.budget), outside.budget, old(outside.effects), outside.effects)
              && (ok ==> InStep() && Memory() == o.memo && loaded == CountLoads(WorkList(scan.ranges)))
      ensures ok ==> (dirty == map[] <==> old(dirty) == map[] && loaded == 0)
      ensures outside.cursors == old(outside.cursors)
    {
      hide Agree, CursorsOf, CursorKey, Ready, Planful, AllStorable, Storable, Execute, ExecuteDdl, CursorOf, NameLess, Unsaved, ExecuteAll, Reached, Did;
      KeysAreOrdered();
      var keys := Sort(scan.ranges.Keys, KeyLess);
      ghost var tasks, done := WorkList(scan.ranges), [];
      ghost var first, budget, before := Memory(), outside.budget, outside.effects;
      NothingReached(compile, files, first, budget, before);
      loaded := 0;
      var n := 0;
      while n < |keys|
        invariant 0 <= n <= |keys| && done == Tasks(keys[..n], scan.ranges) && InStep()
        invariant Reached(compile, files, first, done, budget, before, Memory(), outside.budget, outside.effects)
        invariant dirty == map[] <==> old(dirty) == map[] && loaded == 0
        invariant loaded == CountLoads(done) && outside.cursors == old(outside.cursors)
      {
        var key := keys[n];
        TasksPrefix(keys, scan.ranges, n);
        var more;
        ok, more := DoKey(files, key, scan.ranges[key], first, base, tasks, done, budget, before);
        if !ok {
          return;
        }
        KeyLoads(done, key, scan.ranges[key]);
        loaded := loaded + more;
        done := Tasks(keys[..n + 1], scan.ranges);
        n := n + 1;
      }
      assert keys[..n] == keys;
      AllReached(compile, files, first, tasks, budget, before, Memory(), outside.budget, outside.effects);
      ok := true;
    }

    // The body of the loop over sorted keys.
    method DoKey(files: map<nat, SchemaFile>, key: PathKey, r: Range, ghost first: Memo, ghost base: nat, ghost tasks: seq<Task>,
                 ghost done: seq<Task>, ghost budget: nat, ghost before: seq<Effect>) returns (ok: bool, loaded: nat)
      requires Ready(first, files, tasks) && Planful(first, base, tasks) && AllStorable(tasks)
      requires done + KeyTasks(key, r) <= tasks && (key.FileKey? ==> r.start > 0)
      requires InStep() && Reached(compile, files, first, done, budget, before, Memory(), outside.budget, outside.effects)
      modifies this, outside
      ensures ok ==> InStep() && loaded == if key.FileKey? && r.start <= r.end then r.end - r.start + 1 else 0
      ensures ok ==> (dirty == map[] <==> old(dirty) == map[] && loaded == 0)
      ensures ok ==> Reached(compile, files, first, done + KeyTasks(key, r), budget, before, Memory(), outside.budget, outside.effects)
      ensures !ok ==> Covers(files, tasks) && Did(ExecuteAll(compile, files, Begin(first), tasks), false, budget, outside.budget, before, outside.effects)
      ensures outside.cursors == old(outside.cursors)
    {
      hide Agree, CursorsOf, CursorKey, Ready, Planful, AllStorable, CursorOf, Unsaved, ExecuteAll, Reached, Did;
      if key.SchemaKey? {
        ok := ApplyKey(files, key.version, first, base, tasks, done, budget, before);
        loaded := 0;
      } else if r.start <= r.end {
        ok, loaded := LoadRange(files, key.scope, key.date, r, first, base, tasks, done, budget, before);
      } else {
        ok, loaded := true, 0;
        assert done + KeyTasks(key, r) == done;
      }
    }

    // execDDL for a pending schema file.
    method ApplyKey(files: map<nat, SchemaFile>, version: nat, ghost first: Memo, ghost base: nat,
                    ghost tasks: seq<Task>, ghost done: seq<Task>, ghost budget: nat, ghost before: seq<Effect>) returns (ok: bool)
      requires Ready(first, files, tasks) && Planful(first, base, tasks) && AllStorable(tasks) && done + [Apply(version)] <= tasks
      requires InStep() && Reached(compile, files, first, done, budget, before, Memory(), outside.budget, outside.effects)
      modifies this, outside
      ensures ok ==> InStep() && dirty == old(dirty)
      ensures ok ==> Reached(compile, files, first, done + [Apply(version)], budget, before, Memory(), outside.budget, outside.effects)
      ensures !ok ==> Covers(files, tasks) && Did(ExecuteAll(compile, files, Begin(first), tasks), false, budget, outside.budget, before, outside.effects)
      ensures outside.cursors == old(outside.cursors)
    {
      hide Agree, CursorsOf, CursorKey, Ready, Planful, Covers, AllStorable, Storable, CursorOf, NameLess, Reached, Did, Unsaved, ExecuteDdl;
      ghost var memo, left, effects := Memory(), outside.budget, outside.effects;
      NextFits(compile, files, first, base, tasks, done, Apply(version), budget, before, memo, left, effects);
      ok := ExecDdl(files[version]);
      TaskDid(compile, files, first, base, tasks, done, Apply(version), budget, before, memo, left, effects,
              ok, Memory(), outside.budget, outside.effects);
    }

    // processTable. A failed scan ends the process.
    method ProcessTable(checkpoint: nat, store: Store) returns (ok: bool, loaded: nat)
      requires InStep() && dirty == map[] && MetaFits(watermark, meta) && Labelled(store) && Parsed(store)
      modifies this, outside
      ensures ok ==> InStep() && dirty == map[] && MetaFits(watermark, meta)
      ensures Scanned(compile, old(Memory()), checkpoint, store, old(outside.budget), old(outside.effects), outside.effects,
                      ok, loaded, if ok then Memory() else old(Memory()))
    {
      hide Agree, CursorsOf, CursorKey, PlanScan, Unsaved;
      loaded := 0;
      var plan := GetNewFiles(checkpoint, store);
      if plan.None? {
        return false, 0;
      }
      var scan := plan.value;
      if scan.ranges == map[] {
        return true, 0;
      }
      ok, loaded := LoadScan(scan, checkpoint, store);
    }

    method LoadScan(scan: Scan, checkpoint: nat, store: Store) returns (ok: bool, loaded: nat)
      requires InStep() && dirty == map[] && MetaFits(watermark, meta) && Labelled(store) && Parsed(store)
      requires PlanScan(Cursors(), watermark, checkpoint, store) == Some(scan) && scan.ranges != map[]
      modifies this, outside
      ensures ok ==> InStep() && dirty == map[] && MetaFits(watermark, meta)
      ensures Scanned(compile, old(Memory()), checkpoint, store, old(outside.budget), old(outside.effects), outside.effects,
                      ok, loaded, if ok then Memory() else old(Memory()))
    {
      hide Agree, CursorsOf, CursorKey, PlanScan, Unsaved, ExecuteAll, Ready, Planful, AllStorable, WorkList, ReplicationState.MovesBack, CursorOf, NameLess;
      ghost var memo := Memory();
      ScanIsReady(memo, scan, checkpoint, store);
      NothingUnsaved(outside.cursors, cursors);
      loaded := 0;
      var files := LoadSchemaFiles(scan, store);
      if files.Err? {
        return false, 0;
      }
      assert Memory() == StartMemo(memo, scan, store);
      ghost var base := Base(SetOf(store.schemas.value), watermark, checkpoint);
      ScanEnds(compile, Memory(), base, files.value, WorkList(scan.ranges));
      ok, loaded := HandleNewFiles(scan, files.value, base);
      if !ok {
        return;
      }
      SavesForward(outside.cursors, dirty, old(consumed), old(activeDate), old(cursors), consumed, activeDate, cursors);
      ok := SaveDirty();
    }

    method SaveDirty() returns (ok: bool)
      requires InStep() && !ReplicationState.MovesBack(outside.cursors, dirty)
      modifies this`dirty, outside
      ensures ok <==> old(dirty) == map[] || old(outside.budget) > 0
      ensures ok ==> InStep() && dirty == map[]
      ensures outside.effects == old(outside.effects)
    {
      hide Agree, ReplicationState.MovesBack;
      ok := true;
      if dirty != map[] {
        ok := outside.SaveCursors(dirty);
        if ok {
          dirty := map[];
        }
      }
    }
  }
}
