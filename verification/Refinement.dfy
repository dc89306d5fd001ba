// The loader's sorted work list carries out the protocol's plan, and a restarted loader behaves
// like the one that died.
module Refinement {
  import opened Wrappers
  import opened Discovery
  import opened Replication
  import opened Sorting
  import opened Planning
  import opened Counting
  import opened Executing
  import opened CursorKeys
  import opened TableLoader

  // ----- The plan of the protocol -----

  function DdlsOf(tasks: seq<Task>): seq<nat> {
    if tasks == [] then []
    else DdlsOf(tasks[..|tasks| - 1]) + if tasks[|tasks| - 1].Apply? then [tasks[|tasks| - 1].version] else []
  }

  lemma {:induction false} DdlsOfSum(a: seq<Task>, b: seq<Task>)
    ensures DdlsOf(a + b) == DdlsOf(a) + DdlsOf(b)
  {
    if b == [] {
      assert a + b == a;
    } else {
      assert (a + b)[..|a + b| - 1] == a + b[..|b| - 1];
      DdlsOfSum(a, b[..|b| - 1]);
    }
  }

  lemma {:induction false} DdlsAreTasks(tasks: seq<Task>)
    ensures forall v :: v in DdlsOf(tasks) <==> Apply(v) in tasks
  {
    if tasks != [] {
      assert tasks == tasks[..|tasks| - 1] + [tasks[|tasks| - 1]];
      DdlsAreTasks(tasks[..|tasks| - 1]);
    }
  }

  lemma {:induction false} DdlsIncrease(tasks: seq<Task>)
    requires Sorted(tasks, TaskLess)
    ensures Increasing(DdlsOf(tasks))
  {
    if tasks != [] {
      var n := |tasks| - 1;
      DdlsIncrease(tasks[..n]);
      DdlsAreTasks(tasks[..n]);
      forall v | v in DdlsOf(tasks[..n]) && tasks[n].Apply? ensures v < tasks[n].version {
        var i :| 0 <= i < n && tasks[..n][i] == Apply(v);
        assert TaskLess(tasks[i], tasks[n]);
      }
      var before := DdlsOf(tasks[..n]);
      assert forall i | 0 <= i < |before| :: before[i] in before;
    }
  }

  // What the storage answered the loader is what the protocol's scan has recorded.
  ghost predicate Answers(t: TableState, checkpoint: nat, store: Store) {
    && t.stage.Looking? && store.schemas.Ok?
    && t.stage.planned == Planned(SetOf(store.schemas.value), t.watermark, checkpoint)
    && var start := Found(PendingKeys(Pending(SetOf(store.schemas.value), t.watermark, checkpoint)), 0, true);
    var index := LookAll(t.cursors, start, AllVisits(store, VersionOrder(t.stage.planned))).index;
    && (forall s | s in t.stage.dates && s in t.stage.index :: Reads(index, CursorOf(t.cursors, s), s, t.stage.dates[s], t.stage.index[s]))
    && (forall s, d | FileKey(s, d) in index :: s in t.stage.dates)
  }

  function Queues(t: TableState): map<Scope, seq<Name>>
    requires t.stage.Looking?
  {
    map s | s in t.stage.dates && s in t.stage.index :: StreamPlan(CursorOf(t.cursors, s), t.stage.dates[s], t.stage.index[s])
  }

  lemma QueuesAreStreams(t: TableState, index: map<PathKey, nat>, s: Scope)
    requires t.stage.Looking? && (forall s | s in t.stage.dates :: s in t.stage.index)
    requires s in t.stage.dates && s in t.stage.index ==> Reads(index, CursorOf(t.cursors, s), s, t.stage.dates[s], t.stage.index[s])
    requires forall d | FileKey(s, d) in index :: s in t.stage.dates
    ensures QueueOf(Queues(t), s) == StreamOf(WorkList(RangesOf(t.cursors, index)), s)
  {
    if s in t.stage.dates {
      WorkListIsStreamPlan(t.cursors, index, s, t.stage.dates[s], t.stage.index[s]);
    } else {
      assert Reads(index, CursorOf(t.cursors, s), s, [], map[]);
      WorkListIsStreamPlan(t.cursors, index, s, [], map[]);
    }
  }

  lemma DdlsAreThePending(cursors: map<Scope, Name>, watermark: nat, checkpoint: nat, store: Store, scan: Scan)
    requires PlanScan(cursors, watermark, checkpoint, store) == Some(scan)
    ensures var ddls := DdlsOf(WorkList(scan.ranges));
            Increasing(ddls) && forall v :: v in ddls <==> v in Pending(SetOf(store.schemas.value), watermark, checkpoint)
  {
    var tasks, pending := WorkList(scan.ranges), Pending(SetOf(store.schemas.value), watermark, checkpoint);
    var index := LookAll(cursors, Found(PendingKeys(pending), 0, true), AllVisits(store, VersionOrder(scan.paths))).index;
    PlanKeysFit(cursors, watermark, checkpoint, store);
    PlanTasksFit(cursors, index, scan.paths, pending);
    DdlsIncrease(tasks);
    DdlsAreTasks(tasks);
    assert forall v | Apply(v) in tasks :: TaskFits(cursors, scan.paths, pending, Apply(v));
  }

  // What getNewFiles returns is the protocol's plan: the DDLs of the work list are the pending
  // versions in order, and its files are, stream by stream, the planned queues.
  lemma PlanRefinesMakePlan(t: TableState, checkpoint: nat, store: Store, scan: Scan)
    requires Answers(t, checkpoint, store) && LookedEverywhere(t)
    requires PlanScan(t.cursors, t.watermark, checkpoint, store) == Some(scan)
    ensures var tasks := WorkList(scan.ranges);
            && MakePlan(checkpoint, t, t.(stage := Running(t.stage.floor, DdlsOf(tasks), Queues(t), 0)), DdlsOf(tasks))
            && forall s :: QueueOf(Queues(t), s) == StreamOf(tasks, s)
  {
    hide StreamPlan, Reads, IsBaseline;
    DdlsAreThePending(t.cursors, t.watermark, checkpoint, store, scan);
    var start := Found(PendingKeys(Pending(SetOf(store.schemas.value), t.watermark, checkpoint)), 0, true);
    var index := LookAll(t.cursors, start, AllVisits(store, VersionOrder(t.stage.planned))).index;
    forall s ensures QueueOf(Queues(t), s) == StreamOf(WorkList(scan.ranges), s) {
      QueuesAreStreams(t, index, s);
    }
  }

  // ----- Its order -----

  lemma {:induction false} StreamHasTask(tasks: seq<Task>, s: Scope)
    ensures StreamOf(tasks, s) != [] ==> exists t :: t in tasks && t.Load? && t.scope == s
  {
    if tasks != [] {
      assert tasks == tasks[..|tasks| - 1] + [tasks[|tasks| - 1]];
      StreamHasTask(tasks[..|tasks| - 1], s);
    }
  }

  lemma LaterTasks(tasks: seq<Task>, i: nat)
    requires Sorted(tasks, TaskLess) && i < |tasks|
    ensures forall u | u in tasks[i..] :: TaskVersion(tasks[i]) <= TaskVersion(u) && (u.Apply? && u != tasks[i] ==> TaskVersion(tasks[i]) < u.version)
  {
    var rest := tasks[i..];
    forall u | u in rest ensures u == tasks[i] || TaskLess(tasks[i], u) {
      var j :| 0 <= j < |rest| && rest[j] == u;
      assert j > 0 ==> TaskLess(tasks[i], tasks[i + j]);
    }
  }

  // At every point of the work the next task is one the protocol allows: a file is the next of
  // its stream, after all DDLs up to its version and before any later one, with no file of an
  // older version left; a DDL is the next pending one, with no file of an older version left.
  lemma NextTaskIsEnabled(tasks: seq<Task>, i: nat)
    requires Sorted(tasks, TaskLess) && i < |tasks|
    ensures var rest, t := tasks[i..], tasks[i];
            && (forall s: Scope | s.version < TaskVersion(t) :: StreamOf(rest, s) == [])
            && (t.Apply? ==> DdlsOf(rest) == [t.version] + DdlsOf(tasks[i + 1..])
                             && forall s :: StreamOf(rest, s) == StreamOf(tasks[i + 1..], s))
            && (t.Load? ==> DdlsOf(rest) == DdlsOf(tasks[i + 1..]) && (forall v | v in DdlsOf(rest) :: t.scope.version < v)
                            && forall s :: StreamOf(rest, s) == (if s == t.scope then [t.name] else []) + StreamOf(tasks[i + 1..], s))
  {
    var rest, t := tasks[i..], tasks[i];
    LaterTasks(tasks, i);
    hide TaskLess, Sorted;
    assert rest == [t] + tasks[i + 1..];
    assert DdlsOf([t]) == DdlsOf([t][..0]) + if t.Apply? then [t.version] else [];
    DdlsOfSum([t], tasks[i + 1..]);
    DdlsAreTasks(rest);
    forall s: Scope
      ensures s.version < TaskVersion(t) ==> StreamOf(rest, s) == []
      ensures StreamOf(rest, s) == (if t.Load? && t.scope == s then [t.name] else []) + StreamOf(tasks[i + 1..], s)
    {
      StreamHasTask(rest, s);
      FirstOfStream(t, tasks[i + 1..], s);
    }
  }

  lemma FirstOfStream(t: Task, later: seq<Task>, s: Scope)
    ensures StreamOf([t] + later, s) == (if t.Load? && t.scope == s then [t.name] else []) + StreamOf(later, s)
  {
    assert StreamOf([t], s) == StreamOf([t][..0], s) + if t.Load? && t.scope == s then [t.name] else [];
    StreamOfSum([t], later, s);
  }

  // ----- Restart -----

  // A loader that remembers many directories and one rebuilt from the stored cursors, which knows
  // only the last directory of each stream, plan the same for every storage content.
  lemma RestartPlansTheSame(consumed: Indexes, active: map<Scope, nat>, consumed2: Indexes, active2: map<Scope, nat>,
                            cursors: map<string, Name>, watermark: nat, checkpoint: nat, store: Store)
    requires Agree(consumed, active, cursors) && Agree(consumed2, active2, cursors)
    ensures CursorsOf(consumed, active) == CursorsOf(consumed2, active2)
    ensures PlanScan(CursorsOf(consumed, active), watermark, checkpoint, store)
            == PlanScan(CursorsOf(consumed2, active2), watermark, checkpoint, store)
  {
    hide CursorKey, PlanScan;
    SameStreams(consumed, active, consumed2, active2, cursors);
    SameStreams(consumed2, active2, consumed, active, cursors);
    assert CursorsOf(consumed, active) == CursorsOf(consumed2, active2);
  }

  lemma SameStreams(consumed: Indexes, active: map<Scope, nat>, consumed2: Indexes, active2: map<Scope, nat>, cursors: map<string, Name>)
    requires Agree(consumed, active, cursors) && Agree(consumed2, active2, cursors)
    ensures forall s | s in active :: s in active2
              && Name(active[s], consumed[FileKey(s, active[s])]) == Name(active2[s], consumed2[FileKey(s, active2[s])])
  {
    hide CursorKey;
    forall s | s in active ensures s in active2 {
      var s2 :| s2 in active2 && CursorKey(s) == CursorKey(s2);
      CursorKeysDiffer(s, s2);
    }
  }

  // Two runs of one task list that start with the same watermark and cursors make the same calls,
  // if they know the same schema files and, when a DDL is to come, the same metadata.
  lemma {:induction false} SameCalls(compile: Compiler, files: map<nat, SchemaFile>, files2: map<nat, SchemaFile>,
                                     memo: Memo, memo2: Memo, tasks: seq<Task>)
    requires Covers(files, tasks) && Covers(files2, tasks)
    requires forall t | t in tasks :: files[TaskVersion(t)] == files2[TaskVersion(t)]
    requires memo2 == memo || (memo2 == memo.(meta := memo2.meta) && forall t | t in tasks :: t.Load?)
    ensures var o, o2 := ExecuteAll(compile, files, Begin(memo), tasks), ExecuteAll(compile, files2, Begin(memo2), tasks);
            && o2.effects == o.effects && o2.fine == o.fine && o2.memo == o.memo.(meta := o2.memo.meta)
            && (memo2 == memo ==> o2 == o)
  {
    if tasks != [] {
      assert forall t | t in tasks[..|tasks| - 1] :: t in tasks;
      SameCalls(compile, files, files2, memo, memo2, tasks[..|tasks| - 1]);
      assert tasks[|tasks| - 1] in tasks;
    }
  }

  // The rest of a run after a restart: same plan, same calls.
  lemma RestartRunsTheSame(compile: Compiler, memo: Memo, checkpoint: nat, store: Store, scan: Scan)
    requires Labelled(store) && MetaFits(memo.watermark, memo.meta)
    requires PlanScan(memo.cursors, memo.watermark, checkpoint, store) == Some(scan)
    requires memo.meta.Some? ==> store.file(memo.watermark) == Ok(memo.meta.value)
    requires Readable(store, scan, memo.watermark, memo.meta)
    ensures Readable(store, scan, memo.watermark, None)
    ensures var o, o2 := Expected(compile, memo, scan, checkpoint, store), Expected(compile, memo.(meta := None), scan, checkpoint, store);
            o2.effects == o.effects && o2.fine == o.fine && o2.memo == o.memo.(meta := o2.memo.meta)
  {
    var again, tasks := memo.(meta := None), WorkList(scan.ranges);
    var start := StartMemo(memo, scan, store);
    PlanVersions(memo, checkpoint, store);
    assert Readable(store, scan, memo.watermark, None);
    var start2 := StartMemo(again, scan, store);
    LoadedIsReady(start, memo.meta, checkpoint, store);
    LoadedIsReady(start2, None, checkpoint, store);
    if !HasDdl(scan.ranges.Keys, memo.watermark) {
      NoDdlTasks(memo, checkpoint, store, scan);
    }
    SameCalls(compile, FilesOf(store, Needed(scan, memo.watermark, memo.meta)), FilesOf(store, Needed(scan, memo.watermark, None)), start, start2, tasks);
  }

  lemma NoDdlTasks(memo: Memo, checkpoint: nat, store: Store, scan: Scan)
    requires PlanScan(memo.cursors, memo.watermark, checkpoint, store) == Some(scan) && !HasDdl(scan.ranges.Keys, memo.watermark)
    ensures forall t | t in WorkList(scan.ranges) :: t.Load?
  {
    PlanVersions(memo, checkpoint, store);
    TasksBelong(WorkOrder(scan.ranges), scan.ranges);
    forall t | t in WorkList(scan.ranges) ensures t.Load? {
      var k :| k in WorkOrder(scan.ranges) && Belongs(t, k) && t in KeyTasks(k, scan.ranges[k]);
      assert k in scan.ranges.Keys;
    }
  }
}
