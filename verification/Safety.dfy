// Safety of the replication protocol over every run.
module Safety {
  import opened Wrappers
  import opened TextOrder
  import opened Merge
  import opened Statements
  import opened History
  import opened Discovery
  import opened Replication
  import opened Freshness
  import opened Scanning

  // ----- One table -----

  ghost predicate TableInv(src: Source, w: nat, metadata: nat, c: nat, process: Process, t: TableState) {
    && Sound(src) && Contract(src, w, metadata, t) && Progress(src, t) && Fresh(src, t, c) && Altered(src, t) && InStep(src, t) && Unmarked(t, c)
    && match process
       case Scanning(target) => c < target <= metadata && src.start <= target && StageOk(src, t, target)
       case _ => t.stage == Resting
  }

  // A table opened without a checkpoint: its first version is still to be marked, and nothing of a
  // later one has run.
  ghost predicate Unmarked(t: TableState, c: nat) {
    && (t.watermark == 0 && c < t.applied ==> t.partial == [])
    && (t.stage.Running? ==> (t.applied in t.stage.pending <==> t.watermark == 0 && c < t.applied))
  }

  lemma LookKeepsInv(src: Source, w: nat, metadata: nat, c: nat, process: Process, t: TableState, t2: TableState)
    requires TableInv(src, w, metadata, c, process, t) && process.Scanning?
    requires t2 == t.(stage := t2.stage) && StageOk(src, t2, process.target)
    requires !t.stage.Running? && (t2.stage.Looking? || (t2.stage.Running? && t2.stage.pass == 0)) && Unmarked(t2, c)
    ensures TableInv(src, w, metadata, c, process, t2)
  {
    SameButStage(src, w, metadata, c, t, t2);
  }

  // What the table shows does not depend on the stage but for the statements run in this scan.
  lemma PassDrops(src: Source, h: Held, k: Key, from: nat)
    requires ShowsFrom(src, h, k, from)
    ensures ShowsFrom(src, h.(pass := 0), k, from)
  {
    var at: nat, j: nat :| from <= at && Shows(src, h, k, at, j);
    assert Shows(src, h.(pass := 0), k, at, j);
  }

  // The invariants that do not mention the stage.
  lemma SameButStage(src: Source, w: nat, metadata: nat, c: nat, t: TableState, t2: TableState)
    requires Contract(src, w, metadata, t) && Progress(src, t) && Fresh(src, t, c) && Altered(src, t)
    requires t2 == t.(stage := t2.stage, watermark := t2.watermark, durable := t.durable.(watermark := t2.durable.watermark))
    requires PassOf(t2) == 0
    ensures Contract(src, w, metadata, t2) && Progress(src, t2) && Fresh(src, t2, c) && Altered(src, t2)
  {
    ContractStays(src, w, metadata, t, t2);
    FreshDrops(src, c, t, t2);
    ProgressStays(src, t, t2);
    hide Contract, Fresh, Progress, RunAll, IsNext;
  }

  lemma ProgressStays(src: Source, t: TableState, t2: TableState)
    requires Progress(src, t) && t2.logs == t.logs && t2.cursors == t.cursors && t2.durable.cursors == t.durable.cursors
    requires t2.merged == t.merged && t2.applied == t.applied && t2.schemas == t.schemas
    ensures Progress(src, t2)
  {
    assert forall s: Scope :: LogOf(t2, s) == LogOf(t, s);
    hide Position, IsCursor;
  }

  lemma FreshDrops(src: Source, c: nat, t: TableState, t2: TableState)
    requires Fresh(src, t, c) && PassOf(t2) == 0
    requires t2.rows == t.rows && t2.applied == t.applied && t2.partial == t.partial && t2.merged == t.merged && t2.logs == t.logs
    requires t2.durable.cursors == t.durable.cursors && (t2.cursors == t.cursors || t2.cursors == t.durable.cursors)
    ensures Fresh(src, t2, c)
  {
    hide ShowsFrom;
    assert forall s: Scope :: LogOf(t2, s) == LogOf(t, s);
    assert HeldBy(t2) == HeldBy(t).(pass := 0);
    forall k: Key, from: nat | ShowsFrom(src, HeldBy(t), k, from) ensures ShowsFrom(src, HeldBy(t2), k, from) {
      PassDrops(src, HeldBy(t), k, from);
    }
    forall k: Key
      ensures ShowsFrom(src, HeldBy(t2), k, Oldest(src, c))
      ensures Reflects(src, t2, t2.durable.cursors, c, k) && Reflects(src, t2, t2.cursors, c, k)
    {
      assert ShowsFrom(src, HeldBy(t), k, Oldest(src, c));
      assert Reflects(src, t, t.durable.cursors, c, k) && Reflects(src, t, t.cursors, c, k);
    }
  }

  // The four reading steps keep LookingOk and change nothing but the stage.
  lemma LookedInv(src: Source, w: nat, metadata: nat, c: nat, process: Process, t: TableState, t2: TableState)
    requires TableInv(src, w, metadata, c, process, t) && process.Scanning?
    requires LookingOk(src, t2, process.target) && OnlyLooked(t, t2) && (t.stage.Begun? || t.stage.Looking?)
    ensures TableInv(src, w, metadata, c, process, t2)
  {
    hide Contract, Progress, Fresh, LookingOk, FloorOk, Sound;
    LookingStage(src, t2, process.target);
    OnlyLookedOk(src, t, t2, process.target);
    LookKeepsInv(src, w, metadata, c, process, t, t2);
  }

  lemma LookingStage(src: Source, t: TableState, target: nat)
    requires LookingOk(src, t, target)
    ensures t.stage.Looking?
  {
  }

  lemma WalkStepInv(src: Source, w: nat, metadata: nat, c: nat, process: Process, t: TableState, t2: TableState)
    requires TableInv(src, w, metadata, c, process, t) && process.Scanning? && WalkSchemas(c, t, t2)
    ensures TableInv(src, w, metadata, c, process, t2)
  {
    hide Contract, Progress, Fresh, LookingOk, FloorOk, Sound;
    WalkOk(src, w, metadata, t, t2, c, process.target);
    LookedInv(src, w, metadata, c, process, t, t2);
  }

  lemma ListStepInv(src: Source, w: nat, metadata: nat, c: nat, process: Process, t: TableState, t2: TableState)
    requires TableInv(src, w, metadata, c, process, t) && process.Scanning?
    requires (exists v :: ListVersion(t, t2, v)) || (exists s, dates :: ListDates(t, t2, s, dates)) || (exists s, d :: ReadIndex(t, t2, s, d))
    ensures TableInv(src, w, metadata, c, process, t2)
  {
    hide Contract, Progress, Fresh, LookingOk, FloorOk, Sound;
    if v :| ListVersion(t, t2, v) {
      ListVersionOk(src, w, metadata, t, t2, v, process.target);
    } else if s, dates :| ListDates(t, t2, s, dates) {
      ListDatesOk(src, w, metadata, t, t2, s, dates, process.target);
    } else {
      var s, d :| ReadIndex(t, t2, s, d);
      ReadIndexOk(src, w, metadata, t, t2, s, d, process.target);
    }
    LookedInv(src, w, metadata, c, process, t, t2);
  }

  lemma LookStepInv(src: Source, w: nat, metadata: nat, c: nat, process: Process, t: TableState, t2: TableState)
    requires TableInv(src, w, metadata, c, process, t) && process.Scanning?
    requires || WalkSchemas(c, t, t2) || (exists v :: ListVersion(t, t2, v))
             || (exists s, dates :: ListDates(t, t2, s, dates)) || (exists s, d :: ReadIndex(t, t2, s, d))
    ensures TableInv(src, w, metadata, c, process, t2)
  {
    hide TableInv, WalkSchemas, ListVersion, ListDates, ReadIndex;
    if WalkSchemas(c, t, t2) {
      WalkStepInv(src, w, metadata, c, process, t, t2);
    } else {
      ListStepInv(src, w, metadata, c, process, t, t2);
    }
  }

  lemma PlanStepInv(src: Source, w: nat, metadata: nat, c: nat, process: Process, t: TableState, t2: TableState, pending: seq<nat>)
    requires TableInv(src, w, metadata, c, process, t) && process.Scanning? && MakePlan(c, t, t2, pending)
    ensures TableInv(src, w, metadata, c, process, t2)
  {
    MakePlanOk(src, w, metadata, t, t2, c, pending, process.target);
    FloorStays(src, t, t2, t.stage.floor, process.target);
    LookKeepsInv(src, w, metadata, c, process, t, t2);
  }

  lemma FloorStays(src: Source, t: TableState, t2: TableState, floor: map<Scope, nat>, target: nat)
    requires FloorOk(src, t, floor, target) && t2.logs == t.logs
    ensures FloorOk(src, t2, floor, target)
  {
    assert forall s: Scope :: LogOf(t2, s) == LogOf(t, s);
  }

  lemma ContractStays(src: Source, w: nat, metadata: nat, t: TableState, t2: TableState)
    requires Contract(src, w, metadata, t) && t2.logs == t.logs && t2.schemas == t.schemas && t2.folders == t.folders
    ensures Contract(src, w, metadata, t2)
  {
    assert forall s: Scope :: LogOf(t2, s) == LogOf(t, s) && FoldersOf(t2, s) == FoldersOf(t, s);
  }

  lemma MergeStepIsMerged(src: Source, w: nat, metadata: nat, c: nat, process: Process, t: TableState, t2: TableState, s: Scope)
    requires TableInv(src, w, metadata, c, process, t) && process.Scanning? && MergeNext(c, t, t2, s)
    ensures Merged(src, w, c, t, t2, s)
  {
    hide Progress, Fresh, Sound, FloorOk;
    EpochAlignment(src, t, t2, c, s, process.target);
    LogsAreDated(src, w, metadata, t, s);
    MergeNextIsMerged(src, w, t, t2, c, s);
  }

  lemma MergeStepInv(src: Source, w: nat, metadata: nat, c: nat, process: Process, t: TableState, t2: TableState, s: Scope)
    requires TableInv(src, w, metadata, c, process, t) && process.Scanning? && MergeNext(c, t, t2, s)
    ensures TableInv(src, w, metadata, c, process, t2)
  {
    hide Contract, Progress, Fresh, Sound, FloorOk, RunOk, Merged, QueueOf;
    MergeStepIsMerged(src, w, metadata, c, process, t, t2, s);
    MergeNextOk(src, w, t, t2, c, s, process.target);
    MergeKeepsProgress(src, w, c, t, t2, s);
    MergeKeepsFresh(src, w, c, t, t2, s);
    ContractStays(src, w, metadata, t, t2);
    FloorStays(src, t, t2, t.stage.floor, process.target);
  }

  lemma ExecFacts(src: Source, t: TableState, t2: TableState)
    requires ExecStatement(src, t, t2)
    ensures t.stage.Running? && t2.stage == t.stage.(pass := t.stage.pass + 1) && Script(src, t.stage.pending[0]) != []
    ensures t2 == t.(rows := t2.rows, columns := t2.columns, partial := t2.partial, stage := t2.stage)
    ensures NextDdl(t) && NextDdl(t2)
  {
    hide OnTable, RunOne;
  }

  lemma ExecStepInv(src: Source, w: nat, metadata: nat, c: nat, process: Process, t: TableState, t2: TableState)
    requires TableInv(src, w, metadata, c, process, t) && process.Scanning? && ExecStatement(src, t, t2)
    ensures TableInv(src, w, metadata, c, process, t2)
  {
    ExecKeepsHeld(src, w, metadata, c, process, t, t2);
    ExecKeepsStage(src, w, metadata, c, process, t, t2);
    ExecKeepsRest(src, w, metadata, c, process, t, t2);
    hide Contract, Progress, Fresh, Altered, Sound, ExecStatement, StageOk, InStep, Unmarked;
  }

  lemma ExecKeepsRest(src: Source, w: nat, metadata: nat, c: nat, process: Process, t: TableState, t2: TableState)
    requires TableInv(src, w, metadata, c, process, t) && process.Scanning? && ExecStatement(src, t, t2)
    ensures InStep(src, t2) && Unmarked(t2, c)
  {
    ExecFacts(src, t, t2);
    NextIsAhead(src, w, metadata, c, process, t);
    RunIsIncreasing(src, t, process.target);
    hide Contract, Progress, Fresh, Altered, Sound, ExecStatement, StageOk, IsNext, Exhausted, NextDdl;
  }

  lemma RunIsIncreasing(src: Source, t: TableState, target: nat)
    requires StageOk(src, t, target) && t.stage.Running? && t.stage.pending != []
    ensures forall v | v in t.stage.pending :: t.stage.pending[0] <= v
  {
    hide FloorOk, Todo, QueueOk;
    FirstIsLeast(t.stage.pending);
  }

  lemma ExecKeepsHeld(src: Source, w: nat, metadata: nat, c: nat, process: Process, t: TableState, t2: TableState)
    requires TableInv(src, w, metadata, c, process, t) && process.Scanning? && ExecStatement(src, t, t2)
    ensures Fresh(src, t2, c) && Altered(src, t2) && Contract(src, w, metadata, t2) && Progress(src, t2)
  {
    ExecFacts(src, t, t2);
    NextIsAhead(src, w, metadata, c, process, t);
    hide Contract, Progress, Fresh, FloorOk, RunOk, Altered, Sound, ExecStatement, IsNext, Exhausted, NextDdl, StageOk, InStep;
    ExecKeepsAltered(src, t, t2);
    ExecKeepsFresh(src, c, t, t2);
    ContractStays(src, w, metadata, t, t2);
    ExecKeepsProgress(src, t, t2);
  }

  lemma ExecKeepsStage(src: Source, w: nat, metadata: nat, c: nat, process: Process, t: TableState, t2: TableState)
    requires TableInv(src, w, metadata, c, process, t) && process.Scanning? && ExecStatement(src, t, t2)
    ensures StageOk(src, t2, process.target)
  {
    ExecFacts(src, t, t2);
    NextIsAhead(src, w, metadata, c, process, t);
    hide Contract, Progress, Fresh, FloorOk, RunOk, Altered, Sound, ExecStatement, Exhausted, NextDdl;
    ExecRuns(src, t, t2, process.target);
    FloorStays(src, t, t2, t.stage.floor, process.target);
  }

  // A DDL with statements is the next version's.
  lemma NextIsAhead(src: Source, w: nat, metadata: nat, c: nat, process: Process, t: TableState)
    requires TableInv(src, w, metadata, c, process, t) && process.Scanning? && NextDdl(t)
    ensures src.base <= t.applied <= t.stage.pending[0] && t.stage.pending[0] in t.schemas && t.stage.pending[0] in src.ddls
    ensures t.stage.pending[0] == t.applied ==> t.applied == src.base && t.partial == [] && PassOf(t) == 0
    ensures t.stage.pending[0] != t.applied ==> Exhausted(src, t) && IsNext(src, t.applied, t.stage.pending[0])
    ensures Script(src, t.stage.pending[0]) == if t.stage.pending[0] == t.applied then [] else src.ddls[t.stage.pending[0]]
  {
    hide Fresh, FloorOk;
    assert t.stage.pending[0] in t.stage.pending;
    if t.stage.pending[0] != t.applied {
      NextDdlFacts(src, t, process.target);
    }
  }

  lemma ExecKeepsProgress(src: Source, t: TableState, t2: TableState)
    requires Progress(src, t) && ExecStatement(src, t, t2)
    ensures Progress(src, t2)
  {
    hide OnTable, Position, IsCursor;
    assert forall s: Scope :: LogOf(t2, s) == LogOf(t, s);
  }

  lemma MarkFollows(src: Source, t: TableState, t2: TableState)
    requires MarkDdl(src, t, t2)
    ensures NextDdl(t) && PassOf(t) == |Script(src, t.stage.pending[0])| && PassOf(t2) == 0
    ensures t2.stage == Running(t.stage.floor, t.stage.pending[1..], t.stage.queue, 0)
    ensures t2 == t.(watermark := t.stage.pending[0], durable := t.durable.(watermark := t.stage.pending[0]),
                     applied := t.stage.pending[0], partial := [], stage := t2.stage)
  {
  }

  lemma MarkKeepsHeld(src: Source, w: nat, metadata: nat, c: nat, process: Process, t: TableState, t2: TableState)
    requires TableInv(src, w, metadata, c, process, t) && process.Scanning? && MarkDdl(src, t, t2)
    ensures Fresh(src, t2, c) && Altered(src, t2) && Contract(src, w, metadata, t2) && Progress(src, t2)
  {
    MarkFollows(src, t, t2);
    NextIsAhead(src, w, metadata, c, process, t);
    ContractStays(src, w, metadata, t, t2);
    hide Contract, Progress, Fresh, RunOk, FloorOk, Altered, Sound, IsNext, NextDdl, Exhausted, MarkDdl, StageOk, InStep;
    if t.stage.pending[0] == t.applied {
      SameButStage(src, w, metadata, c, t, t2);
    } else {
      MarkKeepsProgress(src, w, metadata, t, t2, t.stage.pending[0]);
      MarkKeepsFresh(src, w, metadata, c, t, t2, t.stage.pending[0]);
    }
  }

  lemma MarkKeepsStage(src: Source, w: nat, metadata: nat, c: nat, process: Process, t: TableState, t2: TableState)
    requires TableInv(src, w, metadata, c, process, t) && process.Scanning? && MarkDdl(src, t, t2)
    ensures StageOk(src, t2, process.target) && InStep(src, t2) && Unmarked(t2, c)
  {
    MarkFollows(src, t, t2);
    hide Contract, Fresh, Progress, FloorOk, Altered, IsNext, NextDdl, Exhausted, MarkDdl, Todo, QueueOk;
    NextIsAhead(src, w, metadata, c, process, t);
    MarkRuns(src, t, t2, process.target);
    FirstIsLeast(t.stage.pending);
    FloorStays(src, t, t2, t.stage.floor, process.target);
  }

  lemma MarkStepInv(src: Source, w: nat, metadata: nat, c: nat, process: Process, t: TableState, t2: TableState)
    requires TableInv(src, w, metadata, c, process, t) && process.Scanning? && MarkDdl(src, t, t2)
    ensures TableInv(src, w, metadata, c, process, t2)
  {
    MarkFollows(src, t, t2);
    MarkKeepsHeld(src, w, metadata, c, process, t, t2);
    MarkKeepsStage(src, w, metadata, c, process, t, t2);
    hide Contract, Progress, Fresh, Altered, StageOk, InStep, Unmarked, Sound, MarkDdl;
  }

  lemma PersistKeepsProgress(src: Source, t: TableState, t2: TableState)
    requires Progress(src, t) && t2 == t.(durable := t.durable.(cursors := t.cursors), stage := t2.stage)
    ensures Progress(src, t2)
  {
    assert forall s: Scope :: LogOf(t2, s) == LogOf(t, s);
  }

  lemma PersistStepInv(src: Source, w: nat, metadata: nat, c: nat, process: Process, t: TableState, t2: TableState)
    requires TableInv(src, w, metadata, c, process, t) && process.Scanning? && PersistCursors(t, t2)
    ensures TableInv(src, w, metadata, c, process, t2)
  {
    hide Contract, Progress, Fresh, Sound, CaughtUp, RunOk;
    assert t2.watermark == t.watermark;
    PersistFacts(src, t, t2, process.target);
    ScanAdvancesFresh(src, t, t2, c, process.target);
    PersistKeepsProgress(src, t, t2);
    ContractStays(src, w, metadata, t, t2);
    FloorStays(src, t, t2, t.stage.floor, process.target);
    assert forall s: Scope :: LogOf(t2, s) == LogOf(t, s);
  }

  lemma LoaderStepInv(src: Source, w: nat, metadata: nat, c: nat, process: Process, t: TableState, t2: TableState)
    requires TableInv(src, w, metadata, c, process, t) && process.Scanning? && LoaderStep(src, c, t, t2)
    ensures TableInv(src, w, metadata, c, process, t2)
  {
    if pending :| MakePlan(c, t, t2, pending) {
      PlanStepInv(src, w, metadata, c, process, t, t2, pending);
    } else if s :| MergeNext(c, t, t2, s) {
      MergeStepInv(src, w, metadata, c, process, t, t2, s);
    } else if ExecStatement(src, t, t2) {
      ExecStepInv(src, w, metadata, c, process, t, t2);
    } else if MarkDdl(src, t, t2) {
      MarkStepInv(src, w, metadata, c, process, t, t2);
    } else if PersistCursors(t, t2) {
      PersistStepInv(src, w, metadata, c, process, t, t2);
    } else {
      LookStepInv(src, w, metadata, c, process, t, t2);
    }
  }

  lemma GrowthKeepsRest(src: Source, t: TableState, t2: TableState, c: nat)
    requires Grows(t, t2) && Altered(src, t) && InStep(src, t) && Unmarked(t, c)
    ensures Altered(src, t2) && InStep(src, t2) && Unmarked(t2, c) && t2.stage == t.stage
  {
    assert t2 == t.(schemas := t2.schemas, logs := t2.logs, folders := t2.folders) && t.schemas <= t2.schemas;
    hide Grows, RunAll, IsNext;
    if t.partial != [] {
      var next :| IsNext(src, t.applied, next) && next in t.schemas && t.partial <= src.ddls[next];
      assert IsNext(src, t2.applied, next) && next in t2.schemas;
    }
  }

  lemma ProducerStepInv(src: Source, w: nat, metadata: nat, c: nat, process: Process, t: TableState, t2: TableState)
    requires TableInv(src, w, metadata, c, process, t) && ProducerStep(src, w, metadata, t, t2)
    ensures TableInv(src, w, metadata, c, process, t2)
  {
    hide Contract, Progress, Fresh, StageOk, Sound, ProducerStep, Grows, Altered, InStep, Unmarked;
    ProducerGrows(src, w, metadata, t, t2);
    GrowthKeepsProgress(src, w, metadata, t, t2);
    GrowthKeepsFresh(src, w, metadata, t, t2, c);
    GrowthKeepsRest(src, t, t2, c);
    if process.Scanning? {
      GrowthKeepsStage(src, w, metadata, t, t2, process.target);
    }
  }

  lemma RestartInv(src: Source, w: nat, metadata: nat, c: nat, process: Process, t: TableState)
    requires TableInv(src, w, metadata, c, process, t)
    ensures TableInv(src, w, metadata, c, Down, Restarted(t))
    ensures TableInv(src, w, metadata, c, Idle, Restarted(t))
  {
    var t2 := Restarted(t);
    ContractStays(src, w, metadata, t, t2);
    RestartKeepsProgress(src, t);
    RestartKeepsFresh(src, c, t);
    hide Contract, Progress, Fresh, Sound, StageOk;
  }

  lemma RestartKeepsProgress(src: Source, t: TableState)
    requires Progress(src, t)
    ensures Progress(src, Restarted(t))
  {
    hide Position, IsCursor;
    assert forall s: Scope :: LogOf(Restarted(t), s) == LogOf(t, s);
  }

  lemma RestartKeepsFresh(src: Source, c: nat, t: TableState)
    requires Fresh(src, t, c) && Altered(src, t)
    ensures Fresh(src, Restarted(t), c) && Altered(src, Restarted(t))
  {
    hide Fresh;
    FreshDrops(src, c, t, Restarted(t));
  }

  lemma BeginInv(src: Source, w: nat, metadata: nat, c: nat, t: TableState)
    requires TableInv(src, w, metadata, c, Idle, t) && c < metadata
    ensures TableInv(src, w, metadata, c, Scanning(metadata), t.(stage := Begun(Floor(t))))
  {
    var t2 := t.(stage := Begun(Floor(t)));
    SameButStage(src, w, metadata, c, t, t2);
    BeginScanOk(src, w, metadata, t);
  }

  lemma CommitInv(src: Source, w: nat, metadata: nat, c: nat, target: nat, t: TableState)
    requires TableInv(src, w, metadata, c, Scanning(target), t) && t.stage.Done?
    ensures TableInv(src, w, metadata, target, Idle, t.(stage := Resting))
  {
    SameButStage(src, w, metadata, target, t, t.(stage := Resting));
  }

  lemma PublishInv(src: Source, w: nat, metadata: nat, metadata2: nat, c: nat, process: Process, t: TableState)
    requires TableInv(src, w, metadata, c, process, t) && metadata <= metadata2 && Contract(src, w, metadata2, t)
    ensures TableInv(src, w, metadata2, c, process, t)
  {
  }

  lemma InitInv(src: Source, w: nat, metadata: nat, c: nat, t: TableState)
    requires Sound(src) && Loaded(src, c) && Contract(src, w, metadata, t)
    requires t == TableState(t.schemas, t.logs, t.folders, Durable(0, map[]), 0, map[], Resting, t.rows, t.columns, src.snapshot, [], map[])
    requires forall k: Key :: Lookup(t.rows, k) == ValueAt(src, k, src.origin)
    ensures TableInv(src, w, metadata, c, Down, t)
  {
    forall k: Key
      ensures ShowsFrom(src, HeldBy(t), k, Oldest(src, c))
      ensures Reflects(src, t, map[], c, k)
    {
      assert t.partial[..0] == [];
      assert Shows(src, HeldBy(t), k, src.origin, 0);
      var s := Home(src, t, k);
      assert LogOf(t, s)[..0] == [];
    }
    NothingAltered(src, t);
  }

  // ----- The system -----

  ghost predicate Inv(c: Setup, y: System) {
    && y.tables.Keys == c.sources.Keys
    && forall n | n in y.tables :: TableInv(c.sources[n], c.width, y.metadata, y.checkpoint, y.process, y.tables[n])
  }

  lemma InitOk(c: Setup, y: System)
    requires Init(c, y)
    ensures Inv(c, y)
  {
    forall n | n in y.tables ensures TableInv(c.sources[n], c.width, y.metadata, y.checkpoint, y.process, y.tables[n]) {
      InitInv(c.sources[n], c.width, y.metadata, y.checkpoint, y.tables[n]);
    }
  }

  lemma NextOk(c: Setup, y: System, y2: System)
    requires Inv(c, y) && Next(c, y, y2)
    ensures Inv(c, y2)
  {
    hide TableInv;
    forall n | n in y2.tables
      ensures n in c.sources && TableInv(c.sources[n], c.width, y2.metadata, y2.checkpoint, y2.process, y2.tables[n])
    {
      if name :| TableStep(c, y, y2, name) {
        TableStepOk(c, y, y2, name, n);
      } else {
        GlobalStepOk(c, y, y2, n);
      }
    }
  }

  lemma TableStepOk(c: Setup, y: System, y2: System, name: string, n: string)
    requires Inv(c, y) && TableStep(c, y, y2, name) && n in y2.tables
    ensures n in c.sources && TableInv(c.sources[n], c.width, y2.metadata, y2.checkpoint, y2.process, y2.tables[n])
  {
    if n == name {
      var src, t, t2 := c.sources[n], y.tables[n], y2.tables[n];
      if ProducerStep(src, c.width, y.metadata, t, t2) {
        ProducerStepInv(src, c.width, y.metadata, y.checkpoint, y.process, t, t2);
      } else {
        LoaderStepInv(src, c.width, y.metadata, y.checkpoint, y.process, t, t2);
      }
    }
  }

  lemma GlobalStepOk(c: Setup, y: System, y2: System, n: string)
    requires Inv(c, y) && n in y.tables
    requires PublishMetadata(c, y, y2) || Start(y, y2) || BeginScan(y, y2) || Commit(y, y2) || Crash(y, y2)
    ensures n in y2.tables && TableInv(c.sources[n], c.width, y2.metadata, y2.checkpoint, y2.process, y2.tables[n])
  {
    var src, t := c.sources[n], y.tables[n];
    if PublishMetadata(c, y, y2) {
      PublishInv(src, c.width, y.metadata, y2.metadata, y.checkpoint, y.process, t);
    } else if Start(y, y2) || Crash(y, y2) {
      RestartInv(src, c.width, y.metadata, y.checkpoint, y.process, t);
    } else if BeginScan(y, y2) {
      BeginInv(src, c.width, y.metadata, y.checkpoint, t);
    } else {
      CommitInv(src, c.width, y.metadata, y.checkpoint, y.process.target, t);
    }
  }

  ghost predicate IsRun(c: Setup, run: seq<System>) {
    && run != [] && Init(c, run[0])
    && forall i | 0 <= i < |run| - 1 :: Next(c, run[i], run[i + 1])
  }

  lemma {:induction false} InvAlways(c: Setup, run: seq<System>, i: nat)
    requires IsRun(c, run) && i < |run|
    ensures Inv(c, run[i])
  {
    if i == 0 {
      InitOk(c, run[0]);
    } else {
      InvAlways(c, run, i - 1);
      NextOk(c, run[i - 1], run[i]);
    }
  }

  lemma TableInvAlways(c: Setup, run: seq<System>, i: nat, n: string)
    requires IsRun(c, run) && i < |run| && n in run[i].tables
    ensures n in c.sources
    ensures TableInv(c.sources[n], c.width, run[i].metadata, run[i].checkpoint, run[i].process, run[i].tables[n])
  {
    InvAlways(c, run, i);
  }

  // ----- Main results -----

  // At every moment of every run, every row of every table is the source row at some time not
  // before the durable checkpoint; while a DDL is running, or has been cut off by a crash, it may
  // have been changed by the first of the DDL's statements already.
  lemma CheckpointSafety(c: Setup, run: seq<System>, i: nat, n: string, k: Key)
    requires IsRun(c, run) && i < |run| && n in run[i].tables
    ensures n in c.sources
    ensures var src, t := c.sources[n], run[i].tables[n];
            && (exists at: nat, j: nat :: run[i].checkpoint <= at && j <= |t.partial|
                  && Lookup(t.rows, k) == OnRow(t.partial[..j], ValueAt(src, k, at)))
            && (t.partial == [] ==> exists at: nat :: run[i].checkpoint <= at && Lookup(t.rows, k) == ValueAt(src, k, at))
            && (t.partial != [] ==> exists next :: IsNext(src, t.applied, next) && t.partial <= src.ddls[next])
  {
    hide IsRun, TableInv, OnRow, ValueAt, Lookup, IsNext;
    TableInvAlways(c, run, i, n);
    var at, j := ShownRow(c.sources[n], c.width, run[i].metadata, run[i].checkpoint, run[i].process, run[i].tables[n], k);
  }

  lemma ShownRow(src: Source, w: nat, metadata: nat, c: nat, process: Process, t: TableState, k: Key) returns (at: nat, j: nat)
    requires TableInv(src, w, metadata, c, process, t)
    ensures c <= at && j <= |t.partial| && Lookup(t.rows, k) == OnRow(t.partial[..j], ValueAt(src, k, at))
    ensures t.partial == [] ==> Lookup(t.rows, k) == ValueAt(src, k, at)
    ensures t.partial != [] ==> exists next :: IsNext(src, t.applied, next) && t.partial <= src.ddls[next]
  {
    hide Contract, Progress, StageOk, InStep, Sound, Unmarked, Reflects, ValueAt, IsNext;
    assert ShowsFrom(src, HeldBy(t), k, Oldest(src, c));
    at, j :| Oldest(src, c) <= at && Shows(src, HeldBy(t), k, at, j);
    assert t.partial == [] ==> t.partial[..j] == [];
  }

  // When the source has been quiet since the checkpoint, Snowflake is the source.
  lemma QuietSourceIsReplicated(c: Setup, run: seq<System>, i: nat, n: string)
    requires IsRun(c, run) && i < |run| && n in run[i].tables && n in c.sources
    requires forall k, e | (k, e) in c.sources[n].changes :: e <= run[i].checkpoint
    requires forall v | v in c.sources[n].ddls :: v <= run[i].checkpoint
    ensures forall k: Key :: Lookup(run[i].tables[n].rows, k) == ValueAt(c.sources[n], k, run[i].checkpoint)
  {
    TableInvAlways(c, run, i, n);
    assert run[i].tables[n].partial == [];
    forall k: Key ensures Lookup(run[i].tables[n].rows, k) == ValueAt(c.sources[n], k, run[i].checkpoint) {
      CheckpointSafety(c, run, i, n, k);
      var at: nat :| run[i].checkpoint <= at && Lookup(run[i].tables[n].rows, k) == ValueAt(c.sources[n], k, at);
      StandsStill(c.sources[n], k, run[i].checkpoint, at);
    }
  }

  // A checkpoint is only committed once every file that was indexed when its metadata was read
  // has been merged, except files from before the snapshot's schema version.
  lemma NoFileLost(c: Setup, run: seq<System>, i: nat, n: string, s: Scope)
    requires IsRun(c, run) && i + 1 < |run| && Commit(run[i], run[i + 1]) && n in run[i].tables
    ensures n in c.sources && run[i].tables[n].stage.Done?
    ensures c.sources[n].snapshot <= s.version ==>
              CountOf(run[i].tables[n].stage.floor, s) <= CountOf(run[i].tables[n].merged, s)
  {
    hide Contract, Progress, Fresh, Sound, InStep, FloorOk, Next;
    TableInvAlways(c, run, i, n);
  }

  // What counts as merged is a prefix of each stream: a merge takes the file at the cursor, which
  // is at most the first one never merged, and counts it.
  lemma MergedIsPrefix(c: Setup, run: seq<System>, i: nat, n: string, s: Scope, t2: TableState)
    requires IsRun(c, run) && i < |run| && n in run[i].tables && run[i].process.Scanning?
    requires MergeNext(run[i].checkpoint, run[i].tables[n], t2, s)
    ensures var t := run[i].tables[n];
            var log, p, merged := LogOf(t, s), Position(LogOf(t, s), CursorOf(t.cursors, s)), CountOf(t.merged, s);
            && p <= merged <= |log| && p < |log| && QueueOf(t.stage.queue, s)[0] == NameOf(log, p)
            && CountOf(t2.merged, s) == Later(merged, p + 1)
  {
    hide TableInv, Merged, MergeNext;
    TableInvAlways(c, run, i, n);
    var t := run[i].tables[n];
    MergeStepIsMerged(c.sources[n], c.width, run[i].metadata, run[i].checkpoint, run[i].process, t, t2, s);
    MergeTakesNext(c.sources[n], c.width, run[i].metadata, run[i].checkpoint, run[i].process, t, t2, s);
  }

  lemma MergeTakesNext(src: Source, w: nat, metadata: nat, c: nat, process: Process, t: TableState, t2: TableState, s: Scope)
    requires TableInv(src, w, metadata, c, process, t) && process.Scanning? && MergeNext(c, t, t2, s) && Merged(src, w, c, t, t2, s)
    ensures var log, p, merged := LogOf(t, s), Position(LogOf(t, s), CursorOf(t.cursors, s)), CountOf(t.merged, s);
            && p <= merged <= |log| && p < |log| && QueueOf(t.stage.queue, s)[0] == NameOf(log, p)
            && CountOf(t2.merged, s) == Later(merged, p + 1)
  {
    hide Contract, Fresh, Sound, FloorOk, Todo, MergeStatement, Genuine;
    assert QueueOk(t, t.stage.floor, t.stage.pending, t.stage.queue, s);
  }

  // Files are merged under the schema version they were written under, and below the version a
  // table has everything has been merged.
  lemma EpochsInOrder(c: Setup, run: seq<System>, i: nat, n: string, s: Scope)
    requires IsRun(c, run) && i < |run| && n in run[i].tables
    ensures n in c.sources
    ensures forall t2: TableState :: MergeNext(run[i].checkpoint, run[i].tables[n], t2, s) && run[i].process.Scanning? ==>
              s.version == run[i].tables[n].applied
    ensures c.sources[n].snapshot <= s.version < run[i].tables[n].applied ==>
              CountOf(run[i].tables[n].merged, s) == |LogOf(run[i].tables[n], s)|
  {
    hide Contract, Fresh, Sound, InStep, FloorOk, Next;
    TableInvAlways(c, run, i, n);
    var src, t := c.sources[n], run[i].tables[n];
    forall t2: TableState | MergeNext(run[i].checkpoint, t, t2, s) && run[i].process.Scanning?
      ensures s.version == t.applied
    {
      EpochAlignment(src, t, t2, run[i].checkpoint, s, run[i].process.target);
    }
  }

  // The table's columns, and which DDLs have touched them, are as before.
  ghost predicate SameTable(t: TableState, t2: TableState) {
    && t2.applied == t.applied && t2.partial == t.partial && t2.columns == t.columns
    && t2.durable.watermark == t.durable.watermark && PassOf(t2) <= PassOf(t)
  }

  lemma LookEffects(c: nat, t: TableState, t2: TableState)
    requires || WalkSchemas(c, t, t2) || (exists v :: ListVersion(t, t2, v))
             || (exists s, dates :: ListDates(t, t2, s, dates)) || (exists s, d :: ReadIndex(t, t2, s, d))
             || (exists pending :: MakePlan(c, t, t2, pending))
    ensures SameTable(t, t2)
  {
    hide StreamPlan, LookedEverywhere, Planned, WithIndex, WalkSchemas, ListVersion, ListDates, ReadIndex, MakePlan;
    if WalkSchemas(c, t, t2) {
      WalkEffects(c, t, t2);
    } else if pending :| MakePlan(c, t, t2, pending) {
      PlanEffects(c, t, t2, pending);
    } else {
      ListEffects(t, t2);
    }
  }

  lemma WalkEffects(c: nat, t: TableState, t2: TableState)
    requires WalkSchemas(c, t, t2)
    ensures SameTable(t, t2)
  {
  }

  lemma PlanEffects(c: nat, t: TableState, t2: TableState, pending: seq<nat>)
    requires MakePlan(c, t, t2, pending)
    ensures SameTable(t, t2)
  {
  }

  lemma ListEffects(t: TableState, t2: TableState)
    requires || (exists v :: ListVersion(t, t2, v)) || (exists s, dates :: ListDates(t, t2, s, dates))
             || (exists s, d :: ReadIndex(t, t2, s, d))
    ensures SameTable(t, t2)
  {
    hide ListVersion, ListDates, ReadIndex;
    if v :| ListVersion(t, t2, v) {
      VersionEffects(t, t2, v);
    } else if s, dates :| ListDates(t, t2, s, dates) {
      DateEffects(t, t2, s, dates);
    } else {
      var s, d :| ReadIndex(t, t2, s, d);
      IndexEffects(t, t2, s, d);
    }
  }

  lemma VersionEffects(t: TableState, t2: TableState, v: nat)
    requires ListVersion(t, t2, v)
    ensures SameTable(t, t2)
  {
  }

  lemma DateEffects(t: TableState, t2: TableState, s: Scope, dates: seq<nat>)
    requires ListDates(t, t2, s, dates)
    ensures SameTable(t, t2)
  {
  }

  lemma IndexEffects(t: TableState, t2: TableState, s: Scope, d: nat)
    requires ReadIndex(t, t2, s, d)
    ensures SameTable(t, t2)
  {
  }

  lemma MergeEffects(c: nat, t: TableState, t2: TableState, s: Scope)
    requires MergeNext(c, t, t2, s)
    ensures SameTable(t, t2)
  {
    hide MergeStatement, FileNamed, Position;
  }

  lemma ExecEffects(src: Source, t: TableState, t2: TableState)
    requires ExecStatement(src, t, t2)
    ensures t2.applied == t.applied && t2.durable == t.durable
  {
    hide OnTable, RunOne, NextDdl;
  }

  // Only marking a DDL changes the version a table has and the watermark.
  lemma LoaderStepEffects(src: Source, c: nat, t: TableState, t2: TableState)
    requires LoaderStep(src, c, t, t2)
    ensures MarkDdl(src, t, t2) || (t2.applied == t.applied && t2.durable.watermark == t.durable.watermark)
    ensures ExecStatement(src, t, t2) || MarkDdl(src, t, t2) || SameTable(t, t2)
  {
    hide WalkSchemas, ListVersion, ListDates, ReadIndex, MakePlan, MergeNext, ExecStatement, MarkDdl;
    if s :| MergeNext(c, t, t2, s) {
      MergeEffects(c, t, t2, s);
    } else if ExecStatement(src, t, t2) {
      ExecEffects(src, t, t2);
    } else if !MarkDdl(src, t, t2) && !PersistCursors(t, t2) {
      LookEffects(c, t, t2);
    }
  }

  lemma NextEffects(c: Setup, y: System, y2: System, n: string)
    requires Next(c, y, y2) && n in y.tables && n in c.sources
    ensures y.checkpoint <= y2.checkpoint || Commit(y, y2)
    ensures n in y2.tables
    ensures || (y2.tables[n].applied == y.tables[n].applied && y2.tables[n].durable == y.tables[n].durable)
            || (y.process.Scanning? && LoaderStep(c.sources[n], y.checkpoint, y.tables[n], y2.tables[n]))
  {
    hide Contract, LoaderStep, ProducerStep;
    if name :| TableStep(c, y, y2, name) {
      if ProducerStep(c.sources[name], c.width, y.metadata, y.tables[name], y2.tables[name]) {
        ProducerEffects(c.sources[name], c.width, y.metadata, y.tables[name], y2.tables[name]);
      }
    }
  }

  lemma ProducerEffects(src: Source, w: nat, metadata: nat, t: TableState, t2: TableState)
    requires ProducerStep(src, w, metadata, t, t2)
    ensures t2 == t.(schemas := t2.schemas, logs := t2.logs, folders := t2.folders)
  {
    hide ProducerStep, Contract;
    ProducerGrows(src, w, metadata, t, t2);
  }

  // DDLs are marked in version order without a gap: each takes the table to the source's next
  // version.
  lemma DdlsInOrder(c: Setup, run: seq<System>, i: nat, n: string)
    requires IsRun(c, run) && i + 1 < |run| && n in run[i].tables
    ensures n in c.sources && n in run[i + 1].tables
    ensures var v, v2 := run[i].tables[n].applied, run[i + 1].tables[n].applied;
            v2 == v || IsNext(c.sources[n], v, v2)
  {
    hide TableInv, Next, LoaderStep, IsNext;
    TableInvAlways(c, run, i, n);
    var y := run[i];
    NextEffects(c, y, run[i + 1], n);
    var src, t, t2 := c.sources[n], y.tables[n], run[i + 1].tables[n];
    if t2.applied != t.applied {
      LoaderStepEffects(src, y.checkpoint, t, t2);
      MarkAdvances(src, c.width, y.metadata, y.checkpoint, y.process, t, t2);
    }
  }

  lemma MarkAdvances(src: Source, w: nat, metadata: nat, c: nat, process: Process, t: TableState, t2: TableState)
    requires TableInv(src, w, metadata, c, process, t) && process.Scanning? && MarkDdl(src, t, t2)
    ensures t2.applied == t.applied || IsNext(src, t.applied, t2.applied)
    ensures t.durable.watermark <= t2.durable.watermark
  {
    NextIsAhead(src, w, metadata, c, process, t);
    hide Fresh, FloorOk, Sound, Contract, RunOk;
  }

  // The durable checkpoint and watermarks never move back.
  lemma ProgressIsMonotone(c: Setup, run: seq<System>, i: nat, n: string)
    requires IsRun(c, run) && i + 1 < |run| && n in run[i].tables
    ensures n in run[i + 1].tables
    ensures run[i].checkpoint <= run[i + 1].checkpoint
    ensures run[i].tables[n].durable.watermark <= run[i + 1].tables[n].durable.watermark
  {
    hide TableInv, Next, LoaderStep;
    TableInvAlways(c, run, i, n);
    var y := run[i];
    NextEffects(c, y, run[i + 1], n);
    var src, t, t2 := c.sources[n], y.tables[n], run[i + 1].tables[n];
    CommitAdvances(src, c.width, y.metadata, y.checkpoint, y.process, t);
    if t2.durable.watermark != t.durable.watermark {
      LoaderStepEffects(src, y.checkpoint, t, t2);
      MarkAdvances(src, c.width, y.metadata, y.checkpoint, y.process, t, t2);
    }
  }

  lemma CommitAdvances(src: Source, w: nat, metadata: nat, c: nat, process: Process, t: TableState)
    requires TableInv(src, w, metadata, c, process, t)
    ensures process.Scanning? ==> c < process.target <= metadata
  {
  }
}
