// What a scan knows at each of its stages, although the producer writes all the while.
module Scanning {
  import opened Wrappers
  import opened Merge
  import opened Statements
  import opened History
  import opened Discovery
  import opened Replication
  import opened Freshness

  // Since the metadata was read, logs only gained files the contract covers.
  ghost predicate FloorOk(src: Source, t: TableState, floor: map<Scope, nat>, target: nat) {
    && (forall s: Scope :: CountOf(floor, s) <= |LogOf(t, s)|)
    && (forall s: Scope, q: nat | CountOf(floor, s) <= q <= |LogOf(t, s)| :: Caught(src, s, LogOf(t, s)[..q], target))
  }

  // The schema versions still to be crossed: all up to the target, without a gap.
  ghost predicate Todo(src: Source, t: TableState, floor: map<Scope, nat>, todo: set<nat>, target: nat) {
    && (forall v | v in todo :: v in t.schemas && t.applied < v)
    && (forall u | u in src.ddls && t.applied < u <= target :: u in todo)
    && (forall u, v | u in src.ddls && v in todo && t.applied < u < v :: u in todo)
    && (forall s: Scope | CountOf(floor, s) > 0 && t.applied < s.version :: s.version in todo)
  }

  predicate HasLater(versions: set<nat>, v: nat) { exists u :: u in versions && v < u }

  ghost predicate BegunOk(src: Source, t: TableState, target: nat) {
    && t.stage.Begun?
    && (forall s: Scope :: CountOf(t.merged, s) <= CountOf(t.stage.floor, s))
    && (forall s: Scope | CountOf(t.stage.floor, s) > 0 :: s.version in t.schemas)
  }

  // A partition directory that was not there at the listing.
  ghost predicate Absent(t: TableState, s: Scope)
    requires t.stage.Looking?
  {
    && CountOf(t.stage.floor, s) == 0
    && (HasLater(t.stage.planned, s.version) ==> LogOf(t, s) == [])
  }

  // A stream whose date directories were listed and whose indexes were partly read.
  ghost predicate Seen(t: TableState, s: Scope)
    requires t.stage.Looking?
  {
    && s.version in t.stage.planned && s in t.stage.dates && s in t.stage.index && s in t.stage.listed
    && var log, dates, index, listed := LogOf(t, s), t.stage.dates[s], t.stage.index[s], t.stage.listed[s];
    && CountOf(t.stage.floor, s) <= listed <= |log|
    && (HasLater(t.stage.planned, s.version) ==> listed == |log|)
    && Increasing(dates) && (forall d | d in dates :: d in FoldersOf(t, s))
    && (forall i | 0 <= i < listed :: log[i].date in dates)
    && (forall i, j | listed <= i < |log| && 0 <= j < |dates| :: dates[j] <= log[i].date)
    && (forall d | d in index :: Index(log[..listed], d) <= index[d] <= Index(log, d))
  }

  ghost predicate LookingOk(src: Source, t: TableState, target: nat) {
    && t.stage.Looking?
    && (forall s: Scope :: CountOf(t.merged, s) <= CountOf(t.stage.floor, s))
    && t.applied in t.stage.planned && (forall v | v in t.stage.planned :: t.applied <= v && v in t.schemas)
    && Todo(src, t, t.stage.floor, t.stage.planned - {t.applied}, target)
    && (forall v | v in t.stage.dirs :: v in t.stage.planned)
    && (forall s: Scope | s.version in t.stage.dirs && s.partition !in t.stage.dirs[s.version] :: Absent(t, s))
    && (forall s | s in t.stage.dates :: Seen(t, s))
  }

  // The queue of stream s is the part of its log from the cursor to where the scan will stop,
  // which is not before the log's length at the metadata read, and is the log's end if a later
  // version's DDL comes in this scan.
  ghost predicate QueueOk(t: TableState, floor: map<Scope, nat>, pending: seq<nat>, queue: map<Scope, seq<Name>>, s: Scope) {
    var log, p, q := LogOf(t, s), Position(LogOf(t, s), CursorOf(t.cursors, s)), QueueOf(queue, s);
    && p + |q| <= |log| && q == NamesOf(log, p, p + |q|)
    && CountOf(t.merged, s) <= Later(CountOf(floor, s), p)
    && (q != [] ==> s.version == t.applied || s.version in pending)
    && (t.applied <= s.version ==> CountOf(floor, s) <= p + |q|)
    && (t.applied <= s.version && HasLater(SetOf(pending), s.version) ==> p + |q| == |log|)
  }

  ghost predicate RunOk(src: Source, t: TableState, floor: map<Scope, nat>, pending: seq<nat>, queue: map<Scope, seq<Name>>, target: nat) {
    && Increasing(pending) && (forall v | v in pending :: t.applied <= v && v in t.schemas)
    && (t.applied in pending ==> t.applied == src.base)
    && Todo(src, t, floor, SetOf(pending) - {t.applied}, target)
    && (forall s: Scope :: QueueOk(t, floor, pending, queue, s))
  }

  // In the middle of a DDL, it is that of a version the table does not have yet.
  ghost predicate PassOk(t: TableState) {
    PassOf(t) > 0 ==> NextDdl(t) && t.applied < t.stage.pending[0]
  }

  // Everything that was indexed when the metadata was read has been merged.
  ghost predicate NothingLost(src: Source, t: TableState, floor: map<Scope, nat>) {
    forall s: Scope | src.snapshot <= s.version :: CountOf(floor, s) <= CountOf(t.merged, s)
  }

  ghost predicate StageOk(src: Source, t: TableState, target: nat) {
    && !t.stage.Resting? && FloorOk(src, t, t.stage.floor, target)
    && (forall u | u in src.ddls && src.base <= u <= target :: u in t.schemas)
    && match t.stage
       case Begun(_) => BegunOk(src, t, target)
       case Looking(_, _, _, _, _, _) => LookingOk(src, t, target)
       case Running(floor, pending, queue, _) => RunOk(src, t, floor, pending, queue, target) && PassOk(t)
       case Done(floor) => Fresh(src, t, target) && NothingLost(src, t, floor)
  }

  // The loader's copies of the durable fields, and the version Snowflake has.
  ghost predicate InStep(src: Source, t: TableState) {
    && t.watermark == t.durable.watermark
    && (t.watermark > 0 ==> src.snapshot <= t.watermark) && t.applied == Current(src, t.watermark)
    && (!t.stage.Running? ==> t.cursors == t.durable.cursors)
  }

  // ----- Reading the store -----

  lemma MetadataCovers(src: Source, w: nat, metadata: nat, t: TableState)
    requires Contract(src, w, metadata, t)
    ensures forall s :: Caught(src, s, LogOf(t, s), metadata)
    ensures forall u | u in src.ddls && src.base <= u <= metadata :: u in t.schemas
    ensures forall s: Scope | LogOf(t, s) != [] :: s.version in t.schemas
  {
    hide Caught, Genuine, Dated;
  }

  lemma WholeLogCaught(src: Source, t: TableState, metadata: nat)
    requires forall s :: Caught(src, s, LogOf(t, s), metadata)
    ensures FloorOk(src, t, Floor(t), metadata)
  {
    FloorIsLength(t);
    hide Caught, Floor;
    forall s: Scope, q: nat | CountOf(Floor(t), s) <= q <= |LogOf(t, s)| ensures Caught(src, s, LogOf(t, s)[..q], metadata) {
      assert LogOf(t, s)[..q] == LogOf(t, s);
    }
  }

  lemma BeginScanOk(src: Source, w: nat, metadata: nat, t: TableState)
    requires Contract(src, w, metadata, t) && Progress(src, t)
    ensures StageOk(src, t.(stage := Begun(Floor(t))), metadata)
  {
    var t2 := t.(stage := Begun(Floor(t)));
    MetadataCovers(src, w, metadata, t);
    FloorIsLength(t);
    assert forall s: Scope :: CountOf(t.merged, s) <= |LogOf(t, s)|;
    hide Contract, Progress, Caught, Floor, FloorOk;
    assert forall s: Scope :: LogOf(t2, s) == LogOf(t, s);
    WholeLogCaught(src, t2, metadata);
    SameFloor(t, t2);
  }

  lemma SameFloor(t: TableState, t2: TableState)
    requires t2.logs == t.logs
    ensures Floor(t2) == Floor(t)
  {
  }

  lemma FloorIsLength(t: TableState)
    ensures forall s: Scope :: CountOf(Floor(t), s) == |LogOf(t, s)|
  {
  }

  // The walk keeps the version the table has and the ones to come, with or without a watermark.
  lemma PlannedVersions(src: Source, t: TableState, checkpoint: nat)
    requires Sound(src) && (src.origin <= checkpoint || src.origin == src.start) && NoDdl(src, t.applied, checkpoint)
    requires (forall v | v in t.schemas :: v in src.ddls) && t.applied in t.schemas
    requires t.applied == Current(src, t.watermark)
    ensures Planned(t.schemas, t.watermark, checkpoint) == set v | v in t.schemas && t.applied <= v
    ensures t.watermark == 0 && checkpoint < t.applied ==> t.applied == src.base
  {
    if t.watermark == 0 {
      if t.applied <= checkpoint {
        assert IsBaseline(t.schemas, checkpoint, t.applied);
      } else {
        assert t.applied == src.base;
      }
    }
  }

  lemma SnapshotSchemaVisible(src: Source, t: TableState, checkpoint: nat, target: nat)
    requires Sound(src) && Progress(src, t) && Fresh(src, t, checkpoint) && StageOk(src, t, target) && checkpoint < target
    requires src.start <= target
    ensures t.applied in t.schemas
  {
    if t.applied == src.snapshot && src.origin == src.start {
      assert src.snapshot <= src.start;
    }
  }

  // Steps that only change where the loader is in its scan.
  ghost predicate OnlyLooked(t: TableState, t2: TableState) {
    t2 == t.(stage := t2.stage) && !t.stage.Resting? && !t2.stage.Resting? && t2.stage.floor == t.stage.floor
  }

  lemma OnlyLookedOk(src: Source, t: TableState, t2: TableState, target: nat)
    requires StageOk(src, t, target) && OnlyLooked(t, t2) && t2.stage.Looking? && LookingOk(src, t2, target)
    ensures StageOk(src, t2, target)
  {
    assert forall s: Scope :: LogOf(t2, s) == LogOf(t, s);
  }

  lemma WalkTodo(src: Source, w: nat, metadata: nat, t: TableState, planned: set<nat>, target: nat)
    requires Contract(src, w, metadata, t) && StageOk(src, t, target) && t.stage.Begun?
    requires src.base <= t.applied
    requires planned == set v | v in t.schemas && t.applied <= v
    ensures Todo(src, t, t.stage.floor, planned - {t.applied}, target)
  {
  }

  lemma WalkOk(src: Source, w: nat, metadata: nat, t: TableState, t2: TableState, checkpoint: nat, target: nat)
    requires Sound(src) && Contract(src, w, metadata, t) && Progress(src, t) && InStep(src, t)
    requires Fresh(src, t, checkpoint) && StageOk(src, t, target) && checkpoint < target && src.start <= target
    requires WalkSchemas(checkpoint, t, t2)
    ensures LookingOk(src, t2, target) && OnlyLooked(t, t2)
  {
    SnapshotSchemaVisible(src, t, checkpoint, target);
    PlannedVersions(src, t, checkpoint);
    WalkTodo(src, w, metadata, t, t2.stage.planned, target);
  }

  lemma FilesHaveFolders(src: Source, w: nat, metadata: nat, t: TableState, s: Scope)
    requires Contract(src, w, metadata, t)
    ensures LogOf(t, s) != [] ==> s in t.folders && t.folders[s] != {}
  {
    assert LogOf(t, s) != [] ==> LogOf(t, s)[0].date in FoldersOf(t, s);
  }

  // What is left to show after a listing or an index read.
  lemma LookingStays(src: Source, t: TableState, t2: TableState, target: nat)
    requires LookingOk(src, t, target) && t2 == t.(stage := t2.stage) && t2.stage.Looking?
    requires t2.stage.floor == t.stage.floor && t2.stage.planned == t.stage.planned
    requires forall v | v in t2.stage.dirs :: v in t2.stage.planned
    requires forall s: Scope | s.version in t2.stage.dirs && s.partition !in t2.stage.dirs[s.version] :: Absent(t2, s)
    requires forall s | s in t2.stage.dates :: Seen(t2, s)
    ensures LookingOk(src, t2, target)
  {
  }

  lemma LookingFacts(src: Source, t: TableState, target: nat)
    requires LookingOk(src, t, target)
    ensures t.stage.Looking? && forall v | v in t.stage.dirs :: v in t.stage.planned
    ensures forall s: Scope | s.version in t.stage.dirs && s.partition !in t.stage.dirs[s.version] :: Absent(t, s)
    ensures forall s | s in t.stage.dates :: Seen(t, s)
  {
  }

  lemma SeenStays(t: TableState, t2: TableState, s: Scope)
    requires t.stage.Looking? && t2.stage.Looking? && Seen(t, s) && t2 == t.(stage := t2.stage)
    requires t2.stage.floor == t.stage.floor && t2.stage.planned == t.stage.planned
    requires s in t2.stage.dates && t2.stage.dates[s] == t.stage.dates[s]
    requires s in t2.stage.index && t2.stage.index[s] == t.stage.index[s]
    requires s in t2.stage.listed && t2.stage.listed[s] == t.stage.listed[s]
    ensures Seen(t2, s)
  {
  }

  lemma AbsentStays(t: TableState, t2: TableState, s: Scope)
    requires t.stage.Looking? && t2.stage.Looking? && Absent(t, s) && t2 == t.(stage := t2.stage)
    requires t2.stage.floor == t.stage.floor && t2.stage.planned == t.stage.planned
    ensures Absent(t2, s)
  {
  }

  lemma ListVersionOk(src: Source, w: nat, metadata: nat, t: TableState, t2: TableState, v: nat, target: nat)
    requires Contract(src, w, metadata, t) && LookingOk(src, t, target) && ListVersion(t, t2, v)
    requires FloorOk(src, t, t.stage.floor, target)
    ensures LookingOk(src, t2, target) && OnlyLooked(t, t2)
  {
    LookingFacts(src, t, target);
    hide LookingOk, Seen, Absent, Contract, FloorOk;
    forall s: Scope | s.version in t2.stage.dirs && s.partition !in t2.stage.dirs[s.version]
      ensures Absent(t2, s)
    {
      if s.version == v {
        NotThere(src, w, metadata, t, t2, v, s, target);
      } else {
        AbsentStays(t, t2, s);
      }
    }
    forall s | s in t2.stage.dates ensures Seen(t2, s) {
      assert Seen(t, s);
      SeenHasIndex(t, s);
      SeenStays(t, t2, s);
    }
    LookingStays(src, t, t2, target);
  }

  lemma SeenHasIndex(t: TableState, s: Scope)
    requires t.stage.Looking? && Seen(t, s)
    ensures s in t.stage.index && s in t.stage.listed
  {
  }

  // A partition that the listing of its version does not show has no file.
  lemma NotThere(src: Source, w: nat, metadata: nat, t: TableState, t2: TableState, v: nat, s: Scope, target: nat)
    requires Contract(src, w, metadata, t) && FloorOk(src, t, if t.stage.Looking? then t.stage.floor else map[], target)
    requires ListVersion(t, t2, v) && s.version == v && s.partition !in t2.stage.dirs[v]
    ensures Absent(t2, s)
  {
    FilesHaveFolders(src, w, metadata, t, s);
    assert LogOf(t, s) == [];
    assert CountOf(t.stage.floor, s) <= |LogOf(t, s)|;
  }

  lemma ListDatesOk(src: Source, w: nat, metadata: nat, t: TableState, t2: TableState, s: Scope, dates: seq<nat>, target: nat)
    requires Contract(src, w, metadata, t) && LookingOk(src, t, target) && ListDates(t, t2, s, dates)
    requires FloorOk(src, t, t.stage.floor, target)
    ensures LookingOk(src, t2, target) && OnlyLooked(t, t2)
  {
    LookingFacts(src, t, target);
    JustListed(src, w, metadata, t, t2, s, dates, target);
    hide LookingOk, Seen, Absent, Contract, FloorOk;
    forall x: Scope | x.version in t2.stage.dirs && x.partition !in t2.stage.dirs[x.version] ensures Absent(t2, x) {
      AbsentStays(t, t2, x);
    }
    forall x | x in t2.stage.dates ensures Seen(t2, x) {
      if x != s {
        SeenHasIndex(t, x);
        SeenStays(t, t2, x);
      }
    }
    LookingStays(src, t, t2, target);
  }

  lemma JustListed(src: Source, w: nat, metadata: nat, t: TableState, t2: TableState, s: Scope, dates: seq<nat>, target: nat)
    requires Contract(src, w, metadata, t) && LookingOk(src, t, target) && ListDates(t, t2, s, dates)
    requires FloorOk(src, t, t.stage.floor, target)
    ensures Seen(t2, s)
  {
    var log := LogOf(t2, s);
    assert log == LogOf(t, s) && CountOf(t.stage.floor, s) <= |log|;
    forall i | 0 <= i < |log| ensures log[i].date in dates {
      assert log[i].date in FoldersOf(t, s);
    }
  }

  lemma JustRead(src: Source, w: nat, metadata: nat, t: TableState, t2: TableState, s: Scope, d: nat)
    requires Contract(src, w, metadata, t) && ReadIndex(t, t2, s, d) && Seen(t, s)
    ensures Seen(t2, s)
  {
    var log, listed := LogOf(t, s), t.stage.listed[s];
    LogsAreDated(src, w, metadata, t, s);
    PrefixCounts(log, listed, d);
    assert LogOf(t2, s) == log && t2.stage.listed[s] == listed && t2.stage.dates[s] == t.stage.dates[s];
    var index2 := t2.stage.index[s];
    forall x | x in index2 ensures Index(log[..listed], x) <= index2[x] <= Index(log, x) {
      assert x != d ==> x in t.stage.index[s] && index2[x] == t.stage.index[s][x];
    }
  }

  lemma ReadIndexOk(src: Source, w: nat, metadata: nat, t: TableState, t2: TableState, s: Scope, d: nat, target: nat)
    requires Contract(src, w, metadata, t) && LookingOk(src, t, target) && ReadIndex(t, t2, s, d)
    ensures LookingOk(src, t2, target) && OnlyLooked(t, t2)
  {
    assert Seen(t, s);
    JustRead(src, w, metadata, t, t2, s, d);
    OthersSeen(src, t, t2, s, target);
  }

  lemma OthersSeen(src: Source, t: TableState, t2: TableState, s: Scope, target: nat)
    requires LookingOk(src, t, target) && t2.stage.Looking? && Seen(t2, s)
    requires t2 == t.(stage := t.stage.(index := t2.stage.index)) && s in t.stage.index && s in t2.stage.index
    requires t2.stage.index == t.stage.index[s := t2.stage.index[s]]
    ensures LookingOk(src, t2, target)
  {
    LookingFacts(src, t, target);
    hide LookingOk, Seen, Absent;
    forall x: Scope | x.version in t2.stage.dirs && x.partition !in t2.stage.dirs[x.version] ensures Absent(t2, x) {
      AbsentStays(t, t2, x);
    }
    forall x | x in t2.stage.dates ensures Seen(t2, x) {
      if x != s {
        SeenHasIndex(t, x);
        SeenStays(t, t2, x);
      }
    }
    LookingStays(src, t, t2, target);
  }

  // ----- The plan -----

  lemma MakePlanOk(src: Source, w: nat, metadata: nat, t: TableState, t2: TableState, checkpoint: nat, pending: seq<nat>, target: nat)
    requires Sound(src) && Contract(src, w, metadata, t) && Progress(src, t) && InStep(src, t)
    requires Fresh(src, t, checkpoint) && LookingOk(src, t, target) && FloorOk(src, t, t.stage.floor, target)
    requires MakePlan(checkpoint, t, t2, pending)
    ensures RunOk(src, t2, t2.stage.floor, pending, t2.stage.queue, target) && OnlyLooked(t, t2)
  {
    PendingVersions(src, t, checkpoint, pending, target);
    forall s: Scope ensures QueueOk(t2, t2.stage.floor, pending, t2.stage.queue, s) {
      if s in t.stage.dates {
        PlannedQueue(src, w, metadata, t, t2, checkpoint, pending, target, s);
      } else {
        EmptyQueue(src, w, metadata, t, t2, checkpoint, pending, target, s);
      }
    }
  }

  lemma PendingVersions(src: Source, t: TableState, checkpoint: nat, pending: seq<nat>, target: nat)
    requires Sound(src) && Fresh(src, t, checkpoint) && LookingOk(src, t, target) && InStep(src, t)
    requires forall v | v in t.schemas :: v in src.ddls
    requires forall v :: v in pending <==> v in t.stage.planned && (if t.watermark > 0 then t.watermark < v else checkpoint < v)
    ensures SetOf(pending) - {t.applied} == t.stage.planned - {t.applied}
    ensures (forall v | v in pending :: t.applied <= v) && (t.applied in pending ==> t.applied == src.base)
  {
    forall v ensures v != t.applied ==> (v in pending <==> v in t.stage.planned) {
      assert v in t.stage.planned && v != t.applied ==> t.applied < v && v in src.ddls;
    }
    PlannedVersions(src, t, checkpoint);
  }

  lemma SeenIsObserved(t: TableState, s: Scope)
    requires t.stage.Looking? && Seen(t, s) && LookedEverywhere(t) && Dated(LogOf(t, s))
    requires IsCursor(LogOf(t, s), CursorOf(t.cursors, s))
    requires Position(LogOf(t, s), CursorOf(t.cursors, s)) <= CountOf(t.stage.floor, s)
    ensures Observed(LogOf(t, s), t.stage.listed[s], CursorOf(t.cursors, s), t.stage.dates[s], t.stage.index[s])
  {
  }

  lemma PlannedQueue(src: Source, w: nat, metadata: nat, t: TableState, t2: TableState, checkpoint: nat,
                     pending: seq<nat>, target: nat, s: Scope)
    requires Contract(src, w, metadata, t) && Progress(src, t) && LookingOk(src, t, target)
    requires MakePlan(checkpoint, t, t2, pending) && s in t.stage.dates
    requires SetOf(pending) - {t.applied} == t.stage.planned - {t.applied} && t.applied in t.stage.planned
    ensures QueueOk(t2, t2.stage.floor, pending, t2.stage.queue, s)
  {
    assert Seen(t, s);
    LogsAreDated(src, w, metadata, t, s);
    assert CountOf(t.merged, s) <= CountOf(t.stage.floor, s);
    SeenIsObserved(t, s);
    SegmentIsQueue(t, t2, pending, s);
  }

  lemma PendingIsPlanned(t: TableState, pending: seq<nat>, v: nat)
    requires t.stage.Looking? && t.applied in t.stage.planned && SetOf(pending) - {t.applied} == t.stage.planned - {t.applied}
    ensures v in t.stage.planned ==> v in pending || v == t.applied
    ensures HasLater(SetOf(pending), v) ==> HasLater(t.stage.planned, v)
  {
    assert v in SetOf(pending) - {t.applied} <==> v in t.stage.planned - {t.applied};
    if HasLater(SetOf(pending), v) {
      var u :| u in SetOf(pending) && v < u;
      assert u in SetOf(pending) - {t.applied} || u == t.applied;
    }
  }

  lemma SegmentIsQueue(t: TableState, t2: TableState, pending: seq<nat>, s: Scope)
    requires t.stage.Looking? && Seen(t, s) && CountOf(t.merged, s) <= CountOf(t.stage.floor, s)
    requires Observed(LogOf(t, s), t.stage.listed[s], CursorOf(t.cursors, s), t.stage.dates[s], t.stage.index[s])
    requires t2.stage.Running? && t2 == t.(stage := t2.stage) && t2.stage.floor == t.stage.floor
    requires QueueOf(t2.stage.queue, s) == StreamPlan(CursorOf(t.cursors, s), t.stage.dates[s], t.stage.index[s])
    requires SetOf(pending) - {t.applied} == t.stage.planned - {t.applied} && t.applied in t.stage.planned
    ensures QueueOk(t2, t2.stage.floor, pending, t2.stage.queue, s)
  {
    var log, c, q := LogOf(t, s), CursorOf(t.cursors, s), QueueOf(t2.stage.queue, s);
    var end := PlanIsContiguous(log, t.stage.listed[s], c, t.stage.dates[s], t.stage.index[s]);
    PendingIsPlanned(t, pending, s.version);
    SegmentOk(t, t2, pending, s, t.stage.listed[s], end);
  }

  // A queue that is a stretch of the log up to a point not before the listing.
  lemma SegmentOk(t: TableState, t2: TableState, pending: seq<nat>, s: Scope, listed: nat, end: nat)
    requires t2.stage.Running? && t2 == t.(stage := t2.stage)
    requires var p := Position(LogOf(t, s), CursorOf(t.cursors, s));
             && p <= end && listed <= end <= |LogOf(t, s)| && QueueOf(t2.stage.queue, s) == NamesOf(LogOf(t, s), p, end)
    requires CountOf(t.merged, s) <= CountOf(t2.stage.floor, s) <= listed
    requires s.version in pending || s.version == t.applied
    requires HasLater(SetOf(pending), s.version) ==> listed == |LogOf(t, s)|
    ensures QueueOk(t2, t2.stage.floor, pending, t2.stage.queue, s)
  {
    hide Position, NameOf, HasLater;
    assert LogOf(t2, s) == LogOf(t, s);
  }

  // A stream that was not listed had no file at the metadata read, and has none if a later version
  // is pending.
  lemma NotListed(src: Source, w: nat, metadata: nat, t: TableState, target: nat, s: Scope)
    requires Contract(src, w, metadata, t) && LookingOk(src, t, target) && LookedEverywhere(t) && FloorOk(src, t, t.stage.floor, target)
    requires s !in t.stage.dates && t.applied <= s.version
    ensures CountOf(t.stage.floor, s) == 0 && (HasLater(t.stage.planned, s.version) ==> LogOf(t, s) == [])
  {
    if s.version in t.stage.planned {
      assert s.version in t.stage.dirs;
      assert Scope(s.version, s.partition) == s;
      assert Absent(t, s);
    } else if HasLater(t.stage.planned, s.version) {
      var u :| u in t.stage.planned && s.version < u;
      assert u in t.stage.planned - {t.applied};
      assert s.version !in src.ddls;
      assert s.version !in t.schemas;
    }
  }

  lemma EmptyOk(t: TableState, t2: TableState, pending: seq<nat>, s: Scope)
    requires t2.stage.Running? && t2 == t.(stage := t2.stage) && QueueOf(t2.stage.queue, s) == []
    requires var p := Position(LogOf(t, s), CursorOf(t.cursors, s));
             p <= |LogOf(t, s)| && p <= CountOf(t.merged, s) <= CountOf(t2.stage.floor, s)
    requires t.applied <= s.version ==> CountOf(t2.stage.floor, s) == 0 && (HasLater(SetOf(pending), s.version) ==> LogOf(t, s) == [])
    ensures QueueOk(t2, t2.stage.floor, pending, t2.stage.queue, s)
  {
    hide Position, HasLater;
    assert LogOf(t2, s) == LogOf(t, s);
  }

  lemma EmptyQueue(src: Source, w: nat, metadata: nat, t: TableState, t2: TableState, checkpoint: nat,
                   pending: seq<nat>, target: nat, s: Scope)
    requires Contract(src, w, metadata, t) && Progress(src, t) && LookingOk(src, t, target)
    requires FloorOk(src, t, t.stage.floor, target)
    requires MakePlan(checkpoint, t, t2, pending) && s !in t.stage.dates
    requires SetOf(pending) - {t.applied} == t.stage.planned - {t.applied} && t.applied in t.stage.planned
    ensures QueueOk(t2, t2.stage.floor, pending, t2.stage.queue, s)
  {
    LogsAreDated(src, w, metadata, t, s);
    CursorPosition(LogOf(t, s), CursorOf(t.cursors, s));
    PendingIsPlanned(t, pending, s.version);
    if t.applied <= s.version {
      NotListed(src, w, metadata, t, target, s);
    }
    hide Contract, FloorOk, Todo, Seen, Absent, HasLater;
    assert CountOf(t.merged, s) <= CountOf(t.stage.floor, s);
    EmptyOk(t, t2, pending, s);
  }

  // ----- Executing the plan -----

  // A file is merged only under the schema version it was written under.
  lemma EpochAlignment(src: Source, t: TableState, t2: TableState, checkpoint: nat, s: Scope, target: nat)
    requires t.stage.Running? && RunOk(src, t, t.stage.floor, t.stage.pending, t.stage.queue, target)
    requires MergeNext(checkpoint, t, t2, s)
    ensures s.version == t.applied
  {
    assert QueueOk(t, t.stage.floor, t.stage.pending, t.stage.queue, s);
  }

  lemma FileAt(log: Log, p: nat, f: File)
    requires Dated(log) && p < |log| && FileNamed(log, NameOf(log, p), f)
    ensures f == log[p].file
  {
    var i :| 0 <= i < |log| && NameOf(log, i) == NameOf(log, p) && log[i].file == f;
    PositionOfName(log, i);
    PositionOfName(log, p);
  }

  // The file merged is the one right after the cursor.
  lemma MergeNextIsMerged(src: Source, w: nat, t: TableState, t2: TableState, checkpoint: nat, s: Scope)
    requires t.stage.Running? && s.version == t.applied && Dated(LogOf(t, s))
    requires QueueOk(t, t.stage.floor, t.stage.pending, t.stage.queue, s)
    requires forall i | 0 <= i < |LogOf(t, s)| :: Genuine(src, w, s, LogOf(t, s)[i].file)
    requires MergeNext(checkpoint, t, t2, s)
    ensures Merged(src, w, checkpoint, t, t2, s)
  {
    hide MergeNext, MergeStatement, FileNamed, Genuine, Position, NamesOf, NameOf, QueueOk, Index, Before, LogOf, CursorOf, QueueOf, Dated;
    var log, p := LogOf(t, s), Position(LogOf(t, s), CursorOf(t.cursors, s));
    var f := MergeEffect(checkpoint, t, t2, s);
    NextName(t, s);
    FileAt(log, p, f);
  }

  lemma MergeEffect(checkpoint: nat, t: TableState, t2: TableState, s: Scope) returns (f: File)
    requires MergeNext(checkpoint, t, t2, s)
    ensures QueueOf(t.stage.queue, s) != [] && PassOf(t) == 0 && PassOf(t2) == 0
    ensures var name := QueueOf(t.stage.queue, s)[0];
            && FileNamed(LogOf(t, s), name, f) && MergeStatement(t.rows, f, checkpoint, t2.rows)
            && t2 == t.(rows := t2.rows, cursors := t.cursors[s := name],
                        merged := t.merged[s := Later(CountOf(t.merged, s), Position(LogOf(t, s), name))], stage := t2.stage)
  {
    hide MergeStatement, FileNamed, Position;
    f :| FileNamed(LogOf(t, s), QueueOf(t.stage.queue, s)[0], f) && MergeStatement(t.rows, f, checkpoint, t2.rows);
  }

  lemma NextName(t: TableState, s: Scope)
    requires t.stage.Running? && Dated(LogOf(t, s)) && QueueOf(t.stage.queue, s) != []
    requires QueueOk(t, t.stage.floor, t.stage.pending, t.stage.queue, s)
    ensures var log, p := LogOf(t, s), Position(LogOf(t, s), CursorOf(t.cursors, s));
            && p < |log| && QueueOf(t.stage.queue, s)[0] == NameOf(log, p)
            && Position(log, NameOf(log, p)) == p + 1
  {
    var log, p := LogOf(t, s), Position(LogOf(t, s), CursorOf(t.cursors, s));
    assert QueueOf(t.stage.queue, s) == NamesOf(log, p, p + |QueueOf(t.stage.queue, s)|);
    PositionOfName(log, p);
  }

  lemma NamesTail(log: Log, p: nat, q: seq<Name>)
    requires q != [] && p + |q| <= |log| && q == NamesOf(log, p, p + |q|)
    ensures q[1..] == NamesOf(log, p + 1, p + 1 + |q[1..]|)
  {
  }

  // How one merge moves the loader: cursor, history and queue of stream s.
  ghost predicate Moved(t: TableState, t2: TableState, s: Scope, name: Name, merged: nat) {
    && t.stage.Running? && QueueOf(t.stage.queue, s) != []
    && t2.cursors == t.cursors[s := name] && t2.merged == t.merged[s := merged]
    && t2.logs == t.logs && t2.schemas == t.schemas && t2.applied == t.applied
    && t2.stage == Running(t.stage.floor, t.stage.pending, t.stage.queue[s := QueueOf(t.stage.queue, s)[1..]], 0)
  }

  // QueueOk for a queue q that starts at position p of stream s.
  ghost predicate Stretch(log: Log, applied: nat, merged: nat, floor: nat, pending: seq<nat>, s: Scope, p: nat, q: seq<Name>) {
    && p + |q| <= |log| && q == NamesOf(log, p, p + |q|)
    && merged <= Later(floor, p)
    && (q != [] ==> s.version == applied || s.version in pending)
    && (applied <= s.version ==> floor <= p + |q|)
    && (applied <= s.version && HasLater(SetOf(pending), s.version) ==> p + |q| == |log|)
  }

  lemma QueueIsStretch(t: TableState, floor: map<Scope, nat>, pending: seq<nat>, queue: map<Scope, seq<Name>>, s: Scope)
    ensures QueueOk(t, floor, pending, queue, s) <==>
              Stretch(LogOf(t, s), t.applied, CountOf(t.merged, s), CountOf(floor, s), pending, s,
                      Position(LogOf(t, s), CursorOf(t.cursors, s)), QueueOf(queue, s))
  {
    hide Position, NamesOf, HasLater;
  }

  // One file further.
  lemma StretchTail(log: Log, applied: nat, merged: nat, floor: nat, pending: seq<nat>, s: Scope, p: nat, q: seq<Name>)
    requires q != [] && Stretch(log, applied, merged, floor, pending, s, p, q)
    ensures Stretch(log, applied, Later(merged, p + 1), floor, pending, s, p + 1, q[1..])
  {
    NamesTail(log, p, q);
    hide NamesOf, HasLater;
  }

  lemma MovedQueue(t: TableState, t2: TableState, s: Scope, merged: nat)
    requires t.stage.Running? && Dated(LogOf(t, s)) && Position(LogOf(t, s), CursorOf(t.cursors, s)) < |LogOf(t, s)|
    requires QueueOk(t, t.stage.floor, t.stage.pending, t.stage.queue, s)
    requires Moved(t, t2, s, NameOf(LogOf(t, s), Position(LogOf(t, s), CursorOf(t.cursors, s))), merged)
    requires merged == Later(CountOf(t.merged, s), Position(LogOf(t, s), CursorOf(t.cursors, s)) + 1)
    ensures QueueOk(t2, t2.stage.floor, t2.stage.pending, t2.stage.queue, s)
  {
    var log, p, q := LogOf(t, s), Position(LogOf(t, s), CursorOf(t.cursors, s)), QueueOf(t.stage.queue, s);
    PositionOfName(log, p);
    QueueIsStretch(t, t.stage.floor, t.stage.pending, t.stage.queue, s);
    QueueIsStretch(t2, t2.stage.floor, t2.stage.pending, t2.stage.queue, s);
    hide QueueOk, Stretch, Position, NameOf, IsCursor, Dated;
    StretchTail(log, t.applied, CountOf(t.merged, s), CountOf(t.stage.floor, s), t.stage.pending, s, p, q);
    assert LogOf(t2, s) == log && CursorOf(t2.cursors, s) == NameOf(log, p) && CountOf(t2.merged, s) == merged;
    assert QueueOf(t2.stage.queue, s) == q[1..];
  }

  lemma MovedElsewhere(t: TableState, t2: TableState, s: Scope, name: Name, merged: nat, x: Scope)
    requires t.stage.Running? && QueueOk(t, t.stage.floor, t.stage.pending, t.stage.queue, x)
    requires Moved(t, t2, s, name, merged) && x != s
    ensures QueueOk(t2, t2.stage.floor, t2.stage.pending, t2.stage.queue, x)
  {
  }

  lemma MergedMoves(src: Source, w: nat, t: TableState, t2: TableState, checkpoint: nat, s: Scope)
    requires MergeNext(checkpoint, t, t2, s) && Merged(src, w, checkpoint, t, t2, s)
    ensures var p := Position(LogOf(t, s), CursorOf(t.cursors, s));
            && Dated(LogOf(t, s)) && p < |LogOf(t, s)|
            && Moved(t, t2, s, NameOf(LogOf(t, s), p), Later(CountOf(t.merged, s), p + 1))
            && t2 == t.(rows := t2.rows, cursors := t2.cursors, merged := t2.merged, stage := t2.stage)
  {
    hide MergeStatement, FileNamed, Genuine, Position, NameOf, Dated;
  }

  lemma TodoStays(src: Source, t: TableState, t2: TableState, floor: map<Scope, nat>, todo: set<nat>, target: nat)
    requires Todo(src, t, floor, todo, target) && t2.schemas == t.schemas && t2.applied == t.applied
    ensures Todo(src, t2, floor, todo, target)
  {
  }

  lemma QueuesMove(t: TableState, t2: TableState, s: Scope, name: Name, merged: nat)
    requires t.stage.Running? && t2.stage.Running? && Moved(t, t2, s, name, merged)
    requires forall x: Scope :: QueueOk(t, t.stage.floor, t.stage.pending, t.stage.queue, x)
    requires QueueOk(t2, t2.stage.floor, t2.stage.pending, t2.stage.queue, s)
    ensures forall x: Scope :: QueueOk(t2, t2.stage.floor, t2.stage.pending, t2.stage.queue, x)
  {
    hide QueueOk, Moved;
    forall x: Scope ensures QueueOk(t2, t2.stage.floor, t2.stage.pending, t2.stage.queue, x) {
      if x != s {
        MovedElsewhere(t, t2, s, name, merged, x);
      }
    }
  }

  lemma RunMoves(src: Source, t: TableState, t2: TableState, s: Scope, name: Name, merged: nat, target: nat)
    requires t.stage.Running? && t2.stage.Running? && Moved(t, t2, s, name, merged)
    requires RunOk(src, t, t.stage.floor, t.stage.pending, t.stage.queue, target)
    requires forall x: Scope :: QueueOk(t2, t2.stage.floor, t2.stage.pending, t2.stage.queue, x)
    ensures RunOk(src, t2, t2.stage.floor, t2.stage.pending, t2.stage.queue, target)
  {
    hide QueueOk, Todo;
    TodoStays(src, t, t2, t.stage.floor, SetOf(t.stage.pending) - {t.applied}, target);
  }

  lemma RunHasQueues(src: Source, t: TableState, floor: map<Scope, nat>, pending: seq<nat>, queue: map<Scope, seq<Name>>, target: nat)
    requires RunOk(src, t, floor, pending, queue, target)
    ensures forall s: Scope :: QueueOk(t, floor, pending, queue, s)
  {
  }

  lemma MergeNextOk(src: Source, w: nat, t: TableState, t2: TableState, checkpoint: nat, s: Scope, target: nat)
    requires t.stage.Running? && RunOk(src, t, t.stage.floor, t.stage.pending, t.stage.queue, target)
    requires MergeNext(checkpoint, t, t2, s) && Merged(src, w, checkpoint, t, t2, s)
    ensures t2.stage.Running? && RunOk(src, t2, t2.stage.floor, t2.stage.pending, t2.stage.queue, target)
  {
    hide MergeNext, Merged, QueueOk, RunOk, Moved, Dated, Position, NameOf;
    MovedRuns(src, w, t, t2, checkpoint, s);
    RunHasQueues(src, t, t.stage.floor, t.stage.pending, t.stage.queue, target);
    var p := Position(LogOf(t, s), CursorOf(t.cursors, s));
    var name, merged := NameOf(LogOf(t, s), p), Later(CountOf(t.merged, s), p + 1);
    MovedQueue(t, t2, s, merged);
    QueuesMove(t, t2, s, name, merged);
    RunMoves(src, t, t2, s, name, merged, target);
  }

  lemma MovedRuns(src: Source, w: nat, t: TableState, t2: TableState, checkpoint: nat, s: Scope)
    requires MergeNext(checkpoint, t, t2, s) && Merged(src, w, checkpoint, t, t2, s)
    ensures t.stage.Running? && t2.stage.Running?
    ensures var p := Position(LogOf(t, s), CursorOf(t.cursors, s));
            && Dated(LogOf(t, s)) && p < |LogOf(t, s)|
            && Moved(t, t2, s, NameOf(LogOf(t, s), p), Later(CountOf(t.merged, s), p + 1))
  {
    MergedMoves(src, w, t, t2, checkpoint, s);
    hide MergeStatement, FileNamed, Genuine, Position, NameOf, Dated, QueueOf, Merged;
  }

  lemma MergeKeepsProgress(src: Source, w: nat, c: nat, t: TableState, t2: TableState, s: Scope)
    requires Progress(src, t) && Merged(src, w, c, t, t2, s)
    ensures Progress(src, t2)
  {
    var log, p := LogOf(t, s), Position(LogOf(t, s), CursorOf(t.cursors, s));
    PositionOfName(log, p);
    hide MergeStatement, Genuine, Position, NameOf, IsCursor, Dated;
    forall x: Scope
      ensures IsCursor(LogOf(t2, x), CursorOf(t2.cursors, x))
      ensures Position(LogOf(t2, x), CursorOf(t2.durable.cursors, x)) <= Position(LogOf(t2, x), CursorOf(t2.cursors, x)) <= CountOf(t2.merged, x)
      ensures CountOf(t.merged, x) <= CountOf(t2.merged, x) <= |LogOf(t2, x)|
      ensures x != s ==> CountOf(t2.merged, x) == CountOf(t.merged, x)
    {
      assert LogOf(t2, x) == LogOf(t, x);
      assert CursorOf(t2.cursors, x) == if x == s then NameOf(log, p) else CursorOf(t.cursors, x);
    }
  }

  lemma GapFree(src: Source, t: TableState, floor: map<Scope, nat>, todo: set<nat>, target: nat, next: nat)
    requires Todo(src, t, floor, todo, target) && next in todo
    ensures forall u | u in src.ddls && t.applied < u < next :: u in todo
  {
  }

  lemma NextDdlFacts(src: Source, t: TableState, target: nat)
    requires Progress(src, t) && NextDdl(t) && RunOk(src, t, t.stage.floor, t.stage.pending, t.stage.queue, target)
    requires (forall v | v in t.schemas :: v in src.ddls) && t.stage.pending[0] != t.applied
    ensures Exhausted(src, t) && IsNext(src, t.applied, t.stage.pending[0]) && t.stage.pending[0] in t.schemas
  {
    var next := t.stage.pending[0];
    assert next in SetOf(t.stage.pending) && t.applied <= next;
    forall s: Scope | s.version == t.applied
      ensures Position(LogOf(t, s), CursorOf(t.cursors, s)) == CountOf(t.merged, s) == |LogOf(t, s)|
    {
      assert QueueOk(t, t.stage.floor, t.stage.pending, t.stage.queue, s);
      assert HasLater(SetOf(t.stage.pending), s.version);
    }
    FirstIsNext(src, t, t.stage.pending, target);
  }

  lemma FirstIsNext(src: Source, t: TableState, pending: seq<nat>, target: nat)
    requires !t.stage.Resting? && Increasing(pending) && pending != [] && t.applied < pending[0]
    requires Todo(src, t, t.stage.floor, SetOf(pending) - {t.applied}, target) && (forall v | v in t.schemas :: v in src.ddls)
    ensures IsNext(src, t.applied, pending[0]) && pending[0] in t.schemas
  {
    var todo := SetOf(pending) - {t.applied};
    assert pending[0] in todo;
    GapFree(src, t, t.stage.floor, todo, target, pending[0]);
    forall u | u in todo ensures pending[0] <= u {
      var i :| 0 <= i < |pending| && pending[i] == u;
    }
  }

  lemma RestOf(pending: seq<nat>)
    requires Increasing(pending) && pending != []
    ensures Increasing(pending[1..]) && SetOf(pending[1..]) == SetOf(pending) - {pending[0]} && pending[0] in SetOf(pending)
  {
    var rest := pending[1..];
    forall v ensures v in rest <==> v in pending && v != pending[0] {
      if v in pending && v != pending[0] {
        var i :| 0 <= i < |pending| && pending[i] == v;
        assert rest[i - 1] == v;
      }
    }
    assert pending[0] in pending;
  }

  // Once the DDL is marked, the rest of the plan is a plan for the new version.
  lemma MarkRuns(src: Source, t: TableState, t2: TableState, target: nat)
    requires NextDdl(t) && RunOk(src, t, t.stage.floor, t.stage.pending, t.stage.queue, target) && MarkDdl(src, t, t2)
    ensures RunOk(src, t2, t.stage.floor, t.stage.pending[1..], t.stage.queue, target)
  {
    var pending, rest := t.stage.pending, t.stage.pending[1..];
    RestOf(pending);
    assert pending[0] in pending;
    assert forall v | v in rest :: v in SetOf(rest);
    FirstIsLeast(pending);
    assert SetOf(rest) - {pending[0]} == SetOf(pending) - {t.applied} - {pending[0]};
    TodoShrinks(src, t, t2, t.stage.floor, SetOf(pending) - {t.applied}, target, pending[0]);
    hide Todo, Increasing, MarkDdl;
    forall s: Scope ensures QueueOk(t2, t.stage.floor, rest, t.stage.queue, s) {
      QueueAfterDdl(src, t, t2, s);
    }
  }

  lemma FirstIsLeast(pending: seq<nat>)
    requires Increasing(pending) && pending != []
    ensures forall v | v in pending :: pending[0] <= v
    ensures forall v | v in pending[1..] :: pending[0] < v
  {
  }

  lemma TodoShrinks(src: Source, t: TableState, t2: TableState, floor: map<Scope, nat>, todo: set<nat>, target: nat, next: nat)
    requires Todo(src, t, floor, todo, target) && t.applied <= next && (next in todo || next == t.applied) && forall v | v in todo :: next <= v
    requires t2.schemas == t.schemas && t2.applied == next
    ensures Todo(src, t2, floor, todo - {next}, target)
  {
  }

  lemma QueueAfterDdl(src: Source, t: TableState, t2: TableState, s: Scope)
    requires NextDdl(t) && Increasing(t.stage.pending) && MarkDdl(src, t, t2)
    requires QueueOk(t, t.stage.floor, t.stage.pending, t.stage.queue, s) && (t.applied <= t.stage.pending[0])
    ensures QueueOk(t2, t.stage.floor, t.stage.pending[1..], t.stage.queue, s)
  {
    var pending, rest := t.stage.pending, t.stage.pending[1..];
    RestOf(pending);
    hide Position, NamesOf, Increasing, Script;
    assert QueueOf(t.stage.queue, s) != [] ==> pending[0] <= s.version;
    assert HasLater(SetOf(rest), s.version) ==> HasLater(SetOf(pending), s.version);
    assert s.version in pending ==> s.version == pending[0] || s.version in rest by {
      assert pending == [pending[0]] + rest;
    }
    assert LogOf(t2, s) == LogOf(t, s);
  }

  // A statement of the DDL leaves the plan as it is.
  lemma ExecRuns(src: Source, t: TableState, t2: TableState, target: nat)
    requires t.stage.Running? && RunOk(src, t, t.stage.floor, t.stage.pending, t.stage.queue, target) && ExecStatement(src, t, t2)
    ensures RunOk(src, t2, t.stage.floor, t.stage.pending, t.stage.queue, target)
    ensures t2.stage == t.stage.(pass := t.stage.pass + 1)
  {
    hide OnTable, RunOne, Increasing;
    TodoStays(src, t, t2, t.stage.floor, SetOf(t.stage.pending) - {t.applied}, target);
    forall s: Scope ensures QueueOk(t2, t.stage.floor, t.stage.pending, t.stage.queue, s) {
      assert QueueOk(t, t.stage.floor, t.stage.pending, t.stage.queue, s);
    }
  }

  lemma MarkKeepsProgress(src: Source, w: nat, metadata: nat, t: TableState, t2: TableState, next: nat)
    requires Contract(src, w, metadata, t) && Progress(src, t) && Exhausted(src, t)
    requires IsNext(src, t.applied, next) && next in t.schemas
    requires t2 == t.(applied := next, partial := [], durable := t2.durable, watermark := t2.watermark, stage := t2.stage)
    requires t2.durable.cursors == t.durable.cursors
    ensures Progress(src, t2)
  {
    forall s: Scope | src.snapshot <= s.version < next
      ensures CountOf(t2.merged, s) == |LogOf(t2, s)|
    {
      if t.applied < s.version {
        assert s.version !in src.ddls;
        assert LogOf(t, s) == [];
      }
    }
    assert forall s: Scope :: LogOf(t2, s) == LogOf(t, s) && CountOf(t2.merged, s) == CountOf(t.merged, s);
  }

  lemma PersistFacts(src: Source, t: TableState, t2: TableState, target: nat)
    requires Progress(src, t) && PersistCursors(t, t2) && FloorOk(src, t, t.stage.floor, target)
    requires RunOk(src, t, t.stage.floor, t.stage.pending, t.stage.queue, target)
    ensures CaughtUp(src, t, target) && NothingLost(src, t2, t2.stage.floor) && NoDdl(src, t.applied, target)
  {
    forall s: Scope
      ensures s.version == t.applied ==>
                CountOf(t.merged, s) == Position(LogOf(t, s), CursorOf(t.cursors, s)) &&
                CountOf(t.stage.floor, s) <= CountOf(t.merged, s)
      ensures t.applied < s.version ==> CountOf(t.stage.floor, s) == 0
    {
      assert QueueOk(t, t.stage.floor, t.stage.pending, t.stage.queue, s);
    }
    forall s: Scope | s.version == t.applied
      ensures var log, p := LogOf(t, s), Position(LogOf(t, s), CursorOf(t.cursors, s));
              CountOf(t.merged, s) <= p <= |log| && Caught(src, s, log[..p], target)
    {
    }
  }

  // ----- The producer does not disturb a scan -----

  lemma GrowthKeepsFloor(src: Source, w: nat, metadata: nat, t: TableState, t2: TableState, floor: map<Scope, nat>, target: nat)
    requires Contract(src, w, metadata, t2) && Grows(t, t2) && target <= metadata
    requires FloorOk(src, t, floor, target)
    ensures FloorOk(src, t2, floor, target)
  {
    forall s: Scope ensures CountOf(floor, s) <= |LogOf(t2, s)| {
      assert LogOf(t, s) <= LogOf(t2, s);
    }
    forall s: Scope, q: nat | CountOf(floor, s) <= q <= |LogOf(t2, s)|
      ensures Caught(src, s, LogOf(t2, s)[..q], target)
    {
      assert LogOf(t, s) <= LogOf(t2, s);
      if q <= |LogOf(t, s)| {
        assert LogOf(t2, s)[..q] == LogOf(t, s)[..q];
      } else {
        assert LogOf(t2, s)[..q] == LogOf(t2, s);
        assert Caught(src, s, LogOf(t2, s), metadata);
      }
    }
  }

  lemma {:induction false} IndexGrows(log: Log, more: Log, d: nat)
    requires log <= more
    ensures Index(log, d) <= Index(more, d)
  {
    if |log| == |more| {
      assert log == more;
    } else {
      IndexGrows(log, more[..|more| - 1], d);
    }
  }

  lemma GrowthKeepsSeen(src: Source, t: TableState, t2: TableState, s: Scope, target: nat)
    requires Grows(t, t2) && t.stage.Looking? && Seen(t, s)
    requires forall v | v in t.stage.planned :: v in t.schemas
    ensures Seen(t2, s)
  {
    var log, log2, listed := LogOf(t, s), LogOf(t2, s), t.stage.listed[s];
    assert log <= log2 && log2[..listed] == log[..listed];
    forall d | d in t.stage.index[s] ensures Index(log2[..listed], d) <= t.stage.index[s][d] <= Index(log2, d) {
      IndexGrows(log, log2, d);
    }
    forall i, j | listed <= i < |log2| && 0 <= j < |t.stage.dates[s]|
      ensures t.stage.dates[s][j] <= log2[i].date
    {
      if i < |log| {
        assert log2[i] == log[i];
      } else {
        assert t.stage.dates[s][j] in FoldersOf(t, s);
      }
    }
    forall i | 0 <= i < listed ensures log2[i].date in t.stage.dates[s] {
      assert log2[i] == log[i];
    }
  }

  lemma GrowthKeepsLooking(src: Source, w: nat, metadata: nat, t: TableState, t2: TableState, target: nat)
    requires Contract(src, w, metadata, t2) && Grows(t, t2) && LookingOk(src, t, target)
    ensures LookingOk(src, t2, target)
  {
    forall s: Scope | s.version in t2.stage.dirs && s.partition !in t2.stage.dirs[s.version] ensures Absent(t2, s) {
      assert Absent(t, s);
    }
    forall s | s in t2.stage.dates ensures Seen(t2, s) {
      assert Seen(t, s);
      GrowthKeepsSeen(src, t, t2, s, target);
    }
  }

  lemma GrowthKeepsQueue(src: Source, w: nat, metadata: nat, t: TableState, t2: TableState, floor: map<Scope, nat>,
                         pending: seq<nat>, queue: map<Scope, seq<Name>>, s: Scope)
    requires Contract(src, w, metadata, t2) && Grows(t, t2) && IsCursor(LogOf(t, s), CursorOf(t.cursors, s))
    requires forall v | v in pending :: v in t.schemas
    requires QueueOk(t, floor, pending, queue, s)
    ensures QueueOk(t2, floor, pending, queue, s)
  {
    hide Contract, Position;
    GrowthKeepsCursor(src, w, metadata, t, t2, s, CursorOf(t.cursors, s));
    var p := Position(LogOf(t, s), CursorOf(t.cursors, s));
    assert LogOf(t, s) <= LogOf(t2, s);
    NamesStay(LogOf(t, s), LogOf(t2, s), p, p + |QueueOf(queue, s)|);
  }

  lemma GrowthKeepsRun(src: Source, w: nat, metadata: nat, t: TableState, t2: TableState, floor: map<Scope, nat>,
                       pending: seq<nat>, queue: map<Scope, seq<Name>>, target: nat)
    requires Contract(src, w, metadata, t2) && Grows(t, t2) && CursorsValid(t, t.cursors)
    requires RunOk(src, t, floor, pending, queue, target)
    ensures RunOk(src, t2, floor, pending, queue, target)
  {
    assert forall v | v in pending :: v in SetOf(pending);
    forall s: Scope ensures QueueOk(t2, floor, pending, queue, s) {
      GrowthKeepsQueue(src, w, metadata, t, t2, floor, pending, queue, s);
    }
  }

  lemma GrowthKeepsStage(src: Source, w: nat, metadata: nat, t: TableState, t2: TableState, target: nat)
    requires Contract(src, w, metadata, t2) && Grows(t, t2) && target <= metadata
    requires Progress(src, t) && StageOk(src, t, target)
    ensures StageOk(src, t2, target)
  {
    GrowthKeepsFloor(src, w, metadata, t, t2, t.stage.floor, target);
    match t.stage
    case Begun(_) =>
    case Looking(_, _, _, _, _, _) => GrowthKeepsLooking(src, w, metadata, t, t2, target);
    case Running(floor, pending, queue, _) => GrowthKeepsRun(src, w, metadata, t, t2, floor, pending, queue, target);
    case Done(floor) => GrowthKeepsFresh(src, w, metadata, t, t2, target);
  }
}
