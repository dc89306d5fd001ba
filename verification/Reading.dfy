// The reads of a scan, each at its own moment while the producer writes, answer the loader like one
// storage; so every plan of the protocol is a plan the loader makes.
module Reading {
  import opened Wrappers
  import opened Merge
  import opened Statements
  import opened History
  import opened Discovery
  import opened Replication
  import opened Freshness
  import opened Safety
  import opened Sorting
  import CursorKeys
  import opened Planning
  import opened Counting
  import opened TableLoader
  import opened Refinement

  // ----- What a scan has read -----

  // What was read belongs together: directories of kept versions, dates of listed partitions, and
  // indexes of dates not before the cursor.
  ghost predicate Together(t: TableState, checkpoint: nat) {
    && t.stage.Looking?
    && (t.watermark > 0 ==> t.watermark in t.stage.planned)
    && Planned(t.stage.planned, t.watermark, checkpoint) == t.stage.planned
    && (forall v | v in t.stage.dirs :: v in t.stage.planned)
    && (forall s | s in t.stage.dates :: s in t.stage.index && s.version in t.stage.dirs && s.partition in t.stage.dirs[s.version])
    && (forall s | s in t.stage.dates :: Increasing(t.stage.dates[s]))
    && (forall s, d | s in t.stage.index && d in t.stage.index[s] ::
          s in t.stage.dates && d in t.stage.dates[s] && CursorOf(t.cursors, s).date <= d)
  }

  lemma PlannedTwice(schemas: set<nat>, watermark: nat, checkpoint: nat)
    ensures Planned(Planned(schemas, watermark, checkpoint), watermark, checkpoint) == Planned(schemas, watermark, checkpoint)
  {
    var kept := Planned(schemas, watermark, checkpoint);
    if watermark == 0 {
      forall v ensures v in Planned(kept, watermark, checkpoint) <==> v in kept {
        if v in kept && v <= checkpoint {
          assert IsBaseline(schemas, checkpoint, v) && IsBaseline(kept, checkpoint, v);
        }
      }
    }
  }

  lemma WalkTogether(checkpoint: nat, t: TableState, t2: TableState)
    requires WalkSchemas(checkpoint, t, t2)
    ensures Together(t2, checkpoint)
  {
    PlannedTwice(t.schemas, t.watermark, checkpoint);
    hide IsBaseline;
  }

  lemma VersionTogether(checkpoint: nat, t: TableState, t2: TableState, v: nat)
    requires Together(t, checkpoint) && ListVersion(t, t2, v)
    ensures Together(t2, checkpoint)
  {
    hide Planned, Increasing;
  }

  lemma DatesTogether(checkpoint: nat, t: TableState, t2: TableState, s: Scope, dates: seq<nat>)
    requires Together(t, checkpoint) && ListDates(t, t2, s, dates)
    ensures Together(t2, checkpoint)
  {
    hide Planned, Increasing;
  }

  lemma IndexTogether(checkpoint: nat, t: TableState, t2: TableState, s: Scope, d: nat)
    requires Together(t, checkpoint) && ReadIndex(t, t2, s, d)
    ensures Together(t2, checkpoint)
  {
    hide Planned, Increasing, Index;
  }

  // A table that is being looked at stays so together, or leaves that stage.
  lemma LookTogether(src: Source, checkpoint: nat, t: TableState, t2: TableState)
    requires LoaderStep(src, checkpoint, t, t2) && (t.stage.Looking? ==> Together(t, checkpoint))
    ensures t2.stage.Looking? ==> Together(t2, checkpoint)
  {
    hide WalkSchemas, ListVersion, ListDates, ReadIndex, Together;
    if WalkSchemas(checkpoint, t, t2) {
      WalkTogether(checkpoint, t, t2);
    } else if v :| ListVersion(t, t2, v) {
      IsLooking(t, t2);
      VersionTogether(checkpoint, t, t2, v);
    } else if s, dates :| ListDates(t, t2, s, dates) {
      IsLooking(t, t2);
      DatesTogether(checkpoint, t, t2, s, dates);
    } else if s, d :| ReadIndex(t, t2, s, d) {
      IsLooking(t, t2);
      IndexTogether(checkpoint, t, t2, s, d);
    } else {
      NotLooking(src, checkpoint, t, t2);
    }
  }

  lemma IsLooking(t: TableState, t2: TableState)
    requires (exists v :: ListVersion(t, t2, v)) || (exists s, dates :: ListDates(t, t2, s, dates)) || (exists s, d :: ReadIndex(t, t2, s, d))
    ensures t.stage.Looking?
  {
  }

  lemma NotLooking(src: Source, checkpoint: nat, t: TableState, t2: TableState)
    requires || (exists pending :: MakePlan(checkpoint, t, t2, pending)) || (exists s :: MergeNext(checkpoint, t, t2, s))
             || ExecStatement(src, t, t2) || MarkDdl(src, t, t2) || PersistCursors(t, t2)
    ensures !t2.stage.Looking?
  {
    hide MakePlan, MergeNext, ExecStatement, MarkDdl;
    if pending :| MakePlan(checkpoint, t, t2, pending) {
      PlanNotLooking(checkpoint, t, t2, pending);
    } else if s :| MergeNext(checkpoint, t, t2, s) {
      MergeNotLooking(checkpoint, t, t2, s);
    } else if !PersistCursors(t, t2) {
      DdlNotLooking(src, t, t2);
    }
  }

  lemma PlanNotLooking(checkpoint: nat, t: TableState, t2: TableState, pending: seq<nat>)
    requires MakePlan(checkpoint, t, t2, pending)
    ensures t2.stage.Running?
  {
    hide LookedEverywhere, StreamPlan, Increasing;
  }

  lemma MergeNotLooking(checkpoint: nat, t: TableState, t2: TableState, s: Scope)
    requires MergeNext(checkpoint, t, t2, s)
    ensures t2.stage.Running?
  {
    hide MergeStatement, FileNamed, Position;
  }

  lemma DdlNotLooking(src: Source, t: TableState, t2: TableState)
    requires ExecStatement(src, t, t2) || MarkDdl(src, t, t2)
    ensures t2.stage.Running?
  {
    hide Script, RunOne, OnTable;
  }

  lemma GrowthTogether(checkpoint: nat, t: TableState, t2: TableState)
    requires t2 == t.(schemas := t2.schemas, logs := t2.logs, folders := t2.folders) && Together(t, checkpoint)
    ensures Together(t2, checkpoint)
  {
    hide Planned, Increasing;
  }

  // ----- Over runs -----

  ghost predicate AllTogether(y: System) {
    forall n | n in y.tables && y.tables[n].stage.Looking? :: y.process.Scanning? && Together(y.tables[n], y.checkpoint)
  }

  lemma TableTogether(c: Setup, y: System, y2: System, name: string)
    requires AllTogether(y) && TableStep(c, y, y2, name)
    ensures AllTogether(y2)
  {
    hide Together, LoaderStep, ProducerStep;
    var src, t, t2 := c.sources[name], y.tables[name], y2.tables[name];
    if ProducerStep(src, c.width, y.metadata, t, t2) {
      ProducerEffects(src, c.width, y.metadata, t, t2);
      if t.stage.Looking? {
        GrowthTogether(y.checkpoint, t, t2);
      }
    } else {
      LookTogether(src, y.checkpoint, t, t2);
    }
  }

  lemma OthersTogether(c: Setup, y: System, y2: System)
    requires AllTogether(y)
    requires PublishMetadata(c, y, y2) || Start(y, y2) || BeginScan(y, y2) || Commit(y, y2) || Crash(y, y2)
    ensures AllTogether(y2)
  {
    hide Together, Contract;
  }

  lemma {:induction false} TogetherAlways(c: Setup, run: seq<System>, i: nat)
    requires IsRun(c, run) && i < |run|
    ensures AllTogether(run[i])
  {
    hide AllTogether;
    if i == 0 {
      TogetherFirst(c, run[0]);
    } else {
      assert Next(c, run[i - 1], run[i]);
      TogetherAlways(c, run, i - 1);
      hide IsRun, TableStep, PublishMetadata, Start, BeginScan, Commit, Crash;
      var y, y2 := run[i - 1], run[i];
      if name :| TableStep(c, y, y2, name) {
        TableTogether(c, y, y2, name);
      } else {
        OthersTogether(c, y, y2);
      }
    }
  }

  lemma TogetherFirst(c: Setup, y: System)
    requires Init(c, y)
    ensures AllTogether(y)
  {
    hide Sound, Loaded, Contract, ValueAt;
  }

  // ----- A storage that gives these answers -----

  predicate Smaller(a: int, b: int) { a < b }

  ghost function PartitionOrder(partitions: set<int>): (q: seq<int>)
    ensures forall p :: p in q <==> p in partitions
  {
    assert IsOrder(Smaller);
    Ordered(partitions, Smaller)
  }

  // What was read of a date directory; one before the cursor is not looked into.
  function ProbeOf(index: map<nat, nat>, d: nat): Probe { if Shown(index, d) > 0 then Shows(Shown(index, d)) else Missing }

  function ProbesOf(index: map<nat, nat>, dates: seq<nat>): (probes: seq<(nat, Probe)>)
    ensures |probes| == |dates| && forall i | 0 <= i < |dates| :: probes[i] == (dates[i], ProbeOf(index, dates[i]))
  {
    if dates == [] then []
    else
      var d := dates[|dates| - 1];
      ProbesOf(index, dates[..|dates| - 1]) + [(d, ProbeOf(index, d))]
  }

  function DirsOf(t: TableState, v: nat, partitions: seq<int>): (dirs: seq<Dir>)
    requires t.stage.Looking?
    requires forall p | p in partitions :: Scope(v, p) in t.stage.dates && Scope(v, p) in t.stage.index
  {
    if partitions == [] then []
    else
      var p := partitions[|partitions| - 1];
      DirsOf(t, v, partitions[..|partitions| - 1])
      + [PartitionDir(p, Ok(ProbesOf(t.stage.index[Scope(v, p)], t.stage.dates[Scope(v, p)])))]
  }

  // Everything that was to be looked at has been.
  ghost predicate Complete(t: TableState, checkpoint: nat) {
    Together(t, checkpoint) && LookedEverywhere(t)
  }

  ghost function Listing(t: TableState, checkpoint: nat, v: nat): seq<Dir>
    requires Complete(t, checkpoint)
  {
    if v in t.stage.dirs then DirsOf(t, v, PartitionOrder(t.stage.dirs[v])) else []
  }

  // A storage that answered all reads as they were answered.
  ghost predicate Answered(t: TableState, checkpoint: nat, store: Store)
    requires Complete(t, checkpoint)
  {
    && store.schemas == Ok(VersionOrder(t.stage.planned))
    && forall v :: store.dirs(v) == Ok(Listing(t, checkpoint, v))
  }

  // ----- What the loader makes of it -----

  // A visit to a directory that was listed, with what was read there.
  ghost predicate Honest(t: TableState, visit: Visit)
    requires t.stage.Looking?
  {
    && visit.Visit? && visit.scope in t.stage.dates && visit.scope in t.stage.index && visit.date in t.stage.dates[visit.scope]
    && visit.probe == ProbeOf(t.stage.index[visit.scope], visit.date)
  }

  lemma {:induction false} DatesVisited(s: Scope, dates: seq<(nat, Probe)>)
    ensures forall visit :: visit in DateVisits(s, dates) <==> exists i :: 0 <= i < |dates| && visit == Visit(s, dates[i].0, dates[i].1)
  {
    if dates != [] {
      var n := |dates| - 1;
      DatesVisited(s, dates[..n]);
      forall visit
        ensures visit in DateVisits(s, dates) <==> exists i :: 0 <= i < |dates| && visit == Visit(s, dates[i].0, dates[i].1)
      {
        assert visit in DateVisits(s, dates) <==> visit in DateVisits(s, dates[..n]) || visit == Visit(s, dates[n].0, dates[n].1);
        if i :| 0 <= i < n && visit == Visit(s, dates[..n][i].0, dates[..n][i].1) {
          assert visit == Visit(s, dates[i].0, dates[i].1);
        }
        if i :| 0 <= i < |dates| && visit == Visit(s, dates[i].0, dates[i].1) {
          assert i < n ==> visit == Visit(s, dates[..n][i].0, dates[..n][i].1);
        }
      }
    }
  }

  lemma PartitionVisited(t: TableState, s: Scope)
    requires t.stage.Looking? && s in t.stage.dates && s in t.stage.index
    ensures var visits := DateVisits(s, ProbesOf(t.stage.index[s], t.stage.dates[s]));
            && (forall visit | visit in visits :: Honest(t, visit) && visit.scope == s)
            && (forall d | d in t.stage.dates[s] :: Visit(s, d, ProbeOf(t.stage.index[s], d)) in visits)
  {
    var dates, probes := t.stage.dates[s], ProbesOf(t.stage.index[s], t.stage.dates[s]);
    DatesVisited(s, probes);
    hide ProbesOf, ProbeOf, DateVisits;
    forall d | d in dates ensures Visit(s, d, ProbeOf(t.stage.index[s], d)) in DateVisits(s, probes) {
      var i :| 0 <= i < |dates| && dates[i] == d;
      assert Visit(s, d, ProbeOf(t.stage.index[s], d)) == Visit(s, probes[i].0, probes[i].1);
    }
  }

  lemma {:induction false} PartitionsVisited(t: TableState, v: nat, partitions: seq<int>)
    requires t.stage.Looking?
    requires forall p | p in partitions :: Scope(v, p) in t.stage.dates && Scope(v, p) in t.stage.index
    ensures var visits := DirsVisits(v, DirsOf(t, v, partitions));
            && (forall visit | visit in visits :: Honest(t, visit))
            && (forall p, d | p in partitions && d in t.stage.dates[Scope(v, p)] ::
                  Visit(Scope(v, p), d, ProbeOf(t.stage.index[Scope(v, p)], d)) in visits)
  {
    if partitions != [] {
      var n := |partitions| - 1;
      var p := partitions[n];
      assert partitions == partitions[..n] + [p];
      PartitionsVisited(t, v, partitions[..n]);
      PartitionVisited(t, Scope(v, p));
      var dirs, some := DirsOf(t, v, partitions), DirsOf(t, v, partitions[..n]);
      assert dirs[..|dirs| - 1] == some;
      hide Honest, ProbeOf, ProbesOf, DateVisits;
    }
  }

  lemma {:induction false} VersionsVisited(t: TableState, checkpoint: nat, store: Store, versions: seq<nat>)
    requires Complete(t, checkpoint) && Answered(t, checkpoint, store)
    ensures var visits := AllVisits(store, versions);
            && (forall visit | visit in visits :: Honest(t, visit))
            && (forall s: Scope, d | s in t.stage.dates && s.version in versions && d in t.stage.dates[s] ::
                  Visit(s, d, ProbeOf(t.stage.index[s], d)) in visits)
  {
    if versions != [] {
      var n := |versions| - 1;
      var v := versions[n];
      assert versions == versions[..n] + [v];
      VersionsVisited(t, checkpoint, store, versions[..n]);
      VersionVisited(t, checkpoint, store, v);
      hide Complete, Answered, Honest, ProbeOf, VersionVisits;
    }
  }

  lemma VersionVisited(t: TableState, checkpoint: nat, store: Store, v: nat)
    requires Complete(t, checkpoint) && Answered(t, checkpoint, store)
    ensures var visits := VersionVisits(store, v);
            && (forall visit | visit in visits :: Honest(t, visit))
            && (forall s: Scope, d | s in t.stage.dates && s.version == v && d in t.stage.dates[s] ::
                  Visit(s, d, ProbeOf(t.stage.index[s], d)) in visits)
  {
    hide Planned, Increasing, Honest, ProbeOf;
    if v in t.stage.dirs {
      PartitionsVisited(t, v, PartitionOrder(t.stage.dirs[v]));
      forall s: Scope, d | s in t.stage.dates && s.version == v && d in t.stage.dates[s]
        ensures Visit(s, d, ProbeOf(t.stage.index[s], d)) in VersionVisits(store, v)
      {
        assert s == Scope(v, s.partition);
      }
    }
  }

  lemma {:induction false} HonestIsFine(t: TableState, cursors: map<Scope, Name>, start: Found, visits: seq<Visit>)
    requires t.stage.Looking? && start.fine && forall visit | visit in visits :: Honest(t, visit)
    ensures LookAll(cursors, start, visits).fine
  {
    if visits != [] {
      var n := |visits| - 1;
      assert visits == visits[..n] + [visits[n]];
      HonestIsFine(t, cursors, start, visits[..n]);
      assert Honest(t, visits[n]);
    }
  }

  // The loader's start of a scan.
  function StartOf(t: TableState, checkpoint: nat): Found
    requires t.stage.Looking?
  {
    Found(PendingKeys(Pending(t.stage.planned, t.watermark, checkpoint)), 0, true)
  }

  ghost function IndexRead(t: TableState, checkpoint: nat, store: Store): map<PathKey, nat>
    requires t.stage.Looking?
  {
    LookAll(t.cursors, StartOf(t, checkpoint), AllVisits(store, VersionOrder(t.stage.planned))).index
  }

  // The loader keeps of each directory what was read there.
  lemma KeepsWhatWasRead(t: TableState, checkpoint: nat, store: Store, s: Scope, d: nat)
    requires Complete(t, checkpoint) && Answered(t, checkpoint, store)
    ensures var index, k := IndexRead(t, checkpoint, store), FileKey(s, d);
            && (k in index ==> s in t.stage.dates && d in t.stage.dates[s] && CursorOf(t.cursors, s).date <= d)
            && (s in t.stage.dates && d in t.stage.dates[s] && CursorOf(t.cursors, s).date <= d ==>
                  IndexOf(index, k) == Shown(t.stage.index[s], d))
  {
    var versions, start := VersionOrder(t.stage.planned), StartOf(t, checkpoint);
    var visits, index := AllVisits(store, versions), IndexRead(t, checkpoint, store);
    VersionsVisited(t, checkpoint, store, versions);
    HonestIsFine(t, t.cursors, start, visits);
    FoundIsHighest(t.cursors, start, visits, s, d);
    hide Complete, Answered, LookAll, AllVisits, VersionOrder;
    if FileKey(s, d) in index {
      var visit :| visit in visits && ShowsAt(visit, s, d, index[FileKey(s, d)]);
      assert Honest(t, visit);
    }
    if s in t.stage.dates && d in t.stage.dates[s] && CursorOf(t.cursors, s).date <= d {
      DateIsVisited(t, checkpoint, store, s, d);
      if Shown(t.stage.index[s], d) > 0 {
        assert ShowsAt(Visit(s, d, ProbeOf(t.stage.index[s], d)), s, d, Shown(t.stage.index[s], d));
      }
    }
  }

  lemma DateIsVisited(t: TableState, checkpoint: nat, store: Store, s: Scope, d: nat)
    requires Complete(t, checkpoint) && Answered(t, checkpoint, store) && s in t.stage.dates && d in t.stage.dates[s]
    ensures s in t.stage.index && Visit(s, d, ProbeOf(t.stage.index[s], d)) in AllVisits(store, VersionOrder(t.stage.planned))
  {
    VersionsVisited(t, checkpoint, store, VersionOrder(t.stage.planned));
    assert s.version in t.stage.planned;
    hide Answered, Planned, Honest, ProbeOf, AllVisits;
  }

  lemma AnsweredAnswers(t: TableState, checkpoint: nat, store: Store)
    requires Complete(t, checkpoint) && Answered(t, checkpoint, store)
    ensures Answers(t, checkpoint, store)
    ensures PlanScan(t.cursors, t.watermark, checkpoint, store).Some?
  {
    assert SetOf(store.schemas.value) == t.stage.planned;
    var visits := AllVisits(store, VersionOrder(t.stage.planned));
    VersionsVisited(t, checkpoint, store, VersionOrder(t.stage.planned));
    HonestIsFine(t, t.cursors, StartOf(t, checkpoint), visits);
    hide Answered, Honest, LookAll, AllVisits, IsBaseline;
    forall s | s in t.stage.dates && s in t.stage.index
      ensures Planning.Reads(IndexRead(t, checkpoint, store), CursorOf(t.cursors, s), s, t.stage.dates[s], t.stage.index[s])
    {
      StreamIsRead(t, checkpoint, store, s);
    }
    forall s, d | FileKey(s, d) in IndexRead(t, checkpoint, store) ensures s in t.stage.dates {
      KeepsWhatWasRead(t, checkpoint, store, s, d);
    }
  }

  lemma StreamIsRead(t: TableState, checkpoint: nat, store: Store, s: Scope)
    requires Complete(t, checkpoint) && Answered(t, checkpoint, store) && s in t.stage.dates && s in t.stage.index
    ensures Planning.Reads(IndexRead(t, checkpoint, store), CursorOf(t.cursors, s), s, t.stage.dates[s], t.stage.index[s])
  {
    assert Increasing(t.stage.dates[s]);
    hide Complete, Answered, IndexRead, Increasing, Shown;
    var index, dates := IndexRead(t, checkpoint, store), t.stage.dates[s];
    forall d | FileKey(s, d) in index ensures d in dates && CursorOf(t.cursors, s).date <= d {
      KeepsWhatWasRead(t, checkpoint, store, s, d);
    }
    forall d | d in dates && CursorOf(t.cursors, s).date <= d ensures Shown(t.stage.index[s], d) == IndexOf(index, FileKey(s, d)) {
      KeepsWhatWasRead(t, checkpoint, store, s, d);
    }
  }

  // The listed names fit the machine's integers, and dates are dates.
  predicate NamesFit(t: TableState) {
    t.stage.Looking? ==> forall s | s in t.stage.dates :: CursorKeys.Fits(s) && forall d | d in t.stage.dates[s] :: d > 0
  }

  // In every run, once a table has been looked at everywhere, there is a storage whose answers are
  // those reads, although each was made at its own moment.
  lemma ReadsAreAnswers(c: Setup, run: seq<System>, i: nat, n: string, file: nat -> Result<SchemaFile>) returns (store: Store)
    requires IsRun(c, run) && i < |run| && n in run[i].tables && run[i].tables[n].stage.Looking? && LookedEverywhere(run[i].tables[n])
    requires NamesFit(run[i].tables[n]) && forall v | file(v).Ok? :: file(v).value.version == v
    ensures store.file == file && Labelled(store) && Parsed(store)
    ensures Answers(run[i].tables[n], run[i].checkpoint, store)
    ensures PlanScan(run[i].tables[n].cursors, run[i].tables[n].watermark, run[i].checkpoint, store).Some?
  {
    TogetherAlways(c, run, i);
    store := StoreRead(run[i].tables[n], run[i].checkpoint, file);
  }

  lemma StoreRead(t: TableState, checkpoint: nat, file: nat -> Result<SchemaFile>) returns (store: Store)
    requires Complete(t, checkpoint) && NamesFit(t) && forall v | file(v).Ok? :: file(v).value.version == v
    ensures store.file == file && Labelled(store) && Parsed(store) && Answers(t, checkpoint, store)
    ensures PlanScan(t.cursors, t.watermark, checkpoint, store).Some?
  {
    store := Store(Ok(VersionOrder(t.stage.planned)), (v: nat) => Ok(Listing(t, checkpoint, v)), file);
    AnsweredAnswers(t, checkpoint, store);
    forall v, visit | visit in VersionVisits(store, v) && visit.Visit? ensures CursorKeys.Fits(visit.scope) && visit.date > 0 {
      VersionVisited(t, checkpoint, store, v);
      assert Honest(t, visit);
    }
  }

  // Every plan the protocol makes is one getNewFiles returns for such a storage: the same DDLs, and
  // stream by stream the same files.
  lemma MakePlanIsPlan(c: Setup, run: seq<System>, i: nat, n: string, t2: TableState, pending: seq<nat>) returns (store: Store, scan: Scan)
    requires IsRun(c, run) && i < |run| && n in run[i].tables && NamesFit(run[i].tables[n])
    requires MakePlan(run[i].checkpoint, run[i].tables[n], t2, pending)
    ensures Labelled(store) && Parsed(store)
    ensures PlanScan(run[i].tables[n].cursors, run[i].tables[n].watermark, run[i].checkpoint, store) == Some(scan)
    ensures pending == DdlsOf(WorkList(scan.ranges)) && t2.stage.Running?
    ensures forall s :: QueueOf(t2.stage.queue, s) == StreamOf(WorkList(scan.ranges), s)
  {
    var t, checkpoint := run[i].tables[n], run[i].checkpoint;
    store := ReadsAreAnswers(c, run, i, n, v => Err("unread"));
    scan := PlanScan(t.cursors, t.watermark, checkpoint, store).value;
    PlanRefinesMakePlan(t, checkpoint, store, scan);
    var tasks := WorkList(scan.ranges);
    SameSequence(pending, DdlsOf(tasks));
  }

  lemma HasMember(a: seq<nat>)
    requires a != []
    ensures exists v :: v in a
  {
    assert a[0] in a;
  }

  lemma AllButLast(a: seq<nat>)
    requires Increasing(a) && a != []
    ensures var last, rest := a[|a| - 1], a[..|a| - 1];
            && Increasing(rest) && last in a && (forall v | v in a :: v <= last) && (forall v :: v in rest <==> v in a && v != last)
  {
    var last, rest := a[|a| - 1], a[..|a| - 1];
    assert a == rest + [last];
  }

  // An increasing sequence is known by its members.
  lemma {:induction false} SameSequence(a: seq<nat>, b: seq<nat>)
    requires Increasing(a) && Increasing(b) && forall v :: v in a <==> v in b
    ensures a == b
    decreases |a|
  {
    hide Increasing;
    if a != [] && b != [] {
      AllButLast(a);
      AllButLast(b);
      assert a[|a| - 1] == b[|b| - 1];
      SameSequence(a[..|a| - 1], b[..|b| - 1]);
      assert a == a[..|a| - 1] + [a[|a| - 1]] && b == b[..|b| - 1] + [b[|b| - 1]];
    } else if a != [] {
      HasMember(a);
    } else if b != [] {
      HasMember(b);
    }
  }
}
