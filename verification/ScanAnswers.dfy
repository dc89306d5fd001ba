// When a scan succeeds and what it plans, said of the storage's answers themselves: version
// directories with their dates, or partitions with theirs, and a CDC.index in each date directory.
module ScanAnswers {
  import opened Wrappers
  import opened Discovery
  import opened Replication
  import opened Sorting
  import opened Planning
  import opened Counting

  // ----- Which answers can be used -----

  // A date directory before its stream's cursor is not looked into; any other must not have an index
  // that cannot be read.
  predicate IndexUsable(cursor: Name, date: nat, probe: Probe) { date < cursor.date || probe != Unreadable }

  predicate DirUsable(cursors: map<Scope, Name>, v: nat, dir: Dir) {
    match dir
    case DateDir(date, probe) => IndexUsable(CursorOf(cursors, Scope(v, 0)), date, probe)
    case PartitionDir(p, dates) =>
      dates.Ok? && forall x | x in dates.value :: IndexUsable(CursorOf(cursors, Scope(v, p)), x.0, x.1)
    case StrayDir => false
  }

  predicate VersionUsable(cursors: map<Scope, Name>, v: nat, listing: Result<seq<Dir>>) {
    listing.Ok? && forall dir | dir in listing.value :: DirUsable(cursors, v, dir)
  }

  predicate VisitUsable(cursors: map<Scope, Name>, visit: Visit) {
    visit.Visit? && IndexUsable(CursorOf(cursors, visit.scope), visit.date, visit.probe)
  }

  lemma LookedOne(cursors: map<Scope, Name>, f: Found, visit: Visit)
    ensures Look(cursors, f, visit).fine <==> f.fine && VisitUsable(cursors, visit)
  {
  }

  // Looking goes on to the end exactly if every answer can be used.
  lemma {:induction false} LookedIff(cursors: map<Scope, Name>, start: Found, visits: seq<Visit>)
    requires start.fine
    ensures LookAll(cursors, start, visits).fine <==> forall visit | visit in visits :: VisitUsable(cursors, visit)
  {
    if visits != [] {
      var n := |visits| - 1;
      assert visits == visits[..n] + [visits[n]];
      LookedIff(cursors, start, visits[..n]);
      LookedOne(cursors, LookAll(cursors, start, visits[..n]), visits[n]);
      hide Look, VisitUsable;
    }
  }

  lemma {:induction false} DatesUsable(cursors: map<Scope, Name>, s: Scope, dates: seq<(nat, Probe)>)
    ensures (forall visit | visit in DateVisits(s, dates) :: VisitUsable(cursors, visit)) <==>
            forall x | x in dates :: IndexUsable(CursorOf(cursors, s), x.0, x.1)
  {
    if dates != [] {
      var n := |dates| - 1;
      assert dates == dates[..n] + [dates[n]];
      DatesUsable(cursors, s, dates[..n]);
      var last := Visit(s, dates[n].0, dates[n].1);
      assert DateVisits(s, dates) == DateVisits(s, dates[..n]) + [last];
      assert VisitUsable(cursors, last) <==> IndexUsable(CursorOf(cursors, s), dates[n].0, dates[n].1);
      hide DateVisits, IndexUsable, VisitUsable;
    }
  }

  lemma OneDirUsable(cursors: map<Scope, Name>, v: nat, dir: Dir)
    ensures (forall visit | visit in DirVisits(v, dir) :: VisitUsable(cursors, visit)) <==> DirUsable(cursors, v, dir)
  {
    match dir
    case DateDir(date, probe) =>
      assert Visit(Scope(v, 0), date, probe) in DirVisits(v, dir);
    case PartitionDir(p, dates) =>
      if dates.Ok? {
        DatesUsable(cursors, Scope(v, p), dates.value);
      } else {
        assert Bad in DirVisits(v, dir);
      }
    case StrayDir =>
      assert Bad in DirVisits(v, dir);
  }

  lemma {:induction false} DirsUsable(cursors: map<Scope, Name>, v: nat, dirs: seq<Dir>)
    ensures (forall visit | visit in DirsVisits(v, dirs) :: VisitUsable(cursors, visit)) <==> forall dir | dir in dirs :: DirUsable(cursors, v, dir)
  {
    if dirs != [] {
      var n := |dirs| - 1;
      assert dirs == dirs[..n] + [dirs[n]];
      DirsUsable(cursors, v, dirs[..n]);
      OneDirUsable(cursors, v, dirs[n]);
      hide DirVisits, DirUsable, VisitUsable;
    }
  }

  lemma OneVersionUsable(cursors: map<Scope, Name>, store: Store, v: nat)
    ensures (forall visit | visit in VersionVisits(store, v) :: VisitUsable(cursors, visit)) <==> VersionUsable(cursors, v, store.dirs(v))
  {
    if store.dirs(v).Ok? {
      DirsUsable(cursors, v, store.dirs(v).value);
    } else {
      assert Bad in VersionVisits(store, v);
    }
  }

  lemma {:induction false} VersionsUsable(cursors: map<Scope, Name>, store: Store, versions: seq<nat>)
    ensures (forall visit | visit in AllVisits(store, versions) :: VisitUsable(cursors, visit)) <==>
            forall v | v in versions :: VersionUsable(cursors, v, store.dirs(v))
  {
    if versions != [] {
      var n := |versions| - 1;
      assert versions == versions[..n] + [versions[n]];
      VersionsUsable(cursors, store, versions[..n]);
      OneVersionUsable(cursors, store, versions[n]);
      hide VersionVisits, VersionUsable, VisitUsable;
    }
  }

  // The versions a scan keeps: with a watermark that version and later ones; without, those past the
  // checkpoint and the newest one before it.
  ghost predicate Kept(schemas: seq<nat>, watermark: nat, checkpoint: nat, v: nat) {
    && v in schemas
    && if watermark > 0 then watermark <= v
       else checkpoint < v || (0 < v && forall u | u in schemas && u <= checkpoint :: u <= v)
  }

  lemma KeptIsPlanned(schemas: seq<nat>, watermark: nat, checkpoint: nat, v: nat)
    ensures v in Planned(SetOf(schemas), watermark, checkpoint) <==> Kept(schemas, watermark, checkpoint, v)
  {
    assert forall u :: u in SetOf(schemas) <==> u in schemas;
  }

  // A scan fails exactly if the schema files cannot be listed, the one at the watermark is missing, or
  // a directory or an index it needs of a version it keeps cannot be read.
  lemma ScanSucceedsIff(cursors: map<Scope, Name>, watermark: nat, checkpoint: nat, store: Store)
    ensures PlanScan(cursors, watermark, checkpoint, store).Some? <==>
              && store.schemas.Ok? && (watermark > 0 ==> watermark in store.schemas.value)
              && forall v | Kept(store.schemas.value, watermark, checkpoint, v) :: VersionUsable(cursors, v, store.dirs(v))
  {
    if store.schemas.Ok? {
      var schemas := store.schemas.value;
      var kept := Planned(SetOf(schemas), watermark, checkpoint);
      var start := Found(PendingKeys(Pending(SetOf(schemas), watermark, checkpoint)), 0, true);
      VersionsUsable(cursors, store, VersionOrder(kept));
      LookedIff(cursors, start, AllVisits(store, VersionOrder(kept)));
      hide VersionUsable, VisitUsable, LookAll, AllVisits, Planned, Kept;
      forall v ensures v in VersionOrder(kept) <==> Kept(schemas, watermark, checkpoint, v) {
        KeptIsPlanned(schemas, watermark, checkpoint, v);
      }
    }
  }

  // ----- What is planned -----

  // The storage shows n files in directory d of stream s; without partition directories the dates are
  // those of partition 0.
  ghost predicate Tells(store: Store, s: Scope, d: nat, n: nat) {
    store.dirs(s.version).Ok? && exists dir :: dir in store.dirs(s.version).value && DirTells(dir, s.partition, d, n)
  }

  predicate DirTells(dir: Dir, partition: int, d: nat, n: nat) {
    match dir
    case DateDir(date, probe) => partition == 0 && date == d && probe == Shows(n)
    case PartitionDir(p, dates) => p == partition && dates.Ok? && (d, Shows(n)) in dates.value
    case StrayDir => false
  }

  ghost predicate ShownAmong(visits: seq<Visit>, s: Scope, d: nat, n: nat) {
    exists visit :: visit in visits && ShowsAt(visit, s, d, n)
  }

  lemma ShownInSum(a: seq<Visit>, b: seq<Visit>, s: Scope, d: nat, n: nat)
    ensures ShownAmong(a + b, s, d, n) <==> ShownAmong(a, s, d, n) || ShownAmong(b, s, d, n)
  {
  }

  lemma {:induction false} DatesTell(s: Scope, dates: seq<(nat, Probe)>, s2: Scope, d: nat, n: nat)
    ensures ShownAmong(DateVisits(s, dates), s2, d, n) <==> s2 == s && (d, Shows(n)) in dates
  {
    if dates != [] {
      var m := |dates| - 1;
      assert dates == dates[..m] + [dates[m]];
      var last := Visit(s, dates[m].0, dates[m].1);
      DatesTell(s, dates[..m], s2, d, n);
      assert DateVisits(s, dates) == DateVisits(s, dates[..m]) + [last];
      ShownInSum(DateVisits(s, dates[..m]), [last], s2, d, n);
      assert last in [last];
      assert ShownAmong([last], s2, d, n) <==> ShowsAt(last, s2, d, n);
      hide DateVisits, ShownAmong;
    }
  }

  lemma OneDirTells(v: nat, dir: Dir, s: Scope, d: nat, n: nat)
    ensures ShownAmong(DirVisits(v, dir), s, d, n) <==> s.version == v && DirTells(dir, s.partition, d, n)
  {
    match dir
    case DateDir(date, probe) =>
      assert Visit(Scope(v, 0), date, probe) in DirVisits(v, dir);
    case PartitionDir(p, dates) =>
      if dates.Ok? {
        DatesTell(Scope(v, p), dates.value, s, d, n);
      }
    case StrayDir =>
  }

  lemma {:induction false} DirsTell(v: nat, dirs: seq<Dir>, s: Scope, d: nat, n: nat)
    ensures ShownAmong(DirsVisits(v, dirs), s, d, n) <==> s.version == v && exists dir :: dir in dirs && DirTells(dir, s.partition, d, n)
  {
    if dirs != [] {
      var m := |dirs| - 1;
      assert dirs == dirs[..m] + [dirs[m]];
      DirsTell(v, dirs[..m], s, d, n);
      OneDirTells(v, dirs[m], s, d, n);
      ShownInSum(DirsVisits(v, dirs[..m]), DirVisits(v, dirs[m]), s, d, n);
      hide ShownAmong, DirVisits, DirTells;
    }
  }

  lemma {:induction false} VersionsTell(store: Store, versions: seq<nat>, s: Scope, d: nat, n: nat)
    ensures ShownAmong(AllVisits(store, versions), s, d, n) <==> s.version in versions && Tells(store, s, d, n)
  {
    if versions != [] {
      var m := |versions| - 1;
      assert versions == versions[..m] + [versions[m]];
      VersionsTell(store, versions[..m], s, d, n);
      OneVersionTells(store, versions[m], s, d, n);
      ShownInSum(AllVisits(store, versions[..m]), VersionVisits(store, versions[m]), s, d, n);
      hide ShownAmong, VersionVisits, Tells;
    }
  }

  lemma OneVersionTells(store: Store, v: nat, s: Scope, d: nat, n: nat)
    ensures ShownAmong(VersionVisits(store, v), s, d, n) <==> s.version == v && Tells(store, s, d, n)
  {
    if store.dirs(v).Ok? {
      DirsTell(v, store.dirs(v).value, s, d, n);
    }
  }

  // How many files of directory d the cursor stands past.
  function Past(cursor: Name, d: nat): nat { if cursor.date == d then cursor.index else 0 }

  // The highest number the storage shows for a directory.
  ghost predicate Highest(store: Store, s: Scope, d: nat, n: nat) {
    Tells(store, s, d, n) && forall m: nat | Tells(store, s, d, m) :: m <= n
  }

  // A successful scan plans exactly these: for each directory not before its stream's cursor, of a
  // version it keeps, the files from the one after the cursor up to the highest shown, if there are any;
  // and a DDL for each schema version past the watermark, or without one past the checkpoint.
  lemma PlanIsTold(cursors: map<Scope, Name>, watermark: nat, checkpoint: nat, store: Store, scan: Scan)
    requires PlanScan(cursors, watermark, checkpoint, store) == Some(scan)
    ensures store.schemas.Ok? && forall v :: v in scan.paths <==> Kept(store.schemas.value, watermark, checkpoint, v)
    ensures forall v :: SchemaKey(v) in scan.ranges <==>
              v in store.schemas.value && (if watermark > 0 then watermark < v else checkpoint < v)
    ensures forall s, d :: FileKey(s, d) in scan.ranges <==>
              && s.version in scan.paths && CursorOf(cursors, s).date <= d
              && exists n :: Highest(store, s, d, n) && Past(CursorOf(cursors, s), d) < n
    ensures forall s, d | FileKey(s, d) in scan.ranges ::
              scan.ranges[FileKey(s, d)].start == Past(CursorOf(cursors, s), d) + 1 && Highest(store, s, d, scan.ranges[FileKey(s, d)].end)
  {
    forall v ensures v in scan.paths <==> Kept(store.schemas.value, watermark, checkpoint, v) {
      KeptIsPlanned(store.schemas.value, watermark, checkpoint, v);
    }
    forall v
      ensures SchemaKey(v) in scan.ranges <==> v in store.schemas.value && (if watermark > 0 then watermark < v else checkpoint < v)
    {
      DdlIsTold(cursors, watermark, checkpoint, store, scan, v);
    }
    forall s, d
      ensures FileKey(s, d) in scan.ranges <==>
                s.version in scan.paths && CursorOf(cursors, s).date <= d && exists n :: Highest(store, s, d, n) && Past(CursorOf(cursors, s), d) < n
      ensures FileKey(s, d) in scan.ranges ==>
                scan.ranges[FileKey(s, d)].start == Past(CursorOf(cursors, s), d) + 1 && Highest(store, s, d, scan.ranges[FileKey(s, d)].end)
    {
      RangeIsTold(cursors, watermark, checkpoint, store, scan, s, d);
    }
  }

  lemma {:induction false} SchemaKeysStay(cursors: map<Scope, Name>, start: Found, visits: seq<Visit>, v: nat)
    ensures SchemaKey(v) in LookAll(cursors, start, visits).index <==> SchemaKey(v) in start.index
  {
    if visits != [] {
      SchemaKeysStay(cursors, start, visits[..|visits| - 1], v);
    }
  }

  lemma DdlIsTold(cursors: map<Scope, Name>, watermark: nat, checkpoint: nat, store: Store, scan: Scan, v: nat)
    requires PlanScan(cursors, watermark, checkpoint, store) == Some(scan)
    ensures SchemaKey(v) in scan.ranges <==> v in store.schemas.value && (if watermark > 0 then watermark < v else checkpoint < v)
  {
    var pending := Pending(SetOf(store.schemas.value), watermark, checkpoint);
    SchemaKeysStay(cursors, Found(PendingKeys(pending), 0, true), AllVisits(store, VersionOrder(scan.paths)), v);
    hide LookAll, AllVisits, Planned;
  }

  // What is kept for a directory is the highest number the storage shows there.
  lemma IndexIsHighest(cursors: map<Scope, Name>, start: Found, store: Store, versions: seq<nat>, s: Scope, d: nat)
    requires FileKey(s, d) !in start.index && LookAll(cursors, start, AllVisits(store, versions)).fine
    ensures var index, k := LookAll(cursors, start, AllVisits(store, versions)).index, FileKey(s, d);
            && (k in index ==> s.version in versions && CursorOf(cursors, s).date <= d && Highest(store, s, d, index[k]))
            && forall n: nat | s.version in versions && CursorOf(cursors, s).date <= d && Highest(store, s, d, n) && n > 0 ::
                 k in index && index[k] == n
  {
    var visits := AllVisits(store, versions);
    var index, k := LookAll(cursors, start, visits).index, FileKey(s, d);
    FoundIsHighest(cursors, start, visits, s, d);
    forall n: nat ensures ShownAmong(visits, s, d, n) <==> s.version in versions && Tells(store, s, d, n) {
      VersionsTell(store, versions, s, d, n);
    }
    hide LookAll, AllVisits, Tells, ShowsAt;
    if k in index {
      assert ShownAmong(visits, s, d, index[k]);
      HighestInIndex(store, visits, s, d, index[k]);
    }
    forall n: nat | s.version in versions && CursorOf(cursors, s).date <= d && Highest(store, s, d, n) && n > 0
      ensures k in index && index[k] == n
    {
      assert ShownAmong(visits, s, d, n);
    }
  }

  lemma RangeIsTold(cursors: map<Scope, Name>, watermark: nat, checkpoint: nat, store: Store, scan: Scan, s: Scope, d: nat)
    requires PlanScan(cursors, watermark, checkpoint, store) == Some(scan)
    ensures FileKey(s, d) in scan.ranges <==>
              s.version in scan.paths && CursorOf(cursors, s).date <= d && exists n :: Highest(store, s, d, n) && Past(CursorOf(cursors, s), d) < n
    ensures FileKey(s, d) in scan.ranges ==>
              scan.ranges[FileKey(s, d)].start == Past(CursorOf(cursors, s), d) + 1 && Highest(store, s, d, scan.ranges[FileKey(s, d)].end)
  {
    var versions, start := VersionOrder(scan.paths), Found(PendingKeys(Pending(SetOf(store.schemas.value), watermark, checkpoint)), 0, true);
    IndexIsHighest(cursors, start, store, versions, s, d);
    assert scan.ranges == RangesOf(cursors, LookAll(cursors, start, AllVisits(store, versions)).index);
    hide LookAll, AllVisits, Planned, Highest, PlanScan;
  }

  lemma HighestInIndex(store: Store, visits: seq<Visit>, s: Scope, d: nat, n: nat)
    requires (exists visit :: visit in visits && ShowsAt(visit, s, d, n))
    requires forall visit, m: nat | visit in visits && ShowsAt(visit, s, d, m) :: m <= n
    requires forall m :: ShownAmong(visits, s, d, m) <==> Tells(store, s, d, m)
    ensures Highest(store, s, d, n)
  {
    hide ShowsAt, Tells;
    assert ShownAmong(visits, s, d, n);
    forall m: nat | Tells(store, s, d, m) ensures m <= n {
      assert ShownAmong(visits, s, d, m);
    }
  }
}
