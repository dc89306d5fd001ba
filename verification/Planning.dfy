// What one scan of a table finds and in which order it works it off, as functions of what the
// storage answered (getNewFiles and the loops of handleNewFiles in incremental/loader.go).
module Planning {
  import opened Wrappers
  import opened Merge
  import opened Discovery
  import opened Replication
  import opened Sorting

  // ----- What the storage answers -----

  // A CDC.index: absent, present with the number of the last file, or not readable.
  datatype Probe = Missing | Shows(index: nat) | Unreadable

  // An entry of a version directory: a date, a partition with its dates, or a stray name.
  datatype Dir = DateDir(date: nat, probe: Probe) | PartitionDir(partition: int, dates: Result<seq<(nat, Probe)>>) | StrayDir

  // `keyed`: has a primary key; `query`: the DDL text is not empty.
  datatype SchemaFile = SchemaFile(version: nat, keyed: bool, query: bool, columns: string)

  // Every answer is taken once, at the moment of the scan that asks for it.
  datatype Store = Store(schemas: Result<seq<nat>>, dirs: nat -> Result<seq<Dir>>, file: nat -> Result<SchemaFile>)

  // ----- Work keys -----

  // SchemaKey stands for the synthetic key a pending schema file gets.
  datatype PathKey = SchemaKey(version: nat) | FileKey(scope: Scope, date: nat)
  datatype Range = Range(start: nat, end: nat)

  function VersionOf(k: PathKey): nat {
    match k
    case SchemaKey(v) => v
    case FileKey(s, _) => s.version
  }

  // CompareDMLPathKey.
  predicate KeyLess(a: PathKey, b: PathKey) {
    if VersionOf(a) != VersionOf(b) then VersionOf(a) < VersionOf(b)
    else if a.SchemaKey? || b.SchemaKey? then a.SchemaKey? && b.FileKey?
    else if a.scope.partition != b.scope.partition then a.scope.partition < b.scope.partition
    else a.date < b.date
  }

  predicate VersionLess(a: nat, b: nat) { a < b }

  lemma KeysAreOrdered()
    ensures IsOrder(KeyLess) && IsOrder(VersionLess)
  {
  }

  // ----- Reading -----

  datatype Visit = Visit(scope: Scope, date: nat, probe: Probe) | Bad

  function DateVisits(s: Scope, dates: seq<(nat, Probe)>): (v: seq<Visit>)
    ensures |v| == |dates|
  {
    if dates == [] then []
    else DateVisits(s, dates[..|dates| - 1]) + [Visit(s, dates[|dates| - 1].0, dates[|dates| - 1].1)]
  }

  function DirVisits(v: nat, dir: Dir): seq<Visit> {
    match dir
    case DateDir(date, probe) => [Visit(Scope(v, 0), date, probe)]
    case PartitionDir(p, Ok(dates)) => DateVisits(Scope(v, p), dates)
    case _ => [Bad]
  }

  function DirsVisits(v: nat, dirs: seq<Dir>): seq<Visit> {
    if dirs == [] then [] else DirsVisits(v, dirs[..|dirs| - 1]) + DirVisits(v, dirs[|dirs| - 1])
  }

  function ListingVisits(v: nat, listing: Result<seq<Dir>>): seq<Visit> {
    match listing
    case Ok(dirs) => DirsVisits(v, dirs)
    case Err(_) => [Bad]
  }

  function VersionVisits(store: Store, v: nat): seq<Visit> { ListingVisits(v, store.dirs(v)) }

  function AllVisits(store: Store, versions: seq<nat>): seq<Visit> {
    if versions == [] then []
    else AllVisits(store, versions[..|versions| - 1]) + VersionVisits(store, versions[|versions| - 1])
  }

  // The newest index per key, the number of files it shows beyond the cursors, and whether every
  // answer could be used.
  datatype Found = Found(index: map<PathKey, nat>, pending: nat, fine: bool)

  function IndexOf(m: map<PathKey, nat>, k: PathKey): nat { if k in m then m[k] else 0 }

  // Date directories older than the cursor are not looked into.
  function Look(cursors: map<Scope, Name>, f: Found, visit: Visit): Found {
    if !f.fine then f
    else match visit
      case Bad => f.(fine := false)
      case Visit(s, d, probe) =>
        if d < CursorOf(cursors, s).date then f
        else match probe
          case Missing => f
          case Unreadable => f.(fine := false)
          case Shows(n) =>
            var consumed := Consumed(CursorOf(cursors, s), d);
            Found(if n > IndexOf(f.index, FileKey(s, d)) then f.index[FileKey(s, d) := n] else f.index,
                  f.pending + if n > consumed then n - consumed else 0, true)
  }

  function LookAll(cursors: map<Scope, Name>, f: Found, visits: seq<Visit>): Found {
    if visits == [] then f
    else Look(cursors, LookAll(cursors, f, visits[..|visits| - 1]), visits[|visits| - 1])
  }

  lemma {:induction false} LookOn(cursors: map<Scope, Name>, f: Found, a: seq<Visit>, b: seq<Visit>)
    ensures LookAll(cursors, f, a + b) == LookAll(cursors, LookAll(cursors, f, a), b)
  {
    if b == [] {
      assert a + b == a;
    } else {
      assert (a + b)[..|a + b| - 1] == a + b[..|b| - 1];
      LookOn(cursors, f, a, b[..|b| - 1]);
    }
  }

  lemma LookOne(cursors: map<Scope, Name>, f: Found, visit: Visit)
    ensures LookAll(cursors, f, [visit]) == Look(cursors, f, visit)
  {
    assert [visit][..0] == [];
  }

  lemma LookBad(cursors: map<Scope, Name>, f: Found)
    requires f.fine
    ensures LookAll(cursors, f, [Bad]) == f.(fine := false)
  {
    LookOne(cursors, f, Bad);
  }

  // A failed read fails the scan, whatever comes after.
  lemma {:induction false} FailureStays(cursors: map<Scope, Name>, f: Found, visits: seq<Visit>)
    requires !f.fine
    ensures LookAll(cursors, f, visits) == f
  {
    if visits != [] {
      FailureStays(cursors, f, visits[..|visits| - 1]);
    }
  }

  lemma FailedPrefix(cursors: map<Scope, Name>, f: Found, some: seq<Visit>, all: seq<Visit>)
    requires some <= all && !LookAll(cursors, f, some).fine
    ensures LookAll(cursors, f, all) == LookAll(cursors, f, some)
  {
    assert all == some + all[|some|..];
    LookOn(cursors, f, some, all[|some|..]);
    FailureStays(cursors, LookAll(cursors, f, some), all[|some|..]);
  }

  lemma {:induction false} DatesPrefix(s: Scope, dates: seq<(nat, Probe)>, n: nat)
    requires n <= |dates|
    ensures DateVisits(s, dates[..n]) <= DateVisits(s, dates)
  {
    if n == |dates| {
      assert dates[..n] == dates;
    } else {
      assert dates[..|dates| - 1][..n] == dates[..n];
      DatesPrefix(s, dates[..|dates| - 1], n);
    }
  }

  lemma {:induction false} DirsPrefix(v: nat, dirs: seq<Dir>, n: nat)
    requires n <= |dirs|
    ensures DirsVisits(v, dirs[..n]) <= DirsVisits(v, dirs)
  {
    if n == |dirs| {
      assert dirs[..n] == dirs;
    } else {
      assert dirs[..|dirs| - 1][..n] == dirs[..n];
      DirsPrefix(v, dirs[..|dirs| - 1], n);
    }
  }

  lemma {:induction false} VersionsPrefix(store: Store, versions: seq<nat>, n: nat)
    requires n <= |versions|
    ensures AllVisits(store, versions[..n]) <= AllVisits(store, versions)
  {
    if n == |versions| {
      assert versions[..n] == versions;
    } else {
      assert versions[..|versions| - 1][..n] == versions[..n];
      VersionsPrefix(store, versions[..|versions| - 1], n);
    }
  }

  // ----- The plan -----

  function Pending(schemas: set<nat>, watermark: nat, checkpoint: nat): set<nat> {
    set v | v in schemas && (if watermark > 0 then watermark < v else checkpoint < v)
  }

  function PendingKeys(versions: set<nat>): map<PathKey, nat> {
    map v | v in versions :: SchemaKey(v) := 0
  }

  predicate HasNew(cursors: map<Scope, Name>, k: PathKey, n: nat) {
    k.FileKey? ==> Consumed(CursorOf(cursors, k.scope), k.date) < n
  }

  function RangeOf(cursors: map<Scope, Name>, k: PathKey, n: nat): Range {
    if k.SchemaKey? then Range(0, 0) else Range(Consumed(CursorOf(cursors, k.scope), k.date) + 1, n)
  }

  function RangesOf(cursors: map<Scope, Name>, index: map<PathKey, nat>): map<PathKey, Range> {
    map k | k in index && HasNew(cursors, k, index[k]) :: RangeOf(cursors, k, index[k])
  }

  datatype Scan = Scan(ranges: map<PathKey, Range>, paths: set<nat>, pending: nat)

  ghost function VersionOrder(versions: set<nat>): (q: seq<nat>)
    ensures Orders(q, versions, VersionLess)
  {
    KeysAreOrdered();
    Ordered(versions, VersionLess)
  }

  // getNewFiles. Note that the loader's memory enters only through the cursors.
  ghost function PlanScan(cursors: map<Scope, Name>, watermark: nat, checkpoint: nat, store: Store): Option<Scan> {
    match store.schemas
    case Err(_) => None
    case Ok(schemas) =>
      if watermark > 0 && watermark !in schemas then None
      else
        var kept := Planned(SetOf(schemas), watermark, checkpoint);
        var start := Found(PendingKeys(Pending(SetOf(schemas), watermark, checkpoint)), 0, true);
        var found := LookAll(cursors, start, AllVisits(store, VersionOrder(kept)));
        if found.fine then Some(Scan(RangesOf(cursors, found.index), kept, found.pending)) else None
  }

  // ----- The work list -----

  datatype Task = Apply(version: nat) | Load(scope: Scope, name: Name)

  function Loads(s: Scope, d: nat, from: nat, to: nat): (tasks: seq<Task>)
    requires from <= to
    ensures |tasks| == to - from
    ensures forall i | 0 <= i < |tasks| :: tasks[i] == Load(s, Name(d, from + i + 1))
  {
    if from == to then [] else Loads(s, d, from, to - 1) + [Load(s, Name(d, to))]
  }

  function KeyTasks(k: PathKey, r: Range): seq<Task> {
    match k
    case SchemaKey(v) => [Apply(v)]
    case FileKey(s, d) => if 0 < r.start <= r.end then Loads(s, d, r.start - 1, r.end) else []
  }

  function Tasks(keys: seq<PathKey>, ranges: map<PathKey, Range>): seq<Task>
    requires forall k | k in keys :: k in ranges
  {
    if keys == [] then []
    else Tasks(keys[..|keys| - 1], ranges) + KeyTasks(keys[|keys| - 1], ranges[keys[|keys| - 1]])
  }

  ghost function WorkOrder(ranges: map<PathKey, Range>): (keys: seq<PathKey>)
    ensures Orders(keys, ranges.Keys, KeyLess)
  {
    KeysAreOrdered();
    Ordered(ranges.Keys, KeyLess)
  }

  ghost function WorkList(ranges: map<PathKey, Range>): seq<Task> {
    Tasks(WorkOrder(ranges), ranges)
  }

  // How many files a range stands for.
  function Size(k: PathKey, r: Range): nat {
    if k.FileKey? && r.start <= r.end then r.end - r.start + 1 else 0
  }

  function CountFiles(keys: seq<PathKey>, ranges: map<PathKey, Range>): nat
    requires forall k | k in keys :: k in ranges
  {
    if keys == [] then 0
    else CountFiles(keys[..|keys| - 1], ranges) + Size(keys[|keys| - 1], ranges[keys[|keys| - 1]])
  }

  function CountLoads(tasks: seq<Task>): nat {
    if tasks == [] then 0 else CountLoads(tasks[..|tasks| - 1]) + if tasks[|tasks| - 1].Load? then 1 else 0
  }

  // ----- The work list is the plan of every stream -----

  function TaskVersion(t: Task): nat {
    match t
    case Apply(v) => v
    case Load(s, _) => s.version
  }

  // A version's DDL before its files, versions ascending, files of a stream ascending.
  predicate TaskLess(a: Task, b: Task) {
    if TaskVersion(a) != TaskVersion(b) then TaskVersion(a) < TaskVersion(b)
    else if a.Apply? || b.Apply? then a.Apply? && b.Load?
    else if a.scope.partition != b.scope.partition then a.scope.partition < b.scope.partition
    else NameLess(a.name, b.name)
  }

  predicate Belongs(t: Task, k: PathKey) {
    match t
    case Apply(v) => k == SchemaKey(v)
    case Load(s, name) => k == FileKey(s, name.date)
  }

  lemma KeyTasksBelong(k: PathKey, r: Range)
    ensures forall t | t in KeyTasks(k, r) :: Belongs(t, k)
    ensures Sorted(KeyTasks(k, r), TaskLess)
  {
  }

  lemma {:induction false} TasksBelong(keys: seq<PathKey>, ranges: map<PathKey, Range>)
    requires forall k | k in keys :: k in ranges
    ensures forall t | t in Tasks(keys, ranges) :: exists k :: k in keys && Belongs(t, k) && t in KeyTasks(k, ranges[k])
  {
    if keys != [] {
      var n := |keys| - 1;
      TasksBelong(keys[..n], ranges);
      KeyTasksBelong(keys[n], ranges[keys[n]]);
    }
  }

  // Work is done in version order, DDL first, and each stream front to back.
  lemma {:induction false} WorkIsOrdered(keys: seq<PathKey>, ranges: map<PathKey, Range>)
    requires Sorted(keys, KeyLess) && forall k | k in keys :: k in ranges
    ensures Sorted(Tasks(keys, ranges), TaskLess)
  {
    if keys != [] {
      var n := |keys| - 1;
      var a, b := Tasks(keys[..n], ranges), KeyTasks(keys[n], ranges[keys[n]]);
      WorkIsOrdered(keys[..n], ranges);
      TasksBelong(keys[..n], ranges);
      KeyTasksBelong(keys[n], ranges[keys[n]]);
      forall x, y | x in a && y in b ensures TaskLess(x, y) {
        var k :| k in keys[..n] && Belongs(x, k);
        var i :| 0 <= i < n && keys[i] == k;
        assert KeyLess(k, keys[n]);
      }
    }
  }

  // The files of stream s in a work list.
  function StreamOf(tasks: seq<Task>, s: Scope): seq<Name> {
    if tasks == [] then []
    else
      var t := tasks[|tasks| - 1];
      StreamOf(tasks[..|tasks| - 1], s) + if t.Load? && t.scope == s then [t.name] else []
  }

  lemma {:induction false} StreamOfSum(a: seq<Task>, b: seq<Task>, s: Scope)
    ensures StreamOf(a + b, s) == StreamOf(a, s) + StreamOf(b, s)
  {
    if b == [] {
      assert a + b == a;
    } else {
      assert (a + b)[..|a + b| - 1] == a + b[..|b| - 1];
      StreamOfSum(a, b[..|b| - 1], s);
    }
  }

  lemma {:induction false} StreamOfLoads(x: Scope, d: nat, from: nat, to: nat, s: Scope)
    requires from <= to
    ensures StreamOf(Loads(x, d, from, to), s) == if x == s then Ascending(from, to, d) else []
  {
    if from < to {
      StreamOfLoads(x, d, from, to - 1, s);
    }
  }

  lemma {:induction false} PlanAppend(c: Name, dates: seq<nat>, d: nat, index: map<nat, nat>)
    ensures StreamPlan(c, dates + [d], index) == StreamPlan(c, dates, index) + DirectoryPlan(c, d, index)
  {
    if dates == [] {
      assert ([] + [d])[1..] == [];
    } else {
      assert (dates + [d])[1..] == dates[1..] + [d];
      PlanAppend(c, dates[1..], d, index);
    }
  }

  // What was learned about stream s: `dates` has every date with an index that was read, and
  // `index` shows what was read.
  ghost predicate Reads(found: map<PathKey, nat>, c: Name, s: Scope, dates: seq<nat>, index: map<nat, nat>) {
    && Increasing(dates)
    && (forall d | FileKey(s, d) in found :: d in dates && c.date <= d)
    && (forall d | d in dates && c.date <= d :: Shown(index, d) == IndexOf(found, FileKey(s, d)))
  }

  lemma KeyPlan(cursors: map<Scope, Name>, found: map<PathKey, nat>, s: Scope, d: nat, dates: seq<nat>, index: map<nat, nat>)
    requires Reads(found, CursorOf(cursors, s), s, dates, index) && d in dates
    ensures DirectoryPlan(CursorOf(cursors, s), d, index) ==
            if FileKey(s, d) in RangesOf(cursors, found) then StreamOf(KeyTasks(FileKey(s, d), RangesOf(cursors, found)[FileKey(s, d)]), s) else []
  {
    var k, c := FileKey(s, d), CursorOf(cursors, s);
    if k in RangesOf(cursors, found) {
      StreamOfLoads(s, d, Consumed(c, d), found[k], s);
    }
  }

  lemma OtherKeys(k: PathKey, r: Range, s: Scope)
    requires k.FileKey? ==> k.scope != s
    ensures StreamOf(KeyTasks(k, r), s) == []
  {
    if k.FileKey? && 0 < r.start <= r.end {
      StreamOfLoads(k.scope, k.date, r.start - 1, r.end, s);
    } else if k.SchemaKey? {
      assert KeyTasks(k, r)[..0] == [];
    }
  }

  // The keys and the dates of stream s that are still to be compared.
  ghost predicate Matching(keys: seq<PathKey>, ranges: map<PathKey, Range>, s: Scope, dates: seq<nat>) {
    && Sorted(keys, KeyLess) && Increasing(dates)
    && (forall k | k in keys :: k in ranges)
    && (forall d | FileKey(s, d) in keys :: d in dates)
    && (forall d | d in dates && FileKey(s, d) in ranges :: FileKey(s, d) in keys)
  }

  lemma MatchingKeys(keys: seq<PathKey>, ranges: map<PathKey, Range>, s: Scope, dates: seq<nat>)
    requires Matching(keys, ranges, s, dates)
    ensures forall k | k in keys :: k in ranges
    ensures dates == [] ==> forall d :: FileKey(s, d) !in keys
  {
  }

  lemma DropKey(keys: seq<PathKey>, ranges: map<PathKey, Range>, s: Scope, dates: seq<nat>)
    requires Matching(keys, ranges, s, dates) && keys != []
    requires !(keys[|keys| - 1].FileKey? && keys[|keys| - 1].scope == s)
    ensures Matching(keys[..|keys| - 1], ranges, s, dates)
  {
    assert keys == keys[..|keys| - 1] + [keys[|keys| - 1]];
  }

  lemma DropBoth(keys: seq<PathKey>, ranges: map<PathKey, Range>, s: Scope, dates: seq<nat>)
    requires Matching(keys, ranges, s, dates) && keys != [] && dates != []
    requires keys[|keys| - 1] == FileKey(s, dates[|dates| - 1])
    ensures Matching(keys[..|keys| - 1], ranges, s, dates[..|dates| - 1])
  {
    var n, m := |keys| - 1, |dates| - 1;
    assert keys == keys[..n] + [keys[n]] && dates == dates[..m] + [dates[m]];
    forall i | 0 <= i < n ensures keys[i] != keys[n] {
      assert KeyLess(keys[i], keys[n]);
    }
  }

  lemma DropDate(keys: seq<PathKey>, ranges: map<PathKey, Range>, s: Scope, dates: seq<nat>)
    requires Matching(keys, ranges, s, dates) && dates != []
    requires keys != [] ==> keys[|keys| - 1].FileKey? && keys[|keys| - 1].scope == s && keys[|keys| - 1].date != dates[|dates| - 1]
    ensures FileKey(s, dates[|dates| - 1]) !in ranges
    ensures Matching(keys, ranges, s, dates[..|dates| - 1])
  {
    var n, m := |keys| - 1, |dates| - 1;
    assert dates == dates[..m] + [dates[m]];
    assert n >= 0 ==> keys[n] in keys && keys[n].date in dates && keys[n].date < dates[m];
    forall i | 0 <= i <= n ensures keys[i] != FileKey(s, dates[m]) {
      assert i < n ==> KeyLess(keys[i], keys[n]);
    }
  }

  lemma {:induction false} StreamOfKeys(cursors: map<Scope, Name>, found: map<PathKey, nat>, keys: seq<PathKey>, s: Scope,
                                        dates: seq<nat>, all: seq<nat>, index: map<nat, nat>)
    requires Reads(found, CursorOf(cursors, s), s, all, index) && dates <= all
    requires Matching(keys, RangesOf(cursors, found), s, dates)
    ensures StreamOf(Tasks(keys, RangesOf(cursors, found)), s) == StreamPlan(CursorOf(cursors, s), dates, index)
    decreases |keys| + |dates|
  {
    hide Matching, Reads, RangesOf, DirectoryPlan;
    var ranges, c := RangesOf(cursors, found), CursorOf(cursors, s);
    var n, m := |keys| - 1, |dates| - 1;
    MatchingKeys(keys, ranges, s, dates);
    assert keys != [] ==> keys[n] in keys;
    if keys != [] && !(keys[n].FileKey? && keys[n].scope == s) {
      OtherKeys(keys[n], ranges[keys[n]], s);
      StreamOfSum(Tasks(keys[..n], ranges), KeyTasks(keys[n], ranges[keys[n]]), s);
      DropKey(keys, ranges, s, dates);
      StreamOfKeys(cursors, found, keys[..n], s, dates, all, index);
    } else if dates != [] {
      assert dates == dates[..m] + [dates[m]];
      PlanAppend(c, dates[..m], dates[m], index);
      KeyPlan(cursors, found, s, dates[m], all, index);
      if keys != [] && keys[n].date == dates[m] {
        StreamOfSum(Tasks(keys[..n], ranges), KeyTasks(keys[n], ranges[keys[n]]), s);
        DropBoth(keys, ranges, s, dates);
        StreamOfKeys(cursors, found, keys[..n], s, dates[..m], all, index);
      } else {
        DropDate(keys, ranges, s, dates);
        StreamOfKeys(cursors, found, keys, s, dates[..m], all, index);
      }
    }
  }

  // The loader's sorted work list holds, for every stream, exactly that stream's plan.
  lemma WorkListIsStreamPlan(cursors: map<Scope, Name>, found: map<PathKey, nat>, s: Scope, dates: seq<nat>, index: map<nat, nat>)
    requires Reads(found, CursorOf(cursors, s), s, dates, index)
    ensures StreamOf(WorkList(RangesOf(cursors, found)), s) == StreamPlan(CursorOf(cursors, s), dates, index)
  {
    var keys := WorkOrder(RangesOf(cursors, found));
    assert forall d | FileKey(s, d) in keys :: FileKey(s, d) in found;
    StreamOfKeys(cursors, found, keys, s, dates, dates, index);
  }
}
