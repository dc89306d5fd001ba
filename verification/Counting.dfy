// The three counts of files a scan makes agree: while reading indexes, over the planned ranges,
// and over the files loaded.
module Counting {
  import opened Wrappers
  import opened Discovery
  import opened Replication
  import opened Sorting
  import opened Planning

  // ----- What an index lookup finds -----

  ghost predicate ShowsAt(visit: Visit, s: Scope, d: nat, n: nat) {
    visit.Visit? && visit.scope == s && visit.date == d && visit.probe == Shows(n)
  }

  // A key's index is the largest number any lookup of its directory showed; directories before
  // the cursor's date are not looked into.
  lemma {:induction false} FoundIsHighest(cursors: map<Scope, Name>, start: Found, visits: seq<Visit>, s: Scope, d: nat)
    requires FileKey(s, d) !in start.index && LookAll(cursors, start, visits).fine
    ensures var index, k := LookAll(cursors, start, visits).index, FileKey(s, d);
            && (k in index ==> CursorOf(cursors, s).date <= d && index[k] > 0)
            && (k in index ==> exists visit :: visit in visits && ShowsAt(visit, s, d, index[k]))
            && (forall visit, n: nat | visit in visits && ShowsAt(visit, s, d, n) && CursorOf(cursors, s).date <= d :: n <= IndexOf(index, k))
  {
    if visits != [] {
      var n := |visits| - 1;
      assert visits == visits[..n] + [visits[n]];
      FoundIsHighest(cursors, start, visits[..n], s, d);
      var index, index2 := LookAll(cursors, start, visits[..n]).index, LookAll(cursors, start, visits).index;
      if FileKey(s, d) in index2 && !(FileKey(s, d) in index && index[FileKey(s, d)] == index2[FileKey(s, d)]) {
        assert ShowsAt(visits[n], s, d, index2[FileKey(s, d)]);
      }
    }
  }

  // ----- Sums over sets of keys -----

  ghost function Sum(s: set<PathKey>, weight: PathKey -> nat): nat {
    if s == {} then 0
    else
      var k :| k in s;
      weight(k) + Sum(s - {k}, weight)
  }

  lemma {:induction false} SumWithout(s: set<PathKey>, weight: PathKey -> nat, k: PathKey)
    requires k in s
    ensures Sum(s, weight) == weight(k) + Sum(s - {k}, weight)
  {
    var first :| first in s && Sum(s, weight) == weight(first) + Sum(s - {first}, weight);
    if first != k {
      SumWithout(s - {first}, weight, k);
      SumWithout(s - {k}, weight, first);
      assert s - {first} - {k} == s - {k} - {first};
    }
  }

  lemma {:induction false} SumAgrees(s: set<PathKey>, a: PathKey -> nat, b: PathKey -> nat)
    requires forall k | k in s :: a(k) == b(k)
    ensures Sum(s, a) == Sum(s, b)
  {
    if s != {} {
      var k :| k in s;
      SumWithout(s, a, k);
      SumWithout(s, b, k);
      SumAgrees(s - {k}, a, b);
    }
  }

  lemma {:induction false} SumDropsZeros(s: set<PathKey>, t: set<PathKey>, weight: PathKey -> nat)
    requires t <= s && forall k | k in s - t :: weight(k) == 0
    ensures Sum(s, weight) == Sum(t, weight)
  {
    if s <= t {
      assert s == t;
    } else {
      var k :| k in s && k !in t;
      SumWithout(s, weight, k);
      SumDropsZeros(s - {k}, t, weight);
    }
  }

  // ----- Files beyond the cursors -----

  function Gain(cursors: map<Scope, Name>, index: map<PathKey, nat>, k: PathKey): nat {
    if k.FileKey? && IndexOf(index, k) > Consumed(CursorOf(cursors, k.scope), k.date)
    then IndexOf(index, k) - Consumed(CursorOf(cursors, k.scope), k.date) else 0
  }

  ghost function Total(cursors: map<Scope, Name>, index: map<PathKey, nat>): nat {
    Sum(index.Keys, k => Gain(cursors, index, k))
  }

  lemma TotalGrows(cursors: map<Scope, Name>, index: map<PathKey, nat>, s: Scope, d: nat, n: nat)
    requires FileKey(s, d) !in index
    ensures var c := Consumed(CursorOf(cursors, s), d);
            Total(cursors, index[FileKey(s, d) := n]) == Total(cursors, index) + if n > c then n - c else 0
  {
    var k, index2 := FileKey(s, d), index[FileKey(s, d) := n];
    var a, b := (x: PathKey) => Gain(cursors, index, x), (x: PathKey) => Gain(cursors, index2, x);
    SumWithout(index2.Keys, b, k);
    assert index2.Keys - {k} == index.Keys;
    SumAgrees(index.Keys, a, b);
  }

  // A listing names each date directory of each stream once.
  ghost predicate Once(visits: seq<Visit>) {
    forall i, j | 0 <= i < j < |visits| && visits[i].Visit? && visits[j].Visit? ::
      visits[i].scope != visits[j].scope || visits[i].date != visits[j].date
  }

  lemma {:induction false} OnlyVisited(cursors: map<Scope, Name>, start: Found, visits: seq<Visit>, k: PathKey)
    requires k !in start.index && k in LookAll(cursors, start, visits).index
    ensures k.FileKey? && exists i :: 0 <= i < |visits| && visits[i].Visit? && visits[i].scope == k.scope && visits[i].date == k.date
  {
    if visits != [] {
      var n := |visits| - 1;
      if k in LookAll(cursors, start, visits[..n]).index {
        OnlyVisited(cursors, start, visits[..n], k);
        var i :| 0 <= i < n && visits[..n][i].Visit? && visits[..n][i].scope == k.scope && visits[..n][i].date == k.date;
        assert visits[i] == visits[..n][i];
      }
    }
  }

  lemma {:induction false} PendingIsTotal(cursors: map<Scope, Name>, start: Found, visits: seq<Visit>)
    requires Once(visits) && (forall k | k in start.index :: k.SchemaKey?) && start.pending == 0
    requires LookAll(cursors, start, visits).fine
    ensures var found := LookAll(cursors, start, visits); found.pending == Total(cursors, found.index)
  {
    if visits == [] {
      var none: set<PathKey> := {};
      SumDropsZeros(start.index.Keys, none, k => Gain(cursors, start.index, k));
    } else {
      var n := |visits| - 1;
      PendingIsTotal(cursors, start, visits[..n]);
      var before, v := LookAll(cursors, start, visits[..n]), visits[n];
      if v.Visit? && v.probe.Shows? {
        if FileKey(v.scope, v.date) in before.index {
          OnlyVisited(cursors, start, visits[..n], FileKey(v.scope, v.date));
        }
        TotalGrows(cursors, before.index, v.scope, v.date, v.probe.index);
      }
    }
  }

  // ----- Files in the planned ranges -----

  function KeySet(keys: seq<PathKey>): set<PathKey> { set k | k in keys }

  function SizeIn(ranges: map<PathKey, Range>, k: PathKey): nat { if k in ranges then Size(k, ranges[k]) else 0 }

  lemma {:induction false} CountIsSum(ranges: map<PathKey, Range>, keys: seq<PathKey>)
    requires Sorted(keys, KeyLess) && forall k | k in keys :: k in ranges
    ensures CountFiles(keys, ranges) == Sum(KeySet(keys), k => SizeIn(ranges, k))
  {
    if keys != [] {
      var n := |keys| - 1;
      CountIsSum(ranges, keys[..n]);
      assert keys == keys[..n] + [keys[n]];
      forall i | 0 <= i < n ensures keys[i] != keys[n] {
        assert KeyLess(keys[i], keys[n]);
      }
      assert KeySet(keys) - {keys[n]} == KeySet(keys[..n]);
      SumWithout(KeySet(keys), k => SizeIn(ranges, k), keys[n]);
    }
  }

  // countFilesInRanges, which takes the ranges in any order.
  method CountFilesInRanges(ranges: map<PathKey, Range>) returns (count: nat)
    ensures count == CountFiles(WorkOrder(ranges), ranges)
  {
    count := 0;
    var todo := ranges.Keys;
    while todo != {}
      invariant todo <= ranges.Keys
      invariant count + Sum(todo, k => SizeIn(ranges, k)) == Sum(ranges.Keys, k => SizeIn(ranges, k))
      decreases |todo|
    {
      var key :| key in todo;
      SumWithout(todo, k => SizeIn(ranges, k), key);
      if key.FileKey? && ranges[key].end >= ranges[key].start {
        count := count + (ranges[key].end - ranges[key].start + 1);
      }
      todo := todo - {key};
    }
    CountIsSum(ranges, WorkOrder(ranges));
    assert KeySet(WorkOrder(ranges)) == ranges.Keys;
  }

  lemma CountIsTotal(cursors: map<Scope, Name>, index: map<PathKey, nat>, keys: seq<PathKey>)
    requires Orders(keys, RangesOf(cursors, index).Keys, KeyLess)
    ensures CountFiles(keys, RangesOf(cursors, index)) == Total(cursors, index)
  {
    var ranges, planned := RangesOf(cursors, index), KeySet(keys);
    CountIsSum(ranges, keys);
    SumAgrees(planned, k => SizeIn(ranges, k), k => Gain(cursors, index, k));
    SumDropsZeros(index.Keys, planned, k => Gain(cursors, index, k));
  }

  lemma {:induction false} CountLoadsSum(a: seq<Task>, b: seq<Task>)
    ensures CountLoads(a + b) == CountLoads(a) + CountLoads(b)
  {
    if b == [] {
      assert a + b == a;
    } else {
      assert (a + b)[..|a + b| - 1] == a + b[..|b| - 1];
      CountLoadsSum(a, b[..|b| - 1]);
    }
  }

  lemma {:induction false} CountLoadsOfRange(s: Scope, d: nat, from: nat, to: nat)
    requires from <= to
    ensures CountLoads(Loads(s, d, from, to)) == to - from
  {
    if from < to {
      CountLoadsOfRange(s, d, from, to - 1);
    }
  }

  lemma {:induction false} LoadsAreCounted(keys: seq<PathKey>, ranges: map<PathKey, Range>)
    requires forall k | k in keys :: k in ranges && (k.FileKey? ==> 0 < ranges[k].start)
    ensures CountLoads(Tasks(keys, ranges)) == CountFiles(keys, ranges)
  {
    if keys != [] {
      var n := |keys| - 1;
      var k, r := keys[n], ranges[keys[n]];
      LoadsAreCounted(keys[..n], ranges);
      CountLoadsSum(Tasks(keys[..n], ranges), KeyTasks(k, r));
      if k.FileKey? && r.start <= r.end {
        CountLoadsOfRange(k.scope, k.date, r.start - 1, r.end);
      } else if k.SchemaKey? {
        assert KeyTasks(k, r)[..0] == [];
      }
    }
  }

  // The number of files pending at discovery, the size of the planned ranges and the number of
  // loads in the work list are one number.
  lemma CountsAgree(cursors: map<Scope, Name>, start: Found, visits: seq<Visit>)
    requires Once(visits) && (forall k | k in start.index :: k.SchemaKey?) && start.pending == 0
    requires LookAll(cursors, start, visits).fine
    ensures var found := LookAll(cursors, start, visits);
            var ranges := RangesOf(cursors, found.index);
            found.pending == CountFiles(WorkOrder(ranges), ranges) == CountLoads(WorkList(ranges))
  {
    var found := LookAll(cursors, start, visits);
    var ranges := RangesOf(cursors, found.index);
    KeysAreOrdered();
    PendingIsTotal(cursors, start, visits);
    CountIsTotal(cursors, found.index, WorkOrder(ranges));
    LoadsAreCounted(WorkOrder(ranges), ranges);
  }
}
