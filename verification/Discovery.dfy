// Finding new DML files: one output stream is a growing list of files, spread over date
// directories that each show only the number of their last indexed file.
module Discovery {
  import opened Wrappers
  import opened Merge

  // A DML output stream of a table: schema version and physical partition (0 if unpartitioned).
  datatype Scope = Scope(version: nat, partition: int)

  // A file by date directory and number, numbers starting at 1; also the cursor left by having
  // consumed that file. Dates are day ordinals; date 0 stands for the empty string of no cursor.
  datatype Name = Name(date: nat, index: nat)
  const NO_NAME := Name(0, 0)

  // cursorBefore.
  predicate NameLess(a: Name, b: Name) { a.date < b.date || (a.date == b.date && a.index < b.index) }

  datatype Entry = Entry(date: nat, file: File)

  // All indexed files of one stream in file order.
  type Log = seq<Entry>

  predicate Dated(log: Log) {
    && (forall i | 0 <= i < |log| :: log[i].date > 0)
    && (forall i, j | 0 <= i < j < |log| :: log[i].date <= log[j].date)
  }

  // Files in directories older than d, and the CDC.index of directory d (0 if missing).
  function Before(log: Log, d: nat): (n: nat)
    ensures n <= |log|
  {
    if log == [] then 0
    else Before(log[..|log| - 1], d) + if log[|log| - 1].date < d then 1 else 0
  }

  function Index(log: Log, d: nat): nat {
    if log == [] then 0
    else Index(log[..|log| - 1], d) + if log[|log| - 1].date == d then 1 else 0
  }

  // How many files the cursor c stands for.
  function Position(log: Log, c: Name): nat {
    if c.date == 0 then 0 else Before(log, c.date) + c.index
  }

  predicate IsCursor(log: Log, c: Name) {
    c == NO_NAME || (c.date > 0 && 1 <= c.index <= Index(log, c.date))
  }

  // The name of the file at position i.
  function NameOf(log: Log, i: nat): Name
    requires i < |log|
  {
    Name(log[i].date, Index(log[..i + 1], log[i].date))
  }

  function NamesOf(log: Log, from: nat, to: nat): (names: seq<Name>)
    requires from <= to <= |log|
    ensures |names| == to - from
    ensures forall i | 0 <= i < to - from :: names[i] == NameOf(log, from + i)
  {
    if from == to then [] else NamesOf(log, from, to - 1) + [NameOf(log, to - 1)]
  }

  // In a dated log the entries of one date are consecutive.
  lemma {:induction false} DatesAreConsecutive(log: Log, d: nat)
    requires Dated(log)
    ensures Before(log, d) + Index(log, d) <= |log|
    ensures forall i | 0 <= i < |log| :: log[i].date < d <==> i < Before(log, d)
    ensures forall i | 0 <= i < |log| :: log[i].date == d <==> Before(log, d) <= i < Before(log, d) + Index(log, d)
  {
    if log != [] {
      var n := |log| - 1;
      DatesAreConsecutive(log[..n], d);
      assert log[..n][..n] == log[..n];
      if n > 0 {
        assert log[n - 1].date <= log[n].date;
        assert log[..n][n - 1] == log[n - 1];
      }
    }
  }

  // Prefixes: what a directory holds is what of it lies in the prefix.
  lemma {:induction false} PrefixCounts(log: Log, n: nat, d: nat)
    requires Dated(log) && n <= |log|
    ensures Dated(log[..n])
    ensures Before(log[..n], d) == if n <= Before(log, d) then n else Before(log, d)
    ensures Index(log[..n], d) ==
            if n <= Before(log, d) then 0
            else if n <= Before(log, d) + Index(log, d) then n - Before(log, d)
            else Index(log, d)
  {
    DatesAreConsecutive(log, d);
    if n < |log| {
      var m := |log| - 1;
      PrefixCounts(log[..m], n, d);
      assert log[..m][..n] == log[..n];
      DatesAreConsecutive(log[..m], d);
    } else {
      assert log[..n] == log;
    }
  }

  // A file's name leads back to its position.
  lemma PositionOfName(log: Log, i: nat)
    requires Dated(log) && i < |log|
    ensures Position(log, NameOf(log, i)) == i + 1
    ensures IsCursor(log, NameOf(log, i))
  {
    DatesAreConsecutive(log, log[i].date);
    PrefixCounts(log, i + 1, log[i].date);
  }

  lemma CursorPosition(log: Log, c: Name)
    requires Dated(log) && IsCursor(log, c)
    ensures Position(log, c) <= |log|
    ensures c != NO_NAME ==> Position(log, c) > 0 && NameOf(log, Position(log, c) - 1) == c
    ensures c != NO_NAME ==> log[Position(log, c) - 1].date == c.date
  {
    if c != NO_NAME {
      DatesAreConsecutive(log, c.date);
      PrefixCounts(log, Position(log, c), c.date);
    }
  }

  // A log that only grew: the old files, then files that are not older.
  predicate Grew(old_: Log, new_: Log) {
    old_ <= new_ && Dated(new_)
  }

  lemma GrowthKeepsCursors(log: Log, more: Log, c: Name)
    requires Grew(log, more) && IsCursor(log, c)
    ensures Dated(log) && IsCursor(more, c) && Position(more, c) == Position(log, c)
  {
    assert more[..|log|] == log;
    PrefixCounts(more, |log|, c.date);
    if c != NO_NAME {
      DatesAreConsecutive(log, c.date);
      DatesAreConsecutive(more, c.date);
    }
  }

  // ----- The plan of one stream -----

  function Ascending(from: nat, to: nat, d: nat): (names: seq<Name>)
    requires from <= to
    ensures |names| == to - from
    ensures forall i | 0 <= i < to - from :: names[i] == Name(d, from + i + 1)
  {
    if from == to then [] else Ascending(from, to - 1, d) + [Name(d, to)]
  }

  // Directories older than the cursor's are skipped, its own goes on after the cursor, later
  // ones start at file 1; each goes up to the number read from its CDC.index.
  function StreamPlan(c: Name, dates: seq<nat>, index: map<nat, nat>): seq<Name> {
    if dates == [] then []
    else DirectoryPlan(c, dates[0], index) + StreamPlan(c, dates[1..], index)
  }

  function Consumed(c: Name, d: nat): nat {
    if c.date == d then c.index else 0
  }

  // The number a directory's CDC.index shows; a missing index shows none.
  function Shown(index: map<nat, nat>, d: nat): nat {
    if d in index then index[d] else 0
  }

  function DirectoryPlan(c: Name, d: nat, index: map<nat, nat>): seq<Name> {
    if d < c.date || Shown(index, d) <= Consumed(c, d) then []
    else Ascending(Consumed(c, d), Shown(index, d), d)
  }

  function SetOf(s: seq<nat>): set<nat> { set v | v in s }

  predicate Increasing(s: seq<nat>) { forall i, j | 0 <= i < j < |s| :: s[i] < s[j] }

  // What a scan knows of a stream once it has listed the date directories and read their
  // indexes, while the producer kept writing. `listed` is how long the log was at the listing.
  ghost predicate Observed(log: Log, listed: nat, c: Name, dates: seq<nat>, index: map<nat, nat>) {
    && Dated(log) && listed <= |log| && IsCursor(log, c) && Position(log, c) <= listed
    && Increasing(dates)
    // Every date that had a file was listed.
    && (forall i | 0 <= i < listed :: log[i].date in dates)
    // What the producer adds later goes to the newest listed date or to newer ones.
    && (forall i, j | listed <= i < |log| && 0 <= j < |dates| :: dates[j] <= log[i].date)
    // An index read after the listing shows at least what was there at the listing.
    && (forall d | d in dates && c.date <= d :: Index(log[..listed], d) <= Shown(index, d) <= Index(log, d))
  }

  function Later(a: nat, b: nat): nat { if a < b then b else a }

  // Where in the log the i-th listed directory's part of the plan starts and ends.
  function DirectoryStart(log: Log, c: Name, d: nat): nat {
    Later(Position(log, c), Before(log, d))
  }

  function DirectoryEnd(log: Log, c: Name, d: nat, index: map<nat, nat>): nat {
    if d < c.date then Position(log, c) else Later(DirectoryStart(log, c, d), Before(log, d) + Shown(index, d))
  }

  lemma {:induction false} OlderDirectoriesComeFirst(log: Log, d: nat, e: nat)
    requires Dated(log) && d < e
    ensures Before(log, d) + Index(log, d) <= Before(log, e)
  {
    if log != [] {
      OlderDirectoriesComeFirst(log[..|log| - 1], d, e);
    }
  }

  lemma {:induction false} NumbersAreNames(log: Log, d: nat, from: nat, to: nat, p: nat, q: nat)
    requires Dated(log) && from <= to <= Index(log, d)
    requires p == Before(log, d) + from && q == Before(log, d) + to
    ensures q <= |log| && Ascending(from, to, d) == NamesOf(log, p, q)
  {
    DatesAreConsecutive(log, d);
    if from < to {
      NumbersAreNames(log, d, from, to - 1, p, q - 1);
      PrefixCounts(log, q, d);
    }
  }

  lemma StartOfDirectory(log: Log, c: Name, d: nat)
    requires Dated(log) && IsCursor(log, c)
    ensures DirectoryStart(log, c, d) == if d < c.date then Position(log, c) else Before(log, d) + Consumed(c, d)
  {
    if d < c.date {
      OlderDirectoriesComeFirst(log, d, c.date);
    } else if c.date < d && c.date > 0 {
      OlderDirectoriesComeFirst(log, c.date, d);
    }
  }

  lemma DirectoryIsContiguous(log: Log, c: Name, index: map<nat, nat>, d: nat)
    requires Dated(log) && IsCursor(log, c) && (c.date <= d ==> Shown(index, d) <= Index(log, d))
    ensures DirectoryStart(log, c, d) <= DirectoryEnd(log, c, d, index) <= |log|
    ensures DirectoryPlan(c, d, index) == NamesOf(log, DirectoryStart(log, c, d), DirectoryEnd(log, c, d, index))
  {
    var from, to := DirectoryStart(log, c, d), DirectoryEnd(log, c, d, index);
    StartOfDirectory(log, c, d);
    if d < c.date {
      CursorPosition(log, c);
      assert DirectoryPlan(c, d, index) == [] == NamesOf(log, from, to);
    } else if Shown(index, d) <= Consumed(c, d) {
      NumbersAreNames(log, d, 0, Consumed(c, d), Before(log, d), from);
      assert DirectoryPlan(c, d, index) == [] == NamesOf(log, from, to);
    } else {
      NumbersAreNames(log, d, Consumed(c, d), Shown(index, d), from, to);
    }
  }

  // A directory before the cursor's is followed by one not after it.
  lemma CursorDirectoryListed(log: Log, listed: nat, c: Name, dates: seq<nat>, index: map<nat, nat>, i: nat)
    requires Observed(log, listed, c, dates, index) && i + 1 < |dates| && dates[i] < c.date
    ensures dates[i + 1] <= c.date
  {
    CursorPosition(log, c);
    var m :| 0 <= m < |dates| && dates[m] == log[Position(log, c) - 1].date;
  }

  // A directory that is not the newest listed one was complete when its index was read, so the
  // next directory's part starts where its own ends.
  lemma NextDirectoryFollows(log: Log, listed: nat, c: Name, dates: seq<nat>, index: map<nat, nat>, i: nat)
    requires Observed(log, listed, c, dates, index) && i + 1 < |dates|
    ensures DirectoryEnd(log, c, dates[i], index) == DirectoryStart(log, c, dates[i + 1])
  {
    var d, next := dates[i], dates[i + 1];
    CursorPosition(log, c);
    OlderDirectoriesComeFirst(log, d, next);
    PrefixCounts(log, listed, d);
    NothingBetween(log, listed, c, dates, index, i);
    if d < c.date {
      CursorDirectoryListed(log, listed, c, dates, index, i);
      if next < c.date {
        OlderDirectoriesComeFirst(log, next, c.date);
      }
    } else if c.date > 0 && c.date < d {
      OlderDirectoriesComeFirst(log, c.date, d);
    }
  }

  lemma NothingBetween(log: Log, listed: nat, c: Name, dates: seq<nat>, index: map<nat, nat>, i: nat)
    requires Observed(log, listed, c, dates, index) && i + 1 < |dates|
    ensures Before(log, dates[i]) + Index(log, dates[i]) == Before(log, dates[i + 1]) <= listed
  {
    var d, next := dates[i], dates[i + 1];
    DatesAreConsecutive(log, d);
    DatesAreConsecutive(log, next);
    OlderDirectoriesComeFirst(log, d, next);
    var full := Before(log, d) + Index(log, d);
    forall j | 0 <= j < |log| ensures log[j].date <= d || next <= log[j].date {
      if j < listed {
        var m :| 0 <= m < |dates| && dates[m] == log[j].date;
        assert m <= i || i + 1 <= m;
      } else {
        assert dates[i + 1] <= log[j].date;
      }
    }
    assert full < |log| ==> log[full].date > d;
    assert listed < |log| ==> dates[i + 1] <= log[listed].date;
  }

  lemma NewestDirectoryReachesListing(log: Log, listed: nat, c: Name, dates: seq<nat>, index: map<nat, nat>)
    requires Observed(log, listed, c, dates, index) && dates != []
    ensures listed <= DirectoryEnd(log, c, dates[|dates| - 1], index)
  {
    var d := dates[|dates| - 1];
    CursorPosition(log, c);
    DatesAreConsecutive(log, d);
    PrefixCounts(log, listed, d);
    forall j | 0 <= j < listed ensures log[j].date <= d {
      var m :| 0 <= m < |dates| && dates[m] == log[j].date;
    }
    assert c != NO_NAME ==> log[Position(log, c) - 1].date <= d;
  }

  // The plan from the i-th listed directory on.
  lemma {:induction false} PlanFrom(log: Log, listed: nat, c: Name, dates: seq<nat>, index: map<nat, nat>, i: nat)
    returns (end: nat)
    requires Observed(log, listed, c, dates, index) && i < |dates|
    ensures DirectoryStart(log, c, dates[i]) <= end <= |log| && listed <= end
    ensures StreamPlan(c, dates[i..], index) == NamesOf(log, DirectoryStart(log, c, dates[i]), end)
    decreases |dates| - i
  {
    DirectoryIsContiguous(log, c, index, dates[i]);
    var from, to := DirectoryStart(log, c, dates[i]), DirectoryEnd(log, c, dates[i], index);
    var rest := dates[i..][1..];
    assert rest == dates[i + 1..];
    if i + 1 == |dates| {
      end := to;
      NewestDirectoryReachesListing(log, listed, c, dates, index);
      assert StreamPlan(c, rest, index) == [];
    } else {
      end := PlanFrom(log, listed, c, dates, index, i + 1);
      NextDirectoryFollows(log, listed, c, dates, index, i);
      NamesAppend(log, from, to, end);
    }
  }

  lemma NamesAppend(log: Log, from: nat, mid: nat, to: nat)
    requires from <= mid <= to <= |log|
    ensures NamesOf(log, from, to) == NamesOf(log, from, mid) + NamesOf(log, mid, to)
  {
  }

  // The plan of a stream is the part of its log from the cursor to some point not before the
  // listing: nothing is skipped, repeated or out of order.
  lemma PlanIsContiguous(log: Log, listed: nat, c: Name, dates: seq<nat>, index: map<nat, nat>) returns (end: nat)
    requires Observed(log, listed, c, dates, index)
    ensures listed <= end <= |log| && Position(log, c) <= end
    ensures StreamPlan(c, dates, index) == NamesOf(log, Position(log, c), end)
  {
    CursorPosition(log, c);
    assert listed > 0 ==> log[0].date in dates;
    if dates == [] {
      end := 0;
    } else {
      end := PlanFrom(log, listed, c, dates, index, 0);
      DatesAreConsecutive(log, dates[0]);
      if listed > 0 {
        var m :| 0 <= m < |dates| && dates[m] == log[0].date;
      }
      assert dates[0..] == dates;
    }
  }

  // ----- Scan after scan -----

  lemma {:induction false} NamesStay(log: Log, more: Log, from: nat, to: nat)
    requires log <= more && from <= to <= |log|
    ensures NamesOf(more, from, to) == NamesOf(log, from, to)
  {
    if from < to {
      NamesStay(log, more, from, to - 1);
      assert more[..to] == log[..to];
    }
  }

  // One finished scan of a stream, with the cursor it started from.
  datatype Pass = Pass(log: Log, listed: nat, cursor: Name, dates: seq<nat>, index: map<nat, nat>)

  function PlanOf(p: Pass): seq<Name> { StreamPlan(p.cursor, p.dates, p.index) }

  // The cursor a finished scan leaves.
  function CursorAfter(p: Pass): Name {
    if PlanOf(p) == [] then p.cursor else PlanOf(p)[|PlanOf(p)| - 1]
  }

  ghost predicate Passes(ps: seq<Pass>) {
    && (forall i | 0 <= i < |ps| :: Observed(ps[i].log, ps[i].listed, ps[i].cursor, ps[i].dates, ps[i].index))
    && (forall i | 0 <= i < |ps| - 1 :: Grew(ps[i].log, ps[i + 1].log) && ps[i + 1].cursor == CursorAfter(ps[i]))
  }

  function AllPlans(ps: seq<Pass>): seq<Name> {
    if ps == [] then [] else AllPlans(ps[..|ps| - 1]) + PlanOf(ps[|ps| - 1])
  }

  lemma PassAdvances(p: Pass)
    requires Observed(p.log, p.listed, p.cursor, p.dates, p.index)
    ensures IsCursor(p.log, p.cursor) && IsCursor(p.log, CursorAfter(p))
    ensures Position(p.log, p.cursor) <= Position(p.log, CursorAfter(p)) <= |p.log|
    ensures PlanOf(p) == NamesOf(p.log, Position(p.log, p.cursor), Position(p.log, CursorAfter(p)))
  {
    CursorPosition(p.log, p.cursor);
    var end := PlanIsContiguous(p.log, p.listed, p.cursor, p.dates, p.index);
    LastPlanned(p.log, p.cursor, end, PlanOf(p));
  }

  // The cursor at the end of a planned stretch stands for where the stretch ends.
  lemma LastPlanned(log: Log, c: Name, end: nat, plan: seq<Name>)
    requires Dated(log) && IsCursor(log, c) && Position(log, c) <= end <= |log| && plan == NamesOf(log, Position(log, c), end)
    ensures var after := if plan == [] then c else plan[|plan| - 1];
            IsCursor(log, after) && Position(log, after) == end
  {
    if plan != [] {
      PositionOfName(log, end - 1);
    }
  }

  // Over any number of scans the planned files are the log's files from the first cursor to the
  // last, each once and in order.
  lemma {:induction false} PassesCoverLog(ps: seq<Pass>)
    requires ps != [] && Passes(ps)
    ensures var log, last := ps[|ps| - 1].log, CursorAfter(ps[|ps| - 1]);
            && IsCursor(log, ps[0].cursor) && IsCursor(log, last)
            && Position(log, ps[0].cursor) <= Position(log, last) <= |log|
            && AllPlans(ps) == NamesOf(log, Position(log, ps[0].cursor), Position(log, last))
  {
    hide Observed, StreamPlan, Position, IsCursor, Dated, CursorAfter;
    var n := |ps| - 1;
    PassAdvances(ps[n]);
    if n > 0 {
      var before, p := ps[n - 1], ps[n];
      assert ps[..n][n - 1] == before && ps[..n][0] == ps[0];
      PassesCoverLog(ps[..n]);
      GrowthKeepsCursors(before.log, p.log, ps[0].cursor);
      GrowthKeepsCursors(before.log, p.log, p.cursor);
      NamesStay(before.log, p.log, Position(p.log, ps[0].cursor), Position(p.log, p.cursor));
      NamesAppend(p.log, Position(p.log, ps[0].cursor), Position(p.log, p.cursor), Position(p.log, CursorAfter(p)));
    } else {
      assert AllPlans(ps) == AllPlans(ps[..0]) + PlanOf(ps[0]);
    }
  }

  // Different files have different names.
  lemma NamesAreDistinct(log: Log, i: nat, j: nat)
    requires Dated(log) && i < j < |log|
    ensures NameOf(log, i) != NameOf(log, j)
  {
    PositionOfName(log, i);
    PositionOfName(log, j);
  }
}
