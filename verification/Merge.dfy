// The meaning of the generated MERGE statement (pkg/snowflake/sql.go) and of running many of them.
module Merge {
  import opened Wrappers
  import opened TextOrder

  // One value of a CSV row; TO_BINARY columns are kept apart from text.
  datatype Cell = Text(text: string) | Bytes(hex: string)
  type Key = seq<Cell>
  type Row = map<string, Cell>
  type Table = map<Key, Row>

  // One staged CSV row: $1 flag, $4 commit timestamp, the columns and the primary key in them.
  datatype Change = Change(flag: string, key: Key, commit: Decimal, row: Row)
  type File = seq<Change>

  function Lookup(t: Table, k: Key): Option<Row> {
    if k in t then Some(t[k]) else None
  }

  // What a row says its key holds after commit.
  function Image(c: Change): Option<Row> {
    if c.flag == "D" then None else Some(c.row)
  }

  // ----- Reference semantics: replay events one after another -----

  function ApplyChange(t: Table, c: Change): Table {
    if c.flag == "D" then t - {c.key} else t[c.key := c.row]
  }

  function Replay(t: Table, es: seq<Change>): Table {
    if es == [] then t else ApplyChange(Replay(t, es[..|es| - 1]), es[|es| - 1])
  }

  // ----- The SQL semantics -----

  // Every commit timestamp is a decimal of width `w`.
  predicate Stamped(f: File, w: nat) {
    forall c | c in f :: |c.commit| == w
  }

  // A re-emitted row repeats the row first emitted for that key and commit.
  predicate Consistent(f: File) {
    forall c, d | c in f && d in f && c.key == d.key && c.commit == d.commit ::
      Image(c) == Image(d)
  }

  // WHERE TO_NUMBER($4) > checkpoint
  function Visible(f: File, checkpoint: nat): (v: File)
    ensures forall c :: c in v <==> c in f && ToNumber(c.commit) > checkpoint
  {
    if f == [] then []
    else
      var rest := Visible(f[1..], checkpoint);
      assert f == [f[0]] + f[1..];
      if ToNumber(f[0].commit) > checkpoint then [f[0]] + rest else rest
  }

  // row_number() over (partition by <primary key> order by $4 desc); SQL leaves the order of
  // rows that tie open, so any numbering that meets this predicate is possible.
  ghost predicate IsRowNumbering(v: File, rank: seq<nat>) {
    && |rank| == |v|
    && (forall i, j | 0 <= i < j < |v| && v[i].key == v[j].key :: rank[i] != rank[j])
    && (forall i, j | 0 <= i < |v| && 0 <= j < |v| && v[i].key == v[j].key
          && TextLess(v[j].commit, v[i].commit) :: rank[i] < rank[j])
    && (forall i | 0 <= i < |v| :: rank[i] >= 1)
    && (forall i | 0 <= i < |v| && rank[i] > 1 ::
          exists j :: 0 <= j < |v| && v[j].key == v[i].key && rank[j] == rank[i] - 1)
  }

  // QUALIFY ... = 1
  function Qualified(v: File, rank: seq<nat>): File
    requires |rank| == |v|
  {
    if v == [] then []
    else (if rank[0] == 1 then [v[0]] else []) + Qualified(v[1..], rank[1..])
  }

  function SourceRow(src: File, k: Key): Option<Change> {
    if src == [] then None
    else if src[0].key == k then Some(src[0])
    else SourceRow(src[1..], k)
  }

  // The three WHEN branches for target key k.
  function Branch(target: Option<Row>, source: Option<Change>): Option<Row> {
    match source
    case None => target
    case Some(s) =>
      if target.Some? && s.flag != "D" then Some(s.row)
      else if target.Some? && s.flag == "D" then None
      else if target.None? && s.flag != "D" then Some(s.row)
      else target
  }

  function KeysOf(src: File): set<Key> { set c | c in src :: c.key }

  function MergeInto(t: Table, src: File): Table {
    map k | k in t.Keys + KeysOf(src) && Branch(Lookup(t, k), SourceRow(src, k)).Some?
      :: Branch(Lookup(t, k), SourceRow(src, k)).value
  }

  // The whole statement: t2 is a table the MERGE of f into t may leave.
  ghost predicate MergeStatement(t: Table, f: File, checkpoint: nat, t2: Table)
  {
    var v := Visible(f, checkpoint);
    exists rank: seq<nat> :: IsRowNumbering(v, rank) && t2 == MergeInto(t, Qualified(v, rank))
  }

  // ----- The merge source -----

  lemma {:induction false} QualifiedRows(v: File, rank: seq<nat>)
    requires |rank| == |v|
    ensures forall c :: c in Qualified(v, rank) <==> exists i :: 0 <= i < |v| && v[i] == c && rank[i] == 1
  {
    if v != [] {
      QualifiedRows(v[1..], rank[1..]);
      var q, r := Qualified(v, rank), Qualified(v[1..], rank[1..]);
      forall c
        ensures c in q <==> exists i :: 0 <= i < |v| && v[i] == c && rank[i] == 1
      {
        if i :| 0 <= i < |v| && v[i] == c && rank[i] == 1 {
          assert i > 0 ==> v[1..][i - 1] == c && rank[1..][i - 1] == 1;
        }
        if c in r {
          var j :| 0 <= j < |v[1..]| && v[1..][j] == c && rank[1..][j] == 1;
          assert v[j + 1] == c && rank[j + 1] == 1;
        }
      }
    }
  }

  // The merge source never holds two rows for one primary key, so the MERGE is deterministic.
  lemma {:induction false} SourceHasOneRowPerKey(v: File, rank: seq<nat>, i: nat, j: nat)
    requires IsRowNumbering(v, rank)
    requires i < j < |Qualified(v, rank)|
    ensures Qualified(v, rank)[i].key != Qualified(v, rank)[j].key
  {
    var a, b := QualifiedPositions(v, rank, i, j);
  }

  lemma {:induction false} QualifiedPositions(v: File, rank: seq<nat>, i: nat, j: nat) returns (a: nat, b: nat)
    requires |rank| == |v|
    requires i < j < |Qualified(v, rank)|
    ensures a < b < |v| && rank[a] == 1 && rank[b] == 1
    ensures v[a] == Qualified(v, rank)[i] && v[b] == Qualified(v, rank)[j]
  {
    if rank[0] != 1 {
      a, b := QualifiedPositions(v[1..], rank[1..], i, j);
      a, b := a + 1, b + 1;
    } else if i > 0 {
      a, b := QualifiedPositions(v[1..], rank[1..], i - 1, j - 1);
      a, b := a + 1, b + 1;
    } else {
      a := 0;
      var c := Qualified(v, rank)[j];
      assert c == Qualified(v[1..], rank[1..])[j - 1];
      QualifiedRows(v[1..], rank[1..]);
      assert c in Qualified(v[1..], rank[1..]);
      b :| 0 <= b < |v[1..]| && v[1..][b] == c && rank[1..][b] == 1;
      b := b + 1;
    }
  }

  // Counting down the ranks of a key always reaches rank 1.
  lemma {:induction false} FirstRank(v: File, rank: seq<nat>, i: nat) returns (top: nat)
    requires IsRowNumbering(v, rank) && i < |v|
    ensures top < |v| && v[top].key == v[i].key && rank[top] == 1
    decreases rank[i]
  {
    if rank[i] == 1 {
      top := i;
    } else {
      var j :| 0 <= j < |v| && v[j].key == v[i].key && rank[j] == rank[i] - 1;
      top := FirstRank(v, rank, j);
    }
  }

  lemma {:induction false} SourceRowFound(src: File, k: Key)
    ensures SourceRow(src, k).None? ==> forall c | c in src :: c.key != k
    ensures SourceRow(src, k).Some? ==> SourceRow(src, k).value in src && SourceRow(src, k).value.key == k
  {
    if src != [] && src[0].key != k {
      SourceRowFound(src[1..], k);
      assert src == [src[0]] + src[1..];
    }
  }

  // ----- The row of a key that is greatest as text -----

  function Greatest(v: File, k: Key): Option<Change> {
    if v == [] then None
    else
      var c, rest := v[|v| - 1], Greatest(v[..|v| - 1], k);
      if c.key == k && (rest.None? || !TextLess(c.commit, rest.value.commit)) then Some(c) else rest
  }

  ghost predicate IsGreatest(v: File, k: Key, greatest: Option<Change>) {
    match greatest
    case None => forall d | d in v :: d.key != k
    case Some(c) => c in v && c.key == k && forall d | d in v && d.key == k :: !TextLess(c.commit, d.commit)
  }

  lemma {:induction false} GreatestIsGreatest(v: File, k: Key)
    ensures IsGreatest(v, k, Greatest(v, k))
  {
    if v != [] {
      var c, rest := v[|v| - 1], Greatest(v[..|v| - 1], k);
      GreatestIsGreatest(v[..|v| - 1], k);
      assert v == v[..|v| - 1] + [c];
      TextLessIsTotal(c.commit, if rest.Some? then rest.value.commit else c.commit);
      forall d | rest.Some? && d in v && d.key == k && c.key == k && !TextLess(c.commit, rest.value.commit)
        ensures !TextLess(c.commit, d.commit)
      {
        if TextLess(c.commit, d.commit) {
          TextLessSplits(c.commit, d.commit, rest.value.commit);
        }
      }
    }
  }

  // The merge source holds the row of each key that ORDER BY puts first.
  lemma {:induction false} SourceRowIsGreatest(v: File, rank: seq<nat>, k: Key)
    requires IsRowNumbering(v, rank)
    ensures IsGreatest(v, k, SourceRow(Qualified(v, rank), k))
  {
    var q := Qualified(v, rank);
    QualifiedRows(v, rank);
    SourceRowFound(q, k);
    match SourceRow(q, k)
    case None =>
      forall i | 0 <= i < |v| ensures exists c :: c in q && c.key == v[i].key {
        var top := FirstRank(v, rank, i);
        assert v[top] in q;
      }
    case Some(c) =>
      var i :| 0 <= i < |v| && v[i] == c && rank[i] == 1;
      forall j | 0 <= j < |v| && v[j].key == k ensures !TextLess(c.commit, v[j].commit) {
        assert rank[j] >= rank[i];
      }
  }

  // Per key, whatever the timestamps: the image of its greatest visible row, or what the target held.
  lemma MergeOutcomeByText(t: Table, f: File, checkpoint: nat, t2: Table, k: Key)
    requires Consistent(f) && MergeStatement(t, f, checkpoint, t2)
    ensures Lookup(t2, k) == Outcome(Lookup(t, k), Greatest(Visible(f, checkpoint), k))
  {
    var v := Visible(f, checkpoint);
    var rank: seq<nat> :| IsRowNumbering(v, rank) && t2 == MergeInto(t, Qualified(v, rank));
    var row, top := SourceRow(Qualified(v, rank), k), Greatest(v, k);
    SourceRowIsGreatest(v, rank, k);
    GreatestIsGreatest(v, k);
    BranchOutcome(t, Qualified(v, rank), k);
    if row.Some? && top.Some? {
      TextLessIsTotal(row.value.commit, top.value.commit);
    }
  }

  // ----- The newest visible row of a key -----

  // The row of k with the largest commit timestamp.
  function Newest(v: File, k: Key): Option<Change> {
    if v == [] then None
    else
      var c, rest := v[|v| - 1], Newest(v[..|v| - 1], k);
      if c.key == k && (rest.None? || ToNumber(rest.value.commit) <= ToNumber(c.commit)) then Some(c) else rest
  }

  ghost predicate IsNewest(v: File, k: Key, newest: Option<Change>) {
    match newest
    case None => forall d | d in v :: d.key != k
    case Some(c) => c in v && c.key == k && forall d | d in v && d.key == k :: ToNumber(d.commit) <= ToNumber(c.commit)
  }

  lemma {:induction false} NewestIsNewest(v: File, k: Key)
    ensures IsNewest(v, k, Newest(v, k))
  {
    if v != [] {
      NewestIsNewest(v[..|v| - 1], k);
      assert v == v[..|v| - 1] + [v[|v| - 1]];
    }
  }

  // What a key holds after a batch whose newest visible row for it is `newest`.
  function Outcome(before: Option<Row>, newest: Option<Change>): Option<Row> {
    if newest.Some? then Image(newest.value) else before
  }

  // Re-emitted copies aside, the newest row of a key is unique.
  lemma NewestIsUnique(v: File, w: nat, k: Key, a: Option<Change>, b: Option<Change>, before: Option<Row>)
    requires Stamped(v, w) && Consistent(v) && IsNewest(v, k, a) && IsNewest(v, k, b)
    ensures Outcome(before, a) == Outcome(before, b)
  {
    if a.Some? && b.Some? {
      TextOrderIsNumericOrder(a.value.commit, b.value.commit);
    }
  }

  // The merge source holds each key's newest visible row.
  lemma {:induction false} SourceRowIsNewest(v: File, rank: seq<nat>, k: Key, w: nat)
    requires Stamped(v, w) && IsRowNumbering(v, rank)
    ensures IsNewest(v, k, SourceRow(Qualified(v, rank), k))
  {
    var row := SourceRow(Qualified(v, rank), k);
    SourceRowIsGreatest(v, rank, k);
    forall d | row.Some? && d in v && d.key == k ensures ToNumber(d.commit) <= ToNumber(row.value.commit) {
      TextOrderIsNumericOrder(row.value.commit, d.commit);
    }
  }

  // Per key: the image of its newest visible row, or what the target held.
  lemma {:induction false} MergeOutcome(t: Table, f: File, checkpoint: nat, w: nat, t2: Table, k: Key)
    requires Stamped(f, w) && Consistent(f) && MergeStatement(t, f, checkpoint, t2)
    ensures Lookup(t2, k) == Outcome(Lookup(t, k), Newest(Visible(f, checkpoint), k))
  {
    var v := Visible(f, checkpoint);
    var rank: seq<nat> :| IsRowNumbering(v, rank) && t2 == MergeInto(t, Qualified(v, rank));
    var row := SourceRow(Qualified(v, rank), k);
    SourceRowIsNewest(v, rank, k, w);
    NewestIsNewest(v, k);
    NewestIsUnique(v, w, k, row, Newest(v, k), Lookup(t, k));
    BranchOutcome(t, Qualified(v, rank), k);
  }

  lemma BranchOutcome(t: Table, src: File, k: Key)
    ensures Lookup(MergeInto(t, src), k) == Outcome(Lookup(t, k), SourceRow(src, k))
  {
    SourceRowFound(src, k);
    assert SourceRow(src, k).Some? ==> k in KeysOf(src);
  }

  // ----- MERGE refines replay -----

  predicate InCommitOrder(es: seq<Change>) {
    forall i, j | 0 <= i < j < |es| :: ToNumber(es[i].commit) <= ToNumber(es[j].commit)
  }

  lemma {:induction false} ReplayOutcome(t: Table, es: seq<Change>, k: Key)
    requires InCommitOrder(es)
    ensures Lookup(Replay(t, es), k) == Outcome(Lookup(t, k), Newest(es, k))
  {
    if es != [] {
      var n := |es| - 1;
      ReplayOutcome(t, es[..n], k);
      NewestIsNewest(es[..n], k);
    }
  }

  // Merging a file is replaying its events above the checkpoint in commit order, whatever order
  // the file holds them in and however SQL numbers ties.
  lemma MergeRefinesReplay(t: Table, f: File, checkpoint: nat, w: nat, t2: Table, es: seq<Change>)
    requires Stamped(f, w) && Consistent(f) && MergeStatement(t, f, checkpoint, t2)
    requires multiset(es) == multiset(Visible(f, checkpoint)) && InCommitOrder(es)
    ensures t2 == Replay(t, es)
  {
    var v := Visible(f, checkpoint);
    forall c ensures c in es <==> c in v {
      assert c in multiset(es) <==> c in multiset(v);
    }
    forall k: Key ensures Lookup(t2, k) == Lookup(Replay(t, es), k) {
      MergeOutcome(t, f, checkpoint, w, t2, k);
      ReplayOutcome(t, es, k);
      NewestIsNewest(v, k);
      NewestIsNewest(es, k);
      NewestIsUnique(v, w, k, Newest(v, k), Newest(es, k), Lookup(t, k));
    }
    SameLookups(t2, Replay(t, es));
  }

  // In a file of canonical timestamps the row of every key that is greatest as text says what the
  // newest says.
  ghost predicate GreatestIsAsNewest(v: File) {
    forall c | c in v :: Outcome(None, Greatest(v, c.key)) == Outcome(None, Newest(v, c.key))
  }

  // Exactly then merging the file is replaying it.
  lemma ReplayIff(t: Table, f: File, checkpoint: nat, es: seq<Change>)
    requires Consistent(f) && forall c | c in f :: Canonical(c.commit)
    requires multiset(es) == multiset(Visible(f, checkpoint)) && InCommitOrder(es)
    ensures exists t2 :: MergeStatement(t, f, checkpoint, t2)
    ensures (forall t2 | MergeStatement(t, f, checkpoint, t2) :: t2 == Replay(t, es)) <==> GreatestIsAsNewest(Visible(f, checkpoint))
  {
    var some := MergeHasResult(t, f, checkpoint);
    forall t2 | MergeStatement(t, f, checkpoint, t2)
      ensures t2 == Replay(t, es) <==> GreatestIsAsNewest(Visible(f, checkpoint))
    {
      ResultIsReplayIff(t, f, checkpoint, es, t2);
    }
  }

  lemma MergeHasResult(t: Table, f: File, checkpoint: nat) returns (t2: Table)
    ensures MergeStatement(t, f, checkpoint, t2)
  {
    var rank := RowNumbering(Visible(f, checkpoint));
    t2 := MergeInto(t, Qualified(Visible(f, checkpoint), rank));
  }

  lemma ResultIsReplayIff(t: Table, f: File, checkpoint: nat, es: seq<Change>, t2: Table)
    requires Consistent(f) && forall c | c in f :: Canonical(c.commit)
    requires multiset(es) == multiset(Visible(f, checkpoint)) && InCommitOrder(es)
    requires MergeStatement(t, f, checkpoint, t2)
    ensures t2 == Replay(t, es) <==> GreatestIsAsNewest(Visible(f, checkpoint))
  {
    var v := Visible(f, checkpoint);
    forall k: Key
      ensures Lookup(t2, k) == Outcome(Lookup(t, k), Greatest(v, k))
      ensures Lookup(Replay(t, es), k) == Outcome(Lookup(t, k), Newest(v, k))
      ensures Greatest(v, k).Some? <==> Newest(v, k).Some?
    {
      MergeOutcomeByText(t, f, checkpoint, t2, k);
      ReplayShowsNewest(t, f, checkpoint, es, k);
      KeyAgrees(v, k);
    }
    forall c | c in v ensures Greatest(v, c.key).Some? {
      GreatestIsGreatest(v, c.key);
    }
    hide MergeStatement, Visible, Greatest, Newest, Replay, Consistent, InCommitOrder;
    if GreatestIsAsNewest(v) {
      forall k: Key ensures Lookup(t2, k) == Lookup(Replay(t, es), k) {
        if Greatest(v, k).Some? {
          SomeRowOf(v, k);
        }
      }
      SameLookups(t2, Replay(t, es));
    }
  }

  lemma SomeRowOf(v: File, k: Key)
    requires Greatest(v, k).Some?
    ensures exists c :: c in v && c.key == k
  {
    GreatestIsGreatest(v, k);
  }

  lemma KeyAgrees(v: File, k: Key)
    ensures Greatest(v, k).Some? <==> Newest(v, k).Some?
  {
    GreatestIsGreatest(v, k);
    NewestIsNewest(v, k);
  }

  lemma ReplayShowsNewest(t: Table, f: File, checkpoint: nat, es: seq<Change>, k: Key)
    requires Consistent(f) && forall c | c in f :: Canonical(c.commit)
    requires multiset(es) == multiset(Visible(f, checkpoint)) && InCommitOrder(es)
    ensures Lookup(Replay(t, es), k) == Outcome(Lookup(t, k), Newest(Visible(f, checkpoint), k))
  {
    var v := Visible(f, checkpoint);
    forall c ensures c in es <==> c in v {
      assert c in multiset(es) <==> c in multiset(v);
    }
    ReplayOutcome(t, es, k);
    NewestIsNewest(v, k);
    NewestIsNewest(es, k);
    var a, b := Newest(v, k), Newest(es, k);
    if a.Some? && b.Some? {
      CanonicalIsUnique(a.value.commit, b.value.commit);
    }
  }

  // ----- There is always a row numbering -----

  // The rows of key k from rank p on are those below the commit text.
  ghost predicate BelowFrom(v: File, rank: seq<nat>, k: Key, commit: string, p: nat)
    requires |rank| == |v|
  {
    forall i | 0 <= i < |v| && v[i].key == k && rank[i] >= p :: TextLess(v[i].commit, commit)
  }

  // Rank p for c, between the ranks of k that are not below it and those that are.
  ghost predicate Fits(v: File, rank: seq<nat>, c: Change, p: nat)
    requires |rank| == |v|
  {
    && 1 <= p && BelowFrom(v, rank, c.key, c.commit, p)
    && (p > 1 ==> exists q :: 0 <= q < |v| && v[q].key == c.key && rank[q] == p - 1 && !TextLess(v[q].commit, c.commit))
  }

  // Where a row goes among the ranks of its key.
  lemma InsertRank(v: File, rank: seq<nat>, c: Change) returns (p: nat)
    requires IsRowNumbering(v, rank) && forall i | 0 <= i < |v| :: rank[i] <= |v|
    ensures p <= |v| + 1 && Fits(v, rank, c, p)
  {
    p := |v| + 1;
    while p > 1 && BelowFrom(v, rank, c.key, c.commit, p - 1)
      invariant 1 <= p <= |v| + 1 && BelowFrom(v, rank, c.key, c.commit, p)
    {
      p := p - 1;
    }
  }

  function Shift(v: File, rank: seq<nat>, k: Key, p: nat): (r: seq<nat>)
    requires |rank| == |v|
    ensures |r| == |v| && forall i | 0 <= i < |v| :: r[i] == if v[i].key == k && rank[i] >= p then rank[i] + 1 else rank[i]
  {
    seq(|v|, i requires 0 <= i < |v| => if v[i].key == k && rank[i] >= p then rank[i] + 1 else rank[i])
  }

  lemma FitsInOrder(v: File, rank: seq<nat>, c: Change, p: nat, i: nat)
    requires IsRowNumbering(v, rank) && Fits(v, rank, c, p) && i < |v| && v[i].key == c.key
    ensures TextLess(v[i].commit, c.commit) ==> p <= rank[i]
    ensures TextLess(c.commit, v[i].commit) ==> rank[i] < p
  {
    TextLessIsTotal(v[i].commit, c.commit);
    if TextLess(v[i].commit, c.commit) && rank[i] < p {
      var q :| 0 <= q < |v| && v[q].key == c.key && rank[q] == p - 1 && !TextLess(v[q].commit, c.commit);
      TextLessSplits(v[i].commit, c.commit, v[q].commit);
    }
  }

  lemma NewHasPredecessor(v: File, rank: seq<nat>, c: Change, p: nat) returns (q: nat)
    requires |rank| == |v| && Fits(v, rank, c, p) && p > 1
    ensures q < |v| && v[q].key == c.key && Shift(v, rank, c.key, p)[q] == p - 1
  {
    hide TextLess, BelowFrom, Shift;
    q :| 0 <= q < |v| && v[q].key == c.key && rank[q] == p - 1 && !TextLess(v[q].commit, c.commit);
  }

  lemma OldHasPredecessor(v: File, rank: seq<nat>, k: Key, p: nat, i: nat) returns (j: nat)
    requires IsRowNumbering(v, rank) && i < |v| && rank[i] > 1 && 1 <= p && !(v[i].key == k && rank[i] == p)
    ensures j < |v| && v[j].key == v[i].key && Shift(v, rank, k, p)[j] == Shift(v, rank, k, p)[i] - 1
  {
    j :| 0 <= j < |v| && v[j].key == v[i].key && rank[j] == rank[i] - 1;
    hide IsRowNumbering, Shift;
  }

  lemma HasPredecessor(v: File, rank: seq<nat>, c: Change, p: nat, i: nat)
    requires IsRowNumbering(v, rank) && Fits(v, rank, c, p)
    requires var r := Shift(v, rank, c.key, p) + [p]; i < |r| && r[i] > 1
    ensures var u, r := v + [c], Shift(v, rank, c.key, p) + [p];
            exists j :: 0 <= j < |u| && u[j].key == u[i].key && r[j] == r[i] - 1
  {
    assert 1 <= p && |rank| == |v|;
    var u, r, n := v + [c], Shift(v, rank, c.key, p) + [p], |v|;
    if i == n {
      var q := NewHasPredecessor(v, rank, c, p);
      hide IsRowNumbering, Fits, Shift;
      IsPredecessor(u, r, i, q);
    } else if v[i].key == c.key && rank[i] == p {
      hide IsRowNumbering, Fits, Shift;
      IsPredecessor(u, r, i, n);
    } else {
      hide Fits, Shift;
      var j := OldHasPredecessor(v, rank, c.key, p, i);
      hide IsRowNumbering;
      IsPredecessor(u, r, i, j);
    }
  }

  lemma IsPredecessor(u: File, r: seq<nat>, i: nat, j: nat)
    requires i < |u| == |r| && j < |u| && u[j].key == u[i].key && r[i] > 0 && r[j] == r[i] - 1
    ensures exists j :: 0 <= j < |u| && u[j].key == u[i].key && r[j] == r[i] - 1
  {
  }

  lemma OrderKept(v: File, rank: seq<nat>, c: Change, p: nat, i: nat, j: nat)
    requires IsRowNumbering(v, rank) && Fits(v, rank, c, p)
    requires i <= |v| && j <= |v| && (v + [c])[i].key == (v + [c])[j].key
    ensures var u, r := v + [c], Shift(v, rank, c.key, p) + [p];
            (i != j ==> r[i] != r[j]) && (TextLess(u[j].commit, u[i].commit) ==> r[i] < r[j])
  {
    hide TextLess, Fits;
    if i == |v| && j == |v| {
      TextLessIsTotal(c.commit, c.commit);
    } else if i == |v| {
      FitsInOrder(v, rank, c, p, j);
    } else if j == |v| {
      FitsInOrder(v, rank, c, p, i);
    } else {
      TextLessIsTotal(v[i].commit, v[i].commit);
    }
  }

  lemma AppendRank(v: File, rank: seq<nat>, c: Change, p: nat)
    requires IsRowNumbering(v, rank) && Fits(v, rank, c, p)
    ensures IsRowNumbering(v + [c], Shift(v, rank, c.key, p) + [p])
  {
    var u, r := v + [c], Shift(v, rank, c.key, p) + [p];
    forall i, j | 0 <= i < |u| && 0 <= j < |u| && u[i].key == u[j].key
      ensures (i != j ==> r[i] != r[j]) && (TextLess(u[j].commit, u[i].commit) ==> r[i] < r[j])
    {
      OrderKept(v, rank, c, p, i, j);
    }
    forall i | 0 <= i < |u| && r[i] > 1 ensures exists j :: 0 <= j < |u| && u[j].key == u[i].key && r[j] == r[i] - 1 {
      HasPredecessor(v, rank, c, p, i);
    }
    hide TextLess, BelowFrom;
  }

  lemma OneMoreRank(v: File, rank: seq<nat>, c: Change) returns (rank2: seq<nat>)
    requires IsRowNumbering(v, rank) && forall i | 0 <= i < |v| :: rank[i] <= |v|
    ensures IsRowNumbering(v + [c], rank2) && |rank2| == |v| + 1 && forall i | 0 <= i <= |v| :: rank2[i] <= |v| + 1
  {
    assert |rank| == |v|;
    hide IsRowNumbering, Fits, Shift;
    var p := InsertRank(v, rank, c);
    AppendRank(v, rank, c, p);
    rank2 := Shift(v, rank, c.key, p) + [p];
  }

  lemma {:induction false} RowNumbering(v: File) returns (rank: seq<nat>)
    ensures IsRowNumbering(v, rank) && |rank| == |v| && forall i | 0 <= i < |v| :: rank[i] <= |v|
  {
    if v == [] {
      rank := [];
    } else {
      hide IsRowNumbering;
      var n := |v| - 1;
      rank := RowNumbering(v[..n]);
      rank := OneMoreRank(v[..n], rank, v[n]);
      assert v == v[..n] + [v[n]];
    }
  }

  lemma SameLookups(a: Table, b: Table)
    requires forall k: Key :: Lookup(a, k) == Lookup(b, k)
    ensures a == b
  {
    forall k ensures k in a <==> k in b {
      assert Lookup(a, k) == Lookup(b, k);
    }
    forall k | k in a ensures a[k] == b[k] {
      assert Lookup(a, k) == Lookup(b, k);
    }
  }

  lemma VisibleOne(a: Change)
    ensures Visible([a], 0) == if ToNumber(a.commit) > 0 then [a] else []
  {
    assert [a][1..] == [];
  }

  lemma VisibleTwo(a: Change, b: Change)
    requires ToNumber(a.commit) > 0 && ToNumber(b.commit) > 0
    ensures Visible([a, b], 0) == [a, b]
  {
    assert [a, b][1..] == [b];
    VisibleOne(b);
  }

  lemma NewestOfTwo(a: Change, b: Change)
    requires a.key == b.key && ToNumber(a.commit) <= ToNumber(b.commit)
    ensures Newest([a, b], a.key) == Some(b)
  {
    hide ToNumber;
    assert [a, b][..1] == [a] && [a][..0] == [];
    assert Newest([a], a.key) == Some(a);
  }

  lemma NumberTwo(a: Change, b: Change)
    requires a.key == b.key && TextLess(b.commit, a.commit)
    requires !TextLess(a.commit, b.commit) && !TextLess(a.commit, a.commit) && !TextLess(b.commit, b.commit)
    ensures IsRowNumbering([a, b], [1, 2])
  {
    hide TextLess;
    var v, rank: seq<nat> := [a, b], [1, 2];
    assert v[0].key == v[1].key && rank[0] == rank[1] - 1;
  }

  lemma QualifiedTwo(a: Change, b: Change)
    ensures Qualified([a, b], [1, 2]) == [a]
  {
    var rank: seq<nat> := [1, 2];
    assert [a, b][1..] == [b] && rank[1..] == [2] && [b][1..] == [] && rank[1..][1..] == [];
    assert Qualified([b], [2]) == [];
  }

  // Of two rows of one key the statement keeps the one whose timestamp is greater as text.
  lemma KeepsTextGreatest(a: Change, b: Change)
    requires a.key == b.key && a.flag != "D" && ToNumber(a.commit) > 0 && ToNumber(b.commit) > 0
    requires TextLess(b.commit, a.commit) && !TextLess(a.commit, b.commit) && !TextLess(a.commit, a.commit) && !TextLess(b.commit, b.commit)
    ensures MergeStatement(map[], [a, b], 0, map[a.key := a.row])
  {
    VisibleTwo(a, b);
    NumberTwo(a, b);
    QualifiedTwo(a, b);
    hide TextLess, Visible, IsRowNumbering, Qualified;
    var merged := MergeInto(map[], [a]);
    forall k: Key ensures Lookup(merged, k) == Lookup(map[a.key := a.row], k) {
      BranchOutcome(map[], [a], k);
      assert [a][1..] == [];
    }
    SameLookups(merged, map[a.key := a.row]);
  }

  // With commit timestamps of different widths that can be the older row: "9" ranks before "10".
  lemma UnequalWidthsKeepOlder(k: Key, older: Row, newer: Row)
    ensures var a, b := Change("I", k, "9", older), Change("I", k, "10", newer);
            && MergeStatement(map[], [a, b], 0, map[k := older])
            && Newest(Visible([a, b], 0), k) == Some(b)
  {
    var a, b := Change("I", k, "9", older), Change("I", k, "10", newer);
    CommitNumbers();
    VisibleTwo(a, b);
    NewestOfTwo(a, b);
    KeepsTextGreatest(a, b);
  }

  lemma CommitNumbers()
    ensures ToNumber("9") == 9 && ToNumber("10") == 10
    ensures TextLess("10", "9") && !TextLess("9", "10") && !TextLess("9", "9") && !TextLess("10", "10")
  {
    assert "9"[1..] == "" && "10"[1..] == "0" && "0"[1..] == "";
    assert Pow10(0) == 1 && Pow10(1) == 10;
    assert ToNumber("0") == 0;
    assert !TextLess("", "") && !TextLess("0", "0");
  }

  // ----- Many files, and starting over in the middle -----

  ghost predicate Chain(tables: seq<Table>, fs: seq<File>, checkpoint: nat) {
    |tables| == |fs| + 1 && forall i | 0 <= i < |fs| :: MergeStatement(tables[i], fs[i], checkpoint, tables[i + 1])
  }

  // t2 is a table that merging the files one after another into t may leave.
  ghost predicate MergesTo(t: Table, fs: seq<File>, checkpoint: nat, t2: Table) {
    exists tables :: Chain(tables, fs, checkpoint) && tables[0] == t && tables[|fs|] == t2
  }

  // The newest visible row of k in the last file that has one.
  function LastWriter(fs: seq<File>, checkpoint: nat, k: Key): Option<Change> {
    if fs == [] then None
    else
      var c := Newest(Visible(fs[|fs| - 1], checkpoint), k);
      if c.Some? then c else LastWriter(fs[..|fs| - 1], checkpoint, k)
  }

  lemma {:induction false} LastFileWins(tables: seq<Table>, fs: seq<File>, checkpoint: nat, w: nat, k: Key)
    requires forall f | f in fs :: Stamped(f, w) && Consistent(f)
    requires Chain(tables, fs, checkpoint)
    ensures Lookup(tables[|fs|], k) == Outcome(Lookup(tables[0], k), LastWriter(fs, checkpoint, k))
  {
    if fs != [] {
      var n := |fs| - 1;
      LastFileWins(tables[..n + 1], fs[..n], checkpoint, w, k);
      MergeOutcome(tables[n], fs[n], checkpoint, w, tables[n + 1], k);
    }
  }

  lemma {:induction false} LastWriterOfTwo(a: seq<File>, b: seq<File>, checkpoint: nat, k: Key)
    ensures LastWriter(a + b, checkpoint, k) ==
            if LastWriter(b, checkpoint, k).Some? then LastWriter(b, checkpoint, k) else LastWriter(a, checkpoint, k)
  {
    if b == [] {
      assert a + b == a;
    } else {
      assert (a + b)[..|a + b| - 1] == a + b[..|b| - 1];
      LastWriterOfTwo(a, b[..|b| - 1], checkpoint, k);
    }
  }

  lemma MergesToOutcome(t: Table, fs: seq<File>, checkpoint: nat, w: nat, t2: Table, k: Key)
    requires forall f | f in fs :: Stamped(f, w) && Consistent(f)
    requires MergesTo(t, fs, checkpoint, t2)
    ensures Lookup(t2, k) == Outcome(Lookup(t, k), LastWriter(fs, checkpoint, k))
  {
    var tables :| Chain(tables, fs, checkpoint) && tables[0] == t && tables[|fs|] == t2;
    LastFileWins(tables, fs, checkpoint, w, k);
  }

  // A crash after merging `before + again` restarts from cursors that only cover `before`: the
  // rerun merges `again` a second time and goes on. The table ends as if nothing had happened.
  lemma CrashAbsorption(t: Table, before: seq<File>, again: seq<File>, after: seq<File>,
                        checkpoint: nat, w: nat, crashed: Table, rerun: Table, direct: Table)
    requires forall f | f in before + again + after :: Stamped(f, w) && Consistent(f)
    requires MergesTo(t, before + again, checkpoint, crashed)
    requires MergesTo(crashed, again + after, checkpoint, rerun)
    requires MergesTo(t, before + again + after, checkpoint, direct)
    ensures rerun == direct
  {
    forall k: Key ensures Lookup(rerun, k) == Lookup(direct, k) {
      MergesToOutcome(t, before + again, checkpoint, w, crashed, k);
      MergesToOutcome(crashed, again + after, checkpoint, w, rerun, k);
      MergesToOutcome(t, before + again + after, checkpoint, w, direct, k);
      LastWriterOfTwo(before, again, checkpoint, k);
      LastWriterOfTwo(again, after, checkpoint, k);
      LastWriterOfTwo(before + again, after, checkpoint, k);
    }
    SameLookups(rerun, direct);
  }
}
