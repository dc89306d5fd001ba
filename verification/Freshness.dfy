// What the Snowflake table holds: for every key the source row at some time not before the
// checkpoint, and how merging files, running DDLs and finishing a scan keep or advance that.
module Freshness {
  import opened Wrappers
  import opened TextOrder
  import opened Merge
  import opened Statements
  import opened History
  import opened Discovery
  import opened Replication

  // What the target table has: its rows, the version they belong to, and how far the next version's
  // DDL has changed them: `pass` statements in this scan, `partial` in any.
  datatype Held = Held(rows: Table, version: nat, partial: Ddl, pass: nat)

  function PassOf(t: TableState): nat { if t.stage.Running? then t.stage.pass else 0 }

  function HeldBy(t: TableState): Held { Held(t.rows, t.applied, t.partial, PassOf(t)) }

  // The row of k is the source row at time `at`, changed by the first j statements.
  ghost predicate Shows(src: Source, h: Held, k: Key, at: nat, j: nat) {
    && Under(src, h.version, at) && h.pass <= j <= |h.partial|
    && Lookup(h.rows, k) == OnRow(h.partial[..j], ValueAt(src, k, at))
  }

  ghost predicate ShowsFrom(src: Source, h: Held, k: Key, from: nat) {
    exists at: nat, j: nat :: from <= at && Shows(src, h, k, at, j)
  }

  ghost predicate Untouched(log: Log, from: nat, to: nat, k: Key) {
    forall i | from <= i < to && i < |log| :: !Has(log[i].file, k)
  }

  function Home(src: Source, t: TableState, k: Key): Scope { Scope(t.applied, src.home(k, t.applied)) }

  // No row is older than the checkpoint, nor than the rows loaded at first.
  function Oldest(src: Source, c: nat): nat { Later(c, src.origin) }

  // Unless files with k past these cursors have been merged already (before a crash), the table
  // shows k at least as new as its last row before the cursors.
  ghost predicate Reflects(src: Source, t: TableState, cursors: map<Scope, Name>, c: nat, k: Key) {
    var s := Home(src, t, k);
    ReflectsTo(src, HeldBy(t), LogOf(t, s), Position(LogOf(t, s), CursorOf(cursors, s)), CountOf(t.merged, s), Oldest(src, c), k)
  }

  ghost predicate ReflectsTo(src: Source, h: Held, log: Log, p: nat, merged: nat, oldest: nat, k: Key) {
    p <= |log| && (Untouched(log, p, merged, k) ==> ShowsFrom(src, h, k, Later(oldest, LastTime(log[..p], k))))
  }

  ghost predicate NoDdl(src: Source, after: nat, upto: nat) {
    forall u | u in src.ddls :: !(after < u <= upto)
  }

  ghost predicate IsNext(src: Source, v: nat, next: nat) {
    next in src.ddls && v < next && forall u | u in src.ddls :: !(v < u < next)
  }

  ghost predicate Fresh(src: Source, t: TableState, c: nat) {
    && (src.origin <= c || src.origin == src.start) && t.applied in src.ddls && NoDdl(src, t.applied, c)
    && (forall k: Key :: ShowsFrom(src, HeldBy(t), k, Oldest(src, c)))
    && (forall k: Key :: Reflects(src, t, t.durable.cursors, c, k))
    && (forall k: Key :: Reflects(src, t, t.cursors, c, k))
  }

  // Statements run ahead of the watermark are the first ones of the next version's DDL, and the
  // columns are as they left them.
  ghost predicate Altered(src: Source, t: TableState) {
    && PassOf(t) <= |t.partial|
    && (t.partial != [] ==> exists next :: IsNext(src, t.applied, next) && next in t.schemas && t.partial <= src.ddls[next])
    && exists before: Columns :: RunAll(before, StatementsOf(t.partial)) == Some(t.columns)
  }

  // How far streams were consumed and merged.
  ghost predicate CursorsValid(t: TableState, cursors: map<Scope, Name>) {
    forall s: Scope :: IsCursor(LogOf(t, s), CursorOf(cursors, s)) && Position(LogOf(t, s), CursorOf(cursors, s)) <= CountOf(t.merged, s)
  }

  ghost predicate Progress(src: Source, t: TableState) {
    && CursorsValid(t, t.durable.cursors) && CursorsValid(t, t.cursors)
    && (forall s: Scope :: Position(LogOf(t, s), CursorOf(t.durable.cursors, s)) <= Position(LogOf(t, s), CursorOf(t.cursors, s)))
    && (forall s: Scope :: CountOf(t.merged, s) <= |LogOf(t, s)|)
    && (forall s: Scope :: CountOf(t.merged, s) > 0 ==> src.snapshot <= s.version <= t.applied)
    && (forall s: Scope :: src.snapshot <= s.version < t.applied ==> CountOf(t.merged, s) == |LogOf(t, s)|)
    && t.applied in src.ddls && src.snapshot <= t.applied && (t.applied == src.snapshot || t.applied in t.schemas)
  }

  // ----- Merging one file -----

  lemma {:induction false} LastRowIsRow(f: File, k: Key)
    requires Has(f, k)
    ensures exists c :: c in f && c.key == k && ToNumber(c.commit) == LastRow(f, k)
  {
    if f[|f| - 1].key != k {
      assert f == f[..|f| - 1] + [f[|f| - 1]];
      LastRowIsRow(f[..|f| - 1], k);
    }
  }

  lemma GenuineIsConsistent(src: Source, w: nat, s: Scope, f: File)
    requires Genuine(src, w, s, f)
    ensures Stamped(f, w) && Consistent(f)
  {
  }

  // The newest visible row of k is a change the source made, and not older than the last row of k.
  lemma NewestIsChange(src: Source, w: nat, s: Scope, f: File, checkpoint: nat, k: Key)
    requires Genuine(src, w, s, f)
    ensures match Newest(Visible(f, checkpoint), k)
            case None => Has(f, k) ==> LastRow(f, k) <= checkpoint
            case Some(c) =>
              var e := ToNumber(c.commit);
              && Has(f, k) && checkpoint < e && src.start < e && LastRow(f, k) <= e && Under(src, s.version, e)
              && (k, e) in src.changes && src.changes[(k, e)] == Image(c)
  {
    var v := Visible(f, checkpoint);
    NewestIsNewest(v, k);
    hide ToNumber, Under, LastRow;
    if Has(f, k) {
      LastRowIsRow(f, k);
      var last :| last in f && last.key == k && ToNumber(last.commit) == LastRow(f, k);
      assert last in v <==> LastRow(f, k) > checkpoint;
    }
  }

  lemma ChangedValue(src: Source, k: Key, e: nat)
    requires Sound(src) && (k, e) in src.changes
    ensures ValueAt(src, k, e) == src.changes[(k, e)]
  {
  }

  // What merging a file of stream s does to key k: nothing, or it shows the key at the commit
  // time of a row above the checkpoint that is not older than the key's last row in the file.
  lemma MergedKey(src: Source, w: nat, s: Scope, f: File, checkpoint: nat, rows: Table, rows2: Table, k: Key)
    returns (e: nat)
    requires Genuine(src, w, s, f) && MergeStatement(rows, f, checkpoint, rows2) && Sound(src)
    ensures || (Lookup(rows2, k) == Lookup(rows, k) && (Has(f, k) ==> LastRow(f, k) <= checkpoint))
            || (Has(f, k) && checkpoint < e && src.start < e && LastRow(f, k) <= e && Under(src, s.version, e)
                && Lookup(rows2, k) == ValueAt(src, k, e))
  {
    GenuineIsConsistent(src, w, s, f);
    MergeOutcome(rows, f, checkpoint, w, rows2, k);
    NewestIsChange(src, w, s, f, checkpoint, k);
    hide Genuine, MergeStatement, Sound, Newest, Visible, Has, LastRow, ToNumber, Under, ValueAt;
    e := 0;
    match Newest(Visible(f, checkpoint), k)
    case None =>
    case Some(c) =>
      e := ToNumber(c.commit);
      ChangedValue(src, k, e);
  }

  // What the table shows after the merge: the merged row as it is, or the old one.
  lemma MergedShows(src: Source, h: Held, rows2: Table, k: Key, from: nat, e: nat, merged: bool)
    requires h.pass == 0 && (!merged ==> ShowsFrom(src, h, k, from) && Lookup(rows2, k) == Lookup(h.rows, k))
    requires merged ==> from <= e && Under(src, h.version, e) && Lookup(rows2, k) == ValueAt(src, k, e)
    ensures ShowsFrom(src, h.(rows := rows2), k, from)
  {
    var h2 := h.(rows := rows2);
    if merged {
      assert h.partial[..0] == [];
      assert Shows(src, h2, k, e, 0);
    } else {
      var at: nat, j: nat :| from <= at && Shows(src, h, k, at, j);
      assert Shows(src, h2, k, at, j);
    }
  }

  // One merge step, stated without the queue: the file after the cursor of stream s is merged.
  ghost predicate Merged(src: Source, w: nat, c: nat, t: TableState, t2: TableState, s: Scope) {
    var log, p := LogOf(t, s), Position(LogOf(t, s), CursorOf(t.cursors, s));
    && s.version == t.applied && Dated(log) && p < |log| && Genuine(src, w, s, log[p].file)
    && MergeStatement(t.rows, log[p].file, c, t2.rows) && PassOf(t) == 0 && PassOf(t2) == 0
    && t2 == t.(rows := t2.rows, cursors := t.cursors[s := NameOf(log, p)],
                merged := t.merged[s := Later(CountOf(t.merged, s), p + 1)], stage := t2.stage)
  }

  lemma MergeKeepsFresh(src: Source, w: nat, c: nat, t: TableState, t2: TableState, s: Scope)
    requires Sound(src) && Fresh(src, t, c) && Progress(src, t) && Merged(src, w, c, t, t2, s)
    ensures Fresh(src, t2, c)
  {
    forall k: Key
      ensures ShowsFrom(src, HeldBy(t2), k, Oldest(src, c))
      ensures Reflects(src, t2, t2.durable.cursors, c, k)
      ensures Reflects(src, t2, t2.cursors, c, k)
    {
      if Home(src, t, k) == s {
        MergedCursor(src, w, c, t, t2, s, k);
      } else {
        MergedElsewhere(src, w, c, t, t2, s, k);
      }
    }
  }

  lemma MergedElsewhere(src: Source, w: nat, c: nat, t: TableState, t2: TableState, s: Scope, k: Key)
    requires Sound(src) && Fresh(src, t, c) && Merged(src, w, c, t, t2, s)
    requires Home(src, t, k) != s
    ensures ShowsFrom(src, HeldBy(t2), k, Oldest(src, c))
    ensures Reflects(src, t2, t2.durable.cursors, c, k)
    ensures Reflects(src, t2, t2.cursors, c, k)
  {
    var log, p := LogOf(t, s), Position(LogOf(t, s), CursorOf(t.cursors, s));
    assert !Has(log[p].file, k);
    var e := MergedKey(src, w, s, log[p].file, c, t.rows, t2.rows, k);
    var h := Home(src, t, k);
    assert LogOf(t2, h) == LogOf(t, h) && CursorOf(t2.cursors, h) == CursorOf(t.cursors, h);
    assert CountOf(t2.merged, h) == CountOf(t.merged, h);
    assert ShowsFrom(src, HeldBy(t), k, Oldest(src, c));
    assert Reflects(src, t, t.durable.cursors, c, k) && Reflects(src, t, t.cursors, c, k);
    hide MergeStatement, Genuine, Sound, Shows, Position;
    forall from: nat | ShowsFrom(src, HeldBy(t), k, from) ensures ShowsFrom(src, HeldBy(t2), k, from) {
      MergedShows(src, HeldBy(t), t2.rows, k, from, e, false);
    }
  }

  // A key with rows in the file shows at least the last of them, any other shows what it showed.
  lemma MergedHome(src: Source, w: nat, c: nat, t: TableState, t2: TableState, s: Scope, k: Key)
    requires Sound(src) && Fresh(src, t, c) && Merged(src, w, c, t, t2, s) && Home(src, t, k) == s
    ensures MergedFile(src, HeldBy(t), HeldBy(t2), LogOf(t, s)[Position(LogOf(t, s), CursorOf(t.cursors, s))].file, Oldest(src, c), k)
  {
    var f := LogOf(t, s)[Position(LogOf(t, s), CursorOf(t.cursors, s))].file;
    var e := MergedKey(src, w, s, f, c, t.rows, t2.rows, k);
    var merged := !(Lookup(t2.rows, k) == Lookup(t.rows, k) && (Has(f, k) ==> LastRow(f, k) <= c));
    assert HeldBy(t2) == HeldBy(t).(rows := t2.rows) && ShowsFrom(src, HeldBy(t), k, Oldest(src, c));
    hide Merged, MergeStatement, Genuine, Sound, LastRow, Has, Under, ValueAt, Shows, ShowsFrom, Position;
    if Has(f, k) {
      MergedShows(src, HeldBy(t), t2.rows, k, Later(Oldest(src, c), LastRow(f, k)), e, merged);
    } else {
      forall from: nat | ShowsFrom(src, HeldBy(t), k, from) ensures ShowsFrom(src, HeldBy(t2), k, from) {
        MergedShows(src, HeldBy(t), t2.rows, k, from, e, false);
      }
    }
  }

  lemma ShowsSince(src: Source, h: Held, k: Key, from: nat, more: nat)
    requires ShowsFrom(src, h, k, Later(from, more))
    ensures ShowsFrom(src, h, k, from)
  {
  }

  lemma MergedMoves(src: Source, w: nat, c: nat, t: TableState, t2: TableState, s: Scope)
    requires Merged(src, w, c, t, t2, s) && Progress(src, t)
    ensures var log, p := LogOf(t, s), Position(LogOf(t, s), CursorOf(t.cursors, s));
            && p < |log| && LogOf(t2, s) == log && t2.applied == t.applied && t2.durable == t.durable
            && Position(log, CursorOf(t.durable.cursors, s)) <= p && Position(log, CursorOf(t2.cursors, s)) == p + 1
            && CountOf(t2.merged, s) == Later(CountOf(t.merged, s), p + 1)
  {
    hide MergeStatement, Genuine;
    PositionOfName(LogOf(t, s), Position(LogOf(t, s), CursorOf(t.cursors, s)));
  }

  // What merging file p shows of k, against cursors at p and before.
  ghost predicate MergedFile(src: Source, h: Held, h2: Held, f: File, oldest: nat, k: Key) {
    if Has(f, k) then ShowsFrom(src, h2, k, Later(oldest, LastRow(f, k)))
    else forall from: nat | ShowsFrom(src, h, k, from) :: ShowsFrom(src, h2, k, from)
  }

  lemma ReflectsNext(src: Source, h: Held, h2: Held, log: Log, p: nat, m: nat, oldest: nat, k: Key)
    requires p < |log| && ReflectsTo(src, h, log, p, m, oldest, k) && MergedFile(src, h, h2, log[p].file, oldest, k)
    ensures ReflectsTo(src, h2, log, p + 1, Later(m, p + 1), oldest, k)
  {
    LastAfter(log, p, k);
    StillUntouched(log, p, p, m, Later(m, p + 1), k);
    hide Has, LastRow, LastTime, Untouched, ShowsFrom;
  }

  lemma ReflectsBehind(src: Source, h: Held, h2: Held, log: Log, pd: nat, p: nat, m: nat, oldest: nat, k: Key)
    requires pd <= p < |log| && ReflectsTo(src, h, log, pd, m, oldest, k) && MergedFile(src, h, h2, log[p].file, oldest, k)
    ensures ReflectsTo(src, h2, log, pd, Later(m, p + 1), oldest, k)
  {
    StillUntouched(log, pd, p, m, Later(m, p + 1), k);
    hide Has, LastRow, LastTime, Untouched, ShowsFrom;
  }

  lemma ReflectsAt(src: Source, t: TableState, cursors: map<Scope, Name>, c: nat, k: Key, s: Scope)
    requires Home(src, t, k) == s
    ensures Reflects(src, t, cursors, c, k) <==>
              ReflectsTo(src, HeldBy(t), LogOf(t, s), Position(LogOf(t, s), CursorOf(cursors, s)), CountOf(t.merged, s), Oldest(src, c), k)
  {
    hide ReflectsTo, Position;
  }

  lemma MergedShowsOldest(src: Source, h: Held, h2: Held, f: File, oldest: nat, k: Key)
    requires MergedFile(src, h, h2, f, oldest, k) && ShowsFrom(src, h, k, oldest)
    ensures ShowsFrom(src, h2, k, oldest)
  {
    hide ShowsFrom, Has, LastRow;
    if Has(f, k) {
      ShowsSince(src, h2, k, oldest, LastRow(f, k));
    }
  }

  lemma MergedCursor(src: Source, w: nat, c: nat, t: TableState, t2: TableState, s: Scope, k: Key)
    requires Sound(src) && Fresh(src, t, c) && Progress(src, t) && Merged(src, w, c, t, t2, s)
    requires Home(src, t, k) == s
    ensures ShowsFrom(src, HeldBy(t2), k, Oldest(src, c))
    ensures Reflects(src, t2, t2.durable.cursors, c, k)
    ensures Reflects(src, t2, t2.cursors, c, k)
  {
    assert ShowsFrom(src, HeldBy(t), k, Oldest(src, c));
    assert Reflects(src, t, t.durable.cursors, c, k) && Reflects(src, t, t.cursors, c, k);
    hide Merged, MergedFile, Sound, Fresh, Progress, Reflects, ReflectsTo, ShowsFrom, Position, LogOf, CursorOf, CountOf, HeldBy, Oldest, Later;
    var log, p := LogOf(t, s), Position(LogOf(t, s), CursorOf(t.cursors, s));
    MergedHome(src, w, c, t, t2, s, k);
    MergedMoves(src, w, c, t, t2, s);
    ReflectsAt(src, t, t.cursors, c, k, s);
    ReflectsAt(src, t, t.durable.cursors, c, k, s);
    ReflectsAt(src, t2, t2.cursors, c, k, s);
    ReflectsAt(src, t2, t2.durable.cursors, c, k, s);
    MergedShowsOldest(src, HeldBy(t), HeldBy(t2), log[p].file, Oldest(src, c), k);
    ReflectsNext(src, HeldBy(t), HeldBy(t2), log, p, CountOf(t.merged, s), Oldest(src, c), k);
    ReflectsBehind(src, HeldBy(t), HeldBy(t2), log, Position(log, CursorOf(t.durable.cursors, s)), p, CountOf(t.merged, s), Oldest(src, c), k);
  }

  lemma LastAfter(log: Log, p: nat, k: Key)
    requires p < |log|
    ensures LastTime(log[..p + 1], k) == if Has(log[p].file, k) then LastRow(log[p].file, k) else LastTime(log[..p], k)
  {
    assert log[..p + 1][..p] == log[..p];
  }

  // Merging file p, which has k or not, against what is untouched past the cursors.
  lemma StillUntouched(log: Log, pd: nat, p: nat, m: nat, m2: nat, k: Key)
    requires pd <= p < |log| && m2 == Later(m, p + 1)
    ensures Has(log[p].file, k) ==> !Untouched(log, pd, m2, k)
    ensures !Has(log[p].file, k) && Untouched(log, p + 1, m2, k) ==> Untouched(log, p, m, k)
    ensures !Has(log[p].file, k) && Untouched(log, pd, m2, k) ==> Untouched(log, pd, m, k)
  {
  }

  // ----- Running a DDL, statement by statement -----

  lemma {:induction false} PrefixStatements(d: Ddl, m: nat)
    requires m <= |d|
    ensures StatementsOf(d[..m]) == StatementsOf(d)[..m]
  {
  }

  // Statement `pass` of DDL d runs on a table on which `partial` has run: it is the next one of
  // them all, or one of those and repeatable.
  lemma ExecIsNextOrSpent(before: Columns, columns: Columns, d: Ddl, partial: Ddl, pass: nat)
    requires partial <= d && Apart(StatementsOf(d)) && pass <= |partial| && pass < |d|
    requires RunAll(before, StatementsOf(partial)) == Some(columns) && RunOne(columns, d[pass].statement).Some?
    ensures pass < |partial| ==> Repeatable(d[pass].statement) && RunOne(columns, d[pass].statement) == Some(columns)
    ensures RunAll(before, StatementsOf(if pass < |partial| then partial else partial + [d[pass]])) == RunOne(columns, d[pass].statement)
  {
    hide RunAll, RunOne, Apart, StatementsOf, Repeatable;
    assert d[..|partial|] == partial;
    if pass < |partial| {
      PrefixStatements(d, |partial|);
      RunsAgain(before, columns, StatementsOf(d), |partial|, pass);
    } else {
      assert d[..pass + 1] == partial + [d[pass]];
      RunsNext(before, columns, d, pass);
    }
  }

  lemma RunsAgain(before: Columns, columns: Columns, ss: seq<Statement>, m: nat, pass: nat)
    requires Apart(ss) && pass < m <= |ss| && RunAll(before, ss[..m]) == Some(columns) && RunOne(columns, ss[pass]).Some?
    ensures Repeatable(ss[pass]) && RunOne(columns, ss[pass]) == Some(columns)
  {
    hide RunAll, RunOne, Apart;
    PrefixIsSpent(before, ss, m, pass);
  }

  lemma RunsNext(before: Columns, columns: Columns, d: Ddl, pass: nat)
    requires pass < |d| && RunAll(before, StatementsOf(d[..pass])) == Some(columns)
    ensures RunAll(before, StatementsOf(d[..pass + 1])) == RunOne(columns, d[pass].statement)
  {
    hide RunOne;
    assert d[..pass + 1][..pass] == d[..pass];
    var ss := StatementsOf(d[..pass + 1]);
    assert ss == StatementsOf(d[..pass]) + [d[pass].statement];
    assert ss[..|ss| - 1] == StatementsOf(d[..pass]);
  }

  lemma OneMoreStep(d: Ddl, j: nat, r: Option<Row>)
    requires j < |d|
    ensures OnStep(d[j], OnRow(d[..j], r)) == OnRow(d[..j + 1], r)
  {
    assert d[..j + 1][..j] == d[..j];
  }

  lemma LookupAfter(s: Step, t: Table, k: Key)
    ensures Lookup(OnTable(s, t), k) == OnStep(s, Lookup(t, k))
  {
  }

  function PartialAfter(h: Held, d: Ddl): Ddl
    requires h.pass < |d|
  {
    if h.pass < |h.partial| then h.partial else h.partial + [d[h.pass]]
  }

  function HeldAfter(h: Held, d: Ddl): Held
    requires h.pass < |d|
  {
    Held(OnTable(d[h.pass], h.rows), h.version, PartialAfter(h, d), h.pass + 1)
  }

  // A row that j statements have changed, after statement `pass`.
  lemma ExecRow(d: Ddl, partial: Ddl, pass: nat, j: nat, r: Option<Row>)
    requires partial <= d && pass <= j <= |partial| && pass < |d|
    requires Apart(StatementsOf(d)) && Settles(d[pass]) && (pass < |partial| ==> Repeatable(d[pass].statement))
    ensures var j2, partial2 := if j == pass then j + 1 else j, if pass < |partial| then partial else partial + [d[pass]];
            j2 <= |partial2| && OnStep(d[pass], OnRow(partial[..j], r)) == OnRow(partial2[..j2], r)
  {
    assert partial[..j] == d[..j];
    var partial2 := if pass < |partial| then partial else partial + [d[pass]];
    assert partial2 <= d;
    if j == pass {
      OneMoreStep(d, j, r);
      assert partial2[..j + 1] == d[..j + 1];
    } else {
      StepAbsorbed(d, pass, j, r);
      assert partial2[..j] == d[..j];
    }
  }

  // Every row has had one statement more, or had had it before.
  lemma ExecShows(src: Source, h: Held, d: Ddl, k: Key, from: nat)
    requires ShowsFrom(src, h, k, from) && h.partial <= d && h.pass < |d| && h.pass <= |h.partial|
    requires Apart(StatementsOf(d)) && Settles(d[h.pass]) && (h.pass < |h.partial| ==> Repeatable(d[h.pass].statement))
    ensures ShowsFrom(src, HeldAfter(h, d), k, from)
  {
    var at: nat, j: nat :| from <= at && Shows(src, h, k, at, j);
    LookupAfter(d[h.pass], h.rows, k);
    ExecRow(d, h.partial, h.pass, j, ValueAt(src, k, at));
    hide Apart, Settles, ValueAt, OnRow, OnStep, OnTable, Under;
    assert Shows(src, HeldAfter(h, d), k, at, if j == h.pass then j + 1 else j);
  }

  // The DDL a table is in the middle of, and where its columns come from.
  lemma InDdl(src: Source, t: TableState, next: nat) returns (before: Columns)
    requires Sound(src) && Altered(src, t) && IsNext(src, t.applied, next)
    ensures next in src.ddls && PassOf(t) <= |t.partial| && t.partial <= src.ddls[next] && RunAll(before, StatementsOf(t.partial)) == Some(t.columns)
    ensures Apart(StatementsOf(src.ddls[next])) && forall i | 0 <= i < |src.ddls[next]| :: Settles(src.ddls[next][i])
  {
    before :| RunAll(before, StatementsOf(t.partial)) == Some(t.columns);
  }

  lemma ExecIsHeldAfter(src: Source, t: TableState, t2: TableState)
    requires ExecStatement(src, t, t2) && src.base < t.stage.pending[0] && t.stage.pending[0] in src.ddls
    ensures var d := src.ddls[t.stage.pending[0]];
            && t.stage.pass < |d| && RunOne(t.columns, d[t.stage.pass].statement) == Some(t2.columns)
            && HeldBy(t2) == HeldAfter(HeldBy(t), d)
            && t2 == t.(rows := t2.rows, columns := t2.columns, partial := t2.partial, stage := t2.stage)
  {
    hide OnTable;
    assert Script(src, t.stage.pending[0]) == src.ddls[t.stage.pending[0]];
  }

  lemma ExecStays(src: Source, t: TableState, t2: TableState)
    requires ExecStatement(src, t, t2)
    ensures t2.applied == t.applied && t2.schemas == t.schemas && t.stage.Running? && t2.stage.Running?
    ensures t2.partial == HeldBy(t2).partial && PassOf(t2) == HeldBy(t2).pass && PassOf(t) == t.stage.pass
  {
    hide OnTable;
  }

  lemma ExecKeepsAltered(src: Source, t: TableState, t2: TableState)
    requires t.stage.Running? && t.stage.pending != []
    requires Sound(src) && Altered(src, t) && ExecStatement(src, t, t2)
    requires IsNext(src, t.applied, t.stage.pending[0]) && src.base <= t.applied && t.stage.pending[0] in t.schemas
    ensures Altered(src, t2)
    ensures PassOf(t) < |t.partial| ==> Repeatable(t.partial[PassOf(t)].statement) && t2.columns == t.columns && t2.partial == t.partial
  {
    var next := t.stage.pending[0];
    var before := InDdl(src, t, next);
    ExecIsHeldAfter(src, t, t2);
    ExecStays(src, t, t2);
    ExecAlters(src.ddls[next], HeldBy(t), HeldBy(t2), before, t.columns, t2.columns);
    hide ExecStatement, HeldBy, RunAll, Sound;
    IsAltered(src, t2, next, before);
  }

  lemma ExecAlters(d: Ddl, h: Held, h2: Held, before: Columns, columns: Columns, columns2: Columns)
    requires h.partial <= d && Apart(StatementsOf(d)) && h.pass <= |h.partial| && h.pass < |d| && h2 == HeldAfter(h, d)
    requires RunAll(before, StatementsOf(h.partial)) == Some(columns) && RunOne(columns, d[h.pass].statement) == Some(columns2)
    ensures h2.partial <= d && h2.pass <= |h2.partial| && RunAll(before, StatementsOf(h2.partial)) == Some(columns2)
    ensures h.pass < |h.partial| ==> Repeatable(h.partial[h.pass].statement) && columns2 == columns && h2.partial == h.partial
  {
    hide RunAll, RunOne, Apart, StatementsOf;
    ExecIsNextOrSpent(before, columns, d, h.partial, h.pass);
  }

  lemma IsAltered(src: Source, t: TableState, next: nat, before: Columns)
    requires PassOf(t) <= |t.partial| && IsNext(src, t.applied, next) && next in t.schemas && t.partial <= src.ddls[next]
    requires RunAll(before, StatementsOf(t.partial)) == Some(t.columns)
    ensures Altered(src, t)
  {
  }

  lemma ExecKeepsFresh(src: Source, c: nat, t: TableState, t2: TableState)
    requires Sound(src) && Fresh(src, t, c) && Altered(src, t) && ExecStatement(src, t, t2)
    requires IsNext(src, t.applied, t.stage.pending[0]) && src.base <= t.applied && t.stage.pending[0] in t.schemas
    ensures Fresh(src, t2, c)
  {
    var next, pass := t.stage.pending[0], t.stage.pass;
    var d := src.ddls[next];
    ExecIsHeldAfter(src, t, t2);
    var before := InDdl(src, t, next);
    ExecIsNextOrSpent(before, t.columns, d, t.partial, pass);
    hide Apart, ExecStatement, Sound, ShowsFrom, HeldAfter;
    forall k: Key, from: nat | ShowsFrom(src, HeldBy(t), k, from) ensures ShowsFrom(src, HeldBy(t2), k, from) {
      ExecShows(src, HeldBy(t), d, k, from);
    }
    HeldOn(src, t, t2, c);
  }

  // If the table shows whatever it showed, it is as fresh.
  lemma HeldOn(src: Source, t: TableState, t2: TableState, c: nat)
    requires Fresh(src, t, c) && t2 == t.(rows := t2.rows, columns := t2.columns, partial := t2.partial, stage := t2.stage)
    requires forall k: Key, from: nat :: ShowsFrom(src, HeldBy(t), k, from) ==> ShowsFrom(src, HeldBy(t2), k, from)
    ensures Fresh(src, t2, c)
  {
    hide ShowsFrom, HeldBy;
    assert forall s: Scope :: LogOf(t2, s) == LogOf(t, s);
    forall k: Key
      ensures ShowsFrom(src, HeldBy(t2), k, Oldest(src, c))
      ensures Reflects(src, t2, t2.durable.cursors, c, k) && Reflects(src, t2, t2.cursors, c, k)
    {
      assert ShowsFrom(src, HeldBy(t), k, Oldest(src, c));
      assert Reflects(src, t, t.durable.cursors, c, k) && Reflects(src, t, t.cursors, c, k);
    }
  }

  // Every stream of the applied version is consumed to its end, and nothing is merged past it.
  ghost predicate Exhausted(src: Source, t: TableState) {
    forall s: Scope | s.version == t.applied ::
      Position(LogOf(t, s), CursorOf(t.cursors, s)) == CountOf(t.merged, s) == |LogOf(t, s)|
  }

  lemma StaysUnder(src: Source, v: nat, at: nat, upto: nat)
    requires Under(src, v, at) && at <= upto && NoDdl(src, v, upto)
    ensures forall e | at <= e <= upto :: Under(src, v, e)
  {
  }

  // With everything of the old version merged and all statements run, each row is the source row
  // at the DDL's own time.
  lemma DdlKeepsKey(src: Source, w: nat, metadata: nat, t: TableState, c: nat, next: nat, k: Key)
    requires Sound(src) && Fresh(src, t, c) && Contract(src, w, metadata, t) && Exhausted(src, t)
    requires IsNext(src, t.applied, next) && next in t.schemas
    requires t.partial == src.ddls[next] && PassOf(t) == |src.ddls[next]|
    ensures Lookup(t.rows, k) == ValueAt(src, k, next)
  {
    var at, j := LastShown(src, t, c, k);
    assert t.partial[..j] == t.partial;
    assert at < next;
    var s := Home(src, t, k);
    assert s.version < next && Caught(src, s, LogOf(t, s), next);
    hide Contract, Fresh, Exhausted, Caught;
    StaysUnder(src, t.applied, at, next - 1);
    CaughtBefore(src, s, LogOf(t, s), next, k, at);
    StandsStill(src, k, at, next - 1);
    assert (k, next) !in src.changes;
  }

  lemma CaughtBefore(src: Source, s: Scope, log: Log, upto: nat, k: Key, at: nat)
    requires Caught(src, s, log, upto) && src.start <= at && LastTime(log, k) <= at
    requires src.home(k, s.version) == s.partition && forall e | at <= e < upto :: Under(src, s.version, e)
    ensures forall e | (k, e) in src.changes :: !(at < e < upto)
  {
  }

  lemma LastShown(src: Source, t: TableState, c: nat, k: Key) returns (at: nat, j: nat)
    requires Fresh(src, t, c) && Exhausted(src, t)
    ensures Later(Oldest(src, c), LastTime(LogOf(t, Home(src, t, k)), k)) <= at && Shows(src, HeldBy(t), k, at, j)
  {
    var log := LogOf(t, Home(src, t, k));
    assert Reflects(src, t, t.cursors, c, k);
    assert log[..|log|] == log;
    at, j :| Later(Oldest(src, c), LastTime(log, k)) <= at && Shows(src, HeldBy(t), k, at, j);
  }

  lemma MarkKeepsFresh(src: Source, w: nat, metadata: nat, c: nat, t: TableState, t2: TableState, next: nat)
    requires Sound(src) && Fresh(src, t, c) && Progress(src, t) && Contract(src, w, metadata, t) && Exhausted(src, t) && Altered(src, t)
    requires IsNext(src, t.applied, next) && next in t.schemas && PassOf(t) == |src.ddls[next]|
    requires t2 == t.(applied := next, partial := [], durable := t2.durable, watermark := t2.watermark, stage := t2.stage)
    requires t2.durable.cursors == t.durable.cursors && PassOf(t2) == 0
    ensures Fresh(src, t2, c) && Altered(src, t2)
  {
    AllRun(src, t, next);
    NothingMerged(src, w, metadata, t, next);
    MarkFacts(src, t, c, next);
    hide Sound, Contract, Progress, Fresh, Exhausted, Altered, IsNext, NoDdl, Under;
    forall k: Key ensures Lookup(t.rows, k) == ValueAt(src, k, next) {
      DdlKeepsKey(src, w, metadata, t, c, next, k);
    }
    Marked(src, c, t, t2, next);
  }

  lemma AllRun(src: Source, t: TableState, next: nat)
    requires Sound(src) && Altered(src, t) && IsNext(src, t.applied, next) && next in src.ddls && PassOf(t) == |src.ddls[next]|
    ensures t.partial == src.ddls[next]
  {
    var before := InDdl(src, t, next);
  }

  lemma Marked(src: Source, c: nat, t: TableState, t2: TableState, next: nat)
    requires Under(src, next, next) && Oldest(src, c) <= next && NoDdl(src, next, c) && (src.origin <= c || src.origin == src.start)
    requires forall k: Key :: Lookup(t.rows, k) == ValueAt(src, k, next)
    requires forall s: Scope | s.version == next ::
              CountOf(t.merged, s) == 0 && Position(LogOf(t, s), CursorOf(t.durable.cursors, s)) == 0 && Position(LogOf(t, s), CursorOf(t.cursors, s)) == 0
    requires t2 == t.(applied := next, partial := [], durable := t2.durable, watermark := t2.watermark, stage := t2.stage)
    requires t2.durable.cursors == t.durable.cursors && PassOf(t2) == 0
    ensures Fresh(src, t2, c) && Altered(src, t2)
  {
    hide NoDdl, Position;
    assert forall s: Scope :: LogOf(t2, s) == LogOf(t, s);
    forall k: Key ensures Shows(src, HeldBy(t2), k, next, 0) {
      assert t2.partial[..0] == [];
    }
    MarkedFresh(src, c, t2, next);
    NothingAltered(src, t2);
  }

  lemma MarkFacts(src: Source, t: TableState, c: nat, next: nat)
    requires Sound(src) && Fresh(src, t, c) && Progress(src, t) && IsNext(src, t.applied, next)
    ensures Under(src, next, next) && Oldest(src, c) <= next && NoDdl(src, next, c) && (src.origin <= c || src.origin == src.start)
  {
    OriginBefore(src, t, c, next);
  }

  lemma NothingAltered(src: Source, t: TableState)
    requires t.partial == [] && PassOf(t) == 0
    ensures Altered(src, t)
  {
    assert StatementsOf([]) == [] && RunAll(t.columns, []) == Some(t.columns);
  }

  // No file of the next version has been merged.
  lemma NothingMerged(src: Source, w: nat, metadata: nat, t: TableState, next: nat)
    requires Progress(src, t) && t.applied < next
    ensures forall s: Scope | s.version == next ::
              CountOf(t.merged, s) == 0 && Position(LogOf(t, s), CursorOf(t.durable.cursors, s)) == 0 && Position(LogOf(t, s), CursorOf(t.cursors, s)) == 0
  {
  }

  lemma MarkedFresh(src: Source, c: nat, t: TableState, next: nat)
    requires (src.origin <= c || src.origin == src.start) && next in src.ddls && NoDdl(src, next, c) && t.applied == next
    requires Oldest(src, c) <= next && forall k: Key :: Shows(src, HeldBy(t), k, next, 0)
    requires forall s: Scope | s.version == next ::
              CountOf(t.merged, s) == 0 && Position(LogOf(t, s), CursorOf(t.durable.cursors, s)) == 0 && Position(LogOf(t, s), CursorOf(t.cursors, s)) == 0
    ensures Fresh(src, t, c)
  {
    hide Position, Shows;
    forall k: Key
      ensures ShowsFrom(src, HeldBy(t), k, Oldest(src, c))
      ensures Reflects(src, t, t.durable.cursors, c, k)
      ensures Reflects(src, t, t.cursors, c, k)
    {
      assert Shows(src, HeldBy(t), k, next, 0);
      assert LogOf(t, Home(src, t, k))[..0] == [];
    }
  }

  lemma OriginBefore(src: Source, t: TableState, c: nat, next: nat)
    requires Sound(src) && Progress(src, t) && IsNext(src, t.applied, next)
    ensures src.origin < next
  {
  }

  // ----- Finishing a scan -----

  // The scan has consumed at least what was indexed when the metadata was read, and the
  // producer's promise about the metadata checkpoint holds for the consumed part.
  ghost predicate CaughtUp(src: Source, t: TableState, target: nat) {
    forall s: Scope | s.version == t.applied ::
      var log, p := LogOf(t, s), Position(LogOf(t, s), CursorOf(t.cursors, s));
      CountOf(t.merged, s) <= p <= |log| && Caught(src, s, log[..p], target)
  }

  // Then the checkpoint may advance to the metadata checkpoint read before the scan.
  lemma ScanAdvancesKey(src: Source, t: TableState, c: nat, target: nat, k: Key)
    requires Sound(src) && Fresh(src, t, c) && CaughtUp(src, t, target)
    requires c <= target && src.start <= target && NoDdl(src, t.applied, target)
    ensures ShowsFrom(src, HeldBy(t), k, Oldest(src, target))
    ensures Reflects(src, t, t.cursors, target, k)
  {
    var s := Home(src, t, k);
    var log, p := LogOf(t, s), Position(LogOf(t, s), CursorOf(t.cursors, s));
    assert Reflects(src, t, t.cursors, c, k);
    assert Caught(src, s, log[..p], target);
    var last := LastTime(log[..p], k);
    var at: nat, j: nat :| Later(Oldest(src, c), last) <= at && Shows(src, HeldBy(t), k, at, j);
    if at < target {
      StaysUnder(src, t.applied, at, target);
      StandsStill(src, k, at, target);
      assert Shows(src, HeldBy(t), k, target, j);
    }
  }

  lemma ScanAdvancesFresh(src: Source, t: TableState, t2: TableState, c: nat, target: nat)
    requires Sound(src) && Fresh(src, t, c) && CaughtUp(src, t, target)
    requires c <= target && src.start <= target && NoDdl(src, t.applied, target)
    requires t2 == t.(durable := t2.durable, stage := t2.stage) && t2.durable.cursors == t.cursors && PassOf(t2) == PassOf(t)
    ensures Fresh(src, t2, target) && Fresh(src, t2, c)
  {
    assert HeldBy(t2) == HeldBy(t);
    forall k: Key
      ensures ShowsFrom(src, HeldBy(t2), k, Oldest(src, c)) && ShowsFrom(src, HeldBy(t2), k, Oldest(src, target))
      ensures Reflects(src, t2, t2.cursors, target, k) && Reflects(src, t2, t2.durable.cursors, target, k)
      ensures Reflects(src, t2, t2.cursors, c, k) && Reflects(src, t2, t2.durable.cursors, c, k)
    {
      ScanAdvancesKey(src, t, c, target, k);
      assert ShowsFrom(src, HeldBy(t), k, Oldest(src, c)) && Reflects(src, t, t.cursors, c, k);
    }
  }

  // ----- The producer at work -----

  // All producer steps: more schema files, more folders, and longer logs in the newest version.
  ghost predicate Grows(t: TableState, t2: TableState) {
    && t2 == t.(schemas := t2.schemas, logs := t2.logs, folders := t2.folders)
    && t.schemas <= t2.schemas
    && (forall s: Scope :: FoldersOf(t, s) <= FoldersOf(t2, s))
    && (forall s: Scope :: LogOf(t, s) <= LogOf(t2, s) && |LogOf(t2, s)| <= |LogOf(t, s)| + 1)
    && (forall s: Scope | LogOf(t, s) != LogOf(t2, s) ::
         && s.version in t.schemas && (forall v | v in t.schemas :: v <= s.version)
         && (forall d | d in FoldersOf(t, s) :: d <= LogOf(t2, s)[|LogOf(t, s)|].date))
  }

  lemma LogsAreDated(src: Source, w: nat, metadata: nat, t: TableState, s: Scope)
    requires Contract(src, w, metadata, t)
    ensures Dated(LogOf(t, s))
  {
  }

  lemma GrowthKeepsCursor(src: Source, w: nat, metadata: nat, t: TableState, t2: TableState, s: Scope, c: Name)
    requires Contract(src, w, metadata, t2) && Grows(t, t2) && IsCursor(LogOf(t, s), c)
    ensures IsCursor(LogOf(t2, s), c) && Position(LogOf(t2, s), c) == Position(LogOf(t, s), c) <= |LogOf(t, s)|
  {
    LogsAreDated(src, w, metadata, t2, s);
    assert LogOf(t, s) <= LogOf(t2, s);
    GrowthKeepsCursors(LogOf(t, s), LogOf(t2, s), c);
    CursorPosition(LogOf(t, s), c);
  }

  lemma GrowthKeepsFresh(src: Source, w: nat, metadata: nat, t: TableState, t2: TableState, c: nat)
    requires Contract(src, w, metadata, t2) && Grows(t, t2) && Fresh(src, t, c) && Progress(src, t)
    ensures Fresh(src, t2, c)
  {
    assert HeldBy(t2) == HeldBy(t);
    forall k: Key
      ensures ShowsFrom(src, HeldBy(t2), k, Oldest(src, c))
      ensures Reflects(src, t2, t2.durable.cursors, c, k)
      ensures Reflects(src, t2, t2.cursors, c, k)
    {
      assert ShowsFrom(src, HeldBy(t), k, Oldest(src, c));
      GrowthKeepsReflects(src, w, metadata, t, t2, t.durable.cursors, c, k);
      GrowthKeepsReflects(src, w, metadata, t, t2, t.cursors, c, k);
    }
  }

  lemma UntouchedGrows(log: Log, log2: Log, p: nat, m: nat, k: Key)
    requires log <= log2 && m <= |log| && p <= |log|
    ensures log2[..p] == log[..p] && (Untouched(log2, p, m, k) <==> Untouched(log, p, m, k))
  {
  }

  lemma GrowthKeepsReflects(src: Source, w: nat, metadata: nat, t: TableState, t2: TableState,
                            cursors: map<Scope, Name>, c: nat, k: Key)
    requires Contract(src, w, metadata, t2) && Grows(t, t2)
    requires Reflects(src, t, cursors, c, k) && CursorsValid(t, cursors) && Progress(src, t)
    ensures Reflects(src, t2, cursors, c, k)
  {
    var s := Home(src, t, k);
    var log, log2, cursor := LogOf(t, s), LogOf(t2, s), CursorOf(cursors, s);
    assert log <= log2 && HeldBy(t2) == HeldBy(t) && t2.merged == t.merged && t2.applied == t.applied;
    assert CountOf(t.merged, s) <= |log|;
    assert IsCursor(log, cursor);
    hide Contract, Progress, CursorsValid, ShowsFrom, Untouched, LastTime, Position, IsCursor;
    GrowthKeepsCursor(src, w, metadata, t, t2, s, cursor);
    UntouchedGrows(log, log2, Position(log, cursor), CountOf(t.merged, s), k);
  }

  lemma GrowthKeepsProgress(src: Source, w: nat, metadata: nat, t: TableState, t2: TableState)
    requires Contract(src, w, metadata, t) && Contract(src, w, metadata, t2) && Grows(t, t2) && Progress(src, t)
    ensures Progress(src, t2)
  {
    forall s: Scope
      ensures IsCursor(LogOf(t2, s), CursorOf(t.durable.cursors, s)) && IsCursor(LogOf(t2, s), CursorOf(t.cursors, s))
      ensures Position(LogOf(t2, s), CursorOf(t.durable.cursors, s)) == Position(LogOf(t, s), CursorOf(t.durable.cursors, s))
      ensures Position(LogOf(t2, s), CursorOf(t.cursors, s)) == Position(LogOf(t, s), CursorOf(t.cursors, s))
      ensures CountOf(t.merged, s) <= |LogOf(t2, s)|
      ensures src.snapshot <= s.version < t.applied ==> CountOf(t.merged, s) == |LogOf(t2, s)|
    {
      GrowthKeepsCursor(src, w, metadata, t, t2, s, CursorOf(t.durable.cursors, s));
      GrowthKeepsCursor(src, w, metadata, t, t2, s, CursorOf(t.cursors, s));
      assert LogOf(t, s) <= LogOf(t2, s);
    }
  }

  lemma IndexFileGrows(src: Source, w: nat, metadata: nat, t: TableState, t2: TableState, s: Scope, entry: Entry)
    requires IndexFile(src, w, metadata, t, t2, s, entry)
    ensures Grows(t, t2) && Contract(src, w, metadata, t2)
  {
    hide Contract;
    forall s2: Scope ensures LogOf(t2, s2) == if s2 == s then LogOf(t, s) + [entry] else LogOf(t, s2) {
    }
  }

  lemma OpenDirectoryGrows(src: Source, w: nat, metadata: nat, t: TableState, t2: TableState, s: Scope, d: nat)
    requires OpenDirectory(src, w, metadata, t, t2, s, d)
    ensures Grows(t, t2) && Contract(src, w, metadata, t2)
  {
    hide Contract;
    assert forall s2: Scope :: LogOf(t2, s2) == LogOf(t, s2);
  }

  lemma ShowSchemaGrows(src: Source, w: nat, metadata: nat, t: TableState, t2: TableState, v: nat)
    requires ShowSchema(src, w, metadata, t, t2, v)
    ensures Grows(t, t2) && Contract(src, w, metadata, t2)
  {
    hide Contract;
    assert forall s2: Scope :: LogOf(t2, s2) == LogOf(t, s2);
  }

  lemma ProducerGrows(src: Source, w: nat, metadata: nat, t: TableState, t2: TableState)
    requires ProducerStep(src, w, metadata, t, t2)
    ensures Grows(t, t2) && Contract(src, w, metadata, t2)
  {
    hide Contract, IndexFile, OpenDirectory, ShowSchema, Grows;
    if s, entry :| IndexFile(src, w, metadata, t, t2, s, entry) {
      IndexFileGrows(src, w, metadata, t, t2, s, entry);
    } else if s, d :| OpenDirectory(src, w, metadata, t, t2, s, d) {
      OpenDirectoryGrows(src, w, metadata, t, t2, s, d);
    } else {
      var v :| ShowSchema(src, w, metadata, t, t2, v);
      ShowSchemaGrows(src, w, metadata, t, t2, v);
    }
  }
}
