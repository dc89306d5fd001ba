// The source table over time: committed row changes and schema changes.
module History {
  import opened Wrappers
  import opened Merge
  import opened Statements

  // One statement of a DDL and what it does to the cells of a row: the value ADD gives the new
  // column, the conversion MODIFY makes.
  datatype Step = Step(statement: Statement, value: Cell, convert: Cell -> Cell)

  // A schema version's DDL, statement by statement; an initial schema file or an ignored DDL has
  // none.
  type Ddl = seq<Step>

  datatype Source = Source(
    changes: map<(Key, nat), Option<Row>>,  // committed changes by key and commit timestamp
    ddls: map<nat, Ddl>,                    // schema versions; a version is its DDL's timestamp
    home: (Key, nat) -> int,                // the partition a key's rows go to under a version
    start: nat,                             // the changefeed's start timestamp
    origin: nat,                            // the time at which the loaded rows were read
    base: nat,                              // the schema version at `start`
    snapshot: nat)                          // the schema version at `origin`

  // Time `at` falls under schema version v.
  ghost predicate Under(src: Source, v: nat, at: nat) {
    v in src.ddls && v <= at && forall u | u in src.ddls :: !(v < u <= at)
  }

  function StatementsOf(d: Ddl): (ss: seq<Statement>)
    ensures |ss| == |d| && forall i | 0 <= i < |d| :: ss[i] == d[i].statement
  {
    if d == [] then [] else StatementsOf(d[..|d| - 1]) + [d[|d| - 1].statement]
  }

  // Converting a cell that has been converted changes nothing.
  ghost predicate Settles(s: Step) { forall c :: s.convert(s.convert(c)) == s.convert(c) }

  // History begins with the changefeed's first version; statements of one DDL keep apart.
  ghost predicate Sound(src: Source) {
    && 0 !in src.ddls && (forall v | v in src.ddls :: src.base <= v)
    && src.start <= src.origin && Under(src, src.base, src.start) && Under(src, src.snapshot, src.origin)
    && (forall k, e | (k, e) in src.changes :: e > 0 && e !in src.ddls)
    && (forall v | v in src.ddls :: Apart(StatementsOf(src.ddls[v])))
    && (forall v, i | v in src.ddls && 0 <= i < |src.ddls[v]| :: Settles(src.ddls[v][i]))
  }

  // ----- Rows -----

  function StepOnRow(s: Step, row: Row): Option<Row> {
    match s.statement
    case Add(k, _, _) => Some(row[k := s.value])
    case Drop(k) => Some(row - {k})
    case Rename(k, to) => Some(if k in row then (row - {k})[to := row[k]] else row)
    case Modify(k, _) => Some(if k in row then row[k := s.convert(row[k])] else row)
    case TruncateTable => None
    case DropTableIfExists => None
  }

  function OnStep(s: Step, r: Option<Row>): Option<Row> {
    if r.Some? then StepOnRow(s, r.value) else None
  }

  function OnRow(d: Ddl, r: Option<Row>): Option<Row> {
    if d == [] then r else OnStep(d[|d| - 1], OnRow(d[..|d| - 1], r))
  }

  // A statement applied to the target table.
  function OnTable(s: Step, t: Table): Table {
    map k | k in t && StepOnRow(s, t[k]).Some? :: StepOnRow(s, t[k]).value
  }

  // The source row of k at time `at`.
  ghost function ValueAt(src: Source, k: Key, at: nat): Option<Row> {
    if at == 0 then None
    else if (k, at) in src.changes then src.changes[(k, at)]
    else if at in src.ddls then OnRow(src.ddls[at], ValueAt(src, k, at - 1))
    else ValueAt(src, k, at - 1)
  }

  // Between changes and schema versions the source row stands still.
  lemma {:induction false} StandsStill(src: Source, k: Key, a: nat, b: nat)
    requires a <= b
    requires forall e | (k, e) in src.changes :: !(a < e <= b)
    requires forall v | v in src.ddls :: !(a < v <= b)
    ensures ValueAt(src, k, a) == ValueAt(src, k, b)
  {
    if a < b {
      StandsStill(src, k, a, b - 1);
    }
  }

  // ----- Statements run again -----

  lemma StepTwice(s: Step, r: Option<Row>)
    requires Repeatable(s.statement) && Settles(s)
    ensures OnStep(s, OnStep(s, r)) == OnStep(s, r)
  {
    if r.Some? && s.statement.Modify? && s.statement.key in r.value {
      var row := OnStep(s, r).value;
      assert row[s.statement.key := s.convert(row[s.statement.key])] == row;
    }
  }

  lemma StepStays(s: Step, t: Step, r: Option<Row>)
    requires Repeatable(s.statement) && Clear(s.statement, t.statement) && OnStep(s, r) == r
    ensures OnStep(s, OnStep(t, r)) == OnStep(t, r)
  {
    if r.Some? && s.statement.Modify? && OnStep(t, r).Some? {
      var k, row, row2 := s.statement.key, r.value, OnStep(t, r).value;
      assert k in Touches(s.statement) && k !in Touches(t.statement);
      assert k in row2 <==> k in row;
      if k in row {
        assert row[k := s.convert(row[k])] == row;
        assert s.convert(row[k]) == row[k] == row2[k];
        assert row2[k := s.convert(row2[k])] == row2;
      }
    }
  }

  // A repeatable statement among the first j of a DDL does nothing to a row they have changed.
  lemma {:induction false} StepAbsorbed(d: Ddl, q: nat, j: nat, r: Option<Row>)
    requires Apart(StatementsOf(d)) && q < j <= |d| && Repeatable(d[q].statement) && Settles(d[q])
    ensures OnStep(d[q], OnRow(d[..j], r)) == OnRow(d[..j], r)
  {
    assert d[..j][..j - 1] == d[..j - 1];
    if q == j - 1 {
      StepTwice(d[q], OnRow(d[..q], r));
    } else {
      StepAbsorbed(d, q, j - 1, r);
      assert Clear(StatementsOf(d)[q], StatementsOf(d)[j - 1]);
      StepStays(d[q], d[j - 1], OnRow(d[..j - 1], r));
    }
  }
}
