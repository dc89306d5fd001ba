// The MERGE statement as genMergeIntoSQL writes it (pkg/snowflake/sql.go): which CSV field goes
// to which column, and which columns the branches set.
module MergeSql {
  import opened Wrappers
  import opened TextOrder
  import opened Identifiers
  import opened Merge

  // Whether the column's Snowflake type is BINARY.
  datatype Column = Column(name: string, binary: bool)
  datatype Meta = Meta(columns: seq<Column>, primaryKeys: seq<string>)

  // $n, or TO_BINARY($n, 'HEX').
  datatype Expr = Field(n: nat) | ToBinary(n: nat)

  // Identifiers stand for the names they resolve to; `T.x` and `S.x` for columns of target and
  // source.
  datatype MergeStmt = MergeStmt(
    flag: Expr,
    select: seq<(Expr, string)>,
    where: (Expr, nat),               // TO_NUMBER($n) > checkpoint
    partition: seq<string>,
    order: Expr,                      // descending
    on: seq<(string, string)>,        // T.a = S.b
    update: seq<(string, string)>,    // a = S.b
    insert: seq<string>,
    values: seq<string>)              // S.b

  function Name(c: Column): string { Resolve(c.name) }

  function Selected(c: Column, i: nat): (Expr, string) {
    (if c.binary then ToBinary(i + 5) else Field(i + 5), Name(c))
  }

  function KeyNames(meta: Meta): (names: seq<string>) {
    seq(|meta.primaryKeys|, i requires 0 <= i < |meta.primaryKeys| => Resolve(meta.primaryKeys[i]))
  }

  predicate Generated(meta: Meta, checkpoint: nat, m: MergeStmt) {
    && m.flag == Field(1) && m.where == (Field(4), checkpoint) && m.order == Field(4)
    && |m.select| == |m.update| == |m.insert| == |m.values| == |meta.columns|
    && (forall i | 0 <= i < |meta.columns| ::
         && m.select[i] == Selected(meta.columns[i], i)
         && m.update[i] == (Name(meta.columns[i]), Name(meta.columns[i]))
         && m.insert[i] == m.values[i] == Name(meta.columns[i]))
    && |m.partition| == |m.on| == |meta.primaryKeys|
    && (forall i | 0 <= i < |meta.primaryKeys| ::
         && m.partition[i] == Resolve(meta.primaryKeys[i])
         && m.on[i] == (Resolve(meta.primaryKeys[i]), Resolve(meta.primaryKeys[i])))
  }

  method GenMergeInto(meta: Meta, checkpoint: nat) returns (m: MergeStmt)
    ensures Generated(meta, checkpoint, m)
  {
    var select, update, insert, values := [], [], [], [];
    for i := 0 to |meta.columns|
      invariant |select| == i && forall j | 0 <= j < i :: select[j] == Selected(meta.columns[j], j)
    {
      var c := meta.columns[i];
      select := select + [if c.binary then (ToBinary(i + 5), Name(c)) else (Field(i + 5), Name(c))];
    }
    var partition, on := [], [];
    for i := 0 to |meta.primaryKeys|
      invariant |partition| == |on| == i
      invariant forall j | 0 <= j < i :: partition[j] == Resolve(meta.primaryKeys[j])
                  && on[j] == (Resolve(meta.primaryKeys[j]), Resolve(meta.primaryKeys[j]))
    {
      var name := Resolve(meta.primaryKeys[i]);
      partition := partition + [name];
      on := on + [(name, name)];
    }
    for i := 0 to |meta.columns|
      invariant |update| == i && forall j | 0 <= j < i :: update[j] == (Name(meta.columns[j]), Name(meta.columns[j]))
    {
      update := update + [(Name(meta.columns[i]), Name(meta.columns[i]))];
    }
    for i := 0 to |meta.columns|
      invariant |insert| == i && forall j | 0 <= j < i :: insert[j] == Name(meta.columns[j])
    {
      insert := insert + [Name(meta.columns[i])];
    }
    for i := 0 to |meta.columns|
      invariant |values| == i && forall j | 0 <= j < i :: values[j] == Name(meta.columns[j])
    {
      values := values + [Name(meta.columns[i])];
    }
    m := MergeStmt(Field(1), select, (Field(4), checkpoint), partition, Field(4), on, update, insert, values);
  }

  // ----- What the statement's parts mean -----

  // A CSV record: flag, table, schema, commit timestamp, then the columns' values.
  type Record = seq<string>

  function Value(e: Expr, r: Record): Cell
    requires 1 <= e.n <= |r|
  {
    match e
    case Field(n) => Text(r[n - 1])
    case ToBinary(n) => Bytes(r[n - 1])
  }

  function SelectNames(select: seq<(Expr, string)>): set<string> { set s | s in select :: s.1 }

  // The row the SELECT list makes of a record.
  function SelectRow(select: seq<(Expr, string)>, r: Record): (row: Row)
    requires forall s | s in select :: 1 <= s.0.n <= |r|
    ensures row.Keys == SelectNames(select)
  {
    if select == [] then map[]
    else
      var s := select[|select| - 1];
      assert select == select[..|select| - 1] + [s];
      SelectRow(select[..|select| - 1], r)[s.1 := Value(s.0, r)]
  }

  function Assign(update: seq<(string, string)>, t: Row, s: Row): Row
    requires forall u | u in update :: u.1 in s
  {
    if update == [] then t
    else Assign(update[..|update| - 1], t, s)[update[|update| - 1].0 := s[update[|update| - 1].1]]
  }

  predicate OnHolds(on: seq<(string, string)>, t: Row, s: Row) {
    forall p | p in on :: p.0 in t && p.1 in s && t[p.0] == s[p.1]
  }

  // The columns an INSERT names, from the source row; all others are left out.
  function Inserted(insert: seq<string>, values: seq<string>, s: Row): Row
    requires |insert| == |values| && forall n | n in values :: n in s
  {
    if insert == [] then map[]
    else
      var n := |insert| - 1;
      Inserted(insert[..n], values[..n], s)[insert[n] := s[values[n]]]
  }

  // The key of a row: its primary key cells.
  function KeyOf(names: seq<string>, row: Row): (k: Key)
    requires forall n | n in names :: n in row
    ensures |k| == |names| && forall i | 0 <= i < |names| :: k[i] == row[names[i]]
  {
    if names == [] then [] else KeyOf(names[..|names| - 1], row) + [row[names[|names| - 1]]]
  }

  // ----- What the statement means -----

  // The fields the statement reads are there, and its timestamps are numbers.
  predicate Reads(m: MergeStmt, r: Record) {
    && 1 <= m.flag.n <= |r| && 1 <= m.where.0.n <= |r| && 1 <= m.order.n <= |r|
    && (forall s | s in m.select :: 1 <= s.0.n <= |r|)
    && AllDigits(r[m.where.0.n - 1]) && AllDigits(r[m.order.n - 1])
  }

  // The names the statement uses are columns of its source, and of the target's rows.
  predicate Resolves(m: MergeStmt) {
    && |m.insert| == |m.values|
    && (forall n | n in m.partition :: n in SelectNames(m.select))
    && (forall p | p in m.on :: p.1 in SelectNames(m.select))
    && (forall u | u in m.update :: u.1 in SelectNames(m.select))
    && (forall n | n in m.values :: n in SelectNames(m.select))
  }

  // A record as row of S: its flag, the columns it is partitioned by, the value it is ordered by,
  // and the selected columns.
  function SourceChange(m: MergeStmt, r: Record): Change
    requires Reads(m, r) && Resolves(m)
  {
    var row := SelectRow(m.select, r);
    Change(r[m.flag.n - 1], KeyOf(m.partition, row), r[m.order.n - 1], row)
  }

  // FROM and WHERE
  function Selection(m: MergeStmt, records: seq<Record>): File
    requires Resolves(m) && forall r | r in records :: Reads(m, r)
  {
    if records == [] then []
    else
      assert Reads(m, records[0]);
      (if ToNumber(records[0][m.where.0.n - 1]) > m.where.1 then [SourceChange(m, records[0])] else []) + Selection(m, records[1..])
  }

  predicate HasColumns(m: MergeStmt, f: File) { forall c | c in f :: c.row.Keys == SelectNames(m.select) }

  // No target row has two source rows; otherwise the statement fails.
  predicate Deterministic(m: MergeStmt, rows: set<Row>, f: File) {
    forall t, i, j | t in rows && 0 <= i < j < |f| :: !(OnHolds(m.on, t, f[i].row) && OnHolds(m.on, t, f[j].row))
  }

  // The three WHEN branches over the rows of the target.
  function Merged(m: MergeStmt, rows: set<Row>, f: File): set<Row>
    requires Resolves(m) && HasColumns(m, f)
  {
    (set t | t in rows && !(exists s | s in f :: OnHolds(m.on, t, s.row)))
    + (set t, s | t in rows && s in f && OnHolds(m.on, t, s.row) && s.flag != "D" :: Assign(m.update, t, s.row))
    + (set s | s in f && s.flag != "D" && !(exists t | t in rows :: OnHolds(m.on, t, s.row)) :: Inserted(m.insert, m.values, s.row))
  }

  // No list the statement needs is empty.
  predicate IsSql(m: MergeStmt) { m.partition != [] && m.on != [] && m.update != [] && m.insert != [] }

  // rows2 is a table the statement may leave of a target of these rows.
  ghost predicate Denote(m: MergeStmt, records: seq<Record>, rows: set<Row>, rows2: set<Row>)
    requires Resolves(m) && forall r | r in records :: Reads(m, r)
  {
    var v := Selection(m, records);
    && IsSql(m)
    && exists rank: seq<nat> ::
         && IsRowNumbering(v, rank) && HasColumns(m, Qualified(v, rank)) && Deterministic(m, rows, Qualified(v, rank))
         && rows2 == Merged(m, rows, Qualified(v, rank))
  }

  // ----- Properties -----

  predicate Distinct(meta: Meta) {
    forall i, j | 0 <= i < j < |meta.columns| :: Name(meta.columns[i]) != Name(meta.columns[j])
  }

  function ColumnNames(columns: seq<Column>): set<string> { set c | c in columns :: Name(c) }

  // The row a record stands for: each column has the field at its own position.
  ghost predicate Stands(meta: Meta, r: Record, row: Row) {
    && row.Keys == ColumnNames(meta.columns)
    && |r| == |meta.columns| + 4
    && forall i | 0 <= i < |meta.columns| :: Name(meta.columns[i]) in row
         && row[Name(meta.columns[i])] == CellOf(meta.columns[i], r[i + 4])
  }

  function CellOf(c: Column, text: string): Cell { if c.binary then Bytes(text) else Text(text) }

  // The columns' fields, in their order.
  function RowOf(columns: seq<Column>, r: Record): (row: Row)
    requires |r| >= |columns| + 4
    ensures row.Keys == ColumnNames(columns)
  {
    if columns == [] then map[]
    else
      var n := |columns| - 1;
      assert columns == columns[..n] + [columns[n]];
      RowOf(columns[..n], r)[Name(columns[n]) := CellOf(columns[n], r[n + 4])]
  }

  lemma {:induction false} RowHasField(columns: seq<Column>, r: Record, i: nat)
    requires |r| >= |columns| + 4 && i < |columns| && forall j | i < j < |columns| :: Name(columns[j]) != Name(columns[i])
    ensures Name(columns[i]) in RowOf(columns, r) && RowOf(columns, r)[Name(columns[i])] == CellOf(columns[i], r[i + 4])
  {
    hide Name;
    if i < |columns| - 1 {
      RowHasField(columns[..|columns| - 1], r, i);
    }
  }

  lemma SelectsFields(columns: seq<Column>, select: seq<(Expr, string)>, width: nat)
    requires width >= |columns| + 4 && |select| == |columns| && forall i | 0 <= i < |columns| :: select[i] == Selected(columns[i], i)
    ensures forall s | s in select :: 1 <= s.0.n <= width
  {
    hide Name;
    forall s | s in select ensures 1 <= s.0.n <= width {
      var i :| 0 <= i < |select| && select[i] == s;
      assert s == Selected(columns[i], i);
    }
  }

  lemma {:induction false} SelectIsRow(columns: seq<Column>, select: seq<(Expr, string)>, r: Record)
    requires |r| >= |columns| + 4 && |select| == |columns| && forall i | 0 <= i < |columns| :: select[i] == Selected(columns[i], i)
    ensures (forall s | s in select :: 1 <= s.0.n <= |r|) && SelectRow(select, r) == RowOf(columns, r)
  {
    hide Name, SelectNames, ColumnNames;
    SelectsFields(columns, select, |r|);
    if columns != [] {
      SelectIsRow(columns[..|columns| - 1], select[..|columns| - 1], r);
    }
  }

  // The SELECT list makes of each record the row it stands for.
  lemma SelectIsRecord(meta: Meta, m: MergeStmt, r: Record)
    requires Distinct(meta) && |r| == |meta.columns| + 4 && |m.select| == |meta.columns|
    requires forall i | 0 <= i < |meta.columns| :: m.select[i] == Selected(meta.columns[i], i)
    ensures (forall s | s in m.select :: 1 <= s.0.n <= |r|) && Stands(meta, r, SelectRow(m.select, r))
  {
    hide Name, SelectRow;
    SelectIsRow(meta.columns, m.select, r);
    forall i | 0 <= i < |meta.columns|
      ensures Name(meta.columns[i]) in RowOf(meta.columns, r)
      ensures RowOf(meta.columns, r)[Name(meta.columns[i])] == CellOf(meta.columns[i], r[i + 4])
    {
      RowHasField(meta.columns, r, i);
    }
  }

  lemma {:induction false} AssignsAll(update: seq<(string, string)>, t: Row, s: Row)
    requires forall u | u in update :: u.0 == u.1 && u.1 in s
    ensures forall n :: n in Assign(update, t, s) <==> n in t || (n, n) in update
    ensures forall n | n in Assign(update, t, s) :: Assign(update, t, s)[n] == if (n, n) in update then s[n] else t[n]
  {
    if update != [] {
      var n := |update| - 1;
      assert update == update[..n] + [update[n]];
      AssignsAll(update[..n], t, s);
    }
  }

  // UPDATE sets every column, so a matched row becomes the source row; INSERT makes the source row.
  lemma BranchesTakeSourceRow(meta: Meta, m: MergeStmt, t: Row, s: Row)
    requires |m.update| == |meta.columns| && s.Keys == ColumnNames(meta.columns)
    requires forall i | 0 <= i < |meta.columns| :: m.update[i] == (Name(meta.columns[i]), Name(meta.columns[i]))
    ensures forall u | u in m.update :: u.1 in s
    ensures t.Keys <= ColumnNames(meta.columns) ==> Assign(m.update, t, s) == s
    ensures Assign(m.update, map[], s) == s
  {
    hide Name, Assign;
    forall n | n in s ensures (n, n) in m.update {
      var c :| c in meta.columns && Name(c) == n;
      var i :| 0 <= i < |meta.columns| && meta.columns[i] == c;
      assert m.update[i] == (n, n);
    }
    AssignsAll(m.update, t, s);
    AssignsAll(m.update, map[], s);
  }

  // ON matches exactly rows with equal primary keys.
  lemma OnIsSameKey(meta: Meta, m: MergeStmt, t: Row, s: Row)
    requires |m.on| == |m.partition| == |meta.primaryKeys|
    requires forall i | 0 <= i < |meta.primaryKeys| :: m.on[i] == (m.partition[i], m.partition[i])
    requires forall n | n in m.partition :: n in t && n in s
    ensures (forall p | p in m.on :: p.0 in t && p.1 in s) && (OnHolds(m.on, t, s) <==> KeyOf(m.partition, t) == KeyOf(m.partition, s))
  {
    forall p | p in m.on ensures p.0 == p.1 && p.0 in m.partition {
      var i :| 0 <= i < |m.on| && m.on[i] == p;
    }
    if OnHolds(m.on, t, s) {
      forall i | 0 <= i < |m.partition| ensures KeyOf(m.partition, t)[i] == KeyOf(m.partition, s)[i] {
        assert m.on[i] in m.on;
      }
    } else {
      var p :| p in m.on && t[p.0] != s[p.1];
      var i :| 0 <= i < |m.on| && m.on[i] == p;
      assert KeyOf(m.partition, t)[i] != KeyOf(m.partition, s)[i];
    }
  }

  // ----- The generated statement and the MERGE of a file of changes -----

  // A table definition with distinct columns, the primary key among them.
  predicate Proper(meta: Meta) {
    && Distinct(meta)
    && forall n | n in KeyNames(meta) :: n in ColumnNames(meta.columns)
  }

  // A record of a data file: flag, table, schema, a decimal commit timestamp, one field a column.
  predicate IsRecord(meta: Meta, r: Record) { |r| == |meta.columns| + 4 && AllDigits(r[3]) }

  // The change a record stands for.
  function ChangeOf(meta: Meta, r: Record): Change
    requires Proper(meta) && IsRecord(meta, r)
  {
    Change(r[0], KeyOf(KeyNames(meta), RowOf(meta.columns, r)), r[3], RowOf(meta.columns, r))
  }

  function FileOf(meta: Meta, records: seq<Record>): (f: File)
    requires Proper(meta) && forall r | r in records :: IsRecord(meta, r)
    ensures forall c | c in f :: c.row.Keys == ColumnNames(meta.columns) && c.key == KeyOf(KeyNames(meta), c.row)
  {
    if records == [] then [] else [ChangeOf(meta, records[0])] + FileOf(meta, records[1..])
  }

  // A row of the table's columns, and its primary key.
  predicate KeyedRow(meta: Meta, k: Key, row: Row)
    requires Proper(meta)
  {
    row.Keys == ColumnNames(meta.columns) && k == KeyOf(KeyNames(meta), row)
  }

  // A target table whose rows are stored under their primary keys.
  predicate Keyed(meta: Meta, t: Table)
    requires Proper(meta)
  {
    forall k | k in t :: KeyedRow(meta, k, t[k])
  }

  lemma {:induction false} InsertsAll(names: seq<string>, s: Row)
    requires forall n | n in names :: n in s
    ensures forall n :: n in Inserted(names, names, s) <==> n in names
    ensures forall n | n in Inserted(names, names, s) :: n in s && Inserted(names, names, s)[n] == s[n]
  {
    if names != [] {
      var n := |names| - 1;
      assert names == names[..n] + [names[n]];
      InsertsAll(names[..n], s);
    }
  }

  lemma SelectsColumns(columns: seq<Column>, select: seq<(Expr, string)>)
    requires |select| == |columns| && forall i | 0 <= i < |columns| :: select[i] == Selected(columns[i], i)
    ensures SelectNames(select) == ColumnNames(columns)
  {
    hide Name;
    forall n ensures n in SelectNames(select) <==> n in ColumnNames(columns) {
      if s :| s in select && s.1 == n {
        var i :| 0 <= i < |select| && select[i] == s;
        assert columns[i] in columns && Name(columns[i]) == n;
      }
      if c :| c in columns && Name(c) == n {
        var i :| 0 <= i < |columns| && columns[i] == c;
        assert select[i] in select && select[i].1 == n;
      }
    }
  }

  lemma GeneratedResolves(meta: Meta, checkpoint: nat, m: MergeStmt)
    requires Proper(meta) && Generated(meta, checkpoint, m)
    ensures Resolves(m) && SelectNames(m.select) == ColumnNames(meta.columns) && m.partition == KeyNames(meta)
  {
    hide Name, SelectNames, ColumnNames, Resolve;
    SelectsColumns(meta.columns, m.select);
    assert m.partition == KeyNames(meta);
    forall p | p in m.on ensures p.1 in SelectNames(m.select) {
      var i :| 0 <= i < |m.on| && m.on[i] == p;
      assert p.1 == m.partition[i];
    }
    forall i | 0 <= i < |meta.columns| ensures Name(meta.columns[i]) in ColumnNames(meta.columns) {
      NameIsColumn(meta.columns, i);
    }
    forall u | u in m.update ensures u.1 in SelectNames(m.select) {
      var i :| 0 <= i < |m.update| && m.update[i] == u;
    }
    forall n | n in m.values ensures n in SelectNames(m.select) {
      var i :| 0 <= i < |m.values| && m.values[i] == n;
    }
  }

  lemma NameIsColumn(columns: seq<Column>, i: nat)
    requires i < |columns|
    ensures Name(columns[i]) in ColumnNames(columns)
  {
    hide Name;
  }

  lemma GeneratedReads(meta: Meta, checkpoint: nat, m: MergeStmt, r: Record)
    requires Proper(meta) && Generated(meta, checkpoint, m) && IsRecord(meta, r)
    ensures Reads(m, r) && Resolves(m) && SourceChange(m, r) == ChangeOf(meta, r)
  {
    GeneratedResolves(meta, checkpoint, m);
    SelectIsRow(meta.columns, m.select, r);
    hide Name, SelectNames, ColumnNames, Resolve, Resolves, KeyOf, SelectRow, RowOf, KeyNames;
  }

  lemma {:induction false} SelectionIsVisible(meta: Meta, checkpoint: nat, m: MergeStmt, records: seq<Record>)
    requires Proper(meta) && Generated(meta, checkpoint, m) && forall r | r in records :: IsRecord(meta, r)
    ensures Resolves(m) && (forall r | r in records :: Reads(m, r))
    ensures Selection(m, records) == Visible(FileOf(meta, records), checkpoint)
  {
    GeneratedResolves(meta, checkpoint, m);
    hide IsRecord, Proper, Reads, Resolves;
    forall r | r in records ensures Reads(m, r) {
      GeneratedReads(meta, checkpoint, m, r);
    }
    if records != [] {
      SelectionIsVisible(meta, checkpoint, m, records[1..]);
      GeneratedReads(meta, checkpoint, m, records[0]);
      var f := FileOf(meta, records);
      assert f[1..] == FileOf(meta, records[1..]);
    }
  }

  // What a merge source of the generated statement is: rows of the table's columns, one a key.
  ghost predicate IsSource(meta: Meta, f: File)
    requires Proper(meta)
  {
    && (forall c | c in f :: KeyedRow(meta, c.key, c.row))
    && (forall i, j | 0 <= i < j < |f| :: f[i].key != f[j].key)
  }

  lemma QualifiedIsSource(meta: Meta, records: seq<Record>, checkpoint: nat, rank: seq<nat>)
    requires Proper(meta) && forall r | r in records :: IsRecord(meta, r)
    requires IsRowNumbering(Visible(FileOf(meta, records), checkpoint), rank)
    ensures IsSource(meta, Qualified(Visible(FileOf(meta, records), checkpoint), rank))
  {
    var v := Visible(FileOf(meta, records), checkpoint);
    QualifiedRows(v, rank);
    forall i, j | 0 <= i < j < |Qualified(v, rank)| ensures Qualified(v, rank)[i].key != Qualified(v, rank)[j].key {
      SourceHasOneRowPerKey(v, rank, i, j);
    }
    hide IsRowNumbering, KeyOf, KeyNames, ColumnNames, Qualified, Visible, IsRecord;
  }

  // A target row and a source row match exactly if they have the same key.
  lemma MatchIsKey(meta: Meta, checkpoint: nat, m: MergeStmt, t: Row, c: Change)
    requires Proper(meta) && Generated(meta, checkpoint, m)
    requires t.Keys == ColumnNames(meta.columns) == c.row.Keys && c.key == KeyOf(KeyNames(meta), c.row)
    ensures OnHolds(m.on, t, c.row) <==> KeyOf(KeyNames(meta), t) == c.key
  {
    GeneratedResolves(meta, checkpoint, m);
    assert forall n | n in m.partition :: n in t && n in c.row;
    assert forall i | 0 <= i < |meta.primaryKeys| :: m.on[i] == (m.partition[i], m.partition[i]);
    hide Generated, Proper, Resolves, Resolve, ColumnNames, KeyNames, KeyOf, OnHolds;
    OnIsSameKey(meta, m, t, c.row);
  }

  lemma WrittenRow(meta: Meta, checkpoint: nat, m: MergeStmt, t: Row, s: Row)
    requires Proper(meta) && Generated(meta, checkpoint, m)
    requires t.Keys <= ColumnNames(meta.columns) && s.Keys == ColumnNames(meta.columns)
    ensures (forall u | u in m.update :: u.1 in s) && Assign(m.update, t, s) == s
    ensures |m.insert| == |m.values| && (forall n | n in m.values :: n in s) && Inserted(m.insert, m.values, s) == s
  {
    BranchesTakeSourceRow(meta, m, t, s);
    InsertedRow(meta, checkpoint, m, s);
    hide Generated, Proper, ColumnNames;
  }

  lemma InsertedRow(meta: Meta, checkpoint: nat, m: MergeStmt, s: Row)
    requires Proper(meta) && Generated(meta, checkpoint, m) && s.Keys == ColumnNames(meta.columns)
    ensures |m.insert| == |m.values| && (forall n | n in m.values :: n in s) && Inserted(m.insert, m.values, s) == s
  {
    hide Proper, Generated, Resolve, Name, ColumnNames, SelectNames;
    InsertIsValues(meta, checkpoint, m);
    GeneratedResolves(meta, checkpoint, m);
    forall n | n in s ensures n in m.values {
      ValueOfColumn(meta, checkpoint, m, n);
    }
    hide Resolves;
    InsertsAll(m.values, s);
  }

  lemma InsertIsValues(meta: Meta, checkpoint: nat, m: MergeStmt)
    requires Generated(meta, checkpoint, m)
    ensures m.insert == m.values
  {
    hide Name, Resolve;
  }

  lemma ValueOfColumn(meta: Meta, checkpoint: nat, m: MergeStmt, n: string)
    requires Generated(meta, checkpoint, m) && n in ColumnNames(meta.columns)
    ensures n in m.values
  {
    hide Name;
    var c :| c in meta.columns && Name(c) == n;
    var i :| 0 <= i < |meta.columns| && meta.columns[i] == c;
    assert m.values[i] == n;
  }

  lemma {:induction false} SourceRowIsOnly(f: File, c: Change)
    requires c in f && forall i, j | 0 <= i < j < |f| :: f[i].key != f[j].key
    ensures SourceRow(f, c.key) == Some(c)
  {
    SourceRowFound(f, c.key);
    var d := SourceRow(f, c.key).value;
    var i :| 0 <= i < |f| && f[i] == c;
    var j :| 0 <= j < |f| && f[j] == d;
  }

  // What the statement does to one key: nothing without a source row, else the branch that fits.
  ghost predicate Writes(rows: Table, f: File, k: Key, row: Row) {
    (SourceRow(f, k).None? && k in rows && row == rows[k]) || (SourceRow(f, k).Some? && SourceRow(f, k).value.flag != "D" && row == SourceRow(f, k).value.row)
  }

  lemma WritesIsMergeInto(t: Table, f: File, k: Key, row: Row)
    ensures Writes(t, f, k, row) <==> k in MergeInto(t, f) && MergeInto(t, f)[k] == row
  {
    BranchOutcome(t, f, k);
  }

  // Each row the branches leave is what its key gets,
  lemma KeptWrites(meta: Meta, checkpoint: nat, m: MergeStmt, t: Table, f: File, k: Key)
    requires Proper(meta) && Generated(meta, checkpoint, m) && Keyed(meta, t) && IsSource(meta, f)
    requires k in t && forall s | s in f :: !OnHolds(m.on, t[k], s.row)
    ensures Writes(t, f, k, t[k])
  {
    SourceRowFound(f, k);
    hide Generated, OnHolds;
    if SourceRow(f, k).Some? {
      MatchIsKey(meta, checkpoint, m, t[k], SourceRow(f, k).value);
    }
  }

  lemma UpdatedWrites(meta: Meta, checkpoint: nat, m: MergeStmt, t: Table, f: File, k: Key, s: Change)
    requires Proper(meta) && Generated(meta, checkpoint, m) && Keyed(meta, t) && IsSource(meta, f)
    requires k in t && s in f && s.flag != "D"
    ensures (forall u | u in m.update :: u.1 in s.row) && Writes(t, f, s.key, Assign(m.update, t[k], s.row))
  {
    hide Generated;
    SourceRowIsOnly(f, s);
    WrittenRow(meta, checkpoint, m, t[k], s.row);
  }

  lemma InsertedWrites(meta: Meta, checkpoint: nat, m: MergeStmt, t: Table, f: File, s: Change)
    requires Proper(meta) && Generated(meta, checkpoint, m) && IsSource(meta, f) && s in f && s.flag != "D"
    ensures |m.insert| == |m.values| && (forall n | n in m.values :: n in s.row) && Writes(t, f, s.key, Inserted(m.insert, m.values, s.row))
  {
    hide Generated;
    SourceRowIsOnly(f, s);
    WrittenRow(meta, checkpoint, m, map[], s.row);
  }

  lemma MergedWrites(meta: Meta, checkpoint: nat, m: MergeStmt, t: Table, f: File, row: Row) returns (k: Key)
    requires Proper(meta) && Generated(meta, checkpoint, m) && Keyed(meta, t) && IsSource(meta, f)
    requires Resolves(m) && HasColumns(m, f) && row in Merged(m, t.Values, f)
    ensures Writes(t, f, k, row)
  {
    hide Proper, Generated, Keyed, IsSource, Writes, OnHolds, Assign, Inserted;
    if k0 :| k0 in t && t[k0] == row && (forall s | s in f :: !OnHolds(m.on, row, s.row)) {
      k := k0;
      KeptWrites(meta, checkpoint, m, t, f, k);
    } else if x, s :| x in t.Values && s in f && s.flag != "D" && row == Assign(m.update, x, s.row) {
      var k0 :| k0 in t && t[k0] == x;
      k := s.key;
      UpdatedWrites(meta, checkpoint, m, t, f, k0, s);
    } else {
      var s :| s in f && s.flag != "D" && row == Inserted(m.insert, m.values, s.row);
      k := s.key;
      InsertedWrites(meta, checkpoint, m, t, f, s);
    }
  }

  // and the other way round.
  lemma WritesMerged(meta: Meta, checkpoint: nat, m: MergeStmt, t: Table, f: File, k: Key, row: Row)
    requires Proper(meta) && Generated(meta, checkpoint, m) && Keyed(meta, t) && IsSource(meta, f)
    requires Resolves(m) && HasColumns(m, f) && Writes(t, f, k, row)
    ensures row in Merged(m, t.Values, f)
  {
    SourceRowFound(f, k);
    if SourceRow(f, k).None? {
      forall s | s in f ensures !OnHolds(m.on, row, s.row) {
        MatchIsKey(meta, checkpoint, m, row, s);
      }
    } else {
      var s := SourceRow(f, k).value;
      if k in t {
        MatchIsKey(meta, checkpoint, m, t[k], s);
        WrittenRow(meta, checkpoint, m, t[k], s.row);
        assert t[k] in t.Values;
      } else {
        forall x | x in t.Values ensures !OnHolds(m.on, x, s.row) {
          MatchIsKey(meta, checkpoint, m, x, s);
        }
        WrittenRow(meta, checkpoint, m, map[], s.row);
      }
    }
  }

  lemma MergedIsMergeInto(meta: Meta, checkpoint: nat, m: MergeStmt, t: Table, f: File)
    requires Proper(meta) && Generated(meta, checkpoint, m) && Keyed(meta, t) && IsSource(meta, f)
    requires Resolves(m) && HasColumns(m, f)
    ensures Merged(m, t.Values, f) == MergeInto(t, f).Values
  {
    hide Proper, Generated, Keyed, IsSource, Resolves, HasColumns, Merged, MergeInto, Writes;
    forall row ensures row in Merged(m, t.Values, f) <==> row in MergeInto(t, f).Values {
      if row in Merged(m, t.Values, f) {
        var k := MergedWrites(meta, checkpoint, m, t, f, row);
        WritesIsMergeInto(t, f, k, row);
      }
      if k :| k in MergeInto(t, f) && MergeInto(t, f)[k] == row {
        WritesIsMergeInto(t, f, k, row);
        WritesMerged(meta, checkpoint, m, t, f, k, row);
      }
    }
  }

  lemma NoRowMatchesTwice(meta: Meta, checkpoint: nat, m: MergeStmt, t: Table, f: File)
    requires Proper(meta) && Generated(meta, checkpoint, m) && Keyed(meta, t) && IsSource(meta, f)
    ensures Deterministic(m, t.Values, f)
  {
    forall x, i, j | x in t.Values && 0 <= i < j < |f|
      ensures !(OnHolds(m.on, x, f[i].row) && OnHolds(m.on, x, f[j].row))
    {
      MatchIsKey(meta, checkpoint, m, x, f[i]);
      MatchIsKey(meta, checkpoint, m, x, f[j]);
    }
  }

  lemma StaysKeyed(meta: Meta, t: Table, f: File)
    requires Proper(meta) && Keyed(meta, t) && IsSource(meta, f)
    ensures Keyed(meta, MergeInto(t, f))
  {
    hide KeyedRow;
    forall k | k in MergeInto(t, f) ensures KeyedRow(meta, k, MergeInto(t, f)[k]) {
      WritesIsMergeInto(t, f, k, MergeInto(t, f)[k]);
      SourceRowFound(f, k);
    }
  }

  // With merge source f the statement is accepted and leaves what MERGE leaves.
  ghost predicate Joins(meta: Meta, m: MergeStmt, t: Table, f: File)
    requires Proper(meta) && Resolves(m)
  {
    && HasColumns(m, f) && Deterministic(m, t.Values, f)
    && Merged(m, t.Values, f) == MergeInto(t, f).Values && Keyed(meta, MergeInto(t, f))
  }

  lemma RankJoins(meta: Meta, checkpoint: nat, m: MergeStmt, records: seq<Record>, t: Table, rank: seq<nat>)
    requires Proper(meta) && Generated(meta, checkpoint, m) && Keyed(meta, t) && forall r | r in records :: IsRecord(meta, r)
    requires Resolves(m) && SelectNames(m.select) == ColumnNames(meta.columns)
    requires IsRowNumbering(Visible(FileOf(meta, records), checkpoint), rank)
    ensures Joins(meta, m, t, Qualified(Visible(FileOf(meta, records), checkpoint), rank))
  {
    var f := Qualified(Visible(FileOf(meta, records), checkpoint), rank);
    QualifiedIsSource(meta, records, checkpoint, rank);
    assert HasColumns(m, f);
    hide Proper, Generated, Resolves, Keyed, IsRecord, Merged, MergeInto, IsRowNumbering, IsSource, HasColumns, Deterministic, Qualified, Visible;
    MergedIsMergeInto(meta, checkpoint, m, t, f);
    NoRowMatchesTwice(meta, checkpoint, m, t, f);
    StaysKeyed(meta, t, f);
  }

  lemma GeneratedIsSql(meta: Meta, checkpoint: nat, m: MergeStmt)
    requires Proper(meta) && Generated(meta, checkpoint, m)
    ensures IsSql(m) <==> meta.primaryKeys != []
  {
    hide Name, Resolve;
    if meta.primaryKeys != [] {
      assert KeyNames(meta)[0] in KeyNames(meta);
    }
  }

  // Without a primary key the generated statement is no SQL. With one it never fails for two source
  // rows of one target row, and the tables it may leave are those the MERGE of the file's changes may
  // leave.
  lemma GeneratedMerges(meta: Meta, checkpoint: nat, m: MergeStmt, records: seq<Record>, t: Table, rows2: set<Row>)
    requires Proper(meta) && Generated(meta, checkpoint, m) && Keyed(meta, t) && forall r | r in records :: IsRecord(meta, r)
    ensures Resolves(m) && forall r | r in records :: Reads(m, r)
    ensures Denote(m, records, t.Values, rows2) <==>
            meta.primaryKeys != [] && exists t2 :: MergeStatement(t, FileOf(meta, records), checkpoint, t2) && Keyed(meta, t2) && rows2 == t2.Values
  {
    GeneratedResolves(meta, checkpoint, m);
    GeneratedIsSql(meta, checkpoint, m);
    SelectionIsVisible(meta, checkpoint, m, records);
    assert Denote(m, records, t.Values, rows2) ==> IsSql(m);
    hide Proper, Generated, Resolves, Reads, Keyed, IsRecord, IsRowNumbering, Joins, Denote, MergeStatement, IsSql;
    forall rank: seq<nat> | IsRowNumbering(Visible(FileOf(meta, records), checkpoint), rank)
      ensures Joins(meta, m, t, Qualified(Visible(FileOf(meta, records), checkpoint), rank))
    {
      RankJoins(meta, checkpoint, m, records, t, rank);
    }
    if t2 :| meta.primaryKeys != [] && MergeStatement(t, FileOf(meta, records), checkpoint, t2) && Keyed(meta, t2) && rows2 == t2.Values {
      MergeIsDenoted(meta, checkpoint, m, records, t, FileOf(meta, records), t2);
    }
    if Denote(m, records, t.Values, rows2) {
      var t2 := DenotedIsMerge(meta, checkpoint, m, records, t, FileOf(meta, records), rows2);
    }
  }

  lemma MergeIsDenoted(meta: Meta, checkpoint: nat, m: MergeStmt, records: seq<Record>, t: Table, f: File, t2: Table)
    requires Proper(meta) && Resolves(m) && (forall r | r in records :: Reads(m, r)) && Selection(m, records) == Visible(f, checkpoint)
    requires forall rank: seq<nat> | IsRowNumbering(Visible(f, checkpoint), rank) :: Joins(meta, m, t, Qualified(Visible(f, checkpoint), rank))
    requires IsSql(m) && MergeStatement(t, f, checkpoint, t2)
    ensures Denote(m, records, t.Values, t2.Values)
  {
    hide Proper, Resolves, Reads, Keyed, TextLess, HasColumns, Deterministic, Merged, MergeInto, Qualified, Visible, Selection;
    var rank: seq<nat> :| IsRowNumbering(Visible(f, checkpoint), rank) && t2 == MergeInto(t, Qualified(Visible(f, checkpoint), rank));
  }

  lemma DenotedIsMerge(meta: Meta, checkpoint: nat, m: MergeStmt, records: seq<Record>, t: Table, f: File, rows2: set<Row>) returns (t2: Table)
    requires Proper(meta) && Resolves(m) && (forall r | r in records :: Reads(m, r)) && Selection(m, records) == Visible(f, checkpoint)
    requires forall rank: seq<nat> | IsRowNumbering(Visible(f, checkpoint), rank) :: Joins(meta, m, t, Qualified(Visible(f, checkpoint), rank))
    requires Denote(m, records, t.Values, rows2)
    ensures MergeStatement(t, f, checkpoint, t2) && Keyed(meta, t2) && rows2 == t2.Values
  {
    hide Proper, Resolves, Reads, Keyed, TextLess, HasColumns, Deterministic, Merged, MergeInto, Qualified, Visible, Selection;
    var rank: seq<nat> :| IsRowNumbering(Visible(f, checkpoint), rank) && HasColumns(m, Qualified(Visible(f, checkpoint), rank))
                          && rows2 == Merged(m, t.Values, Qualified(Visible(f, checkpoint), rank));
    t2 := MergeInto(t, Qualified(Visible(f, checkpoint), rank));
  }

  lemma MergeStaysKeyed(meta: Meta, checkpoint: nat, m: MergeStmt, records: seq<Record>, t: Table, t2: Table)
    requires Proper(meta) && Generated(meta, checkpoint, m) && Keyed(meta, t) && forall r | r in records :: IsRecord(meta, r)
    requires MergeStatement(t, FileOf(meta, records), checkpoint, t2)
    ensures Keyed(meta, t2)
  {
    GeneratedResolves(meta, checkpoint, m);
    hide Proper, Generated, Resolves, Keyed, IsRecord, MergeInto, IsRowNumbering, Qualified, Visible;
    var rank: seq<nat> :| IsRowNumbering(Visible(FileOf(meta, records), checkpoint), rank)
                          && t2 == MergeInto(t, Qualified(Visible(FileOf(meta, records), checkpoint), rank));
    RankJoins(meta, checkpoint, m, records, t, rank);
  }

  // With a primary key, the generated statement, on timestamps of one width, leaves exactly the table that replaying the
  // file's changes in commit order leaves.
  lemma GeneratedRefinesReplay(meta: Meta, checkpoint: nat, m: MergeStmt, records: seq<Record>, t: Table, rows2: set<Row>, w: nat, es: seq<Change>)
    requires Proper(meta) && Generated(meta, checkpoint, m) && Keyed(meta, t) && forall r | r in records :: IsRecord(meta, r)
    requires Stamped(FileOf(meta, records), w) && Consistent(FileOf(meta, records))
    requires multiset(es) == multiset(Visible(FileOf(meta, records), checkpoint)) && InCommitOrder(es)
    ensures Resolves(m) && forall r | r in records :: Reads(m, r)
    ensures Denote(m, records, t.Values, rows2) <==> meta.primaryKeys != [] && rows2 == Replay(t, es).Values
  {
    var f := FileOf(meta, records);
    GeneratedMerges(meta, checkpoint, m, records, t, rows2);
    MergeIsReplay(t, f, checkpoint, w, es);
    MergeStaysKeyed(meta, checkpoint, m, records, t, Replay(t, es));
    hide *;
  }

  lemma MergeIsReplay(t: Table, f: File, checkpoint: nat, w: nat, es: seq<Change>)
    requires Stamped(f, w) && Consistent(f)
    requires multiset(es) == multiset(Visible(f, checkpoint)) && InCommitOrder(es)
    ensures forall t2 :: MergeStatement(t, f, checkpoint, t2) <==> t2 == Replay(t, es)
  {
    var some := MergeHasResult(t, f, checkpoint);
    hide MergeStatement, Visible, Replay, Stamped, Consistent, InCommitOrder;
    forall t2 | MergeStatement(t, f, checkpoint, t2) ensures t2 == Replay(t, es) {
      MergeRefinesReplay(t, f, checkpoint, w, t2, es);
    }
  }
}
