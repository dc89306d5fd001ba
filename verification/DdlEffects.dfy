// What each kind of TiDB DDL comes to in Snowflake, rows and columns and whether there is a table at
// all (GenDDLViaTiDBDDL in pkg/snowflake/ddl.go).
module DdlEffects {
  import opened Wrappers
  import opened Identifiers
  import opened Merge
  import opened Statements
  import opened History
  import opened Ddl
  import opened DdlMeaning

  // ----- The target -----

  datatype Target = NoTable | TheTable(columns: Columns, rows: Table)

  // One statement on the target; None if Snowflake rejects it.
  function RunStep(t: Target, s: Step): Option<Target> {
    match s.statement
    case DropTableIfExists => Some(NoTable)
    case TruncateTable => if t == NoTable then None else Some(TheTable(t.columns, map[]))
    case _ =>
      if t == NoTable then None
      else
        match RunOne(t.columns, s.statement)
        case None => None
        case Some(columns) => Some(TheTable(columns, OnTable(s, t.rows)))
  }

  function RunSteps(t: Target, d: seq<Step>): Option<Target> {
    if d == [] then Some(t)
    else
      match RunSteps(t, d[..|d| - 1])
      case None => None
      case Some(t2) => RunStep(t2, d[|d| - 1])
  }

  // ----- ALTER -----

  predicate OnColumns(s: Statement) { !s.TruncateTable? && !s.DropTableIfExists? }

  // The table has, key by key, what the DDL makes of the rows.
  ghost predicate RowsAfter(rows: Table, d: seq<Step>, rows2: Table) {
    forall k: Key :: Lookup(rows2, k) == OnRow(d, Lookup(rows, k))
  }

  lemma OnTableIsOnStep(s: Step, rows: Table, k: Key)
    ensures Lookup(OnTable(s, rows), k) == OnStep(s, Lookup(rows, k))
  {
  }

  // Statements on columns act on columns and rows side by side.
  lemma {:induction false} ColumnsAndRows(columns: Columns, rows: Table, d: seq<Step>)
    requires forall s | s in StatementsOf(d) :: OnColumns(s)
    ensures match RunAll(columns, StatementsOf(d))
            case None => RunSteps(TheTable(columns, rows), d) == None
            case Some(columns2) =>
              var t2 := RunSteps(TheTable(columns, rows), d);
              t2.Some? && t2.value.TheTable? && t2.value.columns == columns2 && RowsAfter(rows, d, t2.value.rows)
  {
    if d != [] {
      var n := |d| - 1;
      assert StatementsOf(d) == StatementsOf(d[..n]) + [d[n].statement];
      assert StatementsOf(d)[..n] == StatementsOf(d[..n]);
      ColumnsAndRows(columns, rows, d[..n]);
      assert OnColumns(d[n].statement);
      var before := RunSteps(TheTable(columns, rows), d[..n]);
      if before.Some? {
        forall k: Key ensures Lookup(OnTable(d[n], before.value.rows), k) == OnRow(d, Lookup(rows, k)) {
          OnTableIsOnStep(d[n], before.value.rows, k);
        }
      }
    }
  }

  lemma SpecOnColumns(prev: Option<Meta>, next: Meta, spec: Spec)
    requires SpecStatements(prev, next, spec).Ok?
    ensures forall s | s in SpecStatements(prev, next, spec).value :: OnColumns(s)
  {
    if spec.AddColumns? {
      AddsOnColumns(next, spec.names);
    }
  }

  lemma {:induction false} AddsOnColumns(next: Meta, names: seq<string>)
    requires AddStatements(next, names).Ok?
    ensures forall s | s in AddStatements(next, names).value :: OnColumns(s)
  {
    if names != [] {
      AddsOnColumns(next, names[..|names| - 1]);
    }
  }

  lemma {:induction false} CompiledOnColumns(prev: Option<Meta>, next: Meta, specs: seq<Spec>)
    requires Compile(prev, next, specs).Ok?
    ensures forall s | s in Compile(prev, next, specs).value :: OnColumns(s)
  {
    if specs != [] {
      var n := |specs| - 1;
      CompiledOnColumns(prev, next, specs[..n]);
      SpecOnColumns(prev, next, specs[n]);
    }
  }

  // ----- When a DDL is translated at all -----

  predicate HasColumn(meta: Option<Meta>, name: string) {
    meta.Some? && exists c :: c in meta.value.columns && EqualFold(c.name, name)
  }

  // The columns a spec needs are there: those it adds or leaves in the next schema, those it drops or
  // changes in the previous one.
  predicate SpecCompiles(prev: Option<Meta>, next: Meta, spec: Spec) {
    match spec
    case AddColumns(names) => forall n | n in names :: HasColumn(Some(next), n)
    case DropColumn(o) => HasColumn(prev, o)
    case RenameColumn(o, n) => HasColumn(prev, o) && HasColumn(Some(next), n)
    case ModifyColumn(name) => HasColumn(prev, name) && HasColumn(Some(next), name)
    case ChangeColumn(o, n) => HasColumn(prev, o) && HasColumn(Some(next), n)
    case RenameTable => false
    case OtherSpec => true
  }

  lemma FoundIff(meta: Option<Meta>, name: string)
    ensures ColumnInMeta(meta, name).Ok? <==> HasColumn(meta, name)
  {
    if meta.Some? {
      FindIn(meta.value.columns, name);
    }
  }

  lemma SpecCompilesIff(prev: Option<Meta>, next: Meta, spec: Spec)
    ensures SpecStatements(prev, next, spec).Ok? <==> SpecCompiles(prev, next, spec)
  {
    hide EqualFold, HasColumn, ColumnInMeta;
    match spec
    case AddColumns(names) =>
      AddsCompileIff(next, names);
      forall n ensures Find(next.columns, n).Some? <==> HasColumn(Some(next), n) {
        FoundInNext(next, n);
      }
    case DropColumn(o) => FoundIff(prev, o);
    case RenameColumn(o, n) => FoundIff(prev, o); FoundIff(Some(next), n);
    case ModifyColumn(name) => FoundIff(prev, name); FoundIff(Some(next), name);
    case ChangeColumn(o, n) => FoundIff(prev, o); FoundIff(Some(next), n);
    case RenameTable =>
    case OtherSpec =>
  }

  lemma FoundInNext(next: Meta, name: string)
    ensures Find(next.columns, name).Some? <==> HasColumn(Some(next), name)
  {
    FoundIff(Some(next), name);
  }

  // An ALTER is translated exactly if every spec's columns are there and none renames the table.
  lemma {:induction false} CompilesIff(prev: Option<Meta>, next: Meta, specs: seq<Spec>)
    ensures Compile(prev, next, specs).Ok? <==> forall s | s in specs :: SpecCompiles(prev, next, s)
  {
    if specs != [] {
      var n := |specs| - 1;
      assert specs == specs[..n] + [specs[n]];
      CompilesIff(prev, next, specs[..n]);
      SpecCompilesIff(prev, next, specs[n]);
      hide SpecCompiles, SpecStatements;
    }
  }

  // Which DDLs are refused: creating or renaming a table, creating a schema, a query that does not parse
  // or is no ALTER TABLE, and an ALTER that cannot be translated.
  lemma RefusedIff(prev: Option<Meta>, next: Meta, kind: Kind, query: Query)
    ensures GenDdl(prev, next, kind, query).Err? <==>
              || kind == CreateTableKind || kind == RenameTableKind || kind == CreateSchemaKind
              || (kind == OtherKind && (query == Unparsable || query == OtherStatement
                                        || (query.AlterTable? && exists s :: s in query.specs && !SpecCompiles(prev, next, s))))
  {
    if query.AlterTable? {
      CompilesIff(prev, next, query.specs);
    }
  }

  // ----- What it does -----

  // The DDL d consists of the statements GenDdl gave, with any values and conversions of cells.
  ghost predicate IsGiven(prev: Option<Meta>, next: Meta, kind: Kind, query: Query, d: seq<Step>) {
    GenDdl(prev, next, kind, query) == Ok(StatementsOf(d))
  }

  // TRUNCATE leaves the columns and no row, and needs a table.
  lemma TruncateEmpties(prev: Option<Meta>, next: Meta, query: Query, d: seq<Step>, t: Target)
    requires IsGiven(prev, next, TruncateTableKind, query, d)
    ensures RunSteps(t, d) == if t == NoTable then None else Some(TheTable(t.columns, map[]))
  {
    OneStep(t, d);
  }

  // DROP leaves no table, whether there was one or not.
  lemma DropRemoves(prev: Option<Meta>, next: Meta, query: Query, d: seq<Step>, t: Target)
    requires IsGiven(prev, next, DropTableKind, query, d)
    ensures RunSteps(t, d) == Some(NoTable)
  {
    OneStep(t, d);
  }

  lemma OneStep(t: Target, d: seq<Step>)
    requires |d| == 1
    ensures RunSteps(t, d) == RunStep(t, d[0])
  {
    assert d[..0] == [];
  }

  // Dropping the schema and a schema file whose query is blank change nothing.
  lemma NothingChanges(prev: Option<Meta>, next: Meta, kind: Kind, query: Query, d: seq<Step>, t: Target)
    requires kind == DropSchemaKind || (kind == OtherKind && query == Blank)
    ensures GenDdl(prev, next, kind, query) == Ok([])
    ensures IsGiven(prev, next, kind, query, d) ==> RunSteps(t, d) == Some(t)
  {
  }

  // An ALTER takes the columns of the previous schema to those of the next exactly if every spec is one
  // the translation renders, and each row to what its statements make of it.
  lemma AlterTakes(prev: Meta, next: Meta, specs: seq<Spec>, d: seq<Step>, rows: Table)
    requires Takes(prev, next, specs) && IsGiven(Some(prev), next, OtherKind, AlterTable(specs), d)
    ensures var t2 := RunSteps(TheTable(ImageOf(prev.columns), rows), d);
            && ((t2.Some? && t2.value.TheTable? && t2.value.columns == ImageOf(next.columns)) <==> forall s | s in specs :: Renders(prev, next, s))
            && (t2.Some? ==> t2.value.TheTable? && RowsAfter(rows, d, t2.value.rows))
  {
    hide *;
    GivenIsCompiled(Some(prev), next, specs, d);
    TranslationPreservesMeaning(prev, next, specs);
    CompiledOnColumns(Some(prev), next, specs);
    ColumnsAndRows(ImageOf(prev.columns), rows, d);
  }

  lemma GivenIsCompiled(prev: Option<Meta>, next: Meta, specs: seq<Spec>, d: seq<Step>)
    requires IsGiven(prev, next, OtherKind, AlterTable(specs), d)
    ensures Compile(prev, next, specs) == Ok(StatementsOf(d))
  {
  }

  // ----- MODIFY's actions -----

  // Type, default and nullability are changed exactly if they differ: the type with its NOT NULL, a
  // default only when it is taken away.
  lemma ActionsAre(before: Column, after: Column)
    ensures forall a :: a in ColumnModify(before, after) <==>
              match a
              case SetType(tp, notNull) => before.tp != after.tp && tp == after.tp && (notNull <==> after.nullable == "false")
              case DropDefault => before.default_.Some? && after.default_.None?
              case DropNotNull => before.nullable != after.nullable && after.nullable == "true"
              case SetNotNull => before.nullable != after.nullable && after.nullable != "true"
    ensures forall i, j | 0 <= i < j < |ColumnModify(before, after)| :: ColumnModify(before, after)[i] != ColumnModify(before, after)[j]
  {
  }
}
