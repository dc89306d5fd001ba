// Translating ALTER TABLE specs to Snowflake statements (pkg/snowflake/ddl.go).
module Ddl {
  import opened Wrappers
  import opened Identifiers
  import opened Statements

  // ----- Column metadata -----

  datatype Column = Column(name: string, tp: Type, default_: Option<string>, nullable: string)
  datatype Meta = Meta(schema: string, table: string, columns: seq<Column>)

  // Column names are unique but for case.
  predicate WellFormed(m: Meta) {
    forall i, j | 0 <= i < j < |m.columns| :: !EqualFold(m.columns[i].name, m.columns[j].name)
  }

  function Find(columns: seq<Column>, name: string): Option<Column> {
    if columns == [] then None
    else if EqualFold(columns[0].name, name) then Some(columns[0])
    else Find(columns[1..], name)
  }

  // columnInMeta; there may be no metadata at all.
  function ColumnInMeta(meta: Option<Meta>, name: string): Result<Column> {
    match meta
    case None => Err("column not found")
    case Some(m) =>
      match Find(m.columns, name)
      case Some(c) => Ok(c)
      case None => Err("column not found in table")
  }

  // ----- ALTER specs -----

  datatype Spec =
    | AddColumns(names: seq<string>)
    | DropColumn(old_: string)
    | RenameColumn(old_: string, new_: string)
    | ModifyColumn(name: string)          // MODIFY and ALTER COLUMN
    | ChangeColumn(old_: string, new_: string)
    | RenameTable
    | OtherSpec

  // ----- The compiler -----

  function ColumnModify(before: Column, after: Column): seq<Action> {
    (if before.tp != after.tp then [SetType(after.tp, after.nullable == "false")] else [])
    + (if before.default_ != after.default_ && after.default_.None? then [DropDefault] else [])
    + (if before.nullable == after.nullable then []
       else if after.nullable == "true" then [DropNotNull]
       else [SetNotNull])
  }

  function ModifyStatements(before: Column, after: Column): seq<Statement> {
    var actions := ColumnModify(before, after);
    if actions == [] then [] else [Modify(Resolve(after.name), actions)]
  }

  function AddStatements(next: Meta, names: seq<string>): Result<seq<Statement>> {
    if names == [] then Ok([])
    else
      match AddStatements(next, names[..|names| - 1])
      case Err(e) => Err(e)
      case Ok(before) =>
        match ColumnInMeta(Some(next), names[|names| - 1])
        case Err(e) => Err(e)
        case Ok(c) => Ok(before + [Add(Resolve(c.name), c.tp, c.nullable == "false")])
  }

  function SpecStatements(prev: Option<Meta>, next: Meta, spec: Spec): Result<seq<Statement>> {
    match spec
    case AddColumns(names) => AddStatements(next, names)
    case DropColumn(o) =>
      if ColumnInMeta(prev, o).Err? then Err("column not found") else Ok([Drop(Resolve(o))])
    case RenameColumn(o, n) =>
      if ColumnInMeta(prev, o).Err? || ColumnInMeta(Some(next), n).Err? then Err("column not found")
      else Ok([Rename(Resolve(o), Resolve(n))])
    case ModifyColumn(name) =>
      var before, after := ColumnInMeta(prev, name), ColumnInMeta(Some(next), name);
      if before.Err? || after.Err? then Err("column not found") else Ok(ModifyStatements(before.value, after.value))
    case ChangeColumn(o, n) =>
      var before, after := ColumnInMeta(prev, o), ColumnInMeta(Some(next), n);
      if before.Err? || after.Err? then Err("column not found")
      else
        Ok((if EqualFold(before.value.name, after.value.name) then [] else [Rename(Resolve(before.value.name), Resolve(after.value.name))])
           + ModifyStatements(before.value, after.value))
    case RenameTable => Err("rename table ddl is not supported")
    case OtherSpec => Ok([])
  }

  function Compile(prev: Option<Meta>, next: Meta, specs: seq<Spec>): Result<seq<Statement>> {
    if specs == [] then Ok([])
    else
      match Compile(prev, next, specs[..|specs| - 1])
      case Err(e) => Err(e)
      case Ok(before) =>
        match SpecStatements(prev, next, specs[|specs| - 1])
        case Err(e) => Err(e)
        case Ok(more) => Ok(before + more)
  }

  // The text of a schema file's query, as the parser reads it.
  datatype Query = Blank | Unparsable | AlterTable(specs: seq<Spec>) | OtherStatement

  datatype Kind = TruncateTableKind | DropTableKind | CreateTableKind | RenameTableKind | DropSchemaKind | CreateSchemaKind | OtherKind

  // GenDDLViaTiDBDDL.
  function GenDdl(prev: Option<Meta>, next: Meta, kind: Kind, query: Query): Result<seq<Statement>> {
    match kind
    case TruncateTableKind => Ok([TruncateTable])
    case DropTableKind => Ok([DropTableIfExists])
    case CreateTableKind => Err("create table ddl")
    case RenameTableKind => Err("rename table ddl is not supported")
    case DropSchemaKind => Ok([])
    case CreateSchemaKind => Err("create schema ddl")
    case OtherKind =>
      match query
      case Blank => Ok([])
      case Unparsable => Err("parse")
      case OtherStatement => Err("unsupported TiDB DDL query")
      case AlterTable(specs) => Compile(prev, next, specs)
  }

  // ----- The image of metadata -----

  // A column as buildColumn would create it.
  function ColOf(c: Column): Col { Col(c.tp, c.nullable != "false") }

  function ImageOf(columns: seq<Column>): Columns {
    if columns == [] then map[]
    else ImageOf(columns[..|columns| - 1])[Resolve(columns[|columns| - 1].name) := ColOf(columns[|columns| - 1])]
  }

  // ----- The compiler's loops -----

  method GenAlterTableDDLs(prev: Option<Meta>, next: Meta, specs: seq<Spec>) returns (r: Result<seq<Statement>>)
    ensures r.Ok? <==> Compile(prev, next, specs).Ok?
    ensures r.Ok? ==> r == Compile(prev, next, specs)
  {
    var ddls: seq<Statement> := [];
    for i := 0 to |specs|
      invariant Compile(prev, next, specs[..i]) == Ok(ddls)
    {
      assert specs[..i + 1][..i] == specs[..i];
      var spec := specs[i];
      match spec {
        case AddColumns(names) =>
          var added := GenAddColumns(next, names);
          if added.Err? {
            CompileStops(prev, next, specs, i);
            return added;
          }
          ddls := ddls + added.value;
        case _ =>
          var more := SpecStatements(prev, next, spec);
          if more.Err? {
            CompileStops(prev, next, specs, i);
            return more;
          }
          ddls := ddls + more.value;
      }
    }
    assert specs[..|specs|] == specs;
    return Ok(ddls);
  }

  method GenAddColumns(next: Meta, names: seq<string>) returns (r: Result<seq<Statement>>)
    ensures r.Ok? <==> AddStatements(next, names).Ok?
    ensures r.Ok? ==> r == AddStatements(next, names)
  {
    var ddls: seq<Statement> := [];
    for i := 0 to |names|
      invariant AddStatements(next, names[..i]) == Ok(ddls)
    {
      assert names[..i + 1][..i] == names[..i];
      var c := ColumnInMeta(Some(next), names[i]);
      if c.Err? {
        AddStops(next, names, i);
        return Err(c.error);
      }
      ddls := ddls + [Add(Resolve(c.value.name), c.value.tp, c.value.nullable == "false")];
    }
    assert names[..|names|] == names;
    return Ok(ddls);
  }

  lemma {:induction false} AddStops(next: Meta, names: seq<string>, i: nat)
    requires i < |names| && ColumnInMeta(Some(next), names[i]).Err?
    ensures AddStatements(next, names).Err?
    decreases |names|
  {
    if i < |names| - 1 {
      AddStops(next, names[..|names| - 1], i);
    }
  }

  lemma {:induction false} CompileStops(prev: Option<Meta>, next: Meta, specs: seq<Spec>, i: nat)
    requires i < |specs| && SpecStatements(prev, next, specs[i]).Err?
    ensures Compile(prev, next, specs).Err?
    decreases |specs|
  {
    if i < |specs| - 1 {
      CompileStops(prev, next, specs[..|specs| - 1], i);
    }
  }
}
