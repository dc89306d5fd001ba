// When the generated statements take the Snowflake image of the previous schema to the image of
// the next one.
module DdlMeaning {
  import opened Wrappers
  import opened Identifiers
  import opened Statements
  import opened Ddl

  // ----- What TiDB did -----

  // The columns a spec names, by folded name.
  function Touched(spec: Spec): set<string> {
    match spec
    case AddColumns(names) => Folds(names)
    case DropColumn(o) => {Fold(o)}
    case RenameColumn(o, n) => {Fold(o), Fold(n)}
    case ModifyColumn(name) => {Fold(name)}
    case ChangeColumn(o, n) => {Fold(o), Fold(n)}
    case RenameTable => {}
    case OtherSpec => {}
  }

  function Folds(names: seq<string>): set<string> { set n | n in names :: Fold(n) }

  function TouchedBy(specs: seq<Spec>): set<string> {
    if specs == [] then {} else TouchedBy(specs[..|specs| - 1]) + Touched(specs[|specs| - 1])
  }

  // A renaming takes column o of prev to column n of next.
  predicate Renamed(prev: Meta, next: Meta, o: string, n: string) {
    && Find(prev.columns, o).Some? && Find(next.columns, n).Some?
    && (!EqualFold(o, n) ==> Find(prev.columns, n).None? && Find(next.columns, o).None?)
  }

  // What a spec did to the columns it names.
  predicate Did(prev: Meta, next: Meta, spec: Spec) {
    match spec
    case AddColumns(names) =>
      && (forall n | n in names :: Find(prev.columns, n).None? && Find(next.columns, n).Some?)
      && (forall i, j | 0 <= i < j < |names| :: !EqualFold(names[i], names[j]))
    case DropColumn(o) => Find(prev.columns, o).Some? && Find(next.columns, o).None?
    case RenameColumn(o, n) =>
      && Renamed(prev, next, o, n)
      && ColOf(Find(prev.columns, o).value) == ColOf(Find(next.columns, n).value)
    case ModifyColumn(name) => Find(prev.columns, name).Some? && Find(next.columns, name).Some?
    case ChangeColumn(o, n) => Renamed(prev, next, o, n)
    case RenameTable => false
    case OtherSpec => true
  }

  predicate SameColumn(a: Option<Column>, b: Option<Column>) {
    match (a, b)
    case (None, None) => true
    case (Some(c), Some(d)) => c.name == d.name && ColOf(c) == ColOf(d)
    case _ => false
  }

  // Specs that touch different columns take prev to next.
  ghost predicate Takes(prev: Meta, next: Meta, specs: seq<Spec>) {
    && WellFormed(prev) && WellFormed(next)
    && (forall s | s in specs :: Did(prev, next, s))
    && (forall i, j | 0 <= i < j < |specs| :: Touched(specs[i]) !! Touched(specs[j]))
    && (forall n: string | Fold(n) !in TouchedBy(specs) :: SameColumn(Find(prev.columns, n), Find(next.columns, n)))
  }

  // ----- When a spec is rendered right -----

  // Nullability is carried over unless it changes to a text that is neither "true" nor "false".
  predicate NullabilityCarried(before: Column, after: Column) {
    before.nullable == after.nullable || after.nullable == "true" || after.nullable == "false"
  }

  predicate Renders(prev: Meta, next: Meta, spec: Spec)
    requires Did(prev, next, spec)
  {
    match spec
    case AddColumns(_) => true
    case DropColumn(o) => Resolve(o) == Resolve(Find(prev.columns, o).value.name)
    case RenameColumn(o, n) =>
      && Resolve(o) == Resolve(Find(prev.columns, o).value.name)
      && Resolve(n) == Resolve(Find(next.columns, n).value.name)
      && Resolve(o) != Resolve(n)
    case ModifyColumn(name) =>
      var before, after := Find(prev.columns, name).value, Find(next.columns, name).value;
      Resolve(before.name) == Resolve(after.name) && NullabilityCarried(before, after)
    case ChangeColumn(o, n) =>
      var before, after := Find(prev.columns, o).value, Find(next.columns, n).value;
      && (EqualFold(before.name, after.name) ==> Resolve(before.name) == Resolve(after.name))
      && NullabilityCarried(before, after)
    case OtherSpec => true
  }

  // ----- Images by name -----

  function At(i: Columns, k: string): Option<Col> { if k in i then Some(i[k]) else None }

  // The column Snowflake has under key k.
  function Shown(c: Option<Column>, k: string): Option<Col> {
    if c.Some? && Resolve(c.value.name) == k then Some(ColOf(c.value)) else None
  }

  lemma ResolveFolds(s: string)
    ensures Fold(Resolve(s)) == Fold(s)
  {
    UpperIsRegular(s);
  }

  lemma {:induction false} FindIn(columns: seq<Column>, name: string)
    ensures Find(columns, name).Some? ==> Find(columns, name).value in columns && EqualFold(Find(columns, name).value.name, name)
    ensures Find(columns, name).None? ==> forall c | c in columns :: !EqualFold(c.name, name)
  {
    if columns != [] && !EqualFold(columns[0].name, name) {
      FindIn(columns[1..], name);
      assert columns == [columns[0]] + columns[1..];
    }
  }

  // Find looks the columns up by folded name.
  lemma {:induction false} FindByFold(columns: seq<Column>, a: string, b: string)
    requires EqualFold(a, b)
    ensures Find(columns, a) == Find(columns, b)
  {
    if columns != [] {
      FindByFold(columns[1..], a, b);
    }
  }

  lemma {:induction false} FindLast(columns: seq<Column>, name: string)
    requires columns != [] && forall i, j | 0 <= i < j < |columns| :: !EqualFold(columns[i].name, columns[j].name)
    ensures var n := |columns| - 1;
            Find(columns, name) == if EqualFold(columns[n].name, name) then Some(columns[n]) else Find(columns[..n], name)
  {
    var n := |columns| - 1;
    if n > 0 {
      FindLast(columns[1..], name);
      assert columns[1..][..n - 1] == columns[..n][1..];
    }
  }

  lemma {:induction false} ImageAt(columns: seq<Column>, k: string)
    requires forall i, j | 0 <= i < j < |columns| :: !EqualFold(columns[i].name, columns[j].name)
    ensures At(ImageOf(columns), k) == Shown(Find(columns, k), k)
  {
    if columns != [] {
      var n := |columns| - 1;
      ImageAt(columns[..n], k);
      FindLast(columns, k);
      ResolveFolds(columns[n].name);
      FindIn(columns[..n], k);
    }
  }

  lemma SameImages(a: Columns, b: Columns)
    requires forall k :: At(a, k) == At(b, k)
    ensures a == b
  {
    forall k ensures k in a <==> k in b {
      assert At(a, k) == At(b, k);
    }
    forall k | k in a ensures a[k] == b[k] {
      assert At(a, k) == At(b, k);
    }
  }

  // The image after the specs that touch `done`: next there, prev elsewhere.
  ghost predicate Between(i: Columns, prev: Meta, next: Meta, done: set<string>) {
    forall k :: At(i, k) == Shown(if Fold(k) in done then Find(next.columns, k) else Find(prev.columns, k), k)
  }

  // i is not the next image at some column in `touched`.
  ghost predicate Wrong(i: Columns, next: Meta, touched: set<string>) {
    exists k :: Fold(k) in touched && At(i, k) != Shown(Find(next.columns, k), k)
  }

  // Statements of columns in `touched` leave all others alone.
  ghost predicate SameBut(i: Columns, j: Columns, touched: set<string>) {
    forall k | Fold(k) !in touched :: At(i, k) == At(j, k)
  }

  // ----- One statement -----

  function Keys(s: Statement): set<string> {
    match s
    case Rename(k, to) => {Fold(k), Fold(to)}
    case TruncateTable => {}
    case DropTableIfExists => {}
    case _ => {Fold(s.key)}
  }

  lemma OneIsLocal(i: Columns, s: Statement, touched: set<string>)
    requires Keys(s) <= touched
    ensures RunOne(i, s).Some? ==> SameBut(i, RunOne(i, s).value, touched)
  {
  }

  lemma {:induction false} AllAreLocal(i: Columns, ss: seq<Statement>, touched: set<string>)
    requires forall s | s in ss :: Keys(s) <= touched
    ensures RunAll(i, ss).Some? ==> SameBut(i, RunAll(i, ss).value, touched)
  {
    if ss != [] {
      var n := |ss| - 1;
      AllAreLocal(i, ss[..n], touched);
      if RunAll(i, ss[..n]).Some? {
        OneIsLocal(RunAll(i, ss[..n]).value, ss[n], touched);
      }
    }
  }

  // ----- Modifying a column -----

  // The actions give the column its next type, and its next nullability exactly if it is carried.
  lemma ActionsCarry(before: Column, after: Column)
    ensures ActAll(ColOf(before), ColumnModify(before, after)) == ColOf(after) <==> NullabilityCarried(before, after)
    ensures ColumnModify(before, after) == [] ==> (ColOf(before) == ColOf(after) && NullabilityCarried(before, after))
  {
    var a := if before.tp != after.tp then [SetType(after.tp, after.nullable == "false")] else [];
    var b := if before.default_ != after.default_ && after.default_.None? then [DropDefault] else [];
    var c := if before.nullable == after.nullable then []
             else if after.nullable == "true" then [DropNotNull] else [SetNotNull];
    ActOn(ColOf(before), a + b, c);
    ActOn(ColOf(before), a, b);
    forall x: Col, s: Action ensures ActAll(x, [s]) == Act(x, s) {
      assert [s][..0] == [];
    }
  }

  lemma {:induction false} ActOn(c: Col, a: seq<Action>, b: seq<Action>)
    ensures ActAll(c, a + b) == ActAll(ActAll(c, a), b)
  {
    if b == [] {
      assert a + b == a;
    } else {
      assert (a + b)[..|a + b| - 1] == a + b[..|b| - 1];
      ActOn(c, a, b[..|b| - 1]);
    }
  }

  // Keys of one folded name are looked up alike.
  lemma Alike(prev: Meta, next: Meta, k: string, name: string)
    requires Fold(k) == Fold(name)
    ensures Find(prev.columns, k) == Find(prev.columns, name) && Find(next.columns, k) == Find(next.columns, name)
    ensures Find(prev.columns, name).Some? ==> Fold(Resolve(Find(prev.columns, name).value.name)) == Fold(name)
    ensures Find(next.columns, name).Some? ==> Fold(Resolve(Find(next.columns, name).value.name)) == Fold(name)
    ensures Fold(Resolve(name)) == Fold(name)
  {
    FindByFold(prev.columns, k, name);
    FindByFold(next.columns, k, name);
    FindIn(prev.columns, name);
    FindIn(next.columns, name);
    ResolveFolds(name);
    if Find(prev.columns, name).Some? {
      ResolveFolds(Find(prev.columns, name).value.name);
    }
    if Find(next.columns, name).Some? {
      ResolveFolds(Find(next.columns, name).value.name);
    }
  }

  lemma AllAlike(prev: Meta, next: Meta, name: string)
    ensures forall k | Fold(k) == Fold(name) ::
              Find(prev.columns, k) == Find(prev.columns, name) && Find(next.columns, k) == Find(next.columns, name)
    ensures Find(prev.columns, name).Some? ==> Fold(Resolve(Find(prev.columns, name).value.name)) == Fold(name)
    ensures Find(next.columns, name).Some? ==> Fold(Resolve(Find(next.columns, name).value.name)) == Fold(name)
    ensures Fold(Resolve(name)) == Fold(name)
  {
    forall k | Fold(k) == Fold(name)
      ensures Find(prev.columns, k) == Find(prev.columns, name) && Find(next.columns, k) == Find(next.columns, name)
    {
      Alike(prev, next, k, name);
    }
    Alike(prev, next, name, name);
  }

  // Right or wrong after a spec: the image is the next one on the touched columns, or it is not.
  ghost predicate Outcome(i: Columns, prev: Meta, next: Meta, done: set<string>, touched: set<string>, r: Option<Columns>, right: bool) {
    if right then r.Some? && Between(r.value, prev, next, done + touched)
    else r.None? || Wrong(r.value, next, touched)
  }

  lemma DropOutcome(i: Columns, prev: Meta, next: Meta, done: set<string>, o: string)
    requires Between(i, prev, next, done) && Did(prev, next, DropColumn(o)) && Fold(o) !in done
    ensures Outcome(i, prev, next, done, {Fold(o)}, RunOne(i, Drop(Resolve(o))), Renders(prev, next, DropColumn(o)))
  {
    AllAlike(prev, next, o);
    var c := Find(prev.columns, o).value;
    if Resolve(o) == Resolve(c.name) {
      assert At(i, Resolve(o)) == Some(ColOf(c));
    } else {
      assert At(i, Resolve(o)) == None;
    }
  }

  lemma RenameOutcome(i: Columns, prev: Meta, next: Meta, done: set<string>, o: string, n: string)
    requires Between(i, prev, next, done) && Did(prev, next, RenameColumn(o, n)) && {Fold(o), Fold(n)} !! done
    ensures Outcome(i, prev, next, done, {Fold(o), Fold(n)}, RunOne(i, Rename(Resolve(o), Resolve(n))), Renders(prev, next, RenameColumn(o, n)))
  {
    AllAlike(prev, next, o);
    AllAlike(prev, next, n);
    var c, d := Find(prev.columns, o).value, Find(next.columns, n).value;
    var r := RunOne(i, Rename(Resolve(o), Resolve(n)));
    assert At(i, Resolve(o)) == Shown(Some(c), Resolve(o));
    assert At(i, Resolve(n)) == Shown(Find(prev.columns, n), Resolve(n));
    if r.Some? && !Renders(prev, next, RenameColumn(o, n)) {
      assert At(r.value, Resolve(n)) == Some(ColOf(c));
      assert Shown(Some(d), Resolve(n)) == None;
    }
  }

  // Where the column stands under its next name, modifying it gives the next column exactly if
  // nullability is carried.
  lemma ModifyEffect(i: Columns, before: Column, after: Column)
    requires At(i, Resolve(after.name)) == Some(ColOf(before))
    ensures var r := RunAll(i, ModifyStatements(before, after));
            && r.Some? && SameBut(i, r.value, {Fold(after.name)})
            && (forall k | k != Resolve(after.name) :: At(r.value, k) == At(i, k))
            && (At(r.value, Resolve(after.name)) == Some(ColOf(after)) <==> NullabilityCarried(before, after))
  {
    ActionsCarry(before, after);
    ResolveFolds(after.name);
    var actions := ColumnModify(before, after);
    if actions != [] {
      RunSingle(i, Modify(Resolve(after.name), actions));
    }
  }

  lemma ModifyOutcome(i: Columns, prev: Meta, next: Meta, done: set<string>, name: string)
    requires Between(i, prev, next, done) && Did(prev, next, ModifyColumn(name)) && Fold(name) !in done
    ensures Outcome(i, prev, next, done, {Fold(name)},
                    RunAll(i, ModifyStatements(Find(prev.columns, name).value, Find(next.columns, name).value)),
                    Renders(prev, next, ModifyColumn(name)))
  {
    AllAlike(prev, next, name);
    hide RunAll, ColumnModify, NullabilityCarried;
    var before, after := Find(prev.columns, name).value, Find(next.columns, name).value;
    var key := Resolve(after.name);
    if Resolve(before.name) == key {
      ModifyEffect(i, before, after);
    } else {
      assert At(i, key) == None;
      ModifyMisses(i, before, after);
      assert Shown(Some(after), key) == Some(ColOf(after));
    }
  }

  // A column that is not there is not modified.
  lemma ModifyMisses(i: Columns, before: Column, after: Column)
    requires At(i, Resolve(after.name)) == None
    ensures RunAll(i, ModifyStatements(before, after)) == if ColumnModify(before, after) == [] then Some(i) else None
  {
    if ColumnModify(before, after) != [] {
      RunSingle(i, Modify(Resolve(after.name), ColumnModify(before, after)));
    }
  }

  lemma ChangeInPlace(i: Columns, prev: Meta, next: Meta, done: set<string>, o: string, n: string)
    requires Between(i, prev, next, done) && Did(prev, next, ChangeColumn(o, n)) && {Fold(o), Fold(n)} !! done
    requires EqualFold(Find(prev.columns, o).value.name, Find(next.columns, n).value.name)
    ensures Outcome(i, prev, next, done, {Fold(o), Fold(n)}, RunAll(i, SpecStatements(Some(prev), next, ChangeColumn(o, n)).value),
                    Renders(prev, next, ChangeColumn(o, n)))
  {
    hide RunAll, ModifyStatements, Between, Wrong;
    FindIn(prev.columns, o);
    FindIn(next.columns, n);
    AllAlike(prev, next, o);
    assert Fold(o) == Fold(n);
    var before, after := Find(prev.columns, o).value, Find(next.columns, n).value;
    ModifyOutcome(i, prev, next, done, o);
    assert SpecStatements(Some(prev), next, ChangeColumn(o, n)).value == ModifyStatements(before, after);
    assert {Fold(o), Fold(n)} == {Fold(o)};
  }

  lemma RenameMoves(i: Columns, from: string, to: string)
    requires from in i && to !in i
    ensures RunAll(i, [Rename(from, to)]).Some?
    ensures var j := RunAll(i, [Rename(from, to)]).value;
            At(j, to) == At(i, from) && At(j, from) == None && forall k | k != from && k != to :: At(j, k) == At(i, k)
  {
    RunSingle(i, Rename(from, to));
  }

  // The column under its new key, and none under the old one.
  lemma Moved(i: Columns, r: Columns, prev: Meta, next: Meta, done: set<string>, o: string, n: string)
    requires Between(i, prev, next, done) && Did(prev, next, ChangeColumn(o, n)) && {Fold(o), Fold(n)} !! done && !EqualFold(o, n)
    requires var from, to := Resolve(Find(prev.columns, o).value.name), Resolve(Find(next.columns, n).value.name);
             from != to && At(r, from) == None && forall k | k != from && k != to :: At(r, k) == At(i, k)
    ensures var after := Find(next.columns, n).value;
            if At(r, Resolve(after.name)) == Some(ColOf(after)) then Between(r, prev, next, done + {Fold(o), Fold(n)})
            else Wrong(r, next, {Fold(o), Fold(n)})
  {
    hide Resolve, Fold, Find, ColOf;
    AllAlike(prev, next, o);
    AllAlike(prev, next, n);
    var before, after := Find(prev.columns, o).value, Find(next.columns, n).value;
    assert Shown(Find(next.columns, Resolve(after.name)), Resolve(after.name)) == Some(ColOf(after));
  }

  lemma ChangeRenamed(i: Columns, prev: Meta, next: Meta, done: set<string>, o: string, n: string)
    requires Between(i, prev, next, done) && Did(prev, next, ChangeColumn(o, n)) && {Fold(o), Fold(n)} !! done
    requires !EqualFold(Find(prev.columns, o).value.name, Find(next.columns, n).value.name)
    ensures Outcome(i, prev, next, done, {Fold(o), Fold(n)}, RunAll(i, SpecStatements(Some(prev), next, ChangeColumn(o, n)).value),
                    Renders(prev, next, ChangeColumn(o, n)))
  {
    hide RunAll, ModifyStatements, Resolve, Wrong, Find, Fold;
    FindIn(prev.columns, o);
    FindIn(next.columns, n);
    AllAlike(prev, next, o);
    AllAlike(prev, next, n);
    var before, after := Find(prev.columns, o).value, Find(next.columns, n).value;
    var from, to := Resolve(before.name), Resolve(after.name);
    assert Find(prev.columns, o) == Some(before) && Find(next.columns, n) == Some(after);
    assert SpecStatements(Some(prev), next, ChangeColumn(o, n)) == Ok([Rename(from, to)] + ModifyStatements(before, after));
    assert At(i, from) == Some(ColOf(before)) && At(i, to) == None;
    RenameMoves(i, from, to);
    var moved := RunAll(i, [Rename(from, to)]).value;
    RunOn(i, [Rename(from, to)], ModifyStatements(before, after));
    ModifyEffect(moved, before, after);
    Moved(i, RunAll(moved, ModifyStatements(before, after)).value, prev, next, done, o, n);
  }

  lemma ChangeOutcome(i: Columns, prev: Meta, next: Meta, done: set<string>, o: string, n: string)
    requires Between(i, prev, next, done) && Did(prev, next, ChangeColumn(o, n)) && {Fold(o), Fold(n)} !! done
    ensures Outcome(i, prev, next, done, {Fold(o), Fold(n)}, RunAll(i, SpecStatements(Some(prev), next, ChangeColumn(o, n)).value),
                    Renders(prev, next, ChangeColumn(o, n)))
  {
    if EqualFold(Find(prev.columns, o).value.name, Find(next.columns, n).value.name) {
      ChangeInPlace(i, prev, next, done, o, n);
    } else {
      ChangeRenamed(i, prev, next, done, o, n);
    }
  }

  lemma {:induction false} AddOutcome(i: Columns, prev: Meta, next: Meta, done: set<string>, names: seq<string>)
    requires Between(i, prev, next, done) && Did(prev, next, AddColumns(names)) && Folds(names) !! done
    ensures AddStatements(next, names).Ok?
    ensures Outcome(i, prev, next, done, Folds(names), RunAll(i, AddStatements(next, names).value), true)
  {
    hide Between, Wrong, Resolve, Fold, Find, RunOne;
    if names == [] {
      assert done + Folds(names) == done;
    } else {
      var m := |names| - 1;
      var before, name := names[..m], names[m];
      assert names == before + [name];
      assert Folds(names) == Folds(before) + {Fold(name)};
      AddOutcome(i, prev, next, done, before);
      var j := RunAll(i, AddStatements(next, before).value).value;
      assert Fold(name) !in Folds(before);
      AddOne(j, prev, next, done + Folds(before), name);
      assert done + Folds(before) + {Fold(name)} == done + Folds(names);
    }
  }

  lemma AddOne(i: Columns, prev: Meta, next: Meta, done: set<string>, name: string)
    requires Between(i, prev, next, done) && Find(prev.columns, name).None? && Find(next.columns, name).Some? && Fold(name) !in done
    ensures var c := Find(next.columns, name).value;
            var r := RunOne(i, Add(Resolve(c.name), c.tp, c.nullable == "false"));
            r.Some? && Between(r.value, prev, next, done + {Fold(name)})
  {
    AllAlike(prev, next, name);
    var c := Find(next.columns, name).value;
    assert At(i, Resolve(c.name)) == None;
  }

  // ----- One spec, and all of them -----

  lemma SpecOutcome(i: Columns, prev: Meta, next: Meta, done: set<string>, spec: Spec)
    requires Between(i, prev, next, done) && Did(prev, next, spec) && Touched(spec) !! done
    ensures SpecStatements(Some(prev), next, spec).Ok?
    ensures Outcome(i, prev, next, done, Touched(spec), RunAll(i, SpecStatements(Some(prev), next, spec).value), Renders(prev, next, spec))
  {
    match spec
    case AddColumns(names) => AddOutcome(i, prev, next, done, names);
    case DropColumn(o) =>
      DropOutcome(i, prev, next, done, o);
      RunSingle(i, Drop(Resolve(o)));
    case RenameColumn(o, n) =>
      RenameOutcome(i, prev, next, done, o, n);
      RunSingle(i, Rename(Resolve(o), Resolve(n)));
    case ModifyColumn(name) => ModifyOutcome(i, prev, next, done, name);
    case ChangeColumn(o, n) => ChangeOutcome(i, prev, next, done, o, n);
    case OtherSpec => assert done + Touched(spec) == done;
  }

  lemma SpecIsLocal(i: Columns, prev: Meta, next: Meta, spec: Spec)
    requires Did(prev, next, spec) && SpecStatements(Some(prev), next, spec).Ok?
    ensures var r := RunAll(i, SpecStatements(Some(prev), next, spec).value);
            r.Some? ==> SameBut(i, r.value, Touched(spec))
  {
    SpecKeys(prev, next, spec);
    AllAreLocal(i, SpecStatements(Some(prev), next, spec).value, Touched(spec));
  }

  lemma {:induction false} AddKeys(next: Meta, names: seq<string>)
    requires AddStatements(next, names).Ok?
    ensures forall s | s in AddStatements(next, names).value :: s.Add? && Keys(s) <= Folds(names)
  {
    if names != [] {
      var m := |names| - 1;
      AddKeys(next, names[..m]);
      assert names == names[..m] + [names[m]];
      FindIn(next.columns, names[m]);
      ResolveFolds(Find(next.columns, names[m]).value.name);
    }
  }

  lemma StartIsPrev(prev: Meta, next: Meta)
    requires WellFormed(prev)
    ensures RunAll(ImageOf(prev.columns), []) == Some(ImageOf(prev.columns)) && Between(ImageOf(prev.columns), prev, next, {} + {})
  {
    forall k ensures At(ImageOf(prev.columns), k) == Shown(Find(prev.columns, k), k) {
      ImageAt(prev.columns, k);
    }
  }

  // Run over the first specs: right up to the first that is not rendered, and wrong ever after.
  lemma {:induction false} SpecsOutcome(prev: Meta, next: Meta, specs: seq<Spec>)
    requires WellFormed(prev) && WellFormed(next) && (forall s | s in specs :: Did(prev, next, s))
    requires forall i, j | 0 <= i < j < |specs| :: Touched(specs[i]) !! Touched(specs[j])
    ensures Compile(Some(prev), next, specs).Ok?
    ensures Outcome(ImageOf(prev.columns), prev, next, {}, TouchedBy(specs), RunAll(ImageOf(prev.columns), Compile(Some(prev), next, specs).value),
                    forall s | s in specs :: Renders(prev, next, s))
  {
    hide Renders, Did, Touched, Between, Wrong, SpecStatements, RunAll, ImageOf, WellFormed, Fold, Find, Resolve;
    var start := ImageOf(prev.columns);
    if specs == [] {
      StartIsPrev(prev, next);
    } else {
      var n := |specs| - 1;
      var before, spec := specs[..n], specs[n];
      assert specs == before + [spec];
      SpecsOutcome(prev, next, before);
      TouchedApart(specs);
      var ss, more := Compile(Some(prev), next, before).value, SpecStatements(Some(prev), next, spec);
      var right := forall s | s in before :: Renders(prev, next, s);
      NothingPlus(TouchedBy(before));
      LastSpec(RunAll(start, ss), prev, next, TouchedBy(before), spec, right);
      RunOn(start, ss, more.value);
      AllRender(prev, next, before, spec);
      NothingPlus(TouchedBy(specs));
    }
  }

  lemma NothingPlus(s: set<string>)
    ensures {} + s == s
  {
  }

  lemma AllRender(prev: Meta, next: Meta, before: seq<Spec>, spec: Spec)
    requires forall s | s in before + [spec] :: Did(prev, next, s)
    ensures (forall s | s in before :: s in before + [spec]) && spec in before + [spec]
    ensures (forall s | s in before + [spec] :: Renders(prev, next, s)) <==> (forall s | s in before :: Renders(prev, next, s)) && Renders(prev, next, spec)
  {
  }

  lemma {:induction false} TouchedApart(specs: seq<Spec>)
    requires specs != [] && forall i, j | 0 <= i < j < |specs| :: Touched(specs[i]) !! Touched(specs[j])
    ensures TouchedBy(specs[..|specs| - 1]) !! Touched(specs[|specs| - 1])
  {
    var n := |specs| - 1;
    TouchedIn(specs[..n]);
  }

  lemma {:induction false} TouchedIn(specs: seq<Spec>)
    ensures forall f | f in TouchedBy(specs) :: exists i :: 0 <= i < |specs| && f in Touched(specs[i])
  {
    if specs != [] {
      var n := |specs| - 1;
      TouchedIn(specs[..n]);
      forall f | f in TouchedBy(specs) ensures exists i :: 0 <= i < |specs| && f in Touched(specs[i]) {
        if f in TouchedBy(specs[..n]) {
          var i :| 0 <= i < n && f in Touched(specs[..n][i]);
          assert f in Touched(specs[i]);
        } else {
          assert f in Touched(specs[n]);
        }
      }
    }
  }

  lemma LastSpec(r: Option<Columns>, prev: Meta, next: Meta, done: set<string>, spec: Spec, right: bool)
    requires Did(prev, next, spec) && done !! Touched(spec)
    requires if right then r.Some? && Between(r.value, prev, next, done) else r.None? || Wrong(r.value, next, done)
    ensures SpecStatements(Some(prev), next, spec).Ok?
    ensures var r2 := match r case None => None case Some(i) => RunAll(i, SpecStatements(Some(prev), next, spec).value);
            var both := right && Renders(prev, next, spec);
            if both then r2.Some? && Between(r2.value, prev, next, done + Touched(spec))
            else r2.None? || Wrong(r2.value, next, done + Touched(spec))
  {
    CompilesAlone(prev, next, spec);
    if right {
      SpecOutcome(r.value, prev, next, done, spec);
    } else if r.Some? {
      SpecIsLocal(r.value, prev, next, spec);
    }
  }

  lemma CompilesAlone(prev: Meta, next: Meta, spec: Spec)
    requires Did(prev, next, spec)
    ensures SpecStatements(Some(prev), next, spec).Ok?
  {
    if spec.AddColumns? {
      AddsCompile(next, spec.names);
    }
  }

  lemma {:induction false} AddsCompile(next: Meta, names: seq<string>)
    requires forall n | n in names :: Find(next.columns, n).Some?
    ensures AddStatements(next, names).Ok?
  {
    if names != [] {
      AddsCompile(next, names[..|names| - 1]);
    }
  }

  // For ALTER specs that touch different columns and take the previous schema to the next one,
  // the compiler succeeds, and running its statements takes the image of the one to the image of
  // the other exactly if every spec is one it renders.
  lemma TranslationPreservesMeaning(prev: Meta, next: Meta, specs: seq<Spec>)
    requires Takes(prev, next, specs)
    ensures Compile(Some(prev), next, specs).Ok?
    ensures RunAll(ImageOf(prev.columns), Compile(Some(prev), next, specs).value) == Some(ImageOf(next.columns))
            <==> forall s | s in specs :: Renders(prev, next, s)
  {
    SpecsOutcome(prev, next, specs);
    var r := RunAll(ImageOf(prev.columns), Compile(Some(prev), next, specs).value);
    forall k ensures At(ImageOf(next.columns), k) == Shown(Find(next.columns, k), k) {
      ImageAt(next.columns, k);
    }
    if forall s | s in specs :: Renders(prev, next, s) {
      assert {} + TouchedBy(specs) == TouchedBy(specs);
      forall k ensures At(r.value, k) == At(ImageOf(next.columns), k) {
        if Fold(k) !in TouchedBy(specs) {
          assert SameColumn(Find(prev.columns, k), Find(next.columns, k));
        }
      }
      SameImages(r.value, ImageOf(next.columns));
    }
  }

  // Without previous metadata, as before a table's first incremental DDL, exactly the ALTERs that
  // only add columns (or touch none) compile.
  lemma {:induction false} WithoutPreviousMeta(next: Meta, specs: seq<Spec>)
    ensures Compile(None, next, specs).Ok? <==>
              forall s | s in specs :: s.OtherSpec? || (s.AddColumns? && forall n | n in s.names :: Find(next.columns, n).Some?)
  {
    if specs != [] {
      var n := |specs| - 1;
      assert specs == specs[..n] + [specs[n]];
      WithoutPreviousMeta(next, specs[..n]);
      if specs[n].AddColumns? {
        AddsCompileIff(next, specs[n].names);
      }
    }
  }

  lemma {:induction false} AddsCompileIff(next: Meta, names: seq<string>)
    ensures AddStatements(next, names).Ok? <==> forall n | n in names :: Find(next.columns, n).Some?
  {
    if names != [] {
      assert names == names[..|names| - 1] + [names[|names| - 1]];
      AddsCompileIff(next, names[..|names| - 1]);
      assert names[|names| - 1] in names;
    }
  }

  // ----- Where the translation falls short -----

  lemma OneColumn(a: Column, b: Column, spec: Spec)
    requires EqualFold(a.name, b.name) && spec.ChangeColumn? && spec.old_ == a.name && spec.new_ == b.name
    ensures Takes(Meta("s", "t", [a]), Meta("s", "t", [b]), [spec])
  {
    assert [spec][..0] == [] && TouchedBy([spec]) == {} + {Fold(a.name), Fold(b.name)};
  }

  const LOWER_AB := Column("a-b", Type("int", "", ""), None, "true")
  const UPPER_AB := Column("A-B", Type("int", "", ""), None, "true")

  lemma SameFolded()
    ensures EqualFold("a-b", "A-B")
  {
    CharByChar("a-b");
    CharByChar("A-B");
  }

  lemma ImagesDiffer()
    ensures ImageOf([LOWER_AB]) != ImageOf([UPPER_AB])
  {
    assert [LOWER_AB][..0] == [] && [UPPER_AB][..0] == [];
    assert !IdentPart("a-b"[1]) && !IdentPart("A-B"[1]);
    assert "a-b"[0] != "A-B"[0];
    assert "a-b" in ImageOf([LOWER_AB]) && "a-b" !in ImageOf([UPPER_AB]);
  }

  lemma CompilesToNothing(spec: Spec)
    requires spec == ChangeColumn("a-b", "A-B") && EqualFold("a-b", "A-B")
    ensures Compile(Some(Meta("s", "t", [LOWER_AB])), Meta("s", "t", [UPPER_AB]), [spec]) == Ok([])
  {
    assert [spec][..0] == [];
    assert ColumnModify(LOWER_AB, UPPER_AB) == [];
  }

  // Changing only the case of a name that must be quoted is not carried over.
  lemma QuotedCaseChangeIsLost()
    ensures exists prev, next, spec :: Takes(prev, next, [spec]) && spec.ChangeColumn? && Compile(Some(prev), next, [spec]) == Ok([])
              && ImageOf(prev.columns) != ImageOf(next.columns)
  {
    var spec, prev, next := ChangeColumn("a-b", "A-B"), Meta("s", "t", [LOWER_AB]), Meta("s", "t", [UPPER_AB]);
    SameFolded();
    OneColumn(LOWER_AB, UPPER_AB, spec);
    ImagesDiffer();
    CompilesToNothing(spec);
    hide Takes, Compile, ImageOf, EqualFold;
    assert Takes(prev, next, [spec]);
  }

  lemma OtherActions(before: Column, after: Column)
    requires !NullabilityCarried(before, after)
    ensures ColOf(after).nullable && ColumnModify(before, after) != []
    ensures ActAll(ColOf(before), ColumnModify(before, after)) == ColOf(after).(nullable := false)
  {
    var a := if before.tp != after.tp then [SetType(after.tp, after.nullable == "false")] else [];
    var b := if before.default_ != after.default_ && after.default_.None? then [DropDefault] else [];
    ActOn(ColOf(before), a + b, [SetNotNull]);
    ActOn(ColOf(before), a, b);
    forall x: Col, s: Action ensures ActAll(x, [s]) == Act(x, s) {
      assert [s][..0] == [];
    }
  }

  // A nullability text other than "true" and "false" reads as nullable when a column is created,
  // but as NOT NULL when it is modified.
  lemma OtherNullabilityBecomesNotNull(i: Columns, before: Column, after: Column)
    requires At(i, Resolve(after.name)) == Some(ColOf(before)) && !NullabilityCarried(before, after)
    ensures ColOf(after).nullable
    ensures RunAll(i, ModifyStatements(before, after)).Some?
    ensures At(RunAll(i, ModifyStatements(before, after)).value, Resolve(after.name)) == Some(ColOf(after).(nullable := false))
  {
    OtherActions(before, after);
    hide NullabilityCarried, ColumnModify, Resolve, ColOf, ActAll, RunAll;
    RunSingle(i, Modify(Resolve(after.name), ColumnModify(before, after)));
  }

  // ----- Running an ALTER again -----

  // Statements of a spec only name columns the spec touches.
  lemma SpecKeys(prev: Meta, next: Meta, spec: Spec)
    requires Did(prev, next, spec) && SpecStatements(Some(prev), next, spec).Ok?
    ensures forall s | s in SpecStatements(Some(prev), next, spec).value :: Keys(s) <= Touched(spec)
  {
    match spec
    case AddColumns(names) => AddKeys(next, names);
    case DropColumn(o) => AllAlike(prev, next, o);
    case RenameColumn(o, n) => AllAlike(prev, next, o); AllAlike(prev, next, n);
    case ModifyColumn(name) => AllAlike(prev, next, name);
    case ChangeColumn(o, n) => AllAlike(prev, next, o); AllAlike(prev, next, n);
    case OtherSpec =>
  }

  lemma NamesFold(s: Statement)
    ensures forall k | k in Touches(s) :: Fold(k) in Keys(s)
  {
  }

  lemma KeysApart(s: Statement, t: Statement, a: set<string>, b: set<string>)
    requires Keys(s) <= a && Keys(t) <= b && a !! b
    ensures Clear(s, t)
  {
    NamesFold(s);
    NamesFold(t);
  }

  lemma ApartSum(a: seq<Statement>, b: seq<Statement>)
    requires Apart(a) && Apart(b) && forall s, t | s in a && t in b :: Clear(s, t)
    ensures Apart(a + b)
  {
    var c := a + b;
    forall i, j | 0 <= i < j < |c| ensures Clear(c[i], c[j]) {
      if i >= |a| {
        assert Clear(b[i - |a|], b[j - |a|]);
      } else if j < |a| {
        assert Clear(a[i], a[j]);
      } else {
        assert a[i] in a && b[j - |a|] in b;
      }
    }
  }

  lemma {:induction false} AddsApart(next: Meta, names: seq<string>)
    requires AddStatements(next, names).Ok? && forall i, j | 0 <= i < j < |names| :: !EqualFold(names[i], names[j])
    ensures Apart(AddStatements(next, names).value)
  {
    if names != [] {
      var n := |names| - 1;
      var before, c := AddStatements(next, names[..n]).value, ColumnInMeta(Some(next), names[n]).value;
      var last := Add(Resolve(c.name), c.tp, c.nullable == "false");
      AddsApart(next, names[..n]);
      AddKeys(next, names[..n]);
      FindIn(next.columns, names[n]);
      ResolveFolds(c.name);
      assert Fold(names[n]) !in Folds(names[..n]);
      forall s, t | s in before && t in [last] ensures Clear(s, t) {
        KeysApart(s, t, Folds(names[..n]), {Fold(names[n])});
      }
      ApartSum(before, [last]);
    }
  }

  lemma SpecApart(prev: Meta, next: Meta, spec: Spec)
    requires Did(prev, next, spec) && SpecStatements(Some(prev), next, spec).Ok?
    ensures Apart(SpecStatements(Some(prev), next, spec).value)
  {
    if spec.AddColumns? {
      AddsApart(next, spec.names);
    }
  }

  lemma {:induction false} StatementKeys(prev: Meta, next: Meta, specs: seq<Spec>)
    requires Compile(Some(prev), next, specs).Ok? && forall s | s in specs :: Did(prev, next, s)
    ensures forall s | s in Compile(Some(prev), next, specs).value :: Keys(s) <= TouchedBy(specs)
  {
    if specs != [] {
      var n := |specs| - 1;
      assert specs == specs[..n] + [specs[n]];
      StatementKeys(prev, next, specs[..n]);
      SpecKeys(prev, next, specs[n]);
    }
  }

  // What the compiler emits for specs that touch different columns can be reasoned about
  // statement by statement.
  lemma {:induction false} CompiledIsApart(prev: Meta, next: Meta, specs: seq<Spec>)
    requires Compile(Some(prev), next, specs).Ok? && forall s | s in specs :: Did(prev, next, s)
    requires forall i, j | 0 <= i < j < |specs| :: Touched(specs[i]) !! Touched(specs[j])
    ensures Apart(Compile(Some(prev), next, specs).value)
  {
    if specs != [] {
      var n := |specs| - 1;
      assert specs == specs[..n] + [specs[n]];
      CompiledIsApart(prev, next, specs[..n]);
      SpecApart(prev, next, specs[n]);
      StatementKeys(prev, next, specs[..n]);
      SpecKeys(prev, next, specs[n]);
      TouchedApart(specs);
      var a, b := Compile(Some(prev), next, specs[..n]).value, SpecStatements(Some(prev), next, specs[n]).value;
      forall s, t | s in a && t in b ensures Clear(s, t) {
        KeysApart(s, t, TouchedBy(specs[..n]), Touched(specs[n]));
      }
      ApartSum(a, b);
    }
  }

  // The specs whose statements can be run again: those that add, drop and rename nothing.
  predicate RepeatableSpec(spec: Spec) {
    match spec
    case AddColumns(names) => names == []
    case DropColumn(_) => false
    case RenameColumn(_, _) => false
    case ModifyColumn(_) => true
    case ChangeColumn(o, n) => EqualFold(o, n)
    case RenameTable => true
    case OtherSpec => true
  }

  lemma SpecRepeats(prev: Meta, next: Meta, spec: Spec)
    requires Did(prev, next, spec) && SpecStatements(Some(prev), next, spec).Ok?
    ensures AllRepeatable(SpecStatements(Some(prev), next, spec).value) <==> RepeatableSpec(spec)
  {
    var ss := SpecStatements(Some(prev), next, spec).value;
    match spec
    case AddColumns(names) =>
      AddKeys(next, names);
      if names != [] {
        assert ss[|ss| - 1] in ss && ss[|ss| - 1].Add?;
      }
    case DropColumn(o) => assert Drop(Resolve(o)) in ss;
    case RenameColumn(o, n) => assert Rename(Resolve(o), Resolve(n)) in ss;
    case ModifyColumn(name) =>
    case ChangeColumn(o, n) =>
      FindIn(prev.columns, o);
      FindIn(next.columns, n);
      if !EqualFold(o, n) {
        assert ss[0].Rename? && ss[0] in ss;
      }
    case OtherSpec =>
  }

  lemma {:induction false} SpecsRepeat(prev: Meta, next: Meta, specs: seq<Spec>)
    requires Compile(Some(prev), next, specs).Ok? && forall s | s in specs :: Did(prev, next, s)
    ensures AllRepeatable(Compile(Some(prev), next, specs).value) <==> forall s | s in specs :: RepeatableSpec(s)
  {
    if specs != [] {
      var n := |specs| - 1;
      assert specs == specs[..n] + [specs[n]];
      SpecsRepeat(prev, next, specs[..n]);
      SpecRepeats(prev, next, specs[n]);
    }
  }

  // A crash after the first m statements of an ALTER makes the loader run it from the start. That
  // ends as the uninterrupted run would if those statements are all MODIFY, and fails, now and at
  // every later attempt, if one of them is not.
  lemma AlterAfterCrash(prev: Meta, next: Meta, specs: seq<Spec>, i: Columns, m: nat)
    requires Takes(prev, next, specs) && Compile(Some(prev), next, specs).Ok? && m <= |Compile(Some(prev), next, specs).value|
    requires RunAll(i, Compile(Some(prev), next, specs).value[..m]).Some?
    ensures var ss := Compile(Some(prev), next, specs).value;
            RunAll(RunAll(i, ss[..m]).value, ss) == if AllRepeatable(ss[..m]) then RunAll(i, ss) else None
  {
    CompiledIsApart(prev, next, specs);
    RerunAfterPrefix(i, Compile(Some(prev), next, specs).value, m);
  }

  // An ALTER that has run can be run again, to no effect, exactly if no spec adds, drops or
  // renames a column; otherwise the second run fails.
  lemma AlterTwice(prev: Meta, next: Meta, specs: seq<Spec>)
    requires Takes(prev, next, specs)
    ensures Compile(Some(prev), next, specs).Ok?
    ensures var ss := Compile(Some(prev), next, specs).value;
            var once := RunAll(ImageOf(prev.columns), ss);
            once.Some? ==> RunAll(once.value, ss) == if forall s | s in specs :: RepeatableSpec(s) then once else None
  {
    SpecsOutcome(prev, next, specs);
    var ss := Compile(Some(prev), next, specs).value;
    if RunAll(ImageOf(prev.columns), ss).Some? {
      assert ss[..|ss|] == ss;
      AlterAfterCrash(prev, next, specs, ImageOf(prev.columns), |ss|);
      SpecsRepeat(prev, next, specs);
    }
  }

  // The same for every kind of DDL: only an ALTER can be impossible to repeat.
  lemma DdlTwice(prev: Meta, next: Meta, kind: Kind, query: Query)
    requires GenDdl(Some(prev), next, kind, query).Ok?
    requires kind == OtherKind && query.AlterTable? ==> Takes(prev, next, query.specs)
    ensures var ss := GenDdl(Some(prev), next, kind, query).value;
            var once := RunAll(ImageOf(prev.columns), ss);
            && Apart(ss)
            && (AllRepeatable(ss) <==> (kind == OtherKind && query.AlterTable? ==> forall s | s in query.specs :: RepeatableSpec(s)))
            && (once.Some? ==> RunAll(once.value, ss) == if AllRepeatable(ss) then once else None)
  {
    var ss := GenDdl(Some(prev), next, kind, query).value;
    if kind == OtherKind && query.AlterTable? {
      CompiledIsApart(prev, next, query.specs);
      SpecsRepeat(prev, next, query.specs);
    }
    if RunAll(ImageOf(prev.columns), ss).Some? {
      assert ss[..|ss|] == ss;
      RerunAfterPrefix(ImageOf(prev.columns), ss, |ss|);
    }
  }
}
