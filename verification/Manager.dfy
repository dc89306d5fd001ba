// The state manager (pkg/state/manager.go): a state object that is cloned, changed, validated,
// uploaded and only then committed. Go's pointers and maps are objects here, because the
// copies must not share them.
module Manager {
  import opened Wrappers
  import opened Discovery
  import opened ReplicationState

  class IdentityBox {
    var value: Identity
    constructor (value: Identity) ensures this.value == value { this.value := value; }
  }

  class PendingBox {
    var value: Pending
    constructor (value: Pending) ensures this.value == value { this.value := value; }
  }

  class CursorMap {
    var entries: map<string, Name>
    constructor () ensures entries == map[] { entries := map[]; }
  }

  datatype TableEntry = TableEntry(watermark: nat, cursors: CursorMap?)

  class TableMap {
    var entries: map<string, TableEntry>
    constructor () ensures entries == map[] { entries := map[]; }
  }

  // The struct State: copying it shares everything its pointers and maps refer to.
  datatype Struct = Struct(
    identity: IdentityBox?,
    pending: PendingBox?,
    version: int,
    checkpoint: nat,
    finished: bool,
    exportId: string,
    changefeedId: string,
    tables: TableMap?)

  // ----- What a struct stands for -----

  ghost function CursorMaps(tables: TableMap?): set<CursorMap>
    reads tables
  {
    if tables == null then {}
    else set t | t in tables.entries && tables.entries[t].cursors != null :: tables.entries[t].cursors
  }

  ghost function Boxes(st: Struct): set<object> {
    (if st.identity == null then {} else {st.identity as object})
    + (if st.pending == null then {} else {st.pending as object})
    + (if st.tables == null then {} else {st.tables as object})
  }

  ghost function Objects(st: Struct): set<object>
    reads st.tables
  {
    Boxes(st) + CursorMaps(st.tables)
  }

  function TableValues(tables: TableMap?): Option<map<string, TableValue>>
    reads tables, CursorMaps(tables)
  {
    if tables == null then None
    else Some(map t | t in tables.entries ::
                TableValue(tables.entries[t].watermark,
                           if tables.entries[t].cursors == null then None else Some(tables.entries[t].cursors.entries)))
  }

  function Value(st: Struct): State
    reads st.tables, Objects(st)
  {
    State(if st.identity == null then None else Some(st.identity.value),
          if st.pending == null then None else Some(st.pending.value),
          st.version, st.checkpoint, st.finished, st.exportId, st.changefeedId, TableValues(st.tables))
  }

  // A state whose maps are all there and not shared, as after cloneState.
  ghost predicate Whole(st: Struct)
    reads st.tables
  {
    && st.tables != null && Distinct(st.tables.entries)
    && forall t | t in st.tables.entries :: st.tables.entries[t].cursors != null
  }

  // Copying makes nil maps empty.
  function ClonedTables(tables: Option<map<string, TableValue>>): map<string, TableValue> {
    if tables.None? then map[]
    else map t | t in tables.value ::
           TableValue(tables.value[t].watermark, Some(if tables.value[t].cursors.None? then map[] else tables.value[t].cursors.value))
  }

  function Cloned(st: State): State { st.(tables := Some(ClonedTables(st.tables))) }

  method CloneCursors(from: CursorMap?) returns (to: CursorMap)
    ensures fresh(to) && to.entries == if from == null then map[] else from.entries
  {
    to := new CursorMap();
    if from != null {
      var todo := from.entries.Keys;
      while todo != {}
        invariant todo <= from.entries.Keys
        invariant to.entries == map k | k in from.entries && k !in todo :: from.entries[k]
        decreases |todo|
      {
        var key :| key in todo;
        to.entries := to.entries[key := from.entries[key]];
        todo := todo - {key};
      }
      assert to.entries == from.entries;
    }
  }

  twostate lemma TablesKept(tables: TableMap?)
    requires tables == null || unchanged(tables)
    requires forall o | o in old(CursorMaps(tables)) :: unchanged(o)
    ensures TableValues(tables) == old(TableValues(tables))
  {
    if tables != null {
      var got, want := TableValues(tables).value, old(TableValues(tables)).value;
      assert got.Keys == want.Keys;
      assert forall t | t in want :: got[t] == want[t];
      assert got == want;
    }
  }

  method CloneEntries(from: TableMap) returns (entries: map<string, TableEntry>)
    ensures entries.Keys == from.entries.Keys && Distinct(entries)
    ensures forall t | t in entries :: Copied(from.entries[t], entries[t]) && fresh(entries[t].cursors)
  {
    entries := map[];
    var todo := from.entries.Keys;
    while todo != {}
      invariant todo <= from.entries.Keys && entries.Keys == from.entries.Keys - todo
      invariant forall t | t in entries :: Copied(from.entries[t], entries[t]) && fresh(entries[t].cursors)
      invariant Distinct(entries)
      decreases |todo|
    {
      var name :| name in todo;
      var cursors := CloneCursors(from.entries[name].cursors);
      entries := entries[name := from.entries[name].(cursors := cursors)];
      todo := todo - {name};
    }
  }

  method CloneTables(from: TableMap?) returns (to: TableMap)
    ensures fresh(to) && fresh(CursorMaps(to))
    ensures Distinct(to.entries) && forall t | t in to.entries :: to.entries[t].cursors != null
    ensures TableValues(to) == Some(ClonedTables(old(TableValues(from))))
  {
    hide ClonedTables, Distinct;
    if from == null {
      to := new TableMap();
      NoTables(to);
      assert old(TableValues(from)) == None;
    } else {
      var entries := CloneEntries(from);
      to := new TableMap();
      to.entries := entries;
      TablesKept(from);
      SameTables(from, to);
    }
  }

  lemma NoTables(to: TableMap)
    requires to.entries == map[]
    ensures TableValues(to) == Some(ClonedTables(None)) && Distinct(to.entries) && CursorMaps(to) == {}
  {
  }

  // The entries have a cursor map each.
  ghost predicate Distinct(entries: map<string, TableEntry>) {
    forall t, u | t in entries && u in entries && t != u && entries[t].cursors != null :: entries[t].cursors != entries[u].cursors
  }

  ghost predicate Copied(from: TableEntry, to: TableEntry)
    reads from.cursors, to.cursors
  {
    && to.watermark == from.watermark && to.cursors != null
    && to.cursors.entries == if from.cursors == null then map[] else from.cursors.entries
  }

  lemma SameTables(from: TableMap, to: TableMap)
    requires to.entries.Keys == from.entries.Keys
    requires forall t | t in to.entries :: Copied(from.entries[t], to.entries[t])
    ensures TableValues(to) == Some(ClonedTables(TableValues(from)))
  {
    var got, want := TableValues(to).value, ClonedTables(TableValues(from));
    assert got.Keys == want.Keys;
    assert forall t | t in got :: got[t] == want[t];
    assert got == want;
  }

  twostate lemma ValueKept(st: Struct)
    requires (st.identity == null || unchanged(st.identity)) && (st.pending == null || unchanged(st.pending))
    requires st.tables == null || unchanged(st.tables)
    requires forall c | c in old(CursorMaps(st.tables)) :: unchanged(c)
    ensures Value(st) == old(Value(st)) && Objects(st) == old(Objects(st))
    ensures CursorMaps(st.tables) == old(CursorMaps(st.tables))
  {
    TablesKept(st.tables);
  }

  // cloneState: an equal state that shares no object with the old one.
  method Clone(st: Struct) returns (out: Struct)
    ensures fresh(Objects(out)) && Whole(out)
    ensures Value(out) == Cloned(old(Value(st)))
  {
    ghost var before := Value(st);
    out := st;
    if st.identity != null {
      var box := new IdentityBox(st.identity.value);
      out := out.(identity := box);
    }
    if st.pending != null {
      var box := new PendingBox(st.pending.value);
      out := out.(pending := box);
    }
    TablesKept(st.tables);
    var tables := CloneTables(st.tables);
    out := out.(tables := tables);
    assert TableValues(out.tables) == Cloned(before).tables;
    assert Value(out).identity == before.identity;
    assert Value(out).pending == before.pending;
  }

  // ----- The closures given to update -----

  // The loop of SetDMLCursors, which changes the map it was given as it goes.
  method MergeCursors(into: CursorMap, cursors: map<string, Name>) returns (ok: bool)
    modifies into
    ensures ok <==> !MovesBack(old(into.entries), cursors)
    ensures ok ==> into.entries == old(into.entries) + cursors
  {
    var todo := cursors.Keys;
    while todo != {}
      invariant todo <= cursors.Keys
      invariant into.entries == old(into.entries) + map k | k in cursors && k !in todo :: cursors[k]
      invariant forall k | k in cursors && k !in todo && k in old(into.entries) :: !NameLess(cursors[k], old(into.entries)[k])
      decreases |todo|
    {
      var key :| key in todo;
      if key in into.entries && NameLess(cursors[key], into.entries[key]) {
        return false;
      }
      into.entries := into.entries[key := cursors[key]];
      todo := todo - {key};
    }
    assert (map k | k in cursors && k !in todo :: cursors[k]) == cursors;
    return true;
  }

  // A table's entry is replaced in a map of tables that share no cursor map.
  lemma EntryReplaced(before: map<string, TableValue>, tables: TableMap, name: string, entry: TableValue)
    requires tables.entries.Keys == before.Keys && name in before
    requires TableValues(tables).value[name] == entry
    requires forall t | t in before && t != name :: TableValues(tables).value[t] == before[t]
    ensures TableValues(tables) == Some(before[name := entry])
  {
    assert TableValues(tables).value == before[name := entry];
  }

  method SetTable(tables: TableMap, op: Op) returns (ok: bool)
    requires op.SetWatermark? || op.SetDMLCursors?
    requires Distinct(tables.entries) && forall t | t in tables.entries :: tables.entries[t].cursors != null
    modifies tables, CursorMaps(tables)
    ensures var before := old(TableValues(tables)).value;
            && (op.SetWatermark? ==>
                  && (ok <==> op.table in before)
                  && (ok ==> TableValues(tables) == Some(before[op.table := before[op.table].(watermark :=
                               if op.version > before[op.table].watermark then op.version else before[op.table].watermark)])))
            && (op.SetDMLCursors? ==>
                  && (ok <==> op.table in before && !MovesBack(before[op.table].cursors.value, op.cursors))
                  && (ok ==> TableValues(tables) == Some(before[op.table := before[op.table].(cursors :=
                               Some(before[op.table].cursors.value + op.cursors))])))
    ensures Distinct(tables.entries) && CursorMaps(tables) == old(CursorMaps(tables))
    ensures forall t | t in tables.entries :: tables.entries[t].cursors != null
  {
    ghost var before := TableValues(tables).value;
    if op.table !in tables.entries {
      return false;
    }
    var entry := tables.entries[op.table];
    match op {
      case SetWatermark(table, version) =>
        if version > entry.watermark {
          entry := entry.(watermark := version);
        }
        tables.entries := tables.entries[table := entry];
        EntryReplaced(before, tables, table, before[table].(watermark := entry.watermark));
        ok := true;
      case SetDMLCursors(table, cursors) =>
        ok := MergeCursors(entry.cursors, cursors);
        tables.entries := tables.entries[table := entry];
        if ok {
          EntryReplaced(before, tables, table, before[table].(cursors := Some(before[table].cursors.value + cursors)));
        }
    }
    SameMaps(tables);
  }

  twostate lemma SameMaps(tables: TableMap)
    requires tables.entries.Keys == old(tables.entries.Keys)
    requires forall t | t in tables.entries :: tables.entries[t].cursors == old(tables.entries[t].cursors)
    ensures CursorMaps(tables) == old(CursorMaps(tables))
  {
    forall c ensures c in CursorMaps(tables) <==> c in old(CursorMaps(tables)) {
      if c in CursorMaps(tables) {
        var t :| t in tables.entries && tables.entries[t].cursors == c;
        assert old(tables.entries[t].cursors) == c;
      }
      if c in old(CursorMaps(tables)) {
        var t :| t in old(tables.entries) && old(tables.entries[t].cursors) == c;
        assert tables.entries[t].cursors == c;
      }
    }
  }

  // The closure of a manager call, run on the clone.
  method Mutate(next: Struct, op: Op) returns (ok: bool, out: Struct)
    requires Whole(next)
    modifies next.tables, CursorMaps(next.tables)
    ensures Value(next).tables.Some?
    ensures match Change(old(Value(next)), op)
            case Ok(st) => ok && Value(out) == st && Whole(out)
            case Err(_) => !ok
    ensures ok ==> out.tables == next.tables && CursorMaps(out.tables) == old(CursorMaps(next.tables))
    ensures ok ==> fresh(Boxes(out) - Boxes(next))
  {
    if op.SetWatermark? || op.SetDMLCursors? {
      out := next;
      ok := SetTable(next.tables, op);
    } else {
      ok, out := MutateFields(next, op);
    }
  }

  method MutateFields(next: Struct, op: Op) returns (ok: bool, out: Struct)
    requires Whole(next) && !op.SetWatermark? && !op.SetDMLCursors?
    ensures Value(next).tables.Some? && Value(next) == old(Value(next))
    ensures match Change(Value(next), op)
            case Ok(st) => ok && Value(out) == st && Whole(out)
            case Err(_) => !ok
    ensures ok ==> out.tables == next.tables && CursorMaps(out.tables) == old(CursorMaps(next.tables))
    ensures ok ==> fresh(Boxes(out) - Boxes(next))
  {
    ok, out := true, next;
    match op
    case SetCheckpointTS(ts) =>
      if ts < next.checkpoint { ok := false; } else { out := next.(checkpoint := ts); }
    case SetExportID(id) =>
      out := next.(exportId := id);
      if out.pending != null && out.pending.value.kind == "export" { out := out.(pending := null); }
    case SetChangefeedID(id) =>
      out := next.(changefeedId := id);
      if out.pending != null && out.pending.value.kind == "changefeed" { out := out.(pending := null); }
    case ClearChangefeedID => out := next.(changefeedId := "");
    case MarkSnapshotFinished(ts) =>
      if ts < next.checkpoint { ok := false; } else { out := next.(checkpoint := ts, finished := true); }
    case BindCloudSource(source) =>
      var box := new IdentityBox(source);
      TablesKept(next.tables);
      out := next.(version := CLOUD_VERSION, identity := box);
    case BeginCreate(kind, name) =>
      if next.identity == null || next.pending != null {
        ok := false;
      } else {
        var box := new PendingBox(Pending(kind, name));
        TablesKept(next.tables);
        out := next.(pending := box);
      }
    case ClearPendingCreate => out := next.(pending := null);
  }

  lemma SameSize<T>(a: set<T>, b: set<T>)
    requires a <= b && |a| == |b|
    ensures a == b
  {
    if x :| x in b && x !in a {
      assert a <= b - {x};
      SubsetSize(a, b - {x});
    }
  }

  lemma {:induction false} SubsetSize<T>(a: set<T>, b: set<T>)
    requires a <= b
    ensures |a| <= |b|
  {
    if x :| x in a {
      SubsetSize(a - {x}, b - {x});
    }
  }

  // validateState.
  method Validate(st: Struct, configured: Option<set<string>>) returns (ok: bool)
    ensures ok <==> ValidState(Value(st), configured)
  {
    if st.version != VERSION && st.version != CLOUD_VERSION {
      return false;
    }
    if st.version == VERSION && (st.identity != null || st.pending != null) {
      return false;
    }
    if st.version == CLOUD_VERSION && (st.identity == null || !ValidIdentity(st.identity.value)) {
      return false;
    }
    if st.pending != null {
      var p := st.pending.value;
      if (p.kind != "export" && p.kind != "changefeed") || p.name == "" || |p.name| > 128 {
        return false;
      }
      if (p.kind == "export" && st.exportId != "") || (p.kind == "changefeed" && st.changefeedId != "") {
        return false;
      }
    }
    if st.tables == null {
      return false;
    }
    ok := ValidateTables(st.tables, configured);
  }

  method ValidateTables(tables: TableMap, configured: Option<set<string>>) returns (ok: bool)
    ensures ok <==> ValidTables(TableValues(tables).value, configured)
  {
    ghost var values := TableValues(tables).value;
    assert values.Keys == tables.entries.Keys;
    if configured.Some? {
      if |tables.entries.Keys| != |configured.value| {
        return false;
      }
      var todo := tables.entries.Keys;
      while todo != {}
        invariant todo <= tables.entries.Keys && tables.entries.Keys - todo <= configured.value
        decreases |todo|
      {
        var name :| name in todo;
        if name !in configured.value {
          return false;
        }
        todo := todo - {name};
      }
      SameSize(tables.entries.Keys, configured.value);
    }
    var todo := tables.entries.Keys;
    while todo != {}
      invariant todo <= tables.entries.Keys
      invariant forall t | t in tables.entries && t !in todo :: tables.entries[t].cursors != null
      decreases |todo|
    {
      var name :| name in todo;
      if tables.entries[name].cursors == null {
        assert values[name].cursors.None?;
        return false;
      }
      todo := todo - {name};
    }
    ok := true;
  }

  // ----- The store and the manager -----

  // An upload of the state file or of the backup, and whether it was acknowledged.
  datatype Upload = ToFile(state: State, ok: bool) | ToBackup(state: State, ok: bool)

  // replication-state.json and the backup of its first version. A write may fail after it has
  // taken effect. `acknowledged` is the last state known to be stored, `uploads` all that was
  // written (history).
  class StateStore {
    var file: Option<State>
    var backup: Option<State>
    var acknowledged: Option<State>
    var uploads: seq<Upload>

    constructor (file: Option<State>, backup: Option<State>)
      ensures this.file == file && this.backup == backup && this.acknowledged == file && uploads == []
    {
      this.file, this.backup, this.acknowledged, uploads := file, backup, file, [];
    }

    method ReadState() returns (st: State)
      requires file.Some?
      modifies this`acknowledged
      ensures file == Some(st) && acknowledged == Some(st)
    {
      st := file.value;
      acknowledged := file;
    }

    method WriteState(st: State) returns (ok: bool)
      modifies this`file, this`acknowledged, this`uploads
      ensures uploads == old(uploads) + [ToFile(st, ok)]
      ensures if ok then file == Some(st) && acknowledged == Some(st)
              else (file == Some(st) || file == old(file)) && acknowledged == old(acknowledged)
    {
      ok := *;
      var written: bool := *;
      if ok || written {
        file := Some(st);
      }
      if ok {
        acknowledged := Some(st);
      }
      uploads := uploads + [ToFile(st, ok)];
    }

    method WriteBackup(st: State) returns (ok: bool)
      modifies this`backup, this`uploads
      ensures uploads == old(uploads) + [ToBackup(st, ok)]
      ensures if ok then backup == Some(st) else backup == Some(st) || backup == old(backup)
    {
      ok := *;
      var written: bool := *;
      if ok || written {
        backup := Some(st);
      }
      uploads := uploads + [ToBackup(st, ok)];
    }
  }

  // json.Decode: fresh objects for what the file holds.
  method Decode(st: State) returns (out: Struct)
    ensures fresh(Objects(out)) && Value(out) == st
    ensures st.tables.Some? && ValidTables(st.tables.value, None) ==> Whole(out)
  {
    out := Struct(null, null, st.version, st.checkpoint, st.finished, st.exportId, st.changefeedId, null);
    if st.identity.Some? {
      var box := new IdentityBox(st.identity.value);
      out := out.(identity := box);
    }
    if st.pending.Some? {
      var box := new PendingBox(st.pending.value);
      out := out.(pending := box);
    }
    if st.tables.Some? {
      var tables := DecodeTables(st.tables.value);
      out := out.(tables := tables);
    }
  }

  method DecodeTables(values: map<string, TableValue>) returns (tables: TableMap)
    ensures fresh(tables) && fresh(CursorMaps(tables)) && Distinct(tables.entries)
    ensures TableValues(tables) == Some(values) && tables.entries.Keys == values.Keys
    ensures forall t | t in values && values[t].cursors.Some? :: tables.entries[t].cursors != null
  {
    tables := new TableMap();
    var entries: map<string, TableEntry> := map[];
    var todo := values.Keys;
    while todo != {}
      invariant todo <= values.Keys && entries.Keys == values.Keys - todo
      invariant forall t | t in entries :: Holds(entries[t], values[t]) && (entries[t].cursors != null ==> fresh(entries[t].cursors))
      invariant Distinct(entries)
      decreases |todo|
    {
      var name :| name in todo;
      var entry := TableEntry(values[name].watermark, null);
      if values[name].cursors.Some? {
        var cursors := new CursorMap();
        cursors.entries := values[name].cursors.value;
        entry := entry.(cursors := cursors);
      }
      entries := entries[name := entry];
      todo := todo - {name};
    }
    tables.entries := entries;
    ghost var got := TableValues(tables).value;
    assert got.Keys == values.Keys;
    assert forall t | t in got :: got[t] == values[t];
    assert got == values;
  }

  ghost predicate Holds(entry: TableEntry, value: TableValue)
    reads entry.cursors
  {
    && entry.watermark == value.watermark
    && value.cursors == if entry.cursors == null then None else Some(entry.cursors.entries)
  }

  class StateManager {
    const store: StateStore
    const configured: Option<set<string>>
    var state: Struct

    constructor (store: StateStore, configured: Option<set<string>>, state: Struct)
      ensures this.store == store && this.configured == configured && this.state == state
    {
      this.store, this.configured, this.state := store, configured, state;
    }

    ghost predicate Valid()
      reads this, store, state.tables, Objects(state)
    {
      && Whole(state) && ValidState(Value(state), configured)
      && store.acknowledged == Some(Value(state))
    }

    // One call, which uploads exactly the changed state, once, and fails if the change is refused or the
    // upload is not acknowledged. If it was, the changed state is the new one; else the memory is as before,
    // and the file may or may not have been written.
    twostate predicate Called(op: Op, ok: bool)
      requires old(Valid())
      reads this, store, state.tables, Objects(state)
    {
      && Valid() && store.backup == old(store.backup)
      && match Step(old(Value(state)), op, configured)
         case Err(_) => !ok && Value(state) == old(Value(state)) && store.file == old(store.file) && store.uploads == old(store.uploads)
         case Ok(next) =>
           && store.uploads == old(store.uploads) + (if Skipped(op) then [] else [ToFile(next, ok)])
           && (Skipped(op) ==> ok && store.file == old(store.file))
           && if ok then Value(state) == next && (Skipped(op) || store.file == Some(next))
              else Value(state) == old(Value(state)) && (store.file == old(store.file) || store.file == Some(next))
    }

    method Snapshot() returns (st: Struct)
      requires Valid()
      ensures Valid() && Value(state) == old(Value(state))
      ensures fresh(Objects(st)) && Whole(st) && Value(st) == Value(state)
    {
      ClonedIsSame(Value(state), configured);
      st := Clone(state);
      ValueKept(state);
    }

    // update up to the upload: clone, change the clone, validate it.
    method Prepare(op: Op) returns (ok: bool, next: Struct)
      requires Valid() && !Skipped(op) && !Refused(Value(state), op)
      ensures ok <==> Step(old(Value(state)), op, configured).Ok?
      ensures ok ==> Step(old(Value(state)), op, configured) == Ok(Value(next)) && Whole(next) && fresh(Objects(next))
    {
      hide Change, ValidState, TableValues, Value;
      ClonedIsSame(Value(state), configured);
      next := Clone(state);
      ok, next := Mutate(next, op);
      if ok {
        label Mutated:
        ok := Validate(next, configured);
        ValueKept@Mutated(next);
      }
    }

    method Update(op: Op) returns (ok: bool)
      requires Valid() && !Skipped(op) && !Refused(Value(state), op)
      modifies this`state, store`file, store`acknowledged, store`uploads
      ensures Called(op, ok)
    {
      hide Step, ValidState, TableValues, Value;
      StepsAreValid(Value(state), op, configured);
      var next;
      ok, next := Prepare(op);
      ValueKept(state);
      if !ok {
        return;
      }
      label Before:
      ok := store.WriteState(Value(next));
      ValueKept(state);
      ValueKept@Before(next);
      if ok {
        state := next;
      }
    }

    method SetCheckpointTS(ts: nat) returns (ok: bool)
      requires Valid()
      modifies this`state, store`file, store`acknowledged, store`uploads
      ensures Called(Op.SetCheckpointTS(ts), ok)
    {
      if ts == 0 {
        return false;
      }
      ok := Update(Op.SetCheckpointTS(ts));
    }

    method SetExportID(id: string) returns (ok: bool)
      requires Valid()
      modifies this`state, store`file, store`acknowledged, store`uploads
      ensures Called(Op.SetExportID(id), ok)
    {
      if id == "" {
        return true;
      }
      ok := Update(Op.SetExportID(id));
    }

    method SetChangefeedID(id: string) returns (ok: bool)
      requires Valid()
      modifies this`state, store`file, store`acknowledged, store`uploads
      ensures Called(Op.SetChangefeedID(id), ok)
    {
      if id == "" {
        return true;
      }
      ok := Update(Op.SetChangefeedID(id));
    }

    method ClearChangefeedID() returns (ok: bool)
      requires Valid()
      modifies this`state, store`file, store`acknowledged, store`uploads
      ensures Called(Op.ClearChangefeedID, ok)
    {
      ok := Update(Op.ClearChangefeedID);
    }

    method SetDDLTableVersionWatermark(table: string, version: nat) returns (ok: bool)
      requires Valid()
      modifies this`state, store`file, store`acknowledged, store`uploads
      ensures Called(SetWatermark(table, version), ok)
    {
      ok := Update(SetWatermark(table, version));
    }

    method SetDMLCursors(table: string, cursors: map<string, Name>) returns (ok: bool)
      requires Valid()
      modifies this`state, store`file, store`acknowledged, store`uploads
      ensures Called(Op.SetDMLCursors(table, cursors), ok)
    {
      ok := Update(Op.SetDMLCursors(table, cursors));
    }

    method MarkSnapshotFinished(ts: nat) returns (ok: bool)
      requires Valid()
      modifies this`state, store`file, store`acknowledged, store`uploads
      ensures Called(Op.MarkSnapshotFinished(ts), ok)
    {
      if ts == 0 {
        return false;
      }
      ok := Update(Op.MarkSnapshotFinished(ts));
    }

    method BeginCreate(kind: string, name: string) returns (ok: bool)
      requires Valid()
      modifies this`state, store`file, store`acknowledged, store`uploads
      ensures Called(Op.BeginCreate(kind, name), ok)
    {
      ok := Update(Op.BeginCreate(kind, name));
    }

    method ClearPendingCreate() returns (ok: bool)
      requires Valid()
      modifies this`state, store`file, store`acknowledged, store`uploads
      ensures Called(Op.ClearPendingCreate, ok)
    {
      ok := Update(Op.ClearPendingCreate);
    }

    // The first version's file is kept once, before the upgrade, and never overwritten: the backup is
    // uploaded exactly if there is none and the state has a job; if that is not acknowledged nothing follows.
    method BindCloudSource(source: Identity) returns (ok: bool)
      requires Valid() && store.file.Some?
      modifies this`state, store`file, store`acknowledged, store`uploads, store`backup
      ensures Valid()
      ensures old(store.backup).Some? ==> store.backup == old(store.backup)
      ensures store.backup == old(store.backup) || store.backup == old(store.file)
      ensures BindUploads(old(Value(state)), old(store.file.value), old(store.backup), Op.BindCloudSource(source), configured,
                          old(store.uploads), store.uploads, ok)
      ensures ok ==> Step(old(Value(state)), Op.BindCloudSource(source), configured) == Ok(Value(state)) && store.file == Some(Value(state))
      ensures ok && NeedsBackup(old(Value(state)), None) ==> store.backup.Some?
      ensures !ok ==> Value(state) == old(Value(state))
      ensures store.file == old(store.file) ||
              (Step(old(Value(state)), Op.BindCloudSource(source), configured).Ok?
               && store.file == Some(Step(old(Value(state)), Op.BindCloudSource(source), configured).value))
    {
      var before := Snapshot();
      if before.identity != null && !SameSource(before.identity.value, source) {
        return false;
      }
      if before.version == VERSION && (before.exportId != "" || before.changefeedId != "") && store.backup.None? {
        ok := store.WriteBackup(store.file.value);
        ValueKept(state);
        if !ok {
          return;
        }
      }
      ok := Update(Op.BindCloudSource(source));
    }
  }

  predicate NeedsBackup(st: State, backup: Option<State>) {
    st.version == VERSION && (st.exportId != "" || st.changefeedId != "") && backup.None?
  }

  // What binding uploads after `before`.
  predicate BindUploads(st: State, file: State, backup: Option<State>, op: Op, configured: Option<set<string>>,
                        before: seq<Upload>, after: seq<Upload>, ok: bool)
    requires ValidState(st, configured)
  {
    if Refused(st, op) then after == before && !ok
    else if NeedsBackup(st, backup) && after == before + [ToBackup(file, false)] then !ok
    else
      var saved := before + if NeedsBackup(st, backup) then [ToBackup(file, true)] else [];
      match Step(st, op, configured)
      case Err(_) => after == saved && !ok
      case Ok(next) => after == saved + [ToFile(next, ok)]
  }

  // Whatever a caller does to the objects of a snapshot, the manager does not see it.
  method ChangeSnapshot(m: StateManager)
    requires m.Valid()
    ensures m.Valid() && Value(m.state) == old(Value(m.state))
  {
    hide ValidState, Value, TableValues;
    var st := m.Snapshot();
    modify Objects(st);
    ValueKept(m.state);
  }

  // newState, with an entry for every configured table.
  function NewState(tables: set<string>, snapshotFinished: bool): State {
    State(None, None, VERSION, 0, snapshotFinished, "", "", Some(map t | t in tables :: TableValue(0, Some(map[]))))
  }

  // A new state is valid, and has no progress: every table without a watermark or a cursor, no checkpoint,
  // no source and no job.
  lemma NewStateIsFresh(tables: set<string>, snapshotFinished: bool)
    ensures var st := NewState(tables, snapshotFinished);
            && ValidState(st, Some(tables)) && st.version == 1 && st.checkpoint == 0 && st.finished == snapshotFinished
            && st.identity == None && st.pending == None && st.exportId == "" && st.changefeedId == ""
            && forall t :: TableOf(st, t) == if t in tables then Some(TableValue(0, Some(map[]))) else None
  {
  }

  // Open (with tables) and OpenExisting (without): the state in the file, if it can be read and is valid
  // for the tables, or a new state if there is no file yet and its upload is acknowledged.
  method OpenState(store: StateStore, tables: Option<set<string>>, snapshotFinished: bool, reachable: bool) returns (m: StateManager?)
    modifies store`file, store`acknowledged, store`uploads
    ensures m != null ==> fresh(m) && m.store == store && fresh(Objects(m.state)) && m.Valid()
    ensures m != null ==> m.configured == if tables == Some({}) then None else tables
    ensures match old(store.file)
            case Some(st) =>
              && store.file == old(store.file) && store.uploads == old(store.uploads)
              && (m != null <==> reachable && ValidState(st, tables)) && (m != null ==> Value(m.state) == st)
            case None =>
              if tables.None? || !reachable then m == null && store.file == None && store.uploads == old(store.uploads)
              else && store.uploads == old(store.uploads) + [ToFile(NewState(tables.value, snapshotFinished), m != null)]
                   && (m != null ==> Value(m.state) == NewState(tables.value, snapshotFinished))
                   && (m == null ==> store.file == None || store.file == Some(NewState(tables.value, snapshotFinished)))
  {
    if !reachable {
      return null;
    }
    if store.file.Some? {
      m := OpenFile(store, tables);
    } else if tables.Some? {
      m := OpenNew(store, tables.value, snapshotFinished);
    } else {
      m := null;
    }
  }

  method OpenFile(store: StateStore, tables: Option<set<string>>) returns (m: StateManager?)
    requires store.file.Some?
    modifies store`acknowledged
    ensures m != null <==> ValidState(store.file.value, tables)
    ensures m != null ==> fresh(m) && m.store == store && fresh(Objects(m.state)) && m.Valid() && Value(m.state) == store.file.value
    ensures m != null ==> m.configured == if tables == Some({}) then None else tables
  {
    hide TableValues, Value;
    var st := store.ReadState();
    var state := Decode(st);
    var ok := Validate(state, None);
    if ok {
      ok := Validate(state, tables);
    }
    if !ok {
      return null;
    }
    m := new StateManager(store, if tables == Some({}) then None else tables, state);
  }

  method OpenNew(store: StateStore, tables: set<string>, snapshotFinished: bool) returns (m: StateManager?)
    modifies store`file, store`acknowledged, store`uploads
    ensures store.uploads == old(store.uploads) + [ToFile(NewState(tables, snapshotFinished), m != null)]
    ensures m != null ==> fresh(m) && m.store == store && fresh(Objects(m.state)) && m.Valid()
    ensures m != null ==> m.configured == (if tables == {} then None else Some(tables)) && Value(m.state) == NewState(tables, snapshotFinished)
    ensures m == null ==> store.file == old(store.file) || store.file == Some(NewState(tables, snapshotFinished))
  {
    hide TableValues, Value;
    var state := Decode(NewState(tables, snapshotFinished));
    label Before:
    var ok := store.WriteState(Value(state));
    ValueKept@Before(state);
    if !ok {
      return null;
    }
    m := new StateManager(store, if tables == {} then None else Some(tables), state);
  }

  lemma StepsAreValid(st: State, op: Op, configured: Option<set<string>>)
    requires ValidState(st, configured)
    ensures Step(st, op, configured).Ok? ==> ValidState(Step(st, op, configured).value, configured)
  {
  }

  lemma ClonedIsSame(st: State, configured: Option<set<string>>)
    requires ValidState(st, configured)
    ensures Cloned(st) == st
  {
    assert ClonedTables(st.tables) == st.tables.value;
  }
}
