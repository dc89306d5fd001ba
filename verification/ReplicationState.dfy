// The durable replication state (pkg/state/state.go) and what each manager call does to it, as
// values.
module ReplicationState {
  import opened Wrappers
  import opened TextOrder
  import opened Discovery
  import opened CursorKeys

  datatype Identity = Identity(cluster: string, family: string, environment: string, plan: string)
  datatype Pending = Pending(kind: string, name: string)
  datatype TableValue = TableValue(watermark: nat, cursors: Option<map<string, Name>>)

  // None stands for a nil pointer or map.
  datatype State = State(
    identity: Option<Identity>,
    pending: Option<Pending>,
    version: int,
    checkpoint: nat,
    finished: bool,
    exportId: string,
    changefeedId: string,
    tables: Option<map<string, TableValue>>)

  const VERSION := 1
  const CLOUD_VERSION := 2

  const SERVERLESS := "serverless-v1beta1"
  const PREMIUM := "cloud-v1beta2"

  // ----- validateState -----

  // tidbcloud.CanonicalClusterID(id) == id: a nonzero uint64 as it is printed.
  predicate CanonicalCluster(id: string) {
    ParseUint(id).Ok? && ParseUint(id).value != 0 && PrintNat(ParseUint(id).value) == id
  }

  predicate ValidIdentity(i: Identity) {
    i.environment != "" && (i.family == SERVERLESS || i.family == PREMIUM) && CanonicalCluster(i.cluster)
  }

  function IdOf(st: State, kind: string): string {
    if kind == "export" then st.exportId else st.changefeedId
  }

  predicate ValidPending(st: State, p: Pending) {
    && (p.kind == "export" || p.kind == "changefeed")
    && 0 < |p.name| <= 128
    && IdOf(st, p.kind) == ""
  }

  // `configured` is None when the tables are not known (OpenExisting).
  predicate ValidTables(tables: map<string, TableValue>, configured: Option<set<string>>) {
    && (configured.Some? ==> tables.Keys == configured.value)
    && forall t | t in tables :: tables[t].cursors.Some?
  }

  predicate ValidState(st: State, configured: Option<set<string>>) {
    && (st.version == VERSION || st.version == CLOUD_VERSION)
    && (st.version == VERSION ==> st.identity.None? && st.pending.None?)
    && (st.version == CLOUD_VERSION ==> st.identity.Some? && ValidIdentity(st.identity.value))
    && (st.pending.Some? ==> ValidPending(st, st.pending.value))
    && st.tables.Some? && ValidTables(st.tables.value, configured)
  }

  // ----- The calls -----

  datatype Op =
    | SetCheckpointTS(ts: nat)
    | SetExportID(id: string)
    | SetChangefeedID(id: string)
    | ClearChangefeedID
    | SetWatermark(table: string, version: nat)
    | SetDMLCursors(table: string, cursors: map<string, Name>)
    | MarkSnapshotFinished(ts: nat)
    | BindCloudSource(source: Identity)
    | BeginCreate(kind: string, name: string)
    | ClearPendingCreate

  predicate SameSource(a: Identity, b: Identity) {
    a.cluster == b.cluster && a.family == b.family && a.environment == b.environment
  }

  predicate MovesBack(stored: map<string, Name>, next: map<string, Name>) {
    exists key :: key in next && key in stored && NameLess(next[key], stored[key])
  }

  function WithTable(st: State, table: string, entry: TableValue): State
    requires st.tables.Some?
  {
    st.(tables := Some(st.tables.value[table := entry]))
  }

  function WithoutPending(st: State, kind: string): State {
    if st.pending.Some? && st.pending.value.kind == kind then st.(pending := None) else st
  }

  // The change a call makes before validation.
  function Change(st: State, op: Op): Result<State>
    requires st.tables.Some? && ValidTables(st.tables.value, None)
  {
    match op
    case SetCheckpointTS(ts) =>
      if ts < st.checkpoint then Err("checkpoint_ts cannot move backward") else Ok(st.(checkpoint := ts))
    case SetExportID(id) => Ok(WithoutPending(st.(exportId := id), "export"))
    case SetChangefeedID(id) => Ok(WithoutPending(st.(changefeedId := id), "changefeed"))
    case ClearChangefeedID => Ok(st.(changefeedId := ""))
    case SetWatermark(table, version) =>
      if table !in st.tables.value then Err("state missing table entry")
      else
        var entry := st.tables.value[table];
        Ok(WithTable(st, table, entry.(watermark := if version > entry.watermark then version else entry.watermark)))
    case SetDMLCursors(table, cursors) =>
      if table !in st.tables.value then Err("state missing table entry")
      else
        var entry := st.tables.value[table];
        if MovesBack(entry.cursors.value, cursors) then Err("dml cursor cannot move backward")
        else Ok(WithTable(st, table, entry.(cursors := Some(entry.cursors.value + cursors))))
    case MarkSnapshotFinished(ts) =>
      if ts < st.checkpoint then Err("checkpoint_ts cannot move backward") else Ok(st.(checkpoint := ts, finished := true))
    case BindCloudSource(source) => Ok(st.(version := CLOUD_VERSION, identity := Some(source)))
    case BeginCreate(kind, name) =>
      if st.identity.None? then Err("bind source before creating jobs")
      else if st.pending.Some? then Err("creation outcome unknown")
      else Ok(st.(pending := Some(Pending(kind, name))))
    case ClearPendingCreate => Ok(st.(pending := None))
  }

  // Calls that return before update: without effect, or with an error.
  predicate Skipped(op: Op) {
    (op.SetExportID? || op.SetChangefeedID?) && op.id == ""
  }

  predicate Refused(st: State, op: Op) {
    || ((op.SetCheckpointTS? || op.MarkSnapshotFinished?) && op.ts == 0)
    || (op.BindCloudSource? && st.identity.Some? && !SameSource(st.identity.value, op.source))
  }

  // The state a call uploads, or its error.
  function Step(st: State, op: Op, configured: Option<set<string>>): Result<State>
    requires ValidState(st, configured)
  {
    if Skipped(op) then Ok(st)
    else if Refused(st, op) then Err("refused")
    else match Change(st, op)
      case Err(e) => Err(e)
      case Ok(next) => if ValidState(next, configured) then Ok(next) else Err("invalid state")
  }

  // ----- Many calls -----

  // Any calls one after another; a failed one leaves the state as it was.
  function Run(st: State, ops: seq<Op>, configured: Option<set<string>>): State
    requires ValidState(st, configured)
    ensures ValidState(Run(st, ops, configured), configured)
  {
    if ops == [] then st
    else
      var before := Run(st, ops[..|ops| - 1], configured);
      match Step(before, ops[|ops| - 1], configured)
      case Ok(next) => next
      case Err(_) => before
  }

  // `b` is at least as far as `a`.
  ghost predicate AtLeast(a: State, b: State)
    requires a.tables.Some? && b.tables.Some? && ValidTables(a.tables.value, None) && ValidTables(b.tables.value, None)
  {
    && a.checkpoint <= b.checkpoint && (a.finished ==> b.finished)
    && forall t | t in a.tables.value ::
         && t in b.tables.value
         && a.tables.value[t].watermark <= b.tables.value[t].watermark
         && forall key | key in a.tables.value[t].cursors.value ::
              && key in b.tables.value[t].cursors.value
              && !NameLess(b.tables.value[t].cursors.value[key], a.tables.value[t].cursors.value[key])
  }

  lemma EntryAdvances(st: State, table: string, entry: TableValue)
    requires st.tables.Some? && ValidTables(st.tables.value, None) && table in st.tables.value && entry.cursors.Some?
    requires st.tables.value[table].watermark <= entry.watermark
    requires forall key | key in st.tables.value[table].cursors.value ::
               key in entry.cursors.value && !NameLess(entry.cursors.value[key], st.tables.value[table].cursors.value[key])
    ensures AtLeast(st, WithTable(st, table, entry))
  {
  }

  lemma TableStepAdvances(st: State, op: Op)
    requires st.tables.Some? && ValidTables(st.tables.value, None) && (op.SetWatermark? || op.SetDMLCursors?) && Change(st, op).Ok?
    ensures var next := Change(st, op).value;
            next.tables.Some? && ValidTables(next.tables.value, None) && AtLeast(st, next)
  {
    var entry := st.tables.value[op.table];
    hide AtLeast;
    match op
    case SetWatermark(table, version) =>
      EntryAdvances(st, table, entry.(watermark := if version > entry.watermark then version else entry.watermark));
    case SetDMLCursors(table, cursors) =>
      EntryAdvances(st, table, entry.(cursors := Some(entry.cursors.value + cursors)));
  }

  lemma StepAdvances(st: State, op: Op, configured: Option<set<string>>)
    requires ValidState(st, configured) && Step(st, op, configured).Ok?
    ensures AtLeast(st, Step(st, op, configured).value)
  {
    if op.SetWatermark? || op.SetDMLCursors? {
      TableStepAdvances(st, op);
      hide AtLeast;
    } else {
      FieldStepAdvances(st, op, configured);
    }
  }

  lemma FieldStepAdvances(st: State, op: Op, configured: Option<set<string>>)
    requires ValidState(st, configured) && Step(st, op, configured).Ok? && !op.SetWatermark? && !op.SetDMLCursors?
    ensures AtLeast(st, Step(st, op, configured).value)
  {
    hide CanonicalCluster;
    AtLeastSelf(st, configured);
  }

  lemma AtLeastSelf(st: State, configured: Option<set<string>>)
    requires ValidState(st, configured)
    ensures AtLeast(st, st)
  {
  }

  lemma AtLeastTrans(a: State, b: State, c: State, configured: Option<set<string>>)
    requires ValidState(a, configured) && ValidState(b, configured) && ValidState(c, configured)
    requires AtLeast(a, b) && AtLeast(b, c)
    ensures AtLeast(a, c)
  {
    forall t | t in a.tables.value
      ensures t in c.tables.value && a.tables.value[t].watermark <= c.tables.value[t].watermark
      ensures forall key | key in a.tables.value[t].cursors.value ::
                key in c.tables.value[t].cursors.value && !NameLess(c.tables.value[t].cursors.value[key], a.tables.value[t].cursors.value[key])
    {
      forall key | key in a.tables.value[t].cursors.value
        ensures key in c.tables.value[t].cursors.value && !NameLess(c.tables.value[t].cursors.value[key], a.tables.value[t].cursors.value[key])
      {
        assert key in b.tables.value[t].cursors.value;
      }
    }
  }

  // The checkpoint, every watermark and every cursor only move forward, and the snapshot stays
  // finished, over any calls in any order.
  lemma {:induction false} ProgressIsMonotone(st: State, ops: seq<Op>, i: nat, configured: Option<set<string>>)
    requires ValidState(st, configured) && i <= |ops|
    ensures AtLeast(Run(st, ops[..i], configured), Run(st, ops, configured))
  {
    hide Step, AtLeast;
    var before, after := Run(st, ops[..i], configured), Run(st, ops, configured);
    AtLeastSelf(after, configured);
    if i == |ops| {
      assert ops[..i] == ops;
    } else {
      var n := |ops| - 1;
      var last := Run(st, ops[..n], configured);
      assert ops[..n][..i] == ops[..i];
      ProgressIsMonotone(st, ops[..n], i, configured);
      if Step(last, ops[n], configured).Ok? {
        StepAdvances(last, ops[n], configured);
        AtLeastTrans(before, last, after, configured);
      }
    }
  }

  predicate StillBound(a: State, b: State) {
    a.identity.Some? ==> b.identity.Some? && SameSource(a.identity.value, b.identity.value)
  }

  lemma StepKeepsSource(st: State, op: Op, configured: Option<set<string>>)
    requires ValidState(st, configured) && Step(st, op, configured).Ok?
    ensures StillBound(st, Step(st, op, configured).value)
  {
  }

  // A bound source is never exchanged for another.
  lemma {:induction false} SourceStaysBound(st: State, ops: seq<Op>, i: nat, configured: Option<set<string>>)
    requires ValidState(st, configured) && i <= |ops|
    ensures StillBound(Run(st, ops[..i], configured), Run(st, ops, configured))
  {
    hide Step, ValidState;
    if i == |ops| {
      assert ops[..i] == ops;
    } else {
      var n := |ops| - 1;
      var last := Run(st, ops[..n], configured);
      assert ops[..n][..i] == ops[..i];
      SourceStaysBound(st, ops[..n], i, configured);
      if Step(last, ops[n], configured).Ok? {
        StepKeepsSource(last, ops[n], configured);
      }
    }
  }

  // A creation is recorded only while no job of its kind and no other creation is.
  lemma CreationIsExclusive(st: State, kind: string, name: string, configured: Option<set<string>>)
    requires ValidState(st, configured)
    ensures Step(st, BeginCreate(kind, name), configured).Ok? <==>
              st.identity.Some? && st.pending.None? && (kind == "export" || kind == "changefeed")
              && 0 < |name| <= 128 && IdOf(st, kind) == ""
  {
  }

  // An operation on the loader's side is never refused for moving backward: a checkpoint not
  // below the stored one, a larger watermark, cursors none of which is behind.
  lemma ForwardStepsSucceed(st: State, op: Op, configured: Option<set<string>>)
    requires ValidState(st, configured)
    requires match op
             case SetCheckpointTS(ts) => ts > 0
             case MarkSnapshotFinished(ts) => ts > 0
             case SetWatermark(t, _) => t in st.tables.value
             case SetDMLCursors(t, _) => t in st.tables.value
             case _ => false
    ensures Step(st, op, configured).Ok? <==>
              match op
              case SetCheckpointTS(ts) => st.checkpoint <= ts
              case MarkSnapshotFinished(ts) => st.checkpoint <= ts
              case SetDMLCursors(t, cursors) => !MovesBack(st.tables.value[t].cursors.value, cursors)
              case _ => true
  {
  }

  // ----- What is stored -----

  // Table t of the state, if there is one.
  function TableOf(st: State, t: string): Option<TableValue> {
    if st.tables.Some? && t in st.tables.value then Some(st.tables.value[t]) else None
  }

  // All fields but those of the tables are the same.
  predicate SameFields(a: State, b: State) {
    && a.identity == b.identity && a.pending == b.pending && a.version == b.version && a.checkpoint == b.checkpoint
    && a.finished == b.finished && a.exportId == b.exportId && a.changefeedId == b.changefeedId
  }

  ghost predicate SameOtherTables(a: State, b: State, table: string) {
    forall t | t != table :: TableOf(a, t) == TableOf(b, t)
  }

  // A call that succeeds for a table stores the larger watermark, and the given cursors over those that
  // were there, and changes nothing else.
  lemma TableStepStores(st: State, op: Op, configured: Option<set<string>>)
    requires ValidState(st, configured) && (op.SetWatermark? || op.SetDMLCursors?) && Step(st, op, configured).Ok?
    ensures var next := Step(st, op, configured).value;
            && SameFields(st, next) && SameOtherTables(st, next, op.table)
            && TableOf(st, op.table).Some? && TableOf(next, op.table).Some?
            && var was, now := TableOf(st, op.table).value, TableOf(next, op.table).value;
               && was.cursors.Some? && now.cursors.Some?
               && match op
                  case SetWatermark(_, version) =>
                    now.cursors == was.cursors && version <= now.watermark && was.watermark <= now.watermark
                    && (now.watermark == version || now.watermark == was.watermark)
                  case SetDMLCursors(_, cursors) =>
                    && now.watermark == was.watermark && now.cursors.value.Keys == was.cursors.value.Keys + cursors.Keys
                    && forall key | key in now.cursors.value ::
                         now.cursors.value[key] == if key in cursors then cursors[key] else was.cursors.value[key]
                  case _ => false
  {
  }

  // Any other call that succeeds leaves all tables as they are, and of the fields changes these.
  lemma FieldStepStores(st: State, op: Op, configured: Option<set<string>>)
    requires ValidState(st, configured) && !op.SetWatermark? && !op.SetDMLCursors? && Step(st, op, configured).Ok?
    ensures var next := Step(st, op, configured).value;
            && next.tables == st.tables
            && next.checkpoint == (if op.SetCheckpointTS? || op.MarkSnapshotFinished? then op.ts else st.checkpoint)
            && (next.finished <==> st.finished || op.MarkSnapshotFinished?)
            && next.exportId == (if op.SetExportID? && op.id != "" then op.id else st.exportId)
            && next.changefeedId == (if op.ClearChangefeedID? then "" else if op.SetChangefeedID? && op.id != "" then op.id else st.changefeedId)
            && next.identity == (if op.BindCloudSource? then Some(op.source) else st.identity)
            && next.version == (if op.BindCloudSource? then 2 else st.version)
            && (match op
                case BeginCreate(kind, name) => next.pending == Some(Pending(kind, name))
                case ClearPendingCreate => next.pending == None
                case SetExportID(id) => next.pending == if id != "" && st.pending.Some? && st.pending.value.kind == "export" then None else st.pending
                case SetChangefeedID(id) =>
                  next.pending == if id != "" && st.pending.Some? && st.pending.value.kind == "changefeed" then None else st.pending
                case _ => next.pending == st.pending)
  {
  }

  // Two identities are of one source if cluster, API family and environment are equal, whatever the plan.
  predicate OneSource(a: Identity, b: Identity) { a == b.(plan := a.plan) }

  // When a call is refused, together with ForwardStepsSucceed and CreationIsExclusive for the others: a
  // zero timestamp, an unknown table, or a source that is invalid or not the bound one.
  lemma OtherStepsSucceed(st: State, op: Op, configured: Option<set<string>>)
    requires ValidState(st, configured)
    ensures match op
            case SetCheckpointTS(ts) => ts == 0 ==> Step(st, op, configured).Err?
            case MarkSnapshotFinished(ts) => ts == 0 ==> Step(st, op, configured).Err?
            case SetWatermark(t, _) => TableOf(st, t) == None ==> Step(st, op, configured).Err?
            case SetDMLCursors(t, _) => TableOf(st, t) == None ==> Step(st, op, configured).Err?
            case BindCloudSource(source) =>
              Step(st, op, configured).Ok? <==> ValidIdentity(source) && (st.identity.Some? ==> OneSource(st.identity.value, source))
            case BeginCreate(_, _) => true
            case _ => Step(st, op, configured).Ok?
  {
  }

  // ----- Over many calls -----

  // The largest of a watermark and those that calls for this table, from these states on, acknowledged.
  function LargestAcknowledged(st: State, ops: seq<Op>, configured: Option<set<string>>, table: string, least: nat): nat
    requires ValidState(st, configured)
  {
    if ops == [] then least
    else
      var largest, op := LargestAcknowledged(st, ops[..|ops| - 1], configured, table, least), ops[|ops| - 1];
      if op.SetWatermark? && op.table == table && op.version > largest && Step(Run(st, ops[..|ops| - 1], configured), op, configured).Ok?
      then op.version else largest
  }

  // A table's stored watermark is the largest that was acknowledged.
  lemma {:induction false} WatermarkIsLargest(st: State, ops: seq<Op>, configured: Option<set<string>>, table: string)
    requires ValidState(st, configured) && TableOf(st, table).Some?
    ensures TableOf(Run(st, ops, configured), table).Some?
    ensures TableOf(Run(st, ops, configured), table).value.watermark
            == LargestAcknowledged(st, ops, configured, table, TableOf(st, table).value.watermark)
  {
    if ops != [] {
      var n := |ops| - 1;
      WatermarkIsLargest(st, ops[..n], configured, table);
      TableAfter(Run(st, ops[..n], configured), ops[n], configured, table);
      hide Step, ValidState;
    }
  }

  // What one call does to the watermark and the cursors of a table.
  lemma TableAfter(st: State, op: Op, configured: Option<set<string>>, table: string)
    requires ValidState(st, configured) && TableOf(st, table).Some?
    ensures Step(st, op, configured).Ok? ==>
              var next := TableOf(Step(st, op, configured).value, table);
              var was := TableOf(st, table).value;
              && next.Some? && was.cursors.Some? && next.value.cursors.Some?
              && next.value.watermark == (if op.SetWatermark? && op.table == table && op.version > was.watermark then op.version else was.watermark)
              && next.value.cursors.value == was.cursors.value + if op.SetDMLCursors? && op.table == table then op.cursors else map[]
  {
    if Step(st, op, configured).Ok? {
      if op.SetWatermark? || op.SetDMLCursors? {
        TableStepStores(st, op, configured);
      } else {
        FieldStepStores(st, op, configured);
      }
    }
  }

  // The cursor last acknowledged for a key of this table, or the one there was.
  function LastAcknowledged(st: State, ops: seq<Op>, configured: Option<set<string>>, table: string, key: string, first: Option<Name>): Option<Name>
    requires ValidState(st, configured)
  {
    if ops == [] then first
    else
      var op := ops[|ops| - 1];
      if op.SetDMLCursors? && op.table == table && key in op.cursors && Step(Run(st, ops[..|ops| - 1], configured), op, configured).Ok?
      then Some(op.cursors[key])
      else LastAcknowledged(st, ops[..|ops| - 1], configured, table, key, first)
  }

  function CursorIn(t: TableValue, key: string): Option<Name> {
    if t.cursors.Some? && key in t.cursors.value then Some(t.cursors.value[key]) else None
  }

  // A stored cursor is the last that was acknowledged.
  lemma {:induction false} CursorIsLast(st: State, ops: seq<Op>, configured: Option<set<string>>, table: string, key: string)
    requires ValidState(st, configured) && TableOf(st, table).Some?
    ensures TableOf(Run(st, ops, configured), table).Some?
    ensures CursorIn(TableOf(Run(st, ops, configured), table).value, key)
            == LastAcknowledged(st, ops, configured, table, key, CursorIn(TableOf(st, table).value, key))
  {
    if ops != [] {
      var n := |ops| - 1;
      CursorIsLast(st, ops[..n], configured, table, key);
      TableAfter(Run(st, ops[..n], configured), ops[n], configured, table);
      hide Step, ValidState;
    }
  }

  // ----- Which states are valid -----

  // A cluster ID is valid if it is the decimal text of a nonzero uint64.
  lemma CanonicalClusterIff(id: string)
    ensures CanonicalCluster(id) <==> exists n: nat :: 0 < n <= MAX_UINT64 && id == PrintNat(n)
  {
    if n: nat :| 0 < n <= MAX_UINT64 && id == PrintNat(n) {
      PrintedNumber(n);
    }
  }

  // A state file is accepted exactly if its version is known, the first one without an identity or a
  // marker and the second one with an identity that could be a cluster's; if a marker has a kind, a
  // short name, and no job of its kind next to it; and if the tables are the configured ones.
  lemma AcceptedFiles(st: State, configured: Option<set<string>>)
    ensures ValidState(st, configured) <==>
      && (st.version == 1 || st.version == 2)
      && (st.version == 1 ==> st.identity == None && st.pending == None)
      && (st.version == 2 ==>
            st.identity.Some? && var who := st.identity.value;
            && who.environment != "" && who.family in {"serverless-v1beta1", "cloud-v1beta2"}
            && exists n: nat :: 0 < n <= MAX_UINT64 && who.cluster == PrintNat(n))
      && (st.pending.Some? ==>
            && 1 <= |st.pending.value.name| <= 128
            && ((st.pending.value.kind == "export" && st.exportId == "") || (st.pending.value.kind == "changefeed" && st.changefeedId == "")))
      && st.tables.Some? && (configured.Some? ==> st.tables.value.Keys == configured.value)
      && forall t | t in st.tables.value :: st.tables.value[t].cursors.Some?
  {
    if st.identity.Some? {
      CanonicalClusterIff(st.identity.value.cluster);
    }
    hide CanonicalCluster;
  }
}
