// The incremental replication protocol as a step system: a producer that writes schema files,
// data files, indexes and the metadata checkpoint; a loader that scans while the producer
// writes, applies DDLs and merges files; durable state; and crashes.
module Replication {
  import opened Wrappers
  import opened TextOrder
  import opened Merge
  import opened Statements
  import opened History
  import opened Discovery

  // ----- State -----

  // replication-state.json for one table.
  datatype Durable = Durable(watermark: nat, cursors: map<Scope, Name>)

  // Where the loader is with one table in the current scan. `floor` and `listed` are history
  // variables: how long each log was when the metadata was read and when it was listed. `pass` is
  // how many statements of the first pending DDL have run in this scan.
  datatype Stage =
    | Resting
    | Begun(floor: map<Scope, nat>)
    | Looking(floor: map<Scope, nat>, planned: set<nat>, dirs: map<nat, set<int>>,
              listed: map<Scope, nat>, dates: map<Scope, seq<nat>>, index: map<Scope, map<nat, nat>>)
    | Running(floor: map<Scope, nat>, pending: seq<nat>, queue: map<Scope, seq<Name>>, pass: nat)
    | Done(floor: map<Scope, nat>)

  datatype TableState = TableState(
    schemas: set<nat>,               // visible schema files
    logs: map<Scope, Log>,           // indexed data files
    folders: map<Scope, set<nat>>,    // date directories that hold any object
    durable: Durable,
    watermark: nat,                  // the loader's copies of the durable fields
    cursors: map<Scope, Name>,
    stage: Stage,
    rows: Table,                     // the Snowflake table
    columns: Columns,                  // and its columns,
    applied: nat,                    // the schema version whose DDL is marked,
    partial: Ddl,                    // the next DDL's statements that have run all the same (history),
    merged: map<Scope, nat>)         // and how long a prefix of each stream was ever merged (history)

  datatype Process = Down | Idle | Scanning(target: nat)

  datatype System = System(metadata: nat, checkpoint: nat, process: Process, tables: map<string, TableState>)

  function LogOf(t: TableState, s: Scope): Log { if s in t.logs then t.logs[s] else [] }
  function FoldersOf(t: TableState, s: Scope): set<nat> { if s in t.folders then t.folders[s] else {} }
  function CursorOf(cursors: map<Scope, Name>, s: Scope): Name { if s in cursors then cursors[s] else NO_NAME }
  function CountOf(m: map<Scope, nat>, s: Scope): nat { if s in m then m[s] else 0 }
  function QueueOf(m: map<Scope, seq<Name>>, s: Scope): seq<Name> { if s in m then m[s] else [] }

  function WithIndex(m: map<nat, nat>, d: nat, n: nat): map<nat, nat> { m[d := n] }

  // What the loader runs for a version: the changefeed's first schema file carries no query.
  function Script(src: Source, v: nat): Ddl { if v in src.ddls && v != src.base then src.ddls[v] else [] }

  // The schema version a table with this watermark has: before the first incremental DDL it is
  // the one its snapshot was taken under.
  function Current(src: Source, watermark: nat): nat { if watermark > 0 then watermark else src.snapshot }

  // ----- What the producer promises -----

  predicate Has(f: File, k: Key) { exists c | c in f :: c.key == k }

  // Commit time of the last row of k in file order; 0 if there is none.
  function LastRow(f: File, k: Key): nat {
    if f == [] then 0
    else if f[|f| - 1].key == k then ToNumber(f[|f| - 1].commit)
    else LastRow(f[..|f| - 1], k)
  }

  function LastTime(log: Log, k: Key): nat {
    if log == [] then 0
    else if Has(log[|log| - 1].file, k) then LastRow(log[|log| - 1].file, k)
    else LastTime(log[..|log| - 1], k)
  }

  // A file of stream s holds changes the source made under its schema version to its keys.
  ghost predicate Genuine(src: Source, w: nat, s: Scope, f: File) {
    && Stamped(f, w)
    && forall c | c in f ::
         && (c.key, ToNumber(c.commit)) in src.changes
         && src.changes[(c.key, ToNumber(c.commit))] == Image(c)
         && src.start < ToNumber(c.commit)
         && Under(src, s.version, ToNumber(c.commit))
         && src.home(c.key, s.version) == s.partition
  }

  // In a log of stream s the last row of every key is at least as new as the key's last change
  // by time `upto`.
  ghost predicate Caught(src: Source, s: Scope, log: Log, upto: nat) {
    forall k, e | (k, e) in src.changes && src.start < e <= upto && Under(src, s.version, e)
      && src.home(k, s.version) == s.partition :: e <= LastTime(log, k)
  }

  ghost predicate Contract(src: Source, w: nat, metadata: nat, t: TableState) {
    // Schema files appear in order, from the changefeed's first one on.
    && (forall v | v in t.schemas :: v in src.ddls && src.base <= v)
    && (forall u, v | u in src.ddls && v in t.schemas && src.base <= u < v :: u in t.schemas)
    // Data files follow their schema file, and dates never go backward.
    && (forall s | s in t.logs ::
         && Dated(t.logs[s])
         && (t.logs[s] != [] ==> s.version in t.schemas)
         && (forall i | 0 <= i < |t.logs[s]| ::
              Genuine(src, w, s, t.logs[s][i].file) && t.logs[s][i].date in FoldersOf(t, s)))
    // There is no metadata checkpoint before the changefeed's start.
    && (metadata > 0 ==> src.start <= metadata)
    // A metadata checkpoint covers every earlier schema version and every earlier change.
    && (forall u | u in src.ddls && src.base <= u <= metadata :: u in t.schemas)
    && (forall s :: Caught(src, s, LogOf(t, s), metadata))
    // A schema file shows only after everything before it.
    && (forall s: Scope, v | v in t.schemas && s.version < v :: Caught(src, s, LogOf(t, s), v))
  }

  // ----- Producer steps; each one keeps the contract -----

  ghost predicate IndexFile(src: Source, w: nat, metadata: nat, t: TableState, t2: TableState, s: Scope, entry: Entry) {
    && s.version in t.schemas && (forall v | v in t.schemas :: v <= s.version)
    && entry.date in FoldersOf(t, s) && (forall d | d in FoldersOf(t, s) :: d <= entry.date)
    && t2 == t.(logs := t.logs[s := LogOf(t, s) + [entry]])
    && Contract(src, w, metadata, t2)
  }

  ghost predicate OpenDirectory(src: Source, w: nat, metadata: nat, t: TableState, t2: TableState, s: Scope, d: nat) {
    && d > 0 && (forall x | x in FoldersOf(t, s) :: x < d)
    && t2 == t.(folders := t.folders[s := FoldersOf(t, s) + {d}])
    && Contract(src, w, metadata, t2)
  }

  ghost predicate ShowSchema(src: Source, w: nat, metadata: nat, t: TableState, t2: TableState, v: nat) {
    && (forall u | u in t.schemas :: u < v)
    && t2 == t.(schemas := t.schemas + {v})
    && Contract(src, w, metadata, t2)
  }

  // ----- Loader steps on one table during a scan -----

  // Which schema versions getNewFiles keeps from the walk over schema files.
  function Planned(schemas: set<nat>, watermark: nat, checkpoint: nat): set<nat> {
    if watermark > 0 then set v | v in schemas && watermark <= v
    else set v | v in schemas && (checkpoint < v || IsBaseline(schemas, checkpoint, v))
  }

  predicate IsBaseline(schemas: set<nat>, checkpoint: nat, v: nat) {
    v in schemas && 0 < v <= checkpoint && forall u | u in schemas && u <= checkpoint :: u <= v
  }

  ghost predicate WalkSchemas(checkpoint: nat, t: TableState, t2: TableState) {
    && t.stage.Begun?
    && (t.watermark > 0 ==> t.watermark in t.schemas)
    && t2 == t.(stage := Looking(t.stage.floor, Planned(t.schemas, t.watermark, checkpoint), map[], map[], map[], map[]))
  }

  ghost predicate ListVersion(t: TableState, t2: TableState, v: nat) {
    && t.stage.Looking? && v in t.stage.planned && v !in t.stage.dirs
    && t2 == t.(stage := t.stage.(dirs := t.stage.dirs[v :=
         set s | s in t.folders && s.version == v && t.folders[s] != {} :: s.partition]))
  }

  ghost predicate ListDates(t: TableState, t2: TableState, s: Scope, dates: seq<nat>) {
    && t.stage.Looking? && s.version in t.stage.dirs && s.partition in t.stage.dirs[s.version] && s !in t.stage.dates
    && Increasing(dates) && (forall d :: d in dates <==> d in FoldersOf(t, s))
    && t2 == t.(stage := t.stage.(dates := t.stage.dates[s := dates], listed := t.stage.listed[s := |LogOf(t, s)|],
                                  index := t.stage.index[s := map[]]))
  }

  ghost predicate ReadIndex(t: TableState, t2: TableState, s: Scope, d: nat) {
    && t.stage.Looking? && s in t.stage.dates && s in t.stage.index && d in t.stage.dates[s]
    && CursorOf(t.cursors, s).date <= d && d !in t.stage.index[s]
    && t2 == t.(stage := t.stage.(index := t.stage.index[s := WithIndex(t.stage.index[s], d, Index(LogOf(t, s), d))]))
  }

  ghost predicate LookedEverywhere(t: TableState)
    requires t.stage.Looking?
  {
    && (forall v | v in t.stage.planned :: v in t.stage.dirs)
    && (forall v, p | v in t.stage.dirs && p in t.stage.dirs[v] :: Scope(v, p) in t.stage.dates)
    && (forall s | s in t.stage.dates :: s in t.stage.index)
    && (forall s, d | s in t.stage.dates && d in t.stage.dates[s] && CursorOf(t.cursors, s).date <= d :: d in t.stage.index[s])
  }

  // All reads done: pending DDLs in version order, and each stream's new files in file order.
  ghost predicate MakePlan(checkpoint: nat, t: TableState, t2: TableState, pending: seq<nat>) {
    && t.stage.Looking? && LookedEverywhere(t)
    && Increasing(pending)
    && (forall v :: v in pending <==> v in t.stage.planned && (if t.watermark > 0 then t.watermark < v else checkpoint < v))
    && t2 == t.(stage := Running(t.stage.floor, pending,
         map s | s in t.stage.dates && s in t.stage.index :: StreamPlan(CursorOf(t.cursors, s), t.stage.dates[s], t.stage.index[s]), 0))
  }

  // The file of that name, as an object store would return it.
  ghost predicate FileNamed(log: Log, name: Name, f: File) {
    exists i :: 0 <= i < |log| && NameOf(log, i) == name && log[i].file == f
  }

  // Work is done in order of schema version, a version's DDL before its files, and the files of
  // a stream in order. Streams of one version share no key; their order is left open.
  ghost predicate MergeNext(checkpoint: nat, t: TableState, t2: TableState, s: Scope) {
    && t.stage.Running? && t.stage.pass == 0 && QueueOf(t.stage.queue, s) != []
    && (forall v | v in t.stage.pending :: s.version < v)
    && (forall s2: Scope | s2.version < s.version :: QueueOf(t.stage.queue, s2) == [])
    && var name := QueueOf(t.stage.queue, s)[0];
    && (exists f :: FileNamed(LogOf(t, s), name, f) && MergeStatement(t.rows, f, checkpoint, t2.rows))
    && t2 == t.(rows := t2.rows, cursors := t.cursors[s := name],
                merged := t.merged[s := Later(CountOf(t.merged, s), Position(LogOf(t, s), name))],
                stage := Running(t.stage.floor, t.stage.pending, t.stage.queue[s := QueueOf(t.stage.queue, s)[1..]], 0))
  }

  ghost predicate NextDdl(t: TableState) {
    && t.stage.Running? && t.stage.pending != []
    && forall s: Scope | s.version < t.stage.pending[0] :: QueueOf(t.stage.queue, s) == []
  }

  // The next statement of the DDL, if Snowflake accepts it. Statements that ran before a crash are
  // run again; what has run at all is kept in `partial`.
  ghost predicate ExecStatement(src: Source, t: TableState, t2: TableState) {
    && NextDdl(t) && t.stage.pass < |Script(src, t.stage.pending[0])|
    && var s := Script(src, t.stage.pending[0])[t.stage.pass];
    && RunOne(t.columns, s.statement).Some?
    && t2 == t.(rows := OnTable(s, t.rows), columns := RunOne(t.columns, s.statement).value,
                partial := if t.stage.pass < |t.partial| then t.partial else t.partial + [s],
                stage := Running(t.stage.floor, t.stage.pending, t.stage.queue, t.stage.pass + 1))
  }

  // All its statements have run and the watermark is stored.
  ghost predicate MarkDdl(src: Source, t: TableState, t2: TableState) {
    && NextDdl(t) && t.stage.pass == |Script(src, t.stage.pending[0])|
    && t2 == t.(watermark := t.stage.pending[0], durable := t.durable.(watermark := t.stage.pending[0]),
                applied := t.stage.pending[0], partial := [],
                stage := Running(t.stage.floor, t.stage.pending[1..], t.stage.queue, 0))
  }

  ghost predicate PersistCursors(t: TableState, t2: TableState) {
    && t.stage.Running? && t.stage.pending == [] && (forall s :: QueueOf(t.stage.queue, s) == [])
    && t2 == t.(durable := t.durable.(cursors := t.cursors), stage := Done(t.stage.floor))
  }

  ghost predicate LoaderStep(src: Source, checkpoint: nat, t: TableState, t2: TableState) {
    || WalkSchemas(checkpoint, t, t2)
    || (exists v :: ListVersion(t, t2, v))
    || (exists s, dates :: ListDates(t, t2, s, dates))
    || (exists s, d :: ReadIndex(t, t2, s, d))
    || (exists pending :: MakePlan(checkpoint, t, t2, pending))
    || (exists s :: MergeNext(checkpoint, t, t2, s))
    || ExecStatement(src, t, t2) || MarkDdl(src, t, t2) || PersistCursors(t, t2)
  }

  ghost predicate ProducerStep(src: Source, w: nat, metadata: nat, t: TableState, t2: TableState) {
    || (exists s, entry :: IndexFile(src, w, metadata, t, t2, s, entry))
    || (exists s, d :: OpenDirectory(src, w, metadata, t, t2, s, d))
    || (exists v :: ShowSchema(src, w, metadata, t, t2, v))
  }

  // ----- Steps of the whole system -----

  datatype Setup = Setup(sources: map<string, Source>, width: nat)

  function Floor(t: TableState): map<Scope, nat> { map s | s in t.logs :: |t.logs[s]| }

  ghost predicate TableStep(c: Setup, y: System, y2: System, name: string) {
    && name in c.sources && name in y.tables && name in y2.tables
    && y2 == y.(tables := y.tables[name := y2.tables[name]])
    && ( || ProducerStep(c.sources[name], c.width, y.metadata, y.tables[name], y2.tables[name])
         || (y.process.Scanning? && LoaderStep(c.sources[name], y.checkpoint, y.tables[name], y2.tables[name])))
  }

  ghost predicate PublishMetadata(c: Setup, y: System, y2: System) {
    && y.metadata <= y2.metadata && y2 == y.(metadata := y2.metadata)
    && forall n | n in y.tables && n in c.sources :: Contract(c.sources[n], c.width, y2.metadata, y.tables[n])
  }

  function Restarted(t: TableState): TableState {
    t.(watermark := t.durable.watermark, cursors := t.durable.cursors, stage := Resting)
  }

  ghost predicate Start(y: System, y2: System) {
    && y.process == Down
    && y2 == y.(process := Idle, tables := map n | n in y.tables :: Restarted(y.tables[n]))
  }

  ghost predicate BeginScan(y: System, y2: System) {
    && y.process == Idle && y.checkpoint < y.metadata
    && y2 == y.(process := Scanning(y.metadata), tables := map n | n in y.tables :: y.tables[n].(stage := Begun(Floor(y.tables[n]))))
  }

  // SetCheckpointTS after every table has finished.
  ghost predicate Commit(y: System, y2: System) {
    && y.process.Scanning? && (forall n | n in y.tables :: y.tables[n].stage.Done?)
    && y2 == y.(checkpoint := y.process.target, process := Idle, tables := map n | n in y.tables :: y.tables[n].(stage := Resting))
  }

  // The process dies, or an error makes it exit: anywhere, also between the statements of a DDL or
  // between the last of them and the watermark. A state write or a statement whose outcome is
  // unknown has happened before the crash or not at all.
  ghost predicate Crash(y: System, y2: System) {
    && y.process != Down
    && y2 == y.(process := Down, tables := map n | n in y.tables :: Restarted(y.tables[n]))
  }

  ghost predicate Next(c: Setup, y: System, y2: System) {
    || (exists name :: TableStep(c, y, y2, name))
    || PublishMetadata(c, y, y2) || Start(y, y2) || BeginScan(y, y2) || Commit(y, y2) || Crash(y, y2)
  }

  // The loaded rows are those of time `origin`: with a snapshot, the checkpoint recorded with it;
  // for a state opened as finished without one, the changefeed's start, with checkpoint 0.
  predicate Loaded(src: Source, checkpoint: nat) {
    src.origin == checkpoint || (checkpoint == 0 && src.origin == src.start && src.snapshot == src.base)
  }

  ghost predicate Init(c: Setup, y: System) {
    && y.process == Down && y.tables.Keys == c.sources.Keys
    && forall n | n in y.tables ::
         var src, t := c.sources[n], y.tables[n];
         && Sound(src) && Loaded(src, y.checkpoint) && Contract(src, c.width, y.metadata, t)
         && t == TableState(t.schemas, t.logs, t.folders, Durable(0, map[]), 0, map[], Resting, t.rows, t.columns, src.snapshot, [], map[])
         && forall k: Key :: Lookup(t.rows, k) == ValueAt(src, k, src.origin)
  }
}
