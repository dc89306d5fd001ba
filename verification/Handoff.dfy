// Where the changefeed starts and which checkpoint the snapshot is recorded with
// (source/tidbcloud/runner.go, cmd/core.go).
module Handoff {
  import opened Wrappers
  import opened ReplicationState

  // snapshot/metadata: missing, without a readable TSO, or with one.
  datatype Metadata = NoFile | Garbled | Tso(tso: nat)

  // The configured snapshot.tso: unset, not a number, or a number.
  datatype Configured = Unset | Invalid | Given(tso: nat)

  datatype Mode = All | SnapshotOnly | IncrementalOnly

  // dumpling.LoadTSOFromMetadata.
  function LoadTso(m: Metadata): Result<nat> {
    match m
    case NoFile => Err("metadata is missing")
    case Garbled => Err("parse")
    case Tso(n) => if n == 0 then Err("snapshot metadata TSO is zero") else Ok(n)
  }

  predicate Agrees(expected: Configured, tso: nat) {
    match expected
    case Unset => true
    case Invalid => false
    case Given(n) => n == 0 || n == tso
  }

  // snapshotTSO, given the TSO the export service reported.
  function SnapshotTso(m: Metadata, api: Configured, cfg: Configured): Result<nat> {
    match LoadTso(m)
    case Err(e) => Err(e)
    case Ok(tso) => if Agrees(api, tso) && Agrees(cfg, tso) then Ok(tso) else Err("TSO does not match")
  }

  // changefeedStartTSO.
  function ChangefeedStart(checkpoint: nat, m: Metadata, cfg: Configured): Result<nat> {
    if checkpoint != 0 then Ok(checkpoint)
    else if m != NoFile then SnapshotTso(m, Unset, cfg)
    else if cfg.Given? && cfg.tso > 0 then Ok(cfg.tso)
    else Err("changefeed requires a nonzero start")
  }

  // The start position part of validateChangefeed.
  function ValidateStart(start: nat, checkpoint: nat, m: Metadata, cfg: Configured): Result<()> {
    if start == 0 then Err("no valid start TSO")
    else
      var bound: Result<nat> :=
        if checkpoint != 0 then Ok(checkpoint)
        else if m != NoFile then SnapshotTso(m, Unset, cfg)
        else match cfg
             case Unset => Ok(0)
             case Invalid => Err("parse")
             case Given(n) => Ok(n);
      match bound
      case Err(e) => Err(e)
      case Ok(n) => if n != 0 && start > n then Err("changefeed starts after the checkpoint") else Ok(())
  }

  // EnsureSnapshot, which leaves the metadata file as it is or as the export it waits for wrote
  // it. `exported` and `api` are what an export leaves behind and reports.
  function EnsureSnapshot(st: State, m: Metadata, cfg: Configured, exported: Metadata, api: Configured): Result<Metadata> {
    if st.finished && st.checkpoint != 0 then Ok(m)
    else
      var after := if m == NoFile then exported else m;
      var expected := if st.exportId != "" || m == NoFile then api else Unset;
      match SnapshotTso(after, expected, cfg)
      case Ok(_) => Ok(after)
      case Err(e) => Err(e)
  }

  // EnsureChangefeed: the start of the saved or newly created changefeed.
  function EnsureChangefeed(st: State, m: Metadata, cfg: Configured, saved: Option<nat>): Result<nat> {
    var start := if saved.Some? then Ok(saved.value) else ChangefeedStart(st.checkpoint, m, cfg);
    match start
    case Err(e) => Err(e)
    case Ok(n) =>
      match ValidateStart(n, st.checkpoint, m, cfg)
      case Ok(_) => Ok(n)
      case Err(e) => Err(e)
  }

  // ----- When they succeed -----

  // A TSO that does not contradict t: none given, zero, or t itself.
  predicate Fine(given: Configured, t: nat) { given == Unset || given == Given(0) || given == Given(t) }

  // The snapshot's TSO is the metadata's, which must be nonzero and must not contradict what the export
  // service reported or the configuration says.
  lemma SnapshotTsoIff(m: Metadata, api: Configured, cfg: Configured, t: nat)
    ensures SnapshotTso(m, api, cfg) == Ok(t) <==> m == Tso(t) && t != 0 && Fine(api, t) && Fine(cfg, t)
  {
  }

  // A new changefeed starts at the checkpoint; without one at the snapshot's TSO; without a snapshot at
  // the configured TSO; and otherwise not at all.
  lemma ChangefeedStartIff(checkpoint: nat, m: Metadata, cfg: Configured, t: nat)
    ensures ChangefeedStart(checkpoint, m, cfg) == Ok(t) <==>
            && t != 0
            && (checkpoint != 0 ==> t == checkpoint)
            && (checkpoint == 0 && m != NoFile ==> m == Tso(t) && Fine(cfg, t))
            && (checkpoint == 0 && m == NoFile ==> cfg == Given(t))
  {
  }

  // A changefeed that starts at t is fit exactly if t is nonzero and not after the checkpoint; without
  // one, not after the snapshot's TSO, which must be sound; without a snapshot, not after the configured
  // TSO, if there is one.
  lemma FitIff(t: nat, checkpoint: nat, m: Metadata, cfg: Configured)
    ensures ValidateStart(t, checkpoint, m, cfg).Ok? <==>
            && t != 0
            && (checkpoint != 0 ==> t <= checkpoint)
            && (checkpoint == 0 && m != NoFile ==> m.Tso? && t <= m.tso && Fine(cfg, m.tso))
            && (checkpoint == 0 && m == NoFile ==> cfg != Invalid && (cfg.Given? && cfg.tso != 0 ==> t <= cfg.tso))
  {
  }

  // EnsureSnapshot asks for nothing more once the snapshot is recorded; before that the metadata there
  // or the one its export writes must be sound, for a saved or new export by what the service reports.
  lemma EnsureSnapshotIff(st: State, m: Metadata, cfg: Configured, exported: Metadata, api: Configured, after: Metadata)
    ensures EnsureSnapshot(st, m, cfg, exported, api) == Ok(after) <==>
            if st.finished && st.checkpoint != 0 then after == m
            else && after == (if m == NoFile then exported else m)
                 && after.Tso? && after.tso != 0 && Fine(cfg, after.tso)
                 && (st.exportId != "" || m == NoFile ==> Fine(api, after.tso))
  {
  }

  // A saved changefeed must be fit; a new one starts where ChangefeedStartIff says, and is fit as well.
  lemma EnsureChangefeedIff(st: State, m: Metadata, cfg: Configured, saved: Option<nat>, t: nat)
    ensures EnsureChangefeed(st, m, cfg, saved) == Ok(t) <==>
            (if saved.Some? then t == saved.value else ChangefeedStart(st.checkpoint, m, cfg) == Ok(t)) && ValidateStart(t, st.checkpoint, m, cfg).Ok?
  {
  }

  // ----- Commands, one after another -----

  // A command's mode and configuration, and the state it opened (history).
  datatype Run = Run(mode: Mode, cfg: Configured, found: State)

  // Where the running command is. Every error ends it.
  datatype Phase =
    | Down
    | Opened(run: Run)
    | Exported(run: Run)                             // EnsureSnapshot has returned
    | Prepared(run: Run, start: Option<nat>)         // and EnsureChangefeed
    | Copied(run: Run, start: Option<nat>, tso: nat) // the snapshot is in Snowflake
    | Loading(run: Run, from: nat)                   // the incremental load

  // `feeds` says where each changefeed starts; `rows` up to which time this program has brought the
  // rows, and `external` whether the state was opened as finished (both history).
  datatype World = World(file: Option<State>, memory: State, phase: Phase, metadata: Metadata, feeds: map<string, nat>,
                         rows: Option<nat>, external: bool)

  type Tables = Option<set<string>>

  // A state write: acknowledged, or failed with or without effect on the file, which ends the
  // command.
  ghost predicate Write(w: World, w2: World, op: Op, tables: Tables, phase: Phase) {
    && ValidState(w.memory, tables)
    && match Step(w.memory, op, tables)
       case Err(_) => w2.file == w.file && w2.memory == w.memory && w2.phase == Down
       case Ok(next) =>
         if w2.phase == phase then w2.memory == next && w2.file == Some(next)
         else w2.memory == w.memory && w2.phase == Down && (w2.file == w.file || w2.file == Some(next))
  }

  // state.Open: only an incremental-only command creates a finished state.
  ghost predicate Open(w: World, w2: World, tables: Tables, mode: Mode, cfg: Configured) {
    && w.phase == Down
    && match w.file
       case Some(st) => ValidState(st, tables) && w2 == w.(memory := st, phase := Opened(Run(mode, cfg, st)))
       case None =>
         && ValidState(w2.memory, tables) && w2.memory.checkpoint == 0 && w2.memory.changefeedId == ""
         && w2.memory.finished == (mode == IncrementalOnly)
         && (w2.file == Some(w2.memory) || (w2.file == None && w2.phase == Down))
         && (w2.phase == Down || w2.phase == Opened(Run(mode, cfg, w2.memory)))
         && w2 == w.(file := w2.file, memory := w2.memory, phase := w2.phase, external := mode == IncrementalOnly)
  }

  // Calls that concern the source, the jobs' markers and the tables' progress.
  predicate Bookkeeping(op: Op) {
    op.BindCloudSource? || op.BeginCreate? || op.ClearPendingCreate? || op.SetExportID? || op.SetWatermark? || op.SetDMLCursors?
  }

  ghost predicate Keep(w: World, w2: World, tables: Tables, op: Op) {
    && w.phase != Down && Bookkeeping(op) && Write(w, w2, op, tables, w.phase)
    && w2 == w.(file := w2.file, memory := w2.memory, phase := w2.phase)
  }

  // An export writes the metadata file once; nobody changes it afterwards.
  predicate WriteMetadata(w: World, w2: World) { w.metadata == NoFile && w2 == w.(metadata := w2.metadata) }

  predicate Export(w: World, w2: World, api: Configured) {
    && w.phase.Opened? && w.phase.run.mode != IncrementalOnly
    && EnsureSnapshot(w.memory, w.metadata, w.phase.run.cfg, w.metadata, api).Ok?
    && w2 == w.(phase := Exported(w.phase.run))
  }

  predicate ReadyForFeed(w: World) {
    if w.phase.Opened? then w.phase.run.mode == IncrementalOnly else w.phase.Exported? && w.phase.run.mode != SnapshotOnly
  }

  // createChangefeed, with a new ID; the write of the ID may be lost.
  ghost predicate CreateFeed(w: World, w2: World, tables: Tables, id: string) {
    && ReadyForFeed(w) && w.memory.changefeedId == "" && id != "" && id !in w.feeds
    && ChangefeedStart(w.memory.checkpoint, w.metadata, w.phase.run.cfg).Ok?
    && Write(w, w2, SetChangefeedID(id), tables, w.phase)
    && w2 == w.(file := w2.file, memory := w2.memory, phase := w2.phase,
                feeds := w.feeds[id := ChangefeedStart(w.memory.checkpoint, w.metadata, w.phase.run.cfg).value])
  }

  // getChangefeed and validateChangefeed, of the one just created or of a saved one.
  predicate CheckFeed(w: World, w2: World) {
    && ReadyForFeed(w) && w.memory.changefeedId != "" && w.memory.changefeedId in w.feeds
    && EnsureChangefeed(w.memory, w.metadata, w.phase.run.cfg, Some(w.feeds[w.memory.changefeedId])).Ok?
    && w2 == w.(phase := Prepared(w.phase.run, Some(w.feeds[w.memory.changefeedId])))
  }

  predicate SkipFeed(w: World, w2: World) {
    w.phase.Exported? && w.phase.run.mode == SnapshotOnly && w2 == w.(phase := Prepared(w.phase.run, None))
  }

  // snapshot.Load and LoadTSOFromMetadata.
  predicate CopySnapshot(w: World, w2: World) {
    && w.phase.Prepared? && w.phase.run.mode != IncrementalOnly && !w.memory.finished && LoadTso(w.metadata).Ok?
    && w2 == w.(phase := Copied(w.phase.run, w.phase.start, LoadTso(w.metadata).value), rows := Some(LoadTso(w.metadata).value))
  }

  ghost predicate MarkFinished(w: World, w2: World, tables: Tables) {
    && w.phase.Copied? && Write(w, w2, MarkSnapshotFinished(w.phase.tso), tables, Prepared(w.phase.run, w.phase.start))
    && w2 == w.(file := w2.file, memory := w2.memory, phase := w2.phase)
  }

  predicate BeginLoad(w: World, w2: World) {
    && w.phase.Prepared? && w.phase.run.mode != SnapshotOnly && w.memory.finished && w.phase.start.Some?
    && w2 == w.(phase := Loading(w.phase.run, w.phase.start.value))
  }

  // A scan has brought the rows up to a metadata checkpoint of the changefeed, and stores it.
  ghost predicate Commit(w: World, w2: World, tables: Tables, ts: nat) {
    && w.phase.Loading? && w.phase.from <= ts && w.memory.checkpoint < ts && Write(w, w2, SetCheckpointTS(ts), tables, w.phase)
    && w2 == w.(file := w2.file, memory := w2.memory, phase := w2.phase, rows := Some(ts))
  }

  // The delete command, which does not know the tables, and the loss of its write.
  ghost predicate Delete(w: World, w2: World) {
    && w.phase == Down && w.file.Some? && ValidState(w.file.value, None) && w.file.value.changefeedId != ""
    && (w2 == w || (Step(w.file.value, ClearChangefeedID, None).Ok?
                    && w2 == w.(file := Some(Step(w.file.value, ClearChangefeedID, None).value))))
  }

  predicate Crash(w: World, w2: World) { w2 == w.(phase := Down) }

  ghost predicate Next(w: World, w2: World, tables: Tables) {
    || (exists mode, cfg :: Open(w, w2, tables, mode, cfg))
    || (exists op :: Keep(w, w2, tables, op)) || WriteMetadata(w, w2)
    || (exists api :: Export(w, w2, api))
    || (exists id :: CreateFeed(w, w2, tables, id)) || CheckFeed(w, w2) || SkipFeed(w, w2)
    || CopySnapshot(w, w2) || MarkFinished(w, w2, tables) || BeginLoad(w, w2)
    || (exists ts :: Commit(w, w2, tables, ts))
    || Delete(w, w2) || Crash(w, w2)
  }

  predicate Init(w: World) { w.phase == Down && w.file == None && w.rows == None && !w.external }

  ghost predicate IsRun(run: seq<World>, tables: Tables) {
    run != [] && Init(run[0]) && forall i | 0 <= i < |run| - 1 :: Next(run[i], run[i + 1], tables)
  }

  // ----- The invariant -----

  // The state and what the rows hold: unfinished without a checkpoint, finished with one the rows
  // have reached, or opened as finished.
  predicate StateOk(st: State, rows: Option<nat>, external: bool) {
    && (!st.finished ==> st.checkpoint == 0)
    && (st.finished && st.checkpoint == 0 ==> external)
    && (st.checkpoint != 0 ==> rows.Some? && st.checkpoint <= rows.value)
  }

  // A changefeed that was found fit: it is the saved one and does not start after the rows it will
  // be merged into.
  predicate StartOk(w: World, start: nat) {
    && w.memory.changefeedId in w.feeds && w.feeds[w.memory.changefeedId] == start && start != 0
    && (w.memory.checkpoint != 0 ==> start <= w.memory.checkpoint)
  }

  predicate BeforeSnapshot(w: World, start: Option<nat>) {
    LoadTso(w.metadata).Ok? && (start.Some? ==> start.value <= LoadTso(w.metadata).value)
  }

  predicate PhaseOk(w: World) {
    match w.phase
    case Down => true
    case Opened(run) => SameLoad(w.memory, run.found)
    case Exported(run) =>
      && SameLoad(w.memory, run.found) && run.mode != IncrementalOnly
      && ((w.memory.finished && w.memory.checkpoint != 0) || LoadTso(w.metadata).Ok?)
    case Prepared(run, start) =>
      && (start.Some? ==> StartOk(w, start.value)) && Loaded(run.found, w.memory)
      && (run.mode != IncrementalOnly && !w.memory.finished ==> BeforeSnapshot(w, start))
    case Copied(run, start, tso) =>
      && (start.Some? ==> StartOk(w, start.value)) && Loaded(run.found, w.memory) && BeforeSnapshot(w, start)
      && !w.memory.finished && tso == LoadTso(w.metadata).value && w.rows == Some(tso)
    case Loading(run, start) => StartOk(w, start) && w.memory.finished
  }

  predicate SameLoad(st: State, found: State) { st.finished == found.finished && st.checkpoint == found.checkpoint }

  // Since the state was opened, nothing but the end of the snapshot has been recorded.
  predicate Loaded(found: State, st: State) { SameLoad(st, found) || (!found.finished && st.finished && st.checkpoint != 0) }

  ghost predicate Inv(w: World, tables: Tables) {
    && (w.file.Some? ==> ValidState(w.file.value, tables) && StateOk(w.file.value, w.rows, w.external)
                         && (w.file.value.changefeedId != "" ==> w.file.value.changefeedId in w.feeds))
    && (w.phase != Down ==> w.file == Some(w.memory))
    && PhaseOk(w)
  }

  lemma BookkeepingKeeps(st: State, op: Op, tables: Tables)
    requires ValidState(st, tables) && Bookkeeping(op) && Step(st, op, tables).Ok?
    ensures var next := Step(st, op, tables).value;
            ValidState(next, tables) && SameLoad(next, st) && next.changefeedId == st.changefeedId
  {
  }

  lemma SaveFeedKeeps(st: State, id: string, tables: Tables)
    requires ValidState(st, tables) && id != "" && Step(st, SetChangefeedID(id), tables).Ok?
    ensures var next := Step(st, SetChangefeedID(id), tables).value;
            ValidState(next, tables) && SameLoad(next, st) && next.changefeedId == id
  {
  }

  lemma MarkFinishes(st: State, tso: nat, tables: Tables)
    requires ValidState(st, tables) && Step(st, MarkSnapshotFinished(tso), tables).Ok?
    ensures var next := Step(st, MarkSnapshotFinished(tso), tables).value;
            ValidState(next, tables) && next.finished && next.checkpoint == tso && tso != 0 && next.changefeedId == st.changefeedId
  {
  }

  lemma CommitMoves(st: State, ts: nat, tables: Tables)
    requires ValidState(st, tables) && Step(st, SetCheckpointTS(ts), tables).Ok?
    ensures var next := Step(st, SetCheckpointTS(ts), tables).value;
            ValidState(next, tables) && next.finished == st.finished && next.checkpoint == ts && next.changefeedId == st.changefeedId
  {
  }

  lemma DeleteKeeps(st: State, tables: Tables)
    requires ValidState(st, tables) && Step(st, ClearChangefeedID, None).Ok?
    ensures var next := Step(st, ClearChangefeedID, None).value;
            ValidState(next, tables) && SameLoad(next, st) && next.changefeedId == ""
  {
  }

  lemma FreshOk(w: World, w2: World, tables: Tables, mode: Mode, cfg: Configured)
    requires Inv(w, tables) && Open(w, w2, tables, mode, cfg)
    ensures Inv(w2, tables)
  {
    hide ValidState;
  }

  lemma KeepInv(w: World, w2: World, tables: Tables, op: Op)
    requires Inv(w, tables) && Keep(w, w2, tables, op)
    ensures Inv(w2, tables)
  {
    hide Step, ValidState;
    if Step(w.memory, op, tables).Ok? {
      BookkeepingKeeps(w.memory, op, tables);
    }
  }

  lemma CreateInv(w: World, w2: World, tables: Tables, id: string)
    requires Inv(w, tables) && CreateFeed(w, w2, tables, id)
    ensures Inv(w2, tables)
  {
    hide Step, ValidState;
    if Step(w.memory, SetChangefeedID(id), tables).Ok? {
      SaveFeedKeeps(w.memory, id, tables);
    }
  }

  lemma MarkInv(w: World, w2: World, tables: Tables)
    requires Inv(w, tables) && MarkFinished(w, w2, tables)
    ensures Inv(w2, tables)
  {
    hide Step, ValidState;
    if Step(w.memory, MarkSnapshotFinished(w.phase.tso), tables).Ok? {
      MarkFinishes(w.memory, w.phase.tso, tables);
    }
  }

  lemma CommitInv(w: World, w2: World, tables: Tables, ts: nat)
    requires Inv(w, tables) && Commit(w, w2, tables, ts)
    ensures Inv(w2, tables)
  {
    hide Step, ValidState;
    if Step(w.memory, SetCheckpointTS(ts), tables).Ok? {
      CommitMoves(w.memory, ts, tables);
    }
  }

  lemma DeleteInv(w: World, w2: World, tables: Tables)
    requires Inv(w, tables) && Delete(w, w2)
    ensures Inv(w2, tables)
  {
    hide Step, ValidState;
    if Step(w.file.value, ClearChangefeedID, None).Ok? {
      DeleteKeeps(w.file.value, tables);
    }
  }

  lemma QuietInv(w: World, w2: World, tables: Tables)
    requires Inv(w, tables)
    requires || WriteMetadata(w, w2) || (exists api :: Export(w, w2, api)) || CheckFeed(w, w2) || SkipFeed(w, w2)
             || CopySnapshot(w, w2) || BeginLoad(w, w2) || Crash(w, w2)
    ensures Inv(w2, tables)
  {
    hide ValidState;
  }

  lemma NextInv(w: World, w2: World, tables: Tables)
    requires Inv(w, tables) && Next(w, w2, tables)
    ensures Inv(w2, tables)
  {
    hide Inv, Open, Keep, CreateFeed, MarkFinished, Commit, Delete, WriteMetadata, Export, CheckFeed, SkipFeed, CopySnapshot, BeginLoad, Crash;
    if mode, cfg :| Open(w, w2, tables, mode, cfg) {
      FreshOk(w, w2, tables, mode, cfg);
    } else if op :| Keep(w, w2, tables, op) {
      KeepInv(w, w2, tables, op);
    } else if id :| CreateFeed(w, w2, tables, id) {
      CreateInv(w, w2, tables, id);
    } else if MarkFinished(w, w2, tables) {
      MarkInv(w, w2, tables);
    } else if ts :| Commit(w, w2, tables, ts) {
      CommitInv(w, w2, tables, ts);
    } else if Delete(w, w2) {
      DeleteInv(w, w2, tables);
    } else {
      QuietInv(w, w2, tables);
    }
  }

  lemma {:induction false} InvAlways(run: seq<World>, tables: Tables, i: nat)
    requires IsRun(run, tables) && i < |run|
    ensures Inv(run[i], tables)
  {
    if i > 0 {
      InvAlways(run, tables, i - 1);
      hide Inv, Next;
      NextInv(run[i - 1], run[i], tables);
    }
  }

  // ----- No gap -----

  // Whenever a command is at the incremental load, its changefeed, created by it or by an earlier
  // one, started at a nonzero time; and with a checkpoint, not after it, while the rows have reached
  // it: every commit is in the rows or in the stream. Without one, the data came from elsewhere.
  lemma HandoffHasNoGap(run: seq<World>, tables: Tables, i: nat)
    requires IsRun(run, tables) && i < |run| && run[i].phase.Loading?
    ensures var w := run[i];
            && w.memory.finished && w.phase.from != 0 && w.memory.changefeedId in w.feeds && w.phase.from == w.feeds[w.memory.changefeedId]
            && (if w.memory.checkpoint == 0 then w.external
                else w.rows.Some? && w.phase.from <= w.memory.checkpoint <= w.rows.value)
  {
    InvAlways(run, tables, i);
  }

  // The incremental load begins without a checkpoint exactly if the command opened a finished state
  // that had none.
  lemma WithoutCheckpoint(run: seq<World>, tables: Tables, i: nat)
    requires IsRun(run, tables) && i + 1 < |run| && BeginLoad(run[i], run[i + 1])
    ensures run[i + 1].memory.checkpoint == 0 <==> run[i].phase.run.found.finished && run[i].phase.run.found.checkpoint == 0
  {
    InvAlways(run, tables, i);
  }

  // The metadata file, once there, and the changefeeds' starts stay as they are.
  predicate Fixed(w: World, w2: World) {
    && (w.metadata != NoFile ==> w2.metadata == w.metadata)
    && forall id | id in w.feeds :: id in w2.feeds && w2.feeds[id] == w.feeds[id]
  }

  lemma FixedInStep(w: World, w2: World, tables: Tables)
    requires Next(w, w2, tables)
    ensures Fixed(w, w2)
  {
    hide Write, ValidState, Step;
  }

  lemma FixedOn(w: World, w2: World, w3: World)
    requires Fixed(w, w2) && Fixed(w2, w3)
    ensures Fixed(w, w3)
  {
  }

  lemma {:induction false} StaysFixed(run: seq<World>, tables: Tables, i: nat, j: nat)
    requires IsRun(run, tables) && i <= j < |run|
    ensures Fixed(run[i], run[j])
    decreases j
  {
    if i < j {
      hide Next, Init, Fixed;
      StaysFixed(run, tables, i, j - 1);
      FixedInStep(run[j - 1], run[j], tables);
      FixedOn(run[i], run[j - 1], run[j]);
    }
  }

  // A changefeed created next to an unfinished snapshot starts exactly at the checkpoint with which
  // that snapshot is recorded, be it by a later command and after crashes.
  lemma SnapshotStartsChangefeed(run: seq<World>, tables: Tables, i: nat, id: string, j: nat)
    requires IsRun(run, tables) && i < j && j + 1 < |run|
    requires CreateFeed(run[i], run[i + 1], tables, id) && run[i].phase.Exported? && !run[i].memory.finished
    requires MarkFinished(run[j], run[j + 1], tables) && run[j + 1].phase.Prepared?
    ensures id in run[j + 1].feeds && run[j + 1].memory.checkpoint == run[j + 1].feeds[id]
    ensures LoadTso(run[j + 1].metadata) == Ok(run[j + 1].memory.checkpoint)
  {
    InvAlways(run, tables, i);
    InvAlways(run, tables, j);
    StaysFixed(run, tables, i, i + 1);
    StaysFixed(run, tables, i + 1, j + 1);
    hide IsRun, Step, ValidState;
    MarkFinishes(run[j].memory, run[j].phase.tso, tables);
  }

  // ----- The configured TSO -----

  // While the snapshot is not recorded, what is known of its TSO agrees with the configuration.
  predicate ConfiguredOk(w: World) {
    match w.phase
    case Exported(run) => !w.memory.finished ==> w.metadata.Tso? && Fine(run.cfg, w.metadata.tso)
    case Prepared(run, _) => run.mode != IncrementalOnly && !w.memory.finished ==> w.metadata.Tso? && Fine(run.cfg, w.metadata.tso)
    case Copied(run, _, tso) => Fine(run.cfg, tso)
    case _ => true
  }

  lemma ExportOk(w: World, w2: World, tables: Tables, api: Configured)
    requires Inv(w, tables) && Export(w, w2, api)
    ensures ConfiguredOk(w2)
  {
    hide ValidState;
    EnsureSnapshotIff(w.memory, w.metadata, w.phase.run.cfg, w.metadata, api, w.metadata);
  }

  lemma KeepOk(w: World, w2: World, tables: Tables, op: Op)
    requires ConfiguredOk(w) && Keep(w, w2, tables, op)
    ensures ConfiguredOk(w2)
  {
    hide Step, ValidState;
    if Step(w.memory, op, tables).Ok? {
      BookkeepingKeeps(w.memory, op, tables);
    }
  }

  lemma CreateOk(w: World, w2: World, tables: Tables, id: string)
    requires ConfiguredOk(w) && CreateFeed(w, w2, tables, id)
    ensures ConfiguredOk(w2)
  {
    hide Step, ValidState;
    if Step(w.memory, SetChangefeedID(id), tables).Ok? {
      SaveFeedKeeps(w.memory, id, tables);
    }
  }

  lemma MarkOk(w: World, w2: World, tables: Tables)
    requires ConfiguredOk(w) && MarkFinished(w, w2, tables)
    ensures ConfiguredOk(w2)
  {
    hide Step, ValidState;
    if Step(w.memory, MarkSnapshotFinished(w.phase.tso), tables).Ok? {
      MarkFinishes(w.memory, w.phase.tso, tables);
    }
  }

  lemma RestOk(w: World, w2: World, tables: Tables)
    requires ConfiguredOk(w)
    requires || (exists mode, cfg :: Open(w, w2, tables, mode, cfg)) || WriteMetadata(w, w2) || CheckFeed(w, w2) || SkipFeed(w, w2)
             || CopySnapshot(w, w2) || BeginLoad(w, w2) || (exists ts :: Commit(w, w2, tables, ts)) || Delete(w, w2) || Crash(w, w2)
    ensures ConfiguredOk(w2)
  {
    hide ValidState, Step;
  }

  lemma NextConfigured(w: World, w2: World, tables: Tables)
    requires Inv(w, tables) && ConfiguredOk(w) && Next(w, w2, tables)
    ensures ConfiguredOk(w2)
  {
    hide Inv, ConfiguredOk, Open, Keep, CreateFeed, MarkFinished, Commit, Delete, WriteMetadata, Export, CheckFeed, SkipFeed, CopySnapshot, BeginLoad, Crash;
    if op :| Keep(w, w2, tables, op) {
      KeepOk(w, w2, tables, op);
    } else if api :| Export(w, w2, api) {
      ExportOk(w, w2, tables, api);
    } else if id :| CreateFeed(w, w2, tables, id) {
      CreateOk(w, w2, tables, id);
    } else if MarkFinished(w, w2, tables) {
      MarkOk(w, w2, tables);
    } else {
      RestOk(w, w2, tables);
    }
  }

  lemma {:induction false} ConfiguredAlways(run: seq<World>, tables: Tables, i: nat)
    requires IsRun(run, tables) && i < |run|
    ensures ConfiguredOk(run[i])
  {
    if i > 0 {
      ConfiguredAlways(run, tables, i - 1);
      InvAlways(run, tables, i - 1);
      hide Inv, Next, ConfiguredOk;
      NextConfigured(run[i - 1], run[i], tables);
    }
  }

  // A snapshot recorded by a command with a nonzero configured TSO is recorded with exactly that TSO.
  lemma RecordedAsConfigured(run: seq<World>, tables: Tables, i: nat)
    requires IsRun(run, tables) && i + 1 < |run| && MarkFinished(run[i], run[i + 1], tables) && run[i + 1].phase.Prepared?
    ensures var cfg := run[i].phase.run.cfg;
            && (cfg.Given? && cfg.tso != 0 ==> run[i + 1].memory.checkpoint == cfg.tso)
            && cfg != Invalid
  {
    ConfiguredAlways(run, tables, i);
    hide IsRun, Step, ValidState;
    MarkFinishes(run[i].memory, run[i].phase.tso, tables);
  }

  // A changefeed created without a checkpoint by such a command starts exactly there.
  lemma StartsAsConfigured(run: seq<World>, tables: Tables, i: nat, id: string)
    requires IsRun(run, tables) && i + 1 < |run| && CreateFeed(run[i], run[i + 1], tables, id)
    requires run[i].memory.checkpoint == 0 && run[i].phase.run.cfg.Given? && run[i].phase.run.cfg.tso != 0
    ensures id in run[i + 1].feeds && run[i + 1].feeds[id] == run[i].phase.run.cfg.tso
  {
    var w := run[i];
    hide IsRun, Write;
    ChangefeedStartIff(0, w.metadata, w.phase.run.cfg, ChangefeedStart(0, w.metadata, w.phase.run.cfg).value);
  }
}
