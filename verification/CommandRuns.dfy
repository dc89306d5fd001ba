// Commands get through: runs in which a job is created, refused or deleted, and a run from the first
// command to the incremental load.
module CommandRuns {
  import opened Wrappers
  import opened ReplicationState
  import J = JobCreation
  import H = Handoff

  // ----- Jobs -----

  function Quiet(st: State, phase: J.Phase, exports: J.Jobs, changefeeds: J.Jobs, answer: Option<J.Answer>): J.World {
    J.World(st, st, phase, exports, changefeeds, answer)
  }

  lemma GrowJobs(run: seq<J.World>, w: J.World, tables: J.Tables)
    requires J.IsRun(run, tables) && (J.CommandStep(run[|run| - 1], w, tables) || J.ServerStep(run[|run| - 1], w))
    ensures J.IsRun(run + [w], tables)
  {
    hide J.CommandStep, J.ServerStep, J.Accounted, ValidState;
  }

  lemma IsCommandStep(w: J.World, w2: J.World, tables: J.Tables)
    requires || J.Open(w, w2, tables) || (exists k, name :: J.Begin(w, w2, tables, k, name)) || (exists k :: J.Post(w, w2, k))
             || J.Receive(w, w2) || J.Save(w, w2, tables) || J.Clear(w, w2, tables)
             || J.OpenDelete(w, w2) || J.ConfirmGone(w, w2) || J.ClearId(w, w2)
    ensures J.CommandStep(w, w2, tables)
  {
    hide J.Open, J.Begin, J.Post, J.Receive, J.Save, J.Clear, J.OpenDelete, J.ConfirmGone, J.ClearId;
  }

  // A state with the marker of this creation.
  function Marked(st: State, k: J.Kind, name: string): State { st.(pending := Some(Pending(J.KindName(k), name))) }

  lemma BeginStep(st: State, tables: J.Tables, k: J.Kind, name: string, w: J.World, w2: J.World)
    requires ValidState(st, tables) && st.identity.Some? && st.pending.None? && J.Id(st, k) == "" && 0 < |name| <= 128
    requires w.file == w.memory == st && w.phase == J.Idle
    requires w2 == w.(file := Marked(st, k, name), memory := Marked(st, k, name), phase := J.Marked(k))
    ensures J.Begin(w, w2, tables, k, name) && ValidState(Marked(st, k, name), tables)
  {
    CreationIsExclusive(st, J.KindName(k), name, tables);
    FieldStepStores(st, BeginCreate(J.KindName(k), name), tables);
    assert J.Write(w, w2, BeginCreate(J.KindName(k), name), tables, true);
  }

  // From a state with a source and neither ID nor marker, a command can get as far as having sent its POST.
  lemma Posts(st: State, tables: J.Tables, k: J.Kind, name: string) returns (run: seq<J.World>)
    requires ValidState(st, tables) && st.identity.Some? && st.pending.None? && J.Id(st, k) == "" && 0 < |name| <= 128
    requires st.exportId == "" && st.changefeedId == ""
    ensures J.IsRun(run, tables) && ValidState(Marked(st, k, name), tables)
    ensures var none := J.Jobs({}, 0);
            run[|run| - 1] == J.WithJobs(Quiet(Marked(st, k, name), J.Posted(k), none, none, None), k, J.Jobs({}, 1))
  {
    var none, marked := J.Jobs({}, 0), Marked(st, k, name);
    var w0, w1, w2 := Quiet(st, J.Down, none, none, None), Quiet(st, J.Idle, none, none, None), Quiet(marked, J.Marked(k), none, none, None);
    var w3 := J.WithJobs(Quiet(marked, J.Posted(k), none, none, None), k, J.Jobs({}, 1));
    BeginStep(st, tables, k, name, w1, w2);
    assert J.Open(w0, w1, tables);
    assert J.Post(w2, w3, k);
    run := [w0];
    assert J.IsRun(run, tables);
    hide J.Open, J.Begin, J.Post, J.IsRun, ValidState;
    IsCommandStep(w0, w1, tables);
    GrowJobs(run, w1, tables);
    run := run + [w1];
    IsCommandStep(w1, w2, tables);
    GrowJobs(run, w2, tables);
    run := run + [w2];
    IsCommandStep(w2, w3, tables);
    GrowJobs(run, w3, tables);
    run := run + [w3];
  }

  lemma SaveStep(st: State, tables: J.Tables, k: J.Kind, id: string, w: J.World, w2: J.World)
    requires ValidState(st, tables) && id != "" && st.pending.Some? && st.pending.value.kind == J.KindName(k)
    requires w.file == w.memory == st && w.phase == J.Answered(k, J.Created(id))
    requires Step(st, J.SaveOp(k, id), tables).Ok?
    requires w2 == w.(file := Step(st, J.SaveOp(k, id), tables).value, memory := Step(st, J.SaveOp(k, id), tables).value, phase := J.Idle)
    ensures J.Save(w, w2, tables)
  {
    assert J.Write(w, w2, J.SaveOp(k, id), tables, true);
  }

  // And if the service creates the job and its answer arrives, the job is there, and its ID in the file in
  // place of the marker.
  lemma ACreationSucceeds(st: State, tables: J.Tables, k: J.Kind, name: string, id: string) returns (run: seq<J.World>)
    requires ValidState(st, tables) && st.identity.Some? && st.pending.None? && 0 < |name| <= 128 && id != ""
    requires st.exportId == "" && st.changefeedId == ""
    ensures J.IsRun(run, tables)
    ensures var w := run[|run| - 1];
            && w.phase == J.Idle && w.file.pending == None && J.Id(w.file, k) == id && J.JobsOf(w, k) == J.Jobs({id}, 0)
  {
    run := Posts(st, tables, k, name);
    var w, marked := run[|run| - 1], Marked(st, k, name);
    OtherStepsSucceed(marked, J.SaveOp(k, id), tables);
    FieldStepStores(marked, J.SaveOp(k, id), tables);
    var saved := Step(marked, J.SaveOp(k, id), tables).value;
    var w2 := J.WithJobs(w, k, J.Jobs({id}, 0)).(answer := Some(J.Created(id)));
    var w3 := w2.(phase := J.Answered(k, J.Created(id)));
    var w4 := w3.(file := saved, memory := saved, phase := J.Idle);
    assert {} + {id} == {id};
    assert J.ServerCreates(w, w2, k, id);
    assert J.ServerStep(w, w2);
    assert J.Receive(w2, w3);
    SaveStep(marked, tables, k, id, w3, w4);
    hide J.Receive, J.Save, J.IsRun, J.ServerStep, ValidState, Step;
    GrowJobs(run, w2, tables);
    run := run + [w2];
    IsCommandStep(w2, w3, tables);
    GrowJobs(run, w3, tables);
    run := run + [w3];
    IsCommandStep(w3, w4, tables);
    GrowJobs(run, w4, tables);
    run := run + [w4];
  }

  // If it refuses, the marker is cleared, and everything is as before.
  lemma ARefusalClears(st: State, tables: J.Tables, k: J.Kind, name: string) returns (run: seq<J.World>)
    requires ValidState(st, tables) && st.identity.Some? && st.pending.None? && 0 < |name| <= 128
    requires st.exportId == "" && st.changefeedId == ""
    ensures J.IsRun(run, tables)
    ensures var w := run[|run| - 1]; w.phase == J.Down && w.file == st && J.JobsOf(w, k) == J.Jobs({}, 0)
  {
    run := Posts(st, tables, k, name);
    var w, marked := run[|run| - 1], Marked(st, k, name);
    OtherStepsSucceed(marked, ClearPendingCreate, tables);
    FieldStepStores(marked, ClearPendingCreate, tables);
    assert Step(marked, ClearPendingCreate, tables).value == st;
    var w2 := J.WithJobs(w, k, J.Jobs({}, 0)).(answer := Some(J.Rejected));
    var w3 := w2.(phase := J.Answered(k, J.Rejected));
    var w4 := w3.(file := st, memory := st, phase := J.Down);
    assert J.ServerRejects(w, w2, k);
    assert J.ServerStep(w, w2);
    assert J.Receive(w2, w3);
    assert J.Write(w3, w4, ClearPendingCreate, tables, true);
    assert J.Clear(w3, w4, tables);
    hide J.Receive, J.Clear, J.IsRun, J.ServerStep, ValidState, Step;
    GrowJobs(run, w2, tables);
    run := run + [w2];
    IsCommandStep(w2, w3, tables);
    GrowJobs(run, w3, tables);
    run := run + [w3];
    IsCommandStep(w3, w4, tables);
    GrowJobs(run, w4, tables);
    run := run + [w4];
  }

  // A changefeed that is recorded can be deleted, and is then neither there nor recorded.
  lemma ADeletionClears(st: State, tables: J.Tables) returns (run: seq<J.World>)
    requires ValidState(st, tables) && st.changefeedId != "" && st.exportId == "" && st.pending.None?
    ensures J.IsRun(run, tables)
    ensures var w := run[|run| - 1]; w.phase == J.Down && w.file == st.(changefeedId := "") && w.changefeeds == J.Jobs({}, 0)
  {
    var none, id := J.Jobs({}, 0), st.changefeedId;
    OtherStepsSucceed(st, ClearChangefeedID, None);
    FieldStepStores(st, ClearChangefeedID, None);
    var cleared := st.(changefeedId := "");
    assert Step(st, ClearChangefeedID, None).value == cleared;
    var w0, w1 := Quiet(st, J.Down, none, J.Jobs({id}, 0), None), Quiet(st, J.Deleting(id), none, J.Jobs({id}, 0), None);
    var w2, w3, w4 := w1.(changefeeds := none), w1.(changefeeds := none, phase := J.Gone(id)), Quiet(cleared, J.Down, none, none, None);
    assert J.OpenDelete(w0, w1);
    assert {id} - {id} == {};
    assert J.JobEnds(w1, w2, J.Changefeed, id);
    assert J.ServerStep(w1, w2);
    assert J.ConfirmGone(w2, w3);
    assert J.Write(w3, w4, ClearChangefeedID, None, true);
    assert J.ClearId(w3, w4);
    run := [w0];
    assert J.IsRun(run, tables);
    hide J.OpenDelete, J.ConfirmGone, J.ClearId, J.IsRun, J.ServerStep, ValidState, Step;
    IsCommandStep(w0, w1, tables);
    GrowJobs(run, w1, tables);
    run := run + [w1];
    GrowJobs(run, w2, tables);
    run := run + [w2];
    IsCommandStep(w2, w3, tables);
    GrowJobs(run, w3, tables);
    run := run + [w3];
    IsCommandStep(w3, w4, tables);
    GrowJobs(run, w4, tables);
    run := run + [w4];
  }

  // If its answer is lost, the marker stays when the command has ended, and the job may still appear.
  lemma ALostAnswerStays(st: State, tables: J.Tables, k: J.Kind, name: string) returns (run: seq<J.World>)
    requires ValidState(st, tables) && st.identity.Some? && st.pending.None? && 0 < |name| <= 128
    requires st.exportId == "" && st.changefeedId == ""
    ensures J.IsRun(run, tables)
    ensures var w := run[|run| - 1];
            w.phase == J.Down && J.Blocked(w) && w.file.pending == Some(Pending(J.KindName(k), name)) && J.JobsOf(w, k) == J.Jobs({}, 1)
  {
    run := Posts(st, tables, k, name);
    var w := run[|run| - 1];
    var w2 := w.(phase := J.Down);
    assert J.Lose(w, w2);
    hide J.IsRun, J.Lose, ValidState;
    assert J.CommandStep(w, w2, tables);
    GrowJobs(run, w2, tables);
    run := run + [w2];
  }

  // ----- From the first command to the incremental load -----

  lemma GrowCommands(run: seq<H.World>, w: H.World, tables: H.Tables)
    requires H.IsRun(run, tables) && H.Next(run[|run| - 1], w, tables)
    ensures H.IsRun(run + [w], tables)
  {
    hide H.Next, H.Init;
  }

  lemma WriteStep(w: H.World, w2: H.World, op: Op, tables: H.Tables, phase: H.Phase)
    requires ValidState(w.memory, tables) && Step(w.memory, op, tables) == Ok(w2.memory)
    requires w2.file == Some(w2.memory) && w2.phase == phase
    ensures H.Write(w, w2, op, tables, phase)
  {
    hide Step, ValidState;
  }

  function Created(w: H.World, id: string, t: nat): H.World {
    var st := w.memory.(changefeedId := id);
    w.(file := Some(st), memory := st, feeds := w.feeds[id := t])
  }

  // A changefeed is created where ChangefeedStart says,
  lemma FeedStep(w: H.World, tables: H.Tables, id: string, t: nat)
    requires H.ReadyForFeed(w) && ValidState(w.memory, tables) && w.memory.changefeedId == "" && w.memory.pending.None?
    requires id != "" && id !in w.feeds && H.ChangefeedStart(w.memory.checkpoint, w.metadata, w.phase.run.cfg) == Ok(t)
    ensures H.Next(w, Created(w, id, t), tables) && ValidState(Created(w, id, t).memory, tables)
  {
    var w2 := Created(w, id, t);
    Saves(w.memory, tables, id);
    WriteStep(w, w2, SetChangefeedID(id), tables, w.phase);
    hide ValidState, Step, H.Write, H.ReadyForFeed, H.ChangefeedStart;
    assert H.CreateFeed(w, w2, tables, id);
  }

  // and checked.
  lemma CheckStep(w: H.World, tables: H.Tables, t: nat)
    requires H.ReadyForFeed(w) && w.memory.changefeedId != "" && w.memory.changefeedId in w.feeds && w.feeds[w.memory.changefeedId] == t
    requires H.ValidateStart(t, w.memory.checkpoint, w.metadata, w.phase.run.cfg).Ok?
    ensures H.Next(w, w.(phase := H.Prepared(w.phase.run, Some(t))), tables)
  {
    EnsureIsValidate(w.memory, w.metadata, w.phase.run.cfg, t);
    hide H.EnsureChangefeed, H.ValidateStart, H.ReadyForFeed;
    assert H.CheckFeed(w, w.(phase := H.Prepared(w.phase.run, Some(t))));
  }

  lemma EnsureIsValidate(st: State, m: H.Metadata, cfg: H.Configured, t: nat)
    requires H.ValidateStart(t, st.checkpoint, m, cfg).Ok?
    ensures H.EnsureChangefeed(st, m, cfg, Some(t)).Ok?
  {
  }

  lemma CopyStep(w: H.World, tables: H.Tables, t: nat)
    requires w.phase.Prepared? && w.phase.run.mode != H.IncrementalOnly && !w.memory.finished && w.metadata == H.Tso(t) && 0 < t
    ensures H.Next(w, w.(phase := H.Copied(w.phase.run, w.phase.start, t), rows := Some(t)), tables)
  {
    assert H.CopySnapshot(w, w.(phase := H.Copied(w.phase.run, w.phase.start, t), rows := Some(t)));
  }

  function Finished(w: H.World): H.World
    requires w.phase.Copied?
  {
    var st := w.memory.(checkpoint := w.phase.tso, finished := true);
    w.(file := Some(st), memory := st, phase := H.Prepared(w.phase.run, w.phase.start))
  }

  lemma MarkStep(w: H.World, tables: H.Tables)
    requires w.phase.Copied? && ValidState(w.memory, tables) && w.memory.checkpoint == 0 < w.phase.tso
    ensures H.Next(w, Finished(w), tables) && ValidState(Finished(w).memory, tables)
  {
    Marks(w.memory, tables, w.phase.tso);
    WriteStep(w, Finished(w), MarkSnapshotFinished(w.phase.tso), tables, Finished(w).phase);
    hide ValidState, Step, H.Write;
    assert H.MarkFinished(w, Finished(w), tables);
  }

  lemma BeginStepOf(w: H.World, tables: H.Tables)
    requires w.phase.Prepared? && w.phase.run.mode != H.SnapshotOnly && w.memory.finished && w.phase.start.Some?
    ensures H.Next(w, w.(phase := H.Loading(w.phase.run, w.phase.start.value)), tables)
  {
    assert H.BeginLoad(w, w.(phase := H.Loading(w.phase.run, w.phase.start.value)));
  }

  function Committed(w: H.World, ts: nat): H.World {
    var st := w.memory.(checkpoint := ts);
    w.(file := Some(st), memory := st, rows := Some(ts))
  }

  lemma CommitStep(w: H.World, tables: H.Tables, ts: nat)
    requires w.phase.Loading? && ValidState(w.memory, tables) && w.phase.from <= ts && w.memory.checkpoint < ts
    ensures H.Next(w, Committed(w, ts), tables)
  {
    Moves(w.memory, tables, ts);
    WriteStep(w, Committed(w, ts), SetCheckpointTS(ts), tables, w.phase);
    hide ValidState, Step, H.Write;
    assert H.Commit(w, Committed(w, ts), tables, ts);
  }

  // The first command on an empty storage, once it has created its state st.
  function Opened(st: State, mode: H.Mode, cfg: H.Configured): H.World {
    H.World(Some(st), st, H.Opened(H.Run(mode, cfg, st)), H.NoFile, map[], None, mode == H.IncrementalOnly)
  }

  predicate IsFirst(st: State, tables: H.Tables, mode: H.Mode) {
    && ValidState(st, tables) && st.checkpoint == 0 && st.exportId == "" && st.changefeedId == "" && st.pending.None?
    && st.finished == (mode == H.IncrementalOnly)
  }

  lemma Opens(st: State, tables: H.Tables, mode: H.Mode, cfg: H.Configured) returns (run: seq<H.World>)
    requires IsFirst(st, tables, mode)
    ensures H.IsRun(run, tables) && run[|run| - 1] == Opened(st, mode, cfg)
  {
    var w0, w1 := H.World(None, st, H.Down, H.NoFile, map[], None, false), Opened(st, mode, cfg);
    assert H.Open(w0, w1, tables, mode, cfg);
    assert H.IsRun([w0], tables);
    hide H.Open, H.IsRun, ValidState;
    GrowCommands([w0], w1, tables);
    run := [w0] + [w1];
  }

  // Its export has written the metadata, with the TSO t, and has been waited for.
  function Exported(st: State, mode: H.Mode, t: nat): H.World {
    Opened(st, mode, H.Unset).(metadata := H.Tso(t), phase := H.Exported(H.Run(mode, H.Unset, st)))
  }

  lemma Exports(st: State, tables: H.Tables, mode: H.Mode, t: nat) returns (run: seq<H.World>)
    requires IsFirst(st, tables, mode) && mode != H.IncrementalOnly && 0 < t
    ensures H.IsRun(run, tables) && run[|run| - 1] == Exported(st, mode, t)
  {
    run := Opens(st, tables, mode, H.Unset);
    var w1, w3 := run[|run| - 1], Exported(st, mode, t);
    var w2 := w1.(metadata := H.Tso(t));
    assert H.WriteMetadata(w1, w2);
    assert H.Export(w2, w3, H.Unset);
    hide H.IsRun, H.Export, H.WriteMetadata, ValidState;
    GrowCommands(run, w2, tables);
    run := run + [w2];
    GrowCommands(run, w3, tables);
    run := run + [w3];
  }

  // From a prepared command with a recorded snapshot the load begins, and moves the checkpoint to ts.
  lemma Loads(before: seq<H.World>, tables: H.Tables, ts: nat) returns (run: seq<H.World>)
    requires H.IsRun(before, tables)
    requires var w := before[|before| - 1];
             && w.phase.Prepared? && w.phase.run.mode != H.SnapshotOnly && w.memory.finished && w.phase.start.Some?
             && ValidState(w.memory, tables) && w.phase.start.value <= ts && w.memory.checkpoint < ts
    ensures var w := before[|before| - 1];
            && H.IsRun(run, tables)
            && run[|run| - 1] == Committed(w, ts).(phase := H.Loading(w.phase.run, w.phase.start.value))
  {
    var w := before[|before| - 1];
    var w1 := w.(phase := H.Loading(w.phase.run, w.phase.start.value));
    hide H.IsRun, H.Next, ValidState;
    BeginStepOf(w, tables);
    GrowCommands(before, w1, tables);
    CommitStep(w1, tables, ts);
    run := before + [w1];
    GrowCommands(run, Committed(w1, ts), tables);
    run := run + [Committed(w1, ts)];
  }

  // The snapshot is copied and recorded with the metadata's TSO.
  lemma Copies(before: seq<H.World>, tables: H.Tables, t: nat) returns (run: seq<H.World>)
    requires H.IsRun(before, tables)
    requires var w := before[|before| - 1];
             && w.phase.Prepared? && w.phase.run.mode != H.IncrementalOnly && !w.memory.finished && w.metadata == H.Tso(t) && 0 < t
             && ValidState(w.memory, tables) && w.memory.checkpoint == 0
    ensures var w := before[|before| - 1]; var st := w.memory.(checkpoint := t, finished := true);
            && H.IsRun(run, tables) && run[|run| - 1] == w.(file := Some(st), memory := st, rows := Some(t)) && ValidState(st, tables)
  {
    var w := before[|before| - 1];
    var w1 := w.(phase := H.Copied(w.phase.run, w.phase.start, t), rows := Some(t));
    hide H.IsRun, H.Next, ValidState;
    CopyStep(w, tables, t);
    GrowCommands(before, w1, tables);
    MarkStep(w1, tables);
    run := before + [w1];
    GrowCommands(run, Finished(w1), tables);
    run := run + [Finished(w1)];
  }

  // A ready command creates its changefeed at t and finds it fit.
  lemma Prepares(before: seq<H.World>, tables: H.Tables, id: string, t: nat) returns (run: seq<H.World>)
    requires H.IsRun(before, tables)
    requires var w := before[|before| - 1];
             && H.ReadyForFeed(w) && ValidState(w.memory, tables) && w.memory.changefeedId == "" && w.memory.pending.None?
             && id != "" && id !in w.feeds && H.ChangefeedStart(w.memory.checkpoint, w.metadata, w.phase.run.cfg) == Ok(t)
             && H.ValidateStart(t, w.memory.checkpoint, w.metadata, w.phase.run.cfg).Ok?
    ensures var w := before[|before| - 1];
            && H.IsRun(run, tables) && ValidState(Created(w, id, t).memory, tables)
            && run[|run| - 1] == Created(w, id, t).(phase := H.Prepared(w.phase.run, Some(t)))
  {
    var w := before[|before| - 1];
    var w1 := Created(w, id, t);
    hide H.IsRun, H.Next, ValidState, H.ChangefeedStart, H.ValidateStart;
    FeedStep(w, tables, id, t);
    GrowCommands(before, w1, tables);
    CheckStep(w1, tables, t);
    run := before + [w1];
    GrowCommands(run, w1.(phase := H.Prepared(w.phase.run, Some(t))), tables);
    run := run + [w1.(phase := H.Prepared(w.phase.run, Some(t)))];
  }

  // A first command in mode all, whose export has the TSO t, creates its changefeed at t, records the snapshot
  // with t, begins the incremental load, and moves the checkpoint to any later ts.
  lemma ALoadAdvances(st: State, tables: H.Tables, t: nat, id: string, ts: nat) returns (run: seq<H.World>)
    requires IsFirst(st, tables, H.All) && 0 < t < ts && id != ""
    ensures H.IsRun(run, tables)
    ensures var w := run[|run| - 1];
            && w.phase.Loading? && w.phase.from == t && w.file == Some(w.memory)
            && w.memory == st.(finished := true, checkpoint := ts, changefeedId := id)
  {
    run := Exports(st, tables, H.All, t);
    H.ChangefeedStartIff(0, H.Tso(t), H.Unset, t);
    H.FitIff(t, 0, H.Tso(t), H.Unset);
    hide H.IsRun, ValidState, H.ChangefeedStart, H.ValidateStart;
    run := Prepares(run, tables, id, t);
    run := Copies(run, tables, t);
    run := Loads(run, tables, ts);
  }

  // One in mode snapshot-only records it and leaves the changefeed to a later command.
  lemma ASnapshotIsRecorded(st: State, tables: H.Tables, t: nat) returns (run: seq<H.World>)
    requires IsFirst(st, tables, H.SnapshotOnly) && 0 < t
    ensures H.IsRun(run, tables)
    ensures var w := run[|run| - 1]; w.phase.Prepared? && w.rows == Some(t) && w.memory == st.(finished := true, checkpoint := t) && w.file == Some(w.memory)
  {
    run := Exports(st, tables, H.SnapshotOnly, t);
    var w := run[|run| - 1];
    var w2 := w.(phase := H.Prepared(w.phase.run, None));
    assert H.SkipFeed(w, w2);
    hide H.IsRun, ValidState, H.SkipFeed;
    GrowCommands(run, w2, tables);
    run := Copies(run + [w2], tables, t);
  }

  // One in mode incremental-only with a configured TSO starts its changefeed and its load there.
  lemma AnIncrementalLoadAdvances(st: State, tables: H.Tables, t: nat, id: string, ts: nat) returns (run: seq<H.World>)
    requires IsFirst(st, tables, H.IncrementalOnly) && 0 < t <= ts && id != ""
    ensures H.IsRun(run, tables)
    ensures var w := run[|run| - 1];
            && w.phase.Loading? && w.phase.from == t && w.file == Some(w.memory)
            && w.memory == st.(checkpoint := ts, changefeedId := id)
  {
    run := Opens(st, tables, H.IncrementalOnly, H.Given(t));
    H.ChangefeedStartIff(0, H.NoFile, H.Given(t), t);
    H.FitIff(t, 0, H.NoFile, H.Given(t));
    hide H.IsRun, ValidState, H.ChangefeedStart, H.ValidateStart;
    run := Prepares(run, tables, id, t);
    run := Loads(run, tables, ts);
  }

  lemma Saves(st: State, tables: H.Tables, id: string)
    requires ValidState(st, tables) && st.pending.None? && id != ""
    ensures Step(st, SetChangefeedID(id), tables) == Ok(st.(changefeedId := id)) && ValidState(st.(changefeedId := id), tables)
  {
    OtherStepsSucceed(st, SetChangefeedID(id), tables);
    FieldStepStores(st, SetChangefeedID(id), tables);
  }

  lemma Marks(st: State, tables: H.Tables, t: nat)
    requires ValidState(st, tables) && st.checkpoint <= t && 0 < t
    ensures Step(st, MarkSnapshotFinished(t), tables) == Ok(st.(checkpoint := t, finished := true))
    ensures ValidState(st.(checkpoint := t, finished := true), tables)
  {
    ForwardStepsSucceed(st, MarkSnapshotFinished(t), tables);
    FieldStepStores(st, MarkSnapshotFinished(t), tables);
  }

  lemma Moves(st: State, tables: H.Tables, ts: nat)
    requires ValidState(st, tables) && st.checkpoint <= ts && 0 < ts
    ensures Step(st, SetCheckpointTS(ts), tables) == Ok(st.(checkpoint := ts))
  {
    ForwardStepsSucceed(st, SetCheckpointTS(ts), tables);
    FieldStepStores(st, SetCheckpointTS(ts), tables);
  }
}
