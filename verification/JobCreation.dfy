// Creating at most one export and one changefeed (source/tidbcloud/runner.go, cmd/delete.go):
// the pending_create marker is stored before the POST and replaced by the job's ID after it.
module JobCreation {
  import opened Wrappers
  import opened ReplicationState

  datatype Kind = Export | Changefeed

  function KindName(k: Kind): string { if k == Export then "export" else "changefeed" }

  // The jobs of one kind at the service, and POSTs it may still act on.
  datatype Jobs = Jobs(live: set<string>, wire: nat)

  datatype Answer = Created(id: string) | Rejected

  // Where the running command is. Every error ends the command.
  datatype Phase =
    | Down
    | Idle
    | Marked(kind: Kind)                 // the marker is stored
    | Posted(kind: Kind)                 // the POST has left
    | Answered(kind: Kind, answer: Answer)
    | Deleting(id: string)
    | Gone(id: string)                   // the service confirmed the deletion

  // `answer` is what the service decided on the POST of phase Posted, whether or not it arrives.
  datatype World = World(file: State, memory: State, phase: Phase, exports: Jobs, changefeeds: Jobs, answer: Option<Answer>)

  type Tables = Option<set<string>>

  function JobsOf(w: World, k: Kind): Jobs { if k == Export then w.exports else w.changefeeds }

  function WithJobs(w: World, k: Kind, jobs: Jobs): World {
    if k == Export then w.(exports := jobs) else w.(changefeeds := jobs)
  }

  function Id(st: State, k: Kind): string { IdOf(st, KindName(k)) }

  predicate IsPending(st: State, k: Kind) { st.pending.Some? && st.pending.value.kind == KindName(k) }

  // ----- Steps of the command -----

  // A manager call: acknowledged, or failed with or without effect on the file.
  ghost predicate Write(w: World, w2: World, op: Op, tables: Tables, ok: bool)
    requires ValidState(w.memory, tables)
  {
    match Step(w.memory, op, tables)
    case Err(_) => !ok && w2.file == w.file && w2.memory == w.memory
    case Ok(next) =>
      if ok then w2.memory == next && w2.file == next
      else w2.memory == w.memory && (w2.file == w.file || w2.file == next)
  }

  // Only file, memory and phase change.
  predicate Quiet(w: World, w2: World) { w2 == w.(file := w2.file, memory := w2.memory, phase := w2.phase) }

  ghost predicate Open(w: World, w2: World, tables: Tables) {
    w.phase == Down && ValidState(w.file, tables) && w2 == w.(memory := w.file, phase := Idle)
  }

  // createExport and createChangefeed up to the marker, when there is no saved job.
  ghost predicate Begin(w: World, w2: World, tables: Tables, k: Kind, name: string) {
    && w.phase == Idle && Id(w.memory, k) == "" && ValidState(w.memory, tables) && Quiet(w, w2)
    && exists ok :: Write(w, w2, BeginCreate(KindName(k), name), tables, ok) && w2.phase == if ok then Marked(k) else Down
  }

  ghost predicate Post(w: World, w2: World, k: Kind) {
    && w.phase == Marked(k)
    && w2 == WithJobs(w, k, JobsOf(w, k).(wire := JobsOf(w, k).wire + 1)).(phase := Posted(k), answer := None)
  }

  ghost predicate Receive(w: World, w2: World) {
    w.phase.Posted? && w.answer.Some? && w2 == w.(phase := Answered(w.phase.kind, w.answer.value))
  }

  // A response that is lost or cannot be interpreted as a rejection ends the command; the marker
  // stays.
  ghost predicate Lose(w: World, w2: World) { w.phase.Posted? && w2 == w.(phase := Down) }

  function SaveOp(k: Kind, id: string): Op { if k == Export then SetExportID(id) else SetChangefeedID(id) }

  ghost predicate Save(w: World, w2: World, tables: Tables) {
    && w.phase.Answered? && w.phase.answer.Created? && ValidState(w.memory, tables) && Quiet(w, w2)
    && exists ok :: Write(w, w2, SaveOp(w.phase.kind, w.phase.answer.id), tables, ok) && w2.phase == if ok then Idle else Down
  }

  // rejectedCreate, after which the command fails.
  ghost predicate Clear(w: World, w2: World, tables: Tables) {
    && w.phase.Answered? && w.phase.answer.Rejected? && ValidState(w.memory, tables) && Quiet(w, w2)
    && exists ok :: Write(w, w2, ClearPendingCreate, tables, ok) && w2.phase == Down
  }

  // Binding the source and the loader's progress.
  predicate Other(op: Op) {
    op.SetCheckpointTS? || op.SetWatermark? || op.SetDMLCursors? || op.MarkSnapshotFinished? || op.BindCloudSource?
  }

  ghost predicate Progress(w: World, w2: World, tables: Tables, op: Op) {
    && w.phase == Idle && Other(op) && ValidState(w.memory, tables) && Quiet(w, w2)
    && exists ok :: Write(w, w2, op, tables, ok) && w2.phase == if ok then Idle else Down
  }

  // The delete command opens the state without knowing its tables, deletes at the service until the
  // job is confirmed gone, and clears the ID.
  ghost predicate OpenDelete(w: World, w2: World) {
    && w.phase == Down && ValidState(w.file, None) && w.file.changefeedId != ""
    && w2 == w.(memory := w.file, phase := Deleting(w.file.changefeedId))
  }

  ghost predicate ConfirmGone(w: World, w2: World) {
    w.phase.Deleting? && w.phase.id !in w.changefeeds.live && w2 == w.(phase := Gone(w.phase.id))
  }

  ghost predicate ClearId(w: World, w2: World) {
    && w.phase.Gone? && ValidState(w.memory, None) && Quiet(w, w2)
    && exists ok :: Write(w, w2, ClearChangefeedID, None, ok) && w2.phase == Down
  }

  ghost predicate Crash(w: World, w2: World) { w2 == w.(phase := Down) }

  // ----- Steps of the service -----

  // It acts on a POST whenever it likes, even after the command that sent it is gone.
  ghost predicate ServerCreates(w: World, w2: World, k: Kind, id: string) {
    && JobsOf(w, k).wire > 0 && id != ""
    && w2 == WithJobs(w, k, Jobs(JobsOf(w, k).live + {id}, JobsOf(w, k).wire - 1))
               .(answer := if w.phase == Posted(k) then Some(Created(id)) else w.answer)
  }

  ghost predicate ServerRejects(w: World, w2: World, k: Kind) {
    && JobsOf(w, k).wire > 0
    && w2 == WithJobs(w, k, JobsOf(w, k).(wire := JobsOf(w, k).wire - 1))
               .(answer := if w.phase == Posted(k) then Some(Rejected) else w.answer)
  }

  ghost predicate ServerDrops(w: World, w2: World, k: Kind) {
    JobsOf(w, k).wire > 0 && w2 == WithJobs(w, k, JobsOf(w, k).(wire := JobsOf(w, k).wire - 1))
  }

  // A job is deleted on request or ends on its own.
  ghost predicate JobEnds(w: World, w2: World, k: Kind, id: string) {
    id in JobsOf(w, k).live && w2 == WithJobs(w, k, JobsOf(w, k).(live := JobsOf(w, k).live - {id}))
  }

  ghost predicate CommandStep(w: World, w2: World, tables: Tables) {
    || Open(w, w2, tables) || (exists k, name :: Begin(w, w2, tables, k, name)) || (exists k :: Post(w, w2, k))
    || Receive(w, w2) || Lose(w, w2) || Save(w, w2, tables) || Clear(w, w2, tables)
    || (exists op :: Progress(w, w2, tables, op))
    || OpenDelete(w, w2) || ConfirmGone(w, w2) || ClearId(w, w2) || Crash(w, w2)
  }

  ghost predicate ServerStep(w: World, w2: World) {
    || (exists k, id :: ServerCreates(w, w2, k, id)) || (exists k :: ServerRejects(w, w2, k))
    || (exists k :: ServerDrops(w, w2, k)) || (exists k, id :: JobEnds(w, w2, k, id))
  }

  // ----- The invariant -----

  predicate AtMostOne(jobs: Jobs) { |jobs.live| + jobs.wire <= 1 }

  // What the file says about the jobs of a kind.
  ghost predicate Accounted(st: State, k: Kind, jobs: Jobs) {
    && AtMostOne(jobs)
    && (Id(st, k) != "" ==> jobs.wire == 0 && jobs.live <= {Id(st, k)})
    && (Id(st, k) == "" && !IsPending(st, k) ==> jobs.wire == 0 && jobs.live == {})
  }

  predicate Settled(answer: Answer, jobs: Jobs) {
    jobs.wire == 0 && match answer
                      case Created(id) => id != "" && jobs.live <= {id}
                      case Rejected => jobs.live == {}
  }

  ghost predicate PhaseOk(w: World) {
    match w.phase
    case Down => true
    case Idle => true
    case Marked(k) => IsPending(w.file, k) && JobsOf(w, k) == Jobs({}, 0)
    case Posted(k) => IsPending(w.file, k) && (w.answer.Some? ==> Settled(w.answer.value, JobsOf(w, k)))
    case Answered(k, answer) => IsPending(w.file, k) && Settled(answer, JobsOf(w, k))
    case Deleting(id) => w.file.changefeedId == id && id != ""
    case Gone(id) => w.file.changefeedId == id && id != "" && w.changefeeds.live == {}
  }

  ghost predicate Inv(w: World, tables: Tables) {
    && ValidState(w.file, tables)
    && (w.phase != Down ==> w.memory == w.file)
    && Accounted(w.file, Export, w.exports) && Accounted(w.file, Changefeed, w.changefeeds)
    && PhaseOk(w)
  }

  // What each call does to the job fields of the state.
  lemma BeginMarks(st: State, k: Kind, name: string, tables: Tables)
    requires ValidState(st, tables) && Step(st, BeginCreate(KindName(k), name), tables).Ok?
    ensures var next := Step(st, BeginCreate(KindName(k), name), tables).value;
            && ValidState(next, tables) && IsPending(next, k) && Id(next, k) == "" && st.pending.None? && Id(st, k) == ""
            && forall k2 :: Id(next, k2) == Id(st, k2) && (IsPending(next, k2) ==> k2 == k)
  {
  }

  lemma SaveUnmarks(st: State, k: Kind, id: string, tables: Tables)
    requires ValidState(st, tables) && id != "" && IsPending(st, k)
    requires Step(st, SaveOp(k, id), tables).Ok?
    ensures var next := Step(st, SaveOp(k, id), tables).value;
            && ValidState(next, tables) && Id(next, k) == id && next.pending.None?
            && forall k2 | k2 != k :: Id(next, k2) == Id(st, k2) && !IsPending(st, k2)
  {
  }

  lemma ClearUnmarks(st: State, k: Kind, tables: Tables)
    requires ValidState(st, tables) && IsPending(st, k) && Step(st, ClearPendingCreate, tables).Ok?
    ensures var next := Step(st, ClearPendingCreate, tables).value;
            ValidState(next, tables) && forall k2 :: Id(next, k2) == Id(st, k2) && !IsPending(next, k2) && (k2 != k ==> !IsPending(st, k2))
  {
  }

  lemma ClearIdForgets(st: State, tables: Tables)
    requires ValidState(st, tables) && Step(st, ClearChangefeedID, None).Ok?
    ensures var next := Step(st, ClearChangefeedID, None).value;
            ValidState(next, tables) && next.changefeedId == "" && next.exportId == st.exportId && next.pending == st.pending
  {
  }

  lemma OtherKeepsJobs(st: State, op: Op, tables: Tables)
    requires ValidState(st, tables) && Other(op) && Step(st, op, tables).Ok?
    ensures var next := Step(st, op, tables).value;
            ValidState(next, tables) && next.exportId == st.exportId && next.changefeedId == st.changefeedId && next.pending == st.pending
  {
  }

  // A state that says the same about jobs accounts for the same jobs.
  predicate SaysTheSame(st: State, st2: State, k: Kind) {
    Id(st2, k) == Id(st, k) && (IsPending(st, k) ==> IsPending(st2, k) || Id(st, k) != "")
  }

  lemma AccountedAlike(st: State, st2: State, k: Kind, jobs: Jobs)
    requires Accounted(st, k, jobs) && SaysTheSame(st, st2, k)
    ensures Accounted(st2, k, jobs)
  {
  }

  lemma BeginInv(w: World, w2: World, tables: Tables, k: Kind, name: string)
    requires Inv(w, tables) && Begin(w, w2, tables, k, name)
    ensures Inv(w2, tables)
  {
    hide ValidState, Step;
    var op := BeginCreate(KindName(k), name);
    if Step(w.memory, op, tables).Ok? {
      BeginMarks(w.memory, k, name, tables);
      var next := Step(w.memory, op, tables).value;
      AccountedAlike(w.file, next, Export, w.exports);
      AccountedAlike(w.file, next, Changefeed, w.changefeeds);
      assert Accounted(w.file, k, JobsOf(w, k));
      assert JobsOf(w2, k) == Jobs({}, 0);
    } else {
      assert w2.file == w.file && w2.phase == Down;
    }
  }

  lemma SaveInv(w: World, w2: World, tables: Tables)
    requires Inv(w, tables) && Save(w, w2, tables)
    ensures Inv(w2, tables)
  {
    hide ValidState, Step;
    var k, id := w.phase.kind, w.phase.answer.id;
    var op := SaveOp(k, id);
    if Step(w.memory, op, tables).Ok? {
      SaveUnmarks(w.memory, k, id, tables);
      var next := Step(w.memory, op, tables).value;
      var other := if k == Export then Changefeed else Export;
      AccountedAlike(w.file, next, other, JobsOf(w, other));
      assert Accounted(next, k, JobsOf(w, k));
    } else {
      assert w2.file == w.file && w2.phase == Down;
    }
  }

  lemma ClearInv(w: World, w2: World, tables: Tables)
    requires Inv(w, tables) && Clear(w, w2, tables)
    ensures Inv(w2, tables)
  {
    hide ValidState, Step;
    var k := w.phase.kind;
    if Step(w.memory, ClearPendingCreate, tables).Ok? {
      ClearUnmarks(w.memory, k, tables);
      var next := Step(w.memory, ClearPendingCreate, tables).value;
      var other := if k == Export then Changefeed else Export;
      AccountedAlike(w.file, next, other, JobsOf(w, other));
      assert Accounted(next, k, JobsOf(w, k));
    } else {
      assert w2.file == w.file && w2.phase == Down;
    }
  }

  lemma ProgressInv(w: World, w2: World, tables: Tables, op: Op)
    requires Inv(w, tables) && Progress(w, w2, tables, op)
    ensures Inv(w2, tables)
  {
    hide ValidState, Step;
    if Step(w.memory, op, tables).Ok? {
      OtherKeepsJobs(w.memory, op, tables);
      var next := Step(w.memory, op, tables).value;
      AccountedAlike(w.file, next, Export, w.exports);
      AccountedAlike(w.file, next, Changefeed, w.changefeeds);
    } else {
      assert w2.file == w.file && w2.phase == Down;
    }
  }

  lemma ClearIdInv(w: World, w2: World, tables: Tables)
    requires Inv(w, tables) && ClearId(w, w2)
    ensures Inv(w2, tables)
  {
    hide ValidState, Step;
    if Step(w.memory, ClearChangefeedID, None).Ok? {
      ClearIdForgets(w.memory, tables);
      var next := Step(w.memory, ClearChangefeedID, None).value;
      AccountedAlike(w.file, next, Export, w.exports);
      assert Accounted(next, Changefeed, w.changefeeds);
    } else {
      assert w2.file == w.file && w2.phase == Down;
    }
  }

  // Steps that leave the file alone.
  lemma QuietInv(w: World, w2: World, tables: Tables)
    requires Inv(w, tables)
    requires Open(w, w2, tables) || Receive(w, w2) || Lose(w, w2) || OpenDelete(w, w2) || ConfirmGone(w, w2) || Crash(w, w2)
    ensures Inv(w2, tables)
  {
    hide ValidState;
    if ConfirmGone(w, w2) {
      assert w.changefeeds.live <= {w.phase.id} && w.phase.id !in w.changefeeds.live;
      assert w.changefeeds.live == {};
    }
  }

  lemma PostInv(w: World, w2: World, tables: Tables, k: Kind)
    requires Inv(w, tables) && Post(w, w2, k)
    ensures Inv(w2, tables)
  {
    hide ValidState;
    assert Id(w.file, k) == "" by {
      PendingHasNoId(w.file, tables);
    }
    assert JobsOf(w2, k) == Jobs({}, 1);
  }

  lemma PendingHasNoId(st: State, tables: Tables)
    requires ValidState(st, tables)
    ensures forall k | IsPending(st, k) :: Id(st, k) == ""
  {
  }

  lemma CommandInv(w: World, w2: World, tables: Tables)
    requires Inv(w, tables) && CommandStep(w, w2, tables)
    ensures Inv(w2, tables)
  {
    hide Inv, Begin, Progress, Save, Clear, ClearId, Post, Open, Receive, Lose, OpenDelete, ConfirmGone, Crash;
    if k, name :| Begin(w, w2, tables, k, name) {
      BeginInv(w, w2, tables, k, name);
    } else if op :| Progress(w, w2, tables, op) {
      ProgressInv(w, w2, tables, op);
    } else if k :| Post(w, w2, k) {
      PostInv(w, w2, tables, k);
    } else if Save(w, w2, tables) {
      SaveInv(w, w2, tables);
    } else if Clear(w, w2, tables) {
      ClearInv(w, w2, tables);
    } else if ClearId(w, w2) {
      ClearIdInv(w, w2, tables);
    } else {
      QuietInv(w, w2, tables);
    }
  }

  lemma NoneLeft(live: set<string>, id: string)
    requires |live| <= 1
    ensures id in live ==> live - {id} == {}
    ensures |live| == 0 ==> live + {id} == {id}
  {
    if id in live {
      assert |live - {id}| == 0;
    }
  }

  lemma CreatesInv(w: World, w2: World, tables: Tables, k: Kind, id: string)
    requires Inv(w, tables) && ServerCreates(w, w2, k, id)
    ensures Inv(w2, tables)
  {
    hide ValidState;
    NoneLeft(JobsOf(w, k).live, id);
    assert JobsOf(w2, k) == Jobs({id}, 0);
  }

  lemma EndsInv(w: World, w2: World, tables: Tables, k: Kind, id: string)
    requires Inv(w, tables) && JobEnds(w, w2, k, id)
    ensures Inv(w2, tables)
  {
    hide ValidState;
    NoneLeft(JobsOf(w, k).live, id);
    assert JobsOf(w2, k) == Jobs({}, JobsOf(w, k).wire);
  }

  lemma NotCreatedInv(w: World, w2: World, tables: Tables, k: Kind)
    requires Inv(w, tables) && (ServerRejects(w, w2, k) || ServerDrops(w, w2, k))
    ensures Inv(w2, tables)
  {
    hide ValidState;
    assert JobsOf(w2, k) == Jobs({}, 0);
  }

  lemma ServerInv(w: World, w2: World, tables: Tables)
    requires Inv(w, tables) && ServerStep(w, w2)
    ensures Inv(w2, tables)
  {
    hide Inv, ServerCreates, JobEnds, ServerRejects, ServerDrops;
    if k, id :| ServerCreates(w, w2, k, id) {
      CreatesInv(w, w2, tables, k, id);
    } else if k, id :| JobEnds(w, w2, k, id) {
      EndsInv(w, w2, tables, k, id);
    } else {
      var k :| ServerRejects(w, w2, k) || ServerDrops(w, w2, k);
      NotCreatedInv(w, w2, tables, k);
    }
  }

  // ----- Runs -----

  ghost predicate IsRun(run: seq<World>, tables: Tables) {
    && run != [] && run[0].phase == Down && ValidState(run[0].file, tables)
    && Accounted(run[0].file, Export, run[0].exports) && Accounted(run[0].file, Changefeed, run[0].changefeeds)
    && forall i | 0 <= i < |run| - 1 :: CommandStep(run[i], run[i + 1], tables) || ServerStep(run[i], run[i + 1])
  }

  lemma {:induction false} InvAlways(run: seq<World>, tables: Tables, i: nat)
    requires IsRun(run, tables) && i < |run|
    ensures Inv(run[i], tables)
  {
    if i > 0 {
      InvAlways(run, tables, i - 1);
      if CommandStep(run[i - 1], run[i], tables) {
        CommandInv(run[i - 1], run[i], tables);
      } else {
        ServerInv(run[i - 1], run[i], tables);
      }
    }
  }

  // At every moment of every run there is at most one job of each kind, and a state file with
  // neither its ID nor a marker means that there is none and none can still appear.
  lemma OnceOnly(run: seq<World>, tables: Tables, i: nat, k: Kind)
    requires IsRun(run, tables) && i < |run|
    ensures |JobsOf(run[i], k).live| + JobsOf(run[i], k).wire <= 1
    ensures Id(run[i].file, k) == "" && !IsPending(run[i].file, k) ==> JobsOf(run[i], k) == Jobs({}, 0)
    ensures Id(run[i].file, k) != "" ==> JobsOf(run[i], k).live <= {Id(run[i].file, k)}
  {
    InvAlways(run, tables, i);
  }

  // A marker whose command is no longer at work on it.
  predicate Blocked(w: World) { w.file.pending.Some? && !w.phase.Marked? && !w.phase.Posted? && !w.phase.Answered? }

  // The marker is as it was, and no POST has left.
  predicate StillBlocked(w: World, w2: World) {
    Blocked(w2) && w2.file.pending == w.file.pending && forall k :: JobsOf(w2, k).wire <= JobsOf(w, k).wire
  }

  lemma BeginIsBlocked(w: World, w2: World, tables: Tables, k: Kind, name: string)
    requires Inv(w, tables) && Blocked(w) && Begin(w, w2, tables, k, name)
    ensures StillBlocked(w, w2) && w2.phase == Down && w2.file == w.file
  {
  }

  lemma ProgressIsBlocked(w: World, w2: World, tables: Tables, op: Op)
    requires Inv(w, tables) && Blocked(w) && Progress(w, w2, tables, op)
    ensures StillBlocked(w, w2)
  {
    hide ValidState, Step;
    if Step(w.memory, op, tables).Ok? {
      OtherKeepsJobs(w.memory, op, tables);
    }
  }

  lemma ClearIdIsBlocked(w: World, w2: World, tables: Tables)
    requires Inv(w, tables) && Blocked(w) && ClearId(w, w2)
    ensures StillBlocked(w, w2)
  {
    hide ValidState, Step;
    if Step(w.memory, ClearChangefeedID, None).Ok? {
      ClearIdForgets(w.memory, tables);
    }
  }

  lemma OthersAreBlocked(w: World, w2: World, tables: Tables)
    requires Blocked(w)
    requires || Open(w, w2, tables) || (exists k :: Post(w, w2, k)) || Receive(w, w2) || Lose(w, w2) || Save(w, w2, tables) || Clear(w, w2, tables)
             || OpenDelete(w, w2) || ConfirmGone(w, w2) || Crash(w, w2) || ServerStep(w, w2)
    ensures StillBlocked(w, w2)
  {
    hide ValidState, Step, Write;
  }

  lemma BlockedStays(w: World, w2: World, tables: Tables)
    requires Inv(w, tables) && Blocked(w) && (CommandStep(w, w2, tables) || ServerStep(w, w2))
    ensures StillBlocked(w, w2)
  {
    hide Inv, Blocked, StillBlocked, Begin, Progress, Save, Clear, ClearId, Post, Open, Receive, Lose, OpenDelete, ConfirmGone, Crash, ServerStep;
    if k, name :| Begin(w, w2, tables, k, name) {
      BeginIsBlocked(w, w2, tables, k, name);
    } else if op :| Progress(w, w2, tables, op) {
      ProgressIsBlocked(w, w2, tables, op);
    } else if ClearId(w, w2) {
      ClearIdIsBlocked(w, w2, tables);
    } else {
      OthersAreBlocked(w, w2, tables);
    }
  }

  // Once a command has ended and left its marker, the marker stays and no later command sends
  // another POST, whatever commands run.
  lemma {:induction false} MarkerBlocks(run: seq<World>, tables: Tables, i: nat, j: nat)
    requires IsRun(run, tables) && i <= j < |run| && Blocked(run[i])
    ensures StillBlocked(run[i], run[j])
    decreases j
  {
    if i < j {
      MarkerBlocks(run, tables, i, j - 1);
      InvAlways(run, tables, j - 1);
      hide Inv, CommandStep, ServerStep;
      BlockedStays(run[j - 1], run[j], tables);
    }
  }
}
