// One round of the incremental loop (run and beginScan in incremental/loader.go): read the
// metadata, process every table, and only then move the checkpoint.
module ScanLoop {
  import opened Wrappers
  import opened ReplicationState
  import opened Manager
  import opened WorkerGroup
  import opened TableLoader
  import Planning
  import Executing

  // increment/metadata: missing, not readable, or with a checkpoint.
  datatype Metadata = Missing | Broken | CheckpointTs(ts: nat)

  // What came of a round: nothing to do, an error that ends the process, or a new checkpoint.
  datatype Round = NoScan | Failed | Advanced(target: nat)

  // beginScan: the checkpoint to aim for, if there is anything past the stored one.
  method BeginScan(m: StateManager, metadata: Metadata) returns (r: Result<Option<nat>>)
    requires m.Valid()
    ensures m.Valid() && Value(m.state) == old(Value(m.state))
    ensures match metadata
            case Broken => r.Err?
            case Missing => r == Ok(None)
            case CheckpointTs(target) => r == Ok(if target > old(Value(m.state)).checkpoint then Some(target) else None)
  {
    var st := m.Snapshot();
    match metadata
    case Broken => r := Err("metadata");
    case Missing => r := Ok(None);
    case CheckpointTs(target) => r := Ok(if target > st.checkpoint then Some(target) else None);
  }

  // Loaders of different tables share nothing.
  ghost predicate Separate(loaders: seq<Loader>) {
    forall i, j | 0 <= i < j < |loaders| :: loaders[i] != loaders[j] && loaders[i].outside != loaders[j].outside
  }

  ghost function Footprint(loaders: seq<Loader>): set<object> {
    (set i | 0 <= i < |loaders| :: loaders[i] as object) + (set i | 0 <= i < |loaders| :: loaders[i].outside as object)
  }

  // Between two rounds.
  ghost predicate AtRest(l: Loader, store: Planning.Store)
    reads l, l.outside
  {
    l.InStep() && l.dirty == map[] && MetaFits(l.watermark, l.meta) && Labelled(store) && Parsed(store)
  }

  // A loader's memory, and its calls and what is left of them.
  datatype Before = Before(memo: Executing.Memo, budget: nat, effects: seq<Executing.Effect>)

  // At rest, with this memory and these calls behind it.
  ghost predicate RestsAt(l: Loader, store: Planning.Store, was: Before)
    reads l, l.outside
  {
    AtRest(l, store) && Now(l) == was
  }

  ghost function Now(l: Loader): Before
    requires l.Valid()
    reads l, l.outside
  {
    Before(l.Memory(), l.outside.budget, l.outside.effects)
  }

  // What one round has done to a table: a scan that succeeded or failed, or nothing at all.
  ghost predicate HasScanned(l: Loader, was: Before, checkpoint: nat, store: Planning.Store, ok: bool)
    reads l, l.outside
  {
    && Labelled(store) && MetaFits(was.memo.watermark, was.memo.meta)
    && (ok ==> AtRest(l, store))
    && exists loaded, memo2 ::
         && Scanned(l.compile, was.memo, checkpoint, store, was.budget, was.effects, l.outside.effects, ok, loaded, memo2)
         && (ok ==> memo2 == l.Memory())
  }

  ghost predicate RoundDone(l: Loader, was: Before, checkpoint: nat, store: Planning.Store, executed: bool, result: Option<string>)
    reads l, l.outside
  {
    if executed then HasScanned(l, was, checkpoint, store, result.None?) else result.Some? && RestsAt(l, store, was)
  }

  // The task of one table; one that is never executed leaves the table alone and counts as failed.
  method ScanTable(l: Loader, store: Planning.Store, checkpoint: nat, executed: bool, ghost was: Before) returns (result: Option<string>)
    requires RestsAt(l, store, was)
    modifies l, l.outside
    ensures RoundDone(l, was, checkpoint, store, executed, result)
  {
    hide Scanned, MetaFits, Labelled, Parsed;
    if executed {
      var ok, loaded := l.ProcessTable(checkpoint, store);
      result := if ok then None else Some("table");
    } else {
      result := Some("context canceled");
    }
  }

  ghost predicate AllRest(loaders: seq<Loader>, stores: seq<Planning.Store>, was: seq<Before>)
    reads Footprint(loaders)
  {
    |stores| == |was| == |loaders| && forall i | 0 <= i < |loaders| :: RestsAt(loaders[i], stores[i], was[i])
  }

  ghost predicate AllDone(loaders: seq<Loader>, stores: seq<Planning.Store>, checkpoint: nat, was: seq<Before>,
                          executed: seq<bool>, results: seq<Option<string>>)
    reads Footprint(loaders)
  {
    && |results| == |executed| == |stores| == |was| == |loaders|
    && forall i | 0 <= i < |loaders| :: RoundDone(loaders[i], was[i], checkpoint, stores[i], executed[i], results[i])
  }

  ghost predicate AllScanned(loaders: seq<Loader>, stores: seq<Planning.Store>, checkpoint: nat, was: seq<Before>)
    reads Footprint(loaders)
  {
    |stores| == |was| == |loaders| && forall i | 0 <= i < |loaders| :: HasScanned(loaders[i], was[i], checkpoint, stores[i], true)
  }

  method ScanTables(loaders: seq<Loader>, stores: seq<Planning.Store>, checkpoint: nat, executed: seq<bool>, ghost was: seq<Before>)
    returns (results: seq<Option<string>>)
    requires Separate(loaders) && AllRest(loaders, stores, was) && |executed| == |loaders|
    modifies Footprint(loaders)
    ensures AllDone(loaders, stores, checkpoint, was, executed, results)
  {
    hide RoundDone, RestsAt;
    results := [];
    var i := 0;
    while i < |loaders|
      invariant 0 <= i <= |loaders| && |results| == i
      invariant forall j | i <= j < |loaders| :: RestsAt(loaders[j], stores[j], was[j])
      invariant forall j | 0 <= j < i :: RoundDone(loaders[j], was[j], checkpoint, stores[j], executed[j], results[j])
    {
      var result := ScanTable(loaders[i], stores[i], checkpoint, executed[i], was[i]);
      results := results + [result];
      i := i + 1;
    }
  }

  // The manager shares nothing with the loaders.
  ghost predicate Beside(m: StateManager, loaders: seq<Loader>)
    reads m, m.state.tables
  {
    Footprint(loaders) !! {m, m.store, m.state.tables} + Objects(m.state)
  }

  // processTables: the manager's copy of the state is not touched. `executed` says whose tasks the pool
  // will execute; all that it executes succeed, or one fails, or a context was `stopped`.
  method ScanBeside(m: StateManager, loaders: seq<Loader>, stores: seq<Planning.Store>, checkpoint: nat, executed: seq<bool>, ghost was: seq<Before>)
    returns (err: Option<string>, results: seq<Option<string>>, stopped: bool)
    requires m.Valid() && Beside(m, loaders) && Separate(loaders) && AllRest(loaders, stores, was) && |executed| == |loaders|
    modifies Footprint(loaders)
    ensures m.Valid() && Value(m.state) == old(Value(m.state))
    ensures AllDone(loaders, stores, checkpoint, was, executed, results)
    ensures err.None? ==> AllScanned(loaders, stores, checkpoint, was)
    ensures err.Some? && !stopped ==> SomeFailed(results)
  {
    hide AllDone, AllRest, AllScanned, ValidState, TableValues, Separate, AllSucceeded, Whole;
    results := ScanTables(loaders, stores, checkpoint, executed, was);
    ValueKept(m.state);
    var awaited;
    err, awaited, stopped := ProcessTables(results);
    if err.None? {
      EveryTableScanned(loaders, stores, checkpoint, was, executed, results, awaited);
    }
  }

  predicate SomeFailed(results: seq<Option<string>>) { exists i :: 0 <= i < |results| && results[i].Some? }

  // Scan all tables, then store the checkpoint.
  method ScanTo(m: StateManager, target: nat, loaders: seq<Loader>, stores: seq<Planning.Store>, checkpoint: nat, executed: seq<bool>, ghost was: seq<Before>)
    returns (ok: bool, results: seq<Option<string>>, stopped: bool)
    requires m.Valid() && Beside(m, loaders) && Separate(loaders) && AllRest(loaders, stores, was) && |executed| == |loaders|
    requires target > Value(m.state).checkpoint
    modifies m`state, m.store`file, m.store`acknowledged, m.store`uploads, Footprint(loaders)
    ensures m.Valid() && AllDone(loaders, stores, checkpoint, was, executed, results)
    ensures var moved := old(Value(m.state)).(checkpoint := target);
            && (if ok then Value(m.state) == moved && m.store.file == Some(moved) else Value(m.state) == old(Value(m.state)))
            && (m.store.file == old(m.store.file) || m.store.file == Some(moved))
            && if m.store.uploads == old(m.store.uploads) then !ok && m.store.file == old(m.store.file) && (stopped || SomeFailed(results))
               else m.store.uploads == old(m.store.uploads) + [ToFile(moved, ok)] && AllScanned(loaders, stores, checkpoint, was)
  {
    hide AllDone, AllRest, AllScanned, ValidState, Value, TableValues, Step, Separate, Whole;
    var err;
    err, results, stopped := ScanBeside(m, loaders, stores, checkpoint, executed, was);
    ok := false;
    if err.None? {
      ok := MoveCheckpoint(m, target);
    }
  }

  // The metadata's checkpoint is past the stored one.
  predicate HasNews(metadata: Metadata, checkpoint: nat) { metadata.CheckpointTs? && metadata.ts > checkpoint }

  // One round. Without news the tables are left alone. With news each table is scanned, or its task not
  // executed; then the state with the metadata checkpoint is uploaded, if every table was scanned and all
  // its calls succeeded, and otherwise nothing is, because a table's task failed or a context was stopped.
  // The round succeeds exactly if that upload is acknowledged.
  method RunOnce(m: StateManager, metadata: Metadata, loaders: seq<Loader>, stores: seq<Planning.Store>, executed: seq<bool>, ghost was: seq<Before>)
    returns (r: Round, results: seq<Option<string>>, stopped: bool)
    requires m.Valid() && Beside(m, loaders) && Separate(loaders) && AllRest(loaders, stores, was) && |executed| == |loaders|
    modifies m`state, m.store`file, m.store`acknowledged, m.store`uploads, Footprint(loaders)
    ensures m.Valid()
    ensures var st := old(Value(m.state));
            if !HasNews(metadata, st.checkpoint) then
              && r == (if metadata == Broken then Failed else NoScan) && AllRest(loaders, stores, was)
              && Value(m.state) == st && m.store.file == old(m.store.file) && m.store.uploads == old(m.store.uploads)
            else
              var moved := st.(checkpoint := metadata.ts);
              && AllDone(loaders, stores, st.checkpoint, was, executed, results)
              && (m.store.file == old(m.store.file) || m.store.file == Some(moved))
              && (r == Failed || r == Advanced(metadata.ts))
              && (if r.Advanced? then Value(m.state) == moved && m.store.file == Some(moved) else Value(m.state) == st)
              && if m.store.uploads == old(m.store.uploads) then r == Failed && m.store.file == old(m.store.file) && (stopped || SomeFailed(results))
                 else m.store.uploads == old(m.store.uploads) + [ToFile(moved, r.Advanced?)] && AllScanned(loaders, stores, st.checkpoint, was)
  {
    var checkpoint := m.state.checkpoint;
    assert checkpoint == Value(m.state).checkpoint;
    hide AllDone, AllRest, AllScanned, ValidState, Value, TableValues, Separate, Whole;
    results, stopped := [], false;
    var begun := BeginScan(m, metadata);
    if begun.Err? {
      return Failed, results, stopped;
    }
    if begun.value.None? {
      return NoScan, results, stopped;
    }
    var ok;
    ok, results, stopped := ScanTo(m, begun.value.value, loaders, stores, checkpoint, executed, was);
    r := if ok then Advanced(begun.value.value) else Failed;
  }

  method MoveCheckpoint(m: StateManager, target: nat) returns (ok: bool)
    requires m.Valid() && target > Value(m.state).checkpoint
    modifies m`state, m.store`file, m.store`acknowledged, m.store`uploads
    ensures m.Valid()
    ensures var moved := old(Value(m.state)).(checkpoint := target);
            && m.store.uploads == old(m.store.uploads) + [ToFile(moved, ok)]
            && if ok then Value(m.state) == moved && m.store.file == Some(moved)
               else Value(m.state) == old(Value(m.state)) && (m.store.file == old(m.store.file) || m.store.file == Some(moved))
  {
    hide ValidState, Value, TableValues, Step, Whole;
    CheckpointCanMove(Value(m.state), target, m.configured);
    ok := m.SetCheckpointTS(target);
  }

  lemma EveryTableScanned(loaders: seq<Loader>, stores: seq<Planning.Store>, checkpoint: nat, was: seq<Before>,
                          executed: seq<bool>, results: seq<Option<string>>, awaited: seq<Awaited>)
    requires AllDone(loaders, stores, checkpoint, was, executed, results) && FuturesOf(awaited) == Tasks(results) && AllSucceeded(awaited)
    ensures AllScanned(loaders, stores, checkpoint, was)
  {
    hide HasScanned, RestsAt;
    forall i | 0 <= i < |loaders| ensures HasScanned(loaders[i], was[i], checkpoint, stores[i], true) {
      assert awaited[i] in awaited && FuturesOf(awaited)[i] == Tasks(results)[i];
    }
  }

  lemma CheckpointCanMove(st: State, target: nat, configured: Option<set<string>>)
    requires ValidState(st, configured) && target > st.checkpoint
    ensures Step(st, SetCheckpointTS(target), configured) == Ok(st.(checkpoint := target))
  {
  }
}
