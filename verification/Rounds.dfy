// One round of the loop as a stretch of a run of the protocol: the metadata is read before anything
// else, every table's scan is a run of its own, and then the checkpoint may move.
module Rounds {
  import opened Wrappers
  import opened Replication
  import opened History
  import opened Statements
  import opened Planning
  import opened TableLoader
  import opened Refinement
  import opened Simulation
  import Safety
  import ScanLoop
  import Executing

  // ----- The metadata is read first -----

  predicate NothingLooked(y: System) { forall n | n in y.tables :: y.tables[n].stage.Begun? }

  // The target of a scan is the metadata checkpoint at a moment before the scan, at which no table had
  // been looked at, and it is past the checkpoint.
  lemma {:induction false} TargetIsReadFirst(c: Setup, run: seq<System>, i: nat) returns (j: nat)
    requires Safety.IsRun(c, run) && i < |run| && run[i].process.Scanning?
    ensures j < i && Replication.BeginScan(run[j], run[j + 1])
    ensures run[j].metadata == run[i].process.target && run[i].checkpoint == run[j].checkpoint < run[i].process.target
    ensures NothingLooked(run[j + 1])
    ensures forall k | j < k <= i :: run[k].process == run[i].process
  {
    hide Init, TableStep, PublishMetadata, Start, Replication.Commit, Replication.Crash;
    assert i > 0 by {
      NoScanAtFirst(c, run[0]);
    }
    assert Next(c, run[i - 1], run[i]);
    hide Safety.IsRun;
    if Replication.BeginScan(run[i - 1], run[i]) {
      j := i - 1;
    } else {
      StillScanning(c, run[i - 1], run[i]);
      j := TargetIsReadFirst(c, run, i - 1);
    }
  }

  lemma NoScanAtFirst(c: Setup, y: System)
    requires Init(c, y)
    ensures y.process == Down
  {
    hide Sound, Loaded, Contract, ValueAt;
  }

  lemma StillScanning(c: Setup, y: System, y2: System)
    requires Next(c, y, y2) && y2.process.Scanning? && !Replication.BeginScan(y, y2)
    ensures y2.process == y.process && y2.checkpoint == y.checkpoint
  {
    hide Contract, ProducerStep, LoaderStep;
  }

  // ----- A table's round -----

  // The loader l works on table t of the protocol: it knows what t does, has been answered what t has
  // read, and its calls were accepted in these worlds.
  ghost predicate Faces(src: Source, checkpoint: nat, t: TableState, l: Loader, store: Store, was: ScanLoop.Before,
                        denote: string -> Step, made: seq<Effect>, worlds: seq<(World, World)>)
    reads l, l.outside
  {
    && l.outside.effects == was.effects + made
    && Answers(t, checkpoint, store) && LookedEverywhere(t) && t.watermark == was.memo.watermark && t.cursors == was.memo.cursors
    && Happened(denote, checkpoint, WorldOf(t), made, worlds)
    && Labelled(store) && Parsed(store) && MetaFits(was.memo.watermark, was.memo.meta)
    && forall scan | PlanScan(was.memo.cursors, was.memo.watermark, checkpoint, store) == Some(scan) ::
         Readable(store, scan, was.memo.watermark, was.memo.meta) ==> ScanScripted(src, denote, l.compile, was.memo, scan, checkpoint, store)
  }

  // From what it has read the table goes on to its plan, through the calls' worlds to the stored
  // cursors, and has then what the loader remembers.
  ghost predicate Rounded(src: Source, checkpoint: nat, t: TableState, worlds: seq<(World, World)>, memo: Memo, ts: seq<TableState>, end: TableState) {
    && Follows(src, checkpoint, worlds, ts) && (exists pending :: MakePlan(checkpoint, t, ts[0], pending))
    && PersistCursors(ts[|worlds|], end) && end.stage.Done?
    && end.watermark == memo.watermark && end.cursors == end.durable.cursors == memo.cursors
  }

  lemma TableRound(src: Source, checkpoint: nat, t: TableState, l: Loader, store: Store, was: ScanLoop.Before,
                   denote: string -> Step, made: seq<Effect>, worlds: seq<(World, World)>)
    returns (ts: seq<TableState>, end: TableState)
    requires ScanLoop.HasScanned(l, was, checkpoint, store, true) && Faces(src, checkpoint, t, l, store, was, denote, made, worlds)
    ensures l.Valid() && Rounded(src, checkpoint, t, worlds, l.Memory(), ts, end)
  {
    var memo := was.memo;
    var loaded, memo2 :| Scanned(l.compile, memo, checkpoint, store, was.budget, was.effects, l.outside.effects, true, loaded, memo2)
                         && memo2 == l.Memory();
    var scan := SomePlan(l.compile, memo, checkpoint, store, was.budget, was.effects, l.outside.effects, loaded, memo2);
    hide Scanned, Answers, LookedEverywhere, Happened, Labelled, Parsed, MetaFits, Readable, ScanScripted, PlanScan, Follows, MakePlan, PersistCursors;
    ts := ScanIsRun(src, denote, l.compile, memo, checkpoint, store, scan, was.budget, was.effects, made, true, loaded, memo2, t, worlds);
    MadeAll(denote, checkpoint, t, made, worlds);
    end := Stored(ts[|made|]);
  }

  function Stored(t: TableState): TableState
    requires t.stage.Running?
  {
    t.(durable := t.durable.(cursors := t.cursors), stage := Stage.Done(t.stage.floor))
  }

  lemma MadeAll(denote: string -> Step, checkpoint: nat, t: TableState, made: seq<Effect>, worlds: seq<(World, World)>)
    requires Happened(denote, checkpoint, WorldOf(t), made, worlds)
    ensures |worlds| == |made|
  {
  }

  lemma SomePlan(compile: Compiler, memo: Memo, checkpoint: nat, store: Store, budget: nat, before: seq<Effect>, after: seq<Effect>,
                 loaded: nat, memo2: Memo) returns (scan: Scan)
    requires Labelled(store) && MetaFits(memo.watermark, memo.meta)
    requires Scanned(compile, memo, checkpoint, store, budget, before, after, true, loaded, memo2)
    ensures PlanScan(memo.cursors, memo.watermark, checkpoint, store) == Some(scan)
  {
    hide PlanScan, Readable, Expected, Labelled, MetaFits;
    scan := PlanScan(memo.cursors, memo.watermark, checkpoint, store).value;
  }

  // ----- All tables -----

  // The tables of y, each with its loader, the answers it got and the calls it made.
  ghost predicate AllFace(c: Setup, y: System, names: seq<string>, loaders: seq<Loader>, stores: seq<Store>, was: seq<ScanLoop.Before>,
                          denotes: seq<string -> Step>, mades: seq<seq<Effect>>, worlds: seq<seq<(World, World)>>)
    reads ScanLoop.Footprint(loaders)
  {
    && |names| == |loaders| == |stores| == |was| == |denotes| == |mades| == |worlds|
    && (forall n :: n in y.tables <==> n in names)
    && forall i | 0 <= i < |names| ::
         names[i] in c.sources && names[i] in y.tables
         && Faces(c.sources[names[i]], y.checkpoint, y.tables[names[i]], loaders[i], stores[i], was[i], denotes[i], mades[i], worlds[i])
  }

  // Table n has ended its scan as `end`.
  ghost predicate EndedAs(c: Setup, y: System, names: seq<string>, loaders: seq<Loader>, worlds: seq<seq<(World, World)>>, n: string, end: TableState)
    reads ScanLoop.Footprint(loaders)
  {
    && |names| == |loaders| == |worlds| && n in c.sources && n in y.tables
    && exists i, ts :: 0 <= i < |names| && names[i] == n && loaders[i].Valid()
         && Rounded(c.sources[n], y.checkpoint, y.tables[n], worlds[i], loaders[i].Memory(), ts, end)
  }

  lemma OneEnded(c: Setup, y: System, names: seq<string>, loaders: seq<Loader>, stores: seq<Store>, was: seq<ScanLoop.Before>,
                 denotes: seq<string -> Step>, mades: seq<seq<Effect>>, worlds: seq<seq<(World, World)>>, i: nat) returns (end: TableState)
    requires AllFace(c, y, names, loaders, stores, was, denotes, mades, worlds) && i < |names|
    requires ScanLoop.AllScanned(loaders, stores, y.checkpoint, was)
    ensures EndedAs(c, y, names, loaders, worlds, names[i], end) && end.stage.Done?
  {
    var n, ts := names[i], [];
    hide Faces, ScanLoop.HasScanned, Rounded;
    ts, end := TableRound(c.sources[n], y.checkpoint, y.tables[n], loaders[i], stores[i], was[i], denotes[i], mades[i], worlds[i]);
    assert Rounded(c.sources[n], y.checkpoint, y.tables[n], worlds[i], loaders[i].Memory(), ts, end);
    RoundedIsDone(c.sources[n], y.checkpoint, y.tables[n], worlds[i], loaders[i].Memory(), ts, end);
  }

  lemma RoundedIsDone(src: Source, checkpoint: nat, t: TableState, worlds: seq<(World, World)>, memo: Memo, ts: seq<TableState>, end: TableState)
    requires Rounded(src, checkpoint, t, worlds, memo, ts, end)
    ensures end.stage.Done?
  {
    hide Follows, MakePlan, PersistCursors;
  }

  ghost predicate FirstEnded(c: Setup, y: System, names: seq<string>, loaders: seq<Loader>, worlds: seq<seq<(World, World)>>, m: nat,
                             ends: map<string, TableState>)
    reads ScanLoop.Footprint(loaders)
  {
    && m <= |names| && (forall n :: n in ends <==> n in names[..m])
    && forall n | n in ends :: EndedAs(c, y, names, loaders, worlds, n, ends[n]) && ends[n].stage.Done?
  }

  lemma OneMoreEnded(c: Setup, y: System, names: seq<string>, loaders: seq<Loader>, worlds: seq<seq<(World, World)>>, m: nat,
                     ends: map<string, TableState>, end: TableState)
    requires FirstEnded(c, y, names, loaders, worlds, m, ends) && m < |names|
    requires EndedAs(c, y, names, loaders, worlds, names[m], end) && end.stage.Done?
    ensures FirstEnded(c, y, names, loaders, worlds, m + 1, ends[names[m] := end])
  {
    hide EndedAs;
    assert names[..m + 1] == names[..m] + [names[m]];
  }

  lemma NoneEnded(c: Setup, y: System, names: seq<string>, loaders: seq<Loader>, worlds: seq<seq<(World, World)>>)
    ensures FirstEnded(c, y, names, loaders, worlds, 0, map[])
  {
    hide EndedAs;
  }

  lemma {:induction false} Ends(c: Setup, y: System, names: seq<string>, loaders: seq<Loader>, stores: seq<Store>, was: seq<ScanLoop.Before>,
                                denotes: seq<string -> Step>, mades: seq<seq<Effect>>, worlds: seq<seq<(World, World)>>, m: nat)
    returns (ends: map<string, TableState>)
    requires AllFace(c, y, names, loaders, stores, was, denotes, mades, worlds) && m <= |names|
    requires ScanLoop.AllScanned(loaders, stores, y.checkpoint, was)
    ensures FirstEnded(c, y, names, loaders, worlds, m, ends)
  {
    hide AllFace, ScanLoop.AllScanned, ScanLoop.Footprint, FirstEnded, EndedAs;
    if m == 0 {
      ends := map[];
      NoneEnded(c, y, names, loaders, worlds);
    } else {
      ends := Ends(c, y, names, loaders, stores, was, denotes, mades, worlds, m - 1);
      var end := OneEnded(c, y, names, loaders, stores, was, denotes, mades, worlds, m - 1);
      OneMoreEnded(c, y, names, loaders, worlds, m - 1, ends, end);
      ends := ends[names[m - 1] := end];
    }
  }

  // When RunOnce has scanned all tables, each of them is at the end of a run of its own, and the
  // checkpoint may move to the scan's target.
  lemma RoundCommits(c: Setup, y: System, names: seq<string>, loaders: seq<Loader>, stores: seq<Store>, was: seq<ScanLoop.Before>,
                     denotes: seq<string -> Step>, mades: seq<seq<Effect>>, worlds: seq<seq<(World, World)>>)
    returns (ends: map<string, TableState>)
    requires y.process.Scanning? && AllFace(c, y, names, loaders, stores, was, denotes, mades, worlds)
    requires ScanLoop.AllScanned(loaders, stores, y.checkpoint, was)
    ensures ends.Keys == y.tables.Keys && forall n | n in ends :: EndedAs(c, y, names, loaders, worlds, n, ends[n])
    ensures Replication.Commit(y.(tables := ends), System(y.metadata, y.process.target, Idle, map n | n in ends :: ends[n].(stage := Resting)))
  {
    hide AllFace, ScanLoop.AllScanned, ScanLoop.Footprint, FirstEnded, EndedAs, Replication.Commit;
    ends := Ends(c, y, names, loaders, stores, was, denotes, mades, worlds, |names|);
    NamesOfAll(c, y, names, loaders, stores, was, denotes, mades, worlds);
    AllEnded(c, y, names, loaders, worlds, ends);
    CommitFollows(y, ends);
  }

  lemma NamesOfAll(c: Setup, y: System, names: seq<string>, loaders: seq<Loader>, stores: seq<Store>, was: seq<ScanLoop.Before>,
                   denotes: seq<string -> Step>, mades: seq<seq<Effect>>, worlds: seq<seq<(World, World)>>)
    requires AllFace(c, y, names, loaders, stores, was, denotes, mades, worlds)
    ensures forall n :: n in y.tables <==> n in names
  {
    hide Faces, ScanLoop.Footprint;
  }

  lemma AllEnded(c: Setup, y: System, names: seq<string>, loaders: seq<Loader>, worlds: seq<seq<(World, World)>>, ends: map<string, TableState>)
    requires FirstEnded(c, y, names, loaders, worlds, |names|, ends) && forall n :: n in y.tables <==> n in names
    ensures ends.Keys == y.tables.Keys
    ensures forall n | n in ends :: EndedAs(c, y, names, loaders, worlds, n, ends[n]) && ends[n].stage.Done?
  {
    hide EndedAs, ScanLoop.Footprint;
    assert names[..|names|] == names;
  }

  lemma CommitFollows(y: System, ends: map<string, TableState>)
    requires y.process.Scanning? && forall n | n in ends :: ends[n].stage.Done?
    ensures Replication.Commit(y.(tables := ends), System(y.metadata, y.process.target, Idle, map n | n in ends :: ends[n].(stage := Resting)))
  {
  }
}
