// A crash while a DDL is running: between its statements, or between the last of them and its
// watermark. Which DDLs can be run again, and what happens to a table whose DDL cannot.
module CrashWindow {
  import opened Wrappers
  import opened Merge
  import opened Statements
  import opened History
  import opened Discovery
  import opened Replication
  import opened Freshness
  import opened Scanning
  import opened Safety

  // ----- What other steps leave alone -----

  // Every step of the system either runs or marks a statement of this table's DDL or leaves its
  // columns alone.
  lemma StepIsSame(c: Setup, y: System, y2: System, n: string)
    requires Next(c, y, y2) && n in y.tables && n in c.sources
    ensures n in y2.tables
    ensures || SameTable(y.tables[n], y2.tables[n])
            || (y.process.Scanning? && (ExecStatement(c.sources[n], y.tables[n], y2.tables[n]) || MarkDdl(c.sources[n], y.tables[n], y2.tables[n])))
  {
    hide Contract, LoaderStep, ProducerStep, ExecStatement, MarkDdl, TableStep, PublishMetadata, Start, BeginScan, Commit, Crash, SameTable;
    if name :| TableStep(c, y, y2, name) {
      TableStepIsSame(c, y, y2, name, n);
    } else {
      OtherStepIsSame(c, y, y2, n);
    }
  }

  lemma OtherStepIsSame(c: Setup, y: System, y2: System, n: string)
    requires PublishMetadata(c, y, y2) || Start(y, y2) || BeginScan(y, y2) || Commit(y, y2) || Crash(y, y2)
    requires n in y.tables
    ensures n in y2.tables && SameTable(y.tables[n], y2.tables[n])
  {
    hide Contract;
  }

  lemma TableStepIsSame(c: Setup, y: System, y2: System, name: string, n: string)
    requires TableStep(c, y, y2, name) && n in y.tables && n in c.sources
    ensures n in y2.tables
    ensures || SameTable(y.tables[n], y2.tables[n])
            || (y.process.Scanning? && (ExecStatement(c.sources[n], y.tables[n], y2.tables[n]) || MarkDdl(c.sources[n], y.tables[n], y2.tables[n])))
  {
    hide LoaderStep, ProducerStep, ExecStatement, MarkDdl;
    var src, t, t2 := c.sources[name], y.tables[name], y2.tables[name];
    if ProducerStep(src, c.width, y.metadata, t, t2) {
      ProducerEffects(src, c.width, y.metadata, t, t2);
    } else {
      LoaderStepEffects(src, y.checkpoint, t, t2);
    }
  }

  // ----- When a DDL can be run again -----

  // A table on which some statements of its next DDL have run. Running the DDL from the start ends
  // as it would have without the interruption if those statements are all repeatable, and fails if
  // one is not.
  lemma RerunIff(c: Setup, run: seq<System>, i: nat, n: string, next: nat) returns (before: Columns)
    requires IsRun(c, run) && i < |run| && n in run[i].tables && n in c.sources && IsNext(c.sources[n], run[i].tables[n].applied, next)
    ensures var d, t := c.sources[n].ddls[next], run[i].tables[n];
            && t.partial <= d && RunAll(before, StatementsOf(t.partial)) == Some(t.columns)
            && RunAll(t.columns, StatementsOf(d)) ==
               if AllRepeatable(StatementsOf(t.partial)) then RunAll(before, StatementsOf(d)) else None
  {
    TableInvAlways(c, run, i, n);
    var src, t := c.sources[n], run[i].tables[n];
    hide TableInv;
    before := RunningDdl(src, c.width, run[i].metadata, run[i].checkpoint, run[i].process, t, next);
    var d := src.ddls[next];
    PrefixStatements(d, |t.partial|);
    assert d[..|t.partial|] == t.partial;
    RerunAfterPrefix(before, StatementsOf(d), |t.partial|);
  }

  lemma RunningDdl(src: Source, w: nat, metadata: nat, c: nat, process: Process, t: TableState, next: nat) returns (before: Columns)
    requires TableInv(src, w, metadata, c, process, t) && IsNext(src, t.applied, next)
    ensures t.partial <= src.ddls[next] && Apart(StatementsOf(src.ddls[next]))
    ensures RunAll(before, StatementsOf(t.partial)) == Some(t.columns)
  {
    hide Contract, Progress, Fresh, StageOk, InStep;
    before := InDdl(src, t, next);
  }

  // A statement that runs a second time is a repeatable one and does nothing to the columns.
  lemma OnlyRepeatsAreRerun(c: Setup, run: seq<System>, i: nat, n: string)
    requires IsRun(c, run) && i + 1 < |run| && n in run[i].tables && n in run[i + 1].tables && n in c.sources
    requires run[i].process.Scanning? && ExecStatement(c.sources[n], run[i].tables[n], run[i + 1].tables[n])
    ensures var t, t2 := run[i].tables[n], run[i + 1].tables[n];
            t.stage.pass < |t.partial| ==> Repeatable(t.partial[t.stage.pass].statement) && t2.columns == t.columns && t2.partial == t.partial
  {
    TableInvAlways(c, run, i, n);
    var src, y, t := c.sources[n], run[i], run[i].tables[n];
    hide TableInv, Next;
    ExecRepeats(src, c.width, y.metadata, y.checkpoint, y.process, t, run[i + 1].tables[n]);
  }

  lemma ExecRepeats(src: Source, w: nat, metadata: nat, c: nat, process: Process, t: TableState, t2: TableState)
    requires TableInv(src, w, metadata, c, process, t) && process.Scanning? && ExecStatement(src, t, t2)
    ensures t.stage.pass <= |t.partial|
    ensures t.stage.pass < |t.partial| ==> Repeatable(t.partial[t.stage.pass].statement) && t2.columns == t.columns && t2.partial == t.partial
    ensures PassOf(t2) == PassOf(t) + 1 && t2.applied == t.applied && t2.durable.watermark == t.durable.watermark
  {
    ExecFacts(src, t, t2);
    NextIsAhead(src, w, metadata, c, process, t);
    hide Contract, Progress, Fresh, StageOk, InStep, Sound, ExecStatement, IsNext, Exhausted, Altered, RunAll;
    ExecKeepsAltered(src, t, t2);
  }

  ghost predicate RowsAt(src: Source, rows: Table, at: nat) {
    forall k: Key :: Lookup(rows, k) == ValueAt(src, k, at)
  }

  // However often a DDL's statements had to be run, the rows are the source rows of its own time
  // when it is marked.
  lemma MarkedRowsAreSource(c: Setup, run: seq<System>, i: nat, n: string)
    requires IsRun(c, run) && i + 1 < |run| && n in run[i].tables && n in run[i + 1].tables && n in c.sources
    requires run[i].process.Scanning? && MarkDdl(c.sources[n], run[i].tables[n], run[i + 1].tables[n])
    requires run[i + 1].tables[n].applied != run[i].tables[n].applied
    ensures RowsAt(c.sources[n], run[i + 1].tables[n].rows, run[i + 1].tables[n].applied)
  {
    TableInvAlways(c, run, i, n);
    var src, y, t, t2 := c.sources[n], run[i], run[i].tables[n], run[i + 1].tables[n];
    hide TableInv, Next;
    forall k: Key ensures Lookup(t2.rows, k) == ValueAt(src, k, t2.applied) {
      MarkedRow(src, c.width, y.metadata, y.checkpoint, y.process, t, t2, k);
    }
  }

  lemma MarkReady(src: Source, w: nat, metadata: nat, c: nat, process: Process, t: TableState, t2: TableState) returns (next: nat)
    requires TableInv(src, w, metadata, c, process, t) && process.Scanning? && MarkDdl(src, t, t2) && t2.applied != t.applied
    ensures t2.applied == next && t2.rows == t.rows && Exhausted(src, t)
    ensures IsNext(src, t.applied, next) && next in t.schemas && t.partial == src.ddls[next] && PassOf(t) == |src.ddls[next]|
  {
    MarkFollows(src, t, t2);
    NextIsAhead(src, w, metadata, c, process, t);
    hide StageOk, InStep, Progress, MarkDdl, NextDdl, Contract, Fresh, Exhausted, Altered, IsNext;
    next := t.stage.pending[0];
    var before := RunningDdl(src, w, metadata, c, process, t, next);
  }

  lemma MarkedRow(src: Source, w: nat, metadata: nat, c: nat, process: Process, t: TableState, t2: TableState, k: Key)
    requires TableInv(src, w, metadata, c, process, t) && process.Scanning? && MarkDdl(src, t, t2) && t2.applied != t.applied
    ensures Lookup(t2.rows, k) == ValueAt(src, k, t2.applied)
  {
    hide StageOk, InStep, Progress, MarkDdl, Contract, Fresh, Exhausted, Altered, IsNext, ValueAt, Sound;
    var next := MarkReady(src, w, metadata, c, process, t, t2);
    DdlKeepsKey(src, w, metadata, t, c, next, k);
  }

  // ----- When it cannot -----

  // A statement that cannot be run again has run, and is still to be run again.
  ghost predicate Stuck(t: TableState) {
    exists q :: 0 <= q < |t.partial| && PassOf(t) <= q && !Repeatable(t.partial[q].statement)
  }

  lemma StuckSame(t: TableState, t2: TableState)
    requires Stuck(t) && SameTable(t, t2)
    ensures Stuck(t2)
  {
    var q :| 0 <= q < |t.partial| && PassOf(t) <= q && !Repeatable(t.partial[q].statement);
    assert !Repeatable(t2.partial[q].statement);
  }

  lemma StuckRuns(src: Source, w: nat, metadata: nat, c: nat, process: Process, t: TableState, t2: TableState, q: nat)
    requires TableInv(src, w, metadata, c, process, t) && process.Scanning? && ExecStatement(src, t, t2)
    requires q < |t.partial| && PassOf(t) <= q && !Repeatable(t.partial[q].statement)
    ensures Stuck(t2) && t2.applied == t.applied && t2.partial == t.partial && t2.durable.watermark == t.durable.watermark
  {
    hide TableInv, ExecStatement, Repeatable, PassOf, Stuck;
    PassIsStage(src, t, t2);
    ExecRepeats(src, w, metadata, c, process, t, t2);
    StillStuck(t2, q);
  }

  lemma StillStuck(t: TableState, q: nat)
    requires q < |t.partial| && PassOf(t) <= q && !Repeatable(t.partial[q].statement)
    ensures Stuck(t)
  {
  }

  lemma PassIsStage(src: Source, t: TableState, t2: TableState)
    requires ExecStatement(src, t, t2)
    ensures t.stage.Running? && t.stage.pass == PassOf(t)
  {
  }

  lemma StuckStays(src: Source, w: nat, metadata: nat, c: nat, process: Process, t: TableState, t2: TableState)
    requires TableInv(src, w, metadata, c, process, t) && process.Scanning? && Stuck(t)
    requires ExecStatement(src, t, t2) || MarkDdl(src, t, t2)
    ensures ExecStatement(src, t, t2) && Stuck(t2) && t2.applied == t.applied && t2.partial == t.partial && t2.durable.watermark == t.durable.watermark
  {
    var q :| 0 <= q < |t.partial| && PassOf(t) <= q && !Repeatable(t.partial[q].statement);
    hide TableInv, ExecStatement, MarkDdl, Stuck, Repeatable;
    if MarkDdl(src, t, t2) {
      NotMarked(src, w, metadata, c, process, t, t2);
    } else {
      StuckRuns(src, w, metadata, c, process, t, t2, q);
    }
  }

  lemma NotMarked(src: Source, w: nat, metadata: nat, c: nat, process: Process, t: TableState, t2: TableState)
    requires TableInv(src, w, metadata, c, process, t) && process.Scanning? && MarkDdl(src, t, t2)
    ensures PassOf(t) == |t.partial|
  {
    MarkFollows(src, t, t2);
    NextIsAhead(src, w, metadata, c, process, t);
    hide Contract, Progress, Fresh, StageOk, InStep, Sound, Exhausted, MarkDdl, NextDdl;
    if t.stage.pending[0] != t.applied {
      var before := RunningDdl(src, w, metadata, c, process, t, t.stage.pending[0]);
    }
  }

  // A table that is stuck never gets to another version, in however many attempts.
  lemma {:induction false} StuckForever(c: Setup, run: seq<System>, i: nat, j: nat, n: string)
    requires IsRun(c, run) && i <= j < |run| && n in run[i].tables && Stuck(run[i].tables[n])
    ensures n in run[j].tables && Stuck(run[j].tables[n])
    ensures var t, t2 := run[i].tables[n], run[j].tables[n];
            t2.applied == t.applied && t2.durable.watermark == t.durable.watermark && t2.partial == t.partial
    decreases j
  {
    hide Init, Next, TableInv, Stuck;
    if i < j {
      assert Next(c, run[j - 1], run[j]);
      hide IsRun;
      StuckForever(c, run, i, j - 1, n);
      TableInvAlways(c, run, j - 1, n);
      StuckStep(c, run[j - 1], run[j], n);
    }
  }

  lemma StuckStep(c: Setup, y: System, y2: System, n: string)
    requires Next(c, y, y2) && n in y.tables && n in c.sources && Stuck(y.tables[n])
    requires TableInv(c.sources[n], c.width, y.metadata, y.checkpoint, y.process, y.tables[n])
    ensures n in y2.tables && Stuck(y2.tables[n])
    ensures var t, t2 := y.tables[n], y2.tables[n];
            t2.applied == t.applied && t2.durable.watermark == t.durable.watermark && t2.partial == t.partial
  {
    hide TableInv, Next, Stuck, ExecStatement, MarkDdl;
    StepIsSame(c, y, y2, n);
    if SameTable(y.tables[n], y2.tables[n]) {
      StuckSame(y.tables[n], y2.tables[n]);
    } else {
      StuckStays(c.sources[n], c.width, y.metadata, y.checkpoint, y.process, y.tables[n], y2.tables[n]);
    }
  }

  // A crash after statements of a DDL, before its watermark: if one of them adds, drops or renames
  // a column, the table never gets past that DDL again. Otherwise the DDL can be run from the start
  // and comes out as it would have without the crash, provided it would have come out at all.
  lemma WindowCrash(c: Setup, run: seq<System>, i: nat, n: string, next: nat) returns (before: Columns)
    requires IsRun(c, run) && i + 1 < |run| && Crash(run[i], run[i + 1])
    requires n in run[i].tables && n in c.sources && IsNext(c.sources[n], run[i].tables[n].applied, next)
    ensures n in run[i + 1].tables
    ensures var d, t, t2 := c.sources[n].ddls[next], run[i].tables[n], run[i + 1].tables[n];
            && t.partial <= d && RunAll(before, StatementsOf(t.partial)) == Some(t.columns) && t2.columns == t.columns
            && (AllRepeatable(StatementsOf(t.partial)) ==> RunAll(t2.columns, StatementsOf(d)) == RunAll(before, StatementsOf(d)))
            && (!AllRepeatable(StatementsOf(t.partial)) ==>
                  forall j | i < j < |run| :: n in run[j].tables && run[j].tables[n].durable.watermark == t.durable.watermark
                                              && run[j].tables[n].applied == t.applied)
  {
    before := RerunIff(c, run, i, n, next);
    CrashIsSame(run[i], run[i + 1], n);
    if !AllRepeatable(StatementsOf(run[i].tables[n].partial)) {
      forall j | i < j < |run|
        ensures n in run[j].tables && run[j].tables[n].durable.watermark == run[i].tables[n].durable.watermark
        ensures run[j].tables[n].applied == run[i].tables[n].applied
      {
        CrashIsFatal(c, run, i, j, n);
      }
    }
  }

  lemma CrashIsSame(y: System, y2: System, n: string)
    requires Crash(y, y2) && n in y.tables
    ensures n in y2.tables && SameTable(y.tables[n], y2.tables[n]) && PassOf(y2.tables[n]) == 0
  {
  }

  lemma CrashIsFatal(c: Setup, run: seq<System>, i: nat, j: nat, n: string)
    requires IsRun(c, run) && i < j < |run| && Crash(run[i], run[i + 1]) && n in run[i].tables
    requires !AllRepeatable(StatementsOf(run[i].tables[n].partial))
    ensures n in run[j].tables && run[j].tables[n].durable.watermark == run[i].tables[n].durable.watermark
    ensures run[j].tables[n].applied == run[i].tables[n].applied
  {
    hide IsRun;
    CrashIsSame(run[i], run[i + 1], n);
    var t, t2 := run[i].tables[n], run[i + 1].tables[n];
    var s :| s in StatementsOf(t.partial) && !Repeatable(s);
    var q :| 0 <= q < |t.partial| && StatementsOf(t.partial)[q] == s;
    assert !Repeatable(t2.partial[q].statement) && PassOf(t2) == 0;
    StuckForever(c, run, i + 1, j, n);
  }
}
