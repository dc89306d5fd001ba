// A run in which everything happens: a scan plans, merges a file, runs a DDL and commits; and the
// same run cut off by a crash after the DDL's statement, from which the table never recovers.
module ExampleRun {
  import opened Wrappers
  import opened TextOrder
  import opened Merge
  import opened Statements
  import opened History
  import opened Discovery
  import opened Replication
  import opened Freshness
  import opened Safety
  import opened CrashWindow

  // ----- The source: a row committed at 5, a column added at 6 -----

  const ONE := Text("1")
  const ZERO := Text("0")
  const THE_KEY: Key := [ONE]
  const OLD_ROW: Row := map["ID" := ONE]
  const NEW_ROW: Row := map["ID" := ONE, "C" := ZERO]
  const NUMBER := Type("int", "", "")
  const ADD_C := Step(Add("C", NUMBER, false), ZERO, (c: Cell) => c)
  const THE_FILE: File := [Change("I", THE_KEY, "5", OLD_ROW)]
  const THE_LOG: Log := [Entry(7, THE_FILE)]
  const STREAM := Scope(1, 0)

  function TheSource(): Source {
    Source(map[(THE_KEY, 5) := Some(OLD_ROW)], map[1 := [], 6 := [ADD_C]], (k, v) => 0, 2, 2, 1, 1)
  }

  function TheSetup(): Setup { Setup(map["t" := TheSource()], 1) }

  // ----- The table, step by step -----

  const FLOOR_1 := map[STREAM := 1]
  const OLD: Columns := map["ID" := Col(NUMBER, false)]
  const NEW: Columns := OLD["C" := Col(NUMBER, true)]

  function Table(durable: Durable, cursors: map<Scope, Name>, stage: Stage, rows: Table, columns: Columns,
                 applied: nat, partial: Ddl, merged: map<Scope, nat>): TableState
  {
    TableState({1, 6}, map[STREAM := THE_LOG], map[STREAM := {7}], durable, durable.watermark, cursors, stage, rows, columns, applied, partial, merged)
  }

  const NOTHING := Durable(0, map[])
  const READ := map[STREAM := Name(7, 1)]
  const MERGED_1 := map[STREAM := 1]

  function Unread(stage: Stage): TableState { Table(NOTHING, map[], stage, map[], OLD, 1, [], map[]) }

  function Look(dirs: map<nat, set<int>>, listed: map<Scope, nat>, dates: map<Scope, seq<nat>>, index: map<Scope, map<nat, nat>>): TableState {
    Unread(Looking(FLOOR_1, {1, 6}, dirs, listed, dates, index))
  }

  const BOTH_DIRS: map<nat, set<int>> := map[1 := {0}, 6 := {}]

  function Resting0(): TableState { Unread(Resting) }
  function Begun1(): TableState { Unread(Begun(FLOOR_1)) }
  function Walked(): TableState { Look(map[], map[], map[], map[]) }
  function Listed1(): TableState { Look(map[1 := {0}], map[], map[], map[]) }
  function Listed6(): TableState { Look(BOTH_DIRS, map[], map[], map[]) }
  function Dated7(): TableState { Look(BOTH_DIRS, map[STREAM := 1], map[STREAM := [7]], map[STREAM := map[]]) }
  function Indexed7(): TableState { Look(BOTH_DIRS, map[STREAM := 1], map[STREAM := [7]], map[STREAM := map[7 := 1]]) }
  function PlannedT(): TableState { Unread(Running(FLOOR_1, [6], map[STREAM := [Name(7, 1)]], 0)) }
  function MergedT(): TableState {
    Table(NOTHING, READ, Running(FLOOR_1, [6], map[STREAM := []], 0), map[THE_KEY := OLD_ROW], OLD, 1, [], MERGED_1)
  }
  function AddedT(): TableState {
    Table(NOTHING, READ, Running(FLOOR_1, [6], map[STREAM := []], 1), map[THE_KEY := NEW_ROW], NEW, 1, [ADD_C], MERGED_1)
  }
  function MarkedT(): TableState {
    Table(Durable(6, map[]), READ, Running(FLOOR_1, [], map[STREAM := []], 0), map[THE_KEY := NEW_ROW], NEW, 6, [], MERGED_1)
  }
  function DoneT(): TableState { Table(Durable(6, READ), READ, Done(FLOOR_1), map[THE_KEY := NEW_ROW], NEW, 6, [], MERGED_1) }
  function CommittedT(): TableState { DoneT().(stage := Resting) }
  function CrashedT(): TableState { Table(NOTHING, map[], Resting, map[THE_KEY := NEW_ROW], NEW, 1, [ADD_C], MERGED_1) }

  function World(checkpoint: nat, process: Process, t: TableState): System { System(9, checkpoint, process, map["t" := t]) }

  // ----- It is a run -----

  lemma NumbersRead()
    ensures ToNumber("5") == 5
  {
    assert "5"[1..] == "" && Pow10(0) == 1;
  }

  lemma VersionsOfSource()
    ensures Under(TheSource(), 1, 1) && Under(TheSource(), 1, 2)
  {
  }

  lemma DdlsAreApart(v: nat)
    requires v in TheSource().ddls
    ensures Apart(StatementsOf(TheSource().ddls[v]))
    ensures forall i | 0 <= i < |TheSource().ddls[v]| :: Settles(TheSource().ddls[v][i])
  {
    hide StatementsOf;
    assert Settles(ADD_C);
  }

  lemma SourceIsSound()
    ensures Sound(TheSource())
  {
    VersionsOfSource();
    hide StatementsOf, Apart, Settles, Under;
    var src := TheSource();
    forall v | v in src.ddls
      ensures Apart(StatementsOf(src.ddls[v])) && forall i | 0 <= i < |src.ddls[v]| :: Settles(src.ddls[v][i])
    {
      DdlsAreApart(v);
    }
  }

  lemma StoreKeepsContract(t: TableState)
    requires t.schemas == {1, 6} && t.logs == map[STREAM := THE_LOG] && t.folders == map[STREAM := {7}]
    ensures Contract(TheSource(), 1, 9, t)
  {
    var src := TheSource();
    NumbersRead();
    assert Under(src, 1, 5);
    assert THE_LOG[..0] == [] && LastTime(THE_LOG, THE_KEY) == 5;
    forall s: Scope, upto: nat ensures Caught(src, s, LogOf(t, s), upto) {
      forall k, e | (k, e) in src.changes && Under(src, s.version, e) && src.home(k, s.version) == s.partition
        ensures e <= LastTime(LogOf(t, s), k)
      {
        assert k == THE_KEY && e == 5;
        assert s.version == 1;
      }
    }
    assert Genuine(src, 1, STREAM, THE_FILE);
  }

  lemma RunBegins()
    ensures Init(TheSetup(), World(2, Down, Resting0()))
  {
    var src := TheSource();
    SourceIsSound();
    StoreKeepsContract(Resting0());
    forall k: Key ensures ValueAt(src, k, 2) == None {
      assert ValueAt(src, k, 0) == None;
      assert OnRow([], None) == None;
      assert ValueAt(src, k, 1) == None;
    }
  }

  lemma TableTakesStep(checkpoint: nat, process: Process, t: TableState, t2: TableState)
    requires process.Scanning? && LoaderStep(TheSource(), checkpoint, t, t2)
    ensures Next(TheSetup(), World(checkpoint, process, t), World(checkpoint, process, t2))
  {
    hide LoaderStep;
    var y, y2 := World(checkpoint, process, t), World(checkpoint, process, t2);
    assert y2.tables == y.tables["t" := y2.tables["t"]];
    assert TableStep(TheSetup(), y, y2, "t");
  }

  lemma StartsAndBegins()
    ensures Start(World(2, Down, Resting0()), World(2, Idle, Resting0()))
    ensures BeginScan(World(2, Idle, Resting0()), World(2, Scanning(9), Begun1()))
  {
    assert Floor(Resting0()) == FLOOR_1;
  }

  lemma PartitionsOf1(t: TableState)
    requires t.folders == map[STREAM := {7}]
    ensures (set s | s in t.folders && s.version == 1 && t.folders[s] != {} :: s.partition) == {0}
  {
    assert STREAM in t.folders && STREAM.partition == 0 && 7 in t.folders[STREAM];
  }

  lemma PartitionsOf6(t: TableState)
    requires t.folders == map[STREAM := {7}]
    ensures (set s | s in t.folders && s.version == 6 && t.folders[s] != {} :: s.partition) == {}
  {
  }

  lemma Reads1()
    ensures WalkSchemas(2, Begun1(), Walked())
    ensures ListVersion(Walked(), Listed1(), 1)
    ensures ListVersion(Listed1(), Listed6(), 6)
  {
    assert Planned({1, 6}, 0, 2) == {1, 6} by {
      assert IsBaseline({1, 6}, 2, 1);
    }
    PartitionsOf1(Walked());
    PartitionsOf6(Listed1());
  }

  lemma ReadsDates()
    ensures ListDates(Listed6(), Dated7(), STREAM, [7])
  {
  }

  lemma IndexIsOne()
    ensures Index(THE_LOG, 7) == 1
  {
    assert THE_LOG[..0] == [];
  }

  lemma ReadsIndex()
    ensures ReadIndex(Dated7(), Indexed7(), STREAM, 7)
  {
    IndexIsOne();
    hide Index;
    var t, t2 := Dated7(), Indexed7();
    assert WithIndex(t.stage.index[STREAM], 7, 1) == map[7 := 1];
    assert t2.stage.index == t.stage.index[STREAM := map[7 := 1]];
    assert LogOf(t, STREAM) == THE_LOG;
    assert Read1(t, t2);
  }

  ghost predicate Read1(t: TableState, t2: TableState) {
    t.stage.Looking? && t2 == t.(stage := t.stage.(index := t.stage.index[STREAM := map[7 := 1]]))
  }

  lemma PlanOfStream()
    ensures StreamPlan(NO_NAME, [7], map[7 := 1]) == [Name(7, 1)]
  {
    assert Ascending(0, 1, 7) == [Name(7, 1)];
    assert [7][1..] == [];
  }

  lemma Plans()
    ensures MakePlan(2, Indexed7(), PlannedT(), [6])
  {
    PlanOfStream();
    hide StreamPlan;
    var t := Indexed7();
    assert LookedEverywhere(t);
    var queue := map s | s in t.stage.dates && s in t.stage.index :: StreamPlan(CursorOf(t.cursors, s), t.stage.dates[s], t.stage.index[s]);
    assert queue == map[STREAM := [Name(7, 1)]];
  }

  lemma NameIsFirst()
    ensures NameOf(THE_LOG, 0) == Name(7, 1) && Position(THE_LOG, Name(7, 1)) == 1
  {
    assert THE_LOG[..1] == THE_LOG && THE_LOG[..0] == [];
    assert Index(THE_LOG[..0], 7) == 0 && Index(THE_LOG[..1], 7) == 1;
  }

  lemma AllVisible()
    ensures Visible(THE_FILE, 2) == THE_FILE
  {
    NumbersRead();
    assert THE_FILE[1..] == [];
  }

  lemma OneIsFirst()
    ensures IsRowNumbering(THE_FILE, [1])
  {
    assert !TextLess("5", "5") by {
      assert "5"[1..] == "";
    }
  }

  lemma OneIsQualified()
    ensures Qualified(THE_FILE, [1]) == THE_FILE
  {
    assert THE_FILE[1..] == [] && [1][1..] == [];
  }

  lemma RowIsInserted()
    ensures MergeInto(map[], THE_FILE) == map[THE_KEY := OLD_ROW]
  {
    assert THE_FILE[1..] == [];
  }

  lemma MergesFile()
    ensures MergeStatement(map[], THE_FILE, 2, map[THE_KEY := OLD_ROW])
  {
    AllVisible();
    OneIsFirst();
    OneIsQualified();
    RowIsInserted();
    hide Visible, IsRowNumbering, Qualified, MergeInto;
    var rank: seq<nat> := [1];
    assert IsRowNumbering(Visible(THE_FILE, 2), rank);
  }

  lemma Merges()
    ensures MergeNext(2, PlannedT(), MergedT(), STREAM)
  {
    NameIsFirst();
    MergesFile();
    hide Position, NameOf, MergeStatement, Index;
    var t := PlannedT();
    assert THE_LOG[0].file == THE_FILE;
    assert FileNamed(LogOf(t, STREAM), Name(7, 1), THE_FILE);
    assert [Name(7, 1)][1..] == [];
    assert QueueOf(t.stage.queue, STREAM) == [Name(7, 1)];
    assert MergedT().stage.queue == t.stage.queue[STREAM := []];
    assert MergedT().cursors == t.cursors[STREAM := Name(7, 1)];
    assert MergedT().merged == t.merged[STREAM := 1];
  }

  lemma Adds()
    ensures ExecStatement(TheSource(), MergedT(), AddedT())
  {
    ColumnIsAdded();
    hide OnTable, RunOne;
  }

  lemma ColumnIsAdded()
    ensures OnTable(ADD_C, map[THE_KEY := OLD_ROW]) == map[THE_KEY := NEW_ROW]
    ensures RunOne(OLD, ADD_C.statement) == Some(NEW)
  {
  }

  lemma Marks()
    ensures MarkDdl(TheSource(), AddedT(), MarkedT())
  {
    assert [6][1..] == [];
  }

  lemma Persists()
    ensures PersistCursors(MarkedT(), DoneT())
  {
  }

  lemma Commits()
    ensures Commit(World(2, Scanning(9), DoneT()), World(9, Idle, CommittedT()))
  {
  }

  lemma Crashes()
    ensures Crash(World(2, Scanning(9), AddedT()), World(2, Down, CrashedT()))
  {
  }

  lemma GlobalStep(y: System, y2: System)
    requires Start(y, y2) || BeginScan(y, y2) || Commit(y, y2) || Crash(y, y2)
    ensures Next(TheSetup(), y, y2)
  {
  }

  ghost predicate EndsIn(run: seq<System>, y: System) {
    IsRun(TheSetup(), run) && run[|run| - 1] == y
  }

  lemma Grow(run: seq<System>, y: System, y2: System)
    requires EndsIn(run, y) && Next(TheSetup(), y, y2)
    ensures EndsIn(run + [y2], y2)
  {
    hide Init, Next;
  }

  lemma GrowTable(run: seq<System>, t: TableState, t2: TableState)
    requires EndsIn(run, World(2, Scanning(9), t)) && LoaderStep(TheSource(), 2, t, t2)
    ensures EndsIn(run + [World(2, Scanning(9), t2)], World(2, Scanning(9), t2))
  {
    hide EndsIn, LoaderStep, Next;
    TableTakesStep(2, Scanning(9), t, t2);
    Grow(run, World(2, Scanning(9), t), World(2, Scanning(9), t2));
  }

  lemma ScanBegins() returns (run: seq<System>)
    ensures EndsIn(run, World(2, Scanning(9), Begun1()))
  {
    RunBegins();
    StartsAndBegins();
    var y0, y1, y2 := World(2, Down, Resting0()), World(2, Idle, Resting0()), World(2, Scanning(9), Begun1());
    GlobalStep(y0, y1);
    GlobalStep(y1, y2);
    hide Init, Next, Start, BeginScan;
    run := [y0];
    Grow(run, y0, y1);
    run := run + [y1];
    Grow(run, y1, y2);
    run := run + [y2];
  }

  lemma ScanPlans() returns (run: seq<System>)
    ensures EndsIn(run, World(2, Scanning(9), PlannedT()))
  {
    run := ScanBegins();
    Reads1();
    ReadsDates();
    ReadsIndex();
    Plans();
    hide EndsIn, WalkSchemas, ListVersion, ListDates, ReadIndex, MakePlan, MergeNext, ExecStatement, MarkDdl, PersistCursors;
    var steps := [Begun1(), Walked(), Listed1(), Listed6(), Dated7(), Indexed7(), PlannedT()];
    for i := 0 to 6
      invariant EndsIn(run, World(2, Scanning(9), steps[i]))
    {
      GrowTable(run, steps[i], steps[i + 1]);
      run := run + [World(2, Scanning(9), steps[i + 1])];
    }
  }

  // A scan that reads the store, plans, merges the file and runs the DDL's statement.
  lemma StatementRuns() returns (run: seq<System>)
    ensures EndsIn(run, World(2, Scanning(9), AddedT()))
  {
    run := ScanPlans();
    Merges();
    Adds();
    hide EndsIn, WalkSchemas, ListVersion, ListDates, ReadIndex, MakePlan, MergeNext, ExecStatement, MarkDdl, PersistCursors;
    GrowTable(run, PlannedT(), MergedT());
    run := run + [World(2, Scanning(9), MergedT())];
    GrowTable(run, MergedT(), AddedT());
    run := run + [World(2, Scanning(9), AddedT())];
  }

  lemma ScanCommits() returns (run: seq<System>)
    ensures EndsIn(run, World(9, Idle, CommittedT()))
  {
    run := StatementRuns();
    Marks();
    Persists();
    Commits();
    hide EndsIn, WalkSchemas, ListVersion, ListDates, ReadIndex, MakePlan, MergeNext, ExecStatement, MarkDdl, PersistCursors, Commit;
    GrowTable(run, AddedT(), MarkedT());
    run := run + [World(2, Scanning(9), MarkedT())];
    GrowTable(run, MarkedT(), DoneT());
    run := run + [World(2, Scanning(9), DoneT())];
    GlobalStep(World(2, Scanning(9), DoneT()), World(9, Idle, CommittedT()));
    Grow(run, World(2, Scanning(9), DoneT()), World(9, Idle, CommittedT()));
    run := run + [World(9, Idle, CommittedT())];
  }

  lemma NewRowIsSource()
    ensures ValueAt(TheSource(), THE_KEY, 9) == Some(NEW_ROW)
  {
    var src := TheSource();
    assert ValueAt(src, THE_KEY, 5) == Some(OLD_ROW);
    assert [ADD_C][..0] == [] && OnRow([ADD_C], Some(OLD_ROW)) == Some(NEW_ROW);
    assert ValueAt(src, THE_KEY, 6) == Some(NEW_ROW);
    StandsStill(src, THE_KEY, 6, 9);
  }

  // There is a run that ends with the source's row, new column and all, and with the checkpoint
  // moved past it.
  lemma ARunCommits() returns (run: seq<System>)
    ensures IsRun(TheSetup(), run) && "t" in run[|run| - 1].tables
    ensures var y := run[|run| - 1];
            && y.checkpoint == 9 && y.tables["t"].durable == Durable(6, READ)
            && Lookup(y.tables["t"].rows, THE_KEY) == ValueAt(TheSource(), THE_KEY, 9) == Some(NEW_ROW)
  {
    run := ScanCommits();
    NewRowIsSource();
    hide IsRun, ValueAt;
  }

  // There is a run cut off between ADD COLUMN and its watermark, and no continuation of it gets the
  // table past that DDL.
  lemma ACrashIsFatal() returns (run: seq<System>)
    ensures IsRun(TheSetup(), run) && run[|run| - 1].process == Down
    ensures forall more, j | IsRun(TheSetup(), run + more) && |run| <= j < |run + more| ::
              "t" in (run + more)[j].tables && (run + more)[j].tables["t"].applied == 1 && (run + more)[j].tables["t"].durable.watermark == 0
  {
    run := CrashRuns();
    assert run != [];
    hide IsRun;
    forall more, j | IsRun(TheSetup(), run + more) && |run| <= j < |run + more|
      ensures "t" in (run + more)[j].tables && (run + more)[j].tables["t"].applied == 1
      ensures (run + more)[j].tables["t"].durable.watermark == 0
    {
      assert (run + more)[|run| - 1] == World(2, Down, CrashedT());
      NeverPast(run + more, |run| - 1, j);
    }
  }

  lemma NeverPast(run: seq<System>, at: nat, j: nat)
    requires IsRun(TheSetup(), run) && at <= j < |run| && run[at] == World(2, Down, CrashedT())
    ensures "t" in run[j].tables && run[j].tables["t"].applied == 1 && run[j].tables["t"].durable.watermark == 0
  {
    CrashedIsStuck();
    hide IsRun, Stuck;
    StuckForever(TheSetup(), run, at, j, "t");
  }

  lemma CrashedIsStuck()
    ensures Stuck(CrashedT())
  {
    var t := CrashedT();
    assert !Repeatable(t.partial[0].statement);
  }

  lemma CrashRuns() returns (run: seq<System>)
    ensures EndsIn(run, World(2, Down, CrashedT()))
  {
    run := StatementRuns();
    Crashes();
    hide EndsIn, MarkDdl, PersistCursors, Commit, Crash;
    GlobalStep(World(2, Scanning(9), AddedT()), World(2, Down, CrashedT()));
    Grow(run, World(2, Scanning(9), AddedT()), World(2, Down, CrashedT()));
    run := run + [World(2, Down, CrashedT())];
  }
}
