// Loading the snapshot (snapshot/loader.go): every table is replaced, then every data file is
// copied, any number of times until an attempt succeeds.
module SnapshotLoad {
  import opened Wrappers
  import opened WorkerGroup

  type Row = string
  type Rows = multiset<Row>

  // A data file and the table it belongs to.
  datatype File = File(table: string, rows: Rows)

  datatype Step = Replace(table: string) | Copy(file: File)

  type Tables = map<string, Rows>

  // CREATE OR REPLACE TABLE, COPY INTO.
  function Do(t: Tables, s: Step): Tables {
    match s
    case Replace(name) => t[name := multiset{}]
    case Copy(f) => if f.table in t then t[f.table := t[f.table] + f.rows] else t
  }

  function DoAll(t: Tables, steps: seq<Step>): Tables {
    if steps == [] then t else Do(DoAll(t, steps[..|steps| - 1]), steps[|steps| - 1])
  }

  lemma {:induction false} DoOn(t: Tables, a: seq<Step>, b: seq<Step>)
    ensures DoAll(t, a + b) == DoAll(DoAll(t, a), b)
  {
    if b == [] {
      assert a + b == a;
    } else {
      assert (a + b)[..|a + b| - 1] == a + b[..|b| - 1];
      DoOn(t, a, b[..|b| - 1]);
    }
  }

  // The rows of a table's files.
  function RowsOf(files: seq<File>, table: string): Rows {
    if files == [] then multiset{}
    else RowsOf(files[..|files| - 1], table) + if files[|files| - 1].table == table then files[|files| - 1].rows else multiset{}
  }

  // The rows the copies among these steps bring.
  function RowsIn(steps: seq<Step>, table: string): Rows {
    if steps == [] then multiset{}
    else
      var s := steps[|steps| - 1];
      RowsIn(steps[..|steps| - 1], table) + if s.Copy? && s.file.table == table then s.file.rows else multiset{}
  }

  lemma WithoutOne(steps: seq<Step>, i: nat, table: string)
    requires i < |steps|
    ensures var rest := steps[..i] + steps[i + 1..];
            && multiset(steps) == multiset(rest) + multiset{steps[i]}
            && RowsIn(steps, table) == RowsIn(rest, table) + RowsIn([steps[i]], table)
  {
    var s := [steps[i]];
    assert steps == steps[..i] + (s + steps[i + 1..]);
    RowsInSum(steps[..i], s + steps[i + 1..], table);
    RowsInSum(s, steps[i + 1..], table);
    RowsInSum(steps[..i], steps[i + 1..], table);
  }

  lemma LastAndRest(a: seq<Step>)
    requires a != []
    ensures multiset(a) == multiset(a[..|a| - 1]) + multiset{a[|a| - 1]} && a[|a| - 1] in multiset(a)
  {
    assert a == a[..|a| - 1] + [a[|a| - 1]];
  }

  // Tasks of one phase finish in any order.
  lemma {:induction false} OrderDoesNotMatter(a: seq<Step>, b: seq<Step>, table: string)
    requires multiset(a) == multiset(b)
    ensures RowsIn(a, table) == RowsIn(b, table)
  {
    if a == [] {
      assert |multiset(b)| == |b|;
    } else {
      LastAndRest(a);
      var n := |a| - 1;
      var i :| 0 <= i < |b| && b[i] == a[n];
      WithoutOne(b, i, table);
      SameRest(multiset(a[..n]), multiset(b[..i] + b[i + 1..]), a[n]);
      OrderDoesNotMatter(a[..n], b[..i] + b[i + 1..], table);
      assert [a[n]][..0] == [];
    }
  }

  lemma SameRest(a: multiset<Step>, b: multiset<Step>, s: Step)
    requires a + multiset{s} == b + multiset{s}
    ensures a == b
  {
    assert a == a + multiset{s} - multiset{s};
    assert b == b + multiset{s} - multiset{s};
  }

  lemma {:induction false} RowsInSum(a: seq<Step>, b: seq<Step>, table: string)
    ensures RowsIn(a + b, table) == RowsIn(a, table) + RowsIn(b, table)
  {
    if b == [] {
      assert a + b == a;
    } else {
      assert (a + b)[..|a + b| - 1] == a + b[..|b| - 1];
      RowsInSum(a, b[..|b| - 1], table);
    }
  }

  function Replaces(tables: seq<string>): (steps: seq<Step>)
    ensures |steps| == |tables| && forall i | 0 <= i < |tables| :: steps[i] == Replace(tables[i])
  {
    if tables == [] then [] else Replaces(tables[..|tables| - 1]) + [Replace(tables[|tables| - 1])]
  }

  function Copies(files: seq<File>): (steps: seq<Step>)
    ensures |steps| == |files| && forall i | 0 <= i < |files| :: steps[i] == Copy(files[i])
  {
    if files == [] then [] else Copies(files[..|files| - 1]) + [Copy(files[|files| - 1])]
  }

  lemma {:induction false} RowsInCopies(files: seq<File>, table: string)
    ensures RowsIn(Copies(files), table) == RowsOf(files, table)
  {
    if files != [] {
      RowsInCopies(files[..|files| - 1], table);
    }
  }

  lemma {:induction false} ReplacedIsEmpty(t: Tables, steps: seq<Step>, name: string)
    requires (forall s | s in steps :: s.Replace?) && Replace(name) in steps
    ensures name in DoAll(t, steps) && DoAll(t, steps)[name] == multiset{}
  {
    var n := |steps| - 1;
    assert steps == steps[..n] + [steps[n]];
    if steps[n] != Replace(name) {
      ReplacedIsEmpty(t, steps[..n], name);
    }
  }

  lemma {:induction false} CopiesAdd(t: Tables, steps: seq<Step>, name: string)
    requires name in t && forall s | s in steps :: s.Copy?
    ensures name in DoAll(t, steps) && DoAll(t, steps)[name] == t[name] + RowsIn(steps, name)
  {
    if steps != [] {
      CopiesAdd(t, steps[..|steps| - 1], name);
    }
  }

  // ----- What the tasks of a group have done -----

  // The work of those tasks that did it.
  function Chosen(work: seq<Step>, did: seq<bool>): seq<Step>
    requires |did| <= |work|
  {
    if did == [] then []
    else Chosen(work, did[..|did| - 1]) + if did[|did| - 1] then [work[|did| - 1]] else []
  }

  // A task that succeeds has done its work, one that is skipped has not, and one that fails may have.
  ghost predicate Fits(awaited: seq<Awaited>, did: seq<bool>) {
    && |did| == |awaited|
    && forall i | 0 <= i < |awaited| :: (Succeeded(awaited[i]) ==> did[i]) && (awaited[i].fate == Skipped ==> !did[i])
  }

  // The steps a group of tasks has taken once all of them have been waited for, in any order.
  ghost predicate Took(awaited: seq<Awaited>, work: seq<Step>, steps: seq<Step>) {
    && |awaited| <= |work|
    && exists did: seq<bool> :: Fits(awaited, did) && multiset(steps) == multiset(Chosen(work, did))
  }

  lemma {:induction false} ChosenAll(work: seq<Step>, did: seq<bool>)
    requires |did| <= |work| && forall i | 0 <= i < |did| :: did[i]
    ensures Chosen(work, did) == work[..|did|]
  {
    if did != [] {
      ChosenAll(work, did[..|did| - 1]);
    }
  }

  // A group all of whose tasks succeed has done all of its work, each piece once.
  lemma AllTaken(awaited: seq<Awaited>, work: seq<Step>, steps: seq<Step>)
    requires Took(awaited, work, steps) && |awaited| == |work| && AllSucceeded(awaited)
    ensures multiset(steps) == multiset(work)
  {
    var did: seq<bool> :| Fits(awaited, did) && multiset(steps) == multiset(Chosen(work, did));
    forall i | 0 <= i < |did| ensures did[i] {
      assert awaited[i] in awaited;
    }
    ChosenAll(work, did);
    assert work[..|did|] == work;
  }

  lemma {:induction false} ChosenNone(work: seq<Step>, did: seq<bool>)
    requires |did| <= |work| && forall i | 0 <= i < |did| :: !did[i]
    ensures Chosen(work, did) == []
  {
    if did != [] {
      ChosenNone(work, did[..|did| - 1]);
    }
  }

  lemma {:induction false} ChosenOne(work: seq<Step>, did: seq<bool>, i: nat)
    requires |did| <= |work| && i < |did| && !did[i]
    ensures multiset(Chosen(work, did[i := true])) == multiset(Chosen(work, did)) + multiset{work[i]}
  {
    var n := |did| - 1;
    if i < n {
      ChosenOne(work, did[..n], i);
      assert did[i := true][..n] == did[..n][i := true];
    } else {
      assert did[i := true][..n] == did[..n];
    }
  }

  function Below(n: nat): (s: set<nat>)
    ensures forall i: nat :: i in s <==> i < n
  {
    if n == 0 then {} else Below(n - 1) + {n - 1}
  }

  // Some tasks of the group are still to come.
  ghost predicate Partly(awaited: seq<Awaited>, work: seq<Step>, todo: set<nat>, did: seq<bool>, taken: seq<Step>) {
    && |did| == |awaited| <= |work| && (forall i: nat | i in todo :: i < |did| && !did[i])
    && (forall i | 0 <= i < |awaited| && i !in todo ::
          (Succeeded(awaited[i]) ==> did[i]) && (awaited[i].fate == Skipped ==> !did[i]))
    && multiset(taken) == multiset(Chosen(work, did))
  }

  lemma PartlyStart(awaited: seq<Awaited>, work: seq<Step>) returns (did: seq<bool>)
    requires |awaited| <= |work|
    ensures |did| == |awaited| && Partly(awaited, work, Below(|awaited|), did, [])
  {
    did := seq(|awaited|, i => false);
    ChosenNone(work, did);
  }

  lemma PartlyNext(awaited: seq<Awaited>, work: seq<Step>, todo: set<nat>, did: seq<bool>, taken: seq<Step>, i: nat, now: bool)
    requires Partly(awaited, work, todo, did, taken) && i in todo
    requires (Succeeded(awaited[i]) ==> now) && (awaited[i].fate == Skipped ==> !now)
    ensures Partly(awaited, work, todo - {i}, did[i := now], if now then taken + [work[i]] else taken)
  {
    hide Chosen, Succeeded;
    if now {
      ChosenOne(work, did, i);
    } else {
      assert did[i := now] == did;
    }
  }

  lemma PartlyEnd(awaited: seq<Awaited>, work: seq<Step>, did: seq<bool>, taken: seq<Step>)
    requires Partly(awaited, work, {}, did, taken)
    ensures Took(awaited, work, taken)
  {
    assert Fits(awaited, did);
  }

  // Snowflake: the tables and, as history, the steps taken.
  class Warehouse {
    var tables: Tables
    var steps: seq<Step>

    constructor (tables: Tables)
      ensures this.tables == tables && steps == []
    {
      this.tables, steps := tables, [];
    }

    method Take(s: Step)
      modifies this
      ensures tables == Do(old(tables), s) && steps == old(steps) + [s]
    {
      tables, steps := Do(tables, s), steps + [s];
    }

    // The workers take the tasks in any order. A task that fails may have had its effect.
    method Work(awaited: seq<Awaited>, work: seq<Step>)
      requires |awaited| <= |work|
      modifies this
      ensures exists taken :: Took(awaited, work, taken) && steps == old(steps) + taken && tables == DoAll(old(tables), taken)
    {
      hide Partly, Took, Chosen;
      var todo := Below(|awaited|);
      ghost var did := PartlyStart(awaited, work);
      ghost var taken := [];
      while todo != {}
        invariant Partly(awaited, work, todo, did, taken) && |did| == |awaited| && forall i: nat | i in todo :: i < |awaited|
        invariant steps == old(steps) + taken && tables == DoAll(old(tables), taken)
        decreases |todo|
      {
        var i :| i in todo;
        var reached: bool := *;
        var now := Succeeded(awaited[i]) || (awaited[i].fate == Ran && reached);
        PartlyNext(awaited, work, todo, did, taken, i, now);
        if now {
          Take(work[i]);
          assert (taken + [work[i]])[..|taken|] == taken;
          taken := taken + [work[i]];
        }
        did, todo := did[i := now], todo - {i};
      }
      PartlyEnd(awaited, work, did, taken);
    }
  }

  // prepareTables and loadFiles: a group of tasks, one for each piece of work; `broken` is how far
  // the listing of files gets, if it fails. It fails exactly if the listing or a task does; a task fails
  // by its result or, if a context was `stopped`, unexecuted. When it returns, every task that was
  // accepted has been waited for, and no other was.
  method RunGroup(work: seq<Step>, results: seq<Option<string>>, limit: int, broken: Option<nat>)
    returns (err: Option<string>, accepted: seq<Future>, awaited: seq<Awaited>, stopped: bool)
    requires |results| == |work|
    ensures err.Some? && !stopped ==> broken.Some? || exists i :: 0 <= i < |results| && results[i].Some?
    ensures FuturesOf(awaited) == accepted <= Tasks(results)
    ensures err.None? <==> broken.None? && accepted == Tasks(results) && AllSucceeded(awaited)
  {
    hide Blamed, AllSucceeded;
    var group := new Group(limit);
    err := SubmitAll(group, results, broken);
    ghost var before := group.awaited;
    if err.Some? {
      group.Cancel();
    }
    var waited := group.Wait();
    accepted, awaited, stopped := group.accepted, group.awaited, group.stopped;
    BlamedIsResult(results, awaited);
    if Blamed(before) {
      BlameStays(before, awaited);
    }
    if waited.Some? && err.None? {
      err := waited;
    }
  }

  // The loop that submits, up to the first refusal or the end of the listing.
  method SubmitAll(group: Group, results: seq<Option<string>>, broken: Option<nat>) returns (err: Option<string>)
    requires group.Valid() && group.accepted == [] && !group.refused && !group.closed
    modifies group
    ensures group.Valid() && !group.closed && group.accepted <= Tasks(results)
    ensures err.None? <==> broken.None? && !group.refused
    ensures err.None? ==> group.accepted == Tasks(results)
    ensures group.refused ==> group.accepted != Tasks(results)
    ensures broken.None? && group.refused && !group.stopped ==> Blamed(group.awaited)
  {
    hide Blamed, AllSucceeded;
    err := None;
    var i := 0;
    while i < |results|
      invariant 0 <= i <= |results| && group.Valid()
      invariant err.None? && !group.refused && !group.closed && group.accepted == Tasks(results[..i])
    {
      assert results[..i + 1][..i] == results[..i];
      TasksPrefix(results, i);
      if broken == Some(i) {
        return Some("list");
      }
      err := group.Submit(WorkerGroup.Task(results[i]));
      if err.Some? {
        return;
      }
      i := i + 1;
    }
    assert results[..|results|] == results;
    if broken.Some? {
      err := Some("list");
    }
  }

  const MAX_IN_FLIGHT := 64

  // The steps that a group's tasks may have taken: those of its accepted tasks, each at most once,
  // and of every one that succeeded.
  ghost predicate TookOf(results: seq<Option<string>>, work: seq<Step>, steps: seq<Step>) {
    exists awaited: seq<Awaited> :: FuturesOf(awaited) <= Tasks(results) && Took(awaited, work, steps)
  }

  lemma NothingTook(results: seq<Option<string>>, work: seq<Step>)
    ensures TookOf(results, work, [])
  {
    var none: seq<Awaited>, did: seq<bool> := [], [];
    assert Fits(none, did);
    assert Took(none, work, []);
    assert FuturesOf(none) <= Tasks(results);
  }

  // Load, from whatever earlier attempts have left behind. If it succeeds, every configured table
  // holds the rows of its files, each exactly once. If it fails, nothing of it is still to come:
  // what it has done is what tasks of its two groups took, first those that replace tables and, only
  // if all of them succeeded, those that copy files. It fails only if a task or the listing does, or a
  // context was `stopped`.
  method Load(w: Warehouse, tables: seq<string>, files: seq<File>, prepared: seq<Option<string>>, copied: seq<Option<string>>, broken: Option<nat>)
    returns (err: Option<string>, stopped: bool)
    requires |prepared| == |tables| && |copied| == |files|
    modifies w
    ensures !stopped ==> (err.None? <==> broken.None? && AllNone(prepared) && AllNone(copied))
    ensures err.None? ==> forall name | name in tables :: name in w.tables && w.tables[name] == RowsOf(files, name)
    ensures exists first, second ::
              && TookOf(prepared, Replaces(tables), first) && TookOf(copied, Copies(files), second)
              && (second != [] ==> multiset(first) == multiset(Replaces(tables)))
              && w.steps == old(w.steps) + (first + second) && w.tables == DoAll(old(w.tables), first + second)
  {
    hide Took, DoAll, RowsOf, AllSucceeded, TookOf;
    var accepted, awaited;
    err, accepted, awaited, stopped := RunGroup(Replaces(tables), prepared, 0, None);
    w.Work(awaited, Replaces(tables));
    ghost var first :| Took(awaited, Replaces(tables), first) && w.steps == old(w.steps) + first && w.tables == DoAll(old(w.tables), first);
    IsTook(prepared, awaited, Replaces(tables), first);
    if err.Some? {
      NothingTook(copied, Copies(files));
      assert first + [] == first;
      return;
    }
    AllTaken(awaited, Replaces(tables), first);
    ResultsNone(prepared, awaited);
    label Prepared:
    var stopped2;
    err, accepted, awaited, stopped2 := RunGroup(Copies(files), copied, MAX_IN_FLIGHT, broken);
    stopped := stopped || stopped2;
    w.Work(awaited, Copies(files));
    ghost var second :| Took(awaited, Copies(files), second) && w.steps == old@Prepared(w.steps) + second
                        && w.tables == DoAll(old@Prepared(w.tables), second);
    IsTook(copied, awaited, Copies(files), second);
    DoOn(old(w.tables), first, second);
    assert w.steps == old(w.steps) + (first + second);
    if err.None? {
      AllTaken(awaited, Copies(files), second);
      ResultsNone(copied, awaited);
      EveryTableOnce(old(w.tables), first, second, tables, files);
    }
  }

  predicate AllNone(results: seq<Option<string>>) { forall i | 0 <= i < |results| :: results[i].None? }

  lemma ResultsNone(results: seq<Option<string>>, awaited: seq<Awaited>)
    requires FuturesOf(awaited) == Tasks(results) && AllSucceeded(awaited)
    ensures AllNone(results)
  {
    forall i | 0 <= i < |results| ensures results[i].None? {
      assert awaited[i] in awaited && FuturesOf(awaited)[i] == Tasks(results)[i];
    }
  }

  lemma IsTook(results: seq<Option<string>>, awaited: seq<Awaited>, work: seq<Step>, steps: seq<Step>)
    requires FuturesOf(awaited) <= Tasks(results) && Took(awaited, work, steps)
    ensures TookOf(results, work, steps)
  {
  }

  // Only steps of the group's work are taken, and none more often than it is there.
  lemma TookIsWork(results: seq<Option<string>>, work: seq<Step>, steps: seq<Step>)
    requires TookOf(results, work, steps)
    ensures multiset(steps) <= multiset(work)
  {
    var awaited: seq<Awaited> :| FuturesOf(awaited) <= Tasks(results) && Took(awaited, work, steps);
    var did: seq<bool> :| Fits(awaited, did) && multiset(steps) == multiset(Chosen(work, did));
    hide Took, Fits, Chosen;
    ChosenIsWork(work, did);
    PrefixIsLess(work, |did|);
  }

  lemma PrefixIsLess(work: seq<Step>, n: nat)
    requires n <= |work|
    ensures multiset(work[..n]) <= multiset(work)
  {
    assert work == work[..n] + work[n..];
  }

  lemma {:induction false} ChosenIsWork(work: seq<Step>, did: seq<bool>)
    requires |did| <= |work|
    ensures multiset(Chosen(work, did)) <= multiset(work[..|did|])
  {
    if did != [] {
      var n := |did| - 1;
      ChosenIsWork(work, did[..n]);
      assert work[..n + 1] == work[..n] + [work[n]];
    }
  }

  lemma EveryTableOnce(t: Tables, first: seq<Step>, second: seq<Step>, tables: seq<string>, files: seq<File>)
    requires multiset(first) == multiset(Replaces(tables)) && multiset(second) == multiset(Copies(files))
    ensures forall name | name in tables :: name in DoAll(t, first + second) && DoAll(t, first + second)[name] == RowsOf(files, name)
  {
    forall name | name in tables ensures name in DoAll(t, first + second) && DoAll(t, first + second)[name] == RowsOf(files, name) {
      SnapshotRowsOnce(t, first, second, tables, files, name);
    }
  }

  // The two phases, in any order of their tasks.
  lemma SnapshotRowsOnce(t: Tables, first: seq<Step>, second: seq<Step>, tables: seq<string>, files: seq<File>, name: string)
    requires multiset(first) == multiset(Replaces(tables)) && multiset(second) == multiset(Copies(files)) && name in tables
    ensures name in DoAll(t, first + second) && DoAll(t, first + second)[name] == RowsOf(files, name)
  {
    hide DoAll, RowsIn, RowsOf;
    DoOn(t, first, second);
    SameMembers(first, Replaces(tables));
    SameMembers(second, Copies(files));
    var i :| 0 <= i < |tables| && tables[i] == name;
    assert Replaces(tables)[i] == Replace(name);
    ReplacedIsEmpty(t, first, name);
    CopiesAdd(DoAll(t, first), second, name);
    OrderDoesNotMatter(second, Copies(files), name);
    RowsInCopies(files, name);
  }

  lemma SameMembers(a: seq<Step>, b: seq<Step>)
    requires multiset(a) == multiset(b)
    ensures forall s :: s in a <==> s in b
  {
    forall s ensures s in a <==> s in b {
      assert s in multiset(a) <==> s in multiset(b);
    }
  }
}
