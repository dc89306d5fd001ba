// A group of related tasks on the worker pool (pkg/workerpool/pool.go).
module WorkerGroup {
  import opened Wrappers

  // What a task returns if it is executed; None is nil.
  datatype Task = Task(result: Option<string>)
  datatype Future = Future(task: Task)

  // A worker either executes a task or, once a context is done, answers with that context's error.
  datatype Fate = Ran | Skipped

  datatype Awaited = Awaited(future: Future, fate: Fate)

  predicate Succeeded(a: Awaited) { a.fate == Ran && a.future.task.result == None }

  function Answer(a: Awaited): Option<string> {
    if a.fate == Skipped then Some("context canceled") else a.future.task.result
  }

  function FuturesOf(awaited: seq<Awaited>): (fs: seq<Future>)
    ensures |fs| == |awaited| && forall i | 0 <= i < |fs| :: fs[i] == awaited[i].future
  {
    if awaited == [] then [] else FuturesOf(awaited[..|awaited| - 1]) + [awaited[|awaited| - 1].future]
  }

  predicate AllSucceeded(awaited: seq<Awaited>) { forall a | a in awaited :: Succeeded(a) }

  // Some task was executed and returned an error.
  predicate Blamed(awaited: seq<Awaited>) { exists a :: a in awaited && a.fate == Ran && a.future.task.result.Some? }

  lemma OneMore(before: seq<Awaited>, a: Awaited)
    ensures AllSucceeded(before + [a]) <==> AllSucceeded(before) && Answer(a).None?
    ensures FuturesOf(before + [a]) == FuturesOf(before) + [a.future]
    ensures Blamed(before + [a]) <==> Blamed(before) || (a.fate == Ran && a.future.task.result.Some?)
    ensures Answer(a).Some? ==> a.fate == Skipped || Blamed(before + [a])
  {
    assert a in before + [a];
    assert forall x | x in before :: x in before + [a];
    assert (before + [a])[..|before|] == before;
  }

  class Group {
    const limit: int
    var futures: seq<Future>
    var first: Option<string>
    var cancelled: bool
    // The pool's own context and the parent of the group's.
    var stopped: bool
    // History: tasks accepted, futures waited for with what became of them, whether the pool or Submit
    // turned a task away, and whether Cancel or Wait was called.
    var accepted: seq<Future>
    var awaited: seq<Awaited>
    var turnedAway: bool
    var refused: bool
    var closed: bool

    ghost predicate Valid()
      reads this
    {
      && accepted == FuturesOf(awaited) + futures
      && (limit > 0 ==> |futures| <= limit)
      && (first.None? <==> !turnedAway && AllSucceeded(awaited))
      && (refused ==> first.Some?)
      && (turnedAway ==> refused)
      && (first.Some? ==> cancelled)
      && HasCause()
    }

    // Unless somebody else ends it, the group fails only because a task did.
    ghost predicate HasCause()
      reads this
    {
      !closed ==> (cancelled ==> first.Some?) && (first.Some? && !stopped ==> Blamed(awaited))
    }

    constructor (limit: int)
      ensures Valid() && this.limit == limit && accepted == [] && !refused && !closed
    {
      this.limit := limit;
      futures, first, cancelled, stopped, accepted, awaited, turnedAway, refused, closed := [], None, false, false, [], [], false, false, false;
    }

    method Capture(err: Option<string>)
      modifies this`first, this`cancelled
      ensures first == if err.Some? && old(first).None? then err else old(first)
      ensures cancelled == (old(cancelled) || (err.Some? && old(first).None?))
    {
      if err.Some? && first.None? {
        first := err;
        cancelled := true;
      }
    }

    // Future.Wait: the worker has decided by then. It can only have skipped execution if a context
    // is done by now.
    method Await(future: Future) returns (a: Awaited)
      modifies this`stopped
      ensures a.future == future && (old(stopped) ==> stopped)
      ensures a.fate == Skipped ==> cancelled || stopped
    {
      var stop, skip: bool := *, *;
      stopped := stopped || stop;
      a := Awaited(future, if skip && (cancelled || stopped) then Skipped else Ran);
    }

    method Drain() returns (err: Option<string>)
      requires Valid()
      modifies this`futures, this`first, this`cancelled, this`stopped, this`awaited
      ensures Valid() && futures == [] && err == first
      ensures old(awaited) <= awaited && (old(first).Some? ==> first == old(first)) && (old(stopped) ==> stopped)
    {
      hide Blamed, AllSucceeded, Answer, FuturesOf;
      var i := 0;
      while i < |futures|
        invariant 0 <= i <= |futures| && futures == old(futures)
        invariant FuturesOf(awaited) == FuturesOf(old(awaited)) + futures[..i]
        invariant first.None? <==> !turnedAway && AllSucceeded(awaited)
        invariant (first.Some? ==> cancelled) && HasCause() && (old(stopped) ==> stopped)
        invariant old(awaited) <= awaited && (old(first).Some? ==> first == old(first))
      {
        var a := Await(futures[i]);
        OneMore(awaited, a);
        awaited := awaited + [a];
        Capture(Answer(a));
        i := i + 1;
      }
      futures := [];
      return first;
    }

    // Pool.Submit: blocks until a worker slot is free or a context is done.
    method PoolSubmit(task: Task) returns (r: Result<Future>)
      modifies this`stopped
      ensures old(stopped) ==> stopped
      ensures r.Err? ==> cancelled || stopped
      ensures r.Ok? ==> r.value == Future(task)
    {
      var stop, away: bool := *, *;
      stopped := stopped || stop;
      r := if away && (cancelled || stopped) then Err("context canceled") else Ok(Future(task));
    }

    method Submit(task: Task) returns (err: Option<string>)
      requires Valid()
      modifies this
      ensures Valid()
      ensures err.None? ==> accepted == old(accepted) + [Future(task)] && refused == old(refused)
      ensures err.Some? ==> accepted == old(accepted) && refused && first.Some?
      ensures closed == old(closed) && (old(stopped) ==> stopped) && old(awaited) <= awaited
    {
      if first.Some? {
        refused := true;
        return first;
      }
      if limit > 0 && |futures| >= limit {
        err := Drain();
        if err.Some? {
          refused := true;
          return;
        }
      }
      var future := PoolSubmit(task);
      if future.Err? {
        turnedAway, refused := true, true;
        Capture(Some(future.error));
        return first;
      }
      futures := futures + [future.value];
      accepted := accepted + [future.value];
      return None;
    }

    method Cancel()
      requires Valid()
      modifies this`cancelled, this`closed
      ensures Valid() && cancelled && closed
    {
      cancelled, closed := true, true;
    }

    // Wait succeeds exactly if no Submit failed and every accepted task was executed and returned
    // nil; no accepted task is left behind either way.
    method Wait() returns (err: Option<string>)
      requires Valid()
      modifies this
      ensures Valid() && FuturesOf(awaited) == accepted == old(accepted) && futures == []
      ensures err.None? <==> !refused && AllSucceeded(awaited)
      ensures err.Some? && !old(closed) && !stopped ==> Blamed(awaited)
      ensures refused == old(refused) && old(awaited) <= awaited && (old(stopped) ==> stopped)
    {
      err := Drain();
      cancelled, closed := true, true;
    }
  }

  function Tasks(results: seq<Option<string>>): (tasks: seq<Future>)
    ensures |tasks| == |results| && forall i | 0 <= i < |tasks| :: tasks[i] == Future(Task(results[i]))
  {
    if results == [] then [] else Tasks(results[..|results| - 1]) + [Future(Task(results[|results| - 1]))]
  }

  // processTables: submit one task per table, stop at the first refusal, wait. It succeeds only
  // if every table's task was executed and returned nil, so only then the checkpoint moves, and
  // otherwise a task failed or a context was `stopped`; when it returns, no task of any table is
  // still to run.
  method ProcessTables(results: seq<Option<string>>) returns (err: Option<string>, awaited: seq<Awaited>, stopped: bool)
    ensures err.Some? && !stopped ==> exists i :: 0 <= i < |results| && results[i].Some?
    ensures err.None? ==> FuturesOf(awaited) == Tasks(results) && AllSucceeded(awaited)
    ensures FuturesOf(awaited) <= Tasks(results)
    ensures AllSucceeded(awaited) && FuturesOf(awaited) == Tasks(results) ==> err.None?
  {
    hide Blamed, AllSucceeded;
    var group := new Group(0);
    err := None;
    var i := 0;
    while i < |results|
      invariant 0 <= i <= |results| && group.Valid() && fresh(group)
      invariant err.None? && !group.refused && !group.closed && group.accepted == Tasks(results[..i])
    {
      assert results[..i + 1][..i] == results[..i];
      err := group.Submit(Task(results[i]));
      if err.Some? {
        break;
      }
      i := i + 1;
    }
    assert results[..|results|] == results;
    TasksPrefix(results, i);
    var waited := group.Wait();
    awaited, stopped := group.awaited, group.stopped;
    BlamedIsResult(results, awaited);
    if waited.Some? && err.None? {
      err := waited;
    }
  }

  lemma {:induction false} TasksPrefix(results: seq<Option<string>>, n: nat)
    requires n <= |results|
    ensures Tasks(results[..n]) <= Tasks(results)
    ensures n < |results| ==> Tasks(results[..n]) != Tasks(results)
  {
  }

  lemma BlamedIsResult(results: seq<Option<string>>, awaited: seq<Awaited>)
    requires FuturesOf(awaited) <= Tasks(results)
    ensures Blamed(awaited) ==> exists i :: 0 <= i < |results| && results[i].Some?
  {
    if a :| a in awaited && a.fate == Ran && a.future.task.result.Some? {
      var i :| 0 <= i < |awaited| && awaited[i] == a;
      assert FuturesOf(awaited)[i] == Tasks(results)[i];
      assert results[i].Some?;
    }
  }

  lemma BlameStays(some: seq<Awaited>, all: seq<Awaited>)
    requires some <= all && Blamed(some)
    ensures Blamed(all)
  {
    var a :| a in some && a.fate == Ran && a.future.task.result.Some?;
    assert a in all;
  }
}
