/** The task of a process: what the context resumes, and whole runs of it. */
module ProcessTasks {
  import opened Options
  import opened Scripts
  import opened LateEnds
  import opened Coroutines

  /** The waits among these events, in order. */
  function Waits(es: seq<Event>): seq<int> {
    if es == [] then []
    else (if es[0].Waited? then [es[0].w] else []) + Waits(es[1..])
  }

  lemma {:induction false} WaitsJoin(a: seq<Event>, b: seq<Event>)
    ensures Waits(a + b) == Waits(a) + Waits(b)
    decreases |a|
  {
    if a == [] {
      assert a + b == b;
    } else {
      var one := if a[0].Waited? then [a[0].w] else [];
      assert (a + b)[0] == a[0] && (a + b)[1..] == a[1..] + b;
      WaitsJoin(a[1..], b);
      assert one + (Waits(a[1..]) + Waits(b)) == one + Waits(a[1..]) + Waits(b);
    }
  }

  lemma {:induction false} SilentRun(q: seq<Event>)
    requires Silent(q)
    ensures Waits(q) == [] && !HasLate(q)
  {
    if q != [] {
      SilentRun(q[1..]);
    }
  }

  function Answer(wait: Option<int>): seq<Event> {
    if wait.Some? then [Waited(wait.value)] else []
  }

  /** From `before`, a resume that returned `wait` brought the log to `now`: the body did
      not wait in between, and no for-each saw a late end. */
  ghost predicate Resumed(before: seq<Event>, now: seq<Event>, wait: Option<int>) {
    exists q :: Silent(q) && now == before + q + Answer(wait)
  }

  lemma ResumedMeans(before: seq<Event>, now: seq<Event>, wait: Option<int>)
    requires Resumed(before, now, wait)
    ensures before <= now && (wait.Some? ==> |before| < |now|)
    ensures Waits(now) == Waits(before) + (if wait.Some? then [wait.value] else [])
    ensures HasLate(now) == HasLate(before)
  {
    var q :| Silent(q) && now == before + q + Answer(wait);
    SilentRun(q);
    WaitsJoin(before, q);
    WaitsJoin(before + q, Answer(wait));
    ShapeJoin(before, q);
    ShapeJoin(before + q, Answer(wait));
  }

  /** What a chain at rest looks like through its pointers. */
  lemma AtRestFacts(c: seq<Activation>, process: ProcessPromise)
    requires AtRest(c, process) && c[0].promise.kind == Process
    ensures c != []
    ensures forall i :: 0 <= i < |c| ==> c[i].promise in Promises(c) && !c[i].promise.finished
    ensures forall i, j :: 0 <= i < j < |c| ==> c[i].promise != c[j].promise
    ensures forall i :: 0 < i < |c| ==>
      && c[i].promise.parent == c[i - 1].promise && c[i - 1].promise.subCoroutineChild == c[i].promise
      && c[i].promise.processPromise == process && c[i].promise.kind != Process
    ensures |c| == 1 <==> Last(c).promise.kind == Process
    ensures Last(c).promise in Foot(c)
  {
    hide AllQuiet, TidyAll, Promises, OwnedAll, TypedCode;
    forall i | 0 < i < |c|
      ensures c[i].promise.processPromise == process && c[i].promise.kind != Process
    {
      assert Awaits(c[i - 1], c[i]);
      assert Level(c[i].promise, process) == Level(c[0].promise, process);
    }
  }

  /** How the run of a process may end, and what is then left of what it had to do. */
  lemma ProcessRan(root: Promise, total: Run, q: seq<Event>, out: Outcome, process: ProcessPromise,
          logged: seq<Event>, plan: seq<Event>)
    requires Ran(root, total, q, out, process) && root.kind == Process && logged + total.events == plan
    ensures Silent(q) && !out.Yielded?
    ensures out.Finished? ==> root.finished && logged + q == plan
    ensures out.Lost? ==> logged + q + [Ended(true)] <= plan
    ensures out.Suspended? ==>
      && out.chain != [] && AtRest(out.chain, process) && out.chain[0].promise == root
      && Last(out.chain).promise.waiting == Some(out.wait)
      && logged + Logged(q, out) + Remaining(out.chain).events == plan
  {
    hide AtRest, Remaining, Silent;
    match out
    case Finished =>
      assert q + [] == q;
    case Lost =>
      var done := q + [Ended(true)];
      Regroup(logged, done, total.events[|done|..]);
      assert done + total.events[|done|..] == total.events;
      Regroup(logged, q, [Ended(true)]);
    case Suspended(w, c) =>
      Regroup(q, [Waited(w)], Remaining(c).events);
      Regroup(logged, q + [Waited(w)], Remaining(c).events);
    case Yielded(_) =>
  }

  lemma NoFoot()
    ensures Foot([]) == {}
  {
  }

  /** `bodies` are the suspended bodies of the frames from the root down, `plan` is what
      the plain semantics says the process does. */
  class ProcessTask {
    const root: Promise
    const promise: ProcessPromise
    const log: Log
    ghost const plan: seq<Event>
    var bodies: seq<Activation>
    var done: bool
    ghost var lost: bool

    ghost predicate Valid()
      reads this, root, promise, log, Foot(bodies)
    {
      && root.kind == Process && log.events <= plan
      && if done then log.events == plan
         else if lost then log.events + [Ended(true)] <= plan
         else
           && Resumable() && log.events + Remaining(bodies).events == plan
    }

    /** The context may resume the last body of the chain. */
    ghost predicate Resumable()
      reads this, promise, Foot(bodies)
    {
      && Chain(bodies, promise) && bodies[0].promise == root
      && Last(bodies).promise in Foot(bodies)
      && Last(bodies).awaiting == Nothing && Last(bodies).promise.subCoroutineChild == null
      && promise.nextChild == if |bodies| == 1 then null else Last(bodies).promise
    }

    /** How an unfinished process stands before the context: children and parents are
        inverse along a chain without repetition, every frame below the root carries the
        process, the last one is to be resumed next, and its wait is the one returned. */
    ghost predicate AtContext(wait: Option<int>)
      reads this, root, promise, Promises(bodies)
    {
      && bodies != [] && bodies[0].promise == root
      && (forall i :: 0 <= i < |bodies| ==> bodies[i].promise in Promises(bodies))
      && (forall i, j :: 0 <= i < j < |bodies| ==> bodies[i].promise != bodies[j].promise)
      && (forall i :: 0 < i < |bodies| ==>
            && bodies[i].promise.parent == bodies[i - 1].promise
            && bodies[i - 1].promise.subCoroutineChild == bodies[i].promise
            && bodies[i].promise.processPromise == promise)
      && Last(bodies).promise.subCoroutineChild == null
      && promise.nextChild == (if |bodies| == 1 then null else Last(bodies).promise)
      && wait.Some? && Last(bodies).promise.waiting == wait
    }

    constructor (b: Body, x: int)
      requires WellTyped(b, false)
      ensures Valid() && !done && !lost && log.events == [] && plan == Plain(b, x).events
      ensures fresh(promise) && fresh(log) && fresh(root) && fresh(Foot(bodies))
    {
      var p := new Promise(Process);
      var process := new ProcessPromise();
      var l := new Log();
      root, promise, log, plan := p, process, l, Plain(b, x).events;
      bodies := [Activation(p, Nothing, Append(b, Halt), x)];
      done, lost := false, false;
      new;
      AppendOwns(b, Halt);
      AppendTyped(b, Halt, false);
      CallMeans(b, Halt, x);
      StartReady(p, Append(b, Halt), x, process);
      assert Running([], p, Append(b, Halt), x) == bodies;
      assert [] + plan == plan && bodies[..0] == [];
    }

    lemma WhatResumes()
      requires Resumable()
      ensures bodies != [] && root in Foot(bodies)
      ensures var u, up := Last(bodies), bodies[..|bodies| - 1];
        && Running(up, u.promise, u.code, u.local) == bodies && Top(up, u.promise) == root
        && Remaining(bodies) == Wrap(up, Meaning(u.code, u.local))
        && u.promise == if promise.nextChild != null then promise.nextChild else root
    {
      hide Apart, Linked, AllQuiet, Meaning, Wrap;
      var u, up := Last(bodies), bodies[..|bodies| - 1];
      assert up + [u] == bodies;
    }

    /** A process whose chain has come to rest can be resumed again. */
    lemma AtRestIsResumable(w: int)
      requires AtRest(bodies, promise) && bodies[0].promise == root && root.kind == Process
      requires Last(bodies).promise.waiting == Some(w)
      requires promise.nextChild == if Last(bodies).promise.kind == Process then null else Last(bodies).promise
      ensures Resumable() && AtContext(Some(w)) && !root.finished
      ensures promise.nextChild == null ==> Last(bodies).promise == root
    {
      AtRestFacts(bodies, promise);
      hide AllQuiet, TidyAll, OwnedAll;
      assert bodies[0].promise == root;
    }

    /** The pending wait of the process is over. */
    method ClearWaiting()
      requires Valid() && !done && !lost
      modifies root`waiting, promise
      ensures root.waiting == None && promise.nextChild == null
      ensures var u := Last(bodies); Ready(bodies[..|bodies| - 1], u.promise, u.code, u.local, promise)
    {
      var u, up := Last(bodies), bodies[..|bodies| - 1];
      assert up + [u] == bodies == Running(up, u.promise, u.code, u.local);
      assert allocated(OwnedAll(bodies));
      assert root in Promises(bodies);
      hide Apart, Promises, OwnedAll, Meaning, Wrap;
      root.waiting := None;
      promise.nextChild := null;
      assert AllQuiet(bodies, Level(bodies[0].promise, promise));
    }

    /** `ProcessTask::resume`. A wait is returned exactly when the process suspended. With
        none returned, either it is done, and did all of `plan`, or it is not done and its
        next step would have been a late end. */
    method Resume() returns (wait: Option<int>)
      requires Valid() && !done && !lost
      modifies this`bodies, this`done, this`lost, promise, log, Foot(bodies)
      ensures Valid() && Resumed(old(log.events), log.events, wait)
      ensures wait.Some? ==> !done && !lost && AtContext(wait)
      ensures wait.None? ==> done != lost
      ensures forall o :: o in Foot(bodies) ==> o in old(Foot(bodies)) || fresh(o)
    {
      hide Chain, AtRest, Owned, OwnedAll, Promises, Remaining, Meaning, Wrap, Ran, Silent, Ready, Linked, Apart,
           Foot, Running, Resumable, AtContext;
      WhatResumes();
      ghost var foot := Foot(bodies);
      var child := promise.nextChild;
      ClearWaiting();
      var u, up := Last(bodies), bodies[..|bodies| - 1];
      var frame := if child != null then child else root;
      ghost var total := Remaining(bodies);
      LevelFacts(up, frame, u.code, u.local, promise);
      var out, q := Execute(up, frame, u.code, u.local, promise, log, total);
      ProcessRan(root, total, q, out, promise, old(log.events), plan);
      assert out.Suspended? ==> allocated(Foot(out.chain));
      bodies := if out.Suspended? then out.chain else [];
      lost := out.Lost?;
      if out.Suspended? {
        AtRestIsResumable(out.wait);
      } else {
        NoFoot();
      }
      if root.finished {
        done := true;
        wait := None;
      } else if promise.nextChild != null {
        wait := promise.nextChild.waiting;
      } else {
        wait := root.waiting;
      }
      assert log.events == old(log.events) + q + Answer(wait);
    }
  }

  lemma LateInPrefix(es: seq<Event>, plan: seq<Event>)
    requires es + [Ended(true)] <= plan
    ensures HasLate(plan)
  {
    var rest := plan[|es| + 1..];
    assert plan == es + [Ended(true)] + rest;
    ShapeJoin(es + [Ended(true)], rest);
    ShapeJoin(es, [Ended(true)]);
  }

  /** A whole run: the process is resumed whenever the wait it returned is over. It does
      exactly what plain nested calls and plain pull iterators would, in the same order,
      if and only if no generator ends late. If one does, the resume that comes to the first
      late end returns no wait, and yet the task is not done. The context tests only for
      done and then reads the wait through a null pointer (eslang/Context.cpp:31-41): the
      run is followed up to there, and from there on its behaviour is undefined. */
  method RunToEnd(b: Body, x: int) returns (trace: seq<Event>, waits: seq<int>, completed: bool)
    requires WellTyped(b, false)
    ensures completed <==> Clean(b)
    ensures completed ==> trace == Plain(b, x).events
    ensures !completed ==> !HasLate(trace) && trace + [Ended(true)] <= Plain(b, x).events
    ensures waits == Waits(trace)
  {
    hide Clean, Plain, HasLate, Waits, Resumed, Foot;
    AnalysisExact(b, x);
    var task := new ProcessTask(b, x);
    waits := [];
    assert Waits([]) == [] && !HasLate([]) by { SilentRun([]); }
    ghost var before := task.log.events;
    var wait := task.Resume();
    ResumedMeans(before, task.log.events, wait);
    while wait.Some?
      invariant task.Valid() && (if wait.Some? then !task.done && !task.lost else task.done != task.lost)
      invariant fresh(task.promise) && fresh(task.log) && fresh(task) && fresh(Foot(task.bodies))
      invariant Waits(task.log.events) == waits + (if wait.Some? then [wait.value] else [])
      invariant !HasLate(task.log.events)
      decreases |task.plan| - |task.log.events|, if wait.Some? then 1 else 0
    {
      waits := waits + [wait.value];
      before := task.log.events;
      wait := task.Resume();
      ResumedMeans(before, task.log.events, wait);
    }
    trace := task.log.events;
    completed := task.done;
    if task.lost {
      LateInPrefix(trace, task.plan);
    }
  }

  /** The shortest script that is lost: its generator only waits, the consumer is suspended
      on it, and its end resumes nobody, so that the resume returns neither done nor a wait. */
  lemma LateEndIsLost(w: int, x: int)
    ensures var b := Then(ForEach(Then(Wait(w), End), End), End);
      WellTyped(b, false) && !Clean(b) && Plain(b, x).events == [Waited(w), Ended(true)]
  {
    var gen := Then(Wait(w), End);
    assert WellTyped(gen, true) && AnalyseStmt(Wait(w)).tail && Analyse(End) == NOTHING;
    assert Plain(End, x).events == [] && Plain(gen, x).events == [Waited(w)];
    assert Consume([], true, End, x) == Run([Ended(true)], x);
    assert [Waited(w)][1..] == [];
    assert Consume([Waited(w)], false, End, x).events == [Waited(w), Ended(true)];
  }
}
