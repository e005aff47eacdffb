/** The coroutine machine: promises linked on the heap, the context resuming only the
    deepest frame, finished methods running their parents, and a yield that runs its
    consumer by inverting the stack. */
module Coroutines {
  import opened Options
  import opened Scripts

  datatype Kind = Process | Method | Generator

  class Log {
    var events: seq<Event>

    constructor ()
      ensures events == []
    {
      events := [];
    }
  }

  /** `nextChild`, the part of the root's promise that only a process has. */
  class ProcessPromise {
    var nextChild: Promise?

    constructor ()
      ensures nextChild == null
    {
      nextChild := null;
    }
  }

  /** The promise of a coroutine. `value` is `t_`; `finished` is what the handle answers
      to `done`. */
  class Promise {
    const kind: Kind
    var waiting: Option<int>
    var subCoroutineChild: Promise?
    var processPromise: ProcessPromise?
    var parent: Promise?
    var value: int
    var finished: bool

    constructor (kind: Kind)
      ensures this.kind == kind && waiting == None && subCoroutineChild == null
      ensures processPromise == null && parent == null && !finished
    {
      this.kind := kind;
      waiting, subCoroutineChild, processPromise, parent := None, null, null, null;
      value, finished := 0, false;
    }

    /** `MethodTaskBase::await_ready`. */
    predicate MethodReady()
      reads this
    {
      finished || (subCoroutineChild == null && waiting == None)
    }

    /** `GenTask::NextAwaitable::await_ready`, which does not look at `finished`. */
    predicate NextReady()
      reads this
    {
      subCoroutineChild == null && waiting == None
    }
  }

  // ---------------------------------------------------------------- suspended bodies

  /** What a body has left to do. `Pull` goes round a for-each again; the generator it
      pulls is a local variable of the body, so the body owns it. */
  datatype Code =
    | Halt
    | Do(s: Stmt, k: Code)
    | Pull(gen: Idle, body: Body, k: Code)

  /** A generator between two pulls. */
  datatype Idle = Idle(promise: Promise, code: Code, local: int)

  datatype Awaiting = Nothing | ForReturn | ForNext(body: Body)

  /** A body suspended in an await: on a wait of its own, or on the next frame of its
      chain. */
  datatype Activation = Activation(promise: Promise, awaiting: Awaiting, code: Code, local: int)

  function Append(b: Body, k: Code): Code {
    match b
    case End => k
    case Then(s, rest) => Do(s, Append(rest, k))
  }

  function Start(b: Body, promise: Promise, x: int): Idle {
    Idle(promise, Append(b, Halt), x)
  }

  predicate TypedCode(c: Code, generator: bool) {
    match c
    case Halt => true
    case Do(s, k) => TypedStmt(s, generator) && TypedCode(k, generator)
    case Pull(g, b, k) =>
      g.promise.kind == Generator && TypedCode(g.code, true) && WellTyped(b, generator) && TypedCode(k, generator)
  }

  function Meaning(c: Code, x: int): Run {
    match c
    case Halt => Run([], x)
    case Do(s, k) =>
      var r := PlainStmt(s, x);
      Before(r.events, Meaning(k, r.result))
    case Pull(g, b, k) =>
      var r := Consume(Meaning(g.code, g.local).events, false, b, x);
      Before(r.events, Meaning(k, r.result))
  }

  lemma {:induction false} AppendMeans(b: Body, k: Code, x: int)
    ensures var r := Plain(b, x); Meaning(Append(b, k), x) == Before(r.events, Meaning(k, r.result))
  {
    match b
    case End =>
      assert Before([], Meaning(k, x)) == Meaning(k, x);
    case Then(s, rest) =>
      var r := PlainStmt(s, x);
      AppendMeans(rest, k, r.result);
      var t := Plain(rest, r.result);
      assert r.events + (t.events + Meaning(k, t.result).events) == r.events + t.events + Meaning(k, t.result).events;
  }

  lemma {:induction false} AppendTyped(b: Body, k: Code, generator: bool)
    requires WellTyped(b, generator) && TypedCode(k, generator)
    ensures TypedCode(Append(b, k), generator)
  {
    match b
    case End =>
    case Then(_, rest) => AppendTyped(rest, k, generator);
  }

  /** What remains of `u` once the coroutine it awaits has done `r`. */
  function After(u: Activation, r: Run): Run {
    match u.awaiting
    case Nothing => r
    case ForReturn => Before(r.events, Before([Returned(r.result)], Meaning(u.code, r.result)))
    case ForNext(b) =>
      var t := Consume(r.events, true, b, u.local);
      Before(t.events, Meaning(u.code, t.result))
  }

  /** What remains of the first of `up` when its chain continues below with `r`. */
  function Wrap(up: seq<Activation>, r: Run): Run {
    if up == [] then r
    else Wrap(up[..|up| - 1], After(up[|up| - 1], r))
  }

  lemma {:induction false} WrapPrefix(up: seq<Activation>, q: seq<Event>, r: Run)
    requires NoYield(q)
    ensures Wrap(up, Before(q, r)) == Before(q, Wrap(up, r))
    decreases |up|
  {
    if up != [] {
      var u := up[|up| - 1];
      assert After(u, Before(q, r)) == Before(q, After(u, r)) by {
        match u.awaiting
        case Nothing =>
        case ForReturn =>
          var t := Before([Returned(r.result)], Meaning(u.code, r.result));
          assert q + (r.events + t.events) == q + r.events + t.events;
        case ForNext(b) =>
          ConsumePrefix(q, r.events, true, b, u.local);
          var t := Consume(r.events, true, b, u.local);
          var m := Meaning(u.code, t.result);
          assert q + (t.events + m.events) == q + t.events + m.events;
      }
      WrapPrefix(up[..|up| - 1], q, After(u, r));
    }
  }

  lemma {:induction false} WrapConcat(a: seq<Activation>, b: seq<Activation>, r: Run)
    ensures Wrap(a + b, r) == Wrap(a, Wrap(b, r))
    decreases |b|
  {
    if b == [] {
      assert a + b == a;
    } else {
      assert (a + b)[..|a + b| - 1] == a + b[..|b| - 1];
      WrapConcat(a, b[..|b| - 1], After(b[|b| - 1], r));
    }
  }

  lemma {:induction false} ConsumeLonger(todo: seq<Event>, waited: bool, b: Body, x: int)
    ensures |Consume(todo, waited, b, x).events| > |todo|
  {
    if todo != [] {
      if todo[0].Yielded? {
        ConsumeLonger(todo[1..], false, b, Plain(b, todo[0].v).result);
      } else {
        ConsumeLonger(todo[1..], waited || todo[0].Waited?, b, x);
      }
    }
  }

  lemma {:induction false} WrapLonger(up: seq<Activation>, r: Run)
    ensures |Wrap(up, r).events| >= |r.events|
    decreases |up|
  {
    if up != [] {
      var u := up[|up| - 1];
      if u.awaiting.ForNext? {
        ConsumeLonger(r.events, true, u.awaiting.body, u.local);
      }
      WrapLonger(up[..|up| - 1], After(u, r));
    }
  }

  // ---------------------------------------------------------------- ownership and links

  /** The promises of the idle generators in `c`, and of those they own. */
  function Owned(c: Code): set<Promise> {
    match c
    case Halt => {}
    case Do(_, k) => Owned(k)
    case Pull(g, _, k) => {g.promise} + Owned(g.code) + Owned(k)
  }

  /** No generator is owned twice. */
  predicate Tidy(c: Code) {
    match c
    case Halt => true
    case Do(_, k) => Tidy(k)
    case Pull(g, _, k) =>
      && g.promise !in Owned(g.code) && ({g.promise} + Owned(g.code)) !! Owned(k)
      && Tidy(g.code) && Tidy(k)
  }

  /** The generators owned by `c` rest with clean promises, and each is either attached
      to `level`, as its owner is, or not attached at all. */
  ghost predicate Quiet(c: Code, level: ProcessPromise?)
    reads Owned(c)
  {
    match c
    case Halt => true
    case Do(_, k) => Quiet(k, level)
    case Pull(g, _, k) =>
      && AtYield(g.promise) && (g.promise.processPromise == null || g.promise.processPromise == level)
      && Quiet(g.code, g.promise.processPromise)
      && Quiet(k, level)
  }

  ghost predicate AtYield(p: Promise)
    reads p
  {
    p.parent == null && p.subCoroutineChild == null && p.waiting == None && !p.finished
  }

  lemma AppendOwns(b: Body, k: Code)
    ensures Owned(Append(b, k)) == Owned(k)
    ensures Tidy(Append(b, k)) == Tidy(k)
    ensures forall level :: Quiet(k, level) ==> Quiet(Append(b, k), level)
  {
  }

  /** Attaching the owner keeps what it owns in order. */
  lemma QuietAttached(c: Code, level: ProcessPromise?)
    requires Quiet(c, null)
    ensures Quiet(c, level)
  {
  }

  /** The promises of the frames of a chain. */
  function Promises(c: seq<Activation>): (s: set<Promise>)
    ensures forall i :: 0 <= i < |c| ==> c[i].promise in s
  {
    if c == [] then {} else Promises(c[..|c| - 1]) + {c[|c| - 1].promise}
  }

  /** The generators the frames of a chain own. */
  function OwnedAll(c: seq<Activation>): set<Promise> {
    if c == [] then {} else OwnedAll(c[..|c| - 1]) + Owned(c[|c| - 1].code)
  }

  function Foot(c: seq<Activation>): set<Promise> {
    Promises(c) + OwnedAll(c)
  }

  predicate TidyAll(c: seq<Activation>) {
    c != [] ==>
      var up := c[..|c| - 1];
      TidyAll(up) && Tidy(c[|c| - 1].code) && OwnedAll(up) !! Owned(c[|c| - 1].code)
  }

  /** The bodies of a chain are well typed, and no promise occurs in it twice. */
  predicate Apart(c: seq<Activation>) {
    && TidyAll(c) && Promises(c) !! OwnedAll(c)
    && (forall i, j :: 0 <= i < j < |c| ==> c[i].promise != c[j].promise)
    && (forall i :: 0 <= i < |c| ==> TypedCode(c[i].code, c[i].promise.kind == Generator))
  }

  /** `u` awaits the coroutine of `v`. */
  predicate Awaits(u: Activation, v: Activation) {
    match u.awaiting
    case Nothing => false
    case ForReturn => v.promise.kind == Method
    case ForNext(b) => v.promise.kind == Generator && WellTyped(b, u.promise.kind == Generator)
  }

  /** Each frame of `c` is suspended on the next: child and parent pointers are inverse. */
  ghost predicate Linked(c: seq<Activation>)
    reads Promises(c)`subCoroutineChild, Promises(c)`parent
  {
    forall i :: 0 < i < |c| ==>
      && c[i].promise.parent == c[i - 1].promise && c[i - 1].promise.subCoroutineChild == c[i].promise
      && Awaits(c[i - 1], c[i])
  }

  ghost predicate AllQuiet(c: seq<Activation>, level: ProcessPromise?)
    reads OwnedAll(c)
  {
    c != [] ==> AllQuiet(c[..|c| - 1], level) && Quiet(c[|c| - 1].code, level)
  }

  /** The process the generators of a frame may be attached to. */
  ghost function Level(p: Promise, process: ProcessPromise): ProcessPromise?
    reads p`processPromise
  {
    if p.kind == Process then process else p.processPromise
  }

  ghost predicate AllAt(c: seq<Activation>, process: ProcessPromise, level: ProcessPromise?)
    reads Promises(c)`processPromise
  {
    forall i :: 0 <= i < |c| ==> Level(c[i].promise, process) == level
  }

  ghost predicate Unfinished(c: seq<Activation>)
    reads Promises(c)`finished
  {
    forall i :: 0 <= i < |c| ==> !c[i].promise.finished
  }

  /** `c` is a whole chain, up to the frame that nothing awaits. Either all of it is
      attached to the process, or none of it. */
  ghost predicate Chain(c: seq<Activation>, process: ProcessPromise)
    reads Foot(c)
  {
    && c != [] && c[0].promise in Promises(c) && c[0].promise.parent == null
    && (c[0].promise.kind == Process ==> c[0].promise.processPromise == null)
    && Apart(c) && Linked(c) && Unfinished(c)
    && var level := Level(c[0].promise, process);
    && (level == null || level == process)
    && AllAt(c, process, level) && AllQuiet(c, level)
  }

  function Last(c: seq<Activation>): Activation
    requires c != []
  {
    c[|c| - 1]
  }

  function Remaining(c: seq<Activation>): Run
    requires c != []
  {
    Wrap(c[..|c| - 1], Meaning(Last(c).code, Last(c).local))
  }

  /** A whole chain has come to rest on a wait of its last frame. */
  ghost predicate AtRest(c: seq<Activation>, process: ProcessPromise)
    reads Foot(c)
  {
    && Chain(c, process)
    && Last(c).promise in Promises(c)
    && Last(c).awaiting == Nothing && Last(c).promise.subCoroutineChild == null
    && Last(c).promise.waiting.Some?
  }

  lemma {:induction false} OwnedJoin(c: seq<Activation>, d: seq<Activation>)
    ensures OwnedAll(c + d) == OwnedAll(c) + OwnedAll(d)
    ensures TidyAll(c) && TidyAll(d) && OwnedAll(c) !! OwnedAll(d) ==> TidyAll(c + d)
    decreases |d|
  {
    if d == [] {
      assert c + d == c;
    } else {
      assert (c + d)[..|c + d| - 1] == c + d[..|d| - 1];
      OwnedJoin(c, d[..|d| - 1]);
    }
  }

  lemma {:induction false} PromisesJoin(c: seq<Activation>, d: seq<Activation>)
    ensures Promises(c + d) == Promises(c) + Promises(d)
    decreases |d|
  {
    if d == [] {
      assert c + d == c;
    } else {
      assert (c + d)[..|c + d| - 1] == c + d[..|d| - 1];
      PromisesJoin(c, d[..|d| - 1]);
    }
  }

  lemma ApartJoin(c: seq<Activation>, d: seq<Activation>)
    requires Apart(c) && Apart(d) && Foot(c) !! Foot(d)
    ensures Apart(c + d)
  {
    OwnedJoin(c, d);
    PromisesJoin(c, d);
    var e := c + d;
    forall i, j | 0 <= i < j < |e| ensures e[i].promise != e[j].promise {
      if i < |c| <= j {
        assert c[i].promise in Promises(c) && d[j - |c|].promise in Promises(d);
      }
    }
  }

  lemma LinkedJoin(c: seq<Activation>, d: seq<Activation>)
    requires Linked(c) && Linked(d)
    requires c != [] && d != [] && Awaits(Last(c), d[0])
    requires d[0].promise.parent == Last(c).promise && Last(c).promise.subCoroutineChild == d[0].promise
    ensures Linked(c + d)
  {
  }

  lemma {:induction false} QuietJoin(c: seq<Activation>, d: seq<Activation>, above: ProcessPromise?,
          below: ProcessPromise?)
    requires AllQuiet(c, above) && AllQuiet(d, below) && (below == null || below == above)
    ensures AllQuiet(c + d, above)
    decreases |d|
  {
    if d == [] {
      assert c + d == c;
    } else {
      assert (c + d)[..|c + d| - 1] == c + d[..|d| - 1];
      QuietJoin(c, d[..|d| - 1], above, below);
      if below == null {
        QuietAttached(d[|d| - 1].code, above);
      }
    }
  }

  lemma ChainsJoin(c: seq<Activation>, d: seq<Activation>, process: ProcessPromise, below: ProcessPromise?)
    requires c != [] && d != [] && Apart(c) && Apart(d) && Foot(c) !! Foot(d) && Awaits(Last(c), d[0])
    requires Linked(c) && Linked(d) && Unfinished(c) && Unfinished(d)
    requires c[0].promise.parent == null && (c[0].promise.kind == Process ==> c[0].promise.processPromise == null)
    requires d[0].promise.parent == Last(c).promise && Last(c).promise.subCoroutineChild == d[0].promise
    requires var level := Level(c[0].promise, process);
             && (level == null || level == process) && (below == null || below == level)
             && AllAt(c, process, level) && AllAt(d, process, level)
             && AllQuiet(c, level) && AllQuiet(d, below)
    requires var u := Last(d); u.awaiting == Nothing && u.promise.subCoroutineChild == null && u.promise.waiting.Some?
    ensures AtRest(c + d, process)
  {
    hide OwnedAll, AllQuiet, TidyAll, Promises;
    LinkedJoin(c, d);
    ApartJoin(c, d);
    QuietJoin(c, d, Level(c[0].promise, process), below);
  }

  // ---------------------------------------------------------------- suspending

  /** Walks down the chain below `at`, attaching every frame to the process and leaving
      the last one as the frame to resume next. */
  method UpdateProcessPromise(at: Promise, process: ProcessPromise, ghost c: seq<Activation>)
    requires c != [] && c[0].promise == at && Linked(c) && Last(c).promise.subCoroutineChild == null
    modifies Promises(c)`processPromise, process
    ensures AllAt(c, process, process)
    ensures process.nextChild == Last(c).promise
  {
    var next: Promise? := at;
    ghost var i := 0;
    while next != null
      invariant 0 <= i <= |c|
      invariant next == if i < |c| then c[i].promise else null
      invariant forall j :: 0 <= j < i ==> c[j].promise.processPromise == process
      invariant 0 < i ==> process.nextChild == c[i - 1].promise
      decreases |c| - i
    {
      next.processPromise := process;
      process.nextChild := next;
      next := next.subCoroutineChild;
      i := i + 1;
    }
  }

  /** Both overloads of `updateSuspend`: `parent` suspends on `our`, the top of `c`. */
  method UpdateSuspend(parent: Promise, our: Promise, process: ProcessPromise, ghost c: seq<Activation>)
    requires c != [] && c[0].promise == our && Linked(c) && Last(c).promise.subCoroutineChild == null
    requires parent !in Promises(c) && forall i :: 0 < i < |c| ==> c[i].promise != our
    requires Level(parent, process) == null || Level(parent, process) == process
    requires our.processPromise == null || our.processPromise == Level(parent, process)
    requires our.kind != Process && AllAt(c, process, our.processPromise)
    modifies parent`subCoroutineChild, our`parent, Promises(c)`processPromise, process
    ensures our.parent == parent && parent.subCoroutineChild == our && Linked(c)
    ensures AllAt(c, process, Level(parent, process))
    ensures process.nextChild ==
      if Level(parent, process) != old(our.processPromise) then Last(c).promise else old(process.nextChild)
  {
    our.parent := parent;
    parent.subCoroutineChild := our;
    assert Linked(c) && AllAt(c, process, our.processPromise);
    var target := if parent.kind == Process then process else parent.processPromise;
    if our.processPromise == null && target != null {
      UpdateProcessPromise(our, process, c);
    }
  }

  /** The body of `f`, the last of `c`, suspends on the chain `d`, which is at rest. */
  method SuspendOn(f: Promise, our: Promise, process: ProcessPromise, ghost c: seq<Activation>,
          ghost d: seq<Activation>)
    requires Chain(c, process) && AtRest(d, process) && Foot(c) !! Foot(d) && Awaits(Last(c), d[0])
    requires f == Last(c).promise && our == d[0].promise
    requires our.processPromise == null || our.processPromise == Level(f, process)
    requires our.kind != Process && (our.processPromise != null ==> process.nextChild == Last(d).promise)
    modifies f`subCoroutineChild, our`parent, Promises(d)`processPromise, process
    ensures AtRest(c + d, process) && f.subCoroutineChild == our
    ensures Last(d).promise.waiting == old(Last(d).promise.waiting)
    ensures c[0].promise.processPromise == old(c[0].promise.processPromise) && f.processPromise == old(f.processPromise)
    ensures process.nextChild == if Level(f, process) != null then Last(d).promise else old(process.nextChild)
  {
    hide OwnedAll, AllQuiet, TidyAll, Promises;
    ghost var below, level := our.processPromise, Level(c[0].promise, process);
    assert allocated(OwnedAll(c)) && allocated(OwnedAll(d));
    assert Promises(d) !! OwnedAll(c) && Promises(d) !! OwnedAll(d);
    UpdateSuspend(f, our, process, d);
    assert AllQuiet(c, level) && AllQuiet(d, below);
    ChainsJoin(c, d, process, below);
  }

  // ---------------------------------------------------------------- one run of a body

  /** How the run of a chain ended: its first frame finished, or yielded to the consumer
      that called it; or the chain suspended; or a generator ended without resuming its
      consumer. */
  datatype Outcome =
    | Finished
    | Yielded(gen: Idle)
    | Suspended(wait: int, chain: seq<Activation>)
    | Lost

  predicate Silent(q: seq<Event>) {
    q != [] ==> !q[0].Yielded? && !q[0].Waited? && q[0] != Ended(true) && Silent(q[1..])
  }

  function Logged(q: seq<Event>, out: Outcome): seq<Event> {
    if out.Suspended? then q + [Waited(out.wait)] else q
  }

  /** The promises a run leaves in use. */
  function Touched(top: Promise, out: Outcome): set<Promise> {
    match out
    case Yielded(g) => {top} + Owned(g.code)
    case Suspended(_, c) => Foot(c)
    case _ => {top}
  }

  /** What `top` has left to do after `out`, beginning with `out` itself. */
  function Tail(value: int, out: Outcome): seq<Event> {
    match out
    case Finished => []
    case Yielded(g) => [Event.Yielded(value)] + Meaning(g.code, g.local).events
    case Suspended(w, c) => [Waited(w)] + (if c == [] then [] else Remaining(c).events)
    case Lost => [Ended(true)]
  }

  /** `top`, which had `total` left to do, ran and did the events `q`, then `out`. When it
      is lost, what it would have done next is the late end. */
  ghost predicate Ran(top: Promise, total: Run, q: seq<Event>, out: Outcome, process: ProcessPromise)
    reads top, Touched(top, out)
  {
    && Silent(q)
    && q + Tail(top.value, out) <= total.events
    && (!out.Lost? ==> total.events == q + Tail(top.value, out))
    && match out
       case Finished =>
         top.finished && top.value == total.result && (top.kind == Generator ==> top.NextReady())
       case Yielded(g) =>
         && g.promise == top && top.kind == Generator && AtYield(top)
         && IdleBody(g) && Quiet(g.code, top.processPromise)
       case Suspended(w, c) =>
         && c != [] && AtRest(c, process) && c[0].promise == top && Last(c).promise in Promises(c)
         && Last(c).promise.waiting == Some(w)
         && (top.kind != Process ==> !top.NextReady() && !top.MethodReady())
         && total.result == Remaining(c).result
       case Lost => true
  }

  /** The body of a generator that owns nothing twice. */
  predicate IdleBody(g: Idle) {
    TypedCode(g.code, true) && Tidy(g.code) && g.promise !in Owned(g.code)
  }

  /** The frame that is to be resumed next is known to the process once it is attached. */
  ghost predicate NextKept(before: Promise?, level: ProcessPromise?, out: Outcome, process: ProcessPromise)
    reads process
  {
    if out.Suspended? && out.chain != [] && level != null && Last(out.chain).promise.kind != Process
    then process.nextChild == Last(out.chain).promise
    else process.nextChild == before
  }

  function Top(up: seq<Activation>, p: Promise): Promise {
    if up == [] then p else up[0].promise
  }

  function Running(up: seq<Activation>, p: Promise, code: Code, x: int): seq<Activation> {
    up + [Activation(p, Nothing, code, x)]
  }

  /** The body of `p` can run `code`, with `up` suspended above it. */
  ghost predicate Ready(up: seq<Activation>, p: Promise, code: Code, x: int, process: ProcessPromise)
    reads Foot(Running(up, p, code, x)), p
  {
    && Chain(Running(up, p, code, x), process)
    && p.subCoroutineChild == null
    && (up != [] ==> up[0].promise.kind == Process)
    && (up == [] && p.kind == Generator ==> p.waiting == None)
  }

  lemma SilentJoin(q: seq<Event>, r: seq<Event>)
    requires Silent(q) && Silent(r)
    ensures Silent(q + r)
    decreases |q|
  {
    if q == [] {
      assert q + r == r;
    } else {
      assert (q + r)[1..] == q[1..] + r;
      SilentJoin(q[1..], r);
    }
  }

  lemma SilentIsQuiet(q: seq<Event>)
    requires Silent(q)
    ensures NoYield(q) && !HasWait(q)
  {
  }

  lemma FootOfRunning(up: seq<Activation>, a: Activation)
    ensures Promises(up + [a]) == Promises(up) + {a.promise}
    ensures OwnedAll(up + [a]) == OwnedAll(up) + Owned(a.code)
    ensures Foot(up + [a]) == Foot(up) + {a.promise} + Owned(a.code)
  {
    assert (up + [a])[..|up|] == up;
  }

  /** The last body of a chain may be replaced by one that owns other generators. */
  lemma ReplaceApart(up: seq<Activation>, a: Activation, b: Activation)
    requires Apart(up + [a]) && b.promise == a.promise
    requires TypedCode(b.code, b.promise.kind == Generator) && Tidy(b.code)
    requires Owned(b.code) !! (Foot(up) + {b.promise})
    ensures Apart(up + [b])
  {
    var c, d := up + [a], up + [b];
    assert c[..|up|] == up && d[..|up|] == up;
    FootOfRunning(up, a);
    FootOfRunning(up, b);
    assert forall i :: 0 <= i < |up| ==> c[i] == d[i] == up[i];
    assert forall i :: 0 <= i < |d| ==> d[i].promise == c[i].promise;
  }

  lemma Replace(up: seq<Activation>, a: Activation, b: Activation, process: ProcessPromise)
    requires Chain(up + [a], process) && b.promise == a.promise
    requires TypedCode(b.code, b.promise.kind == Generator) && Tidy(b.code)
    requires Quiet(b.code, Level(b.promise, process))
    requires Owned(b.code) !! (Foot(up) + {b.promise})
    ensures Chain(up + [b], process)
  {
    hide Apart, Promises, OwnedAll, Owned, Tidy, Quiet, TypedCode;
    var c, d := up + [a], up + [b];
    ReplaceApart(up, a, b);
    assert c[..|up|] == up && d[..|up|] == up && c[|up|] == a && d[|up|] == b;
    FootOfRunning(up, a);
    FootOfRunning(up, b);
    assert forall i :: 0 <= i < |d| ==> d[i].promise == c[i].promise;
    assert Linked(d) by {
      forall i | 0 < i < |d| ensures Awaits(d[i - 1], d[i]) {
        assert Awaits(c[i - 1], c[i]) && c[i - 1] == d[i - 1];
      }
    }
  }

  /** The log and the process after a run, and the promises it left in use. */
  twostate predicate Did(top: Promise, new foot: set<Promise>, total: Run, q: seq<Event>, new out: Outcome,
          process: ProcessPromise, log: Log)
    reads top, Touched(top, out), process, log
  {
    && Ran(top, total, q, out, process)
    && log.events == old(log.events) + Logged(q, out)
    && (forall o :: o in Touched(top, out) ==> o in foot || fresh(o))
    && top.processPromise == old(top.processPromise)
    && NextKept(old(process.nextChild), Level(top, process), out, process)
    && (out.Lost? ==> top.waiting == old(top.waiting) && top.finished == old(top.finished))
  }

  lemma {:induction false} InPromises(c: seq<Activation>, p: Promise)
    requires p in Promises(c)
    ensures exists i :: 0 <= i < |c| && c[i].promise == p
    decreases |c|
  {
    var n := |c| - 1;
    if c[n].promise != p {
      InPromises(c[..n], p);
      var i :| 0 <= i < n && c[..n][i].promise == p;
      assert c[i].promise == p;
    }
  }

  /** A chain without its last frame is a chain. */
  lemma ChainAbove(up: seq<Activation>, a: Activation, process: ProcessPromise)
    requires Chain(up + [a], process)
    ensures a.promise !in Foot(up) && a.promise !in Owned(a.code) && Owned(a.code) !! Foot(up)
    ensures Foot(up + [a]) == Foot(up) + {a.promise} + Owned(a.code)
    ensures TypedCode(a.code, a.promise.kind == Generator) && Tidy(a.code) && !a.promise.finished
    ensures Quiet(a.code, Level(a.promise, process))
    ensures Level(a.promise, process) == Level(Top(up, a.promise), process)
    ensures up == [] ==> a.promise.parent == null
    ensures up != [] ==>
      && Chain(up, process) && Awaits(Last(up), a)
      && a.promise.parent == Last(up).promise && Last(up).promise.subCoroutineChild == a.promise
  {
    var c := up + [a];
    assert c[..|up|] == up && c[|up|] == a;
    FootOfRunning(up, a);
    assert forall i :: 0 <= i < |up| ==> c[i] == up[i];
    if a.promise in Promises(up) {
      InPromises(up, a.promise);
    }
    if up != [] {
      assert Awaits(c[|up| - 1], c[|up|]);
    }
  }

  /** The child of the last frame of `up` lets go of it. */
  method Release(parent: Promise, ghost up: seq<Activation>, process: ProcessPromise)
    requires Chain(up, process) && parent == Last(up).promise
    modifies parent`subCoroutineChild
    ensures Chain(up, process) && parent.subCoroutineChild == null
  {
    assert allocated(OwnedAll(up));
    parent.subCoroutineChild := null;
    assert parent in Promises(up);
    assert AllQuiet(up, Level(up[0].promise, process));
  }

  lemma Single(a: Activation, level: ProcessPromise?)
    ensures Promises([a]) == {a.promise} && OwnedAll([a]) == Owned(a.code)
    ensures TidyAll([a]) == Tidy(a.code) && AllQuiet([a], level) == Quiet(a.code, level)
  {
    assert [a][..0] == [];
  }

  lemma StartReady(p: Promise, code: Code, x: int, process: ProcessPromise)
    requires AtYield(p) && TypedCode(code, p.kind == Generator) && Tidy(code) && p !in Owned(code)
    requires p.processPromise == null || (p.processPromise == process && p.kind != Process)
    requires Quiet(code, Level(p, process))
    ensures Ready([], p, code, x, process)
    ensures Foot(Running([], p, code, x)) == {p} + Owned(code)
  {
    hide Promises, OwnedAll, TidyAll, AllQuiet, Tidy, Quiet, Owned, TypedCode;
    var a := Activation(p, Nothing, code, x);
    assert Running([], p, code, x) == [a];
    Single(a, Level(p, process));
  }

  /** A run that first did `pre`. */
  lemma RanMore(top: Promise, total: Run, later: Run, pre: seq<Event>, q: seq<Event>, out: Outcome,
          process: ProcessPromise, logged: seq<Event>)
    requires Ran(top, later, q, out, process) && Silent(pre) && total == Before(pre, later)
    ensures Ran(top, total, pre + q, out, process)
    ensures logged + pre + Logged(q, out) == logged + Logged(pre + q, out)
  {
    SilentJoin(pre, q);
    hide Silent, AtRest, Tail, Remaining, Quiet, IdleBody, AtYield;
    Regroup(pre, q, Tail(top.value, out));
    Regroup(logged, pre, q);
    if out.Suspended? {
      Regroup(pre, q, [Waited(out.wait)]);
      Regroup(logged, pre, q + [Waited(out.wait)]);
    }
  }

  lemma Regroup(a: seq<Event>, b: seq<Event>, c: seq<Event>)
    ensures a + (b + c) == (a + b) + c
  {
  }

  // ---------------------------------------------------------------- the compiled body

  /** `IWaiting::await_suspend` on a wait that is not ready. */
  method AwaitSuspend(p: Promise, w: int, process: ProcessPromise, ghost c: seq<Activation>)
    requires Chain(c, process) && Last(c).promise == p && Last(c).awaiting == Nothing && p.subCoroutineChild == null
    modifies p`waiting, process
    ensures AtRest(c, process) && p.waiting == Some(w)
    ensures process.nextChild == if p.processPromise != null then p else old(process.nextChild)
  {
    assert allocated(OwnedAll(c));
    assert p in Promises(c);
    hide Apart, Promises, OwnedAll;
    p.waiting := Some(w);
    if p.processPromise != null {
      p.processPromise.nextChild := p;
    }
    assert AllQuiet(c, Level(c[0].promise, process));
  }

  /** The callee `c` is done: `await_resume` hands its value to the body of `p`. */
  method AfterCall(up: seq<Activation>, p: Promise, k: Code, c: Promise, process: ProcessPromise, log: Log,
          ghost total: Run)
    returns (out: Outcome, ghost q: seq<Event>)
    requires Ready(up, p, k, c.value, process)
    requires total == Wrap(up, Before([Returned(c.value)], Meaning(k, c.value)))
    modifies Foot(Running(up, p, k, c.value)), process, log
    ensures Did(Top(up, p), Foot(Running(up, p, k, old(c.value))), total, q, out, process, log)
    ensures out.Lost? ==> up != []
    ensures up != [] ==> !out.Yielded?
    decreases |total.events|, |up|, 0
  {
    hide Chain, AtRest, Foot, OwnedAll, Promises, Consume, Plain, PlainStmt, Wrap, Owned, Tidy, Quiet, TypedCode,
         Linked, Apart, Meaning;
    hide Ran, Ready;
    var x := c.value;
    ghost var more := Wrap(up, Meaning(k, x));
    WrapPrefix(up, [Returned(x)], Meaning(k, x));
    log.events := log.events + [Returned(x)];
    out, q := Execute(up, p, k, x, process, log, more);
    RanMore(Top(up, p), total, more, [Returned(x)], q, out, process, old(log.events));
    q := [Returned(x)] + q;
  }

  ghost predicate IdleGen(g: Idle, level: ProcessPromise?)
    reads g.promise, Owned(g.code)
  {
    && IdleBody(g) && AtYield(g.promise) && Quiet(g.code, g.promise.processPromise)
    && (g.promise.processPromise == null || g.promise.processPromise == level)
  }

  /** The generator `g` is none of those in the chain of `p`. */
  predicate Outside(g: Idle, up: seq<Activation>, p: Promise, k: Code, x: int) {
    ({g.promise} + Owned(g.code)) !! Foot(Running(up, p, k, x))
  }

  lemma NextCode(up: seq<Activation>, p: Promise, g: Idle, b: Body, k: Code, x: int, v: int, process: ProcessPromise)
    requires Ready(up, p, k, x, process)
    requires WellTyped(b, p.kind == Generator) && g.promise.kind == Generator
    requires Outside(g, up, p, k, x) && IdleGen(g, Level(p, process))
    ensures var code := Append(b, Pull(g, b, k));
            && Ready(up, p, code, v, process)
            && Foot(Running(up, p, code, v)) == Foot(Running(up, p, k, x)) + {g.promise} + Owned(g.code)
  {
    hide Chain, OwnedAll, Promises, Apart, Linked, Foot, Running, Ready;
    var m := Pull(g, b, k);
    RunningFacts(up, p, k, x, process);
    AppendOwns(b, m);
    assert TypedCode(m, p.kind == Generator);
    AppendTyped(b, m, p.kind == Generator);
    assert Owned(m) == {g.promise} + Owned(g.code) + Owned(k);
    assert Tidy(m) && Quiet(m, Level(p, process));
    ReadyWith(up, p, k, x, Append(b, m), v, process);
  }

  /** A pull of `g` by the body of `p` is over: `await_resume` and `take`. */
  method AfterNext(up: seq<Activation>, p: Promise, g: Idle, b: Body, k: Code, x: int, process: ProcessPromise,
          log: Log, ghost total: Run)
    returns (out: Outcome, ghost q: seq<Event>)
    requires Ready(up, p, k, x, process)
    requires WellTyped(b, p.kind == Generator) && g.promise.kind == Generator && Outside(g, up, p, k, x)
    requires !g.promise.finished ==> IdleGen(g, Level(p, process))
    requires total == Wrap(up, AfterPull(g, g.promise.finished, g.promise.value, b, k, x))
    modifies Foot(Running(up, p, k, x)) + {g.promise} + Owned(g.code), process, log
    ensures Did(Top(up, p), Foot(Running(up, p, k, x)) + {g.promise} + Owned(g.code), total, q, out, process, log)
    ensures out.Lost? ==> up != []
    ensures up != [] ==> !out.Yielded?
    decreases |total.events|, |up|, 0
  {
    hide Chain, AtRest, Foot, OwnedAll, Promises, Consume, Plain, PlainStmt, Wrap, Owned, Tidy, Quiet, TypedCode,
         Linked, Apart, Meaning;
    hide Ran, Ready, IdleGen;
    if g.promise.finished {
      ghost var more := Wrap(up, Meaning(k, x));
      WrapPrefix(up, [Ended(false)], Meaning(k, x));
      log.events := log.events + [Ended(false)];
      out, q := Execute(up, p, k, x, process, log, more);
      RanMore(Top(up, p), total, more, [Ended(false)], q, out, process, old(log.events));
      q := [Ended(false)] + q;
    } else {
      var v := g.promise.value;
      var code := Append(b, Pull(g, b, k));
      ghost var more := Wrap(up, Meaning(code, v));
      NextCode(up, p, g, b, k, x, v, process);
      WrapPrefix(up, [Got(v)], Meaning(code, v));
      log.events := log.events + [Got(v)];
      out, q := Execute(up, p, code, v, process, log, more);
      RanMore(Top(up, p), total, more, [Got(v)], q, out, process, old(log.events));
      q := [Got(v)] + q;
    }
  }

  // ---------------------------------------------------------------- pulling and calling

  lemma FollowPrefix(q: seq<Event>, r: Run, k: Code)
    ensures Before(Before(q, r).events, Meaning(k, r.result)) == Before(q, Before(r.events, Meaning(k, r.result)))
  {
    Regroup(q, r.events, Meaning(k, r.result).events);
  }

  /** A for-each that gets a value runs its body with it, then pulls again. */
  lemma GotMeans(g: Idle, b: Body, k: Code, v: int, waited: bool, x: int)
    ensures var c := Consume([Event.Yielded(v)] + Meaning(g.code, g.local).events, waited, b, x);
            Before(c.events, Meaning(k, c.result)) == Before([Got(v)], Meaning(Append(b, Pull(g, b, k)), v))
  {
    var rest := Meaning(g.code, g.local).events;
    var all := [Event.Yielded(v)] + rest;
    assert all[0] == Event.Yielded(v) && all[1..] == rest;
    var r := Plain(b, v);
    var t := Consume(rest, false, b, r.result);
    var m := Meaning(k, t.result);
    AppendMeans(b, Pull(g, b, k), v);
    assert Meaning(Pull(g, b, k), r.result) == Before(t.events, m);
    hide Consume, Meaning, Plain;
    Regroup([Got(v)] + r.events, t.events, m.events);
    Regroup([Got(v)], r.events, t.events + m.events);
  }

  /** Nothing but a pull that ends without a wait has happened. */
  lemma EndMeans(q: seq<Event>, b: Body, k: Code, x: int)
    requires Silent(q)
    ensures var c := Consume(q, false, b, x);
            Before(c.events, Meaning(k, c.result)) == Before(q, Before([Ended(false)], Meaning(k, x)))
  {
    SilentIsQuiet(q);
    ConsumePrefix(q, [], false, b, x);
    assert q + [] == q;
    FollowPrefix(q, Run([Ended(false)], x), k);
  }

  lemma ValueMeans(q: seq<Event>, g: Idle, b: Body, k: Code, v: int, x: int)
    requires Silent(q)
    ensures var c := Consume(q + ([Event.Yielded(v)] + Meaning(g.code, g.local).events), false, b, x);
            Before(c.events, Meaning(k, c.result)) == Before(q, Before([Got(v)], Meaning(Append(b, Pull(g, b, k)), v)))
  {
    var todo := [Event.Yielded(v)] + Meaning(g.code, g.local).events;
    SilentIsQuiet(q);
    ConsumePrefix(q, todo, false, b, x);
    FollowPrefix(q, Consume(todo, false, b, x), k);
    GotMeans(g, b, k, v, false, x);
  }

  /** After a wait in a pull, the for-each is an ancestor waiting for the next value. */
  lemma WaitMeans(q: seq<Event>, w: int, p: Promise, r: Run, b: Body, k: Code, x: int)
    requires Silent(q)
    ensures var c := Consume(q + [Waited(w)] + r.events, false, b, x);
            Before(c.events, Meaning(k, c.result)) == Before(q + [Waited(w)], After(Activation(p, ForNext(b), k, x), r))
  {
    var pre := q + [Waited(w)];
    WaitEnds(q, w);
    ConsumePrefix(pre, r.events, false, b, x);
    FollowPrefix(pre, Consume(r.events, true, b, x), k);
  }

  lemma {:induction false} WaitEnds(q: seq<Event>, w: int)
    requires Silent(q)
    ensures NoYield(q + [Waited(w)]) && HasWait(q + [Waited(w)])
    decreases |q|
  {
    if q == [] {
      assert q + [Waited(w)] == [Waited(w)];
    } else {
      assert (q + [Waited(w)])[1..] == q[1..] + [Waited(w)];
      WaitEnds(q[1..], w);
    }
  }

  lemma RemainingJoin(up: seq<Activation>, u: Activation, d: seq<Activation>)
    requires d != []
    ensures Remaining(up + [u] + d) == Wrap(up, After(u, Remaining(d)))
  {
    var c := up + [u];
    assert (c + d)[..|c + d| - 1] == c + d[..|d| - 1];
    WrapConcat(c, d[..|d| - 1], Meaning(Last(d).code, Last(d).local));
    assert c[..|c| - 1] == up;
  }

  /** A suspended coroutine `d` below `u`, which is the last of the chain of `up`. */
  lemma SuspendedBelow(up: seq<Activation>, u: Activation, total: Run, q: seq<Event>, w: int, d: seq<Activation>)
    requires Silent(q) && d != []
    requires total == Wrap(up, Before(q + [Waited(w)], After(u, Remaining(d))))
    ensures total == Before(q + [Waited(w)], Remaining(up + [u] + d))
  {
    WaitEnds(q, w);
    WrapPrefix(up, q + [Waited(w)], After(u, Remaining(d)));
    RemainingJoin(up, u, d);
  }

  lemma NoProcessBelow(d: seq<Activation>, process: ProcessPromise)
    requires Chain(d, process) && d[0].promise.kind != Process
    ensures Last(d).promise.kind != Process
  {
    var n := |d| - 1;
    if 0 < n {
      assert Awaits(d[n - 1], d[n]);
    }
  }

  lemma TailOfSuspended(up: seq<Activation>, u: Activation, total: Run, q: seq<Event>, w: int, d: seq<Activation>,
          value: int)
    requires Silent(q) && d != []
    requires total == Wrap(up, Before(q + [Waited(w)], After(u, Remaining(d))))
    ensures total.events == q + Tail(value, Suspended(w, up + [u] + d))
    ensures total.result == Remaining(up + [u] + d).result
  {
    SuspendedBelow(up, u, total, q, w, d);
    Regroup(q, [Waited(w)], Remaining(up + [u] + d).events);
  }

  lemma FootJoin(c: seq<Activation>, d: seq<Activation>)
    ensures Foot(c + d) == Foot(c) + Foot(d)
  {
    PromisesJoin(c, d);
    OwnedJoin(c, d);
  }

  /** The tests that an await makes tell whether the coroutine suspended. */
  lemma AwaitTells(p: Promise, total: Run, q: seq<Event>, out: Outcome, process: ProcessPromise)
    requires Ran(p, total, q, out, process) && !out.Lost?
    ensures p.kind == Generator ==> p.NextReady() == !out.Suspended?
    ensures p.kind == Method ==> p.MethodReady() == !out.Suspended? && (out.Finished? || out.Suspended?)
    ensures out.Suspended? ==> out.chain != [] && out.chain[0].promise == p && Touched(p, out) == Foot(out.chain)
    ensures !out.Suspended? ==> Touched(p, out) == {p} + (if out.Yielded? then Owned(out.gen.code) else {})
    ensures out.Finished? ==> p.finished && p.value == total.result
    ensures Silent(q)
  {
  }

  /** The body of `p` suspends on the coroutine of `our`, which ran and suspended. */
  method SuspendBody(up: seq<Activation>, p: Promise, u: Activation, our: Promise, run: Outcome,
          process: ProcessPromise, ghost todo: Run, ghost q: seq<Event>, ghost total: Run)
    returns (out: Outcome)
    requires Ready(up, p, u.code, u.local, process) && u.promise == p
    requires Ran(our, todo, q, run, process) && run.Suspended?
    requires run.chain[0].promise == our ==> our.kind != Process && Awaits(u, run.chain[0])
    requires Foot(Running(up, p, u.code, u.local)) !! Foot(run.chain)
    requires our.processPromise == null || our.processPromise == Level(p, process)
    requires our.processPromise != null && Last(run.chain).promise.kind != Process ==>
      process.nextChild == Last(run.chain).promise
    requires total == Wrap(up, Before(q + [Waited(run.wait)], After(u, Remaining(run.chain))))
    modifies p`subCoroutineChild, our`parent, Promises(run.chain)`processPromise, process
    ensures out == Suspended(run.wait, up + [u] + run.chain)
    ensures Ran(Top(up, p), total, q, out, process)
    ensures Top(up, p).processPromise == old(Top(up, p).processPromise)
    ensures NextKept(old(process.nextChild), Level(Top(up, p), process), out, process)
    ensures Touched(Top(up, p), out) == Foot(Running(up, p, u.code, u.local)) + Foot(run.chain)
  {
    hide Chain, Foot, OwnedAll, Consume, Plain, PlainStmt, Wrap, Owned, Tidy, Quiet, TypedCode, Silent, Linked,
         Apart, Meaning, Remaining, Tail, After;
    var w, d := run.wait, run.chain;
    ghost var a := Activation(p, Nothing, u.code, u.local);
    ghost var c := up + [u];
    ChainAbove(up, a, process);
    Replace(up, a, u, process);
    ChainAbove(up, u, process);
    NoProcessBelow(d, process);
    FootJoin(c, d);
    TailOfSuspended(up, u, total, q, w, d, Top(up, p).value);
    assert Level(p, process) == Level(Top(up, p), process);
    SuspendOn(p, our, process, c, d);
    out := Suspended(w, up + [u] + d);
  }

  lemma TopInFoot(up: seq<Activation>, p: Promise, k: Code, x: int, process: ProcessPromise)
    requires Chain(Running(up, p, k, x), process)
    ensures p in Foot(Running(up, p, k, x)) && Top(up, p) in Foot(Running(up, p, k, x))
  {
    var c := Running(up, p, k, x);
    assert c[|up|].promise == p && c[0].promise == Top(up, p);
  }

  lemma LevelFacts(up: seq<Activation>, p: Promise, k: Code, x: int, process: ProcessPromise)
    requires Ready(up, p, k, x, process)
    ensures Level(p, process) == null || Level(p, process) == process
    ensures !Top(up, p).finished && (p.kind == Process ==> up == [])
  {
    hide Apart, Linked, AllQuiet, Promises, OwnedAll;
    var c := Running(up, p, k, x);
    RunningFacts(up, p, k, x, process);
    assert c[0].promise == Top(up, p);
  }

  /** What a pull needs of the generator and of the chain above it. */
  lemma PullReady(up: seq<Activation>, p: Promise, g: Idle, b: Body, k: Code, x: int, process: ProcessPromise)
    requires Ready(up, p, k, x, process) && IdleGen(g, Level(p, process)) && g.promise.kind == Generator
    ensures Ready([], g.promise, g.code, g.local, process)
    ensures Foot(Running([], g.promise, g.code, g.local)) == {g.promise} + Owned(g.code)
    ensures |Meaning(g.code, g.local).events| < |Wrap(up, Meaning(Pull(g, b, k), x)).events|
    ensures Wrap([], Meaning(g.code, g.local)) == Meaning(g.code, g.local)
    ensures p in Foot(Running(up, p, k, x)) && Top(up, p) in Foot(Running(up, p, k, x))
    ensures Level(p, process) == Level(Top(up, p), process)
    ensures !Top(up, p).finished && (p.kind == Process ==> up == [])
  {
    hide Chain, Foot, Running, Ready, Owned, Tidy, Quiet, TypedCode, Consume;
    RunningFacts(up, p, k, x, process);
    LevelFacts(up, p, k, x, process);
    StartReady(g.promise, g.code, g.local, process);
    ConsumeLonger(Meaning(g.code, g.local).events, false, b, x);
    WrapLonger(up, Meaning(Pull(g, b, k), x));
    WrapNone(Meaning(g.code, g.local));
  }

  /** What a for-each does once the pull of `g` is over. */
  function AfterPull(g: Idle, finished: bool, v: int, b: Body, k: Code, x: int): Run {
    if finished then Before([Ended(false)], Meaning(k, x))
    else Before([Got(v)], Meaning(Append(b, Pull(g, b, k)), v))
  }

  /** A pull that did `q`, then a wait, leaves the for-each waiting for the next value. */
  lemma PullWaits(up: seq<Activation>, p: Promise, g: Idle, b: Body, k: Code, x: int, q: seq<Event>, gen: Outcome,
          process: ProcessPromise)
    requires Ran(g.promise, Meaning(g.code, g.local), q, gen, process) && gen.Suspended?
    ensures Wrap(up, Meaning(Pull(g, b, k), x)) ==
            Wrap(up, Before(q + [Waited(gen.wait)], After(Activation(p, ForNext(b), k, x), Remaining(gen.chain))))
  {
    hide AtRest, Consume, After, Wrap;
    Regroup(q, [Waited(gen.wait)], Remaining(gen.chain).events);
    assert Meaning(g.code, g.local)
        == Run(q + [Waited(gen.wait)] + Remaining(gen.chain).events, Remaining(gen.chain).result);
    WaitMeans(q, gen.wait, p, Remaining(gen.chain), b, k, x);
  }

  function Pulled(g: Idle, gen: Outcome): Idle {
    if gen.Yielded? then gen.gen else g
  }

  /** A pull that did `q` and no wait goes on with the value, or with the end. */
  lemma PullEnds(up: seq<Activation>, g: Idle, b: Body, k: Code, x: int, q: seq<Event>, gen: Outcome,
          level: ProcessPromise?, process: ProcessPromise)
    requires Ran(g.promise, Meaning(g.code, g.local), q, gen, process) && (gen.Yielded? || gen.Finished?)
    requires g.promise.processPromise == null || g.promise.processPromise == level
    ensures var later := AfterPull(Pulled(g, gen), g.promise.finished, g.promise.value, b, k, x);
            Wrap(up, Meaning(Pull(g, b, k), x)) == Before(q, Wrap(up, later))
    ensures Pulled(g, gen).promise == g.promise && (!g.promise.finished ==> IdleGen(Pulled(g, gen), level))
  {
    var later := AfterPull(Pulled(g, gen), g.promise.finished, g.promise.value, b, k, x);
    if gen.Yielded? {
      ValueMeans(q, gen.gen, b, k, g.promise.value, x);
    } else {
      assert q + [] == q;
      EndMeans(q, b, k, x);
    }
    assert Meaning(Pull(g, b, k), x) == Before(q, later);
    SilentIsQuiet(q);
    WrapPrefix(up, q, later);
  }

  /** The pull of `g` by a for-each of `p`: `next()`, then the await on what it returns. */
  method PullFrom(up: seq<Activation>, p: Promise, g: Idle, b: Body, k: Code, x: int, process: ProcessPromise,
          log: Log, ghost total: Run)
    returns (out: Outcome, ghost q: seq<Event>)
    requires Ready(up, p, k, x, process)
    requires WellTyped(b, p.kind == Generator) && g.promise.kind == Generator && Outside(g, up, p, k, x)
    requires IdleGen(g, Level(p, process))
    requires total == Wrap(up, Meaning(Pull(g, b, k), x))
    modifies Foot(Running(up, p, k, x)) + {g.promise} + Owned(g.code), process, log
    ensures Did(Top(up, p), Foot(Running(up, p, k, x)) + {g.promise} + Owned(g.code), total, q, out, process, log)
    ensures out.Lost? ==> up != []
    ensures up != [] ==> !out.Yielded?
    decreases |total.events|, |up|, 1
  {
    hide Chain, AtRest, OwnedAll, Promises, Consume, Plain, PlainStmt, Wrap, Owned, Tidy, Quiet, TypedCode, Linked,
         Apart, Remaining, Silent, Ran, Tail, Append;
    ghost var foot := Foot(Running(up, p, k, x));
    ghost var todo := Meaning(g.code, g.local);
    PullReady(up, p, g, b, k, x, process);
    assert allocated(foot);
    var gen: Outcome;
    ghost var q1;
    gen, q1 := Execute([], g.promise, g.code, g.local, process, log, todo);
    assert Ready(up, p, k, x, process);
    AwaitTells(g.promise, todo, q1, gen, process);
    if !g.promise.NextReady() {
      PullWaits(up, p, g, b, k, x, q1, gen, process);
      out := SuspendBody(up, p, Activation(p, ForNext(b), k, x), g.promise, gen, process, todo, q1, total);
      q := q1;
    } else {
      var g' := Pulled(g, gen);
      PullEnds(up, g, b, k, x, q1, gen, Level(p, process), process);
      ghost var more := Wrap(up, AfterPull(g', g.promise.finished, g.promise.value, b, k, x));
      out, q := AfterNext(up, p, g', b, k, x, process, log, more);
      RanMore(Top(up, p), total, more, q1, q, out, process, old(log.events));
      q := q1 + q;
    }
  }

  /** What a caller has left to do while its callee has `r` left. */
  function CallMeaning(r: Run, k: Code): Run {
    Before(r.events, Before([Returned(r.result)], Meaning(k, r.result)))
  }

  lemma CallMeans(callee: Body, k: Code, x: int)
    ensures Meaning(Append(callee, Halt), x) == Plain(callee, x)
    ensures Meaning(Do(Call(callee), k), x) == Before([Called(x)], CallMeaning(Plain(callee, x), k))
  {
    var r := Plain(callee, x);
    AppendMeans(callee, Halt, x);
    assert r.events + [] == r.events;
    var m := Meaning(k, r.result);
    Regroup([Called(x)] + r.events, [Returned(r.result)], m.events);
    Regroup([Called(x)], r.events, [Returned(r.result)] + m.events);
  }

  /** A call that did `q`, then a wait, leaves the caller waiting for the result. */
  lemma CallWaits(up: seq<Activation>, p: Promise, c: Promise, todo: Run, k: Code, x: int, q: seq<Event>,
          run: Outcome, process: ProcessPromise)
    requires Ran(c, todo, q, run, process) && run.Suspended?
    ensures Wrap(up, CallMeaning(todo, k)) ==
            Wrap(up, Before(q + [Waited(run.wait)], After(Activation(p, ForReturn, k, x), Remaining(run.chain))))
  {
    hide AtRest, Wrap, Remaining;
    var r := Remaining(run.chain);
    var pre := q + [Waited(run.wait)];
    Regroup(q, [Waited(run.wait)], r.events);
    Regroup(pre, r.events, Before([Returned(r.result)], Meaning(k, r.result)).events);
  }

  /** A call that did `q` and no wait goes on with the result. */
  lemma CallEnds(up: seq<Activation>, c: Promise, todo: Run, k: Code, q: seq<Event>, run: Outcome,
          process: ProcessPromise)
    requires Ran(c, todo, q, run, process) && run.Finished?
    ensures Wrap(up, CallMeaning(todo, k)) == Before(q, Wrap(up, Before([Returned(c.value)], Meaning(k, c.value))))
  {
    assert q + [] == q;
    SilentIsQuiet(q);
    WrapPrefix(up, q, Before([Returned(c.value)], Meaning(k, c.value)));
  }

  lemma CalleeReady(c: Promise, callee: Body, x: int, process: ProcessPromise)
    requires AtYield(c) && c.kind == Method && c.processPromise == null && WellTyped(callee, false)
    ensures Ready([], c, Append(callee, Halt), x, process)
    ensures Foot(Running([], c, Append(callee, Halt), x)) == {c}
    ensures Wrap([], Meaning(Append(callee, Halt), x)) == Plain(callee, x)
  {
    AppendOwns(callee, Halt);
    AppendTyped(callee, Halt, false);
    CallMeans(callee, Halt, x);
    StartReady(c, Append(callee, Halt), x, process);
  }

  lemma RunningFacts(up: seq<Activation>, p: Promise, k: Code, x: int, process: ProcessPromise)
    requires Ready(up, p, k, x, process)
    ensures p in Foot(Running(up, p, k, x)) && Top(up, p) in Foot(Running(up, p, k, x))
    ensures Level(p, process) == Level(Top(up, p), process)
    ensures p.subCoroutineChild == null && (up != [] ==> up[0].promise.kind == Process && Top(up, p) == up[0].promise)
    ensures Foot(Running(up, p, k, x)) == Foot(up) + {p} + Owned(k)
    ensures p !in Foot(up) && p !in Owned(k) && Owned(k) !! Foot(up)
    ensures TypedCode(k, p.kind == Generator) && Tidy(k) && !p.finished && Quiet(k, Level(p, process))
    ensures p.kind == Process ==> p.processPromise == null
    ensures up == [] ==> p.parent == null && (p.kind == Generator ==> p.waiting == None)
    ensures up != [] ==>
      && Last(up).promise in Foot(up) && Chain(up, process) && Awaits(Last(up), Activation(p, Nothing, k, x))
      && p.parent == Last(up).promise && p.parent.subCoroutineChild == p
  {
    ChainAbove(up, Activation(p, Nothing, k, x), process);
    TopInFoot(up, p, k, x, process);
  }

  /** A running body may go on with other code and another local variable. */
  lemma ReadyWith(up: seq<Activation>, p: Promise, k: Code, x: int, m: Code, y: int, process: ProcessPromise)
    requires Ready(up, p, k, x, process)
    requires TypedCode(m, p.kind == Generator) && Tidy(m) && Quiet(m, Level(p, process))
    requires Owned(m) !! (Foot(up) + {p})
    ensures Ready(up, p, m, y, process) && Foot(Running(up, p, m, y)) == Foot(up) + {p} + Owned(m)
  {
    hide Chain, OwnedAll, Promises, Apart, Linked, Tidy, Quiet, Owned, TypedCode;
    var a, b := Activation(p, Nothing, k, x), Activation(p, Nothing, m, y);
    Replace(up, a, b, process);
    ChainAbove(up, b, process);
  }

  lemma NewLocal(up: seq<Activation>, p: Promise, k: Code, x: int, y: int, process: ProcessPromise)
    requires Ready(up, p, k, x, process)
    ensures Ready(up, p, k, y, process) && Foot(Running(up, p, k, y)) == Foot(Running(up, p, k, x))
  {
    RunningFacts(up, p, k, x, process);
    ReadyWith(up, p, k, x, k, y, process);
  }

  /** A call of a method task, awaited where it is started: its body runs eagerly. */
  method StartCall(up: seq<Activation>, p: Promise, callee: Body, k: Code, x: int, process: ProcessPromise, log: Log,
          ghost total: Run)
    returns (out: Outcome, ghost q: seq<Event>)
    requires Ready(up, p, k, x, process) && WellTyped(callee, false)
    requires total == Wrap(up, CallMeaning(Plain(callee, x), k))
    modifies Foot(Running(up, p, k, x)), process, log
    ensures Did(Top(up, p), Foot(Running(up, p, k, x)), total, q, out, process, log)
    ensures out.Lost? ==> up != []
    ensures up != [] ==> !out.Yielded?
    decreases |total.events|, |up|, 1
  {
    hide Chain, AtRest, OwnedAll, Promises, Consume, Plain, PlainStmt, Wrap, Owned, Tidy, Quiet, TypedCode, Linked,
         Apart, Remaining, Silent, Ran, Tail, Append, Meaning, WellTyped;
    ghost var foot := Foot(Running(up, p, k, x));
    ghost var todo := Plain(callee, x);
    RunningFacts(up, p, k, x, process);
    WrapLonger(up, CallMeaning(todo, k));
    assert allocated(foot);
    var c := new Promise(Method);
    CalleeReady(c, callee, x, process);
    var run: Outcome;
    ghost var q1;
    run, q1 := Execute([], c, Append(callee, Halt), x, process, log, todo);
    assert Ready(up, p, k, x, process);
    AwaitTells(c, todo, q1, run, process);
    if !c.MethodReady() {
      CallWaits(up, p, c, todo, k, x, q1, run, process);
      out := SuspendBody(up, p, Activation(p, ForReturn, k, x), c, run, process, todo, q1, total);
      q := q1;
    } else {
      CallEnds(up, c, todo, k, q1, run, process);
      NewLocal(up, p, k, x, c.value, process);
      ghost var more := Wrap(up, Before([Returned(c.value)], Meaning(k, c.value)));
      out, q := AfterCall(up, p, k, c, process, log, more);
      RanMore(Top(up, p), total, more, q1, q, out, process, old(log.events));
      q := q1 + q;
    }
  }

  // ---------------------------------------------------------------- inverting the stack

  /** The last body of a chain whose child has let go of it can run. */
  lemma ParentReady(up: seq<Activation>, process: ProcessPromise)
    requires up != [] && Chain(up, process) && Last(up).promise.subCoroutineChild == null
    requires up[0].promise.kind == Process
    ensures var u := Last(up);
            && Ready(up[..|up| - 1], u.promise, u.code, u.local, process)
            && Foot(Running(up[..|up| - 1], u.promise, u.code, u.local)) == Foot(up)
            && Top(up[..|up| - 1], u.promise) == up[0].promise
            && Level(u.promise, process) == Level(up[0].promise, process)
  {
    hide Chain, Foot, Owned, Tidy, Quiet, TypedCode;
    var u, rest := Last(up), up[..|up| - 1];
    var a := Activation(u.promise, Nothing, u.code, u.local);
    assert rest + [u] == up;
    ChainAbove(rest, u, process);
    Replace(rest, u, a, process);
    ChainAbove(rest, a, process);
  }

  /** Ran from inside its consumer or not, the consumer gets the value next. */
  lemma {:induction false} YieldMeans(up: seq<Activation>, g: Idle, v: int)
    requires up != [] && Last(up).awaiting.ForNext?
    ensures var u := Last(up);
            Wrap(up, Before([Event.Yielded(v)], Meaning(g.code, g.local))) ==
            Wrap(up[..|up| - 1], AfterPull(g, false, v, u.awaiting.body, u.code, u.local))
  {
    var u := Last(up);
    GotMeans(g, u.awaiting.body, u.code, v, true, u.local);
    assert After(u, Before([Event.Yielded(v)], Meaning(g.code, g.local)))
        == AfterPull(g, false, v, u.awaiting.body, u.code, u.local);
  }

  /** The promises at a yield: the generator and its consumer let go of each other. */
  method LetGo(p: Promise, v: int, process: ProcessPromise, ghost up: seq<Activation>, ghost g: Idle)
    returns (parent: Promise?)
    requires Ready(up, p, g.code, g.local, process) && p.kind == Generator && g.promise == p
    modifies Foot(up)`subCoroutineChild, p
    ensures IdleGen(g, old(Level(p, process))) && p.value == v && p.processPromise == old(p.processPromise)
    ensures Level(Top(up, p), process) == old(Level(Top(up, p), process))
    ensures Top(up, p).processPromise == old(Top(up, p).processPromise)
    ensures if up == [] then parent == null
            else parent == Last(up).promise && Chain(up, process) && parent.subCoroutineChild == null
  {
    hide Chain, OwnedAll, Promises, Owned, Quiet, Tidy, TypedCode, Foot, Running, Ready, Append, Meaning;
    RunningFacts(up, p, g.code, g.local, process);
    assert allocated(Foot(up)) && allocated(Owned(g.code));
    p.value := v;
    p.waiting := None;
    parent := p.parent;
    if parent != null {
      p.parent := null;
      Release(parent, up, process);
    }
  }

  /** `YieldSuspender::await_suspend`: gives the value to the consumer that called, or runs
      the consumer that is suspended on this pull from inside the yield. */
  method YieldValue(up: seq<Activation>, p: Promise, k: Code, x: int, v: int, process: ProcessPromise, log: Log,
          ghost total: Run)
    returns (out: Outcome, ghost q: seq<Event>)
    requires Ready(up, p, k, x, process) && p.kind == Generator
    requires total == Wrap(up, Before([Event.Yielded(v)], Meaning(k, x)))
    modifies Foot(Running(up, p, k, x)), process, log
    ensures Did(Top(up, p), Foot(Running(up, p, k, x)), total, q, out, process, log)
    ensures out.Lost? ==> up != []
    ensures up != [] ==> !out.Yielded?
    decreases |total.events|, |up|, 1
  {
    hide Chain, AtRest, OwnedAll, Promises, Consume, Plain, PlainStmt, Wrap, Owned, Tidy, Quiet, TypedCode, Linked,
         Apart, Remaining, Append, Meaning, WellTyped, Ready, Running, Foot, After, AfterPull;
    RunningFacts(up, p, k, x, process);
    var g := Idle(p, k, x);
    var parent := LetGo(p, v, process, up, g);
    if parent != null {
      ParentReady(up, process);
      YieldMeans(up, g, v);
      var u := Last(up);
      out, q := AfterNext(up[..|up| - 1], parent, g, u.awaiting.body, u.code, u.local, process, log, total);
    } else {
      WrapNone(Before([Event.Yielded(v)], Meaning(k, x)));
      out, q := Outcome.Yielded(g), [];
    }
  }

  lemma WrapNone(r: Run)
    ensures Wrap([], r) == r
  {
  }

  /** A method or process that ends returns its value; a generator that ends while its
      consumer is suspended on it resumes nobody. */
  lemma FinishMeans(up: seq<Activation>, x: int)
    ensures up != [] && Last(up).awaiting.ForReturn? ==>
      Wrap(up, Run([], x)) == Wrap(up[..|up| - 1], Before([Returned(x)], Meaning(Last(up).code, x)))
    ensures up != [] && Last(up).awaiting.ForNext? ==> [Ended(true)] <= Wrap(up, Run([], x)).events
    ensures up == [] ==> Wrap(up, Run([], x)) == Run([], x)
  {
    if up != [] {
      var u := Last(up);
      var m := Meaning(u.code, x);
      assert [] + ([Returned(x)] + m.events) == [Returned(x)] + m.events;
      if u.awaiting.ForNext? {
        var n := Meaning(u.code, u.local);
        assert Consume([], true, u.awaiting.body, u.local) == Run([Ended(true)], u.local);
        WrapPrefix(up[..|up| - 1], [Ended(true)], n);
        assert After(u, Run([], x)) == Before([Ended(true)], n);
      }
    }
  }

  /** `final_suspend` of each kind of coroutine. */
  method Finish(up: seq<Activation>, p: Promise, x: int, process: ProcessPromise, log: Log, ghost total: Run)
    returns (out: Outcome, ghost q: seq<Event>)
    requires Ready(up, p, Halt, x, process)
    requires total == Wrap(up, Run([], x))
    modifies Foot(Running(up, p, Halt, x)), process, log
    ensures Did(Top(up, p), Foot(Running(up, p, Halt, x)), total, q, out, process, log)
    ensures out.Lost? ==> up != []
    ensures up != [] ==> !out.Yielded?
    decreases |total.events|, |up|, 1
  {
    hide Chain, AtRest, OwnedAll, Promises, Consume, Plain, PlainStmt, Wrap, Owned, Tidy, Quiet, TypedCode, Linked,
         Apart, Remaining, Append, Meaning, WellTyped, Ready, Running, Foot, After, Before;
    RunningFacts(up, p, Halt, x, process);
    FinishMeans(up, x);
    assert allocated(Foot(up));
    p.finished := true;
    p.value := x;
    if p.kind == Method && p.parent != null {
      var parent := p.parent;
      assert Chain(up, process);
      Release(parent, up, process);
      ParentReady(up, process);
      var u, rest := Last(up), up[..|up| - 1];
      NewLocal(rest, parent, u.code, u.local, x, process);
      out, q := AfterCall(rest, parent, u.code, p, process, log, total);
    } else if p.parent != null {
      out, q := Lost, [];
      assert [] + [Ended(true)] == [Ended(true)];
    } else {
      out, q := Finished, [];
    }
  }

  /** Doing the first statement of a body. */
  lemma DoReady(up: seq<Activation>, p: Promise, s: Stmt, k: Code, x: int, process: ProcessPromise)
    requires Ready(up, p, Do(s, k), x, process)
    ensures Ready(up, p, k, x, process) && Foot(Running(up, p, k, x)) == Foot(Running(up, p, Do(s, k), x))
    ensures TypedStmt(s, p.kind == Generator)
  {
    RunningFacts(up, p, Do(s, k), x, process);
    ReadyWith(up, p, Do(s, k), x, k, x, process);
  }

  /** Taking up a for-each again. */
  lemma PullsReady(up: seq<Activation>, p: Promise, g: Idle, b: Body, k: Code, x: int, process: ProcessPromise)
    requires Ready(up, p, Pull(g, b, k), x, process)
    ensures Ready(up, p, k, x, process) && Outside(g, up, p, k, x) && IdleGen(g, Level(p, process))
    ensures Foot(Running(up, p, Pull(g, b, k), x)) == Foot(Running(up, p, k, x)) + {g.promise} + Owned(g.code)
    ensures WellTyped(b, p.kind == Generator) && g.promise.kind == Generator
  {
    hide Chain, OwnedAll, Promises, Apart, Linked, Ready, Running, Foot;
    RunningFacts(up, p, Pull(g, b, k), x, process);
    ReadyWith(up, p, Pull(g, b, k), x, k, x, process);
  }

  /** A for-each over a generator that was just created means the same. */
  lemma ForEachMeans(g: Promise, gen: Body, b: Body, k: Code, x: int)
    ensures Meaning(Do(ForEach(gen, b), k), x) == Meaning(Pull(Start(gen, g, x), b, k), x)
    ensures Owned(Append(gen, Halt)) == {}
    ensures WellTyped(gen, true) ==> IdleBody(Start(gen, g, x))
    ensures forall level :: Quiet(Append(gen, Halt), level)
  {
    AppendMeans(gen, Halt, x);
    AppendOwns(gen, Halt);
    if WellTyped(gen, true) {
      AppendTyped(gen, Halt, true);
    }
    var r := Plain(gen, x);
    assert r.events + [] == r.events;
  }

  /** `handle.resume()` once the pending await is over: runs the body of `p` until it
      suspends, yields or ends, and whatever that in turn resumes. */
  method Execute(up: seq<Activation>, p: Promise, code: Code, x: int, process: ProcessPromise, log: Log,
          ghost total: Run)
    returns (out: Outcome, ghost q: seq<Event>)
    requires Ready(up, p, code, x, process)
    requires total == Wrap(up, Meaning(code, x))
    modifies Foot(Running(up, p, code, x)), process, log
    ensures Did(Top(up, p), Foot(Running(up, p, code, x)), total, q, out, process, log)
    ensures out.Lost? ==> up != []
    ensures up != [] ==> !out.Yielded?
    decreases |total.events|, |up|, 4
  {
    match code
    case Halt =>
      out, q := Finish(up, p, x, process, log, total);
    case Pull(g, b, k) =>
      PullsReady(up, p, g, b, k, x, process);
      hide Chain, AtRest, OwnedAll, Promises, Consume, Plain, PlainStmt, Wrap, Owned, Tidy, Quiet, TypedCode, Linked,
           Apart, Remaining, Append, Meaning, WellTyped, Ready, Running, Foot, After, AfterPull, Ran, Silent,
           IdleGen, Outside;
      out, q := PullFrom(up, p, g, b, k, x, process, log, total);
    case Do(s, k) =>
      DoReady(up, p, s, k, x, process);
      out, q := DoStmt(up, p, s, k, x, process, log, total);
  }

  method DoStmt(up: seq<Activation>, p: Promise, s: Stmt, k: Code, x: int, process: ProcessPromise, log: Log,
          ghost total: Run)
    returns (out: Outcome, ghost q: seq<Event>)
    requires Ready(up, p, k, x, process) && TypedStmt(s, p.kind == Generator)
    requires total == Wrap(up, Meaning(Do(s, k), x))
    modifies Foot(Running(up, p, k, x)), process, log
    ensures Did(Top(up, p), Foot(Running(up, p, k, x)), total, q, out, process, log)
    ensures out.Lost? ==> up != []
    ensures up != [] ==> !out.Yielded?
    decreases |total.events|, |up|, 3
  {
    hide Chain, AtRest, OwnedAll, Promises, Consume, Plain, Wrap, Owned, Tidy, Quiet, TypedCode, Linked, Apart,
         Remaining, Append, WellTyped, Ready, Running, Foot, After, AfterPull, Ran, IdleGen, Outside;
    match s
    case Act(e) =>
      var v := e.Eval(x);
      ghost var more := Wrap(up, Meaning(k, x));
      WrapPrefix(up, [Acted(v)], Meaning(k, x));
      log.events := log.events + [Acted(v)];
      out, q := Execute(up, p, k, x, process, log, more);
      RanMore(Top(up, p), total, more, [Acted(v)], q, out, process, old(log.events));
      q := [Acted(v)] + q;
    case Wait(w) =>
      out, q := WaitFor(up, p, k, x, w, process, log, total);
    case Call(callee) =>
      ghost var more := Wrap(up, CallMeaning(Plain(callee, x), k));
      CallMeans(callee, k, x);
      WrapPrefix(up, [Called(x)], CallMeaning(Plain(callee, x), k));
      log.events := log.events + [Called(x)];
      out, q := StartCall(up, p, callee, k, x, process, log, more);
      RanMore(Top(up, p), total, more, [Called(x)], q, out, process, old(log.events));
      q := [Called(x)] + q;
    case Yield(e) =>
      out, q := YieldValue(up, p, k, x, e.Eval(x), process, log, total);
    case ForEach(gen, b) =>
      out, q := StartForEach(up, p, gen, b, k, x, process, log, total);
  }

  /** A wait that is not ready suspends the whole chain. */
  method WaitFor(up: seq<Activation>, p: Promise, k: Code, x: int, w: int, process: ProcessPromise, log: Log,
          ghost total: Run)
    returns (out: Outcome, ghost q: seq<Event>)
    requires Ready(up, p, k, x, process)
    requires total == Wrap(up, Before([Waited(w)], Meaning(k, x)))
    modifies Foot(Running(up, p, k, x)), process, log
    ensures Did(Top(up, p), Foot(Running(up, p, k, x)), total, q, out, process, log)
    ensures out.Lost? ==> up != []
    ensures up != [] ==> !out.Yielded?
    decreases |total.events|, |up|, 0
  {
    hide Chain, OwnedAll, Promises, Consume, Plain, Wrap, Owned, Tidy, Quiet, TypedCode, Linked, Apart, Append,
         After, Meaning;
    var c := Running(up, p, k, x);
    RunningFacts(up, p, k, x, process);
    assert c[..|up|] == up;
    WrapPrefix(up, [Waited(w)], Meaning(k, x));
    log.events := log.events + [Waited(w)];
    AwaitSuspend(p, w, process, c);
    out, q := Suspended(w, c), [];
  }

  method StartForEach(up: seq<Activation>, p: Promise, gen: Body, b: Body, k: Code, x: int, process: ProcessPromise,
          log: Log, ghost total: Run)
    returns (out: Outcome, ghost q: seq<Event>)
    requires Ready(up, p, k, x, process) && WellTyped(gen, true) && WellTyped(b, p.kind == Generator)
    requires total == Wrap(up, Meaning(Do(ForEach(gen, b), k), x))
    modifies Foot(Running(up, p, k, x)), process, log
    ensures Did(Top(up, p), Foot(Running(up, p, k, x)), total, q, out, process, log)
    ensures out.Lost? ==> up != []
    ensures up != [] ==> !out.Yielded?
    decreases |total.events|, |up|, 2
  {
    hide Chain, AtRest, OwnedAll, Promises, Consume, Plain, PlainStmt, Wrap, Owned, Tidy, Quiet, TypedCode, Linked,
         Apart, Remaining, Append, Meaning, WellTyped, Ready, Running, Foot, After, AfterPull, Ran, Silent;
    ghost var foot := Foot(Running(up, p, k, x));
    RunningFacts(up, p, k, x, process);
    assert allocated(foot);
    var g := new Promise(Generator);
    ForEachMeans(g, gen, b, k, x);
    out, q := PullFrom(up, p, Start(gen, g, x), b, k, x, process, log, total);
  }
}
