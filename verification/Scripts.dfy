/** The bodies of processes, method tasks and generators as finite scripts, and what
    a script means when calls are plain nested calls and a generator is a plain pull
    iterator. Nothing here knows about promises or suspension. */
module Scripts {

  /** A value computed from the one local variable of a body. */
  datatype Expr = Const(n: int) | Local(plus: int) {
    function Eval(x: int): int {
      match this
      case Const(n) => n
      case Local(plus) => x + plus
    }
  }

  /** One statement of a body. `Wait` is an awaited wait that is not ready; a ready one
      does nothing. `Call` passes the local variable and receives the result in it.
      `ForEach` drains a generator, holding each value in the local variable. */
  datatype Stmt =
    | Act(e: Expr)
    | Wait(w: int)
    | Call(callee: Body)
    | Yield(e: Expr)
    | ForEach(gen: Body, body: Body)

  datatype Body = End | Then(first: Stmt, rest: Body)

  /** What can be observed. `Yielded` belongs to a generator on its own; inside a
      consumer it has become `Got`. `Ended(late)` is the false that ends a for-each, and
      `late` tells whether the generator suspended after its last yield. */
  datatype Event =
    | Acted(v: int)
    | Waited(w: int)
    | Called(v: int)
    | Returned(v: int)
    | Yielded(v: int)
    | Got(v: int)
    | Ended(late: bool)

  datatype Run = Run(events: seq<Event>, result: int)

  /** Only generators yield. */
  predicate WellTyped(b: Body, generator: bool) {
    match b
    case End => true
    case Then(s, rest) => TypedStmt(s, generator) && WellTyped(rest, generator)
  }

  predicate TypedStmt(s: Stmt, generator: bool) {
    match s
    case Act(_) => true
    case Wait(_) => true
    case Call(c) => WellTyped(c, false)
    case Yield(_) => generator
    case ForEach(g, b) => WellTyped(g, true) && WellTyped(b, generator)
  }

  // ---------------------------------------------------------------- plain semantics

  function Plain(b: Body, x: int): Run
    decreases b, 0
  {
    match b
    case End => Run([], x)
    case Then(s, rest) =>
      var r := PlainStmt(s, x);
      var t := Plain(rest, r.result);
      Run(r.events + t.events, t.result)
  }

  function PlainStmt(s: Stmt, x: int): Run
    decreases s, 0
  {
    match s
    case Act(e) => Run([Acted(e.Eval(x))], x)
    case Wait(w) => Run([Waited(w)], x)
    case Call(c) =>
      var r := Plain(c, x);
      Run([Called(x)] + r.events + [Returned(r.result)], r.result)
    case Yield(e) => Run([Yielded(e.Eval(x))], x)
    case ForEach(g, b) => Consume(Plain(g, x).events, false, b, x)
  }

  /** A generator that still does `todo` is drained by the loop body `b`. `waited` says
      whether the pull in progress has already suspended. */
  function Consume(todo: seq<Event>, waited: bool, b: Body, x: int): Run
    decreases b, 1, |todo|
  {
    if todo == [] then
      Run([Ended(waited)], x)
    else if todo[0].Yielded? then
      var r := Plain(b, todo[0].v);
      var t := Consume(todo[1..], false, b, r.result);
      Run([Got(todo[0].v)] + r.events + t.events, t.result)
    else
      var t := Consume(todo[1..], waited || todo[0].Waited?, b, x);
      Run([todo[0]] + t.events, t.result)
  }

  /** `r` preceded by `events`. */
  function Before(events: seq<Event>, r: Run): Run {
    Run(events + r.events, r.result)
  }

  predicate NoYield(es: seq<Event>) {
    es != [] ==> !es[0].Yielded? && NoYield(es[1..])
  }

  predicate HasWait(es: seq<Event>) {
    es != [] && (es[0].Waited? || HasWait(es[1..]))
  }

  /** Events that are no yield pass through a consumer unchanged. */
  lemma {:induction false} ConsumePrefix(q: seq<Event>, todo: seq<Event>, waited: bool, b: Body, x: int)
    requires NoYield(q)
    ensures Consume(q + todo, waited, b, x) == Before(q, Consume(todo, waited || HasWait(q), b, x))
  {
    hide Plain, PlainStmt;
    if q == [] {
      assert q + todo == todo;
    } else {
      assert (q + todo)[1..] == q[1..] + todo;
      var seen := waited || q[0].Waited?;
      var r := Consume(todo, seen || HasWait(q[1..]), b, x);
      ConsumePrefix(q[1..], todo, seen, b, x);
      assert Consume(q + todo, waited, b, x) == Before([q[0]], Before(q[1..], r));
      assert [q[0]] + (q[1..] + r.events) == q + r.events;
    }
  }

  // ---------------------------------------------------------------- a for-each is a pull loop

  /** How many events a generator does before its next yield, or its end. */
  function BeforeYield(todo: seq<Event>): (n: nat)
    ensures n <= |todo| && NoYield(todo[..n]) && (n < |todo| ==> todo[n].Yielded?)
  {
    if todo == [] || todo[0].Yielded? then 0
    else
      var n := BeforeYield(todo[1..]);
      assert todo[..n + 1][1..] == todo[1..][..n];
      n + 1
  }

  /** `while (next()) { body }`: each call of `next` runs the generator up to its next
      yield, or to its end. */
  function PullLoop(todo: seq<Event>, b: Body, x: int): Run
    decreases |todo|
  {
    var n := BeforeYield(todo);
    if n == |todo| then
      Run(todo + [Ended(HasWait(todo))], x)
    else
      var r := Plain(b, todo[n].v);
      Before(todo[..n] + [Got(todo[n].v)], Before(r.events, PullLoop(todo[n + 1..], b, r.result)))
  }

  /** A for-each is that loop: its consumer gets exactly the yielded values, in order, each
      before the next one is asked for, then one false. */
  lemma {:induction false} ForEachIsPullLoop(todo: seq<Event>, b: Body, x: int)
    ensures Consume(todo, false, b, x) == PullLoop(todo, b, x)
    decreases |todo|
  {
    var n := BeforeYield(todo);
    var pre := todo[..n];
    assert pre + todo[n..] == todo;
    ConsumePrefix(pre, todo[n..], false, b, x);
    if n == |todo| {
      assert pre == todo && todo[n..] == [];
    } else {
      var v := todo[n].v;
      var r := Plain(b, v);
      var t := Consume(todo[n + 1..], false, b, r.result);
      ForEachIsPullLoop(todo[n + 1..], b, r.result);
      assert todo[n..][0] == todo[n] && todo[n..][1..] == todo[n + 1..];
      assert Consume(todo[n..], HasWait(pre), b, x) == Run([Got(v)] + r.events + t.events, t.result);
      hide Consume, BeforeYield, Plain, NoYield, HasWait;
      Associate(pre, [Got(v)], r.events, t.events);
    }
  }

  lemma Associate(a: seq<Event>, b: seq<Event>, c: seq<Event>, d: seq<Event>)
    ensures a + (b + c + d) == a + b + (c + d)
  {
  }

  // ---------------------------------------------------------------- calls and generators inlined

  /** The statements of `a`, then those of `b`. */
  function Concat(a: Body, b: Body): Body {
    match a
    case End => b
    case Then(s, rest) => Then(s, Concat(rest, b))
  }

  /** The events but for the marks of calls. */
  function Unmarked(es: seq<Event>): seq<Event> {
    if es == [] then []
    else (if es[0].Called? || es[0].Returned? then [] else [es[0]]) + Unmarked(es[1..])
  }

  lemma {:induction false} UnmarkedJoin(a: seq<Event>, b: seq<Event>)
    ensures Unmarked(a + b) == Unmarked(a) + Unmarked(b)
    decreases |a|
  {
    if a == [] {
      assert a + b == b;
    } else {
      var one := if a[0].Called? || a[0].Returned? then [] else [a[0]];
      assert (a + b)[0] == a[0] && (a + b)[1..] == a[1..] + b;
      UnmarkedJoin(a[1..], b);
      assert one + (Unmarked(a[1..]) + Unmarked(b)) == one + Unmarked(a[1..]) + Unmarked(b);
    }
  }

  lemma {:induction false} ConcatMeans(a: Body, b: Body, x: int)
    ensures Plain(Concat(a, b), x) == Before(Plain(a, x).events, Plain(b, Plain(a, x).result))
    decreases a
  {
    if a.Then? {
      var r := PlainStmt(a.first, x);
      ConcatMeans(a.rest, b, r.result);
      hide PlainStmt;
      assert r.events + (Plain(a.rest, r.result).events + Plain(b, Plain(a, x).result).events)
          == r.events + Plain(a.rest, r.result).events + Plain(b, Plain(a, x).result).events;
    }
  }

  /** A call does what the statements of the callee would do in its place: it gets the local
      variable of the caller, and leaves its result there. */
  lemma CallInlines(c: Body, rest: Body, x: int)
    ensures var r, i := Plain(Then(Call(c), rest), x), Plain(Concat(c, rest), x);
      && Unmarked(r.events) == Unmarked(i.events) && r.result == i.result
      && [Called(x)] <= r.events && Returned(Plain(c, x).result) in r.events
  {
    var body, later := Plain(c, x), Plain(rest, Plain(c, x).result);
    ConcatMeans(c, rest, x);
    assert Plain(Then(Call(c), rest), x).events == [Called(x)] + body.events + [Returned(body.result)] + later.events;
    hide Plain, PlainStmt;
    UnmarkedJoin(body.events, later.events);
    UnmarkedJoin([Called(x)] + body.events + [Returned(body.result)], later.events);
    UnmarkedJoin([Called(x)] + body.events, [Returned(body.result)]);
    UnmarkedJoin([Called(x)], body.events);
    assert Unmarked([Called(x)]) == [] && Unmarked([Returned(body.result)]) == [];
    assert [] + Unmarked(body.events) + [] == Unmarked(body.events);
  }

  lemma {:induction false} NothingYielded(b: Body, x: int)
    requires WellTyped(b, false)
    ensures NoYield(Plain(b, x).events)
    decreases b, 0
  {
    if b.Then? {
      var r := PlainStmt(b.first, x);
      StmtYields(b.first, x);
      NothingYielded(b.rest, r.result);
      NoYieldJoin(r.events, Plain(b.rest, r.result).events);
    }
  }

  lemma {:induction false} StmtYields(s: Stmt, x: int)
    requires TypedStmt(s, false)
    ensures NoYield(PlainStmt(s, x).events)
    decreases s, 0
  {
    match s
    case Call(c) =>
      var r := Plain(c, x);
      NothingYielded(c, x);
      NoYieldJoin([Called(x)] + r.events, [Returned(r.result)]);
      NoYieldJoin([Called(x)], r.events);
    case ForEach(g, b) => ConsumeYields(Plain(g, x).events, false, b, x);
    case _ =>
  }

  lemma {:induction false} ConsumeYields(todo: seq<Event>, waited: bool, b: Body, x: int)
    requires WellTyped(b, false)
    ensures NoYield(Consume(todo, waited, b, x).events)
    decreases b, 1, |todo|
  {
    if todo == [] {
    } else if todo[0].Yielded? {
      var r := Plain(b, todo[0].v);
      var t := Consume(todo[1..], false, b, r.result);
      NothingYielded(b, todo[0].v);
      ConsumeYields(todo[1..], false, b, r.result);
      NoYieldJoin([Got(todo[0].v)] + r.events, t.events);
      NoYieldJoin([Got(todo[0].v)], r.events);
    } else {
      var t := Consume(todo[1..], waited || todo[0].Waited?, b, x);
      ConsumeYields(todo[1..], waited || todo[0].Waited?, b, x);
      NoYieldJoin([todo[0]], t.events);
    }
  }

  lemma {:induction false} NoYieldJoin(a: seq<Event>, b: seq<Event>)
    requires NoYield(a) && NoYield(b)
    ensures NoYield(a + b)
    decreases |a|
  {
    if a == [] {
      assert a + b == b;
    } else {
      assert (a + b)[1..] == a[1..] + b;
      NoYieldJoin(a[1..], b);
    }
  }

  /** A generator starts with the local variable of its consumer. One that yields nothing is
      run for what it does, and ends the loop. */
  lemma ForEachOfNothing(g: Body, b: Body, x: int)
    requires WellTyped(g, false)
    ensures var es := Plain(g, x).events;
      PlainStmt(ForEach(g, b), x) == Run(es + [Ended(HasWait(es))], x)
  {
    var es := Plain(g, x).events;
    NothingYielded(g, x);
    ConsumePrefix(es, [], false, b, x);
    assert es + [] == es;
    assert Consume([], HasWait(es), b, x) == Run([Ended(HasWait(es))], x);
    hide Plain, Consume;
  }

  /** One that first does `pre` and then yields: the loop body is run on the value, and the
      loop goes on with the rest of the generator, whose local variable the loop body does
      not touch. */
  lemma ForEachOfYield(pre: Body, e: Expr, g: Body, b: Body, x: int)
    requires WellTyped(pre, false)
    ensures var p := Plain(pre, x);
            var v := e.Eval(p.result);
            var r := Plain(b, v);
      PlainStmt(ForEach(Concat(pre, Then(Yield(e), g)), b), x) ==
        Before(p.events + [Got(v)] + r.events, Consume(Plain(g, p.result).events, false, b, r.result))
  {
    hide Plain, Consume, PlainStmt;
    var p := Plain(pre, x);
    var v := e.Eval(p.result);
    var r, later := Plain(b, v), Plain(g, p.result).events;
    var t := Consume(later, false, b, r.result);
    NothingYielded(pre, x);
    ConcatMeans(pre, Then(Yield(e), g), x);
    YieldFirst(e, g, p.result);
    ConsumePrefix(p.events, [Yielded(v)] + later, false, b, x);
    ConsumeValue(v, later, HasWait(p.events), b, x);
    ForEachConsumes(Concat(pre, Then(Yield(e), g)), b, x);
    assert p.events + ([Got(v)] + r.events + t.events) == p.events + [Got(v)] + r.events + t.events;
  }

  lemma ForEachConsumes(g: Body, b: Body, x: int)
    ensures PlainStmt(ForEach(g, b), x) == Consume(Plain(g, x).events, false, b, x)
  {
    hide Plain, Consume;
  }

  lemma YieldFirst(e: Expr, g: Body, x: int)
    ensures Plain(Then(Yield(e), g), x).events == [Yielded(e.Eval(x))] + Plain(g, x).events
  {
  }

  lemma ConsumeValue(v: int, later: seq<Event>, waited: bool, b: Body, x: int)
    ensures Consume([Yielded(v)] + later, waited, b, x) ==
      Before([Got(v)] + Plain(b, v).events, Consume(later, false, b, Plain(b, v).result))
  {
    assert ([Yielded(v)] + later)[1..] == later;
  }

  /** What the other statements do. */
  lemma StatementsMean(n: int, w: int, rest: Body, x: int)
    ensures Plain(Then(Act(Const(n)), rest), x) == Before([Acted(n)], Plain(rest, x))
    ensures Plain(Then(Act(Local(n)), rest), x) == Before([Acted(x + n)], Plain(rest, x))
    ensures Plain(Then(Wait(w), rest), x) == Before([Waited(w)], Plain(rest, x))
    ensures Plain(End, x) == Run([], x)
  {
  }
}
