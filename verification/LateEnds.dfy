/** Which scripts meet the one condition the machine needs: no generator suspends between
    its last yield and its end. Decided from the script alone. */
module LateEnds {
  import opened Scripts

  /** A late end occurs among these events. */
  predicate HasLate(es: seq<Event>) {
    es != [] && (es[0] == Ended(true) || HasLate(es[1..]))
  }

  /** Whether there is a yield, a wait, and a wait that no yield follows. */
  datatype Shape = Shape(values: bool, waits: bool, tail: bool)

  const NOTHING := Shape(false, false, false)

  function ShapeOf(es: seq<Event>): Shape {
    if es == [] then NOTHING
    else
      var t := ShapeOf(es[1..]);
      Shape(es[0].Yielded? || t.values, es[0].Waited? || t.waits,
            t.tail || (es[0].Waited? && !t.values))
  }

  function Join(a: Shape, b: Shape): Shape {
    Shape(a.values || b.values, a.waits || b.waits, b.tail || (a.tail && !b.values))
  }

  /** The shape of a for-each from those of its generator and of its body. */
  function Loop(g: Shape, b: Shape): Shape {
    if !g.values then g
    else Shape(b.values, g.waits || b.waits, if b.values then b.tail || g.tail else g.waits || b.waits)
  }

  function Analyse(b: Body): Shape {
    match b
    case End => NOTHING
    case Then(s, rest) => Join(AnalyseStmt(s), Analyse(rest))
  }

  function AnalyseStmt(s: Stmt): Shape {
    match s
    case Act(_) => NOTHING
    case Wait(_) => Shape(false, true, true)
    case Call(c) => Analyse(c)
    case Yield(_) => Shape(true, false, false)
    case ForEach(g, b) => Loop(Analyse(g), Analyse(b))
  }

  /** Every generator that runs ends without a wait after its last yield. The body of a
      loop runs if its generator yields at all. */
  predicate Clean(b: Body) {
    match b
    case End => true
    case Then(s, rest) => CleanStmt(s) && Clean(rest)
  }

  predicate CleanStmt(s: Stmt) {
    match s
    case Act(_) => true
    case Wait(_) => true
    case Call(c) => Clean(c)
    case Yield(_) => true
    case ForEach(g, b) => Clean(g) && !Analyse(g).tail && (Analyse(g).values ==> Clean(b))
  }

  lemma {:induction false} ShapeJoin(a: seq<Event>, b: seq<Event>)
    ensures ShapeOf(a + b) == Join(ShapeOf(a), ShapeOf(b))
    ensures HasLate(a + b) == (HasLate(a) || HasLate(b))
    decreases |a|
  {
    if a == [] {
      assert a + b == b;
    } else {
      assert (a + b)[1..] == a[1..] + b;
      ShapeJoin(a[1..], b);
    }
  }

  lemma {:induction false} ShapeSound(es: seq<Event>)
    ensures var s := ShapeOf(es); (s.tail ==> s.waits) && (!s.values ==> s.tail == s.waits)
  {
    if es != [] {
      ShapeSound(es[1..]);
    }
  }

  /** The analysis tells the shape of what a body does, and whether a late end occurs. */
  lemma {:induction false} AnalysisExact(b: Body, x: int)
    ensures ShapeOf(Plain(b, x).events) == Analyse(b)
    ensures HasLate(Plain(b, x).events) == !Clean(b)
    decreases b, 0
  {
    match b
    case End =>
    case Then(s, rest) =>
      var r := PlainStmt(s, x);
      StmtExact(s, x);
      AnalysisExact(rest, r.result);
      ShapeJoin(r.events, Plain(rest, r.result).events);
  }

  lemma {:induction false} StmtExact(s: Stmt, x: int)
    ensures ShapeOf(PlainStmt(s, x).events) == AnalyseStmt(s)
    ensures HasLate(PlainStmt(s, x).events) == !CleanStmt(s)
    decreases s, 0
  {
    match s
    case Act(_) =>
    case Wait(_) =>
    case Yield(_) =>
    case Call(c) =>
      var r := Plain(c, x);
      AnalysisExact(c, x);
      ShapeSound(r.events);
      ShapeJoin([Called(x)], r.events);
      ShapeJoin([Called(x)] + r.events, [Returned(r.result)]);
    case ForEach(g, b) =>
      AnalysisExact(g, x);
      LoopExact(Plain(g, x).events, false, b, x);
  }

  lemma {:induction false} LoopExact(todo: seq<Event>, waited: bool, b: Body, x: int)
    ensures var es := Consume(todo, waited, b, x).events; var g := ShapeOf(todo);
            && ShapeOf(es) == Loop(g, Analyse(b))
            && HasLate(es) == (HasLate(todo) || (g.values && !Clean(b)) || g.tail || (waited && !g.values))
    decreases b, 1, |todo|
  {
    ShapeSound(todo);
    if todo != [] {
      ShapeSound(todo[1..]);
      if todo[0].Yielded? {
        var r := Plain(b, todo[0].v);
        AnalysisExact(b, todo[0].v);
        ShapeSound(r.events);
        var t := Consume(todo[1..], false, b, r.result);
        LoopExact(todo[1..], false, b, r.result);
        ShapeJoin([Got(todo[0].v)], r.events);
        ShapeJoin([Got(todo[0].v)] + r.events, t.events);
      } else {
        var t := Consume(todo[1..], waited || todo[0].Waited?, b, x);
        LoopExact(todo[1..], waited || todo[0].Waited?, b, x);
        ShapeJoin([todo[0]], t.events);
      }
    }
  }
}
