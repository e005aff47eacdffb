/** Many senders to one mailbox: exactly when the wake-up of one is lost, and a run in which
    it is. */
module LostWakeups {
  import opened Options
  import opened Mailboxes
  import opened Scheduler
  import opened PidTable
  import opened Stamps
  import opened Throttles
  import opened Runs

  /** Some step on the way displaces the continuation of `p`. */
  predicate DisplacedIn(s: State, ms: seq<Step>, p: Pid, a: Address)
    decreases |ms|
  {
    ms != [] && (Displaces(s, ms[0], p, a) || DisplacedIn(Next(s, ms[0]), ms[1..], p, a))
  }

  /** A sender that is live and was not resumed still waits; its continuation is held or
      posted if and only if it was and was not displaced on the way. */
  lemma {:induction false} KnownAlong(s: State, ms: seq<Step>, t: State, p: Pid, a: Address)
    requires Inv(s) && Leads(s, ms, t) && WaitsAt(s, p, a)
    requires Live(t, p) && At(t, p).resumes == At(s, p).resumes
    ensures WaitsAt(t, p, a) && (Known(t, p, a) <==> Known(s, p, a) && !DisplacedIn(s, ms, p, a))
    decreases |ms|
  {
    hide Inv, TableOk, StampsOk, ThrottlesOk, Enabled, Next, Known, Displaces, Live, At;
    if ms != [] {
      var m, u := ms[0], Next(s, ms[0]);
      InvParts(s);
      NotResumed(s, m, ms[1..], t, p, a);
      KnownAlong(u, ms[1..], t, p, a);
      if Known(s, p, a) {
        KnownExactly(s, m, p, a);
      } else {
        LostStays(s, m, p, a);
      }
    }
  }

  lemma InvParts(s: State)
    requires Inv(s)
    ensures TableOk(s) && StampsOk(s) && ThrottlesOk(s)
  {
    hide Inv;
    InvTable(s);
    InvStamps(s);
  }

  /** It was not resumed by the first step either. */
  lemma NotResumed(s: State, m: Step, ms: seq<Step>, t: State, p: Pid, a: Address)
    requires Inv(s) && Enabled(s, m) && Leads(Next(s, m), ms, t) && WaitsAt(s, p, a)
    requires Live(t, p) && At(t, p).resumes == At(s, p).resumes
    ensures Inv(Next(s, m)) && WaitsAt(Next(s, m), p, a) && At(Next(s, m), p).resumes == At(s, p).resumes
  {
    hide Inv, TableOk, StampsOk, ThrottlesOk, Enabled, Next, Leads, Live, Woken, Touched;
    InvParts(s);
    LiveExists(s, p);
    LiveNext(s, m, ms, t, p);
    GoesOnWaiting(s, m, p, a);
  }

  /** In every run, with any number of senders: from the moment a sender comes to wait for
      room (`s`) until it is resumed or dies, its continuation is held by the mailbox or
      posted if and only if no other sender has come to wait there while it was not posted.
      If there is room by then, its wake-up is posted if and only if that is so. */
  lemma LostExactly(ms: seq<Step>, s: State, p: Pid, l: Letter, ns: seq<Step>, t: State)
    requires var m := Step.Suspend(p, OnThrottle(l));
      Leads(BEGINNING, ms, s) && Enabled(s, m) && Leads(Next(s, m), ns, t)
    requires Live(t, p) && At(t, p).resumes == At(s, p).resumes
    ensures var u := Next(s, Step.Suspend(p, OnThrottle(l)));
      && WaitsAt(t, p, l.to) && (Known(t, p, l.to) <==> !DisplacedIn(u, ns, p, l.to))
      && (|BoxAt(t, l.to).contents| < THROTTLE ==> (Me(t, p) in t.posted <==> !DisplacedIn(u, ns, p, l.to)))
  {
    var m := Step.Suspend(p, OnThrottle(l));
    hide Inv, Leads, Enabled, Next, DisplacedIn, Live, HeldBy, ThrottlesOk, Replaces, BoxAt;
    AtEveryStep(ms, s);
    Suspended(s, p, l, ns, t);
    KnownAlong(Next(s, m), ns, t, p, l.to);
    EveryStep(Next(s, m), ns, t);
    InvStamps(t);
    if Known(t, p, l.to) {
      NoLostWakeup(t, p, l.to);
    }
  }

  lemma Suspended(s: State, p: Pid, l: Letter, ns: seq<Step>, t: State)
    requires var m := Step.Suspend(p, OnThrottle(l)); Inv(s) && Enabled(s, m) && Leads(Next(s, m), ns, t) && Live(t, p)
    ensures var u := Next(s, Step.Suspend(p, OnThrottle(l)));
      Inv(u) && WaitsAt(u, p, l.to) && Known(u, p, l.to) && At(u, p).resumes == At(s, p).resumes
  {
    var m := Step.Suspend(p, OnThrottle(l));
    hide Inv, Leads, Enabled, Next, Live, HeldBy, ThrottlesOk, StampsOk, TableOk, Replaces, SuspendStep, Full;
    InvParts(s);
    TableFacts(s);
    RoomIs(s, m);
    RoomThrottles(s, m);
    LiveNext(s, m, ns, t, p);
    SuspendWaits(s, p, m.w);
  }

  lemma SuspendWaits(s: State, p: Pid, w: Wait)
    ensures At(SuspendStep(s, p, w), p).waiting == w && At(SuspendStep(s, p, w), p).resumes == At(s, p).resumes
  {
    hide SameLinks, SameProcesses;
  }

  /** In every run: a sender whose continuation is lost is never resumed again; it waits
      until it dies. */
  lemma LostForEver(ms: seq<Step>, s: State, ns: seq<Step>, t: State, p: Pid, a: Address)
    requires Leads(BEGINNING, ms, s) && Leads(s, ns, t) && WaitsAt(s, p, a) && !Known(s, p, a) && Live(t, p)
    ensures WaitsAt(t, p, a) && !Known(t, p, a) && At(t, p).resumes == At(s, p).resumes
  {
    hide Inv, Leads, Live, At, Known;
    AtEveryStep(ms, s);
    LostAlong(s, ns, t, p, a);
  }

  lemma {:induction false} LostAlong(s: State, ms: seq<Step>, t: State, p: Pid, a: Address)
    requires Inv(s) && Leads(s, ms, t) && WaitsAt(s, p, a) && !Known(s, p, a) && Live(t, p)
    ensures WaitsAt(t, p, a) && !Known(t, p, a) && At(t, p).resumes == At(s, p).resumes
    decreases |ms|
  {
    hide Inv, TableOk, StampsOk, ThrottlesOk, Enabled, Next, Known, Live;
    if ms != [] {
      InvParts(s);
      LiveExists(s, p);
      LiveNext(s, ms[0], ms[1..], t, p);
      LostStays(s, ms[0], p, a);
      LostAlong(Next(s, ms[0]), ms[1..], t, p, a);
    }
  }

  // ---------------------------------------------------------------- a run in which one is lost

  const RECEIVER := Pid(0, 0)
  const FIRST := Pid(1, 0)
  const SECOND := Pid(2, 0)
  const BOX := Address(RECEIVER, 0)
  const LETTER := Letter(BOX, Data(0))

  /** A process that has been resumed once, unless it has not started. */
  function Once(w: Wait, boxes: seq<Box>): Proc {
    Proc(if w.NotStarted? then 0 else 1, w, [], [], boxes)
  }

  /** Steps lead to a state with these processes, items and posted continuations. */
  ghost predicate Scene(s: State, running: Option<Pid>, table: seq<Option<Pid>>, procs: map<Pid, Proc>,
          queue: seq<Item>, posted: seq<Waiter>) {
    && Follows(BEGINNING, s) && Addressable(s, BOX) && s.tombstones == []
    && s.running == running && s.table == table && s.procs == procs && s.queue == queue && s.posted == posted
  }

  lemma Begun() returns (t: State)
    ensures Scene(t, None, [Some(RECEIVER)], map[RECEIVER := Once(NotStarted, [EMPTY_BOX])], [Resume(RECEIVER, 0)], [])
  {
    var m := Spawn(1, None, false, []);
    t := Next(BEGINNING, m);
    FollowsSelf(BEGINNING);
    FollowsOn(BEGINNING, BEGINNING, m);
    hide Follows;
    assert seq(1, _ => EMPTY_BOX) == [EMPTY_BOX];
  }

  lemma SpawnSender(s: State, x: Pid, table: seq<Option<Pid>>, procs: map<Pid, Proc>, queue: seq<Item>)
    returns (t: State)
    requires Scene(s, None, table, procs, queue, []) && x == Pid(|table|, 0) && x != RECEIVER
    ensures Scene(t, None, table + [Some(x)], procs[x := Once(NotStarted, [])], queue + [Resume(x, 0)], [])
  {
    var m := Spawn(0, None, false, []);
    t := Next(s, m);
    FollowsOn(BEGINNING, s, m);
    hide Follows;
    assert seq(0, _ => EMPTY_BOX) == [];
  }

  function Letters(n: nat): seq<Item> {
    seq(n, _ => Mail(LETTER))
  }

  lemma {:induction false} SendMany(s: State, n: nat, table: seq<Option<Pid>>, procs: map<Pid, Proc>, queue: seq<Item>)
    returns (t: State)
    requires Scene(s, None, table, procs, queue, [])
    ensures Scene(t, None, table, procs, queue + Letters(n), [])
    decreases n
  {
    t := s;
    if n > 0 {
      var u := Next(s, SendPlain(LETTER));
      FollowsOn(BEGINNING, s, SendPlain(LETTER));
      hide Follows, SameLinks, SameProcesses;
      t := SendMany(u, n - 1, table, procs, queue + [Mail(LETTER)]);
      assert queue + [Mail(LETTER)] + Letters(n - 1) == queue + Letters(n);
    }
  }

  /** A process starts. */
  lemma Starts(s: State, x: Pid, table: seq<Option<Pid>>, procs: map<Pid, Proc>, boxes: seq<Box>, queue: seq<Item>)
    returns (t: State)
    requires Scene(s, None, table, procs, [Resume(x, 0)] + queue, [])
    requires x in procs && procs[x] == Once(NotStarted, boxes) && InTable(table, x)
    ensures Scene(t, Some(x), table, procs[x := Once(Running(None), boxes)], queue, [])
  {
    t := Next(s, WakeItem);
    FollowsOn(BEGINNING, s, WakeItem);
    hide Follows;
  }

  lemma Sleeps(s: State, x: Pid, table: seq<Option<Pid>>, procs: map<Pid, Proc>, boxes: seq<Box>, queue: seq<Item>)
    returns (t: State)
    requires Scene(s, Some(x), table, procs, queue, []) && x in procs && procs[x] == Once(Running(None), boxes)
    ensures Scene(t, None, table, procs[x := Once(Sleeping, boxes)], queue, [])
  {
    t := Next(s, Step.Suspend(x, Sleeping));
    SuspendIs(s, x, Sleeping);
    FollowsOn(BEGINNING, s, Step.Suspend(x, Sleeping));
    hide Follows, Next;
  }

  lemma OneBox(s: State, box: Box, b: Box)
    requires RECEIVER in s.procs && s.procs[RECEIVER].boxes == [box]
    ensures BoxAt(s, BOX) == box
    ensures PutBox(s, BOX, b) == s.(procs := s.procs[RECEIVER := s.procs[RECEIVER].(boxes := [b])])
  {
    hide SameLinks, SameProcesses;
    assert [box][0 := b] == [b];
  }

  lemma DeliverOne(s: State, box: Box, table: seq<Option<Pid>>, procs: map<Pid, Proc>, queue: seq<Item>)
    returns (t: State)
    requires Scene(s, None, table, procs, [Mail(LETTER)] + queue, [])
    requires RECEIVER in procs && procs[RECEIVER] == Once(Sleeping, [box]) && InTable(table, RECEIVER)
    ensures Scene(t, None, table, procs[RECEIVER := Once(Sleeping, [Push(box, Data(0))])], queue, [])
  {
    t := Next(s, Deliver);
    ItemIs(s);
    FollowsOn(BEGINNING, s, Deliver);
    OneBox(s, box, Push(box, Data(0)));
    OneBox(PopItem(s), box, Push(box, Data(0)));
    hide Follows, Next, PutBox, SameLinks, SameProcesses, Enabled;
  }

  lemma {:induction false} DeliverMany(s: State, n: nat, box: Box, table: seq<Option<Pid>>, procs: map<Pid, Proc>,
          queue: seq<Item>)
    returns (t: State, last: Box)
    requires Scene(s, None, table, procs, Letters(n) + queue, [])
    requires RECEIVER in procs && procs[RECEIVER] == Once(Sleeping, [box]) && InTable(table, RECEIVER)
    ensures last.promise == box.promise && |last.contents| == |box.contents| + n
    ensures Scene(t, None, table, procs[RECEIVER := Once(Sleeping, [last])], queue, [])
    decreases n
  {
    hide Scene, Once;
    t, last := s, box;
    if n == 0 {
      assert Letters(0) + queue == queue;
      assert procs[RECEIVER := Once(Sleeping, [box])] == procs;
    } else {
      assert Letters(n) + queue == [Mail(LETTER)] + (Letters(n - 1) + queue);
      t := DeliverOne(s, box, table, procs, Letters(n - 1) + queue);
      var after := procs[RECEIVER := Once(Sleeping, [Push(box, Data(0))])];
      t, last := DeliverMany(t, n - 1, Push(box, Data(0)), table, after, queue);
      assert after[RECEIVER := Once(Sleeping, [last])] == procs[RECEIVER := Once(Sleeping, [last])];
    }
  }

  lemma BeginsSend(s: State, x: Pid, table: seq<Option<Pid>>, procs: map<Pid, Proc>, queue: seq<Item>)
    returns (t: State)
    requires Scene(s, Some(x), table, procs, queue, []) && |queue| <= 10
    requires x in procs && procs[x] == Once(Running(None), [])
    ensures Scene(t, Some(x), table, procs[x := Once(Running(Some(LETTER)), [])], queue, [])
  {
    t := Next(s, Pass(x, LETTER));
    PassIs(s, x, LETTER);
    FollowsOn(BEGINNING, s, Pass(x, LETTER));
    hide Follows, Next;
  }

  /** A mailbox that holds the continuation of a process resumed once. */
  function Holding(box: Box, x: Pid): Box {
    box.(promise := Signal(false, Some(Waiter(x, 1))))
  }

  lemma HoldsOne(s: State, x: Pid, box: Box)
    requires var u := PutWait(s, x, OnThrottle(LETTER)).(running := None);
      BoxAt(u, BOX) == box && At(s, x).resumes == 1 && !box.promise.isSet
    ensures var u := PutWait(s, x, OnThrottle(LETTER)).(running := None);
      SuspendStep(s, x, OnThrottle(LETTER)) == PutBox(u, BOX, Holding(box, x)).(posted := s.posted)
  {
    hide PutBox, SameLinks, SameProcesses, BoxAt;
  }

  lemma Blocks(s: State, x: Pid, box: Box, table: seq<Option<Pid>>, procs: map<Pid, Proc>, queue: seq<Item>)
    returns (t: State)
    requires Scene(s, Some(x), table, procs, queue, []) && x != RECEIVER
    requires x in procs && procs[x] == Once(Running(Some(LETTER)), []) && InTable(table, RECEIVER)
    requires RECEIVER in procs && procs[RECEIVER] == Once(Sleeping, [box])
    requires ShouldThrottle(box) && !box.promise.isSet
    ensures Scene(t, None, table, procs[x := Once(OnThrottle(LETTER), [])]
                                       [RECEIVER := Once(Sleeping, [Holding(box, x)])], queue, [])
  {
    t := Next(s, Step.Suspend(x, OnThrottle(LETTER)));
    var u := PutWait(s, x, OnThrottle(LETTER)).(running := None);
    SuspendIs(s, x, OnThrottle(LETTER));
    OneBox(s, box, Holding(box, x));
    OneBox(u, box, Holding(box, x));
    hide PutBox, SameLinks, SameProcesses, Next, Enabled, Follows, SuspendStep;
    FollowsOn(BEGINNING, s, Step.Suspend(x, OnThrottle(LETTER)));
    HoldsOne(s, x, box);
  }

  lemma Awakes(s: State)
    requires RECEIVER in s.procs && s.procs[RECEIVER].waiting.Sleeping?
    ensures BeginStep(s, RECEIVER) ==
      var r := s.procs[RECEIVER];
      s.(running := Some(RECEIVER),
         procs := s.procs[RECEIVER := r.(resumes := r.resumes + 1, waiting := Running(None))])
  {
    hide SameLinks, SameProcesses;
  }

  /** The receiver awakes. */
  lemma TimesOut(s: State, box: Box, table: seq<Option<Pid>>, procs: map<Pid, Proc>) returns (t: State)
    requires Scene(s, None, table, procs, [], []) && InTable(table, RECEIVER)
    requires RECEIVER in procs && procs[RECEIVER] == Once(Sleeping, [box])
    ensures Scene(t, Some(RECEIVER), table, procs[RECEIVER := Proc(2, Running(None), [], [], [box])], [], [])
  {
    t := Next(s, Timer(RECEIVER));
    CallbackIs(s, 0, RECEIVER);
    Awakes(s);
    FollowsOn(BEGINNING, s, Timer(RECEIVER));
    hide SameLinks, SameProcesses, Follows, BeginStep, Next, Enabled;
  }

  /** It takes a message: the continuation that its mailbox holds is posted. */
  lemma TakesOne(s: State, x: Pid, box: Box, table: seq<Option<Pid>>, procs: map<Pid, Proc>) returns (t: State)
    requires Scene(s, Some(RECEIVER), table, procs, [], []) && |box.contents| == THROTTLE
    requires RECEIVER in procs && procs[RECEIVER] == Proc(2, Running(None), [], [], [Holding(box, x)])
    ensures Follows(BEGINNING, t) && t.table == table && t.posted == [Waiter(x, 1)]
    ensures var emptier := Mailbox(box.contents[1..], Signal(true, None));
      t.procs == procs[RECEIVER := Proc(2, Running(None), [], [], [emptier])]
  {
    t := Next(s, Take(RECEIVER, 0));
    OneBox(s, Holding(box, x), Pop(Holding(box, x)).box);
    hide PutBox, SameLinks, SameProcesses, Follows;
    FollowsOn(BEGINNING, s, Take(RECEIVER, 0));
  }

  /** A sender that starts with a `sendThrottled` finds the mailbox full, and waits. */
  lemma ComesTo(s: State, x: Pid, box: Box, table: seq<Option<Pid>>, procs: map<Pid, Proc>, queue: seq<Item>)
    returns (t: State)
    requires Scene(s, None, table, procs, [Resume(x, 0)] + queue, []) && |queue| <= 10 && x != RECEIVER
    requires x in procs && procs[x] == Once(NotStarted, []) && InTable(table, x) && InTable(table, RECEIVER)
    requires RECEIVER in procs && procs[RECEIVER] == Once(Sleeping, [box])
    requires ShouldThrottle(box) && !box.promise.isSet
    ensures Scene(t, None, table, procs[x := Once(OnThrottle(LETTER), [])]
                                       [RECEIVER := Once(Sleeping, [Holding(box, x)])], queue, [])
  {
    hide Scene, Once, Holding;
    var runs, sends := procs[x := Once(Running(None), [])], procs[x := Once(Running(Some(LETTER)), [])];
    t := Starts(s, x, table, procs, [], queue);
    t := BeginsSend(t, x, table, runs, queue);
    assert runs[x := Once(Running(Some(LETTER)), [])] == sends;
    t := Blocks(t, x, box, table, sends, queue);
    assert sends[x := Once(OnThrottle(LETTER), [])] == procs[x := Once(OnThrottle(LETTER), [])];
  }

  function Cast(r: Proc, a: Proc, b: Proc): (procs: map<Pid, Proc>)
    ensures procs.Keys == {RECEIVER, FIRST, SECOND}
  {
    map[RECEIVER := r, FIRST := a, SECOND := b]
  }

  const TABLE := [Some(RECEIVER), Some(FIRST), Some(SECOND)]

  const UNBORN := Once(NotStarted, [])

  lemma Recast(r: Proc, a: Proc, b: Proc, x: Proc)
    ensures Cast(r, a, b)[RECEIVER := x] == Cast(x, a, b) && Cast(r, a, b)[FIRST := x] == Cast(r, x, b)
    ensures Cast(r, a, b)[SECOND := x] == Cast(r, a, x)
    ensures Cast(r, a, b)[RECEIVER] == r && Cast(r, a, b)[FIRST] == a && Cast(r, a, b)[SECOND] == b
  {
  }

  /** Ten letters are on their way to a receiver when two senders are spawned. */
  lemma AllSpawned() returns (s: State)
    ensures Scene(s, None, TABLE, Cast(Once(NotStarted, [EMPTY_BOX]), UNBORN, UNBORN),
                  [Resume(RECEIVER, 0)] + (Letters(10) + [Resume(FIRST, 0), Resume(SECOND, 0)]), [])
  {
    var first, born := [Resume(RECEIVER, 0)], map[RECEIVER := Once(NotStarted, [EMPTY_BOX])];
    hide Scene, Once, Letters;
    s := Begun();
    s := SendMany(s, 10, [Some(RECEIVER)], born, first);
    s := SpawnSender(s, FIRST, [Some(RECEIVER)], born, first + Letters(10));
    s := SpawnSender(s, SECOND, [Some(RECEIVER)] + [Some(FIRST)], born[FIRST := UNBORN],
                     first + Letters(10) + [Resume(FIRST, 0)]);
    assert [Some(RECEIVER)] + [Some(FIRST)] + [Some(SECOND)] == TABLE;
    assert first + Letters(10) + [Resume(FIRST, 0)] + [Resume(SECOND, 0)]
        == first + (Letters(10) + [Resume(FIRST, 0), Resume(SECOND, 0)]);
    assert born[FIRST := UNBORN][SECOND := UNBORN] == Cast(Once(NotStarted, [EMPTY_BOX]), UNBORN, UNBORN);
  }

  /** The receiver sleeps while they fill its mailbox. */
  lemma Filled() returns (s: State, box: Box)
    ensures |box.contents| == THROTTLE && !box.promise.isSet
    ensures Scene(s, None, TABLE, Cast(Once(Sleeping, [box]), UNBORN, UNBORN),
                  [Resume(FIRST, 0), Resume(SECOND, 0)], [])
  {
    var senders := [Resume(FIRST, 0), Resume(SECOND, 0)];
    var idle, runs := Once(NotStarted, [EMPTY_BOX]), Once(Running(None), [EMPTY_BOX]);
    var sleeps := Once(Sleeping, [EMPTY_BOX]);
    hide Scene, Once, Letters, Cast;
    s := AllSpawned();
    Recast(idle, UNBORN, UNBORN, runs);
    s := Starts(s, RECEIVER, TABLE, Cast(idle, UNBORN, UNBORN), [EMPTY_BOX], Letters(10) + senders);
    Recast(runs, UNBORN, UNBORN, sleeps);
    s := Sleeps(s, RECEIVER, TABLE, Cast(runs, UNBORN, UNBORN), [EMPTY_BOX], Letters(10) + senders);
    Recast(sleeps, UNBORN, UNBORN, sleeps);
    s, box := DeliverMany(s, 10, EMPTY_BOX, TABLE, Cast(sleeps, UNBORN, UNBORN), senders);
    Recast(sleeps, UNBORN, UNBORN, Once(Sleeping, [box]));
  }

  /** Both senders come to wait for room. */
  lemma BothWait() returns (s: State, box: Box)
    ensures |box.contents| == THROTTLE
    ensures var w := Once(OnThrottle(LETTER), []);
      Scene(s, None, TABLE, Cast(Once(Sleeping, [Holding(box, SECOND)]), w, w), [], [])
  {
    var w := Once(OnThrottle(LETTER), []);
    hide Scene, Once, Cast;
    s, box := Filled();
    var r := Once(Sleeping, [box]);
    var r' := Once(Sleeping, [Holding(box, FIRST)]);
    Recast(r, UNBORN, UNBORN, w);
    Recast(r, w, UNBORN, r');
    Recast(r', w, UNBORN, w);
    Recast(r', w, w, Once(Sleeping, [Holding(box, SECOND)]));
    assert [Resume(FIRST, 0), Resume(SECOND, 0)] == [Resume(FIRST, 0)] + [Resume(SECOND, 0)];
    assert [Resume(SECOND, 0)] == [Resume(SECOND, 0)] + [];
    s := ComesTo(s, FIRST, box, TABLE, Cast(r, UNBORN, UNBORN), [Resume(SECOND, 0)]);
    s := ComesTo(s, SECOND, Holding(box, FIRST), TABLE, Cast(r', w, UNBORN), []);
    assert Holding(Holding(box, FIRST), SECOND) == Holding(box, SECOND);
  }

  /** It does happen: two senders wait for room in a mailbox that has room, and the first of
      them is lost. Whatever the run does then, it is never resumed. */
  lemma OneIsLost() returns (ms: seq<Step>, t: State)
    ensures Leads(BEGINNING, ms, t) && WaitsAt(t, FIRST, BOX) && WaitsAt(t, SECOND, BOX)
    ensures |BoxAt(t, BOX).contents| < THROTTLE && Me(t, SECOND) in t.posted && !Known(t, FIRST, BOX)
    ensures forall ns, u :: Leads(t, ns, u) && Live(u, FIRST) ==> WaitsAt(u, FIRST, BOX) && !Known(u, FIRST, BOX)
  {
    var s, box := BothWait();
    var w := Once(OnThrottle(LETTER), []);
    Recast(Once(Sleeping, [Holding(box, SECOND)]), w, w, Proc(2, Running(None), [], [], [Holding(box, SECOND)]));
    s := TimesOut(s, Holding(box, SECOND), TABLE, Cast(Once(Sleeping, [Holding(box, SECOND)]), w, w));
    t := TakesOne(s, SECOND, box, TABLE, Cast(Proc(2, Running(None), [], [], [Holding(box, SECOND)]), w, w));
    hide Leads;
    ms :| Leads(BEGINNING, ms, t);
    forall ns, u | Leads(t, ns, u) && Live(u, FIRST) ensures WaitsAt(u, FIRST, BOX) && !Known(u, FIRST, BOX) {
      LostForEver(ms, t, ns, u, FIRST, BOX);
    }
  }
}
