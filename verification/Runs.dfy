/** Whole runs of the context: every invariant holds at every step of every run. */
module Runs {
  import opened Options
  import opened Mailboxes
  import opened Scheduler
  import opened PidTable
  import opened RunLoop
  import opened Links
  import opened Stamps
  import opened Delivery
  import opened Conservation
  import opened BackPressure
  import opened Throttles

  /** Every state that steps lead to, within rounds of the loop too. */
  ghost predicate Leads(s: State, ms: seq<Step>, t: State)
    decreases |ms|
  {
    if ms == [] then t == s else Enabled(s, ms[0]) && Leads(Next(s, ms[0]), ms[1..], t)
  }

  /** Some enabled steps lead from `s` to `t`. */
  ghost predicate Follows(s: State, t: State) {
    exists ms :: Leads(s, ms, t)
  }

  lemma {:induction false} LeadsOn(s: State, ms: seq<Step>, t: State, m: Step)
    requires Leads(s, ms, t) && Enabled(t, m)
    ensures Leads(s, ms + [m], Next(t, m))
    decreases |ms|
  {
    hide Enabled, Next;
    if ms == [] {
      assert [m][1..] == [] && ms + [m] == [m];
      assert Leads(Next(s, m), [], Next(t, m));
    } else {
      assert (ms + [m])[1..] == ms[1..] + [m];
      LeadsOn(Next(s, ms[0]), ms[1..], t, m);
    }
  }

  lemma FollowsSelf(s: State)
    ensures Follows(s, s)
  {
    assert Leads(s, [], s);
  }

  lemma FollowsOn(o: State, s: State, m: Step)
    requires Follows(o, s) && Enabled(s, m)
    ensures Follows(o, Next(s, m))
  {
    hide Enabled, Next, Leads;
    var ms :| Leads(o, ms, s);
    LeadsOn(o, ms, s, m);
  }

  lemma {:induction false} LeadsTwice(s: State, ms: seq<Step>, t: State, ns: seq<Step>, u: State)
    requires Leads(s, ms, t) && Leads(t, ns, u)
    ensures Leads(s, ms + ns, u)
    decreases |ms|
  {
    hide Enabled, Next;
    if ms == [] {
      assert ms + ns == ns;
    } else {
      assert (ms + ns)[1..] == ms[1..] + ns;
      LeadsTwice(Next(s, ms[0]), ms[1..], t, ns, u);
    }
  }

  lemma FollowsTwice(s: State, t: State, u: State)
    requires Follows(s, t) && Follows(t, u)
    ensures Follows(s, u)
  {
    hide Leads;
    var ms :| Leads(s, ms, t);
    var ns :| Leads(t, ns, u);
    LeadsTwice(s, ms, t, ns, u);
  }

  /** All invariants. */
  ghost predicate Inv(s: State) {
    && TableOk(s) && LinksOk(s) && StampsOk(s) && ReceiversOk(s.procs)
    && WrittenOk(s) && MailOk(s) && NoticesOk(s) && PressureOk(s) && ThrottlesOk(s) && !s.past.raised
  }

  lemma PressureBegins()
    ensures PressureOk(BEGINNING)
  {
    forall a ensures PressureAt(BEGINNING, a) {
      assert Clocks(BEGINNING.procs) == map[] && Blocked(map[], a) == {} && Yielders(map[], a) == {};
      assert |Senders(BEGINNING.past, a)| >= 0;
    }
  }

  lemma MailBegins()
    ensures MailOk(BEGINNING) && NoticesOk(BEGINNING) && WrittenOk(BEGINNING) && ThrottlesOk(BEGINNING)
  {
  }

  lemma TableBegins()
    ensures TableOk(BEGINNING) && LinksOk(BEGINNING) && StampsOk(BEGINNING) && ReceiversOk(BEGINNING.procs)
  {
  }

  lemma InvBegins()
    ensures Inv(BEGINNING)
  {
    hide TableOk, LinksOk, StampsOk, ReceiversOk, WrittenOk, MailOk, NoticesOk, PressureOk, ThrottlesOk;
    PressureBegins();
    MailBegins();
    TableBegins();
  }

  lemma RaisedSame(s: State, m: Step)
    ensures Next(s, m).past.raised == s.past.raised
  {
    hide SameLinks, SameProcesses, AddKill, BeginStep, PutBox, BoxAt, RemoveAt, SuspendStep, DoomStep, Live;
  }

  /** Every step keeps every invariant. */
  lemma InvKept(s: State, m: Step)
    requires Inv(s) && Enabled(s, m)
    ensures Inv(Next(s, m))
  {
    hide TableOk, LinksOk, StampsOk, ReceiversOk, WrittenOk, MailOk, NoticesOk, PressureOk, ThrottlesOk, Enabled,
         Next;
    TableKept(s, m);
    LinksKept(s, m);
    StampsKept(s, m);
    ReceiversKept(s, m);
    WrittenKept(s, m);
    MailKept(s, m);
    NoticesKept(s, m);
    PressureKept(s, m);
    ThrottlesKept(s, m);
    RaisedSame(s, m);
  }

  // ---------------------------------------------------------------- a body runs

  /** Steps have led from `o` to here, where the body of `p` runs; its `sendThrottled`, if it
      has begun one, has `pending` to send. */
  ghost predicate Busy(o: State, s: State, p: Pid, pending: Option<Letter>) {
    Inv(s) && Follows(o, s) && s.running == Some(p) && At(s, p).waiting == Running(pending)
  }

  /** No body runs. */
  ghost predicate Rests(s: State) {
    Inv(s) && s.running.None?
  }

  /** Steps have led from `o` to here, where no body runs. */
  ghost predicate Got(o: State, s: State) {
    Rests(s) && Follows(o, s)
  }

  lemma StepTaken(o: State, s: State, m: Step)
    requires Inv(s) && Follows(o, s) && Enabled(s, m)
    ensures Inv(Next(s, m)) && Follows(o, Next(s, m))
  {
    hide Inv, Follows, Enabled, Next;
    InvKept(s, m);
    FollowsOn(o, s, m);
  }

  lemma BusyFacts(o: State, s: State, p: Pid, pending: Option<Letter>)
    requires Busy(o, s, p, pending)
    ensures p in s.procs && TableOk(s)
  {
    hide LinksOk, StampsOk, ReceiversOk, WrittenOk, MailOk, NoticesOk, PressureOk, ThrottlesOk;
    TableFacts(s);
  }

  lemma WaitAfter(s: State, m: Step, p: Pid)
    requires p in s.procs && p != NextPid(s) && (m.Spawn? || m.Link? || m.Doom? || m.SendPlain? || m.Take?)
    requires m.Link? ==> m.q in s.procs
    ensures Next(s, m).running == s.running && At(Next(s, m), p).waiting == At(s, p).waiting
  {
    hide NextPid, SameLinks, SameProcesses, Live;
  }

  /** A step after which the body goes on. */
  lemma StepsOn(o: State, s: State, m: Step, p: Pid, pending: Option<Letter>)
    requires Busy(o, s, p, pending) && Enabled(s, m) && (m.Spawn? || m.Link? || m.Doom? || m.SendPlain? || m.Take?)
    requires m.Link? ==> m.p == p
    ensures Busy(o, Next(s, m), p, pending)
  {
    hide Inv, Follows, NextPid, Live, Addressable;
    StepTaken(o, s, m);
    BusyFacts(o, s, p, pending);
    TableFacts(s);
    hide TableOk, Next;
    WaitAfter(s, m, p);
  }

  // Steps by name: what enables them, and what they are.

  lemma SuspendIs(s: State, p: Pid, w: Wait)
    ensures s.running == Some(p) && MayWait(s, p, w) ==> Enabled(s, Step.Suspend(p, w))
    ensures Next(s, Step.Suspend(p, w)) == SuspendStep(s, p, w)
    ensures s.running == Some(p) ==> Enabled(s, Finish(p))
    ensures Next(s, Finish(p)) == FinishStep(s, p)
  {
    hide SuspendStep, FinishStep, MayWait;
  }

  lemma MayWaitIs(s: State, p: Pid)
    ensures Free(s, p) ==> MayWait(s, p, Sleeping) && MayWait(s, p, OnOutside) && MayWait(s, p, Yielding(None))
    ensures forall l: Letter :: Free(s, p) && WaitOnQueue(s) && Addressable(s, l.to) && l.m.Data? ==>
      MayWait(s, p, Yielding(Some(l)))
    ensures forall l: Letter :: At(s, p).waiting == Running(Some(l)) && Full(s, l.to) ==> MayWait(s, p, OnThrottle(l))
  {
    hide At, WaitOnQueue, Addressable, Full;
  }

  lemma MayReceive(s: State, p: Pid, slots: seq<nat>, plain: bool, future: bool)
    ensures Free(s, p) && !AnyReady(s, p, slots) && (plain ==> |slots| == 1 && !future) ==>
      MayWait(s, p, Receiving(slots, plain, future))
  {
    hide At, AnyReady;
  }

  lemma SpawnIs(s: State, p: Pid, size: nat, to: Address)
    ensures Enabled(s, Spawn(size, None, false, []))
    ensures Next(s, Spawn(size, None, false, [])) == SpawnStep(s, size, None, false, [])
    ensures p in s.procs && s.running == Some(p) ==> Enabled(s, Spawn(size, Some(p), true, []))
    ensures Next(s, Spawn(size, Some(p), true, [])) == SpawnStep(s, size, Some(p), true, [])
    ensures p in s.procs && s.running == Some(p) && Addressable(s, to) ==> Enabled(s, Spawn(size, Some(p), false, [to]))
    ensures Next(s, Spawn(size, Some(p), false, [to])) == SpawnStep(s, size, Some(p), false, [to])
    ensures p in s.procs && s.running.None? ==> Enabled(s, Spawn(size, Some(p), false, []))
    ensures Next(s, Spawn(size, Some(p), false, [])) == SpawnStep(s, size, Some(p), false, [])
  {
    hide SpawnStep, Addressable;
  }

  lemma LinkIs(s: State, p: Pid, q: Pid, l: Letter)
    ensures s.running == Some(p) && Live(s, q) ==> Enabled(s, Link(p, q))
    ensures Next(s, Link(p, q)) == LinkStep(s, p, q)
    ensures Enabled(s, Doom(q)) && Next(s, Doom(q)) == DoomStep(s, q)
    ensures Addressable(s, l.to) && l.m.Data? ==> Enabled(s, SendPlain(l))
    ensures Next(s, SendPlain(l)) == SendPlainStep(s, l)
  {
    hide LinkStep, DoomStep, SendPlainStep, Addressable, Live;
  }

  lemma PassIs(s: State, p: Pid, l: Letter)
    ensures s.running == Some(p) && Free(s, p) && !WaitOnQueue(s) && Addressable(s, l.to) && l.m.Data? ==>
      Enabled(s, Pass(p, l))
    ensures Next(s, Pass(p, l)) == PassStep(s, p, l)
    ensures s.running == Some(p) && At(s, p).waiting == Running(Some(l)) && !Full(s, l.to) ==> Enabled(s, SendOn(p))
    ensures Next(s, SendOn(p)) == SendOnStep(s, p)
  {
    hide PassStep, SendOnStep, Addressable, Full, WaitOnQueue, At;
  }

  lemma PassWaits(s: State, p: Pid, l: Letter)
    requires p in s.procs
    ensures At(PassStep(s, p, l), p).waiting == Running(Some(l)) && PassStep(s, p, l).running == s.running
    ensures At(s, p).waiting == Running(Some(l)) ==>
      At(SendOnStep(s, p), p).waiting == Running(None) && SendOnStep(s, p).running == s.running
  {
    hide SameLinks, SameProcesses;
  }

  lemma Finishes(o: State, s: State, p: Pid, pending: Option<Letter>)
    requires Busy(o, s, p, pending)
    ensures Got(o, FinishStep(s, p))
  {
    hide Inv, Follows, SameLinks, Next, Enabled, DoomStep, At;
    SuspendIs(s, p, Sleeping);
    StepTaken(o, s, Finish(p));
  }

  lemma Suspends(o: State, s: State, p: Pid, pending: Option<Letter>, w: Wait)
    requires Busy(o, s, p, pending) && MayWait(s, p, w)
    ensures Got(o, SuspendStep(s, p, w))
  {
    BusyFacts(o, s, p, pending);
    hide Inv, Follows, SameLinks, SameProcesses, Next, Enabled, MayWait, SuspendStep, At, TableOk;
    SuspendIs(s, p, w);
    StepTaken(o, s, Step.Suspend(p, w));
  }

  lemma {:induction false} Takes(o: State, s: State, p: Pid, slots: seq<nat>)
    requires Busy(o, s, p, None)
    ensures Busy(o, TakeAll(s, p, slots), p, None)
    decreases |slots|
  {
    hide Inv, Follows, BoxAt;
    if slots != [] {
      if BoxAt(s, Address(p, slots[0])).contents != [] {
        StepsOn(o, s, Take(p, slots[0]), p, None);
      }
      Takes(o, TakeStep(s, p, slots[0]), p, slots[1..]);
    }
  }

  lemma Passes(o: State, s: State, p: Pid, l: Letter)
    requires Busy(o, s, p, None) && !WaitOnQueue(s) && Addressable(s, l.to) && l.m.Data?
    ensures Busy(o, PassStep(s, p, l), p, Some(l))
  {
    BusyFacts(o, s, p, None);
    hide Inv, Follows, SameLinks, SameProcesses, Next, Enabled, PassStep, At, TableOk, Addressable, WaitOnQueue;
    PassIs(s, p, l);
    PassWaits(s, p, l);
    StepTaken(o, s, Pass(p, l));
  }

  lemma SendsOn(o: State, s: State, p: Pid, l: Letter)
    requires Busy(o, s, p, Some(l)) && !Full(s, l.to)
    ensures Busy(o, SendOnStep(s, p), p, None)
  {
    BusyFacts(o, s, p, Some(l));
    hide Inv, Follows, SameLinks, SameProcesses, Next, Enabled, SendOnStep, At, TableOk, Full;
    PassIs(s, p, l);
    PassWaits(s, p, l);
    StepTaken(o, s, SendOn(p));
  }

  /** A body that runs keeps the invariants until it suspends, ends or throws. */
  lemma {:induction false} BodyRuns(o: State, s: State, p: Pid, cmds: seq<Command>)
    requires Busy(o, s, p, None)
    ensures Got(o, RunBody(s, p, cmds))
    decreases |cmds|, 1
  {
    hide Busy, Got, FinishStep, Obey;
    if cmds == [] {
      Finishes(o, s, p, None);
    } else {
      ObeyRuns(o, s, p, cmds[0], cmds[1..]);
    }
  }

  lemma {:induction false} ObeyRuns(o: State, s: State, p: Pid, c: Command, rest: seq<Command>)
    requires Busy(o, s, p, None)
    ensures Got(o, Obey(s, p, c, rest))
    decreases |rest|, 4
  {
    hide *;
    match c
    case SpawnNew(_) => SpawnRuns(o, s, p, c, rest);
    case SpawnLink(_) => SpawnRuns(o, s, p, c, rest);
    case SpawnLinkNotify(_, _) => SpawnRuns(o, s, p, c, rest);
    case LinkTo(_) => LinkRuns(o, s, p, c, rest);
    case QueueKill(_) => LinkRuns(o, s, p, c, rest);
    case Send(_, _) => SendRuns(o, s, p, c, rest);
    case SendAwaited(_, _) => SendRuns(o, s, p, c, rest);
    case SendThrottled(_, _) => ThrottledRuns(o, s, p, c, rest);
    case Recv(_) => ReceiveRuns(o, s, p, c, rest);
    case TryRecv(_, _) => ReceiveRuns(o, s, p, c, rest);
    case _ => StopRuns(o, s, p, c, rest);
  }

  lemma StopRuns(o: State, s: State, p: Pid, c: Command, rest: seq<Command>)
    requires Busy(o, s, p, None) && (c.Yield? || c.Sleep? || c.AwaitOutside? || c.Throw?)
    ensures Got(o, Obey(s, p, c, rest))
  {
    hide Busy, Got, FinishStep, SuspendStep, At, MayWait, Free;
    RunsOf(o, s, p);
    MayWaitIs(s, p);
    match c
    case Yield => Suspends(o, s, p, None, Yielding(None));
    case Sleep => Suspends(o, s, p, None, Sleeping);
    case AwaitOutside => Suspends(o, s, p, None, OnOutside);
    case Throw => Finishes(o, s, p, None);
  }

  lemma {:induction false} LinkRuns(o: State, s: State, p: Pid, c: Command, rest: seq<Command>)
    requires Busy(o, s, p, None) && (c.LinkTo? || c.QueueKill?)
    ensures Got(o, Obey(s, p, c, rest))
    decreases |rest|, 3
  {
    hide Busy, Got, LinkStep, DoomStep, FinishStep, RunBody, Enabled, Next, At, Free, Live;
    RunsOf(o, s, p);
    LinkIs(s, p, c.q, Letter(Address(p, 0), Data(0)));
    match c
    case LinkTo(q) =>
      if Live(s, q) {
        StepsOn(o, s, Link(p, q), p, None);
        BodyRuns(o, LinkStep(s, p, q), p, rest);
      } else {
        Finishes(o, s, p, None);
      }
    case QueueKill(q) =>
      StepsOn(o, s, Doom(q), p, None);
      BodyRuns(o, DoomStep(s, q), p, rest);
  }

  lemma {:induction false} SpawnRuns(o: State, s: State, p: Pid, c: Command, rest: seq<Command>)
    requires Busy(o, s, p, None) && (c.SpawnNew? || c.SpawnLink? || c.SpawnLinkNotify?)
    ensures Got(o, Obey(s, p, c, rest))
    decreases |rest|, 3
  {
    hide Busy, Got, Inv, Follows, Addressable, SpawnStep, FinishStep, RunBody, Enabled, Next, At, Free;
    RunsOf(o, s, p);
    match c
    case SpawnNew(size) =>
      SpawnIs(s, p, size, Address(p, 0));
      StepsOn(o, s, Spawn(size, None, false, []), p, None);
      BodyRuns(o, SpawnStep(s, size, None, false, []), p, rest);
    case SpawnLink(size) =>
      SpawnIs(s, p, size, Address(p, 0));
      StepsOn(o, s, Spawn(size, Some(p), true, []), p, None);
      BodyRuns(o, SpawnStep(s, size, Some(p), true, []), p, rest);
    case SpawnLinkNotify(size, to) =>
      SpawnIs(s, p, size, to);
      if Addressable(s, to) {
        StepsOn(o, s, Spawn(size, Some(p), false, [to]), p, None);
        BodyRuns(o, SpawnStep(s, size, Some(p), false, [to]), p, rest);
      } else {
        Finishes(o, s, p, None);
      }
  }

  lemma RunsOf(o: State, s: State, p: Pid)
    requires Busy(o, s, p, None)
    ensures s.running == Some(p) && Free(s, p) && p in s.procs
  {
    hide Inv, Follows;
    BusyFacts(o, s, p, None);
  }

  lemma {:induction false} SendRuns(o: State, s: State, p: Pid, c: Command, rest: seq<Command>)
    requires Busy(o, s, p, None) && (c.Send? || c.SendAwaited?)
    ensures Got(o, Obey(s, p, c, rest))
    decreases |rest|, 3
  {
    hide Busy, Got, SendPlainStep, RunBody, Addressable, SuspendStep, FinishStep, Enabled, Next, MayWait, At, Free,
         WaitOnQueue;
    var l := Letter(c.to, Data(c.n));
    if Addressable(s, c.to) {
      var t := SendPlainStep(s, l);
      LinkIs(s, p, p, l);
      StepsOn(o, s, SendPlain(l), p, None);
      if c.SendAwaited? && WaitOnQueue(t) {
        RunsOf(o, t, p);
        MayWaitIs(t, p);
        Suspends(o, t, p, None, Yielding(None));
      } else {
        BodyRuns(o, t, p, rest);
      }
    } else {
      Finishes(o, s, p, None);
    }
  }

  lemma {:induction false} ThrottledRuns(o: State, s: State, p: Pid, c: Command, rest: seq<Command>)
    requires Busy(o, s, p, None) && c.SendThrottled?
    ensures Got(o, Obey(s, p, c, rest))
    decreases |rest|, 3
  {
    hide Busy, Got, PassStep, Throttle, Addressable, SuspendStep, FinishStep, WaitOnQueue, MayWait, At, Free;
    var l := Letter(c.to, Data(c.n));
    MayWaitIs(s, p);
    if Addressable(s, c.to) {
      if WaitOnQueue(s) {
        RunsOf(o, s, p);
        Suspends(o, s, p, None, Yielding(Some(l)));
      } else {
        Passes(o, s, p, l);
        ThrottleRuns(o, PassStep(s, p, l), p, l, rest);
      }
    } else {
      Finishes(o, s, p, None);
    }
  }

  lemma {:induction false} ThrottleRuns(o: State, s: State, p: Pid, l: Letter, rest: seq<Command>)
    requires Busy(o, s, p, Some(l))
    ensures Got(o, Throttle(s, p, l, rest))
    decreases |rest|, 2
  {
    assert At(s, p).waiting == Running(Some(l));
    hide Busy, Got, Inv, Follows, Full, SuspendStep, SendOnStep, RunBody, MayWait, At;
    MayWaitIs(s, p);
    if Full(s, l.to) {
      Suspends(o, s, p, Some(l), OnThrottle(l));
    } else {
      SendsOn(o, s, p, l);
      BodyRuns(o, SendOnStep(s, p), p, rest);
    }
  }

  lemma {:induction false} ReceiveRuns(o: State, s: State, p: Pid, c: Command, rest: seq<Command>)
    requires Busy(o, s, p, None) && (c.Recv? || c.TryRecv?)
    ensures Got(o, Obey(s, p, c, rest))
    decreases |rest|, 3
  {
    hide Busy, Got, AnyReady, RunBody, TakeAll, SuspendStep, MayWait, At, Free;
    var slots := if c.Recv? then [c.slot] else c.slots;
    var future := c.TryRecv? && c.future;
    RunsOf(o, s, p);
    MayReceive(s, p, slots, c.Recv?, future);
    if AnyReady(s, p, slots) {
      Takes(o, s, p, slots);
      BodyRuns(o, TakeAll(s, p, slots), p, rest);
    } else {
      Suspends(o, s, p, None, Receiving(slots, c.Recv?, future));
    }
  }

  // ---------------------------------------------------------------- a process is resumed

  /** A resumed body goes on. A plain receive finds its message: it never raises. */
  lemma GoesOn(o: State, s: State, p: Pid, was: Wait, cmds: seq<Command>)
    requires Busy(o, s, p, PendingOf(was)) && (was.Receiving? && was.plain ==> AnyReady(s, p, was.slots))
    ensures Got(o, GoOn(s, p, was, cmds))
  {
    hide Busy, Got, Inv, Follows, AnyReady, RunBody, TakeAll, Throttle;
    if was.Receiving? {
      Takes(o, s, p, was.slots);
      BodyRuns(o, TakeAll(s, p, was.slots), p, cmds);
    } else if PendingOf(was).Some? {
      ThrottleRuns(o, s, p, PendingOf(was).value, cmds);
    } else {
      BodyRuns(o, s, p, cmds);
    }
  }

  /** `t` is the state in which the context, by the step `m` from `s`, has begun to resume
      `p`, which waited for `was`. */
  lemma Resumes(o: State, s: State, m: Step, u: State, p: Pid, was: Wait, cmds: seq<Command>)
    requires Got(o, s) && Enabled(s, m) && Next(s, m) == BeginStep(u, p) && p in u.procs && At(u, p).waiting == was
    requires was.Receiving? && was.plain ==> AnyReady(u, p, was.slots)
    ensures Got(o, ResumeProcess(u, p, cmds))
  {
    hide Inv, Follows, AnyReady, Enabled, Next;
    StepTaken(o, s, m);
    BeginsRunning(u, p);
    if was.Receiving? && was.plain {
      BeginKeepsReady(u, p, was.slots);
    }
    hide BeginStep, GoOn, PendingOf, Busy, Got;
    assert Busy(o, BeginStep(u, p), p, PendingOf(was)) by { BusyIs(o, BeginStep(u, p), p, PendingOf(was)); }
    GoesOn(o, BeginStep(u, p), p, was, cmds);
  }

  lemma BusyIs(o: State, s: State, p: Pid, pending: Option<Letter>)
    requires Inv(s) && Follows(o, s) && s.running == Some(p) && At(s, p).waiting == Running(pending)
    ensures Busy(o, s, p, pending)
  {
    hide Inv, Follows;
  }

  lemma BeginsRunning(s: State, p: Pid)
    ensures BeginStep(s, p).running == Some(p) && At(BeginStep(s, p), p).waiting == Running(PendingOf(At(s, p).waiting))
  {
    hide SameLinks, SameProcesses;
  }

  lemma BeginKeepsReady(s: State, p: Pid, slots: seq<nat>)
    requires AnyReady(s, p, slots)
    ensures AnyReady(BeginStep(s, p), p, slots)
  {
    BeginContents(s, p);
    var i :| 0 <= i < |slots| && BoxAt(s, Address(p, slots[i])).contents != [];
    SameAt(s, BeginStep(s, p), Address(p, slots[i]));
    hide BeginStep, BoxAt;
  }

  // ---------------------------------------------------------------- the context runs

  lemma ItemIs(s: State)
    ensures s.running.None? && s.queue != [] && Stale(s, s.queue[0]) ==> Enabled(s, Drop)
    ensures Next(s, Drop) == PopItem(s)
    ensures s.running.None? && s.queue != [] && s.queue[0].Mail? && Live(s, s.queue[0].letter.to.pid) ==>
      if WaitingFor(s, s.queue[0].letter.to)
      then Enabled(s, DeliverWake) && Next(s, DeliverWake) == BeginStep(DeliverStep(s), s.queue[0].letter.to.pid)
      else Enabled(s, Deliver) && Next(s, Deliver) == DeliverStep(s)
    ensures s.running.None? && s.queue != [] && s.queue[0].Resume? && Current(s, s.queue[0].pid, s.queue[0].stamp) ==>
      Enabled(s, WakeItem) && Next(s, WakeItem) == BeginStep(PopItem(s), s.queue[0].pid)
  {
    hide PopItem, DeliverStep, BeginStep, WaitingFor, Live, Stale, Current;
  }

  lemma CallbackIs(s: State, k: nat, q: Pid)
    ensures s.running.None? && k < |s.posted| ==>
      && Enabled(s, Continuation(k))
      && var w, t := s.posted[k], s.(posted := RemoveAt(s.posted, k));
         Next(s, Continuation(k)) == if Current(s, w.pid, w.stamp) then BeginStep(t, w.pid) else t
    ensures s.running.None? && Live(s, q) && At(s, q).waiting.Sleeping? ==>
      Enabled(s, Timer(q)) && Next(s, Timer(q)) == BeginStep(s, q)
    ensures k < |s.outside| ==> Enabled(s, Fire(k)) && Next(s, Fire(k)) == FireStep(s, k)
  {
    hide BeginStep, FireStep, RemoveAt, Live, Current, At;
  }

  /** A letter that a receiver waits for is in its box when it is resumed. */
  lemma DeliveredIsReady(s: State)
    requires Inv(s) && s.queue != [] && s.queue[0].Mail? && WaitingFor(s, s.queue[0].letter.to)
    requires s.queue[0].letter.to.pid in s.procs
    ensures var p, u := s.queue[0].letter.to.pid, DeliverStep(s);
      p in u.procs && At(u, p).waiting == At(s, p).waiting && AnyReady(u, p, At(s, p).waiting.slots)
  {
    var a, u := s.queue[0].letter.to, DeliverStep(s);
    InRange(s, a) by {
      hide TableOk, LinksOk, StampsOk, ReceiversOk, MailOk, NoticesOk, PressureOk, ThrottlesOk, WrittenOk;
    }
    hide Inv, Follows;
    SameSize(s, u);
    DeliverBox(s);
    var i :| 0 <= i < |At(s, a.pid).waiting.slots| && At(s, a.pid).waiting.slots[i] == a.slot;
    assert Address(a.pid, At(s, a.pid).waiting.slots[i]) == a;
  }

  lemma DeliverBox(s: State)
    requires s.queue != [] && s.queue[0].Mail?
    requires var a := s.queue[0].letter.to; a.slot < |At(s, a.pid).boxes|
    ensures var a := s.queue[0].letter.to;
      BoxAt(DeliverStep(s), a).contents != [] && At(DeliverStep(s), a.pid).waiting == At(s, a.pid).waiting
  {
    hide SameLinks, SameProcesses;
  }

  lemma RestsFacts(s: State)
    requires Rests(s)
    ensures s.running.None? && TableOk(s) && StampsOk(s) && ReceiversOk(s.procs) && !s.past.raised && Inv(s)
  {
    hide TableOk, LinksOk, StampsOk, ReceiversOk, WrittenOk, MailOk, NoticesOk, PressureOk, ThrottlesOk;
  }

  lemma MailRuns(o: State, s: State, cmds: seq<Command>)
    requires Got(o, s) && s.queue != [] && s.queue[0].Mail?
    ensures Got(o, ProcessItem(s, cmds))
  {
    hide Inv, Follows, TableOk, StampsOk, ReceiversOk, Enabled, Next, BeginStep, DeliverStep, PopItem, WaitingFor, Live,
         ResumeProcess, At;
    RestsFacts(s);
    TableFacts(s);
    ItemIs(s);
    var l := s.queue[0].letter;
    if !Live(s, l.to.pid) {
      StepTaken(o, s, Drop);
    } else if WaitingFor(s, l.to) {
      DeliveredIsReady(s);
      Resumes(o, s, DeliverWake, DeliverStep(s), l.to.pid, At(s, l.to.pid).waiting, cmds);
    } else {
      StepTaken(o, s, Deliver);
    }
  }

  lemma ResumeRuns(o: State, s: State, cmds: seq<Command>)
    requires Got(o, s) && s.queue != [] && s.queue[0].Resume?
    ensures Got(o, ProcessItem(s, cmds))
  {
    hide Inv, Follows, TableOk, StampsOk, ReceiversOk, Enabled, Next, BeginStep, PopItem, Live, ResumeProcess,
         SameLinks, SameProcesses, Due;
    var p := s.queue[0].pid;
    RestsFacts(s);
    TableFacts(s);
    ItemIs(s);
    if Current(s, p, s.queue[0].stamp) {
      WokenKind(s);
      assert At(PopItem(s), p) == At(s, p);
      Resumes(o, s, WakeItem, PopItem(s), p, At(s, p).waiting, cmds);
    } else {
      StepTaken(o, s, Drop);
    }
  }

  lemma WokenKind(s: State)
    requires StampsOk(s) && s.running.None? && s.queue != [] && s.queue[0].Resume?
    requires Current(s, s.queue[0].pid, s.queue[0].stamp) && s.queue[0].pid in s.procs
    ensures !At(s, s.queue[0].pid).waiting.Receiving?
  {
    hide StampsOk, BeginStep, PopItem, Live;
    WakeStamps(s);
  }

  /** Taking up an item of the queue keeps the invariants. */
  lemma ItemRuns(o: State, s: State, cmds: seq<Command>)
    requires Got(o, s)
    ensures Got(o, ProcessItem(s, cmds))
  {
    if s.queue == [] {
    } else if s.queue[0].Mail? {
      hide *;
      MailRuns(o, s, cmds);
    } else {
      hide *;
      ResumeRuns(o, s, cmds);
    }
  }

  /** A plain receive is resumed by no continuation. */
  lemma PlainNotAwaiting(s: State, p: Pid)
    requires ReceiversOk(s.procs) && p in s.procs && Awaiting(At(s, p).waiting)
    ensures At(s, p).waiting.Receiving? ==> !At(s, p).waiting.plain
  {
    assert Receives(s.procs[p]);
  }

  lemma PostedRuns(o: State, s: State, k: nat, cmds: seq<Command>)
    requires Got(o, s)
    ensures Got(o, RunCallback(s, Posted(k, cmds)))
  {
    RestsFacts(s);
    TableFacts(s);
    if k < |s.posted| {
      var w, t := s.posted[k], s.(posted := RemoveAt(s.posted, k));
      CallbackIs(s, k, w.pid);
      hide Inv, Follows, TableOk, StampsOk, ReceiversOk, Enabled, Next, BeginStep, Live, ResumeProcess, RemoveAt,
           SameLinks, SameProcesses;
      if Current(s, w.pid, w.stamp) {
        ContinuationMeets(s, k);
        PlainNotAwaiting(s, w.pid);
        Resumes(o, s, Continuation(k), t, w.pid, At(s, w.pid).waiting, cmds);
      } else {
        StepTaken(o, s, Continuation(k));
      }
    }
  }

  lemma TimerRuns(o: State, s: State, q: Pid, cmds: seq<Command>)
    requires Got(o, s) && Live(s, q) && At(s, q).waiting.Sleeping?
    ensures Got(o, ResumeProcess(s, q, cmds))
  {
    hide Inv, Follows, TableOk, StampsOk, ReceiversOk, Enabled, Next, BeginStep, Live, ResumeProcess;
    RestsFacts(s);
    TableFacts(s);
    CallbackIs(s, 0, q);
    Resumes(o, s, Timer(q), s, q, Sleeping, cmds);
  }

  lemma OutsideRuns(o: State, s: State, c: Callback)
    requires Got(o, s) && (c.SetOutside? || c.SendFrom? || c.SpawnFrom? || c.SpawnUnder?)
    ensures Got(o, RunCallback(s, c))
  {
    hide Inv, Follows, Enabled, Next, SpawnStep, SendPlainStep, FireStep, Addressable;
    match c
    case SetOutside(k) =>
      CallbackIs(s, k, Pid(0, 0));
      FireKeepsRunning(s, k);
      if k < |s.outside| {
        StepTaken(o, s, Fire(k));
      }
    case SendFrom(to, n) =>
      LinkIs(s, Pid(0, 0), Pid(0, 0), Letter(to, Data(n)));
      if Addressable(s, to) {
        StepTaken(o, s, SendPlain(Letter(to, Data(n))));
      }
    case SpawnFrom(slots) =>
      SpawnIs(s, Pid(0, 0), slots, Address(Pid(0, 0), 0));
      StepTaken(o, s, Spawn(slots, None, false, []));
      SpawnKeepsRunning(s, slots, None);
    case SpawnUnder(slots, q) =>
      SpawnIs(s, q, slots, Address(q, 0));
      if q in s.procs {
        StepTaken(o, s, Spawn(slots, Some(q), false, []));
        SpawnKeepsRunning(s, slots, Some(q));
      }
  }

  lemma FireKeepsRunning(s: State, k: nat)
    ensures FireStep(s, k).running == s.running && (k >= |s.outside| ==> FireStep(s, k) == s)
  {
    hide SameLinks, SameProcesses;
  }

  /** A callback of the io service keeps the invariants. */
  lemma CallbackRuns(o: State, s: State, c: Callback)
    requires Got(o, s)
    ensures Got(o, RunCallback(s, c))
  {
    match c
    case Posted(k, cmds) =>
      hide *;
      PostedRuns(o, s, k, cmds);
    case TimerOf(q, cmds) =>
      hide Got, Live, ResumeProcess;
      if Live(s, q) && At(s, q).waiting.Sleeping? {
        TimerRuns(o, s, q, cmds);
      }
    case _ =>
      hide *;
      OutsideRuns(o, s, c);
  }

  lemma SpawnKeepsRunning(s: State, size: nat, parent: Option<Pid>)
    ensures var t := SpawnStep(s, size, parent, false, []); t.running == s.running && t.doomed == s.doomed
  {
    hide NextPid, SameLinks;
  }

  lemma {:induction false} CallbacksRun(o: State, s: State, cs: seq<Callback>)
    requires Got(o, s)
    ensures Got(o, RunCallbacks(s, cs))
    decreases |cs|
  {
    hide Got, RunCallback;
    if cs != [] {
      CallbackRuns(o, s, cs[0]);
      CallbacksRun(o, RunCallback(s, cs[0]), cs[1..]);
    }
  }

  lemma {:induction false} DoomAllRuns(o: State, s: State, qs: seq<Pid>)
    requires Got(o, s)
    ensures Got(o, DoomAll(s, qs))
    decreases |qs|
  {
    hide Inv, Follows, Enabled, Next, SameLinks, Live;
    if qs != [] {
      LinkIs(s, qs[0], qs[0], Letter(Address(qs[0], 0), Data(0)));
      StepTaken(o, s, Doom(qs[0]));
      DoomAllRuns(o, DoomStep(s, qs[0]), qs[1..]);
    }
  }

  lemma BuryIs(s: State)
    ensures s.running.None? && MayBury(s) ==> Enabled(s, Bury)
    ensures Next(s, Bury) == BuryStep(s) && BuryStep(s).running == s.running
  {
    hide MayBury, Notices, Mails, Wakes, SameLinks;
  }

  lemma DestroyRuns(o: State, s: State)
    requires Got(o, s)
    ensures Got(o, Destroy(s))
  {
    if s.doomed != [] {
      var u := DoomAll(s, At(s, s.doomed[0]).killOnDie);
      RestsFacts(s);
      DoomAllRuns(o, s, At(s, s.doomed[0]).killOnDie);
      DestroySteps(s);
      BuryIs(u);
      hide Inv, Follows, TableOk, StampsOk, ReceiversOk, Enabled, Next, MayBury, DoomAll, BuryStep, Destroy;
      StepTaken(o, u, Bury);
    }
  }

  lemma {:induction false} DrainRuns(o: State, s: State)
    requires Got(o, s)
    ensures Got(o, Drain(s)) && Drain(s).doomed == []
    decreases Pending(s)
  {
    hide Got, Destroy, Pending;
    if s.doomed != [] {
      DestroyRuns(o, s);
      DestroyPending(s);
      DrainRuns(o, Destroy(s));
    }
  }

  /** A round of the loop keeps the invariants, and leaves nothing to destroy. */
  lemma RoundRuns(o: State, s: State, c: Choice)
    requires Got(o, s)
    ensures Got(o, Round(s, c)) && Round(s, c).doomed == []
  {
    hide Got, ProcessItem, RunCallbacks, Drain;
    ItemRuns(o, s, c.cmds);
    CallbacksRun(o, s, c.callbacks);
    DrainRuns(o, if s.queue != [] then ProcessItem(s, c.cmds) else RunCallbacks(s, c.callbacks));
  }

  lemma {:induction false} PrepareRuns(o: State, s: State, sizes: seq<nat>)
    requires Got(o, s) && s.doomed == []
    ensures Got(o, Prepare(s, sizes)) && Prepare(s, sizes).doomed == []
    decreases |sizes|
  {
    hide Inv, Follows, Enabled, Next, SpawnStep;
    if sizes != [] {
      SpawnIs(s, Pid(0, 0), sizes[0], Address(Pid(0, 0), 0));
      StepTaken(o, s, Spawn(sizes[0], None, false, []));
      SpawnKeepsRunning(s, sizes[0], None);
      PrepareRuns(o, SpawnStep(s, sizes[0], None, false, []), sizes[1..]);
    }
  }

  lemma {:induction false} LoopRuns(o: State, s: State, cs: seq<Choice>)
    requires Got(o, s) && s.doomed == []
    ensures Got(o, RunFor(s, cs)) && RunFor(s, cs).doomed == []
    decreases |cs|
  {
    hide Got, Round, Going;
    if cs != [] && Going(s) {
      RoundRuns(o, s, cs[0]);
      LoopRuns(o, Round(s, cs[0]), cs[1..]);
    }
  }

  // ---------------------------------------------------------------- every run

  /** The top of the loop, after any run from any start. */
  function Top(sizes: seq<nat>, cs: seq<Choice>): State {
    RunFor(Prepare(BEGINNING, sizes), cs)
  }

  lemma EveryRun(sizes: seq<nat>, cs: seq<Choice>)
    ensures Rests(Top(sizes, cs)) && Top(sizes, cs).doomed == [] && Follows(BEGINNING, Top(sizes, cs))
  {
    hide RunFor, Prepare, Inv, Follows;
    InvBegins();
    FollowsSelf(BEGINNING);
    PrepareRuns(BEGINNING, BEGINNING, sizes);
    LoopRuns(BEGINNING, Prepare(BEGINNING, sizes), cs);
  }

  /** The item and the callbacks of a round, each by itself, keep the invariants. */
  lemma RoundRests(s: State, c: Choice)
    requires Rests(s)
    ensures Rests(ProcessItem(s, c.cmds)) && Rests(RunCallbacks(s, c.callbacks))
  {
    hide Inv, Follows, ProcessItem, RunCallbacks;
    FollowsSelf(s);
    ItemRuns(s, s, c.cmds);
    CallbacksRun(s, s, c.callbacks);
  }

  /** What a round has done before it destroys anybody. */
  function Undrained(s: State, c: Choice): State {
    if s.queue != [] then ProcessItem(s, c.cmds) else RunCallbacks(s, c.callbacks)
  }

  /** The first `n` destroys of a round. */
  function DrainFor(s: State, n: nat): State
    decreases n
  {
    if n == 0 || s.doomed == [] then s else DrainFor(Destroy(s), n - 1)
  }

  lemma {:induction false} DrainPasses(s: State, n: nat)
    requires Rests(s)
    ensures Follows(s, DrainFor(s, n)) && Follows(DrainFor(s, n), Drain(s))
    decreases n
  {
    hide Inv, Follows, Destroy, Pending;
    FollowsSelf(s);
    if n == 0 || s.doomed == [] {
      DrainRuns(s, s);
    } else {
      DestroyRuns(s, s);
      DrainPasses(Destroy(s), n - 1);
      FollowsTwice(s, Destroy(s), DrainFor(s, n));
    }
  }

  lemma {:induction false} CallbacksPass(s: State, cs: seq<Callback>, i: nat)
    requires Rests(s) && i <= |cs|
    ensures var t := RunCallbacks(s, cs[..i]); Follows(s, t) && Follows(t, RunCallbacks(s, cs))
    decreases |cs|
  {
    hide Inv, Follows, RunCallback;
    FollowsSelf(s);
    if i == 0 {
      CallbacksRun(s, s, cs);
    } else {
      var t := RunCallback(s, cs[0]);
      assert cs[..i][0] == cs[0] && cs[..i][1..] == cs[1..][..i - 1];
      CallbackRuns(s, s, cs[0]);
      CallbacksPass(t, cs[1..], i - 1);
      FollowsTwice(s, t, RunCallbacks(s, cs[..i]));
    }
  }

  /** What the loop does is a sequence of enabled steps, to the top of the loop and on through
      each callback and each destroy of a round: what holds at every step holds there too. */
  lemma RoundIsSteps(sizes: seq<nat>, cs: seq<Choice>, c: Choice, i: nat, n: nat)
    ensures var s := Top(sizes, cs);
      && Follows(BEGINNING, s) && Follows(s, Undrained(s, c))
      && (s.queue == [] && i <= |c.callbacks| ==>
            var t := RunCallbacks(s, c.callbacks[..i]); Follows(s, t) && Follows(t, Undrained(s, c)))
      && Follows(Undrained(s, c), DrainFor(Undrained(s, c), n))
      && Follows(DrainFor(Undrained(s, c), n), Round(s, c))
  {
    var s := Top(sizes, cs);
    hide Top, Inv, Follows, ProcessItem, RunCallbacks, Drain, DrainFor;
    EveryRun(sizes, cs);
    RoundRests(s, c);
    FollowsSelf(s);
    ItemRuns(s, s, c.cmds);
    CallbacksRun(s, s, c.callbacks);
    if i <= |c.callbacks| {
      CallbacksPass(s, c.callbacks, i);
    }
    DrainPasses(Undrained(s, c), n);
  }

  /** Linked processes are both in the table or both gone. */
  lemma LinkedInEveryRun(sizes: seq<nat>, cs: seq<Choice>, x: Pid, y: Pid)
    requires (x, y) in Top(sizes, cs).past.kills
    ensures Live(Top(sizes, cs), y) ==> Live(Top(sizes, cs), x)
    ensures (y, x) in Top(sizes, cs).past.kills ==> Live(Top(sizes, cs), x) == Live(Top(sizes, cs), y)
  {
    EveryRun(sizes, cs);
    hide TableOk, LinksOk, StampsOk, ReceiversOk, WrittenOk, MailOk, NoticesOk, PressureOk, ThrottlesOk, Top;
    LinkedTogether(Top(sizes, cs), x, y);
  }

  /** What was received from a mailbox, what it holds and what is queued for it is what
      was sent to it, in order; and a plain receive never raised. */
  lemma ConservedInEveryRun(sizes: seq<nat>, cs: seq<Choice>, a: Address)
    ensures Live(Top(sizes, cs), a.pid) ==> Conserved(Top(sizes, cs), a)
    ensures !Top(sizes, cs).past.raised
  {
    EveryRun(sizes, cs);
    hide TableOk, LinksOk, StampsOk, ReceiversOk, WrittenOk, NoticesOk, PressureOk, ThrottlesOk, Top, Conserved;
  }

  /** The loop returns exactly when no process is in the table. Every process that was ever
      spawned has then been destroyed, once, and has sent one notice to each address it
      was to notify. */
  lemma RunReturns(sizes: seq<nat>, cs: seq<Choice>)
    ensures var s := Top(sizes, cs);
      && (!Going(s) <==> forall p :: !Live(s, p))
      && (!Going(s) ==>
            && Distinct(s.past.destroyed)
            && forall p :: p in s.past.born <==> p in s.past.destroyed)
      && forall p :: p in s.past.born ==>
           NoticesOf(s.past.sent, p) == if p in s.past.destroyed then s.past.born[p].notifyOnDie else []
  {
    EveryRun(sizes, cs);
    var s := Top(sizes, cs);
    hide LinksOk, StampsOk, ReceiversOk, WrittenOk, MailOk, PressureOk, ThrottlesOk, Top;
    LoopEnds(s);
    hide TableOk, NoticesOf;
    forall p | p in s.past.born
      ensures NoticesOf(s.past.sent, p) == if p in s.past.destroyed then s.past.born[p].notifyOnDie else []
    {
      assert Noticed(s.past, p);
    }
  }

  lemma {:induction false} EveryStep(s: State, ms: seq<Step>, t: State)
    requires Inv(s) && Leads(s, ms, t)
    ensures Inv(t)
    decreases |ms|
  {
    hide Inv, Enabled, Next;
    if ms != [] {
      InvKept(s, ms[0]);
      EveryStep(Next(s, ms[0]), ms[1..], t);
    }
  }

  lemma AtEveryStep(ms: seq<Step>, t: State)
    requires Leads(BEGINNING, ms, t)
    ensures Inv(t)
  {
    hide Inv, Leads;
    InvBegins();
    EveryStep(BEGINNING, ms, t);
  }

  /** At every step of every run: an index is in the table or has one tombstone, never
      both, and the next pid was never issued before. */
  lemma PidsAtEveryStep(ms: seq<Step>, t: State, i: nat)
    requires Leads(BEGINNING, ms, t) && i < |t.table|
    ensures t.table[i].Some? <==> !(exists k :: 0 <= k < |t.tombstones| && t.tombstones[k].idx == i)
    ensures forall j, k :: 0 <= j < k < |t.tombstones| ==> t.tombstones[j].idx != t.tombstones[k].idx
    ensures NextPid(t) !in t.past.born
  {
    AtEveryStep(ms, t);
    hide LinksOk, StampsOk, ReceiversOk, WrittenOk, MailOk, NoticesOk, PressureOk, ThrottlesOk, Leads;
    IndexOnce(t, i);
    OwnTombs(t);
    hide TableOk, NextPid;
    if t.table[i].None? {
      var k :| 0 <= k < |t.tombstones| && t.tombstones[k] == Pid(i, t.past.newest[i]);
    }
  }

  lemma OwnTombs(s: State)
    requires TableOk(s)
    ensures forall k :: 0 <= k < |s.tombstones| ==>
      var t := s.tombstones[k]; t.idx < |s.table| && s.table[t.idx].None? && t == Pid(t.idx, s.past.newest[t.idx])
    ensures forall j, k :: 0 <= j < k < |s.tombstones| ==> s.tombstones[j].idx != s.tombstones[k].idx
  {
    hide Issued, Fates;
    forall j, k | 0 <= j < k < |s.tombstones| ensures s.tombstones[j].idx != s.tombstones[k].idx {
      assert s.tombstones[j] != s.tombstones[k];
    }
  }

  lemma {:induction false} GoneFromNowOn(s: State, ms: seq<Step>, t: State, p: Pid)
    requires Inv(s) && Leads(s, ms, t) && p in s.past.born && !Live(s, p)
    ensures !Live(t, p)
    decreases |ms|
  {
    hide Inv, Enabled, Next, Live;
    if ms != [] {
      InvKept(s, ms[0]);
      InvTable(s);
      GoneForGood(s, ms[0], p);
      GoneFromNowOn(Next(s, ms[0]), ms[1..], t, p);
    }
  }

  lemma InvTable(s: State)
    requires Inv(s)
    ensures TableOk(s)
  {
    hide TableOk, LinksOk, StampsOk, ReceiversOk, WrittenOk, MailOk, NoticesOk, PressureOk, ThrottlesOk;
  }

  lemma InvLinks(s: State)
    requires Inv(s)
    ensures LinksOk(s) && TableOk(s) && NoticesOk(s)
  {
    hide TableOk, LinksOk, StampsOk, ReceiversOk, WrittenOk, MailOk, NoticesOk, PressureOk, ThrottlesOk;
  }

  /** At every step of every run: a pid that has left the table is not in it at any later
      step. */
  lemma GoneInEveryRun(ms: seq<Step>, s: State, ns: seq<Step>, t: State, p: Pid)
    requires Leads(BEGINNING, ms, s) && Leads(s, ns, t) && p in s.past.born && !Live(s, p)
    ensures !Live(t, p)
  {
    hide Inv, Leads, Live;
    AtEveryStep(ms, s);
    GoneFromNowOn(s, ns, t, p);
  }

  /** Who is live was live at every step before, since it was spawned, and its resume count
      has not fallen since. */
  lemma {:induction false} CountsGrowOn(s: State, ms: seq<Step>, t: State, p: Pid)
    requires Inv(s) && Leads(s, ms, t) && p in s.past.born && Live(t, p)
    ensures Live(s, p) && At(t, p).resumes >= At(s, p).resumes
    decreases |ms|
  {
    hide Inv, Enabled, Next, Live, At;
    if !Live(s, p) {
      GoneFromNowOn(s, ms, t, p);
    }
    if ms != [] {
      InvKept(s, ms[0]);
      InvTable(s);
      BornStays(s, ms[0], p);
      CountsGrowOn(Next(s, ms[0]), ms[1..], t, p);
      LiveExists(s, p);
      InvTable(Next(s, ms[0]));
      LiveExists(Next(s, ms[0]), p);
      CountsGrow(s, ms[0], p);
    }
  }

  /** Who is live at some later step is live after the next one. */
  lemma LiveNext(s: State, m: Step, ms: seq<Step>, t: State, p: Pid)
    requires Inv(s) && Enabled(s, m) && Leads(Next(s, m), ms, t) && p in s.past.born && Live(t, p)
    ensures Inv(Next(s, m)) && Live(Next(s, m), p) && p in Next(s, m).procs
    ensures At(t, p).resumes >= At(Next(s, m), p).resumes
  {
    hide Inv, Enabled, Next, Live, Leads, At;
    InvKept(s, m);
    InvTable(s);
    InvTable(Next(s, m));
    BornStays(s, m, p);
    CountsGrowOn(Next(s, m), ms, t, p);
    LiveExists(Next(s, m), p);
  }

  lemma LiveExists(s: State, p: Pid)
    requires TableOk(s) && Live(s, p)
    ensures p in s.procs && p in s.past.born
  {
    hide TableOk;
    TableFacts(s);
  }

  /** An item or a continuation that would resume `p` at this count is about. */
  ghost predicate Made(s: State, p: Pid, stamp: nat) {
    || Resume(p, stamp) in s.queue
    || Waiter(p, stamp) in s.posted || Waiter(p, stamp) in s.outside || HeldSomewhere(s, Waiter(p, stamp))
  }

  lemma MadeBefore(s: State, p: Pid, stamp: nat)
    requires StampsOk(s) && Made(s, p, stamp)
    ensures p in s.past.born && (p in s.procs ==> stamp <= At(s, p).resumes)
  {
    ClocksAt(s, p);
    hide OneRuns, Clocks;
    if HeldSomewhere(s, Waiter(p, stamp)) {
      var a: Address :| Waiter(p, stamp) in HeldBy(s, a);
      HeldAt(s, a, Clocks(s.procs), s.past.born.Keys);
    } else if Resume(p, stamp) in s.queue {
      assert Resume(p, stamp) in multiset(s.queue);
    }
  }

  /** In every run: an item or a continuation made by some step (`s`) is idle for ever (`u`)
      once its process has been resumed since, or has left the table (`t`). */
  lemma StaleInEveryRun(ms: seq<Step>, s: State, ns: seq<Step>, t: State, os: seq<Step>, u: State, p: Pid, stamp: nat)
    requires Leads(BEGINNING, ms, s) && Leads(s, ns, t) && Leads(t, os, u)
    requires Made(s, p, stamp) && (!Live(t, p) || At(t, p).resumes > At(s, p).resumes)
    ensures !Current(u, p, stamp)
    ensures u.queue != [] && u.queue[0] == Resume(p, stamp) ==>
      !Enabled(u, WakeItem) && (u.running.None? ==> Enabled(u, Drop))
    ensures forall k :: 0 <= k < |u.posted| && u.posted[k] == Waiter(p, stamp) ==>
      Next(u, Continuation(k)) == u.(posted := RemoveAt(u.posted, k))
  {
    hide Inv, Leads, Live, At, Made, Enabled, Next, RemoveAt;
    AtEveryStep(ms, s);
    EveryStep(s, ns, t);
    InvStamps(s);
    MadeBefore(s, p, stamp);
    BornStaysOn(s, ns, t, p);
    if Live(u, p) {
      CountsGrowOn(t, os, u, p);
      CountsGrowOn(s, ns, t, p);
      InvTable(s);
      LiveExists(s, p);
    }
    StaleIsIdle(u, p, stamp);
  }

  lemma InvStamps(s: State)
    requires Inv(s)
    ensures StampsOk(s) && ThrottlesOk(s)
  {
    hide TableOk, LinksOk, StampsOk, ReceiversOk, WrittenOk, MailOk, NoticesOk, PressureOk, ThrottlesOk;
  }

  lemma {:induction false} BornStaysOn(s: State, ms: seq<Step>, t: State, p: Pid)
    requires Inv(s) && Leads(s, ms, t) && p in s.past.born
    ensures p in t.past.born
    decreases |ms|
  {
    hide Inv, Enabled, Next;
    if ms != [] {
      InvKept(s, ms[0]);
      InvTable(s);
      BornStays(s, ms[0], p);
      BornStaysOn(Next(s, ms[0]), ms[1..], t, p);
    }
  }

  /** At every step of every run: a live process has exactly one wake-up in the queue if it
      has not started or is yielding, and none if not. */
  lemma WakeupsAtEveryStep(ms: seq<Step>, t: State, p: Pid)
    requires Leads(BEGINNING, ms, t) && Live(t, p)
    ensures Wakeups(t, p) == if At(t, p).waiting.NotStarted? || At(t, p).waiting.Yielding? then 1 else 0
  {
    AtEveryStep(ms, t);
    hide TableOk, LinksOk, StampsOk, ReceiversOk, WrittenOk, MailOk, NoticesOk, PressureOk, ThrottlesOk, Leads,
         Wakeups, Live;
    WakeupsExact(t, p);
  }

  /** At every step of every run: who is suspended on a slot has nothing in it. */
  lemma ReceiversAtEveryStep(ms: seq<Step>, t: State, a: Address)
    requires Leads(BEGINNING, ms, t) && WaitingFor(t, a)
    ensures BoxAt(t, a).contents == []
  {
    AtEveryStep(ms, t);
    hide TableOk, LinksOk, StampsOk, WrittenOk, MailOk, NoticesOk, PressureOk, ThrottlesOk, Leads;
    assert Receives(t.procs[a.pid]);
  }

  /** At every step of every run: what was received from a mailbox of a live process, what
      it holds and what is queued for it is what was sent to it, in order. */
  lemma ConservedAtEveryStep(ms: seq<Step>, t: State, a: Address)
    requires Leads(BEGINNING, ms, t) && Live(t, a.pid)
    ensures To(t.past.received, a) + BoxAt(t, a).contents + Queued(t.queue, a) == To(t.past.sent, a)
  {
    AtEveryStep(ms, t);
    hide TableOk, LinksOk, StampsOk, ReceiversOk, WrittenOk, NoticesOk, PressureOk, ThrottlesOk, Leads, Live, To,
         Queued, BoxAt;
    assert Conserved(t, a);
  }

  /** In every run, a round removes exactly the processes that kill links reach from those
      that were doomed in it. */
  lemma KilledInEveryRound(sizes: seq<nat>, cs: seq<Choice>, c: Choice)
    ensures var s := Top(sizes, cs);
            var u := Undrained(s, c);
      forall p :: Live(Round(s, c), p) <==> Live(u, p) && !Reached(u, p)
  {
    hide Top, ProcessItem, RunCallbacks, Reached, Live, Drain, Inv;
    var s := Top(sizes, cs);
    EveryRun(sizes, cs);
    RoundRests(s, c);
    var u := Undrained(s, c);
    RestsFacts(u);
    DrainExact(u);
  }

  /** At every step of every run: an address that is only sent to by awaited
      `sendThrottled`, from `k` processes in all, never has more than `19 + k` messages in
      its mailbox and in the queue together. */
  lemma BoundedAtEveryStep(ms: seq<Step>, t: State, a: Address, k: nat)
    requires Leads(BEGINNING, ms, t) && a !in t.past.plain && |Senders(t.past, a)| <= k
    ensures Load(t, a) <= 19 + k
  {
    InvBegins();
    EveryStep(BEGINNING, ms, t);
    hide TableOk, LinksOk, StampsOk, ReceiversOk, WrittenOk, MailOk, NoticesOk, PressureOk, ThrottlesOk, Leads, Load,
         Senders;
    BackPressureBound(t, a, k);
  }

  /** At every step of every run: the only sender to a mailbox, if it waits for room in it
      and there is room, is about to be woken. */
  lemma WokenAtEveryStep(ms: seq<Step>, t: State, p: Pid, a: Address)
    requires Leads(BEGINNING, ms, t) && AloneAt(t, p, a) && |BoxAt(t, a).contents| < THROTTLE
    ensures Me(t, p) in t.posted
  {
    AtEveryStep(ms, t);
    hide TableOk, LinksOk, StampsOk, ReceiversOk, WrittenOk, MailOk, NoticesOk, PressureOk, ThrottlesOk, Leads,
         AloneAt, BoxAt, Me, WaitsAt, Known;
    AloneIsKnown(t, p, a);
    NoLostWakeup(t, p, a);
  }
}
