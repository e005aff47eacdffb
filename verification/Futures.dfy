/** Processes that wait for a promise outside the context: each has one continuation, which
    wakes it. */
module Futures {
  import opened Options
  import opened Mailboxes
  import opened Scheduler
  import opened PidTable
  import opened Stamps
  import opened Throttles

  /** A wait that something outside the context may end. */
  predicate ForFuture(w: Wait) {
    w.OnOutside? || (w.Receiving? && w.future)
  }

  /** How often a continuation is held outside the context or posted. */
  function Tally(s: State, w: Waiter): nat {
    multiset(s.outside)[w] + multiset(s.posted)[w]
  }

  /** Whoever waits so has one continuation, which no mailbox holds. */
  ghost predicate AwaitedOk(s: State) {
    forall p :: Live(s, p) && ForFuture(At(s, p).waiting) ==>
      Tally(s, Me(s, p)) == 1 && !HeldSomewhere(s, Me(s, p))
  }

  // ---------------------------------------------------------------- the tally of one continuation

  lemma Joined(a: seq<Waiter>, b: seq<Waiter>, w: Waiter)
    ensures multiset(a + b)[w] == multiset(a)[w] + multiset(b)[w]
  {
  }

  lemma OneOff(a: seq<Waiter>, k: nat, w: Waiter)
    requires k < |a|
    ensures multiset(RemoveAt(a, k))[w] == multiset(a)[w] - if a[k] == w then 1 else 0
  {
    assert a == a[..k] + [a[k]] + a[k + 1..];
  }

  lemma NotIn(a: seq<Waiter>, w: Waiter)
    ensures w !in a ==> multiset(a)[w] == 0
  {
  }

  lemma {:induction false} NoneWoken(boxes: seq<Box>, w: Waiter)
    requires forall i :: 0 <= i < |boxes| ==> w !in Held(boxes[i].promise.exec)
    ensures w !in Wakes(boxes)
    decreases |boxes|
  {
    if boxes != [] {
      NoneWoken(boxes[1..], w);
    }
  }

  lemma TakeTally(s: State, p: Pid, slot: nat, w: Waiter)
    requires !HeldSomewhere(s, w)
    ensures Tally(TakeStep(s, p, slot), w) == Tally(s, w)
  {
    var a := Address(p, slot);
    hide SameLinks, SameProcesses, PutBox;
    if BoxAt(s, a).contents != [] {
      var r := Pop(BoxAt(s, a));
      assert w !in HeldBy(s, a);
      Joined(s.posted, r.posted, w);
      NotIn(r.posted, w);
    }
  }

  lemma BuryTally(s: State, w: Waiter)
    requires !HeldSomewhere(s, w)
    ensures Tally(BuryStep(s), w) == Tally(s, w)
  {
    hide SameLinks, Notices, Mails, Wakes;
    if s.doomed != [] {
      var boxes := At(s, s.doomed[0]).boxes;
      forall i | 0 <= i < |boxes| ensures w !in Held(boxes[i].promise.exec) {
        assert w !in HeldBy(s, Address(s.doomed[0], i));
      }
      NoneWoken(boxes, w);
      Joined(s.posted, Wakes(boxes), w);
      NotIn(Wakes(boxes), w);
    }
  }

  lemma FireTally(s: State, k: nat, w: Waiter)
    ensures Tally(FireStep(s, k), w) == Tally(s, w)
  {
    hide SameLinks, SameProcesses, RemoveAt;
    if k < |s.outside| {
      OneOff(s.outside, k, w);
      Joined(s.posted, [s.outside[k]], w);
    }
  }

  lemma ContinuationTally(s: State, k: nat, w: Waiter)
    requires k < |s.posted|
    ensures Tally(ContinuationStep(s, k), w) == Tally(s, w) - if s.posted[k] == w then 1 else 0
  {
    hide SameLinks, SameProcesses, RemoveAt, Live;
    OneOff(s.posted, k, w);
    var t := s.(posted := RemoveAt(s.posted, k));
    assert BeginStep(t, s.posted[k].pid).posted == t.posted && BeginStep(t, s.posted[k].pid).outside == t.outside;
    hide BeginStep;
  }

  /** A suspension for a promise outside registers one continuation there. */
  lemma SuspendTally(s: State, p: Pid, w: Wait, x: Waiter)
    requires w.OnThrottle? ==> x != Me(s, p)
    ensures Tally(SuspendStep(s, p, w), x) == Tally(s, x) + if ForFuture(w) && x == Me(s, p) then 1 else 0
  {
    hide SameLinks, SameProcesses, PutBox;
    Joined(s.outside, [Me(s, p)], x);
    if w.OnThrottle? {
      var t := PutWait(s, p, w).(running := None);
      var r := Continued(BoxAt(t, w.letter.to).promise, Me(s, p));
      Joined(s.posted, r.posted, x);
      NotIn(r.posted, x);
    }
  }

  lemma SameTally(s: State, m: Step)
    requires !m.Take? && !m.Suspend? && !m.Continuation? && !m.Fire? && !m.Bury?
    ensures Next(s, m).posted == s.posted && Next(s, m).outside == s.outside
  {
    hide SameLinks, SameProcesses, NextPid, Live, WaitingFor, BoxAt;
  }

  /** No step but those of its own process changes the tally of a continuation that no
      mailbox holds. */
  lemma TallyKept(s: State, m: Step, w: Waiter)
    requires Enabled(s, m) && !HeldSomewhere(s, w) && Touched(s, m) != Some(w)
    ensures Tally(Next(s, m), w) == Tally(s, w)
  {
    hide Tally, TakeStep, SuspendStep, ContinuationStep, FireStep, BuryStep, HeldSomewhere, MayWait, MayBury, BoxAt;
    match m
    case Take(p, slot) => TakeTally(s, p, slot, w);
    case Suspend(p, x) => SuspendTally(s, p, x, w);
    case Continuation(k) => ContinuationTally(s, k, w);
    case Fire(k) => FireTally(s, k, w);
    case Bury => BuryTally(s, w);
    case _ => StillTally(s, m, w);
  }

  lemma StillTally(s: State, m: Step, w: Waiter)
    requires !m.Take? && !m.Suspend? && !m.Continuation? && !m.Fire? && !m.Bury?
    ensures Tally(Next(s, m), w) == Tally(s, w)
  {
    hide Next;
    SameTally(s, m);
  }

  // ---------------------------------------------------------------- every step

  /** Who is live after a step, and has started, was live before. */
  lemma LiveBefore(s: State, m: Step, p: Pid)
    requires TableOk(s) && Enabled(s, m) && Live(Next(s, m), p) && !At(Next(s, m), p).waiting.NotStarted?
    ensures Live(s, p) && p in s.procs && p in Next(s, m).procs
  {
    hide TableOk, Enabled, Next, Live;
    TableFacts(s);
    TableKept(s, m);
    TableFacts(Next(s, m));
    if p in s.past.born && !Live(s, p) {
      GoneForGood(s, m, p);
    } else if p !in s.past.born {
      NewIsUnstarted(s, m, p);
    }
  }

  lemma NewIsUnstarted(s: State, m: Step, p: Pid)
    requires TableOk(s) && Enabled(s, m) && p !in s.past.born && p in Next(s, m).procs
    ensures At(Next(s, m), p).waiting.NotStarted?
  {
    hide TableOk;
    TableFacts(s);
    if !Moves(m) {
      StaysSame(s, m);
      SameSize(s, Next(s, m));
    } else if m.Spawn? {
      hide Enabled;
      BodyIs(s, m);
      SpawnChanges(s, m.slots, m.parent, m.both, m.notify);
      SpawnUnstarted(s, m.slots, m.parent, m.both, m.notify);
    } else {
      OthersKeepBorn(s, m);
    }
  }

  lemma SpawnUnstarted(s: State, slots: nat, parent: Option<Pid>, both: bool, notify: seq<Address>)
    requires TableOk(s) && (parent.Some? ==> parent.value in s.procs)
    ensures At(SpawnStep(s, slots, parent, both, notify), NextPid(s)).waiting.NotStarted?
  {
    TableFacts(s);
    hide TableOk, NextPid, SameLinks;
  }

  lemma RunningAfter(s: State, m: Step)
    requires Enabled(s, m)
    ensures s.running.Some? && !m.Suspend? && !m.Finish? ==> Next(s, m).running == s.running
    ensures Woken(s, m).Some? ==> Next(s, m).running == Woken(s, m)
    ensures m.Finish? ==> Next(s, m).procs == s.procs
  {
    hide SameLinks, SameProcesses, NextPid, Live, WaitingFor, BoxAt, PutBox, RemoveAt, MayWait, AnyReady, Addressable;
  }

  /** A process that waits after a step ran before only if the step suspended it, and was
      not resumed by the step. */
  lemma WaitedBefore(s: State, m: Step, p: Pid)
    requires StampsOk(s) && TableOk(s) && Enabled(s, m) && Live(Next(s, m), p)
    requires var w := At(Next(s, m), p).waiting; !w.Running? && !w.NotStarted?
    ensures Live(s, p) && p in s.procs
    ensures s.running == Some(p) ==> m.Suspend? && m.p == p
    ensures s.running != Some(p) ==>
      At(Next(s, m), p).waiting == At(s, p).waiting && Me(Next(s, m), p) == Me(s, p) && Woken(s, m) != Some(p)
  {
    hide StampsOk, TableOk, Enabled, Next, Live, Woken;
    LiveBefore(s, m, p);
    CountsGrow(s, m, p);
    RunningAfter(s, m);
    StampsKept(s, m);
    if s.running.Some? {
      RunnerRuns(s);
    }
    if Next(s, m).running.Some? {
      RunnerRuns(Next(s, m));
    }
    if m.Suspend? {
      BodyIs(s, m);
    }
  }

  lemma NonePosted(s: State, p: Pid)
    requires StampsOk(s) && p in s.procs && At(s, p).waiting.Running?
    ensures Tally(s, Me(s, p)) == 0 && !HeldSomewhere(s, Me(s, p))
  {
    ClocksAt(s, p);
    NotIn(s.outside, Me(s, p));
    NotIn(s.posted, Me(s, p));
    hide QueueOk, OneRuns, Clocks, HeldOk;
    assert Me(s, p) !in s.posted && Me(s, p) !in s.outside;
    hide StampsOk;
    if HeldSomewhere(s, Me(s, p)) {
      var a: Address :| Me(s, p) in HeldBy(s, a);
      NoneOfRunning(s, p, a);
    }
  }

  lemma SuspendHolds(s: State, p: Pid, w: Wait, x: Waiter)
    requires !w.OnThrottle? && p in s.procs
    ensures HeldSomewhere(SuspendStep(s, p, w), x) == HeldSomewhere(s, x)
    ensures At(SuspendStep(s, p, w), p).waiting == w && Me(SuspendStep(s, p, w), p) == Me(s, p)
  {
    var t := SuspendStep(s, p, w);
    assert t.procs == s.procs[p := s.procs[p].(waiting := w)];
    hide SuspendStep;
    assert forall a: Address :: HeldBy(t, a) == HeldBy(s, a);
    hide HeldBy;
  }

  lemma StillUnheld(s: State, m: Step, w: Waiter)
    requires ThrottlesOk(s) && StampsOk(s) && TableOk(s) && Enabled(s, m)
    requires !HeldSomewhere(s, w) && Touched(s, m) != Some(w)
    ensures !HeldSomewhere(Next(s, m), w)
  {
    hide ThrottlesOk, StampsOk, TableOk, Enabled, Next, HeldBy, Known;
    if ForRoom(m) {
      RoomThrottles(s, m);
      assert w != Me(s, m.p);
    } else {
      CarriedOn(s, m);
    }
  }

  lemma OneAwaited(s: State, m: Step, p: Pid)
    requires AwaitedOk(s) && ThrottlesOk(s) && StampsOk(s) && TableOk(s) && Enabled(s, m)
    requires Live(Next(s, m), p) && ForFuture(At(Next(s, m), p).waiting)
    ensures Tally(Next(s, m), Me(Next(s, m), p)) == 1 && !HeldSomewhere(Next(s, m), Me(Next(s, m), p))
  {
    hide ThrottlesOk, StampsOk, TableOk, Enabled, Next, HeldSomewhere, Tally;
    WaitedBefore(s, m, p);
    if s.running == Some(p) {
      hide AwaitedOk;
      RunnerRuns(s);
      BodyIs(s, m);
      NonePosted(s, p);
      WaitIs(s, p, m.w);
      SuspendTally(s, p, m.w, Me(s, p));
      SuspendHolds(s, p, m.w, Me(s, p));
    } else {
      assert ForFuture(At(s, p).waiting);
      NotTouched(s, m, p);
      TallyKept(s, m, Me(s, p));
      StillUnheld(s, m, Me(s, p));
    }
  }

  lemma NotTouched(s: State, m: Step, p: Pid)
    requires Enabled(s, m) && Live(s, p) && s.running != Some(p) && Woken(s, m) != Some(p)
    ensures Touched(s, m) != Some(Me(s, p))
  {
    hide Live, MayWait, BoxAt;
  }

  lemma WaitIs(s: State, p: Pid, w: Wait)
    requires p in s.procs
    ensures At(SuspendStep(s, p, w), p).waiting == w
  {
    hide SameLinks, SameProcesses;
  }

  /** Each process that waits for a promise outside keeps its one continuation. */
  lemma AwaitedKept(s: State, m: Step)
    requires AwaitedOk(s) && ThrottlesOk(s) && StampsOk(s) && TableOk(s) && Enabled(s, m)
    ensures AwaitedOk(Next(s, m))
  {
    hide ThrottlesOk, StampsOk, TableOk, Enabled, Next, HeldSomewhere, Tally, Live, ForFuture;
    forall p | Live(Next(s, m), p) && ForFuture(At(Next(s, m), p).waiting)
      ensures Tally(Next(s, m), Me(Next(s, m), p)) == 1 && !HeldSomewhere(Next(s, m), Me(Next(s, m), p))
    {
      OneAwaited(s, m, p) by { hide AwaitedOk; }
    }
  }
}
