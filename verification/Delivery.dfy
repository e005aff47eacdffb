/** Messages: none is lost, duplicated or reordered, and receivers wake at once. */
module Delivery {
  import opened Options
  import opened Mailboxes
  import opened Scheduler
  import opened PidTable
  import opened Stamps

  // ---------------------------------------------------------------- receivers

  function BoxOf(proc: Proc, slot: nat): Box {
    if slot < |proc.boxes| then proc.boxes[slot] else EMPTY_BOX
  }

  /** Who is suspended on a set of slots has nothing in any of them. */
  predicate Receives(proc: Proc) {
    proc.waiting.Receiving? ==>
      var w := proc.waiting;
      && (forall i :: 0 <= i < |w.slots| ==> BoxOf(proc, w.slots[i]).contents == [])
      && (w.plain ==> |w.slots| == 1 && !w.future)
  }

  predicate ReceiversOk(procs: map<Pid, Proc>) {
    forall p :: p in procs ==> Receives(procs[p])
  }

  /** A process of `t` is one of `s`, up to what receivers do not see, or not receiving. */
  predicate ReceivesAs(proc: Proc, proc': Proc) {
    && proc'.waiting == proc.waiting && |proc'.boxes| == |proc.boxes|
    && forall i :: 0 <= i < |proc.boxes| ==> proc'.boxes[i].contents == proc.boxes[i].contents
  }

  lemma ReceiversSame(procs: map<Pid, Proc>, procs': map<Pid, Proc>)
    requires ReceiversOk(procs)
    requires forall p :: p in procs' ==> (p in procs && ReceivesAs(procs[p], procs'[p])) || Receives(procs'[p])
    ensures ReceiversOk(procs')
  {
    forall p | p in procs' ensures Receives(procs'[p]) {
      if p in procs && ReceivesAs(procs[p], procs'[p]) {
        assert Receives(procs[p]);
      }
    }
  }

  /** Only the promise of a box is changed. */
  lemma PromiseReceivers(s: State, a: Address, promise: Signal<Waiter>)
    requires ReceiversOk(s.procs)
    ensures ReceiversOk(PutBox(s, a, BoxAt(s, a).(promise := promise)).procs)
  {
    hide SameLinks, SameProcesses, Receives;
    ReceiversSame(s.procs, PutBox(s, a, BoxAt(s, a).(promise := promise)).procs);
  }

  lemma WaitReceivers(s: State, p: Pid, w: Wait)
    requires ReceiversOk(s.procs) && (p in s.procs ==> Receives(s.procs[p].(waiting := w)))
    ensures p in s.procs ==> ReceiversOk(PutWait(s, p, w).procs)
  {
    hide SameLinks, SameProcesses;
  }

  lemma BeginReceivers(s: State, p: Pid)
    requires p in s.procs
    requires forall q :: q in s.procs && q != p ==> Receives(s.procs[q])
    ensures ReceiversOk(BeginStep(s, p).procs)
  {
    hide SameLinks, SameProcesses;
    var t := BeginStep(s, p);
    forall q | q in t.procs ensures Receives(t.procs[q]) {
      assert q in s.procs;
      if q != p {
        assert ReceivesAs(s.procs[q], t.procs[q]);
      }
    }
  }

  lemma DeliverReceivers(s: State)
    requires ReceiversOk(s.procs) && s.queue != [] && s.queue[0].Mail?
    ensures var a, t := s.queue[0].letter.to, DeliverStep(s);
      && (forall q :: q in t.procs <==> q in s.procs)
      && (forall q :: q in t.procs && q != a.pid ==> Receives(t.procs[q]))
      && (!WaitingFor(s, a) ==> ReceiversOk(t.procs))
  {
    hide SameLinks, SameProcesses, Receives;
    var a, t := s.queue[0].letter.to, DeliverStep(s);
    assert forall q :: q in t.procs && q != a.pid ==> t.procs[q] == s.procs[q];
    if a.pid in s.procs && !WaitingFor(s, a) {
      DeliverAside(s.procs[a.pid], a.slot, Push(BoxAt(s, a), s.queue[0].letter.m));
    }
  }

  lemma DeliverAside(proc: Proc, slot: nat, b: Box)
    requires Receives(proc) && (proc.waiting.Receiving? ==> slot !in proc.waiting.slots)
    ensures slot < |proc.boxes| ==> Receives(proc.(boxes := proc.boxes[slot := b]))
  {
    if slot < |proc.boxes| && proc.waiting.Receiving? {
      var slots := proc.waiting.slots;
      forall i | 0 <= i < |slots| ensures BoxOf(proc.(boxes := proc.boxes[slot := b]), slots[i]).contents == [] {
        assert slots[i] != slot;
      }
    }
  }

  lemma KeepReceivers(s: State, t: State)
    requires ReceiversOk(s.procs)
    requires forall p :: p in t.procs ==>
      && p in s.procs && t.procs[p].waiting == s.procs[p].waiting
      && t.procs[p].boxes == s.procs[p].boxes
    ensures ReceiversOk(t.procs)
  {
  }

  lemma SpawnReceivers(s: State, slots: nat, parent: Option<Pid>, both: bool, notify: seq<Address>)
    requires ReceiversOk(s.procs) && (parent.Some? ==> parent.value in s.procs)
    ensures ReceiversOk(SpawnStep(s, slots, parent, both, notify).procs)
  {
    var p, t := NextPid(s), SpawnAlone(s, slots, notify);
    assert forall q :: q in t.procs <==> q in s.procs || q == p;
    assert ReceiversOk(t.procs) by { hide SameLinks, NextPid; }
    hide SpawnAlone, NextPid, SameLinks, SameProcesses, ReceiversOk, AddKill;
    if parent.Some? {
      var r := parent.value;
      KillReceivers(t, r, p);
      KillReceivers(t, p, r);
      KillReceivers(AddKill(t, p, r), r, p);
    }
  }

  lemma KillReceivers(s: State, p: Pid, q: Pid)
    requires ReceiversOk(s.procs) && p in s.procs
    ensures ReceiversOk(AddKill(s, p, q).procs)
  {
    hide ReceiversOk, SameProcesses, SameLinks;
    KeepReceivers(s, AddKill(s, p, q));
  }

  lemma TakeReceivers(s: State, p: Pid, slot: nat)
    requires ReceiversOk(s.procs) && (p in s.procs ==> s.procs[p].waiting.Running?)
    ensures ReceiversOk(TakeStep(s, p, slot).procs)
  {
    hide SameLinks, SameProcesses;
  }

  lemma SuspendReceivers(s: State, p: Pid, w: Wait)
    requires ReceiversOk(s.procs) && p in s.procs && MayWait(s, p, w)
    ensures ReceiversOk(SuspendStep(s, p, w).procs)
  {
    assert Receives(s.procs[p].(waiting := w)) by {
      assert w.Receiving? ==> forall i :: 0 <= i < |w.slots| ==> BoxAt(s, Address(p, w.slots[i])).contents == [];
    }
    WaitReceivers(s, p, w);
    hide SameLinks, SameProcesses, ReceiversOk, PutBox, PutWait, MayWait, BoxAt;
    if w.OnThrottle? {
      var t := PutWait(s, p, w).(running := None);
      PromiseReceivers(t, w.letter.to, Continued(BoxAt(t, w.letter.to).promise, Waiter(p, At(s, p).resumes)).signal);
    }
  }

  lemma WakeReceivers(s: State, m: Step)
    requires ReceiversOk(s.procs) && TableOk(s) && Enabled(s, m)
    requires m.DeliverWake? || m.WakeItem? || m.Continuation? || m.Timer?
    ensures ReceiversOk(Next(s, m).procs)
  {
    hide ReceiversOk, TableOk, BeginStep, DeliverStep, PopItem, WaitingFor, Live, SameProcesses, SameLinks, RemoveAt;
    TableFacts(s);
    AllReceive(s);
    match m
    case DeliverWake =>
      DeliverReceivers(s);
      BeginReceivers(DeliverStep(s), s.queue[0].letter.to.pid);
    case WakeItem => BeginReceivers(PopItem(s), s.queue[0].pid);
    case Continuation(k) =>
      if Current(s, s.posted[k].pid, s.posted[k].stamp) {
        BeginReceivers(s.(posted := RemoveAt(s.posted, k)), s.posted[k].pid);
      }
    case Timer(q) => BeginReceivers(s, q);
  }

  lemma BodyReceivers(s: State, m: Step)
    requires ReceiversOk(s.procs) && TableOk(s) && StampsOk(s) && Enabled(s, m) && OfBody(m)
    ensures ReceiversOk(Next(s, m).procs)
  {
    hide ReceiversOk, StampsOk, TableOk, SpawnStep, AddKill, TakeStep, SuspendStep, QueueSend, SendPlainStep,
         PutWait, BoxAt, Full, Live, MayWait, Addressable, SameLinks;
    TableFacts(s);
    RunningRuns(s);
    match m
    case Spawn(slots, parent, both, notify) => SpawnReceivers(s, slots, parent, both, notify);
    case Link(p, q) =>
      KillReceivers(s, p, q);
      KillReceivers(AddKill(s, p, q), q, p);
    case SendPlain(l) => KeepReceivers(s, Next(s, m));
    case Pass(p, l) => WaitReceivers(s, p, Running(Some(l)));
    case SendOn(p) => WaitReceivers(s, p, Running(None));
    case Take(p, slot) => TakeReceivers(s, p, slot);
    case Suspend(p, w) => SuspendReceivers(s, p, w);
  }

  lemma LoopReceivers(s: State, m: Step)
    requires ReceiversOk(s.procs) && TableOk(s) && Enabled(s, m) && !OfBody(m)
    ensures ReceiversOk(Next(s, m).procs)
  {
    if m.DeliverWake? || m.WakeItem? || m.Continuation? || m.Timer? {
      hide *;
      WakeReceivers(s, m);
    } else {
      hide ReceiversOk, TableOk, DeliverStep, PopItem, FireStep, DoomStep, FinishStep, BuryStep, WaitingFor, Live,
           SameLinks;
      match m
      case Deliver => DeliverReceivers(s);
      case _ => KeepReceivers(s, Next(s, m));
    }
  }

  /** Suspended receivers are kept by every step. */
  lemma ReceiversKept(s: State, m: Step)
    requires ReceiversOk(s.procs) && TableOk(s) && StampsOk(s) && Enabled(s, m)
    ensures ReceiversOk(Next(s, m).procs)
  {
    hide *;
    if OfBody(m) {
      BodyReceivers(s, m);
    } else {
      LoopReceivers(s, m);
    }
  }

  lemma AllReceive(s: State)
    requires ReceiversOk(s.procs)
    ensures forall q :: q in s.procs ==> Receives(s.procs[q])
  {
  }

  lemma RunningRuns(s: State)
    requires StampsOk(s)
    ensures s.running.Some? ==> s.running.value in s.procs && s.procs[s.running.value].waiting.Running?
  {
    hide QueueOk, WaitersOk, HeldOk;
  }
}
