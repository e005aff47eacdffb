/** A sender that waits for room in a mailbox is woken when there is room. */
module Throttles {
  import opened Options
  import opened Mailboxes
  import opened Scheduler
  import opened PidTable
  import opened Stamps
  import opened Conservation
  import opened BackPressure

  /** A mailbox that holds a continuation is full, and its promise is not set. */
  predicate GuardsOk(procs: map<Pid, Proc>) {
    forall p, i :: p in procs && 0 <= i < |procs[p].boxes| ==> Guarded(procs[p].boxes[i])
  }

  /** Whoever is in a `sendThrottled` is known to have begun it. */
  predicate RecordedOk(procs: map<Pid, Proc>, past: History) {
    forall p :: p in procs && LetterOf(procs[p].waiting).Some? ==>
      (p, LetterOf(procs[p].waiting).value.to) in past.throttled
  }

  /** The continuations that mailbox `a` holds. */
  function HeldBy(s: State, a: Address): seq<Waiter> {
    Held(BoxAt(s, a).promise.exec)
  }

  function Me(s: State, p: Pid): Waiter {
    Waiter(p, At(s, p).resumes)
  }

  /** A live sender waits for room in `a`. */
  predicate WaitsAt(s: State, p: Pid, a: Address) {
    Live(s, p) && At(s, p).waiting.OnThrottle? && At(s, p).waiting.letter.to == a
  }

  /** It is the only sender there ever was. */
  ghost predicate AloneAt(s: State, p: Pid, a: Address) {
    WaitsAt(s, p, a) && Senders(s.past, a) == {p}
  }

  /** The continuation of `p` is posted, or the mailbox still holds it. */
  predicate Known(s: State, p: Pid, a: Address) {
    Me(s, p) in s.posted || Me(s, p) in HeldBy(s, a)
  }

  ghost predicate AloneOk(s: State) {
    forall p, a :: AloneAt(s, p, a) ==> Known(s, p, a)
  }

  /** A continuation is nowhere but on the io service and in the mailbox `a`. */
  ghost predicate OnlyFor(s: State, w: Waiter, a: Address) {
    w !in s.outside && forall c: Address :: c != a ==> w !in HeldBy(s, c)
  }

  /** Who waits for room in a mailbox can be woken by nothing else. */
  ghost predicate PlacedOk(s: State) {
    forall p :: Live(s, p) && At(s, p).waiting.OnThrottle? ==> OnlyFor(s, Me(s, p), At(s, p).waiting.letter.to)
  }

  ghost predicate ThrottlesOk(s: State) {
    GuardsOk(s.procs) && RecordedOk(s.procs, s.past) && AloneOk(s) && PlacedOk(s)
  }

  // ---------------------------------------------------------------- frames

  ghost predicate HeldSomewhere(s: State, w: Waiter) {
    exists a: Address :: w in HeldBy(s, a)
  }

  /** Every continuation but `but` that was held or posted still is, and no other appears. */
  ghost predicate Carried(s: State, t: State, but: Option<Waiter>) {
    && (forall w :: w in s.posted && Some(w) != but ==> w in t.posted)
    && (forall a: Address, w :: w in HeldBy(s, a) && Some(w) != but ==> w in HeldBy(t, a) || w in t.posted)
    && (forall w :: w in t.outside && Some(w) != but ==> w in s.outside)
    && (forall a: Address, w :: w in HeldBy(t, a) && Some(w) != but ==> w in HeldBy(s, a))
    && (forall w :: w in t.posted && Some(w) != but ==> w in s.posted || w in s.outside || HeldSomewhere(s, w))
  }

  lemma SomewhereIs(s: State, a: Address)
    ensures forall w :: w in HeldBy(s, a) ==> HeldSomewhere(s, w)
  {
    hide HeldBy;
  }

  /** The invariant, and what became of the continuations since `s`. */
  ghost predicate Keeps(s: State, t: State, but: Option<Waiter>) {
    ThrottlesOk(t) && Carried(s, t, but)
  }

  lemma CarriedTwice(s: State, t: State, u: State, but: Option<Waiter>)
    requires Carried(s, t, None) && Carried(t, u, but)
    ensures Carried(s, u, but)
  {
    hide HeldBy;
  }

  /** Nobody came to wait for room, and senders are still known. */
  ghost predicate NoneCame(s: State, t: State) {
    && s.past.throttled <= t.past.throttled
    && forall p :: Live(t, p) && At(t, p).waiting.OnThrottle? ==>
         Live(s, p) && p in s.procs && At(t, p).waiting == At(s, p).waiting && At(t, p).resumes == At(s, p).resumes
  }

  lemma AloneBefore(s: State, t: State, p: Pid, a: Address)
    requires RecordedOk(s.procs, s.past) && NoneCame(s, t) && AloneAt(t, p, a)
    ensures AloneAt(s, p, a)
  {
    var w := At(s, p).waiting;
    assert LetterOf(w) == Some(w.letter);
    assert (p, a) in s.past.throttled;
    assert p in Senders(s.past, a);
    assert Senders(s.past, a) <= Senders(t.past, a);
  }

  lemma AloneStays(s: State, t: State, but: Option<Waiter>)
    requires ThrottlesOk(s) && NoneCame(s, t) && Carried(s, t, but)
    requires forall p :: Live(t, p) && At(t, p).waiting.OnThrottle? ==> Some(Me(t, p)) != but
    ensures AloneOk(t) && PlacedOk(t)
  {
    hide GuardsOk, RecordedOk, AloneAt, Known, OnlyFor, Carried, Live;
    forall p, a | AloneAt(t, p, a) ensures Known(t, p, a) {
      assert Live(t, p) && At(t, p).waiting.OnThrottle? by { AloneWaits(t, p, a); }
      AloneBefore(s, t, p, a);
      assert Known(s, p, a);
      KnownStays(s, t, p, a, but);
    }
    forall p | Live(t, p) && At(t, p).waiting.OnThrottle?
      ensures OnlyFor(t, Me(t, p), At(t, p).waiting.letter.to)
    {
      assert OnlyFor(s, Me(s, p), At(s, p).waiting.letter.to);
      OnlyStays(s, t, Me(s, p), At(s, p).waiting.letter.to, but);
    }
  }

  lemma AloneWaits(s: State, p: Pid, a: Address)
    requires AloneAt(s, p, a)
    ensures Live(s, p) && At(s, p).waiting.OnThrottle?
  {
  }

  lemma KnownStays(s: State, t: State, p: Pid, a: Address, but: Option<Waiter>)
    requires Carried(s, t, but) && Known(s, p, a) && Me(t, p) == Me(s, p) && Some(Me(s, p)) != but
    ensures Known(t, p, a)
  {
    hide HeldBy, Me, HeldSomewhere;
  }

  lemma OnlyStays(s: State, t: State, w: Waiter, a: Address, but: Option<Waiter>)
    requires Carried(s, t, but) && OnlyFor(s, w, a) && Some(w) != but
    ensures OnlyFor(t, w, a)
    ensures w !in s.posted && w !in HeldBy(s, a) ==> w !in t.posted && w !in HeldBy(t, a)
  {
    hide HeldBy;
  }

  /** A box is replaced; what it held is still held, or posted. */
  lemma PutGuards(s: State, a: Address, b: Box)
    requires GuardsOk(s.procs) && Guarded(b)
    ensures GuardsOk(PutBox(s, a, b).procs)
    ensures forall c :: c != a ==> HeldBy(PutBox(s, a, b), c) == HeldBy(s, c)
    ensures a.slot < |At(s, a.pid).boxes| ==> HeldBy(PutBox(s, a, b), a) == Held(b.promise.exec)
    ensures a.slot >= |At(s, a.pid).boxes| ==> PutBox(s, a, b) == s
  {
    PutContents(s, a, b);
    hide SameLinks, SameProcesses, BoxAt;
  }

  lemma GuardedAt(s: State, a: Address)
    requires GuardsOk(s.procs)
    ensures Guarded(BoxAt(s, a))
  {
  }

  lemma NoBox(s: State, a: Address)
    requires a.slot >= |At(s, a.pid).boxes|
    ensures BoxAt(s, a) == EMPTY_BOX && HeldBy(s, a) == []
  {
  }

  // ---------------------------------------------------------------- steps

  /** Nothing in boxes and waits changes but the wait of `p`, which does not wait for room;
      only a continuation of `p` may come. */
  lemma WaitThrottles(s: State, p: Pid, n: nat, w: Wait, t: State, but: Option<Waiter>)
    requires ThrottlesOk(s) && p in s.procs && !w.OnThrottle? && (forall q :: Live(s, q) ==> q in s.procs)
    requires t.procs == s.procs[p := s.procs[p].(resumes := n, waiting := w)] && t.table == s.table
    requires t.posted == s.posted && (but.Some? ==> but.value.pid == p)
    requires forall x :: x in t.outside ==> x in s.outside || Some(x) == but
    requires s.past.throttled <= t.past.throttled
    requires LetterOf(w).Some? ==> (p, LetterOf(w).value.to) in t.past.throttled
    ensures Keeps(s, t, but)
  {
    LiveByTable(s, t);
    assert forall a: Address :: HeldBy(t, a) == HeldBy(s, a) by { hide Live, GuardsOk, RecordedOk; }
    assert GuardsOk(t.procs) && RecordedOk(t.procs, t.past) by { hide Live, LetterOf, HeldBy; }
    assert NoneCame(s, t) by { hide Live, LetterOf, HeldBy; }
    assert Carried(s, t, but) by { hide Live, LetterOf, HeldBy, HeldSomewhere; }
    assert At(t, p).waiting == w;
    hide GuardsOk, RecordedOk, NoneCame, HeldBy, Live, Carried;
    AloneStays(s, t, but);
  }

  /** Boxes and waits stay, and nobody new is live. */
  lemma SameThrottles(s: State, t: State)
    requires ThrottlesOk(s) && (forall p :: p in s.procs <==> p in t.procs)
    requires forall p :: p in s.procs ==>
      && t.procs[p].boxes == s.procs[p].boxes && t.procs[p].waiting == s.procs[p].waiting
      && t.procs[p].resumes == s.procs[p].resumes
    requires t.past.throttled == s.past.throttled && Moved(s, t)
    requires forall p :: Live(t, p) ==> Live(s, p) && p in s.procs
    ensures Keeps(s, t, None)
  {
    assert forall a: Address :: HeldBy(t, a) == HeldBy(s, a);
    assert GuardsOk(t.procs) && RecordedOk(t.procs, t.past) by { hide LetterOf, Live; }
    assert NoneCame(s, t) by { hide Live; }
    assert Carried(s, t, None) by { hide Live, LetterOf, HeldBy, HeldSomewhere; }
    hide GuardsOk, RecordedOk, NoneCame, Live, HeldBy, Carried;
    AloneStays(s, t, None);
  }

  /** Continuations move only from outside the context to the io service. */
  ghost predicate Moved(s: State, t: State) {
    && (forall w :: w in s.posted ==> w in t.posted)
    && (forall w :: w in t.posted ==> w in s.posted || w in s.outside)
    && (forall w :: w in t.outside ==> w in s.outside)
  }

  lemma BoxCarries(s: State, a: Address, b: Box, t: State)
    requires GuardsOk(s.procs) && Guarded(b) && t.procs == PutBox(s, a, b).procs && t.outside == s.outside
    requires forall w :: w in s.posted ==> w in t.posted
    requires forall w :: w in t.posted ==> w in s.posted || w in HeldBy(s, a)
    requires forall w :: w in HeldBy(s, a) ==> w in Held(b.promise.exec) || w in t.posted
    requires a.slot < |At(s, a.pid).boxes| ==> forall w :: w in Held(b.promise.exec) ==> w in HeldBy(s, a)
    ensures Carried(s, t, None)
  {
    PutGuards(s, a, b);
    SomewhereIs(s, a);
    if a.slot >= |At(s, a.pid).boxes| {
      NoBox(s, a);
    }
    assert forall c: Address :: HeldBy(t, c) == HeldBy(PutBox(s, a, b), c);
    hide GuardsOk, HeldBy, Guarded, PutBox, SameLinks, SameProcesses, HeldSomewhere;
  }

  /** The box at `a` becomes `b`, which holds what the box held, or that is posted. */
  lemma BoxThrottles(s: State, a: Address, b: Box, t: State)
    requires ThrottlesOk(s) && Guarded(b) && (forall p :: Live(s, p) ==> p in s.procs)
    requires t.procs == PutBox(s, a, b).procs && t.table == s.table && t.past.throttled == s.past.throttled
    requires t.outside == s.outside && forall w :: w in s.posted ==> w in t.posted
    requires forall w :: w in t.posted ==> w in s.posted || w in HeldBy(s, a)
    requires forall w :: w in HeldBy(s, a) ==> w in Held(b.promise.exec) || w in t.posted
    requires a.slot < |At(s, a.pid).boxes| ==> forall w :: w in Held(b.promise.exec) ==> w in HeldBy(s, a)
    ensures Keeps(s, t, None)
  {
    LiveByTable(s, t);
    PutGuards(s, a, b);
    BoxCarries(s, a, b, t);
    assert RecordedOk(t.procs, t.past) && NoneCame(s, t) by {
      hide Guarded, Live, HeldBy, SameLinks, SameProcesses;
    }
    hide GuardsOk, RecordedOk, NoneCame, Live, HeldBy, PutBox, Carried, Guarded;
    AloneStays(s, t, None);
  }

  lemma NoChange(s: State)
    requires ThrottlesOk(s)
    ensures Keeps(s, s, None)
  {
    hide HeldBy, HeldSomewhere, ThrottlesOk;
  }

  lemma TakeThrottles(s: State, p: Pid, slot: nat)
    requires ThrottlesOk(s) && forall q :: Live(s, q) ==> q in s.procs
    ensures Keeps(s, TakeStep(s, p, slot), None)
  {
    var a := Address(p, slot);
    if BoxAt(s, a).contents != [] {
      var b := BoxAt(s, a);
      var r := Pop(b);
      GuardedAt(s, a);
      GuardKept(b, r.m, Me(s, p));
      assert forall w :: w in HeldBy(s, a) <==> w in r.posted + Held(r.box.promise.exec);
      hide Guarded, ThrottlesOk, PutBox, SameLinks, Live;
      BoxThrottles(s, a, r.box, TakeStep(s, p, slot));
    } else {
      NoChange(s);
    }
  }

  lemma DeliverThrottles(s: State)
    requires ThrottlesOk(s) && s.queue != [] && s.queue[0].Mail? && forall q :: Live(s, q) ==> q in s.procs
    ensures Keeps(s, DeliverStep(s), None)
  {
    var l := s.queue[0].letter;
    var b := BoxAt(s, l.to);
    GuardedAt(s, l.to);
    GuardKept(b, l.m, Me(s, l.to.pid));
    var u := PopItem(s);
    assert u.procs == s.procs && HeldBy(u, l.to) == HeldBy(s, l.to);
    hide Guarded, PutBox, SameLinks, Live, GuardsOk, RecordedOk, SameProcesses;
    SameThrottles(s, u) by { LiveByTable(s, u); }
    LiveByTable(s, u);
    hide ThrottlesOk, HeldBy, PopItem, Carried;
    BoxThrottles(u, l.to, Push(b, l.m), DeliverStep(s));
    CarriedTwice(s, u, DeliverStep(s), None);
  }

  lemma BeginThrottles(s: State, p: Pid)
    requires ThrottlesOk(s) && p in s.procs && forall q :: Live(s, q) ==> q in s.procs
    ensures Keeps(s, BeginStep(s, p), None)
  {
    var w := s.procs[p].waiting;
    var t := if w.OnThrottle? then
               var a, b := w.letter.to, BoxAt(s, w.letter.to);
               PutBox(s, a, b.(promise := Processed(b.promise)))
             else s;
    assert PendingOf(w).Some? ==> (p, PendingOf(w).value.to) in s.past.throttled by {
      assert LetterOf(w).Some? || PendingOf(w).None?;
      hide Live, GuardsOk, AloneOk, PlacedOk;
    }
    assert LetterOf(Running(PendingOf(w))) == PendingOf(w);
    hide Live, GuardsOk, RecordedOk, AloneOk, PlacedOk, LetterOf, SameLinks, SameProcesses, Carried;
    if w.OnThrottle? {
      ProcessThrottles(s, w.letter.to);
    } else {
      NoChange(s);
    }
    LiveByTable(s, t);
    WaitThrottles(t, p, t.procs[p].resumes + 1, Running(PendingOf(w)), BeginStep(s, p), None);
    CarriedTwice(s, t, BeginStep(s, p), None);
  }

  lemma ProcessThrottles(s: State, a: Address)
    requires ThrottlesOk(s) && forall q :: Live(s, q) ==> q in s.procs
    ensures Keeps(s, PutBox(s, a, BoxAt(s, a).(promise := Processed(BoxAt(s, a).promise))), None)
  {
    var b := BoxAt(s, a);
    GuardedAt(s, a);
    assert Guarded(b.(promise := Processed(b.promise))) && Processed(b.promise).exec == b.promise.exec;
    assert forall w :: w in HeldBy(s, a) ==> w in Held(b.promise.exec);
    hide Guarded, PutBox, SameLinks, Live, ThrottlesOk, SameProcesses, BoxAt;
    BoxThrottles(s, a, b.(promise := Processed(b.promise)), PutBox(s, a, b.(promise := Processed(b.promise))));
  }

  lemma KillThrottles(s: State, p: Pid, q: Pid)
    requires ThrottlesOk(s) && p in s.procs && forall r :: Live(s, r) ==> r in s.procs
    ensures Keeps(s, AddKill(s, p, q), None)
  {
    hide ThrottlesOk, Live, SameProcesses;
    LiveByTable(s, AddKill(s, p, q));
    SameThrottles(s, AddKill(s, p, q));
  }

  lemma SpawnAloneThrottles(s: State, slots: nat, notify: seq<Address>)
    requires ThrottlesOk(s) && TableOk(s)
    ensures Keeps(s, SpawnAlone(s, slots, notify), None)
  {
    var p, t := NextPid(s), SpawnAlone(s, slots, notify);
    TableFacts(s);
    SpawnAloneChanges(s, slots, notify);
    SpawnedIsOk(s, p, t);
    assert t.procs == s.procs[p := Proc(0, NotStarted, [], notify, seq(slots, _ => EMPTY_BOX))] by {
      hide NextPid, SameLinks;
    }
    assert t.past.throttled == s.past.throttled && t.posted == s.posted && t.outside == s.outside by {
      hide NextPid, SameLinks;
    }
    hide TableOk, SpawnAlone, NextPid, Live, SameLinks, Spawned, ThrottlesOk;
    NewThrottles(s, t, p, slots, notify);
  }

  lemma NewThrottles(s: State, t: State, p: Pid, slots: nat, notify: seq<Address>)
    requires ThrottlesOk(s) && p !in s.procs
    requires t.procs == s.procs[p := Proc(0, NotStarted, [], notify, seq(slots, _ => EMPTY_BOX))]
    requires t.past.throttled == s.past.throttled && t.posted == s.posted && t.outside == s.outside
    requires forall q :: Live(t, q) ==> q == p || (Live(s, q) && q in s.procs)
    ensures Keeps(s, t, None)
  {
    hide Live;
    NoLetter();
    assert GuardsOk(t.procs) && RecordedOk(t.procs, t.past) by { hide LetterOf, HeldBy; }
    assert forall a: Address :: a.pid != p ==> HeldBy(t, a) == HeldBy(s, a);
    assert forall a: Address :: a.pid == p ==> HeldBy(s, a) == [] && HeldBy(t, a) == [];
    assert NoneCame(s, t) by { hide HeldBy; }
    assert Carried(s, t, None) by { hide HeldBy, HeldSomewhere, LetterOf; }
    hide GuardsOk, RecordedOk, HeldBy, NoneCame, Carried;
    AloneStays(s, t, None);
  }

  lemma NoLetter()
    ensures LetterOf(NotStarted) == None
  {
  }

  lemma SpawnThrottles(s: State, slots: nat, parent: Option<Pid>, both: bool, notify: seq<Address>)
    requires ThrottlesOk(s) && TableOk(s) && (parent.Some? ==> parent.value in s.procs)
    ensures Keeps(s, SpawnStep(s, slots, parent, both, notify), None)
  {
    var p, t := NextPid(s), SpawnAlone(s, slots, notify);
    TableFacts(s);
    SpawnAloneThrottles(s, slots, notify);
    SpawnAloneChanges(s, slots, notify);
    SpawnedIsOk(s, p, t);
    TableFacts(t);
    assert forall q :: q in t.procs <==> q in t.procs.Keys;
    hide TableOk, ThrottlesOk, SpawnAlone, AddKill, NextPid, Live, SameLinks, Carried;
    if parent.Some? {
      var r := parent.value;
      if both {
        KillThrottles(t, p, r);
        SameSize(t, AddKill(t, p, r));
        SameLive(t, AddKill(t, p, r));
        KillThrottles(AddKill(t, p, r), r, p);
        CarriedTwice(s, t, AddKill(t, p, r), None);
        CarriedTwice(s, AddKill(t, p, r), AddKill(AddKill(t, p, r), r, p), None);
      } else {
        KillThrottles(t, r, p);
        CarriedTwice(s, t, AddKill(t, r, p), None);
      }
    }
  }

  lemma DoomThrottles(s: State, q: Pid)
    requires ThrottlesOk(s) && forall r :: Live(s, r) ==> r in s.procs
    ensures Keeps(s, DoomStep(s, q), None) && Keeps(s, FinishStep(s, q), None)
  {
    DoomGone(s, q);
    LiveByTable(DoomStep(s, q), FinishStep(s, q));
    hide ThrottlesOk, Live, DoomStep, SameLinks;
    SameThrottles(s, DoomStep(s, q));
    SameThrottles(s, FinishStep(s, q));
  }

  /** Only the queue, the history, or what is outside changes. */
  lemma PlainThrottles(s: State, t: State)
    requires ThrottlesOk(s) && (forall r :: Live(s, r) ==> r in s.procs)
    requires t.procs == s.procs && t.table == s.table && Moved(s, t) && t.past.throttled == s.past.throttled
    ensures Keeps(s, t, None)
  {
    hide ThrottlesOk, Live;
    LiveByTable(s, t);
    SameThrottles(s, t);
  }

  lemma SendOnThrottles(s: State, p: Pid)
    requires ThrottlesOk(s) && p in s.procs && forall r :: Live(s, r) ==> r in s.procs
    ensures Keeps(s, SendOnStep(s, p), None)
  {
    hide ThrottlesOk, Live, SameLinks, SameProcesses;
    var w := s.procs[p].waiting;
    if w.Running? && w.pending.Some? {
      NoneRunning();
      WaitThrottles(s, p, s.procs[p].resumes, Running(None), SendOnStep(s, p), None);
    } else {
      NoChange(s);
    }
  }

  lemma NoneRunning()
    ensures LetterOf(Running(None)) == None
  {
  }

  lemma PassThrottles(s: State, p: Pid, l: Letter)
    requires ThrottlesOk(s) && p in s.procs && forall r :: Live(s, r) ==> r in s.procs
    ensures Keeps(s, PassStep(s, p, l), None)
  {
    assert LetterOf(Running(Some(l))) == Some(l);
    hide ThrottlesOk, Live, SameLinks, SameProcesses, LetterOf;
    WaitThrottles(s, p, s.procs[p].resumes, Running(Some(l)), PassStep(s, p, l), None);
  }

  /** A sender comes to wait for room: what the context knows of it before its
      continuation is registered. */
  lemma ComesNear(s: State, p: Pid, l: Letter)
    requires ThrottlesOk(s) && p in s.procs && s.procs[p].waiting == Running(Some(l)) && Full(s, l.to)
    ensures var u := PutWait(s, p, OnThrottle(l)).(running := None);
      && GuardsOk(u.procs) && RecordedOk(u.procs, u.past) && p in Senders(s.past, l.to)
      && (forall c :: HeldBy(u, c) == HeldBy(s, c))
      && ShouldThrottle(BoxAt(u, l.to)) && l.to.slot < |At(u, l.to.pid).boxes|
  {
    var w, u := OnThrottle(l), PutWait(s, p, OnThrottle(l)).(running := None);
    WaitContents(s, p, w);
    SameAt(s, PutWait(s, p, w), l.to);
    assert LetterOf(s.procs[p].waiting) == Some(l) && LetterOf(w) == Some(l);
    assert (p, l.to) in s.past.throttled;
    hide Live, SameLinks, SameProcesses, LetterOf, SameContents, AloneOk, PlacedOk;
  }

  /** The continuation of `p` is held by the mailbox `a` in place of what it held, or it is
      posted at once. */
  ghost predicate Replaces(s: State, t: State, p: Pid, a: Address) {
    && t.outside == s.outside && (forall c: Address :: c != a ==> HeldBy(t, c) == HeldBy(s, c))
    && (|| (t.posted == s.posted && HeldBy(t, a) == [Me(s, p)])
        || (t.posted == s.posted + [Me(s, p)] && HeldBy(t, a) == [] && HeldBy(s, a) == []))
  }

  lemma ComesToWait(s: State, p: Pid, l: Letter)
    requires ThrottlesOk(s) && p in s.procs && s.procs[p].waiting == Running(Some(l)) && Full(s, l.to)
    requires OnlyFor(s, Me(s, p), l.to)
    ensures var t := SuspendStep(s, p, OnThrottle(l)); ThrottlesOk(t) && Replaces(s, t, p, l.to) && Known(t, p, l.to)
  {
    var a, t := l.to, SuspendStep(s, p, OnThrottle(l));
    var u := PutWait(s, p, OnThrottle(l)).(running := None);
    var b := BoxAt(u, a);
    var r := Continued(b.promise, Me(s, p));
    ComesNear(s, p, l);
    GuardedAt(u, a);
    assert Guarded(b.(promise := r.signal)) && HeldBy(u, a) == Held(b.promise.exec);
    assert t == PutBox(u, a, b.(promise := r.signal)).(posted := s.posted + r.posted);
    hide Guarded, GuardsOk, RecordedOk, Live, Full, BoxAt, SuspendStep, SameLinks, SameProcesses, OnlyFor, AloneOk,
         PlacedOk;
    PutGuards(u, a, b.(promise := r.signal));
    Arrived(s, u, p, a, b.(promise := r.signal), r.posted, t);
  }

  lemma Arrived(s: State, u: State, p: Pid, a: Address, b: Box, posted: seq<Waiter>, t: State)
    requires AloneOk(s) && PlacedOk(s) && OnlyFor(s, Me(s, p), a)
    requires p in s.procs && p in Senders(s.past, a) && a.slot < |At(u, a.pid).boxes|
    requires At(u, p).waiting.OnThrottle? && At(u, p).waiting.letter.to == a
    requires u.procs == s.procs[p := s.procs[p].(waiting := At(u, p).waiting)]
    requires u == s.(procs := u.procs, running := None)
    requires GuardsOk(PutBox(u, a, b).procs) && RecordedOk(u.procs, u.past)
    requires t == PutBox(u, a, b).(posted := s.posted + posted)
    requires forall c: Address :: HeldBy(u, c) == HeldBy(s, c)
    requires forall c: Address :: c != a ==> HeldBy(PutBox(u, a, b), c) == HeldBy(u, c)
    requires HeldBy(PutBox(u, a, b), a) == Held(b.promise.exec)
    requires if b.promise.exec.Some? then posted == [] && b.promise.exec.value == Me(s, p)
             else posted == [Me(s, p)] && HeldBy(s, a) == []
    ensures ThrottlesOk(t) && Replaces(s, t, p, a) && Known(t, p, a)
  {
    var v := PutBox(u, a, b);
    assert forall q :: At(t, q).waiting == At(u, q).waiting && At(t, q).resumes == At(u, q).resumes by {
      hide SameLinks, SameProcesses, HeldBy, OnlyFor;
    }
    assert forall q :: At(u, q).resumes == At(s, q).resumes && (q != p ==> At(u, q).waiting == At(s, q).waiting);
    assert forall c: Address :: HeldBy(t, c) == HeldBy(v, c);
    assert Known(t, p, a) by { hide HeldBy, PutBox; }
    assert v.procs.Keys == u.procs.Keys by { SameKeys(u, v); }
    assert t.past == s.past && t.table == s.table && t.posted == s.posted + posted && t.outside == s.outside by {
      hide PutBox;
    }
    assert forall q :: q in v.procs && q in u.procs ==> v.procs[q].waiting == u.procs[q].waiting by {
      forall q | q in v.procs && q in u.procs ensures v.procs[q].waiting == u.procs[q].waiting {
        assert At(t, q) == v.procs[q] && At(u, q) == u.procs[q];
      }
    }
    hide PutBox, HeldBy, GuardsOk, RecordedOk, Known, AloneOk, PlacedOk, OnlyFor, Senders, At;
    RecordedSame(u, t);
    assert t.posted == if b.promise.exec.Some? then s.posted else s.posted + [Me(s, p)];
    assert Replaces(s, t, p, a);
    hide Replaces;
    ComesAlone(s, t, p, a);
    ComesPlaced(s, t, p, a);
  }

  /** A new continuation is only where it belongs, and moves no other. */
  lemma ComesPlaced(s: State, t: State, p: Pid, a: Address)
    requires PlacedOk(s) && OnlyFor(s, Me(s, p), a) && Replaces(s, t, p, a) && t.table == s.table
    requires forall q :: At(t, q).resumes == At(s, q).resumes && (q != p ==> At(t, q).waiting == At(s, q).waiting)
    requires At(t, p).waiting.OnThrottle? && At(t, p).waiting.letter.to == a
    ensures PlacedOk(t)
  {
    LiveByTable(s, t);
    hide HeldBy, Live, At;
    forall q | Live(t, q) && At(t, q).waiting.OnThrottle?
      ensures OnlyFor(t, Me(t, q), At(t, q).waiting.letter.to)
    {
      assert Me(t, q) == Me(s, q);
      assert q != p ==> Me(t, q) !in HeldBy(t, a) && OnlyFor(s, Me(s, q), At(s, q).waiting.letter.to);
    }
  }

  lemma RecordedSame(s: State, t: State)
    requires RecordedOk(s.procs, s.past) && t.past == s.past && t.procs.Keys == s.procs.Keys
    requires forall p :: p in t.procs && p in s.procs ==> t.procs[p].waiting == s.procs[p].waiting
    ensures RecordedOk(t.procs, t.past)
  {
    assert forall p :: p in t.procs <==> p in t.procs.Keys;
    assert forall p :: p in s.procs <==> p in s.procs.Keys;
  }

  /** If the sender is the only one, its continuation is known; if not, none of the others
      is alone. */
  lemma ComesAlone(s: State, t: State, p: Pid, a: Address)
    requires AloneOk(s) && p in Senders(s.past, a) && t.past == s.past && t.table == s.table && s.posted <= t.posted
    requires forall c :: c != a ==> HeldBy(t, c) == HeldBy(s, c)
    requires forall q :: q != p ==> At(t, q).waiting == At(s, q).waiting && At(t, q).resumes == At(s, q).resumes
    requires At(t, p).waiting.OnThrottle? && At(t, p).waiting.letter.to == a && Known(t, p, a)
    ensures AloneOk(t)
  {
    LiveByTable(s, t);
    assert forall w :: w in s.posted ==> w in t.posted;
    hide HeldBy, Live, Senders;
    forall q, c | AloneAt(t, q, c) ensures Known(t, q, c) {
      if q != p {
        assert c != a;
        assert AloneAt(s, q, c);
        assert Known(s, q, c);
      }
    }
  }

  /** A stale continuation is taken off the io service. */
  lemma StaleThrottles(s: State, k: nat)
    requires ThrottlesOk(s) && k < |s.posted| && !Current(s, s.posted[k].pid, s.posted[k].stamp)
    requires forall r :: Live(s, r) ==> r in s.procs
    ensures Keeps(s, s.(posted := RemoveAt(s.posted, k)), Some(s.posted[k]))
  {
    var t := s.(posted := RemoveAt(s.posted, k));
    assert forall w :: w in s.posted && w != s.posted[k] ==> w in t.posted by {
      assert s.posted == s.posted[..k] + [s.posted[k]] + s.posted[k + 1..];
    }
    assert forall w :: w in t.posted ==> w in s.posted;
    hide RemoveAt;
    assert forall a: Address :: HeldBy(t, a) == HeldBy(s, a);
    assert forall p :: Live(t, p) == Live(s, p) && At(t, p) == At(s, p) && Me(t, p) == Me(s, p);
    assert forall p :: Live(s, p) ==> Me(s, p) != s.posted[k];
    hide HeldBy, Live, GuardsOk, RecordedOk, Me, At;
    assert NoneCame(s, t);
    assert Carried(s, t, Some(s.posted[k])) by { hide HeldSomewhere; }
    hide Carried, NoneCame;
    AloneStays(s, t, Some(s.posted[k]));
  }

  lemma ContinuationThrottles(s: State, k: nat)
    requires ThrottlesOk(s) && k < |s.posted| && forall r :: Live(s, r) ==> r in s.procs
    ensures Keeps(s, ContinuationStep(s, k), Some(s.posted[k]))
  {
    var w := s.posted[k];
    hide ThrottlesOk, RemoveAt, SameLinks, SameProcesses, Live, Carried;
    if Current(s, w.pid, w.stamp) {
      var t := BeginStep(s, w.pid);
      BeginThrottles(s, w.pid);
      BeginPosted(s, w.pid, k);
      hide BeginStep;
      StaleThrottles(t, k);
      CarriedTwice(s, t, t.(posted := RemoveAt(t.posted, k)), Some(w));
    } else {
      hide BeginStep;
      StaleThrottles(s, k);
    }
  }

  /** A resume does not look at the io service, and outdates the continuation it was by. */
  lemma BeginPosted(s: State, p: Pid, k: nat)
    requires k < |s.posted| && s.posted[k] == Me(s, p) && p in s.procs && forall r :: Live(s, r) ==> r in s.procs
    ensures var t := BeginStep(s, p);
      && BeginStep(s.(posted := RemoveAt(s.posted, k)), p) == t.(posted := RemoveAt(t.posted, k))
      && t.posted == s.posted && !Current(t, p, s.posted[k].stamp) && forall r :: Live(t, r) ==> r in t.procs
  {
    hide RemoveAt, SameLinks;
    assert At(BeginStep(s, p), p).resumes == At(s, p).resumes + 1 by { hide SameProcesses, Live; }
    SameSize(s, BeginStep(s, p));
    SameLive(s, BeginStep(s, p));
  }

  lemma {:induction false} WakesAll(boxes: seq<Box>, i: nat)
    requires i < |boxes| && Settled(boxes[i].promise)
    ensures forall w :: w in Held(boxes[i].promise.exec) ==> w in Wakes(boxes)
    decreases |boxes|
  {
    if i > 0 {
      WakesAll(boxes[1..], i - 1);
    }
  }

  lemma {:induction false} WakesOnly(boxes: seq<Box>, w: Waiter) returns (i: nat)
    requires w in Wakes(boxes)
    ensures i < |boxes| && w in Held(boxes[i].promise.exec)
    decreases |boxes|
  {
    if w in Fired(boxes[0].promise).posted {
      i := 0;
    } else {
      i := WakesOnly(boxes[1..], w);
      i := i + 1;
    }
  }

  lemma BuryThrottles(s: State)
    requires ThrottlesOk(s) && s.doomed != [] && !Live(s, s.doomed[0]) && forall r :: Live(s, r) ==> r in s.procs
    ensures Keeps(s, BuryStep(s), None)
  {
    var f, t := s.doomed[0], BuryStep(s);
    assert t.procs == s.procs - {f} && t.posted == s.posted + Wakes(At(s, f).boxes) && t.outside == s.outside;
    assert t.past.throttled == s.past.throttled && t.table == s.table;
    LiveByTable(s, t);
    hide BuryStep, Notices, Mails;
    BuryCarries(s, t, f);
    hide Wakes, HeldBy, Live, LetterOf, SameLinks, Carried;
    assert GuardsOk(t.procs) && RecordedOk(t.procs, t.past);
    assert NoneCame(s, t);
    hide GuardsOk, RecordedOk, NoneCame;
    AloneStays(s, t, None);
  }

  lemma BuryCarries(s: State, t: State, f: Pid)
    requires GuardsOk(s.procs) && t.procs == s.procs - {f} && t.outside == s.outside
    requires t.posted == s.posted + Wakes(At(s, f).boxes)
    ensures Carried(s, t, None)
  {
    forall a: Address, w | w in HeldBy(s, a) ensures w in HeldBy(t, a) || w in t.posted {
      if a.pid == f && a.slot < |At(s, f).boxes| {
        GuardedAt(s, a);
        WakesAll(At(s, f).boxes, a.slot);
      } else {
        assert BoxAt(t, a) == BoxAt(s, a);
      }
    }
    forall w | w in Wakes(At(s, f).boxes) ensures HeldSomewhere(s, w) {
      var i := WakesOnly(At(s, f).boxes, w);
      assert w in HeldBy(s, Address(f, i));
    }
    assert forall a: Address, w :: w in HeldBy(t, a) ==> w in HeldBy(s, a);
    hide HeldBy, HeldSomewhere, GuardsOk, Wakes;
  }

  lemma SuspendThrottles(s: State, p: Pid, w: Wait)
    requires ThrottlesOk(s) && p in s.procs && MayWait(s, p, w) && !w.OnThrottle?
    requires forall r :: Live(s, r) ==> r in s.procs
    ensures Keeps(s, SuspendStep(s, p, w), Some(Me(s, p)))
  {
    var t := SuspendStep(s, p, w);
    assert LetterOf(w).Some? ==> w.Yielding? && w.pending == LetterOf(w);
    assert t.procs == s.procs[p := s.procs[p].(resumes := s.procs[p].resumes, waiting := w)];
    assert t.posted == s.posted && t.table == s.table;
    assert forall x :: x in t.outside ==> x in s.outside || x == Me(s, p);
    assert s.past.throttled <= t.past.throttled;
    assert LetterOf(w).Some? ==> (p, LetterOf(w).value.to) in t.past.throttled;
    hide ThrottlesOk, Live, MayWait, SuspendStep, LetterOf;
    WaitThrottles(s, p, s.procs[p].resumes, w, t, Some(Me(s, p)));
  }

  /** No continuation of a process whose body runs is about. */
  lemma NoneOfRunning(s: State, p: Pid, a: Address)
    requires StampsOk(s) && p in s.procs && At(s, p).waiting.Running?
    ensures OnlyFor(s, Me(s, p), a) && Me(s, p) !in HeldBy(s, a)
  {
    ClocksAt(s, p);
    hide QueueOk, OneRuns, Clocks;
    forall c: Address ensures Me(s, p) !in HeldBy(s, c) {
      HeldAt(s, c, Clocks(s.procs), s.past.born.Keys);
    }
  }

  /** The continuation that a step takes from the io service, or makes. */
  function Touched(s: State, m: Step): Option<Waiter> {
    match m
    case Continuation(k) => if k < |s.posted| then Some(s.posted[k]) else None
    case Suspend(p, _) => Some(Me(s, p))
    case _ => None
  }

  predicate ForRoom(m: Step) {
    m.Suspend? && m.w.OnThrottle?
  }

  lemma LoopThrottles(s: State, m: Step)
    requires ThrottlesOk(s) && TableOk(s) && Enabled(s, m) && !OfBody(m)
    ensures Keeps(s, Next(s, m), Touched(s, m))
  {
    hide ThrottlesOk, TableOk, BeginStep, DoomStep, FinishStep, BuryStep, ContinuationStep, Live, WaitingFor,
         DeliverStep, PopItem, SameLinks, Carried;
    TableFacts(s);
    NotDestroyed(s);
    match m
    case Doom(q) => DoomThrottles(s, q);
    case Finish(p) => DoomThrottles(s, p);
    case Bury => BuryThrottles(s);
    case Timer(q) => BeginThrottles(s, q);
    case Fire(k) => FireThrottles(s, k);
    case Continuation(k) => ContinuationThrottles(s, k);
    case _ => ItemThrottles(s, m);
  }

  lemma FireThrottles(s: State, k: nat)
    requires ThrottlesOk(s) && k < |s.outside| && forall r :: Live(s, r) ==> r in s.procs
    ensures Keeps(s, FireStep(s, k), None)
  {
    hide ThrottlesOk, Live, SameLinks, SameProcesses, Carried;
    PlainThrottles(s, FireStep(s, k));
  }

  lemma DeliverWakeThrottles(s: State)
    requires ThrottlesOk(s) && s.queue != [] && s.queue[0].Mail? && Live(s, s.queue[0].letter.to.pid)
    requires forall q :: Live(s, q) ==> q in s.procs
    ensures Keeps(s, BeginStep(DeliverStep(s), s.queue[0].letter.to.pid), None)
  {
    var p, t := s.queue[0].letter.to.pid, DeliverStep(s);
    hide ThrottlesOk, BeginStep, Live, DeliverStep, SameLinks, Carried;
    DeliverThrottles(s);
    SameSize(s, t);
    SameLive(s, t);
    BeginThrottles(t, p);
    CarriedTwice(s, t, BeginStep(t, p), None);
  }

  lemma PopThrottles(s: State)
    requires ThrottlesOk(s) && forall r :: Live(s, r) ==> r in s.procs
    ensures Keeps(s, PopItem(s), None)
  {
    hide ThrottlesOk, Live, SameLinks, SameProcesses, Carried;
    PlainThrottles(s, PopItem(s));
  }

  lemma WakeItemThrottles(s: State, p: Pid)
    requires ThrottlesOk(s) && p in s.procs && forall q :: Live(s, q) ==> q in s.procs
    ensures Keeps(s, BeginStep(PopItem(s), p), None)
  {
    hide ThrottlesOk, BeginStep, Live, PopItem, SameLinks, Carried;
    PopThrottles(s);
    SameLive(s, PopItem(s));
    BeginThrottles(PopItem(s), p);
    CarriedTwice(s, PopItem(s), BeginStep(PopItem(s), p), None);
  }

  lemma ItemThrottles(s: State, m: Step)
    requires ThrottlesOk(s) && TableOk(s) && Enabled(s, m) && (m.Drop? || m.Deliver? || m.DeliverWake? || m.WakeItem?)
    ensures Keeps(s, Next(s, m), None)
  {
    hide ThrottlesOk, TableOk, BeginStep, Live, WaitingFor, DeliverStep, PopItem, SameLinks, Carried;
    TableFacts(s);
    match m
    case Drop => PopThrottles(s);
    case Deliver => DeliverThrottles(s);
    case DeliverWake => DeliverWakeThrottles(s);
    case WakeItem => WakeItemThrottles(s, s.queue[0].pid);
  }

  lemma LinkThrottles(s: State, p: Pid, q: Pid)
    requires ThrottlesOk(s) && TableOk(s) && p in s.procs && Live(s, q)
    ensures Keeps(s, LinkStep(s, p, q), None)
  {
    hide ThrottlesOk, TableOk, AddKill, Live, Carried;
    TableFacts(s);
    KillThrottles(s, p, q);
    SameSize(s, AddKill(s, p, q));
    SameLive(s, AddKill(s, p, q));
    KillThrottles(AddKill(s, p, q), q, p);
    CarriedTwice(s, AddKill(s, p, q), LinkStep(s, p, q), None);
  }

  lemma BodyThrottles(s: State, m: Step)
    requires ThrottlesOk(s) && TableOk(s) && Enabled(s, m) && OfBody(m) && !ForRoom(m)
    ensures Keeps(s, Next(s, m), Touched(s, m))
  {
    hide ThrottlesOk, TableOk, SpawnStep, LinkStep, TakeStep, SuspendStep, PassStep, SendPlainStep, Live, MayWait,
         SendOnStep, Addressable, BoxAt, Carried;
    TableFacts(s);
    match m
    case Spawn(slots, parent, both, notify) => SpawnThrottles(s, slots, parent, both, notify);
    case Link(p, q) => LinkThrottles(s, p, q);
    case SendPlain(l) => SendThrottles(s, l);
    case Pass(p, l) => PassThrottles(s, p, l);
    case SendOn(p) => SendOnThrottles(s, p);
    case Take(p, slot) => TakeThrottles(s, p, slot);
    case Suspend(p, w) => SuspendThrottles(s, p, w);
  }

  lemma SendThrottles(s: State, l: Letter)
    requires ThrottlesOk(s) && forall r :: Live(s, r) ==> r in s.procs
    ensures Keeps(s, SendPlainStep(s, l), None)
  {
    hide ThrottlesOk, Live, SameLinks, SameProcesses, Carried;
    PlainThrottles(s, SendPlainStep(s, l));
  }

  lemma RoomIs(s: State, m: Step)
    requires TableOk(s) && Enabled(s, m) && ForRoom(m)
    ensures m.p in s.procs && s.running == Some(m.p) && s.procs[m.p].waiting == Running(Some(m.w.letter))
    ensures At(s, m.p) == s.procs[m.p] && At(s, m.p).waiting.Running?
    ensures m.w == OnThrottle(m.w.letter) && Full(s, m.w.letter.to) && Next(s, m) == SuspendStep(s, m.p, m.w)
  {
    hide TableOk, Full, SuspendStep;
    TableFacts(s);
  }

  /** A sender comes to wait for room, and takes the place of whoever waited before. */
  lemma RoomThrottles(s: State, m: Step)
    requires ThrottlesOk(s) && StampsOk(s) && TableOk(s) && Enabled(s, m) && ForRoom(m)
    ensures var t := Next(s, m); ThrottlesOk(t) && Replaces(s, t, m.p, m.w.letter.to) && Known(t, m.p, m.w.letter.to)
  {
    TableFacts(s);
    RoomIs(s, m);
    hide *;
    NoneOfRunning(s, m.p, m.w.letter.to);
    ComesToWait(s, m.p, m.w.letter);
  }

  /** Every other step keeps the invariant, and every continuation but the one it takes or
      makes: none is lost, and none appears. */
  lemma CarriedOn(s: State, m: Step)
    requires ThrottlesOk(s) && TableOk(s) && Enabled(s, m) && !ForRoom(m)
    ensures Keeps(s, Next(s, m), Touched(s, m))
  {
    hide *;
    if OfBody(m) {
      BodyThrottles(s, m);
    } else {
      LoopThrottles(s, m);
    }
  }

  /** Waiting senders are kept by every step. */
  lemma ThrottlesKept(s: State, m: Step)
    requires ThrottlesOk(s) && StampsOk(s) && TableOk(s) && Enabled(s, m)
    ensures ThrottlesOk(Next(s, m))
  {
    hide ThrottlesOk, StampsOk, TableOk, Enabled, Next, Carried, Replaces, Known;
    if ForRoom(m) {
      RoomThrottles(s, m);
    } else {
      CarriedOn(s, m);
    }
  }

  // ---------------------------------------------------------------- when a wake-up is lost

  /** Another sender comes to wait for room in `a` while the continuation of `p` is not
      posted: the promise holds one, so it takes the place of that of `p`. */
  predicate Displaces(s: State, m: Step, p: Pid, a: Address) {
    ForRoom(m) && m.w.letter.to == a && Me(s, p) !in s.posted
  }

  /** Only a continuation of its own resumes a process that waits for room. */
  lemma WokenByOwn(s: State, m: Step, p: Pid, a: Address)
    requires StampsOk(s) && TableOk(s) && Enabled(s, m) && WaitsAt(s, p, a)
    ensures Woken(s, m) == Some(p) <==> m.Continuation? && m.k < |s.posted| && s.posted[m.k] == Me(s, p)
  {
    hide StampsOk, TableOk, Next, SameLinks, SameProcesses, MayWait, Full, Addressable, BoxAt, Live;
    TableFacts(s);
    if m.WakeItem? && s.queue[0].pid == p {
      WakeStamps(s);
    }
  }

  /** A sender that waits for room neither runs nor, but by its own continuation, is
      resumed: it goes on waiting. */
  lemma GoesOnWaiting(s: State, m: Step, p: Pid, a: Address)
    requires StampsOk(s) && TableOk(s) && Enabled(s, m) && WaitsAt(s, p, a)
    ensures var t := Next(s, m);
      if Woken(s, m) == Some(p) then At(t, p).resumes > At(s, p).resumes
      else At(t, p).waiting == At(s, p).waiting && Me(t, p) == Me(s, p) && Touched(s, m) != Some(Me(s, p))
    ensures s.running != Some(p)
  {
    hide StampsOk, TableOk, Next, Enabled;
    WokenByOwn(s, m, p, a);
    LiveRemains(s, m, p);
    CountsGrow(s, m, p);
    if s.running.Some? {
      RunnerRuns(s);
    }
    if m.Suspend? {
      BodyIs(s, m);
    }
  }

  lemma RunnerRuns(s: State)
    requires StampsOk(s) && s.running.Some?
    ensures s.running.value in s.procs && At(s, s.running.value).waiting.Running?
  {
    ClocksAt(s, s.running.value);
    hide QueueOk, WaitersOk, HeldOk, Clocks;
  }

  lemma ReplacedExactly(s: State, t: State, q: Pid, b: Address, p: Pid, a: Address)
    requires Replaces(s, t, q, b) && p != q && Me(t, p) == Me(s, p)
    ensures Known(s, p, a) ==> (Known(t, p, a) <==> b != a || Me(s, p) in s.posted)
    ensures !Known(s, p, a) ==> !Known(t, p, a)
  {
    hide HeldBy;
  }

  /** A sender waits for room, and its continuation is held or posted. Whatever the context
      does next, short of resuming it, that remains so if and only if it is not displaced. */
  lemma KnownExactly(s: State, m: Step, p: Pid, a: Address)
    requires ThrottlesOk(s) && StampsOk(s) && TableOk(s) && Enabled(s, m) && WaitsAt(s, p, a) && Known(s, p, a)
    requires At(Next(s, m), p).resumes == At(s, p).resumes
    ensures Known(Next(s, m), p, a) <==> !Displaces(s, m, p, a)
  {
    hide ThrottlesOk, StampsOk, TableOk, Enabled, Next, Known, Replaces, Carried, WaitsAt, Touched, Woken;
    GoesOnWaiting(s, m, p, a);
    if ForRoom(m) {
      RoomThrottles(s, m);
      RoomIs(s, m);
      ReplacedExactly(s, Next(s, m), m.p, m.w.letter.to, p, a);
    } else {
      CarriedOn(s, m);
      KnownStays(s, Next(s, m), p, a, Touched(s, m));
    }
  }

  /** Once it is lost, it stays lost: no step resumes that sender or finds its continuation. */
  lemma LostStays(s: State, m: Step, p: Pid, a: Address)
    requires ThrottlesOk(s) && StampsOk(s) && TableOk(s) && Enabled(s, m) && WaitsAt(s, p, a) && !Known(s, p, a)
    ensures !Known(Next(s, m), p, a) && At(Next(s, m), p).waiting == At(s, p).waiting
    ensures At(Next(s, m), p).resumes == At(s, p).resumes
  {
    hide StampsOk, TableOk, Enabled, Next, Replaces, Carried, Touched, Woken, GuardsOk, RecordedOk, AloneOk, HeldBy,
         OnlyFor, Live;
    GoesOnWaiting(s, m, p, a);
    WokenByOwn(s, m, p, a);
    assert OnlyFor(s, Me(s, p), a);
    hide ThrottlesOk;
    if ForRoom(m) {
      RoomThrottles(s, m);
      RoomIs(s, m);
      ReplacedExactly(s, Next(s, m), m.p, m.w.letter.to, p, a);
    } else {
      CarriedOn(s, m);
      OnlyStays(s, Next(s, m), Me(s, p), a, Touched(s, m));
    }
  }

  // ---------------------------------------------------------------- what it means

  /** A sender waits for room and is known: if the mailbox has room, or is destroyed, its
      wake-up is posted already; if not posted, the promise is unset and holds it. */
  lemma NoLostWakeup(s: State, p: Pid, a: Address)
    requires ThrottlesOk(s) && WaitsAt(s, p, a) && Known(s, p, a)
    ensures |BoxAt(s, a).contents| < THROTTLE ==> Me(s, p) in s.posted
    ensures Me(s, p) !in s.posted ==> !BoxAt(s, a).promise.isSet && BoxAt(s, a).promise.exec == Some(Me(s, p))
  {
    GuardedAt(s, a);
  }

  /** The only sender to a mailbox is always known. */
  lemma AloneIsKnown(s: State, p: Pid, a: Address)
    requires ThrottlesOk(s) && AloneAt(s, p, a)
    ensures WaitsAt(s, p, a) && Known(s, p, a)
  {
  }
}
