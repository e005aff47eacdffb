/** Throttled sending: how far a mailbox and the queue before it can fill up. */
module BackPressure {
  import opened Options
  import opened Mailboxes
  import opened Scheduler
  import opened PidTable
  import opened Stamps
  import opened Conservation

  // ---------------------------------------------------------------- who is sending to `a`

  predicate ToAddress(l: Option<Letter>, a: Address) {
    l.Some? && l.value.to == a
  }

  /** Past the test of the queue in a `sendThrottled` to `a`. */
  predicate Blocks(w: Wait, a: Address) {
    match w
    case Running(pending) => ToAddress(pending, a)
    case OnThrottle(l) => l.to == a
    case _ => false
  }

  /** In the yield of a `sendThrottled` to `a`. */
  predicate YieldsTo(w: Wait, a: Address) {
    w.Yielding? && ToAddress(w.pending, a)
  }

  function Blocked(clocks: map<Pid, Clock>, a: Address): set<Pid> {
    set p | p in clocks && Blocks(clocks[p].waiting, a)
  }

  function Yielders(clocks: map<Pid, Clock>, a: Address): set<Pid> {
    set p | p in clocks && YieldsTo(clocks[p].waiting, a)
  }

  /** Who ever began a `sendThrottled` to `a`. */
  function Senders(past: History, a: Address): set<Pid> {
    set x | x in past.throttled && x.1 == a :: x.0
  }

  /** The item that ends the yield of a `sendThrottled` to `a`. */
  predicate YieldItem(clocks: map<Pid, Clock>, it: Item, a: Address) {
    it.Resume? && it.pid in clocks && clocks[it.pid].resumes == it.stamp && YieldsTo(clocks[it.pid].waiting, a)
  }

  function Yields(queue: seq<Item>, clocks: map<Pid, Clock>, a: Address): nat {
    if queue == [] then 0
    else (if YieldItem(clocks, queue[0], a) then 1 else 0) + Yields(queue[1..], clocks, a)
  }

  // ---------------------------------------------------------------- the invariant for one address

  /** What is still ahead of the sender whose yield ends with item `i`. */
  predicate Ahead(queue: seq<Item>, clocks: map<Pid, Clock>, a: Address, i: nat, k: nat)
    requires i < |queue|
  {
    |Queued(queue[i + 1..], a)| + |Blocked(clocks, a)| + Yields(queue[..i], clocks, a) <= 8 + k
  }

  ghost predicate Pressure(queue: seq<Item>, clocks: map<Pid, Clock>, senders: set<Pid>, a: Address) {
    && Blocked(clocks, a) <= senders && Yielders(clocks, a) <= senders
    && |Queued(queue, a)| + |Blocked(clocks, a)| <= 10 + |senders|
    && forall i :: 0 <= i < |queue| && YieldItem(clocks, queue[i], a) ==> Ahead(queue, clocks, a, i, |senders|)
  }

  lemma {:induction false} QueuedSmall(queue: seq<Item>, a: Address)
    ensures |Queued(queue, a)| <= |queue|
    decreases |queue|
  {
    if queue != [] {
      QueuedSmall(queue[1..], a);
    }
  }

  lemma {:induction false} YieldsSmall(queue: seq<Item>, clocks: map<Pid, Clock>, a: Address)
    ensures Yields(queue, clocks, a) <= |queue|
    decreases |queue|
  {
    if queue != [] {
      YieldsSmall(queue[1..], clocks, a);
    }
  }

  lemma {:induction false} YieldsFewer(queue: seq<Item>, clocks: map<Pid, Clock>, clocks': map<Pid, Clock>, a: Address)
    requires forall i :: 0 <= i < |queue| && YieldItem(clocks', queue[i], a) ==> YieldItem(clocks, queue[i], a)
    ensures Yields(queue, clocks', a) <= Yields(queue, clocks, a)
    decreases |queue|
  {
    if queue != [] {
      YieldsFewer(queue[1..], clocks, clocks', a);
    }
  }

  /** The senders that have a yield item in the queue. */
  function Seen(queue: seq<Item>, clocks: map<Pid, Clock>, a: Address): set<Pid> {
    if queue == [] then {}
    else Seen(queue[1..], clocks, a) + if YieldItem(clocks, queue[0], a) then {queue[0].pid} else {}
  }

  lemma {:induction false} SeenOnce(queue: seq<Item>, clocks: map<Pid, Clock>, a: Address)
    requires forall p :: p in clocks ==> multiset(queue)[Resume(p, clocks[p].resumes)] <= 1
    ensures Yields(queue, clocks, a) == |Seen(queue, clocks, a)|
    ensures forall p :: p in Seen(queue, clocks, a) ==>
      p in Yielders(clocks, a) && Resume(p, clocks[p].resumes) in multiset(queue)
    decreases |queue|
  {
    if queue != [] {
      assert queue == [queue[0]] + queue[1..];
      assert multiset(queue) == multiset{queue[0]} + multiset(queue[1..]);
      SeenOnce(queue[1..], clocks, a);
    }
  }

  /** As every yielding process has one item at most, items are no more than processes. */
  lemma YieldsCounted(queue: seq<Item>, clocks: map<Pid, Clock>, table: seq<Option<Pid>>, born: set<Pid>, a: Address)
    requires QueueOk(queue, clocks, table, born)
    ensures Yields(queue, clocks, a) <= |Yielders(clocks, a)|
  {
    SeenOnce(queue, clocks, a);
    SubsetSize(Seen(queue, clocks, a), Yielders(clocks, a));
  }

  // ---------------------------------------------------------------- what changes it

  /** Senders stop, or others change; nothing for `a` is queued. */
  lemma PressureEases(queue: seq<Item>, clocks: map<Pid, Clock>, senders: set<Pid>, a: Address,
                      more: seq<Item>, clocks': map<Pid, Clock>, senders': set<Pid>)
    requires Pressure(queue, clocks, senders, a) && senders <= senders'
    requires Queued(more, a) == [] && forall i :: 0 <= i < |more| ==> !YieldItem(clocks', more[i], a)
    requires forall i :: 0 <= i < |queue| && YieldItem(clocks', queue[i], a) ==> YieldItem(clocks, queue[i], a)
    requires Blocked(clocks', a) <= Blocked(clocks, a) && Yielders(clocks', a) <= senders'
    ensures Pressure(queue + more, clocks', senders', a)
  {
    SubsetSize(senders, senders');
    SubsetSize(Blocked(clocks', a), Blocked(clocks, a));
    QueuedJoin(queue, more, a);
    hide Queued, Yields, Blocked, Yielders, YieldItem, Ahead;
    var q := queue + more;
    assert |Queued(q, a)| == |Queued(queue, a)|;
    assert forall i :: |queue| <= i < |q| ==> q[i] == more[i - |queue|];
    forall i | 0 <= i < |q| && YieldItem(clocks', q[i], a) ensures Ahead(q, clocks', a, i, |senders'|) {
      if i < |queue| {
        AheadEases(queue, clocks, a, more, clocks', i, |senders|, |senders'|);
      }
    }
  }

  lemma AheadEases(queue: seq<Item>, clocks: map<Pid, Clock>, a: Address, more: seq<Item>, clocks': map<Pid, Clock>,
          i: nat, k: nat, k': nat)
    requires i < |queue| && Ahead(queue, clocks, a, i, k) && k <= k' && Queued(more, a) == []
    requires |Blocked(clocks', a)| <= |Blocked(clocks, a)|
    requires forall i :: 0 <= i < |queue| && YieldItem(clocks', queue[i], a) ==> YieldItem(clocks, queue[i], a)
    ensures Ahead(queue + more, clocks', a, i, k')
  {
    hide Queued, Yields, Blocked, YieldItem;
    var q := queue + more;
    assert q[i + 1..] == queue[i + 1..] + more && q[..i] == queue[..i];
    QueuedJoin(queue[i + 1..], more, a);
    YieldsFewer(queue[..i], clocks, clocks', a);
  }

  lemma AheadPops(queue: seq<Item>, clocks: map<Pid, Clock>, a: Address, i: nat, k: nat)
    requires i + 1 < |queue| && Ahead(queue, clocks, a, i + 1, k)
    ensures |Queued(queue[1..][i + 1..], a)| + |Blocked(clocks, a)| + Yields(queue[1..][..i], clocks, a)
            + (if YieldItem(clocks, queue[0], a) then 1 else 0) <= 8 + k
  {
    var q := queue[1..];
    assert q[i + 1..] == queue[i + 2..] && q[..i] == queue[..i + 1][1..] && queue[..i + 1][0] == queue[0];
    hide Queued, Blocked, YieldItem;
  }

  /** An item is taken off the queue. */
  lemma PressurePops(queue: seq<Item>, clocks: map<Pid, Clock>, senders: set<Pid>, a: Address)
    requires Pressure(queue, clocks, senders, a) && queue != []
    ensures Pressure(queue[1..], clocks, senders, a)
  {
    QueueHead(queue, a);
    var q := queue[1..];
    hide Queued, Blocked, Yielders, YieldItem, Yields;
    forall i | 0 <= i < |q| && YieldItem(clocks, q[i], a) ensures Ahead(q, clocks, a, i, |senders|) {
      assert queue[i + 1] == q[i];
      AheadPops(queue, clocks, a, i, |senders|);
    }
  }

  lemma BlockedWith(clocks: map<Pid, Clock>, p: Pid, c: Clock, a: Address)
    ensures Blocked(clocks[p := c], a) ==
      if Blocks(c.waiting, a) then Blocked(clocks, a) + {p} else Blocked(clocks, a) - {p}
    ensures Yielders(clocks[p := c], a) ==
      if YieldsTo(c.waiting, a) then Yielders(clocks, a) + {p} else Yielders(clocks, a) - {p}
  {
  }

  /** The sender at the head of the queue is resumed. */
  lemma PressureWakes(queue: seq<Item>, clocks: map<Pid, Clock>, senders: set<Pid>, a: Address, c: Clock)
    requires Pressure(queue, clocks, senders, a) && queue != [] && YieldItem(clocks, queue[0], a)
    requires Blocks(c.waiting, a) && c.resumes == queue[0].stamp + 1
    ensures Pressure(queue[1..], clocks[queue[0].pid := c], senders, a)
  {
    var p, q := queue[0].pid, queue[1..];
    var clocks' := clocks[p := c];
    BlockedWith(clocks, p, c, a);
    assert Ahead(queue, clocks, a, 0, |senders|) && queue[0 + 1..] == q;
    QueueHead(queue, a);
    assert p !in Blocked(clocks, a) && p in Yielders(clocks, a);
    assert forall i :: 0 <= i < |q| && YieldItem(clocks', q[i], a) ==> YieldItem(clocks, q[i], a);
    hide Queued, Blocked, Yielders, YieldItem, Yields;
    forall i | 0 <= i < |q| && YieldItem(clocks', q[i], a) ensures Ahead(q, clocks', a, i, |senders|) {
      assert queue[i + 1] == q[i];
      AheadPops(queue, clocks, a, i, |senders|);
      YieldsFewer(q[..i], clocks, clocks', a);
    }
  }

  lemma SetGrows<A>(s: set<A>, x: A, t: set<A>)
    requires s <= t && x in t && x !in s
    ensures |s| + 1 <= |t|
  {
    SubsetSize(s + {x}, t);
  }

  /** A sender passes the test of the queue. */
  lemma PressurePasses(queue: seq<Item>, clocks: map<Pid, Clock>, senders: set<Pid>, a: Address, p: Pid, c: Clock)
    requires Pressure(queue, clocks, senders, a) && |queue| <= 10
    requires p in clocks && !Blocks(clocks[p].waiting, a) && !YieldsTo(clocks[p].waiting, a) && Blocks(c.waiting, a)
    ensures Pressure(queue, clocks[p := c], senders + {p}, a)
  {
    var clocks', all := clocks[p := c], senders + {p};
    BlockedWith(clocks, p, c, a);
    SetGrows(Blocked(clocks, a), p, all);
    QueuedSmall(queue, a);
    forall i | 0 <= i < |queue| && YieldItem(clocks', queue[i], a) ensures Ahead(queue, clocks', a, i, |all|) {
      var r := queue[i].pid;
      assert r != p && r in Yielders(clocks, a) && r !in Blocked(clocks, a);
      SetGrows(Blocked(clocks, a) + {p}, r, all);
      QueuedSmall(queue[i + 1..], a);
      YieldsSmall(queue[..i], clocks', a);
    }
  }

  /** A sender yields. */
  lemma PressureYields(queue: seq<Item>, clocks: map<Pid, Clock>, senders: set<Pid>, a: Address, p: Pid, c: Clock,
                       table: seq<Option<Pid>>, born: set<Pid>)
    requires Pressure(queue, clocks, senders, a) && QueueOk(queue, clocks, table, born)
    requires p in clocks && !Blocks(clocks[p].waiting, a) && Due(clocks[p].waiting) == 0
    requires YieldsTo(c.waiting, a) && c.resumes == clocks[p].resumes
    ensures Pressure(queue + [Resume(p, c.resumes)], clocks[p := c], senders + {p}, a)
  {
    var it := Resume(p, c.resumes);
    var clocks', all, q := clocks[p := c], senders + {p}, queue + [it];
    BlockedWith(clocks, p, c, a);
    SubsetSize(senders, all);
    YieldsCounted(queue, clocks, table, born, a);
    assert it !in multiset(queue);
    forall i | 0 <= i < |queue| ensures YieldItem(clocks', queue[i], a) ==> YieldItem(clocks, queue[i], a) {
      assert queue[i] in multiset(queue);
    }
    assert p !in Blocked(clocks, a) && p !in Yielders(clocks, a);
    Disjoint(Blocked(clocks, a), Yielders(clocks, a), p, all);
    QueuedJoin(queue, [it], a);
    assert Queued([it], a) == [];
    assert Queued(q, a) == Queued(queue, a);
    YieldsFewer(queue, clocks, clocks', a);
    QueuedSmall([], a);
    hide Queued, Yields, Blocked, Yielders, YieldItem, QueueOk;
    forall i | 0 <= i < |q| && YieldItem(clocks', q[i], a) ensures Ahead(q, clocks', a, i, |all|) {
      if i < |queue| {
        AheadEases(queue, clocks, a, [it], clocks', i, |senders|, |all|);
      } else {
        assert q[i + 1..] == [] && q[..i] == queue;
      }
    }
  }

  lemma Disjoint<A>(s: set<A>, t: set<A>, x: A, u: set<A>)
    requires s !! t && x !in s && x !in t && s <= u && t <= u && x in u
    ensures |s| + |t| + 1 <= |u|
  {
    SubsetSize(s + t + {x}, u);
  }

  /** A sender that is past the test of the queue sends. */
  lemma PressureSends(queue: seq<Item>, clocks: map<Pid, Clock>, senders: set<Pid>, a: Address, p: Pid, c: Clock,
          l: Letter)
    requires Pressure(queue, clocks, senders, a) && l.to == a
    requires p in clocks && Blocks(clocks[p].waiting, a) && !Blocks(c.waiting, a) && !YieldsTo(c.waiting, a)
    ensures Pressure(queue + [Mail(l)], clocks[p := c], senders, a)
    ensures |Queued(queue + [Mail(l)], a)| <= 10 + |senders|
  {
    var clocks', q := clocks[p := c], queue + [Mail(l)];
    BlockedWith(clocks, p, c, a);
    assert p in Blocked(clocks, a);
    assert forall i :: 0 <= i < |queue| && YieldItem(clocks', queue[i], a) ==> YieldItem(clocks, queue[i], a);
    QueuedJoin(queue, [Mail(l)], a);
    assert |Queued([Mail(l)], a)| == 1 by { OneTo(l, a); }
    assert !YieldItem(clocks', Mail(l), a);
    hide Queued, Blocked, Yielders, YieldItem;
    forall i | 0 <= i < |q| && YieldItem(clocks', q[i], a) ensures Ahead(q, clocks', a, i, |senders|) {
      assert Ahead(queue, clocks, a, i, |senders|);
      assert q[i + 1..] == queue[i + 1..] + [Mail(l)] && q[..i] == queue[..i];
      QueuedJoin(queue[i + 1..], [Mail(l)], a);
      YieldsFewer(queue[..i], clocks, clocks', a);
    }
  }

  // ---------------------------------------------------------------- the invariant of the context

  /** The messages a mailbox holds, and those queued for it. */
  function Load(s: State, a: Address): nat {
    (if Live(s, a.pid) then |BoxAt(s, a).contents| else 0) + |Queued(s.queue, a)|
  }

  ghost predicate PressureAt(s: State, a: Address) {
    && Pressure(s.queue, Clocks(s.procs), Senders(s.past, a), a)
    && Load(s, a) <= 19 + |Senders(s.past, a)|
  }

  /** Of addresses that are only sent to by awaited `sendThrottled`. */
  ghost predicate PressureOk(s: State) {
    forall a :: a !in s.past.plain ==> PressureAt(s, a)
  }

  lemma SendersWith(past: History, p: Pid, b: Address, a: Address)
    ensures Senders(past.(throttled := past.throttled + {(p, b)}), a) ==
      if b == a then Senders(past, a) + {p} else Senders(past, a)
  {
    var after := past.(throttled := past.throttled + {(p, b)});
    assert forall x :: x in after.throttled <==> x in past.throttled || x == (p, b);
    if b == a {
      assert (p, b) in after.throttled;
    }
    forall q | q in Senders(past, a) ensures q in Senders(after, a) {
      assert (q, a) in after.throttled;
    }
  }

  lemma ClocksBox(s: State, a: Address, b: Box)
    ensures Clocks(PutBox(s, a, b).procs) == Clocks(s.procs)
  {
    hide SameLinks, SameProcesses;
  }

  lemma ClocksBegin(s: State, p: Pid)
    requires p in s.procs
    ensures Clocks(BeginStep(s, p).procs) ==
      Clocks(s.procs)[p := Clock(s.procs[p].resumes + 1, Running(PendingOf(s.procs[p].waiting)))]
  {
    hide SameLinks, SameProcesses;
  }

  lemma ClocksSuspend(s: State, p: Pid, w: Wait)
    requires p in s.procs
    ensures Clocks(SuspendStep(s, p, w).procs) == Clocks(s.procs)[p := Clock(s.procs[p].resumes, w)]
  {
    ClocksPut(s, p, w);
    var t := PutWait(s, p, w).(running := None);
    if w.OnThrottle? {
      var r := Continued(BoxAt(t, w.letter.to).promise, Waiter(p, s.procs[p].resumes));
      ClocksBox(t, w.letter.to, BoxAt(t, w.letter.to).(promise := r.signal));
    }
    hide SameLinks, PutBox, PutWait, BoxAt, Clocks;
  }

  lemma ClocksKill(s: State, p: Pid, q: Pid)
    requires p in s.procs
    ensures Clocks(AddKill(s, p, q).procs) == Clocks(s.procs)
  {
    hide SameLinks, SameProcesses;
  }

  lemma ClocksDeliver(s: State)
    ensures Clocks(DeliverStep(s).procs) == Clocks(s.procs)
  {
    hide SameLinks, SameProcesses;
  }

  /** The pressure is as it was, and the mailbox holds no more. */
  lemma PressureStays(s: State, t: State, a: Address)
    requires PressureAt(s, a) && t.queue == s.queue && Clocks(t.procs) == Clocks(s.procs)
    requires t.past.throttled == s.past.throttled
    requires Live(t, a.pid) ==> Live(s, a.pid) && |BoxAt(t, a).contents| <= |BoxAt(s, a).contents|
    ensures PressureAt(t, a)
  {
    hide Pressure, Clocks, Live, BoxAt, Queued;
  }

  /** One process goes from a wait that does not concern `a`, or that holds it up, to one
      that does not hold it up more; items that do not concern `a` are queued. */
  lemma PressureMoves(s: State, t: State, a: Address, p: Pid, c: Clock, more: seq<Item>)
    requires PressureAt(s, a) && t.queue == s.queue + more && Clocks(t.procs) == Clocks(s.procs)[p := c]
    requires t.past.throttled == s.past.throttled || Senders(t.past, a) == Senders(s.past, a)
    requires Queued(more, a) == [] && forall i :: 0 <= i < |more| ==> more[i].Mail? || more[i].pid == p
    requires !YieldsTo(c.waiting, a) && (Blocks(c.waiting, a) ==> p in s.procs && Blocks(s.procs[p].waiting, a))
    requires Live(t, a.pid) ==> Live(s, a.pid) && |BoxAt(t, a).contents| <= |BoxAt(s, a).contents|
    ensures PressureAt(t, a)
  {
    var clocks := Clocks(s.procs);
    assert Senders(t.past, a) == Senders(s.past, a);
    ClocksAt(s, p);
    BlockedWith(clocks, p, c, a);
    assert p in s.procs && Blocks(s.procs[p].waiting, a) ==> p in Blocked(clocks, a);
    QueuedJoin(s.queue, more, a);
    hide Pressure, Clocks, Live, BoxAt, Queued, Senders, Blocked, Yielders;
    PressureEases(s.queue, clocks, Senders(s.past, a), a, more, clocks[p := c], Senders(s.past, a)) by {
      hide *;
      PressureSides(s.queue, clocks, Senders(s.past, a), a);
      assert forall i :: 0 <= i < |more| ==> !YieldItem(clocks[p := c], more[i], a) by {
        YieldsOnlyOthers(clocks, p, c, a);
      }
      YieldsOnlyOthers(clocks, p, c, a);
    }
  }

  lemma PressureSides(queue: seq<Item>, clocks: map<Pid, Clock>, senders: set<Pid>, a: Address)
    requires Pressure(queue, clocks, senders, a)
    ensures Blocked(clocks, a) <= senders && Yielders(clocks, a) <= senders
  {
    hide Blocked, Yielders;
  }

  lemma YieldsOnlyOthers(clocks: map<Pid, Clock>, p: Pid, c: Clock, a: Address)
    requires !YieldsTo(c.waiting, a)
    ensures forall it :: YieldItem(clocks[p := c], it, a) ==> YieldItem(clocks, it, a) && it.Resume? && it.pid != p
  {
  }

  // ---------------------------------------------------------------- steps of a running body

  lemma SpawnPressure(s: State, a: Address, slots: nat, parent: Option<Pid>, both: bool, notify: seq<Address>)
    requires PressureAt(s, a) && TableOk(s) && WrittenOk(s) && (parent.Some? ==> parent.value in s.procs)
    ensures PressureAt(SpawnStep(s, slots, parent, both, notify), a)
  {
    hide PressureAt, Clocks, Live, BoxAt, Queued, Senders, TableOk, WrittenOk, SameContents, SpawnStep, NextPid;
    var p, t := NextPid(s), SpawnStep(s, slots, parent, both, notify);
    TableFacts(s);
    SpawnOk(s, slots, parent, both, notify);
    SpawnContents(s, slots, parent, both, notify);
    SpawnPast(s, slots, parent, both, notify);
    SpawnClocks(s, slots, parent, both, notify);
    SameAt(s, t, a);
    var it := Resume(p, 0);
    OneResume(p, 0, a);
    if a.pid == p {
      NothingYet(s, a);
      EmptyYet(s, a);
      NewPressure(s, t, a, p);
    } else {
      PressureMoves(s, t, a, p, Clock(0, NotStarted), [it]);
    }
  }

  lemma OneResume(p: Pid, stamp: nat, a: Address)
    ensures Queued([Resume(p, stamp)], a) == []
  {
  }

  lemma NewPressure(s: State, t: State, a: Address, p: Pid)
    requires PressureAt(s, a) && Queued(s.queue, a) == [] && BoxAt(t, a).contents == []
    requires t.queue == s.queue + [Resume(p, 0)] && Clocks(t.procs) == Clocks(s.procs)[p := Clock(0, NotStarted)]
    requires t.past.throttled == s.past.throttled
    ensures PressureAt(t, a)
  {
    var clocks := Clocks(s.procs);
    BlockedWith(clocks, p, Clock(0, NotStarted), a);
    YieldsOnlyOthers(clocks, p, Clock(0, NotStarted), a);
    OneResume(p, 0, a);
    QueuedJoin(s.queue, [Resume(p, 0)], a);
    hide Clocks, Live, BoxAt, Queued, Blocked, Yielders, YieldItem;
    PressureEases(s.queue, clocks, Senders(s.past, a), a, [Resume(p, 0)], Clocks(t.procs), Senders(s.past, a));
  }

  lemma SpawnClocks(s: State, slots: nat, parent: Option<Pid>, both: bool, notify: seq<Address>)
    requires NextPid(s) !in s.procs && (parent.Some? ==> parent.value in s.procs)
    ensures var t := SpawnStep(s, slots, parent, both, notify);
      Clocks(t.procs) == Clocks(s.procs)[NextPid(s) := Clock(0, NotStarted)] && t.past.throttled == s.past.throttled
  {
    var p, t := NextPid(s), SpawnAlone(s, slots, notify);
    assert forall q :: q in t.procs <==> q in s.procs || q == p;
    assert Clocks(t.procs) == Clocks(s.procs)[p := Clock(0, NotStarted)] by { hide NextPid, SameLinks; }
    hide NextPid, SpawnAlone, AddKill, Clocks, SameLinks, SameProcesses;
    if parent.Some? {
      var r := parent.value;
      ClocksKill(t, r, p);
      ClocksKill(t, p, r);
      SameSize(t, AddKill(t, p, r));
      ClocksKill(AddKill(t, p, r), r, p);
    }
  }

  lemma SendPlainPressure(s: State, a: Address, l: Letter)
    requires PressureAt(s, a) && l.to != a
    ensures PressureAt(QueueSend(s, l), a) && PressureAt(SendPlainStep(s, l), a)
  {
    QueuedJoin(s.queue, [Mail(l)], a);
    OneTo(l, a);
    var clocks := Clocks(s.procs);
    assert Clocks(QueueSend(s, l).procs) == clocks && Clocks(SendPlainStep(s, l).procs) == clocks;
    assert forall b :: BoxAt(SendPlainStep(s, l), b) == BoxAt(s, b) && BoxAt(QueueSend(s, l), b) == BoxAt(s, b);
    hide Clocks, BoxAt, Queued, Blocked, Yielders, SameLinks, SameProcesses;
    PressureSides(s.queue, clocks, Senders(s.past, a), a);
    PressureEases(s.queue, clocks, Senders(s.past, a), a, [Mail(l)], clocks, Senders(s.past, a));
  }

  lemma PassPressure(s: State, a: Address, p: Pid, l: Letter)
    requires PressureAt(s, a) && p in s.procs && Free(s, p) && !WaitOnQueue(s)
    ensures PressureAt(PassStep(s, p, l), a)
  {
    var w, t := Running(Some(l)), PassStep(s, p, l);
    ClocksPut(s, p, w);
    ClocksAt(s, p);
    WaitContents(s, p, w);
    SameAt(s, PutWait(s, p, w), a);
    SendersWith(s.past, p, l.to, a);
    assert BoxAt(t, a) == BoxAt(PutWait(s, p, w), a);
    hide Pressure, Clocks, BoxAt, Queued, Senders, PutWait, SameContents, SameLinks;
    assert Senders(t.past, a) == if l.to == a then Senders(s.past, a) + {p} else Senders(s.past, a);
    if l.to == a {
      PressurePasses(s.queue, Clocks(s.procs), Senders(s.past, a), a, p, Clock(s.procs[p].resumes, w));
      SubsetSize(Senders(s.past, a), Senders(t.past, a));
    } else {
      assert s.queue + [] == s.queue;
      PressureMoves(s, t, a, p, Clock(s.procs[p].resumes, w), []);
    }
  }

  lemma SendOnPressure(s: State, a: Address, p: Pid)
    requires PressureAt(s, a) && Enabled(s, SendOn(p)) && p in s.procs
    ensures PressureAt(SendOnStep(s, p), a)
  {
    var l, w, t := s.procs[p].waiting.pending.value, Running(None), SendOnStep(s, p);
    ClocksPut(s, p, w);
    ClocksAt(s, p);
    WaitContents(s, p, w);
    SameAt(s, PutWait(s, p, w), a);
    assert BoxAt(t, a) == BoxAt(PutWait(s, p, w), a);
    assert t.queue == s.queue + [Mail(l)] && t.table == s.table && t.past.throttled == s.past.throttled;
    assert Clocks(t.procs) == Clocks(s.procs)[p := Clock(s.procs[p].resumes, w)];
    LiveByTable(s, t);
    assert l.to == a && Live(s, a.pid) ==> |BoxAt(s, a).contents| < THROTTLE;
    hide Pressure, Clocks, BoxAt, Queued, PutWait, SameContents, SameLinks, SendOnStep, Live;
    assert Senders(t.past, a) == Senders(s.past, a);
    hide Senders;
    if l.to == a {
      PressureSends(s.queue, Clocks(s.procs), Senders(s.past, a), a, p, Clock(s.procs[p].resumes, w), l);
    } else {
      OneTo(l, a);
      PressureMoves(s, t, a, p, Clock(s.procs[p].resumes, w), [Mail(l)]);
    }
  }

  lemma TakePressure(s: State, a: Address, p: Pid, slot: nat)
    requires PressureAt(s, a)
    ensures PressureAt(TakeStep(s, p, slot), a)
  {
    var b, t := Address(p, slot), TakeStep(s, p, slot);
    if BoxAt(s, b).contents != [] {
      PutContents(s, b, Pop(BoxAt(s, b)).box);
      ClocksBox(s, b, Pop(BoxAt(s, b)).box);
      assert BoxAt(t, a) == BoxAt(PutBox(s, b, Pop(BoxAt(s, b)).box), a);
      hide Clocks, PutBox, PressureAt, SameLinks;
      PressureStays(s, t, a);
    }
  }

  /** What a body goes from when it suspends. */
  lemma SuspendRoles(s: State, a: Address, p: Pid, w: Wait)
    requires p in s.procs && MayWait(s, p, w)
    ensures s.procs[p].waiting.Running? && !w.Running? && Due(s.procs[p].waiting) == 0
    ensures YieldsTo(w, a) ==> !Blocks(s.procs[p].waiting, a) && w.Yielding?
    ensures !YieldsTo(w, a) && Blocks(w, a) ==> Blocks(s.procs[p].waiting, a)
  {
    hide AnyReady, Addressable, Full, WaitOnQueue;
  }

  lemma StampsQueue(s: State)
    requires StampsOk(s)
    ensures QueueOk(s.queue, Clocks(s.procs), s.table, s.past.born.Keys)
  {
    hide QueueOk, WaitersOk, HeldOk, OneRuns, Clocks;
  }

  lemma SuspendPressure(s: State, a: Address, p: Pid, w: Wait)
    requires PressureAt(s, a) && StampsOk(s) && p in s.procs && MayWait(s, p, w)
    ensures PressureAt(SuspendStep(s, p, w), a)
  {
    hide Clocks, BoxAt, Queued, SuspendStep, SameLinks, SameContents, Senders, Live, MayWait, StampsOk, QueueOk,
         Blocks, YieldsTo, Pressure, Due;
    var t, c := SuspendStep(s, p, w), Clock(s.procs[p].resumes, w);
    ClocksSuspend(s, p, w);
    ClocksAt(s, p);
    SuspendContents(s, p, w);
    SameAt(s, t, a);
    SuspendSenders(s, p, w, a);
    LiveByTable(s, t);
    SuspendRoles(s, a, p, w);
    StampsQueue(s);
    OneResume(p, c.resumes, a);
    if YieldsTo(w, a) {
      PressureYields(s.queue, Clocks(s.procs), Senders(s.past, a), a, p, c, s.table, s.past.born.Keys);
      QueuedJoin(s.queue, [Resume(p, c.resumes)], a);
      SubsetSize(Senders(s.past, a), Senders(t.past, a));
    } else {
      QueuedSmall([], a);
      PressureMoves(s, t, a, p, c, if w.Yielding? then [Resume(p, c.resumes)] else []);
    }
  }

  lemma SuspendSenders(s: State, p: Pid, w: Wait, a: Address)
    ensures Senders(SuspendStep(s, p, w).past, a) == Senders(s.past, a) + if YieldsTo(w, a) then {p} else {}
  {
    hide PutBox, SameLinks, SameProcesses, BoxAt;
    var past := SuspendStep(s, p, w).past;
    if w.Yielding? && w.pending.Some? {
      assert past == s.past.(throttled := s.past.throttled + {(p, w.pending.value.to)});
      SendersWith(s.past, p, w.pending.value.to, a);
    } else {
      assert past.throttled == s.past.throttled;
      SameSenders(s.past, past, a);
    }
  }

  // ---------------------------------------------------------------- steps of the context

  lemma DoomPressure(s: State, a: Address, q: Pid)
    requires PressureAt(s, a)
    ensures PressureAt(DoomStep(s, q), a) && PressureAt(FinishStep(s, q), a)
  {
    DoomGone(s, q);
    assert forall b :: BoxAt(DoomStep(s, q), b) == BoxAt(s, b) && BoxAt(FinishStep(s, q), b) == BoxAt(s, b);
    LiveByTable(DoomStep(s, q), FinishStep(s, q));
    hide PressureAt, Clocks, BoxAt, Live, DoomStep, SameLinks;
    PressureStays(s, DoomStep(s, q), a);
    PressureStays(s, FinishStep(s, q), a);
  }

  /** An item is taken off the queue, and its letter, if it has one, to the mailbox. */
  lemma PopPressure(s: State, t: State, a: Address)
    requires PressureAt(s, a) && s.queue != [] && t.queue == s.queue[1..]
    requires Clocks(t.procs) == Clocks(s.procs) && t.past.throttled == s.past.throttled && t.table == s.table
    requires |BoxAt(t, a).contents| <=
      |BoxAt(s, a).contents| + (if s.queue[0].Mail? && s.queue[0].letter.to == a then 1 else 0)
    ensures PressureAt(t, a)
  {
    LiveByTable(s, t);
    QueueHead(s.queue, a);
    hide Clocks, BoxAt, Queued, Live, Pressure;
    PressurePops(s.queue, Clocks(s.procs), Senders(s.past, a), a);
  }

  lemma PopItemPressure(s: State, a: Address)
    requires PressureAt(s, a)
    ensures PressureAt(PopItem(s), a)
  {
    if s.queue != [] {
      assert BoxAt(PopItem(s), a) == BoxAt(s, a);
      hide Clocks, BoxAt, PressureAt, SameLinks, SameProcesses;
      PopPressure(s, PopItem(s), a);
    }
  }

  lemma DeliverPressure(s: State, a: Address)
    requires PressureAt(s, a)
    ensures PressureAt(DeliverStep(s), a)
  {
    if s.queue != [] && s.queue[0].Mail? {
      var l := s.queue[0].letter;
      PutContents(PopItem(s), l.to, Push(BoxAt(s, l.to), l.m));
      assert forall b :: BoxAt(PopItem(s), b) == BoxAt(s, b);
      ClocksDeliver(s);
      hide Clocks, BoxAt, PressureAt, SameLinks, SameProcesses, PutBox;
      PopPressure(s, DeliverStep(s), a);
    }
  }

  /** A resume that does not end the yield of a sender. */
  lemma BeginPressure(s: State, a: Address, p: Pid)
    requires PressureAt(s, a) && p in s.procs && !YieldsTo(s.procs[p].waiting, a)
    ensures PressureAt(BeginStep(s, p), a)
  {
    var t, c := BeginStep(s, p), Clock(s.procs[p].resumes + 1, Running(PendingOf(s.procs[p].waiting)));
    ClocksBegin(s, p);
    BeginContents(s, p);
    SameAt(s, t, a);
    LiveByTable(s, t);
    assert s.queue + [] == s.queue;
    hide Clocks, BoxAt, PressureAt, BeginStep, SameLinks, SameProcesses, SameContents, Queued;
    assert Queued([], a) == [] by { QueuedSmall([], a); }
    PressureMoves(s, t, a, p, c, []);
  }

  lemma WakePressure(s: State, a: Address)
    requires PressureAt(s, a) && s.queue != [] && s.queue[0].Resume? && s.queue[0].pid in s.procs
    requires s.procs[s.queue[0].pid].resumes == s.queue[0].stamp
    ensures PressureAt(BeginStep(PopItem(s), s.queue[0].pid), a)
  {
    var p, u := s.queue[0].pid, PopItem(s);
    if YieldsTo(s.procs[p].waiting, a) {
      var t := BeginStep(u, p);
      var c := Clock(s.procs[p].resumes + 1, Running(PendingOf(s.procs[p].waiting)));
      ClocksBegin(u, p);
      ClocksAt(s, p);
      BeginContents(u, p);
      SameAt(u, t, a);
      LiveByTable(s, t);
      QueueHead(s.queue, a);
      assert BoxAt(u, a) == BoxAt(s, a);
      assert YieldItem(Clocks(s.procs), s.queue[0], a);
      hide Clocks, BoxAt, Pressure, BeginStep, SameLinks, SameProcesses, SameContents, Queued, YieldItem, Live;
      PressureWakes(s.queue, Clocks(s.procs), Senders(s.past, a), a, c);
    } else {
      hide PressureAt, BeginStep, SameLinks, SameProcesses;
      PopItemPressure(s, a);
      BeginPressure(u, a, p);
    }
  }

  lemma BuryPressure(s: State, a: Address)
    requires PressureAt(s, a) && s.doomed != [] && !Live(s, s.doomed[0]) && a !in BuryStep(s).past.plain
    ensures PressureAt(BuryStep(s), a)
  {
    var f, t := s.doomed[0], BuryStep(s);
    var ls := Notices(f, At(s, f).notifyOnDie);
    var clocks := Clocks(s.procs);
    NoticesTo(f, At(s, f).notifyOnDie);
    NoneTo(ls, a) by {
      forall i | 0 <= i < |ls| ensures ls[i].to != a {
        assert ls[i].to in At(s, f).notifyOnDie;
      }
    }
    QueuedMails(ls, a);
    QueuedJoin(s.queue, Mails(ls), a);
    MailsAreMail(ls);
    WithoutClock(s.procs, f, a);
    assert a.pid != f ==> BoxAt(t, a) == BoxAt(s, a);
    LiveByTable(s, t);
    PressureSides(s.queue, clocks, Senders(s.past, a), a);
    assert t.queue == s.queue + Mails(ls) && t.past.throttled == s.past.throttled && t.procs == s.procs - {f};
    hide Clocks, BoxAt, Queued, Live, Blocked, Yielders, Senders, Notices, Mails, Wakes, SameLinks, YieldItem, BuryStep;
    assert Senders(t.past, a) == Senders(s.past, a) by { SameSenders(s.past, t.past, a); }
    PressureEases(s.queue, clocks, Senders(s.past, a), a, Mails(ls), Clocks(t.procs), Senders(s.past, a));
  }

  lemma SameSenders(past: History, past': History, a: Address)
    requires past'.throttled == past.throttled
    ensures Senders(past', a) == Senders(past, a)
  {
  }

  lemma {:induction false} NoticesTo(p: Pid, to: seq<Address>)
    ensures forall i :: 0 <= i < |Notices(p, to)| ==> Notices(p, to)[i].to in to
    decreases |to|
  {
    if to != [] {
      NoticesTo(p, to[1..]);
    }
  }

  lemma {:induction false} MailsAreMail(ls: seq<Letter>)
    ensures forall i :: 0 <= i < |Mails(ls)| ==> Mails(ls)[i].Mail?
    decreases |ls|
  {
    if ls != [] {
      MailsAreMail(ls[1..]);
    }
  }

  lemma WithoutClock(procs: map<Pid, Proc>, f: Pid, a: Address)
    ensures var clocks, after := Clocks(procs), Clocks(procs - {f});
      && Blocked(after, a) <= Blocked(clocks, a) && Yielders(after, a) <= Yielders(clocks, a)
      && forall it :: YieldItem(after, it, a) ==> YieldItem(clocks, it, a)
  {
  }

  lemma ContinuationPressure(s: State, a: Address, k: nat)
    requires PressureAt(s, a) && StampsOk(s) && k < |s.posted| && forall p :: Live(s, p) ==> p in s.procs
    ensures PressureAt(ContinuationStep(s, k), a)
  {
    var t := s.(posted := RemoveAt(s.posted, k));
    assert BoxAt(t, a) == BoxAt(s, a);
    LiveByTable(s, t);
    hide PressureAt, StampsOk, BeginStep, Live, SameLinks, SameProcesses, RemoveAt, BoxAt;
    PressureStays(s, t, a);
    if Current(s, s.posted[k].pid, s.posted[k].stamp) {
      ContinuationMeets(s, k);
      BeginPressure(t, a, s.posted[k].pid);
    }
  }

  lemma FirePressure(s: State, a: Address, k: nat)
    requires PressureAt(s, a)
    ensures PressureAt(FireStep(s, k), a)
  {
    assert BoxAt(FireStep(s, k), a) == BoxAt(s, a);
    LiveByTable(s, FireStep(s, k));
    hide PressureAt, SameLinks, SameProcesses, RemoveAt, BoxAt, Live;
    PressureStays(s, FireStep(s, k), a);
  }

  lemma LinkPressure(s: State, a: Address, p: Pid, q: Pid)
    requires PressureAt(s, a) && p in s.procs
    ensures PressureAt(AddKill(s, p, q), a)
  {
    KillContents(s, p, q);
    SameAt(s, AddKill(s, p, q), a);
    ClocksKill(s, p, q);
    LiveByTable(s, AddKill(s, p, q));
    hide PressureAt, SameContents, SameProcesses, BoxAt, Live, AddKill, Clocks;
    PressureStays(s, AddKill(s, p, q), a);
  }

  lemma PlainGrows(s: State, m: Step, a: Address)
    requires a in s.past.plain
    ensures a in Next(s, m).past.plain
  {
    hide SameLinks, SameProcesses, AddKill, BeginStep, PutBox, BoxAt, RemoveAt, SuspendStep, DoomStep, Live;
  }

  lemma ItemPressure(s: State, a: Address, m: Step)
    requires PressureAt(s, a) && StampsOk(s) && TableOk(s) && Enabled(s, m)
    requires m.Drop? || m.Deliver? || m.DeliverWake? || m.WakeItem?
    ensures PressureAt(Next(s, m), a)
  {
    hide PressureAt, TableOk, StampsOk, BeginStep, PopItem, Live, SameLinks;
    TableFacts(s);
    match m
    case Drop => PopItemPressure(s, a);
    case Deliver =>
      hide DeliverStep, WaitingFor;
      DeliverPressure(s, a);
    case DeliverWake =>
      var p := s.queue[0].letter.to.pid;
      DeliverPressure(s, a);
      SameSize(s, DeliverStep(s));
      ClocksDeliver(s);
      ClocksAt(s, p);
      ClocksAt(DeliverStep(s), p);
      hide DeliverStep, Clocks;
      BeginPressure(DeliverStep(s), a, p);
    case WakeItem => WakePressure(s, a);
  }

  lemma PlainIsPlain(s: State, l: Letter)
    ensures l.to in SendPlainStep(s, l).past.plain
  {
    hide SameLinks, SameProcesses;
  }

  lemma SendPressure(s: State, m: Step, a: Address)
    requires PressureAt(s, a) && TableOk(s) && Enabled(s, m) && a !in Next(s, m).past.plain
    requires m.SendPlain? || m.Pass? || m.SendOn? || m.Take?
    ensures PressureAt(Next(s, m), a)
  {
    hide PressureAt, TableOk, TakeStep, PassStep, Live, SendOnStep, Addressable, SendPlainStep, BoxAt;
    TableFacts(s);
    match m
    case SendPlain(l) =>
      PlainIsPlain(s, l);
      SendPlainPressure(s, a, l);
    case Pass(p, l) => PassPressure(s, a, p, l);
    case SendOn(p) => SendOnPressure(s, a, p);
    case Take(p, slot) => TakePressure(s, a, p, slot);
  }

  lemma BodyPressure(s: State, m: Step, a: Address)
    requires PressureAt(s, a) && StampsOk(s) && TableOk(s) && WrittenOk(s) && Enabled(s, m)
    requires m.Spawn? || m.Link? || m.Suspend?
    ensures PressureAt(Next(s, m), a)
  {
    hide PressureAt, WrittenOk, StampsOk, TableOk, SpawnStep, AddKill, SuspendStep, Live, MayWait, Addressable;
    TableFacts(s);
    match m
    case Spawn(slots, parent, both, notify) => SpawnPressure(s, a, slots, parent, both, notify);
    case Link(p, q) =>
      LinkPressure(s, a, p, q);
      SameSize(s, AddKill(s, p, q));
      LinkPressure(AddKill(s, p, q), a, q, p);
    case Suspend(p, w) => SuspendPressure(s, a, p, w);
  }

  lemma LoopPressure(s: State, m: Step, a: Address)
    requires PressureAt(s, a) && StampsOk(s) && TableOk(s) && Enabled(s, m) && a !in Next(s, m).past.plain && !OfBody(m)
    ensures PressureAt(Next(s, m), a)
  {
    hide PressureAt, StampsOk, TableOk, BeginStep, DoomStep, FinishStep, BuryStep, FireStep, ContinuationStep, Live,
         WaitingFor, DeliverStep, PopItem, SameLinks;
    TableFacts(s);
    NotDestroyed(s);
    match m
    case Doom(q) => DoomPressure(s, a, q);
    case Finish(p) => DoomPressure(s, a, p);
    case Bury => BuryPressure(s, a);
    case Timer(q) => BeginPressure(s, a, q);
    case Fire(k) => FirePressure(s, a, k);
    case Continuation(k) => ContinuationPressure(s, a, k);
    case _ => ItemPressure(s, a, m);
  }

  /** Back pressure is kept by every step. */
  lemma PressureKept(s: State, m: Step)
    requires PressureOk(s) && StampsOk(s) && TableOk(s) && WrittenOk(s) && Enabled(s, m)
    ensures PressureOk(Next(s, m))
  {
    hide PressureAt, WrittenOk, StampsOk, TableOk, Enabled, Next;
    forall a | a !in Next(s, m).past.plain ensures PressureAt(Next(s, m), a) {
      if a in s.past.plain {
        PlainGrows(s, m, a);
      }
      assert PressureAt(s, a);
      if m.SendPlain? || m.Pass? || m.SendOn? || m.Take? {
        SendPressure(s, m, a);
      } else if OfBody(m) {
        BodyPressure(s, m, a);
      } else {
        LoopPressure(s, m, a);
      }
    }
  }

  /** If every message to `a` is sent by an awaited `sendThrottled`, from `k` processes over
      the run, then its mailbox and its messages in the work queue hold at most `19 + k`. */
  lemma BackPressureBound(s: State, a: Address, k: nat)
    requires PressureOk(s) && a !in s.past.plain && |Senders(s.past, a)| <= k
    ensures Load(s, a) <= 19 + k
  {
    hide Pressure, Load, Clocks, Senders;
    assert PressureAt(s, a);
  }
}
