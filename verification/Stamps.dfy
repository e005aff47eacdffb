/** Resume stamps: who will be woken, by what, and that nothing stale wakes anybody. */
module Stamps {
  import opened Options
  import opened Mailboxes
  import opened Scheduler
  import opened PidTable

  datatype Clock = Clock(resumes: nat, waiting: Wait)

  function Clocks(procs: map<Pid, Proc>): map<Pid, Clock> {
    map p | p in procs :: Clock(procs[p].resumes, procs[p].waiting)
  }

  /** How many items with its pid and resume count a live process has in the queue. */
  function Due(w: Wait): nat {
    if w.NotStarted? || w.Yielding? then 1 else 0
  }

  ghost predicate QueueOk(queue: seq<Item>, clocks: map<Pid, Clock>, table: seq<Option<Pid>>, born: set<Pid>) {
    && (forall p :: p in clocks ==>
          var n := multiset(queue)[Resume(p, clocks[p].resumes)];
          n <= Due(clocks[p].waiting) && (InTable(table, p) ==> n == Due(clocks[p].waiting)))
    && (forall p, stamp: nat :: Resume(p, stamp) in multiset(queue) ==>
          p in born && (p in clocks ==> stamp <= clocks[p].resumes))
  }

  /** A continuation may resume a process that waits so. */
  predicate Awaiting(w: Wait) {
    w.OnThrottle? || w.OnOutside? || (w.Receiving? && w.future)
  }

  /** A continuation that is not stale belongs to a process that waits for one. */
  predicate WaiterOk(w: Waiter, clocks: map<Pid, Clock>, born: set<Pid>) {
    && w.pid in born
    && (w.pid in clocks ==>
          var c := clocks[w.pid];
          w.stamp <= c.resumes && (w.stamp == c.resumes ==> Awaiting(c.waiting)))
  }

  predicate WaitersOk(ws: seq<Waiter>, clocks: map<Pid, Clock>, born: set<Pid>) {
    forall i :: 0 <= i < |ws| ==> WaiterOk(ws[i], clocks, born)
  }

  predicate HeldOk(procs: map<Pid, Proc>, clocks: map<Pid, Clock>, born: set<Pid>) {
    forall p, i :: p in procs && 0 <= i < |procs[p].boxes| ==>
      WaitersOk(Held(procs[p].boxes[i].promise.exec), clocks, born)
  }

  /** Only the process whose body runs is `Running`, as long as it is live. */
  ghost predicate OneRuns(clocks: map<Pid, Clock>, table: seq<Option<Pid>>, running: Option<Pid>) {
    && (running.Some? ==> running.value in clocks && clocks[running.value].waiting.Running?)
    && forall p :: p in clocks && clocks[p].waiting.Running? && InTable(table, p) ==> running == Some(p)
  }

  ghost predicate StampsOk(s: State) {
    var clocks, born := Clocks(s.procs), s.past.born.Keys;
    && QueueOk(s.queue, clocks, s.table, born)
    && WaitersOk(s.posted, clocks, born) && WaitersOk(s.outside, clocks, born) && HeldOk(s.procs, clocks, born)
    && OneRuns(clocks, s.table, s.running)
  }

  // ---------------------------------------------------------------- the queue

  lemma QueueMail(queue: seq<Item>, l: Letter, clocks: map<Pid, Clock>, table: seq<Option<Pid>>, born: set<Pid>)
    requires QueueOk(queue, clocks, table, born)
    ensures QueueOk(queue + [Mail(l)], clocks, table, born)
  {
    assert multiset(queue + [Mail(l)]) == multiset(queue) + multiset{Mail(l)};
  }

  lemma {:induction false} QueueMails(queue: seq<Item>, ls: seq<Letter>, clocks: map<Pid, Clock>,
          table: seq<Option<Pid>>, born: set<Pid>)
    requires QueueOk(queue, clocks, table, born)
    ensures QueueOk(queue + Mails(ls), clocks, table, born)
    decreases |ls|
  {
    hide QueueOk;
    if ls != [] {
      var one := queue + [Mail(ls[0])];
      QueueMail(queue, ls[0], clocks, table, born);
      QueueMails(one, ls[1..], clocks, table, born);
      assert one + Mails(ls[1..]) == queue + Mails(ls);
    } else {
      assert queue + [] == queue;
    }
  }

  lemma QueueYield(queue: seq<Item>, clocks: map<Pid, Clock>, table: seq<Option<Pid>>, born: set<Pid>, p: Pid, w: Wait)
    requires QueueOk(queue, clocks, table, born) && p in clocks && p in born
    requires Due(clocks[p].waiting) == 0 && Due(w) == 1
    ensures QueueOk(queue + [Resume(p, clocks[p].resumes)], clocks[p := Clock(clocks[p].resumes, w)], table, born)
  {
    var it := Resume(p, clocks[p].resumes);
    assert multiset(queue + [it]) == multiset(queue) + multiset{it};
  }

  lemma QueueWait(queue: seq<Item>, clocks: map<Pid, Clock>, table: seq<Option<Pid>>, born: set<Pid>, p: Pid, w: Wait)
    requires QueueOk(queue, clocks, table, born) && p in clocks
    requires Due(clocks[p].waiting) == 0 && Due(w) == 0
    ensures QueueOk(queue, clocks[p := Clock(clocks[p].resumes, w)], table, born)
  {
  }

  lemma QueueBegin(queue: seq<Item>, clocks: map<Pid, Clock>, table: seq<Option<Pid>>, born: set<Pid>, p: Pid, w: Wait)
    requires QueueOk(queue, clocks, table, born) && p in clocks && Due(w) == 0
    ensures QueueOk(queue, clocks[p := Clock(clocks[p].resumes + 1, w)], table, born)
  {
  }

  /** An item that is a letter, or stale, is taken off the queue. */
  lemma QueuePop(queue: seq<Item>, clocks: map<Pid, Clock>, table: seq<Option<Pid>>, born: set<Pid>)
    requires QueueOk(queue, clocks, table, born) && queue != []
    requires queue[0].Resume? ==>
      var p := queue[0].pid; p !in clocks || clocks[p].resumes != queue[0].stamp || !InTable(table, p)
    ensures QueueOk(queue[1..], clocks, table, born)
  {
    assert queue == [queue[0]] + queue[1..];
    assert multiset(queue) == multiset{queue[0]} + multiset(queue[1..]);
  }

  /** A current item is taken off, and its process begins to run. */
  lemma QueueWake(queue: seq<Item>, clocks: map<Pid, Clock>, table: seq<Option<Pid>>, born: set<Pid>, w: Wait)
    requires QueueOk(queue, clocks, table, born) && queue != [] && queue[0].Resume? && Due(w) == 0
    requires var p := queue[0].pid; p in clocks && clocks[p].resumes == queue[0].stamp
    ensures var p := queue[0].pid;
      && Due(clocks[p].waiting) == 1
      && QueueOk(queue[1..], clocks[p := Clock(clocks[p].resumes + 1, w)], table, born)
  {
    assert queue == [queue[0]] + queue[1..];
    assert multiset(queue) == multiset{queue[0]} + multiset(queue[1..]);
  }

  lemma QueueSpawn(queue: seq<Item>, clocks: map<Pid, Clock>, table: seq<Option<Pid>>, born: set<Pid>, p: Pid,
          table': seq<Option<Pid>>)
    requires QueueOk(queue, clocks, table, born) && p !in born && p !in clocks
    requires forall q :: InTable(table', q) <==> InTable(table, q) || q == p
    ensures QueueOk(queue + [Resume(p, 0)], clocks[p := Clock(0, NotStarted)], table', born + {p})
  {
    var it := Resume(p, 0);
    assert it !in multiset(queue);
    assert multiset(queue + [it]) == multiset(queue) + multiset{it};
  }

  lemma QueueFewer(queue: seq<Item>, clocks: map<Pid, Clock>, table: seq<Option<Pid>>, born: set<Pid>,
          clocks': map<Pid, Clock>, table': seq<Option<Pid>>)
    requires QueueOk(queue, clocks, table, born)
    requires forall q :: InTable(table', q) ==> InTable(table, q)
    requires forall q :: q in clocks' ==> q in clocks && clocks'[q] == clocks[q]
    ensures QueueOk(queue, clocks', table', born)
  {
  }

  // ---------------------------------------------------------------- continuations

  /** Clocks move on without making a continuation current. */
  predicate Onward(clocks: map<Pid, Clock>, born: set<Pid>, clocks': map<Pid, Clock>, born': set<Pid>) {
    && born <= born'
    && forall p :: p in clocks' && p in born ==>
         p in clocks && (clocks'[p] == clocks[p] || clocks'[p].resumes > clocks[p].resumes ||
                         (clocks'[p].resumes == clocks[p].resumes && clocks[p].waiting.Running?))
  }

  lemma WaitersOnward(ws: seq<Waiter>, clocks: map<Pid, Clock>, born: set<Pid>, clocks': map<Pid, Clock>,
          born': set<Pid>)
    requires WaitersOk(ws, clocks, born) && Onward(clocks, born, clocks', born')
    ensures WaitersOk(ws, clocks', born')
  {
    forall i | 0 <= i < |ws| ensures WaiterOk(ws[i], clocks', born') {
      assert WaiterOk(ws[i], clocks, born);
    }
  }

  lemma HeldOnward(procs: map<Pid, Proc>, clocks: map<Pid, Clock>, born: set<Pid>, clocks': map<Pid, Clock>,
          born': set<Pid>)
    requires HeldOk(procs, clocks, born) && Onward(clocks, born, clocks', born')
    ensures HeldOk(procs, clocks', born')
  {
    forall p, i | p in procs && 0 <= i < |procs[p].boxes|
      ensures WaitersOk(Held(procs[p].boxes[i].promise.exec), clocks', born')
    {
      WaitersOnward(Held(procs[p].boxes[i].promise.exec), clocks, born, clocks', born');
    }
  }

  lemma WaitersJoin(a: seq<Waiter>, b: seq<Waiter>, clocks: map<Pid, Clock>, born: set<Pid>)
    requires WaitersOk(a, clocks, born) && WaitersOk(b, clocks, born)
    ensures WaitersOk(a + b, clocks, born)
  {
  }

  lemma WaitersRemove(ws: seq<Waiter>, k: nat, clocks: map<Pid, Clock>, born: set<Pid>)
    requires WaitersOk(ws, clocks, born)
    ensures WaitersOk(RemoveAt(ws, k), clocks, born)
  {
  }

  /** The continuation of a box is replaced. */
  lemma HeldPut(s: State, a: Address, b: Box, clocks: map<Pid, Clock>, born: set<Pid>)
    requires HeldOk(s.procs, clocks, born) && WaitersOk(Held(b.promise.exec), clocks, born)
    ensures HeldOk(PutBox(s, a, b).procs, clocks, born) && Clocks(PutBox(s, a, b).procs) == Clocks(s.procs)
  {
    hide WaitersOk, SameLinks, SameProcesses;
  }

  lemma HeldAt(s: State, a: Address, clocks: map<Pid, Clock>, born: set<Pid>)
    requires HeldOk(s.procs, clocks, born)
    ensures WaitersOk(Held(BoxAt(s, a).promise.exec), clocks, born)
  {
  }

  // ---------------------------------------------------------------- steps of a running body

  lemma SameWaiters(s: State, t: State)
    requires HeldOk(s.procs, Clocks(s.procs), s.past.born.Keys)
    requires t.procs.Keys == s.procs.Keys
    requires forall p :: p in s.procs ==>
      && t.procs[p].resumes == s.procs[p].resumes && t.procs[p].waiting == s.procs[p].waiting
      && t.procs[p].boxes == s.procs[p].boxes
    ensures Clocks(t.procs) == Clocks(s.procs) && HeldOk(t.procs, Clocks(s.procs), s.past.born.Keys)
  {
    assert forall p :: p in t.procs <==> p in t.procs.Keys;
    assert forall p :: p in s.procs <==> p in s.procs.Keys;
  }

  lemma AddKillStamps(s: State, p: Pid, q: Pid)
    requires StampsOk(s) && p in s.procs
    ensures StampsOk(AddKill(s, p, q))
  {
    SameWaiters(s, AddKill(s, p, q));
    hide QueueOk, WaitersOk, HeldOk, Clocks, OneRuns, SameLinks;
  }

  lemma SendStamps(s: State, l: Letter)
    requires StampsOk(s)
    ensures StampsOk(QueueSend(s, l)) && StampsOk(SendPlainStep(s, l))
  {
    QueueMails(s.queue, [l], Clocks(s.procs), s.table, s.past.born.Keys);
    assert Mails([l]) == [Mail(l)];
    hide QueueOk, WaitersOk, HeldOk, Clocks, OneRuns, SameLinks;
  }

  /** The process whose body runs changes from one state of running to another. */
  lemma RunStamps(s: State, p: Pid, pending: Option<Letter>)
    requires StampsOk(s) && s.running == Some(p)
    ensures StampsOk(PutWait(s, p, Running(pending)))
  {
    var t, w := PutWait(s, p, Running(pending)), Running(pending);
    ClocksPut(s, p, w);
    var clocks, after, born := Clocks(s.procs), Clocks(t.procs), s.past.born.Keys;
    QueueWait(s.queue, clocks, s.table, born, p, w);
    WaitersOnward(s.posted, clocks, born, after, born);
    WaitersOnward(s.outside, clocks, born, after, born);
    HeldOnward(t.procs, clocks, born, after, born);
    hide QueueOk, WaitersOk, HeldOk, Clocks, SameLinks, Onward;
  }

  lemma ClocksPut(s: State, p: Pid, w: Wait)
    requires p in s.procs
    ensures Clocks(PutWait(s, p, w).procs) == Clocks(s.procs)[p := Clock(s.procs[p].resumes, w)]
    ensures Clocks(s.procs)[p] == Clock(s.procs[p].resumes, s.procs[p].waiting)
    ensures forall q :: q in Clocks(s.procs) <==> q in s.procs
    ensures s.procs[p].waiting.Running? ==>
      Onward(Clocks(s.procs), s.past.born.Keys, Clocks(PutWait(s, p, w).procs), s.past.born.Keys)
    ensures HeldOk(s.procs, Clocks(s.procs), s.past.born.Keys) ==>
      HeldOk(PutWait(s, p, w).procs, Clocks(s.procs), s.past.born.Keys)
  {
    hide WaitersOk, SameLinks, SameProcesses;
  }

  lemma TakeStamps(s: State, p: Pid, slot: nat)
    requires StampsOk(s)
    ensures StampsOk(TakeStep(s, p, slot))
  {
    var a := Address(p, slot);
    if BoxAt(s, a).contents != [] {
      var r := Pop(BoxAt(s, a));
      var clocks, born := Clocks(s.procs), s.past.born.Keys;
      HeldAt(s, a, clocks, born);
      PopHeld(BoxAt(s, a));
      HeldPut(s, a, r.box, clocks, born);
      WaitersJoin(s.posted, r.posted, clocks, born);
      hide QueueOk, WaitersOk, HeldOk, Clocks, OneRuns, SameLinks, PutBox, BoxAt;
    }
  }

  /** Taking a message posts the continuation of its box, or keeps it there. */
  lemma PopHeld(b: Box)
    requires b.contents != []
    ensures var r := Pop(b); forall clocks, born :: WaitersOk(Held(b.promise.exec), clocks, born) ==>
      WaitersOk(r.posted, clocks, born) && WaitersOk(Held(r.box.promise.exec), clocks, born)
  {
  }

  /** All but the queue, with given clocks. */
  ghost predicate HoldersOk(s: State, clocks: map<Pid, Clock>) {
    && WaitersOk(s.posted, clocks, s.past.born.Keys) && WaitersOk(s.outside, clocks, s.past.born.Keys)
    && HeldOk(s.procs, clocks, s.past.born.Keys) && OneRuns(clocks, s.table, s.running)
  }

  /** The running body stops. */
  lemma StopStamps(s: State, p: Pid, w: Wait)
    requires StampsOk(s) && s.running == Some(p) && !w.Running?
    ensures HoldersOk(PutWait(s, p, w).(running := None), Clocks(PutWait(s, p, w).procs))
  {
    var t := PutWait(s, p, w);
    ClocksPut(s, p, w);
    var clocks, after, born := Clocks(s.procs), Clocks(t.procs), s.past.born.Keys;
    assert OneRuns(after, s.table, None);
    hide OneRuns, Clocks, QueueOk, HeldOk, WaitersOk, Onward, SameLinks;
    WaitersOnward(s.posted, clocks, born, after, born);
    WaitersOnward(s.outside, clocks, born, after, born);
    HeldOnward(t.procs, clocks, born, after, born);
  }

  lemma StopQueue(s: State, p: Pid, w: Wait)
    requires StampsOk(s) && s.running == Some(p) && p in s.past.born && !w.Running? && !w.NotStarted?
    ensures var clocks := Clocks(PutWait(s, p, w).procs);
      && p in clocks && clocks[p] == Clock(At(s, p).resumes, w)
      && QueueOk(SuspendStep(s, p, w).queue, clocks, s.table, s.past.born.Keys)
  {
    ClocksPut(s, p, w);
    var clocks, born := Clocks(s.procs), s.past.born.Keys;
    assert s.procs[p].waiting.Running?;
    assert s.queue + [] == s.queue;
    hide Clocks, QueueOk, HeldOk, WaitersOk, Onward, SameLinks, SuspendStep, PutWait;
    if w.Yielding? {
      QueueYield(s.queue, clocks, s.table, born, p, w);
    } else {
      QueueWait(s.queue, clocks, s.table, born, p, w);
    }
  }

  /** A continuation is given to the promise of a box. */
  lemma ThrottleHolders(s: State, a: Address, me: Waiter, clocks: map<Pid, Clock>)
    requires HoldersOk(s, clocks) && WaiterOk(me, clocks, s.past.born.Keys)
    ensures var r := Continued(BoxAt(s, a).promise, me);
            var t := PutBox(s, a, BoxAt(s, a).(promise := r.signal)).(posted := s.posted + r.posted);
      HoldersOk(t, clocks) && Clocks(t.procs) == Clocks(s.procs)
  {
    var r := Continued(BoxAt(s, a).promise, me);
    var born := s.past.born.Keys;
    assert WaitersOk(r.posted, clocks, born) && WaitersOk(Held(r.signal.exec), clocks, born);
    HeldPut(s, a, BoxAt(s, a).(promise := r.signal), clocks, born);
    WaitersJoin(s.posted, r.posted, clocks, born);
    hide WaitersOk, HeldOk, BoxAt, PutBox, OneRuns, Clocks, SameLinks;
  }

  lemma StopsBody(s: State, p: Pid, w: Wait)
    requires MayWait(s, p, w)
    ensures !w.Running? && !w.NotStarted?
  {
  }

  lemma SuspendStamps(s: State, p: Pid, w: Wait)
    requires StampsOk(s) && s.running == Some(p) && p in s.past.born && MayWait(s, p, w)
    ensures StampsOk(SuspendStep(s, p, w))
  {
    hide MayWait, QueueOk, WaitersOk, HeldOk, OneRuns, Clocks, PutBox, BoxAt, SameLinks, SameProcesses;
    StopsBody(s, p, w);
    StopStamps(s, p, w);
    StopQueue(s, p, w);
    var t := PutWait(s, p, w).(running := None);
    var me := Waiter(p, At(s, p).resumes);
    var clocks := Clocks(t.procs);
    if w.OnThrottle? {
      ThrottleHolders(t, w.letter.to, me, clocks);
    } else if Awaiting(w) {
      OneWaiter(me, clocks, s.past.born.Keys);
      WaitersJoin(s.outside, [me], clocks, s.past.born.Keys);
    }
  }

  lemma OneWaiter(w: Waiter, clocks: map<Pid, Clock>, born: set<Pid>)
    requires WaiterOk(w, clocks, born)
    ensures WaitersOk([w], clocks, born)
  {
  }

  // ---------------------------------------------------------------- steps of the context

  lemma DoomStamps(s: State, q: Pid)
    requires StampsOk(s)
    ensures StampsOk(DoomStep(s, q))
    ensures s.running == Some(q) ==> StampsOk(FinishStep(s, q))
  {
    var clocks := Clocks(s.procs);
    DoomGone(s, q);
    QueueFewer(s.queue, clocks, s.table, s.past.born.Keys, clocks, DoomStep(s, q).table);
    hide QueueOk, WaitersOk, HeldOk, Clocks, SameLinks;
  }

  /** What a resume does before it moves the clock of its process. */
  lemma ProcessHolders(s: State, a: Address, clocks: map<Pid, Clock>)
    requires HoldersOk(s, clocks)
    ensures var t := PutBox(s, a, BoxAt(s, a).(promise := Processed(BoxAt(s, a).promise)));
      HoldersOk(t, clocks) && Clocks(t.procs) == Clocks(s.procs)
  {
    HeldAt(s, a, clocks, s.past.born.Keys);
    assert WaitersOk(Held(Processed(BoxAt(s, a).promise).exec), clocks, s.past.born.Keys);
    HeldPut(s, a, BoxAt(s, a).(promise := Processed(BoxAt(s, a).promise)), clocks, s.past.born.Keys);
    hide WaitersOk, HeldOk, BoxAt, PutBox, OneRuns, Clocks, SameLinks;
  }

  lemma ClockMoves(s: State, p: Pid, pending: Option<Letter>)
    requires p in s.procs && s.running.None? && HoldersOk(s, Clocks(s.procs))
    ensures var proc := At(s, p).(resumes := At(s, p).resumes + 1, waiting := Running(pending));
            var u := Put(s, p, proc).(running := Some(p));
      && Clocks(u.procs) == Clocks(s.procs)[p := Clock(At(s, p).resumes + 1, Running(pending))]
      && HoldersOk(u, Clocks(u.procs))
  {
    var u := Put(s, p, At(s, p).(resumes := At(s, p).resumes + 1, waiting := Running(pending))).(running := Some(p));
    var clocks, after, born := Clocks(s.procs), Clocks(u.procs), s.past.born.Keys;
    ClocksMove(s.procs, p, Running(pending), born);
    assert OneRuns(after, s.table, Some(p));
    hide OneRuns, Clocks, HeldOk, WaitersOk, SameLinks, SameProcesses;
    WaitersOnward(s.posted, clocks, born, after, born);
    WaitersOnward(s.outside, clocks, born, after, born);
    HeldOnward(u.procs, clocks, born, after, born);
  }

  lemma ClocksMove(procs: map<Pid, Proc>, p: Pid, w: Wait, born: set<Pid>)
    requires p in procs
    ensures var n := procs[p].resumes + 1;
            var after := procs[p := procs[p].(resumes := n, waiting := w)];
      && Clocks(after) == Clocks(procs)[p := Clock(n, w)]
      && Onward(Clocks(procs), born, Clocks(after), born)
      && (HeldOk(procs, Clocks(procs), born) ==> HeldOk(after, Clocks(procs), born))
  {
    hide WaitersOk;
  }

  /** A resume up to the body, of a process no item of which is current any more. */
  lemma BeginStamps(s: State, p: Pid)
    requires p in s.procs && s.running.None? && HoldersOk(s, Clocks(s.procs))
    requires var c := Clock(s.procs[p].resumes + 1, Running(PendingOf(s.procs[p].waiting)));
      QueueOk(s.queue, Clocks(s.procs)[p := c], s.table, s.past.born.Keys)
    ensures StampsOk(BeginStep(s, p))
  {
    hide OneRuns, Clocks, HeldOk, WaitersOk, QueueOk, SameLinks, PutBox, BoxAt;
    var w := s.procs[p].waiting;
    var t := if w.OnThrottle? then
               var a, b := w.letter.to, BoxAt(s, w.letter.to);
               PutBox(s, a, b.(promise := Processed(b.promise)))
             else s;
    if w.OnThrottle? {
      ProcessHolders(s, w.letter.to, Clocks(s.procs));
    }
    ClocksAt(s, p);
    ClocksAt(t, p);
    ClockMoves(t, p, PendingOf(w));
  }

  lemma ClocksAt(s: State, p: Pid)
    ensures p in Clocks(s.procs) <==> p in s.procs
    ensures p in s.procs ==> Clocks(s.procs)[p] == Clock(s.procs[p].resumes, s.procs[p].waiting)
  {
  }

  lemma PopStamps(s: State)
    requires StampsOk(s) && s.queue != [] && Stale(s, s.queue[0])
    ensures StampsOk(PopItem(s))
  {
    if s.queue[0].Resume? {
      ClocksAt(s, s.queue[0].pid);
    }
    hide OneRuns, Clocks, HeldOk, WaitersOk, QueueOk, SameLinks;
    QueuePop(s.queue, Clocks(s.procs), s.table, s.past.born.Keys);
  }

  lemma DeliverStamps(s: State)
    requires StampsOk(s) && s.queue != [] && s.queue[0].Mail?
    ensures StampsOk(DeliverStep(s))
  {
    var l, clocks := s.queue[0].letter, Clocks(s.procs);
    var t := PopItem(s);
    HeldAt(s, l.to, clocks, s.past.born.Keys);
    HeldPut(t, l.to, Push(BoxAt(s, l.to), l.m), clocks, s.past.born.Keys);
    hide OneRuns, Clocks, HeldOk, WaitersOk, QueueOk, SameLinks, PutBox, BoxAt;
    QueuePop(s.queue, clocks, s.table, s.past.born.Keys);
  }

  /** A process that is resumed by no item of its own had none due. */
  lemma BeginUndue(s: State, p: Pid)
    requires StampsOk(s) && p in s.procs && s.running.None? && Due(s.procs[p].waiting) == 0
    ensures StampsOk(BeginStep(s, p))
  {
    hide OneRuns, Clocks, HeldOk, WaitersOk, QueueOk;
    ClocksAt(s, p);
    QueueBegin(s.queue, Clocks(s.procs), s.table, s.past.born.Keys, p, Running(PendingOf(s.procs[p].waiting)));
    hide BeginStep;
    BeginStamps(s, p);
  }

  lemma WakeStamps(s: State)
    requires StampsOk(s) && s.running.None? && s.queue != [] && s.queue[0].Resume?
    requires Current(s, s.queue[0].pid, s.queue[0].stamp) && s.queue[0].pid in s.procs
    ensures StampsOk(BeginStep(PopItem(s), s.queue[0].pid)) && Due(At(s, s.queue[0].pid).waiting) == 1
  {
    hide OneRuns, Clocks, HeldOk, WaitersOk, QueueOk, BeginStep;
    var p := s.queue[0].pid;
    ClocksAt(s, p);
    QueueWake(s.queue, Clocks(s.procs), s.table, s.past.born.Keys, Running(PendingOf(s.procs[p].waiting)));
    BeginStamps(PopItem(s), p);
  }

  /** A continuation that is not stale finds its process waiting for one. */
  lemma ContinuationMeets(s: State, k: nat)
    requires StampsOk(s) && k < |s.posted| && Current(s, s.posted[k].pid, s.posted[k].stamp)
    requires s.posted[k].pid in s.procs
    ensures Awaiting(At(s, s.posted[k].pid).waiting)
  {
    ClocksAt(s, s.posted[k].pid);
    hide OneRuns, Clocks, HeldOk, QueueOk;
    assert WaiterOk(s.posted[k], Clocks(s.procs), s.past.born.Keys);
  }

  lemma ContinuationStamps(s: State, k: nat)
    requires StampsOk(s) && s.running.None? && k < |s.posted| && forall p :: Live(s, p) ==> p in s.procs
    ensures StampsOk(ContinuationStep(s, k))
  {
    var p, t := s.posted[k].pid, s.(posted := RemoveAt(s.posted, k));
    WaitersRemove(s.posted, k, Clocks(s.procs), s.past.born.Keys);
    hide OneRuns, Clocks, HeldOk, WaitersOk, QueueOk, SameLinks, SameProcesses, BeginStep, RemoveAt, Live;
    if Current(s, p, s.posted[k].stamp) {
      ContinuationMeets(s, k);
      BeginUndue(t, p);
    }
  }

  lemma FireStamps(s: State, k: nat)
    requires StampsOk(s) && k < |s.outside|
    ensures StampsOk(FireStep(s, k))
  {
    var clocks, born := Clocks(s.procs), s.past.born.Keys;
    WaitersRemove(s.outside, k, clocks, born);
    assert WaiterOk(s.outside[k], clocks, born);
    OneWaiter(s.outside[k], clocks, born);
    hide OneRuns, Clocks, HeldOk, WaitersOk, QueueOk, SameLinks, SameProcesses, RemoveAt;
    WaitersJoin(s.posted, [s.outside[k]], clocks, born);
  }

  lemma SpawnAloneStamps(s: State, slots: nat, notify: seq<Address>)
    requires StampsOk(s) && TableOk(s)
    ensures StampsOk(SpawnAlone(s, slots, notify))
  {
    var p, t := NextPid(s), SpawnAlone(s, slots, notify);
    var clocks, born, after := Clocks(s.procs), s.past.born.Keys, Clocks(t.procs);
    TableFacts(s);
    SpawnAloneChanges(s, slots, notify);
    SpawnedIsOk(s, p, t);
    ClocksAt(s, p);
    NewHolds(s, slots, notify);
    hide TableOk, Clocks, HeldOk, WaitersOk, QueueOk, SameLinks, NextPid, Onward;
    QueueSpawn(s.queue, clocks, s.table, born, p, t.table);
    WaitersOnward(s.posted, clocks, born, after, born + {p});
    WaitersOnward(s.outside, clocks, born, after, born + {p});
    HeldOnward(t.procs, clocks, born, after, born + {p});
  }

  lemma NewHolds(s: State, slots: nat, notify: seq<Address>)
    requires NextPid(s) !in s.past.born && NextPid(s) !in s.procs
    requires HeldOk(s.procs, Clocks(s.procs), s.past.born.Keys)
    ensures var p, t := NextPid(s), SpawnAlone(s, slots, notify);
      && Clocks(t.procs) == Clocks(s.procs)[p := Clock(0, NotStarted)]
      && HeldOk(t.procs, Clocks(s.procs), s.past.born.Keys)
      && Onward(Clocks(s.procs), s.past.born.Keys, Clocks(t.procs), s.past.born.Keys + {p})
      && t.queue == s.queue + [Resume(p, 0)] && t.posted == s.posted && t.outside == s.outside
  {
    hide SameLinks, NextPid;
  }

  lemma SpawnStamps(s: State, slots: nat, parent: Option<Pid>, both: bool, notify: seq<Address>)
    requires StampsOk(s) && TableOk(s) && (parent.Some? ==> parent.value in s.procs)
    ensures StampsOk(SpawnStep(s, slots, parent, both, notify))
  {
    hide TableOk, StampsOk, SpawnAlone, AddKill, NextPid, Live, SameLinks;
    var p, t := NextPid(s), SpawnAlone(s, slots, notify);
    TableFacts(s);
    SpawnAloneStamps(s, slots, notify);
    SpawnAloneChanges(s, slots, notify);
    assert forall q :: q in t.procs <==> q in t.procs.Keys;
    if parent.Some? {
      var r := parent.value;
      if both {
        AddKillStamps(t, p, r);
        AddKillStamps(AddKill(t, p, r), r, p);
      } else {
        AddKillStamps(t, r, p);
      }
    }
  }

  lemma WakesOk(boxes: seq<Box>, clocks: map<Pid, Clock>, born: set<Pid>)
    requires forall i :: 0 <= i < |boxes| ==> WaitersOk(Held(boxes[i].promise.exec), clocks, born)
    ensures WaitersOk(Wakes(boxes), clocks, born)
    decreases |boxes|
  {
    if boxes != [] {
      WakesOk(boxes[1..], clocks, born);
      assert WaitersOk(Fired(boxes[0].promise).posted, clocks, born);
      hide WaiterOk;
      WaitersJoin(Fired(boxes[0].promise).posted, Wakes(boxes[1..]), clocks, born);
    }
  }

  lemma BuryStamps(s: State)
    requires StampsOk(s) && s.running.None? && MayBury(s) && s.doomed[0] in s.procs && !Live(s, s.doomed[0])
    ensures StampsOk(BuryStep(s))
  {
    var f, t := s.doomed[0], BuryStep(s);
    var clocks, born, after := Clocks(s.procs), s.past.born.Keys, Clocks(t.procs);
    WakesOk(s.procs[f].boxes, clocks, born);
    WithoutOne(s.procs, f, born);
    assert t.procs == s.procs - {f} && t.table == s.table && t.running.None? && t.past.born.Keys == born;
    assert OneRuns(after, t.table, None);
    hide Clocks, HeldOk, WaitersOk, QueueOk, Onward, OneRuns, SameLinks, Notices, Mails, Wakes;
    QueueMails(s.queue, Notices(f, At(s, f).notifyOnDie), clocks, s.table, born);
    QueueFewer(t.queue, clocks, s.table, born, after, t.table);
    WaitersJoin(s.posted, Wakes(s.procs[f].boxes), clocks, born);
    WaitersOnward(t.posted, clocks, born, after, born);
    WaitersOnward(t.outside, clocks, born, after, born);
    HeldOnward(t.procs, clocks, born, after, born);
  }

  lemma WithoutOne(procs: map<Pid, Proc>, f: Pid, born: set<Pid>)
    requires HeldOk(procs, Clocks(procs), born)
    ensures var after := procs - {f};
      && Clocks(after) == Clocks(procs) - {f} && Onward(Clocks(procs), born, Clocks(after), born)
      && HeldOk(after, Clocks(procs), born)
  {
    hide WaitersOk;
  }

  lemma BodyStamps(s: State, m: Step)
    requires StampsOk(s) && TableOk(s) && Enabled(s, m) && OfBody(m)
    ensures StampsOk(Next(s, m))
  {
    hide StampsOk, TableOk, SpawnStep, AddKill, TakeStep, SuspendStep, SendPlainStep, QueueSend, PassStep, PutWait,
         Full, Live, MayWait, Addressable, BoxAt;
    TableFacts(s);
    match m
    case Spawn(slots, parent, both, notify) => SpawnStamps(s, slots, parent, both, notify);
    case Link(p, q) =>
      AddKillStamps(s, p, q);
      AddKillStamps(AddKill(s, p, q), q, p);
    case SendPlain(l) => SendStamps(s, l);
    case Pass(p, l) => PassStamps(s, p, l);
    case SendOn(p) =>
      RunStamps(s, p, None);
      SendStamps(PutWait(s, p, Running(None)), At(s, p).waiting.pending.value);
    case Take(p, slot) => TakeStamps(s, p, slot);
    case Suspend(p, w) => SuspendStamps(s, p, w);
  }

  lemma LoopStamps(s: State, m: Step)
    requires StampsOk(s) && TableOk(s) && Enabled(s, m) && !OfBody(m)
    ensures StampsOk(Next(s, m))
  {
    hide StampsOk, TableOk, DoomStep, FinishStep, BuryStep, BeginStep, DeliverStep, PopItem, FireStep,
         ContinuationStep, WaitingFor, Live;
    TableFacts(s);
    NotDestroyed(s);
    match m
    case Doom(q) => DoomStamps(s, q);
    case Finish(p) => DoomStamps(s, p);
    case Drop => PopStamps(s);
    case Deliver => DeliverStamps(s);
    case DeliverWake => DeliverWakeStamps(s);
    case WakeItem => WakeStamps(s);
    case Continuation(k) => ContinuationStamps(s, k);
    case Timer(q) => BeginUndue(s, q);
    case Fire(k) => FireStamps(s, k);
    case Bury => BuryStamps(s);
  }

  /** The stamps are kept by every step. */
  lemma StampsKept(s: State, m: Step)
    requires StampsOk(s) && TableOk(s) && Enabled(s, m)
    ensures StampsOk(Next(s, m))
  {
    hide *;
    if OfBody(m) {
      BodyStamps(s, m);
    } else {
      LoopStamps(s, m);
    }
  }

  lemma PassStamps(s: State, p: Pid, l: Letter)
    requires StampsOk(s) && s.running == Some(p)
    ensures StampsOk(PassStep(s, p, l))
  {
    hide QueueOk, WaitersOk, HeldOk, OneRuns, Clocks, PutWait;
    RunStamps(s, p, Some(l));
  }

  lemma DeliverWakeStamps(s: State)
    requires StampsOk(s) && s.running.None? && s.queue != [] && s.queue[0].Mail? && WaitingFor(s, s.queue[0].letter.to)
    requires s.queue[0].letter.to.pid in s.procs
    ensures StampsOk(BeginStep(DeliverStep(s), s.queue[0].letter.to.pid))
  {
    var p := s.queue[0].letter.to.pid;
    var t := DeliverStep(s);
    assert p in t.procs && t.procs[p].waiting == s.procs[p].waiting;
    hide StampsOk, DeliverStep, BeginStep;
    DeliverStamps(s);
    BeginUndue(t, p);
  }

  // ---------------------------------------------------------------- what it means

  /** Resumes never nest: while one body runs, no other live process has one that runs. */
  lemma OnlyOneRuns(s: State, p: Pid)
    requires StampsOk(s) && TableOk(s) && Live(s, p) && At(s, p).waiting.Running?
    ensures s.running == Some(p)
  {
    TableFacts(s);
    ClocksAt(s, p);
    hide Clocks, QueueOk, WaitersOk, HeldOk;
  }

  /** How often a process has an item in the queue that would resume it. */
  function Wakeups(s: State, p: Pid): nat {
    multiset(s.queue)[Resume(p, At(s, p).resumes)]
  }

  /** A live process has a wake-up in the queue exactly when it has not started or waits
      for one, and never has two. */
  lemma WakeupsExact(s: State, p: Pid)
    requires StampsOk(s) && TableOk(s) && Live(s, p)
    ensures Wakeups(s, p) == if At(s, p).waiting.NotStarted? || At(s, p).waiting.Yielding? then 1 else 0
  {
    TableFacts(s);
    ClocksAt(s, p);
    hide Clocks, WaitersOk, HeldOk, OneRuns;
  }

  // ---------------------------------------------------------------- resume counts

  /** `p` has been resumed `n` times more; it waits for the same if it was not. */
  predicate Ticks(s: State, t: State, p: Pid, n: nat) {
    && p in t.procs && At(t, p).resumes == At(s, p).resumes + n
    && (n == 0 ==> At(t, p).waiting == At(s, p).waiting)
  }

  lemma BeginTicks(s: State, q: Pid, p: Pid)
    requires p in s.procs
    ensures Ticks(s, BeginStep(s, q), p, if p == q then 1 else 0)
  {
    hide SameLinks, SameProcesses;
  }

  lemma BoxTicks(s: State, q: Pid, slot: nat, p: Pid)
    requires p in s.procs
    ensures Ticks(s, TakeStep(s, q, slot), p, 0) && Ticks(s, DeliverStep(s), p, 0)
  {
    hide SameLinks, SameProcesses;
  }

  lemma SpawnTicks(s: State, slots: nat, parent: Option<Pid>, both: bool, notify: seq<Address>, p: Pid)
    requires p in s.procs && p != NextPid(s) && (parent.Some? ==> parent.value in s.procs)
    ensures Ticks(s, SpawnStep(s, slots, parent, both, notify), p, 0)
  {
    hide SameLinks, SameProcesses, NextPid;
  }

  lemma LinkTicks(s: State, q: Pid, r: Pid, p: Pid)
    requires p in s.procs && q in s.procs && r in s.procs
    ensures Ticks(s, LinkStep(s, q, r), p, 0)
  {
    hide SameLinks, SameProcesses;
  }

  /** Whom a step resumes. */
  function Woken(s: State, m: Step): Option<Pid> {
    match m
    case DeliverWake => if s.queue != [] && s.queue[0].Mail? then Some(s.queue[0].letter.to.pid) else None
    case WakeItem => if s.queue != [] && s.queue[0].Resume? then Some(s.queue[0].pid) else None
    case Continuation(k) =>
      if k < |s.posted| && Current(s, s.posted[k].pid, s.posted[k].stamp) then Some(s.posted[k].pid) else None
    case Timer(q) => Some(q)
    case _ => None
  }

  /** `p` has been resumed once more if it was `woken`. If not, and if its body does not run,
      it goes on waiting for the same. */
  predicate Advances(s: State, t: State, p: Pid, woken: bool) {
    && At(t, p).resumes == At(s, p).resumes + (if woken then 1 else 0)
    && (s.running != Some(p) && !woken ==> At(t, p).waiting == At(s, p).waiting)
  }

  /** What the body of `q` may do to the clock of `p`. */
  lemma WaitAdvances(s: State, q: Pid, w: Wait, l: Letter, p: Pid)
    requires s.running == Some(q) && p in s.procs && q in s.procs
    ensures Advances(s, SuspendStep(s, q, w), p, false) && Advances(s, PassStep(s, q, l), p, false)
    ensures Advances(s, SendOnStep(s, q), p, false)
  {
    hide SameLinks, SameProcesses;
  }

  /** What the steps of a body are, and that it runs. */
  lemma BodyIs(s: State, m: Step)
    requires Enabled(s, m) && OfBody(m)
    ensures m.Spawn? && m.parent.Some? ==> m.parent.value in s.procs
    ensures m.Spawn? ==> Next(s, m) == SpawnStep(s, m.slots, m.parent, m.both, m.notify)
    ensures m.Link? ==> s.running == Some(m.p) && Live(s, m.q) && Next(s, m) == LinkStep(s, m.p, m.q)
    ensures m.SendPlain? ==> Next(s, m) == SendPlainStep(s, m.l)
    ensures m.Take? ==> Next(s, m) == TakeStep(s, m.p, m.slot)
    ensures m.Pass? ==> s.running == Some(m.p) && Next(s, m) == PassStep(s, m.p, m.l)
    ensures m.SendOn? ==> s.running == Some(m.p) && Next(s, m) == SendOnStep(s, m.p)
    ensures m.Suspend? ==> s.running == Some(m.p) && Next(s, m) == SuspendStep(s, m.p, m.w)
  {
    hide SpawnStep, LinkStep, SendPlainStep, TakeStep, PassStep, SendOnStep, SuspendStep, Live, Addressable, MayWait,
         Full, Free, WaitOnQueue, BoxAt, At;
  }

  lemma BodyAdvances(s: State, m: Step, p: Pid)
    requires TableOk(s) && Enabled(s, m) && p in s.procs && OfBody(m)
    ensures Advances(s, Next(s, m), p, false)
  {
    hide TableOk, SpawnStep, LinkStep, TakeStep, SuspendStep, PassStep, SendOnStep, Live, NextPid, Enabled, Next,
         SameLinks, SameProcesses;
    TableFacts(s);
    BodyIs(s, m);
    match m
    case Spawn(slots, parent, both, notify) => SpawnTicks(s, slots, parent, both, notify, p);
    case Link(q, r) => LinkTicks(s, q, r, p);
    case Take(q, slot) => BoxTicks(s, q, slot, p);
    case Suspend(q, w) => WaitAdvances(s, q, w, Letter(Address(q, 0), Data(0)), p);
    case Pass(q, l) => WaitAdvances(s, q, Sleeping, l, p);
    case SendOn(q) => WaitAdvances(s, q, Sleeping, Letter(Address(q, 0), Data(0)), p);
    case SendPlain(_) =>
  }

  lemma NoneOfBody(s: State, m: Step)
    requires OfBody(m)
    ensures Woken(s, m) == None
  {
  }

  lemma LoopAdvances(s: State, m: Step, p: Pid)
    requires TableOk(s) && Enabled(s, m) && p in s.procs && !OfBody(m)
    ensures p in Next(s, m).procs ==> Advances(s, Next(s, m), p, Woken(s, m) == Some(p))
  {
    hide TableOk, BeginStep, DeliverStep, Live, BoxAt, WaitingFor, SameLinks, SameProcesses, RemoveAt;
    match m
    case Deliver => BoxTicks(s, p, 0, p);
    case DeliverWake =>
      BoxTicks(s, p, 0, p);
      BeginTicks(DeliverStep(s), s.queue[0].letter.to.pid, p);
    case WakeItem => BeginTicks(PopItem(s), s.queue[0].pid, p);
    case Continuation(k) => BeginTicks(s.(posted := RemoveAt(s.posted, k)), s.posted[k].pid, p);
    case Timer(q) => BeginTicks(s, q, p);
    case _ =>
  }

  /** Each resume of a process, and nothing else, adds one to its count; and no other step
      than its own changes its wait. */
  lemma CountsGrow(s: State, m: Step, p: Pid)
    requires TableOk(s) && Enabled(s, m) && p in s.procs && p in Next(s, m).procs
    ensures Advances(s, Next(s, m), p, Woken(s, m) == Some(p))
  {
    hide *;
    if OfBody(m) {
      NoneOfBody(s, m);
      BodyAdvances(s, m, p);
    } else {
      LoopAdvances(s, m, p);
    }
  }

  /** Items and continuations made before a later resume do nothing. */
  lemma StaleIsIdle(s: State, p: Pid, stamp: nat)
    requires stamp != At(s, p).resumes || !Live(s, p)
    ensures s.queue != [] && s.queue[0] == Resume(p, stamp) ==>
      !Enabled(s, WakeItem) && (s.running.None? ==> Enabled(s, Drop))
    ensures forall k :: 0 <= k < |s.posted| && s.posted[k] == Waiter(p, stamp) ==>
      Next(s, Continuation(k)) == s.(posted := RemoveAt(s.posted, k))
  {
    hide WaitingFor, Full, MayWait, AnyReady, Addressable, RemoveAt;
  }
}
