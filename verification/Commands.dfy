/** What each command of a body does, each resume, each item of the queue and each callback. */
module Commands {
  import opened Options
  import opened Mailboxes
  import opened Scheduler
  import opened PidTable
  import opened RunLoop
  import opened Conservation
  import opened Effects

  /** One letter more has been sent, and waits behind all others in the queue. But for the
      wait of `p` nothing else has changed. */
  predicate Sent(s: State, u: State, p: Pid, l: Letter) {
    && u.queue == s.queue + [Mail(l)] && u.past.sent == s.past.sent + [l]
    && p in s.procs && u.procs == s.procs[p := s.procs[p].(waiting := At(u, p).waiting)]
    && u == s.(queue := u.queue, procs := u.procs,
               past := s.past.(sent := u.past.sent, plain := u.past.plain, throttled := u.past.throttled))
  }

  /** The body of `p` has ended: it awaits its destruction if it was still in the table. */
  ghost predicate Ended(s: State, t: State, p: Pid) {
    && (forall r :: Live(t, r) <==> Live(s, r) && r != p)
    && t.doomed == s.doomed + (if Live(s, p) then [p] else [])
    && t == s.(table := t.table, tombstones := t.tombstones, doomed := t.doomed, running := None)
  }

  /** The body of `p` is suspended for `w`. If it yielded, its next resume is behind all else
      in the queue; if it waits for a promise outside, that holds its continuation, with its
      resume count. */
  predicate Paused(s: State, t: State, p: Pid, w: Wait) {
    && p in s.procs && t.running.None?
    && t.procs == s.procs[p := s.procs[p].(waiting := w)]
    && t.queue == s.queue + (if w.Yielding? then [Resume(p, s.procs[p].resumes)] else [])
    && t.outside ==
         s.outside + (if w.OnOutside? || (w.Receiving? && w.future) then [Waiter(p, s.procs[p].resumes)] else [])
    && t == s.(running := None, procs := t.procs, queue := t.queue, outside := t.outside,
               past := s.past.(throttled := t.past.throttled))
  }

  /** The body of `p` is suspended for room in the mailbox of `l`. The mailbox holds its
      continuation, or it is posted. */
  ghost predicate Blocked(s: State, t: State, p: Pid, l: Letter) {
    && p in s.procs && t.running.None? && At(t, p).waiting == OnThrottle(l)
    && (|| (BoxAt(t, l.to).promise.exec == Some(Waiter(p, s.procs[p].resumes)) && t.posted == s.posted)
        || t.posted == s.posted + [Waiter(p, s.procs[p].resumes)])
    && (forall a: Address :: BoxAt(t, a).contents == BoxAt(s, a).contents)
    && t == s.(running := None, procs := t.procs, posted := t.posted)
  }

  // ---------------------------------------------------------------- commands

  /** The command cannot be obeyed, or throws. */
  predicate Hopeless(s: State, c: Command) {
    match c
    case Throw => true
    case LinkTo(q) => !Live(s, q)
    case Send(to, _) => !Addressable(s, to)
    case SendAwaited(to, _) => !Addressable(s, to)
    case SendThrottled(to, _) => !Addressable(s, to)
    case SpawnLinkNotify(_, to) => !Addressable(s, to)
    case _ => false
  }

  lemma EndMeans(s: State, p: Pid)
    ensures Ended(s, FinishStep(s, p), p)
  {
    hide SameLinks;
  }

  /** Then the process ends, as it does when its commands are used up. */
  lemma EndsMeans(s: State, p: Pid, c: Command, rest: seq<Command>)
    ensures Hopeless(s, c) ==> Ended(s, Obey(s, p, c, rest), p)
    ensures Ended(s, RunBody(s, p, []), p)
  {
    hide Ended, FinishStep, RunBody, Live, Addressable, SpawnStep, LinkStep, DoomStep, SendPlainStep, SuspendStep,
         Throttle, TakeAll, AnyReady, WaitOnQueue;
    EndMeans(s, p);
    EmptyBody(s, p);
  }

  lemma EmptyBody(s: State, p: Pid)
    ensures RunBody(s, p, []) == FinishStep(s, p)
  {
    hide FinishStep;
  }

  /** A link to a live process links both ways, and the body goes on. */
  lemma LinkToMeans(s: State, p: Pid, q: Pid, rest: seq<Command>) returns (u: State)
    requires p in s.procs && q in s.procs && Live(s, q)
    ensures Linked(s, u, {(p, q), (q, p)}) && u.procs.Keys == s.procs.Keys
    ensures u == s.(procs := u.procs, past := s.past.(kills := u.past.kills))
    ensures Obey(s, p, LinkTo(q), rest) == RunBody(u, p, rest)
  {
    hide Linked, RunBody, LinkStep, FinishStep;
    u := LinkStep(s, p, q);
    LinkMeans(s, p, q);
    assert Next(s, Link(p, q)) == LinkStep(s, p, q);
  }

  /** The three spawns: alone, linked both ways, and dying with the parent while its own
      death is notified. */
  lemma SpawnsMeans(s: State, p: Pid, c: Command, rest: seq<Command>) returns (u: State, child: Pid)
    requires TableOk(s) && p in s.procs && !Hopeless(s, c) && (c.SpawnNew? || c.SpawnLink? || c.SpawnLinkNotify?)
    ensures Spawns(s, u, child, c.size, if c.SpawnLinkNotify? then [c.to] else [])
    ensures Linked(s, u, if c.SpawnNew? then {} else if c.SpawnLink? then {(p, child), (child, p)} else {(p, child)})
    ensures Obey(s, p, c, rest) == RunBody(u, p, rest)
  {
    hide TableOk, Spawns, Linked, RunBody, SpawnStep, FinishStep, Addressable;
    var parent := if c.SpawnNew? then None else Some(p);
    var notify := if c.SpawnLinkNotify? then [c.to] else [];
    u := SpawnStep(s, c.size, parent, c.SpawnLink?, notify);
    child := SpawnMeans(s, c.size, parent, c.SpawnLink?, notify);
    assert Next(s, Spawn(c.size, parent, c.SpawnLink?, notify)) == u;
  }

  /** `queueKill` dooms a live process, and does nothing to others. */
  lemma KillMeans(s: State, p: Pid, q: Pid, rest: seq<Command>) returns (u: State)
    ensures (forall r :: Live(u, r) <==> Live(s, r) && r != q)
    ensures u == s.(table := u.table, tombstones := u.tombstones, doomed := s.doomed + if Live(s, q) then [q] else [])
    ensures Obey(s, p, QueueKill(q), rest) == RunBody(u, p, rest)
  {
    u := DoomStep(s, q);
    EndMeans(s, q);
    assert s.doomed + [] == s.doomed;
    hide RunBody;
  }

  /** What the suspension of a body does. */
  lemma PauseMeans(s: State, p: Pid, w: Wait)
    requires p in s.procs && !w.OnThrottle?
    ensures Paused(s, SuspendStep(s, p, w), p, w)
  {
    hide SameLinks, SameProcesses;
    assert s.queue + [] == s.queue && s.outside + [] == s.outside;
  }

  lemma BlockMeans(s: State, p: Pid, l: Letter)
    requires p in s.procs && l.to.slot < |At(s, l.to.pid).boxes|
    ensures Blocked(s, SuspendStep(s, p, OnThrottle(l)), p, l)
  {
    var u := PutWait(s, p, OnThrottle(l)).(running := None);
    var r := Continued(BoxAt(u, l.to).promise, Waiter(p, s.procs[p].resumes));
    WaitContents(s, p, OnThrottle(l));
    PutContents(u, l.to, BoxAt(u, l.to).(promise := r.signal));
    BlockedWait(u, p, l.to, BoxAt(u, l.to).(promise := r.signal));
    assert s.posted + [] == s.posted;
    hide SameLinks, SameProcesses, PutBox;
    assert forall a: Address :: BoxAt(u, a) == BoxAt(PutWait(s, p, OnThrottle(l)), a);
    hide SuspendStep, BoxAt, PutWait;
    SuspendIsPut(s, p, l);
  }

  lemma BlockedWait(u: State, p: Pid, a: Address, b: Box)
    ensures At(PutBox(u, a, b), p).waiting == At(u, p).waiting && PutBox(u, a, b).running == u.running
  {
    hide SameLinks, SameProcesses;
  }

  lemma SuspendIsPut(s: State, p: Pid, l: Letter)
    requires p in s.procs
    ensures var u := PutWait(s, p, OnThrottle(l)).(running := None);
            var r := Continued(BoxAt(u, l.to).promise, Waiter(p, s.procs[p].resumes));
      && SuspendStep(s, p, OnThrottle(l)) ==
           PutBox(u, l.to, BoxAt(u, l.to).(promise := r.signal)).(posted := s.posted + r.posted)
      && At(u, p).waiting == OnThrottle(l) && u == s.(procs := u.procs, running := None)
  {
    hide SameLinks, SameProcesses, PutBox, BoxAt;
  }

  /** `send` sends at once. If it is awaited and more than ten items are then in the queue,
      the body yields; else it goes on. */
  lemma SendMeans(s: State, p: Pid, c: Command, rest: seq<Command>) returns (u: State)
    requires p in s.procs && !Hopeless(s, c) && (c.Send? || c.SendAwaited?)
    ensures Sent(s, u, p, Letter(c.to, Data(c.n))) && u.procs == s.procs
    ensures var t := Obey(s, p, c, rest);
      if c.SendAwaited? && |s.queue| + 1 > 10 then Paused(u, t, p, Yielding(None)) else t == RunBody(u, p, rest)
  {
    u := SendPlainStep(s, Letter(c.to, Data(c.n)));
    assert s.procs[p := s.procs[p].(waiting := At(u, p).waiting)] == s.procs;
    hide RunBody, SuspendStep, SameLinks, SameProcesses, Addressable, FinishStep, Paused;
    PauseMeans(u, p, Yielding(None));
  }

  /** `sendThrottled` yields first if more than ten items are in the queue; otherwise it
      gets to its test of the mailbox, with its letter pending. */
  lemma ThrottledMeans(s: State, p: Pid, c: Command, rest: seq<Command>) returns (u: State)
    requires p in s.procs && !Hopeless(s, c) && c.SendThrottled?
    ensures var l, t := Letter(c.to, Data(c.n)), Obey(s, p, c, rest);
      if |s.queue| > 10 then Paused(s, t, p, Yielding(Some(l)))
      else
        && u == s.(procs := s.procs[p := s.procs[p].(waiting := Running(Some(l)))],
                   past := s.past.(throttled := s.past.throttled + {(p, l.to)}))
        && t == Throttle(u, p, l, rest)
  {
    var l := Letter(c.to, Data(c.n));
    u := PassStep(s, p, l);
    hide Throttle, SuspendStep, SameLinks, SameProcesses, Addressable, FinishStep, Paused;
    PauseMeans(s, p, Yielding(Some(l)));
  }

  /** The test of the mailbox: while its process is live and it holds ten messages or more,
      the sender waits; otherwise it sends the letter, once, and goes on. */
  lemma ThrottleMeans(s: State, p: Pid, l: Letter, rest: seq<Command>) returns (u: State)
    requires p in s.procs && s.procs[p].waiting == Running(Some(l))
    ensures var t := Throttle(s, p, l, rest);
      if Live(s, l.to.pid) && |BoxAt(s, l.to).contents| >= 10 then Blocked(s, t, p, l)
      else Sent(s, u, p, l) && u.procs[p].waiting == Running(None) && t == RunBody(u, p, rest)
  {
    hide Blocked, SuspendStep, SendOnStep, RunBody, BoxAt, Live;
    u := SendOnStep(s, p);
    if Full(s, l.to) {
      FullHasSlot(s, l.to);
      BlockMeans(s, p, l);
    } else {
      SendOnMeans(s, p, l);
    }
  }

  lemma FullHasSlot(s: State, a: Address)
    requires Full(s, a)
    ensures a.slot < |At(s, a.pid).boxes|
  {
  }

  lemma SendOnMeans(s: State, p: Pid, l: Letter)
    requires p in s.procs && s.procs[p].waiting == Running(Some(l))
    ensures Sent(s, SendOnStep(s, p), p, l) && SendOnStep(s, p).procs[p].waiting == Running(None)
  {
    hide SameLinks, SameProcesses;
  }

  /** A receive takes what its slots have, if any of them has a message; otherwise the body
      waits on the slots, and for a promise if it is given one. */
  lemma ReceiveMeans(s: State, p: Pid, c: Command, rest: seq<Command>) returns (u: State)
    requires p in s.procs && (c.Recv? || c.TryRecv?)
    ensures var slots, t := if c.Recv? then [c.slot] else c.slots, Obey(s, p, c, rest);
      if exists x :: x in slots && BoxAt(s, Address(p, x)).contents != []
      then Taken(s, u, p, slots) && t == RunBody(u, p, rest)
      else Paused(s, t, p, Receiving(slots, c.Recv?, c.TryRecv? && c.future))
  {
    var slots := if c.Recv? then [c.slot] else c.slots;
    hide Taken, Paused, RunBody, TakeAll, SuspendStep, BoxAt, AnyReady, Obey;
    u := TakeAll(s, p, slots);
    ReceiveIs(s, p, c, rest);
    TakeAllMeans(s, p, slots);
    PauseMeans(s, p, Receiving(slots, c.Recv?, c.TryRecv? && c.future));
    ReadyMeans(s, p, slots);
  }

  lemma ReceiveIs(s: State, p: Pid, c: Command, rest: seq<Command>)
    requires c.Recv? || c.TryRecv?
    ensures var slots := if c.Recv? then [c.slot] else c.slots;
      Obey(s, p, c, rest) ==
        if AnyReady(s, p, slots) then RunBody(TakeAll(s, p, slots), p, rest)
        else SuspendStep(s, p, Receiving(slots, c.Recv?, c.TryRecv? && c.future))
  {
    hide RunBody, TakeAll, SuspendStep, AnyReady;
  }

  lemma ReadyMeans(s: State, p: Pid, slots: seq<nat>)
    ensures AnyReady(s, p, slots) <==> exists x :: x in slots && BoxAt(s, Address(p, x)).contents != []
  {
    hide BoxAt;
    if x :| x in slots && BoxAt(s, Address(p, x)).contents != [] {
      var i :| 0 <= i < |slots| && slots[i] == x;
      assert BoxAt(s, Address(p, slots[i])).contents != [];
    }
  }

  /** A body that yields, sleeps or waits for a promise does just that. */
  lemma WaitMeans(s: State, p: Pid, c: Command, rest: seq<Command>)
    requires p in s.procs && (c.Yield? || c.Sleep? || c.AwaitOutside?)
    ensures var w := if c.Yield? then Yielding(None) else if c.Sleep? then Sleeping else OnOutside;
      Paused(s, Obey(s, p, c, rest), p, w)
  {
    hide Paused, SuspendStep;
    PauseMeans(s, p, Yielding(None));
    PauseMeans(s, p, Sleeping);
    PauseMeans(s, p, OnOutside);
  }

  // ---------------------------------------------------------------- resumes

  /** The body of `p` runs again: it has been resumed once more, and goes on from where it
      was with the letter of its `sendThrottled`, if it had one. What others hold and wait
      for has not changed, but for the promise it waited for. */
  ghost predicate Roused(s: State, u: State, p: Pid) {
    && p in s.procs && p in u.procs && u.procs.Keys == s.procs.Keys && u == s.(procs := u.procs, running := Some(p))
    && var was := s.procs[p].waiting;
       && u.procs[p] == s.procs[p].(resumes := s.procs[p].resumes + 1, waiting := u.procs[p].waiting,
                                    boxes := u.procs[p].boxes)
       && (was.Yielding? ==> u.procs[p].waiting == Running(was.pending))
       && (was.OnThrottle? ==> u.procs[p].waiting == Running(Some(was.letter)))
       && (!was.Yielding? && !was.OnThrottle? ==> u.procs[p].waiting == Running(None))
       && (forall a: Address :: BoxAt(u, a).contents == BoxAt(s, a).contents)
       && forall r :: r in s.procs && r != p ==> u.procs[r] == s.procs[r].(boxes := u.procs[r].boxes)
  }

  lemma RouseMeans(s: State, p: Pid)
    requires p in s.procs
    ensures Roused(s, BeginStep(s, p), p)
  {
    BeginContents(s, p);
    hide SameLinks, SameProcesses, BoxAt;
    var u := BeginStep(s, p);
    assert forall r :: r in s.procs <==> r in u.procs;
  }

  /** How a resumed body goes on. A receive takes what its slots have; a plain one that finds
      nothing would raise. A `sendThrottled` comes to its test of the mailbox. */
  lemma GoOnMeans(s: State, p: Pid, was: Wait, cmds: seq<Command>) returns (u: State)
    requires p in s.procs
    ensures was.Receiving? ==>
      if was.plain && !(exists x :: x in was.slots && BoxAt(s, Address(p, x)).contents != [])
      then
        && GoOn(s, p, was, cmds).past.raised
        && Ended(s.(past := s.past.(raised := true)), GoOn(s, p, was, cmds), p)
      else Taken(s, u, p, was.slots) && GoOn(s, p, was, cmds) == RunBody(u, p, cmds)
    ensures was.Yielding? && was.pending.Some? ==> GoOn(s, p, was, cmds) == Throttle(s, p, was.pending.value, cmds)
    ensures was.OnThrottle? ==> GoOn(s, p, was, cmds) == Throttle(s, p, was.letter, cmds)
    ensures !was.Receiving? && !was.OnThrottle? && !(was.Yielding? && was.pending.Some?) ==>
      GoOn(s, p, was, cmds) == RunBody(s, p, cmds)
  {
    hide Taken, Ended, RunBody, TakeAll, Throttle, BoxAt, AnyReady, FinishStep;
    u := s;
    if was.Receiving? {
      u := TakeAll(s, p, was.slots);
      TakeAllMeans(s, p, was.slots);
      ReadyMeans(s, p, was.slots);
      EndMeans(s.(past := s.past.(raised := true)), p);
    }
  }

  // ---------------------------------------------------------------- items and callbacks

  /** A letter is off the queue, and behind all others in its mailbox. */
  ghost predicate Delivered(s: State, v: State, l: Letter)
    requires s.queue != []
  {
    && v == s.(queue := s.queue[1..], procs := v.procs) && v.procs.Keys == s.procs.Keys
    && (forall a: Address :: BoxAt(v, a).contents ==
          BoxAt(s, a).contents + if a == l.to && a.slot < |At(s, a.pid).boxes| then [l.m] else [])
    && forall r :: r in s.procs ==> v.procs[r] == s.procs[r].(boxes := v.procs[r].boxes)
  }

  lemma DeliverMeans(s: State)
    requires s.queue != [] && s.queue[0].Mail?
    ensures Delivered(s, DeliverStep(s), s.queue[0].letter)
    ensures forall r :: At(DeliverStep(s), r).waiting == At(s, r).waiting && Live(DeliverStep(s), r) == Live(s, r)
  {
    var l := s.queue[0].letter;
    PutContents(PopItem(s), l.to, Push(BoxAt(s, l.to), l.m));
    hide SameLinks, SameProcesses;
  }

  /** The first item is taken off the queue. A letter to a process that is gone is dropped;
      any other is delivered, and resumes its receiver if that waits for the slot. A resume
      that is not stale resumes its process; a stale one is dropped. */
  lemma ItemMeans(s: State, cmds: seq<Command>) returns (v: State, u: State)
    requires s.queue != [] && (forall r :: Live(s, r) ==> r in s.procs)
    ensures var t := ProcessItem(s, cmds);
      match s.queue[0]
      case Mail(l) =>
        if !Live(s, l.to.pid) then t == s.(queue := s.queue[1..])
        else
          && Delivered(s, v, l)
          && var was := At(s, l.to.pid).waiting;
             if was.Receiving? && l.to.slot in was.slots
             then Roused(v, u, l.to.pid) && t == GoOn(u, l.to.pid, was, cmds)
             else t == v
      case Resume(p, stamp) =>
        if Live(s, p) && At(s, p).resumes == stamp
        then Roused(s.(queue := s.queue[1..]), u, p) && t == GoOn(u, p, At(s, p).waiting, cmds)
        else t == s.(queue := s.queue[1..])
  {
    hide Delivered, Roused, GoOn, DeliverStep, BeginStep, Live, SameProcesses, SameLinks;
    match s.queue[0] {
      case Mail(l) =>
        v := DeliverStep(s);
        u := BeginStep(v, l.to.pid);
        DeliverMeans(s);
        if Live(s, l.to.pid) {
          SameSize(s, v);
          RouseMeans(v, l.to.pid);
        }
      case Resume(p, stamp) =>
        v := PopItem(s);
        u := BeginStep(v, p);
        if Live(s, p) {
          RouseMeans(v, p);
        }
    }
  }

  /** A continuation that is posted resumes its process, unless it is stale; it is gone then.
      The timer of a process that sleeps resumes it. */
  lemma WakeMeans(s: State, c: Callback) returns (u: State)
    requires (c.Posted? || c.TimerOf?) && (forall r :: Live(s, r) ==> r in s.procs)
    ensures var t := RunCallback(s, c);
      if c.TimerOf? then
        if Live(s, c.q) && At(s, c.q).waiting.Sleeping? then Roused(s, u, c.q) && t == GoOn(u, c.q, Sleeping, c.cmds)
        else t == s
      else if c.k >= |s.posted| then t == s
      else
        var w, v := s.posted[c.k], s.(posted := s.posted[..c.k] + s.posted[c.k + 1..]);
        if Live(s, w.pid) && At(s, w.pid).resumes == w.stamp
        then Roused(v, u, w.pid) && t == GoOn(u, w.pid, At(s, w.pid).waiting, c.cmds)
        else t == v
  {
    hide Roused, GoOn, BeginStep, Live;
    u := s;
    if c.TimerOf? {
      if Live(s, c.q) {
        u := BeginStep(s, c.q);
        RouseMeans(s, c.q);
      }
    } else if c.k < |s.posted| {
      var w, v := s.posted[c.k], s.(posted := s.posted[..c.k] + s.posted[c.k + 1..]);
      SameTable(s, v, w.pid);
      if Live(s, w.pid) {
        u := BeginStep(v, w.pid);
        RouseMeans(v, w.pid);
      }
    }
  }

  lemma SameTable(s: State, t: State, p: Pid)
    requires t == s.(posted := t.posted)
    ensures Live(t, p) == Live(s, p) && At(t, p) == At(s, p)
  {
  }

  /** What else the io service does: a promise is set, and its continuation posted; something
      is sent, or spawned, by no process, or by a listener whose child dies with it. */
  lemma ElseMeans(s: State, c: Callback) returns (child: Pid)
    requires TableOk(s) && (c.SetOutside? || c.SendFrom? || c.SpawnFrom? || c.SpawnUnder?)
    ensures var t := RunCallback(s, c);
      match c
      case SetOutside(k) =>
        t == if k >= |s.outside| then s
             else s.(outside := s.outside[..k] + s.outside[k + 1..], posted := s.posted + [s.outside[k]])
      case SendFrom(to, n) =>
        if Addressable(s, to) then
          && t.queue == s.queue + [Mail(Letter(to, Data(n)))] && t.past.sent == s.past.sent + [Letter(to, Data(n))]
          && t == s.(queue := t.queue, past := s.past.(sent := t.past.sent, plain := t.past.plain))
        else t == s
      case SpawnFrom(size) => Spawns(s, t, child, size, []) && Linked(s, t, {})
      case SpawnUnder(size, q) =>
        if q in s.procs then Spawns(s, t, child, size, []) && Linked(s, t, {(q, child)}) else t == s
      case _ => true
  {
    hide Spawns, Linked, SpawnStep, TableOk, Addressable, SameProcesses, SameLinks;
    child := Pid(0, 0);
    match c
    case SpawnFrom(size) => child := SpawnMeans(s, size, None, false, []);
    case SpawnUnder(size, q) =>
      if q in s.procs {
        child := SpawnMeans(s, size, Some(q), false, []);
      }
    case _ =>
  }
}
