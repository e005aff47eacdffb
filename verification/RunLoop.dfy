/** The run loop, composed of the steps of the scheduler. */
module RunLoop {
  import opened Options
  import opened Scheduler

  // ---------------------------------------------------------------- draining the doomed

  function DoomAll(s: State, qs: seq<Pid>): State
    decreases |qs|
  {
    if qs == [] then s else DoomAll(DoomStep(s, qs[0]), qs[1..])
  }

  /** `toDestroy_.pop_front()` and `destroy`. */
  function Destroy(s: State): State {
    if s.doomed == [] then s else BuryStep(DoomAll(s, At(s, s.doomed[0]).killOnDie))
  }

  function Population(table: seq<Option<Pid>>): nat {
    if table == [] then 0
    else Population(table[..|table| - 1]) + if table[|table| - 1].Some? then 1 else 0
  }

  lemma {:induction false} PopulationFalls(table: seq<Option<Pid>>, i: nat)
    requires i < |table| && table[i].Some?
    ensures Population(table[i := None]) == Population(table) - 1
    decreases |table|
  {
    var n := |table| - 1;
    if i < n {
      assert table[i := None][..n] == table[..n][i := None];
      PopulationFalls(table[..n], i);
    } else {
      assert table[i := None][..n] == table[..n];
    }
  }

  /** Live processes and pending destroys together. */
  function Pending(s: State): nat {
    Population(s.table) + |s.doomed|
  }

  lemma {:induction false} DoomAllPending(s: State, qs: seq<Pid>)
    ensures var t := DoomAll(s, qs); Pending(t) == Pending(s) && s.doomed <= t.doomed
    decreases |qs|
  {
    if qs != [] {
      if Live(s, qs[0]) {
        PopulationFalls(s.table, qs[0].idx);
      }
      DoomAllPending(DoomStep(s, qs[0]), qs[1..]);
    }
  }

  /** Each destroy brings that down by one. */
  lemma DestroyPending(s: State)
    requires s.doomed != []
    ensures Pending(Destroy(s)) == Pending(s) - 1
  {
    DoomAllPending(s, At(s, s.doomed[0]).killOnDie);
  }

  /** `while (toDestroy_.size())`. */
  function Drain(s: State): State
    decreases Pending(s)
  {
    if s.doomed == [] then s
    else
      DestroyPending(s);
      Drain(Destroy(s))
  }

  // ---------------------------------------------------------------- the body of a process

  /** What a body may do. `Send` discards what `send` returns, `SendAwaited` awaits it.
      `Throw` stands for any exception. */
  datatype Command =
    | SpawnNew(size: nat)
    | SpawnLink(size: nat)
    | SpawnLinkNotify(size: nat, to: Address)
    | LinkTo(q: Pid)
    | QueueKill(q: Pid)
    | Send(to: Address, n: int)
    | SendAwaited(to: Address, n: int)
    | SendThrottled(to: Address, n: int)
    | Recv(slot: nat)
    | TryRecv(slots: seq<nat>, future: bool)
    | Yield
    | Sleep
    | AwaitOutside
    | Throw

  /** One message from each slot that has any. */
  function TakeAll(s: State, p: Pid, slots: seq<nat>): State
    decreases |slots|
  {
    if slots == [] then s else TakeAll(TakeStep(s, p, slots[0]), p, slots[1..])
  }

  /** The body of `p` runs until it suspends, ends or throws. */
  function RunBody(s: State, p: Pid, cmds: seq<Command>): State
    decreases |cmds|, 1
  {
    if cmds == [] then FinishStep(s, p) else Obey(s, p, cmds[0], cmds[1..])
  }

  /** The command `c`, and `rest` unless the body has then stopped. */
  function Obey(s: State, p: Pid, c: Command, rest: seq<Command>): State
    decreases |rest|, 3
  {
    match c
    case SpawnNew(size) => RunBody(SpawnStep(s, size, None, false, []), p, rest)
    case SpawnLink(size) => RunBody(SpawnStep(s, size, Some(p), true, []), p, rest)
    case SpawnLinkNotify(size, to) =>
      if Addressable(s, to) then RunBody(SpawnStep(s, size, Some(p), false, [to]), p, rest) else FinishStep(s, p)
    case LinkTo(q) => if Live(s, q) then RunBody(LinkStep(s, p, q), p, rest) else FinishStep(s, p)
    case QueueKill(q) => RunBody(DoomStep(s, q), p, rest)
    case Send(to, n) =>
      if Addressable(s, to) then RunBody(SendPlainStep(s, Letter(to, Data(n))), p, rest) else FinishStep(s, p)
    case SendAwaited(to, n) =>
      if !Addressable(s, to) then FinishStep(s, p)
      else
        var t := SendPlainStep(s, Letter(to, Data(n)));
        if WaitOnQueue(t) then SuspendStep(t, p, Yielding(None)) else RunBody(t, p, rest)
    case SendThrottled(to, n) =>
      var l := Letter(to, Data(n));
      if !Addressable(s, to) then FinishStep(s, p)
      else if WaitOnQueue(s) then SuspendStep(s, p, Yielding(Some(l)))
      else Throttle(PassStep(s, p, l), p, l, rest)
    case Recv(slot) =>
      if AnyReady(s, p, [slot]) then RunBody(TakeAll(s, p, [slot]), p, rest)
      else SuspendStep(s, p, Receiving([slot], true, false))
    case TryRecv(slots, future) =>
      if AnyReady(s, p, slots) then RunBody(TakeAll(s, p, slots), p, rest)
      else SuspendStep(s, p, Receiving(slots, false, future))
    case Yield => SuspendStep(s, p, Yielding(None))
    case Sleep => SuspendStep(s, p, Sleeping)
    case AwaitOutside => SuspendStep(s, p, OnOutside)
    case Throw => FinishStep(s, p)
  }

  /** The loop of `sendThrottled`: it goes round once for each time the sender is woken. */
  function Throttle(s: State, p: Pid, l: Letter, rest: seq<Command>): State
    decreases |rest|, 2
  {
    if Full(s, l.to) then SuspendStep(s, p, OnThrottle(l)) else RunBody(SendOnStep(s, p), p, rest)
  }

  /** A resumed body goes on from the wait `was`. */
  function GoOn(s: State, p: Pid, was: Wait, cmds: seq<Command>): State {
    match was
    case Receiving(slots, plain, _) =>
      if plain && !AnyReady(s, p, slots) then FinishStep(s.(past := s.past.(raised := true)), p)
      else RunBody(TakeAll(s, p, slots), p, cmds)
    case _ =>
      if PendingOf(was).Some? then Throttle(s, p, PendingOf(was).value, cmds) else RunBody(s, p, cmds)
  }

  /** `RunningProcess::resume`. */
  function ResumeProcess(s: State, p: Pid, cmds: seq<Command>): State {
    GoOn(BeginStep(s, p), p, At(s, p).waiting, cmds)
  }

  // ---------------------------------------------------------------- the context

  /** `processQueueItem` on the first item; `cmds` is what a body it resumes does. */
  function ProcessItem(s: State, cmds: seq<Command>): State {
    if s.queue == [] then s
    else
      match s.queue[0]
      case Mail(l) =>
        if !Live(s, l.to.pid) then PopItem(s)
        else if WaitingFor(s, l.to) then ResumeProcess(DeliverStep(s), l.to.pid, cmds)
        else DeliverStep(s)
      case Resume(p, stamp) =>
        if Current(s, p, stamp) then ResumeProcess(PopItem(s), p, cmds) else PopItem(s)
  }

  /** What the io service may do: run a posted continuation or the timer of a sleeping
      process, set a promise outside the context, or send and spawn from elsewhere. A
      listener spawns a process that it takes with it when it dies. */
  datatype Callback =
    | Posted(k: nat, cmds: seq<Command>)
    | TimerOf(q: Pid, cmds: seq<Command>)
    | SetOutside(k: nat)
    | SendFrom(to: Address, n: int)
    | SpawnFrom(slots: nat)
    | SpawnUnder(slots: nat, q: Pid)

  function RunCallback(s: State, c: Callback): State {
    match c
    case Posted(k, cmds) =>
      if k >= |s.posted| then s
      else
        var w, t := s.posted[k], s.(posted := RemoveAt(s.posted, k));
        if Current(s, w.pid, w.stamp) then ResumeProcess(t, w.pid, cmds) else t
    case TimerOf(q, cmds) => if Live(s, q) && At(s, q).waiting.Sleeping? then ResumeProcess(s, q, cmds) else s
    case SetOutside(k) => FireStep(s, k)
    case SendFrom(to, n) => if Addressable(s, to) then SendPlainStep(s, Letter(to, Data(n))) else s
    case SpawnFrom(slots) => SpawnStep(s, slots, None, false, [])
    case SpawnUnder(slots, q) => if q in s.procs then SpawnStep(s, slots, Some(q), false, []) else s
  }

  /** `run_one`, and `poll` until there is nothing left to run. */
  function RunCallbacks(s: State, cs: seq<Callback>): State
    decreases |cs|
  {
    if cs == [] then s else RunCallbacks(RunCallback(s, cs[0]), cs[1..])
  }

  /** One round of the loop: what a resumed body would do, and what the io service would. */
  datatype Choice = Choice(cmds: seq<Command>, callbacks: seq<Callback>)

  function Round(s: State, c: Choice): State {
    Drain(if s.queue != [] then ProcessItem(s, c.cmds) else RunCallbacks(s, c.callbacks))
  }

  /** The test of the loop. */
  predicate Going(s: State) {
    |s.table| != |s.tombstones|
  }

  function RunFor(s: State, cs: seq<Choice>): State
    decreases |cs|
  {
    if cs == [] || !Going(s) then s else RunFor(Round(s, cs[0]), cs[1..])
  }

  /** What is spawned before the loop is entered. */
  function Prepare(s: State, sizes: seq<nat>): State
    decreases |sizes|
  {
    if sizes == [] then s else Prepare(SpawnStep(s, sizes[0], None, false, []), sizes[1..])
  }
}
