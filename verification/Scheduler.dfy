/** The state of the context and everything that changes it, one step at a time, and the
    run loop composed of those steps. What a process does when it is resumed is chosen by
    an environment, as a list of commands. */
module Scheduler {
  import opened Options
  import opened Mailboxes

  datatype Pid = Pid(idx: nat, version: nat)

  datatype Address = Address(pid: Pid, slot: nat)

  /** `Died` is a death notice. */
  datatype Message = Data(n: int) | Died(pid: Pid)

  datatype Letter = Letter(to: Address, m: Message)

  /** An item of the work queue. */
  datatype Item = Resume(pid: Pid, stamp: nat) | Mail(letter: Letter)

  /** A continuation given to a promise: the process, and its resume count at that time. */
  datatype Waiter = Waiter(pid: Pid, stamp: nat)

  type Box = Mailbox<Message, Waiter>

  const EMPTY_BOX: Box := Mailbox([], Signal(UNSET, None))

  /** Where the body of a process is. `pending` is the letter of a `sendThrottled` that
      has begun: one that has passed its test of the queue while `Running`, one that has
      yielded to the queue while `Yielding`. `OnOutside` waits for a promise that
      something outside the context sets. */
  datatype Wait =
    | NotStarted
    | Running(pending: Option<Letter>)
    | Yielding(pending: Option<Letter>)
    | Receiving(slots: seq<nat>, plain: bool, future: bool)
    | Sleeping
    | OnThrottle(letter: Letter)
    | OnOutside

  datatype Proc = Proc(resumes: nat, waiting: Wait, killOnDie: seq<Pid>, notifyOnDie: seq<Address>, boxes: seq<Box>)

  const BLANK := Proc(0, NotStarted, [], [], [])

  /** What happened so far. `born` are the processes as they were spawned, `newest` the
      version last issued for each index, `kills` the pairs of which the first takes the
      second with it, `throttled` who began a `sendThrottled` to which address, `plain`
      the addresses that were sent to otherwise, `raised` whether a receive ever raised
      "Message was not ready". */
  datatype History = History(born: map<Pid, Proc>, newest: seq<nat>, destroyed: seq<Pid>, sent: seq<Letter>,
                             received: seq<Letter>, kills: set<(Pid, Pid)>, throttled: set<(Pid, Address)>,
                             plain: set<Address>, raised: bool)

  /** `procs` holds the processes that exist: those in the table, and those `doomed`,
      which wait to be destroyed. `posted` are the continuations on the io service,
      `outside` those held by promises outside the context. */
  datatype State = State(table: seq<Option<Pid>>, tombstones: seq<Pid>, procs: map<Pid, Proc>, doomed: seq<Pid>,
                         queue: seq<Item>, posted: seq<Waiter>, outside: seq<Waiter>, running: Option<Pid>,
                         past: History)

  const BEGINNING := State([], [], map[], [], [], [], [], None, History(map[], [], [], [], [], {}, {}, {}, false))

  // ---------------------------------------------------------------- queries

  predicate InTable(table: seq<Option<Pid>>, p: Pid) {
    p.idx < |table| && table[p.idx] == Some(p)
  }

  predicate Live(s: State, p: Pid) {
    InTable(s.table, p)
  }

  function At(s: State, p: Pid): Proc {
    if p in s.procs then s.procs[p] else BLANK
  }

  function BoxAt(s: State, a: Address): Box {
    if a.slot < |At(s, a.pid).boxes| then At(s, a.pid).boxes[a.slot] else EMPTY_BOX
  }

  /** `a` was made from a slot of a process that was spawned. */
  predicate Addressable(s: State, a: Address) {
    a.pid in s.past.born && a.slot < |s.past.born[a.pid].boxes|
  }

  /** `Context::canQueue` answers with a promise. */
  predicate Full(s: State, a: Address) {
    Live(s, a.pid) && ShouldThrottle(BoxAt(s, a))
  }

  predicate WaitOnQueue(s: State) {
    |s.queue| > 10
  }

  predicate WaitingFor(s: State, a: Address) {
    At(s, a.pid).waiting.Receiving? && a.slot in At(s, a.pid).waiting.slots
  }

  predicate AnyReady(s: State, p: Pid, slots: seq<nat>) {
    exists i :: 0 <= i < |slots| && BoxAt(s, Address(p, slots[i])).contents != []
  }

  /** Nothing about who exists has changed. */
  predicate SameProcesses(s: State, t: State) {
    && t.table == s.table && t.tombstones == s.tombstones && t.doomed == s.doomed && t.procs.Keys == s.procs.Keys
    && t.past.born == s.past.born && t.past.newest == s.past.newest && t.past.destroyed == s.past.destroyed
  }

  /** Nothing has changed in what the processes that remain were spawned or linked with. */
  predicate SameLinks(s: State, t: State) {
    && t.past.kills == s.past.kills
    && forall p :: p in s.procs && p in t.procs ==>
         && t.procs[p].killOnDie == s.procs[p].killOnDie && t.procs[p].notifyOnDie == s.procs[p].notifyOnDie
         && |t.procs[p].boxes| == |s.procs[p].boxes|
  }

  // ---------------------------------------------------------------- small changes

  function Put(s: State, p: Pid, proc: Proc): (t: State)
    ensures p in s.procs ==> SameProcesses(s, t) && t.running == s.running
  {
    s.(procs := s.procs[p := proc])
  }

  function PutBox(s: State, a: Address, b: Box): (t: State)
    ensures t == s.(procs := t.procs) && SameProcesses(s, t) && SameLinks(s, t)
  {
    if a.slot < |At(s, a.pid).boxes| then
      Put(s, a.pid, At(s, a.pid).(boxes := At(s, a.pid).boxes[a.slot := b]))
    else s
  }

  function PutWait(s: State, p: Pid, w: Wait): (t: State)
    ensures p in s.procs ==> SameProcesses(s, t) && SameLinks(s, t) && t.running == s.running
  {
    Put(s, p, At(s, p).(waiting := w))
  }

  function AddKill(s: State, p: Pid, q: Pid): (t: State)
    ensures t == s.(procs := t.procs, past := s.past.(kills := s.past.kills + {(p, q)}))
    ensures p in s.procs ==> SameProcesses(s, t)
  {
    Put(s, p, At(s, p).(killOnDie := At(s, p).killOnDie + [q])).(past := s.past.(kills := s.past.kills + {(p, q)}))
  }

  /** `Context::queueSend`. */
  function QueueSend(s: State, l: Letter): (t: State)
    ensures SameProcesses(s, t) && SameLinks(s, t) && t.running == s.running && t.procs == s.procs
  {
    s.(queue := s.queue + [Mail(l)], past := s.past.(sent := s.past.sent + [l]))
  }

  function NextPid(s: State): Pid {
    if s.tombstones != [] then
      var t := s.tombstones[|s.tombstones| - 1];
      Pid(t.idx, t.version + 1)
    else Pid(|s.table|, 0)
  }

  // ---------------------------------------------------------------- steps

  datatype Step =
    | Spawn(slots: nat, parent: Option<Pid>, both: bool, notify: seq<Address>)
    | Link(p: Pid, q: Pid)
    | Doom(q: Pid)
    | SendPlain(l: Letter)
    | Pass(p: Pid, l: Letter)
    | SendOn(p: Pid)
    | Take(p: Pid, slot: nat)
    | Suspend(p: Pid, w: Wait)
    | Finish(p: Pid)
    | Drop
    | Deliver
    | DeliverWake
    | WakeItem
    | Continuation(k: nat)
    | Timer(q: Pid)
    | Fire(k: nat)
    | Bury

  /** `spawnArgs` on the next pid. */
  function SpawnAlone(s: State, slots: nat, notify: seq<Address>): (t: State)
    ensures NextPid(s) !in s.procs ==>
      SameLinks(s, t) && forall p :: p in s.procs ==> p in t.procs && t.procs[p] == s.procs[p]
  {
    var p := NextPid(s);
    var proc := Proc(0, NotStarted, [], notify, seq(slots, _ => EMPTY_BOX));
    var reuse := s.tombstones != [] && p.idx < |s.table| == |s.past.newest|;
    s.(table := if reuse then s.table[p.idx := Some(p)] else s.table + [Some(p)],
       tombstones := if s.tombstones != [] then s.tombstones[..|s.tombstones| - 1] else [],
       procs := s.procs[p := proc],
       queue := s.queue + [Resume(p, 0)],
       past := s.past.(born := s.past.born[p := proc],
                       newest := if reuse then s.past.newest[p.idx := p.version] else s.past.newest + [0]))
  }

  /** A spawn that links adds the child to those its parent takes with it, and when
      `both`, the parent to those of the child. */
  function SpawnStep(s: State, slots: nat, parent: Option<Pid>, both: bool, notify: seq<Address>): State {
    var p, t := NextPid(s), SpawnAlone(s, slots, notify);
    if parent.None? then t
    else if both then AddKill(AddKill(t, p, parent.value), parent.value, p)
    else AddKill(t, parent.value, p)
  }

  function LinkStep(s: State, p: Pid, q: Pid): (t: State)
    ensures p in s.procs && q in s.procs ==> SameProcesses(s, t) && t.running == s.running
  {
    AddKill(AddKill(s, p, q), q, p)
  }

  /** `addtoDestroy`. */
  function DoomStep(s: State, q: Pid): (t: State)
    ensures SameLinks(s, t) && t.procs == s.procs
    ensures t == s.(table := t.table, doomed := t.doomed, tombstones := t.tombstones)
  {
    if Live(s, q) then
      s.(table := s.table[q.idx := None], doomed := s.doomed + [q], tombstones := s.tombstones + [q])
    else s
  }

  function SendPlainStep(s: State, l: Letter): (t: State)
    ensures SameProcesses(s, t) && SameLinks(s, t) && t.running == s.running && t.procs == s.procs
  {
    var t := QueueSend(s, l);
    t.(past := t.past.(plain := t.past.plain + {l.to}))
  }

  /** A `sendThrottled` gets past its test of the queue. */
  function PassStep(s: State, p: Pid, l: Letter): (t: State)
    ensures p in s.procs ==> SameProcesses(s, t) && SameLinks(s, t) && t.running == s.running
  {
    var t := PutWait(s, p, Running(Some(l)));
    t.(past := t.past.(throttled := t.past.throttled + {(p, l.to)}))
  }

  /** A `sendThrottled` sends. */
  function SendOnStep(s: State, p: Pid): (t: State)
    ensures p in s.procs ==> SameProcesses(s, t) && SameLinks(s, t) && t.running == s.running
  {
    var w := At(s, p).waiting;
    if w.Running? && w.pending.Some? then QueueSend(PutWait(s, p, Running(None)), w.pending.value) else s
  }

  function TakeStep(s: State, p: Pid, slot: nat): (t: State)
    ensures SameProcesses(s, t) && SameLinks(s, t) && t.running == s.running
  {
    var a := Address(p, slot);
    if BoxAt(s, a).contents == [] then s
    else
      var r := Pop(BoxAt(s, a));
      var t := PutBox(s, a, r.box);
      t.(posted := t.posted + r.posted, past := t.past.(received := t.past.received + [Letter(a, r.m)]))
  }

  /** What the context does with the wait a resumed task returned. */
  function SuspendStep(s: State, p: Pid, w: Wait): (t: State)
    ensures p in s.procs ==> SameProcesses(s, t) && SameLinks(s, t) && t.running == None
    ensures t.queue == s.queue + if w.Yielding? then [Resume(p, At(s, p).resumes)] else []
    ensures t.past == s.past.(throttled := t.past.throttled)
  {
    var t := PutWait(s, p, w).(running := None);
    var me := Waiter(p, At(s, p).resumes);
    match w
    case Yielding(pending) =>
      var u := t.(queue := t.queue + [Resume(p, me.stamp)]);
      if pending.Some? then u.(past := u.past.(throttled := u.past.throttled + {(p, pending.value.to)})) else u
    case Receiving(_, _, future) => if future then t.(outside := t.outside + [me]) else t
    case OnOutside => t.(outside := t.outside + [me])
    case OnThrottle(l) =>
      var r := Continued(BoxAt(t, l.to).promise, me);
      PutBox(t, l.to, BoxAt(t, l.to).(promise := r.signal)).(posted := t.posted + r.posted)
    case _ => t
  }

  function FinishStep(s: State, p: Pid): (t: State)
    ensures SameLinks(s, t) && t.procs == s.procs
    ensures t == DoomStep(s, p).(running := None)
  {
    DoomStep(s, p).(running := None)
  }

  /** The letter of the `sendThrottled` that a process waiting so has begun. */
  function PendingOf(w: Wait): Option<Letter> {
    match w
    case Yielding(pending) => pending
    case OnThrottle(l) => Some(l)
    case _ => None
  }

  /** A resume up to the moment the body of the process runs. */
  function BeginStep(s: State, p: Pid): (t: State)
    ensures t == s.(procs := t.procs, running := Some(p)) && (p in s.procs ==> SameProcesses(s, t) && SameLinks(s, t))
  {
    var w := At(s, p).waiting;
    var t := if w.OnThrottle? then
               var a, b := w.letter.to, BoxAt(s, w.letter.to);
               PutBox(s, a, b.(promise := Processed(b.promise)))
             else s;
    Put(t, p, At(t, p).(resumes := At(t, p).resumes + 1, waiting := Running(PendingOf(w)))).(running := Some(p))
  }

  function PopItem(s: State): (t: State)
    ensures SameProcesses(s, t) && SameLinks(s, t) && t.running == s.running && t.procs == s.procs
  {
    if s.queue != [] then s.(queue := s.queue[1..]) else s
  }

  function DeliverStep(s: State): (t: State)
    ensures SameProcesses(s, t) && SameLinks(s, t) && t.running == s.running
  {
    if s.queue != [] && s.queue[0].Mail? then
      var l := s.queue[0].letter;
      PutBox(PopItem(s), l.to, Push(BoxAt(s, l.to), l.m))
    else s
  }

  function RemoveAt<A>(xs: seq<A>, k: nat): seq<A> {
    if k < |xs| then xs[..k] + xs[k + 1..] else xs
  }

  predicate Current(s: State, p: Pid, stamp: nat) {
    Live(s, p) && At(s, p).resumes == stamp
  }

  function ContinuationStep(s: State, k: nat): (t: State)
    ensures (forall p :: Live(s, p) ==> p in s.procs) ==>
      && SameProcesses(s, t) && SameLinks(s, t)
      && (t.running == s.running || (t.running.Some? && t.running.value in s.procs))
  {
    if k < |s.posted| then
      var w := s.posted[k];
      var t := s.(posted := RemoveAt(s.posted, k));
      if Current(s, w.pid, w.stamp) then BeginStep(t, w.pid) else t
    else s
  }

  function FireStep(s: State, k: nat): (t: State)
    ensures SameProcesses(s, t) && SameLinks(s, t) && t.running == s.running && t.procs == s.procs
  {
    if k < |s.outside| then s.(outside := RemoveAt(s.outside, k), posted := s.posted + [s.outside[k]]) else s
  }

  /** The continuations that the destructors of mailboxes post. */
  function Wakes(boxes: seq<Box>): seq<Waiter> {
    if boxes == [] then [] else Fired(boxes[0].promise).posted + Wakes(boxes[1..])
  }

  function Notices(p: Pid, to: seq<Address>): seq<Letter> {
    if to == [] then [] else [Letter(to[0], Died(p))] + Notices(p, to[1..])
  }

  function Mails(ls: seq<Letter>): seq<Item> {
    if ls == [] then [] else [Mail(ls[0])] + Mails(ls[1..])
  }

  /** The end of `destroy`: those the process takes with it are doomed already. */
  function BuryStep(s: State): (t: State)
    ensures SameLinks(s, t) && forall p :: p in t.procs ==> p in s.procs && t.procs[p] == s.procs[p]
  {
    if s.doomed == [] then s
    else
      var p := s.doomed[0];
      var ls := Notices(p, At(s, p).notifyOnDie);
      s.(doomed := s.doomed[1..], procs := s.procs - {p}, queue := s.queue + Mails(ls),
         posted := s.posted + Wakes(At(s, p).boxes),
         past := s.past.(destroyed := s.past.destroyed + [p], sent := s.past.sent + ls,
                         plain := s.past.plain + set a | a in At(s, p).notifyOnDie))
  }

  function Next(s: State, m: Step): State {
    match m
    case Spawn(slots, parent, both, notify) => SpawnStep(s, slots, parent, both, notify)
    case Link(p, q) => LinkStep(s, p, q)
    case Doom(q) => DoomStep(s, q)
    case SendPlain(l) => SendPlainStep(s, l)
    case Pass(p, l) => PassStep(s, p, l)
    case SendOn(p) => SendOnStep(s, p)
    case Take(p, slot) => TakeStep(s, p, slot)
    case Suspend(p, w) => SuspendStep(s, p, w)
    case Finish(p) => FinishStep(s, p)
    case Drop => PopItem(s)
    case Deliver => DeliverStep(s)
    case DeliverWake =>
      if s.queue != [] && s.queue[0].Mail? then BeginStep(DeliverStep(s), s.queue[0].letter.to.pid) else s
    case WakeItem => if s.queue != [] && s.queue[0].Resume? then BeginStep(PopItem(s), s.queue[0].pid) else s
    case Continuation(k) => ContinuationStep(s, k)
    case Timer(q) => BeginStep(s, q)
    case Fire(k) => FireStep(s, k)
    case Bury => BuryStep(s)
  }

  /** The steps that only a running body takes, and which it goes on or suspends after. */
  predicate OfBody(m: Step) {
    m.Spawn? || m.Link? || m.SendPlain? || m.Pass? || m.SendOn? || m.Take? || m.Suspend?
  }

  /** An item that has no effect any more. */
  predicate Stale(s: State, it: Item) {
    match it
    case Resume(p, stamp) => !Current(s, p, stamp)
    case Mail(l) => !Live(s, l.to.pid)
  }

  /** Whom the first of the doomed takes with it is doomed too. */
  predicate MayBury(s: State) {
    s.doomed != [] && forall c :: c in At(s, s.doomed[0]).killOnDie ==> !Live(s, c)
  }

  predicate Free(s: State, p: Pid) {
    At(s, p).waiting == Running(None)
  }

  /** What a body may wait for, and what it found when it did. */
  predicate MayWait(s: State, p: Pid, w: Wait) {
    match w
    case Yielding(pending) =>
      Free(s, p) && (pending.Some? ==> WaitOnQueue(s) && Addressable(s, pending.value.to) && pending.value.m.Data?)
    case Receiving(slots, plain, future) =>
      Free(s, p) && !AnyReady(s, p, slots) && (plain ==> |slots| == 1 && !future)
    case Sleeping => Free(s, p)
    case OnOutside => Free(s, p)
    case OnThrottle(l) => At(s, p).waiting == Running(Some(l)) && Full(s, l.to)
    case _ => false
  }

  /** When the context takes a step. A stale item is dropped; the run loop takes up an
      item or a callback only while no body runs. A process spawns from its body, or, as a
      listener does, from a callback while no body runs. */
  predicate Enabled(s: State, m: Step) {
    match m
    case Spawn(_, parent, both, notify) =>
      && (parent.Some? ==> parent.value in s.procs && (s.running == parent || s.running.None?))
      && (parent.None? ==> !both && notify == [])
      && forall i :: 0 <= i < |notify| ==> Addressable(s, notify[i])
    case Link(p, q) => s.running == Some(p) && Live(s, q)
    case Doom(_) => true
    case SendPlain(l) => Addressable(s, l.to) && l.m.Data?
    case Pass(p, l) => s.running == Some(p) && Free(s, p) && !WaitOnQueue(s) && Addressable(s, l.to) && l.m.Data?
    case SendOn(p) =>
      var w := At(s, p).waiting;
      s.running == Some(p) && w.Running? && w.pending.Some? && !Full(s, w.pending.value.to)
    case Take(p, slot) => s.running == Some(p) && BoxAt(s, Address(p, slot)).contents != []
    case Suspend(p, w) => s.running == Some(p) && MayWait(s, p, w)
    case Finish(p) => s.running == Some(p)
    case Drop => s.running.None? && s.queue != [] && Stale(s, s.queue[0])
    case Deliver =>
      && s.running.None? && s.queue != [] && s.queue[0].Mail?
      && Live(s, s.queue[0].letter.to.pid) && !WaitingFor(s, s.queue[0].letter.to)
    case DeliverWake =>
      && s.running.None? && s.queue != [] && s.queue[0].Mail?
      && Live(s, s.queue[0].letter.to.pid) && WaitingFor(s, s.queue[0].letter.to)
    case WakeItem =>
      && s.running.None? && s.queue != [] && s.queue[0].Resume?
      && Current(s, s.queue[0].pid, s.queue[0].stamp)
    case Continuation(k) => s.running.None? && k < |s.posted|
    case Timer(q) => s.running.None? && Live(s, q) && At(s, q).waiting.Sleeping?
    case Fire(k) => k < |s.outside|
    case Bury => s.running.None? && MayBury(s)
  }
}
