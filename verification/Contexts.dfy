/** The context itself, step by step on its own fields, proved against the run loop. */
module Contexts {
  import opened Options
  import opened Mailboxes
  import opened Scheduler
  import opened PidTable
  import opened RunLoop
  import opened Links
  import opened Runs

  class RunningProcess {
    const pid: Pid
    const notifyOnDie: seq<Address>
    var dead: bool
    var resumes: nat
    var lastWaiting: Wait
    var killOnDie: seq<Pid>
    var boxes: seq<Box>

    constructor (pid: Pid, slots: nat, notify: seq<Address>)
      ensures this.pid == pid && !dead && Value() == Proc(0, NotStarted, [], notify, seq(slots, _ => EMPTY_BOX))
    {
      this.pid, notifyOnDie := pid, notify;
      dead, resumes, lastWaiting, killOnDie := false, 0, NotStarted, [];
      boxes := seq(slots, _ => EMPTY_BOX);
    }

    function Value(): Proc
      reads `resumes, `lastWaiting, `killOnDie, `boxes
    {
      Proc(resumes, lastWaiting, killOnDie, notifyOnDie, boxes)
    }
  }

  /** The pids in the slots of a table. */
  function Occupants(ps: seq<RunningProcess?>): (t: seq<Option<Pid>>)
    ensures |t| == |ps| && forall i :: 0 <= i < |ps| ==> t[i] == if ps[i] == null then None else Some(ps[i].pid)
  {
    if ps == [] then []
    else Occupants(ps[..|ps| - 1]) + [if ps[|ps| - 1] == null then None else Some(ps[|ps| - 1].pid)]
  }

  function Those(to: seq<Address>): set<Address> {
    set a | a in to
  }

  function PidsOf(ps: seq<RunningProcess>): (t: seq<Pid>)
    ensures |t| == |ps| && forall i :: 0 <= i < |ps| ==> t[i] == ps[i].pid
  {
    if ps == [] then [] else PidsOf(ps[..|ps| - 1]) + [ps[|ps| - 1].pid]
  }

  lemma Removed(ps: seq<RunningProcess?>, i: nat)
    requires i < |ps|
    ensures Occupants(ps[i := null]) == Occupants(ps)[i := None]
  {
  }

  lemma Added(ps: seq<RunningProcess>, p: RunningProcess)
    ensures PidsOf(ps + [p]) == PidsOf(ps) + [p.pid]
  {
  }

  ghost function ValuesOf(procs: map<Pid, RunningProcess>): map<Pid, Proc>
    reads procs.Values`resumes, procs.Values`lastWaiting, procs.Values`killOnDie, procs.Values`boxes
  {
    map p | p in procs :: procs[p].Value()
  }

  /** The processes that exist are those in the table and those to be destroyed. */
  ghost predicate Placed(processes: seq<RunningProcess?>, toDestroy: seq<RunningProcess>, procs: map<Pid,
          RunningProcess>) {
    && (forall p :: p in procs ==> procs[p].pid == p)
    && (forall i :: 0 <= i < |processes| && processes[i] != null ==>
          processes[i].pid.idx == i && processes[i].pid in procs && procs[processes[i].pid] == processes[i])
    && (forall i :: 0 <= i < |toDestroy| ==> toDestroy[i].pid in procs && procs[toDestroy[i].pid] == toDestroy[i])
  }

  /** The latter are dead. */
  ghost predicate DeadOk(processes: seq<RunningProcess?>, toDestroy: seq<RunningProcess>, procs: map<Pid,
          RunningProcess>)
    requires Placed(processes, toDestroy, procs)
    reads procs.Values`dead
  {
    && (forall i :: 0 <= i < |processes| && processes[i] != null ==> !processes[i].dead)
    && (forall i :: 0 <= i < |toDestroy| ==> toDestroy[i].dead)
  }

  lemma PlacedDoomed(processes: seq<RunningProcess?>, toDestroy: seq<RunningProcess>, procs: map<Pid,
          RunningProcess>, r: RunningProcess)
    requires Placed(processes, toDestroy, procs) && r.pid.idx < |processes| && processes[r.pid.idx] == r
    ensures Placed(processes[r.pid.idx := null], toDestroy + [r], procs)
    ensures forall i :: 0 <= i < |processes| && i != r.pid.idx ==> processes[i] != r
  {
  }

  /** What the fields of a context mean to the scheduler is `St`. */
  class Context {
    var processes: seq<RunningProcess?>
    var tombstones: seq<Pid>
    var toDestroy: seq<RunningProcess>
    var queue: seq<Item>
    var posted: seq<Waiter>
    var outside: seq<Waiter>
    ghost var running: Option<Pid>
    /** The processes that exist, by which their pointers in waits and promises are found. */
    var procs: map<Pid, RunningProcess>
    /** The record of the run. It decides one thing: which addresses can exist. */
    var past: History

    ghost function St(): State
      reads this, procs.Values`resumes, procs.Values`lastWaiting, procs.Values`killOnDie, procs.Values`boxes
    {
      State(Occupants(processes), tombstones, ValuesOf(procs), PidsOf(toDestroy), queue, posted, outside, running, past)
    }

    ghost predicate Valid()
      reads this, procs.Values
    {
      Placed(processes, toDestroy, procs) && DeadOk(processes, toDestroy, procs) && TableOk(St())
    }

    constructor ()
      ensures Valid() && St() == BEGINNING && procs.Values == {}
    {
      processes, tombstones, toDestroy, queue, posted, outside := [], [], [], [], [], [];
      running, procs, past := None, map[], BEGINNING.past;
      new;
      assert St() == BEGINNING;
      TableBegins();
    }

    /** `findProc`. */
    method FindProc(p: Pid) returns (r: RunningProcess?)
      requires Valid()
      ensures r != null <==> Live(St(), p)
      ensures r != null ==>
        p in procs && r == procs[p] && r.pid == p && !r.dead && p.idx < |processes| && processes[p.idx] == r
    {
      hide TableOk;
      FindProcExact(St(), p);
      if p.idx >= |processes| || processes[p.idx] == null || processes[p.idx].pid.version != p.version {
        return null;
      }
      r := processes[p.idx];
      assert St().table[p.idx] == Some(r.pid);
    }

    method AddToDestroy(q: Pid)
      requires Valid()
      modifies this, procs.Values
      ensures Valid() && St() == DoomStep(old(St()), q) && procs == old(procs)
    {
      hide TableOk, SameLinks, Live, Occupants, PidsOf, ValuesOf;
      DoomOk(St(), q);
      var r := FindProc(q);
      if r != null {
        assert r.pid == q;
        Removed(processes, q.idx);
        Added(toDestroy, r);
        PlacedDoomed(processes, toDestroy, procs, r);
        assert DeadOk(processes, toDestroy, procs);
        assert forall i :: 0 <= i < |toDestroy| ==> toDestroy[i].dead;
        assert r !in toDestroy;
        hide Placed;
        r.dead := true;
        toDestroy := toDestroy + [r];
        processes := processes[q.idx := null];
        tombstones := tombstones + [q];
        assert DeadOk(processes, toDestroy, procs);
        hide DeadOk;
        assert ValuesOf(procs) == old(ValuesOf(procs));
        assert St() == DoomStep(old(St()), q);
      }
    }

    /** The fields that `TableOk` depends on are as they were. */
    ghost predicate Unmoved(s: State, t: State) {
      SameProcesses(s, t) && (t.running == s.running || t.running.None? || t.running.value in s.procs)
    }

    lemma UnmovedOk(s: State, t: State)
      requires TableOk(s) && Unmoved(s, t)
      ensures TableOk(t)
    {
      hide Slots, Issued, Fates;
    }

    lemma AtIs(p: Pid)
      requires Placed(processes, toDestroy, procs)
      ensures p in procs <==> p in St().procs
      ensures p in procs ==> At(St(), p) == procs[p].Value() && procs[p].pid == p
    {
    }

    lemma KnownIs(r: RunningProcess)
      requires Placed(processes, toDestroy, procs) && r in procs.Values
      ensures r.pid in procs && procs[r.pid] == r && r.pid in St().procs && At(St(), r.pid) == r.Value()
    {
    }

    method QueueResume(p: Pid, resumes: nat)
      requires Valid()
      modifies this`queue
      ensures Valid() && St() == old(St()).(queue := old(queue) + [Resume(p, resumes)])
    {
      hide TableOk, Placed, DeadOk, Occupants, PidsOf, ValuesOf;
      queue := queue + [Resume(p, resumes)];
      UnmovedOk(old(St()), St());
    }

    method QueueSend(l: Letter)
      requires Valid()
      modifies this`queue, this`past
      ensures Valid() && St() == Scheduler.QueueSend(old(St()), l)
    {
      hide TableOk, Placed, DeadOk, Occupants, PidsOf, ValuesOf;
      queue := queue + [Mail(l)];
      past := past.(sent := past.sent + [l]);
      UnmovedOk(old(St()), St());
    }

    /** `Process::send`. */
    method SendPlain(l: Letter)
      requires Valid()
      modifies this`queue, this`past
      ensures Valid() && St() == SendPlainStep(old(St()), l)
    {
      hide TableOk, Placed, DeadOk, Occupants, PidsOf, ValuesOf;
      QueueSend(l);
      past := past.(plain := past.plain + {l.to});
      UnmovedOk(old(St()), St());
    }

    /** `Process::addKillOnDie`. */
    method AddKillOnDie(r: RunningProcess, q: Pid)
      requires Valid() && r in procs.Values
      modifies r`killOnDie, this`past
      ensures Valid() && St() == AddKill(old(St()), r.pid, q)
    {
      hide TableOk, DeadOk, Occupants, PidsOf;
      AtIs(r.pid);
      r.killOnDie := r.killOnDie + [q];
      past := past.(kills := past.kills + {(r.pid, q)});
      assert ValuesOf(procs) == old(ValuesOf(procs))[r.pid := r.Value()];
      hide Placed, ValuesOf;
      assert St() == AddKill(old(St()), r.pid, q);
      hide AddKill;
      UnmovedOk(old(St()), St());
    }

    method SetBox(r: RunningProcess, slot: nat, b: Box)
      requires Valid() && r in procs.Values
      modifies r`boxes
      ensures Valid() && St() == PutBox(old(St()), Address(r.pid, slot), b)
    {
      hide TableOk, DeadOk, Occupants, PidsOf;
      AtIs(r.pid);
      if slot < |r.boxes| {
        r.boxes := r.boxes[slot := b];
        assert ValuesOf(procs) == old(ValuesOf(procs))[r.pid := r.Value()];
        hide Placed, ValuesOf;
        assert St() == PutBox(old(St()), Address(r.pid, slot), b);
        hide PutBox;
        UnmovedOk(old(St()), St());
      }
    }

    method SetWaiting(r: RunningProcess, w: Wait)
      requires Valid() && r in procs.Values
      modifies r`lastWaiting
      ensures Valid() && St() == PutWait(old(St()), r.pid, w) && r.lastWaiting == w
    {
      hide TableOk, DeadOk, Occupants, PidsOf;
      AtIs(r.pid);
      r.lastWaiting := w;
      assert ValuesOf(procs) == old(ValuesOf(procs))[r.pid := r.Value()];
      hide Placed, ValuesOf;
      assert St() == PutWait(old(St()), r.pid, w);
      hide PutWait;
      UnmovedOk(old(St()), St());
    }

    /** The mailbox at `a`, if its process exists. */
    method BoxOf(a: Address) returns (b: Box)
      requires Valid()
      ensures b == BoxAt(St(), a)
    {
      hide TableOk, DeadOk, Occupants, PidsOf;
      AtIs(a.pid);
      if a.pid in procs && a.slot < |procs[a.pid].boxes| {
        b := procs[a.pid].boxes[a.slot];
      } else {
        b := EMPTY_BOX;
      }
    }

    /** `canQueue`, which answers whether the sender has to wait for the mailbox. */
    method CanQueue(a: Address) returns (full: bool)
      requires Valid()
      ensures full == Full(St(), a)
    {
      hide TableOk, DeadOk, Occupants, PidsOf, ValuesOf;
      var r := FindProc(a.pid);
      if r == null {
        return false;
      }
      var b := BoxOf(a);
      full := |b.contents| >= THROTTLE;
    }

    // -------------------------------------------------------------- spawning and linking

    /** `nextPid`. A new index is reserved, empty, until the process is put there. */
    method NextPid() returns (p: Pid)
      requires Valid()
      modifies this`tombstones, this`processes
      ensures p == Scheduler.NextPid(old(St())) && p.idx < |processes|
      ensures tombstones == if old(tombstones) != [] then old(tombstones)[..|old(tombstones)| - 1] else []
      ensures processes == if old(tombstones) != [] then old(processes) else old(processes) + [null]
    {
      TableFacts(St());
      hide TableOk, Placed, DeadOk, PidsOf, ValuesOf;
      if tombstones != [] {
        var t := tombstones[|tombstones| - 1];
        p := Pid(t.idx, t.version + 1);
        tombstones := tombstones[..|tombstones| - 1];
      } else {
        processes := processes + [null];
        p := Pid(|processes| - 1, 0);
      }
    }

    /** `processes_[pid.idx()] = r`, at an index that is new unless it is reused. */
    method Install(r: RunningProcess, ghost before: seq<RunningProcess?>, ghost reuse: bool)
      requires Placed(before, toDestroy, procs) && DeadOk(before, toDestroy, procs)
      requires r.pid !in procs && r !in procs.Values && !r.dead
      requires reuse ==> processes == before && r.pid.idx < |before|
      requires !reuse ==> processes == before + [null] && r.pid.idx == |before|
      modifies this`processes, this`procs
      ensures procs == old(procs)[r.pid := r]
      ensures Occupants(processes) ==
        if reuse then Occupants(before)[r.pid.idx := Some(r.pid)] else Occupants(before) + [Some(r.pid)]
      ensures Placed(processes, toDestroy, procs) && DeadOk(processes, toDestroy, procs)
      ensures ValuesOf(procs) == old(ValuesOf(procs))[r.pid := r.Value()]
    {
      hide Occupants;
      NewPlace(before, processes, toDestroy, procs, r, reuse);
      assert forall i :: 0 <= i < |toDestroy| ==> toDestroy[i].dead;
      assert forall i :: 0 <= i < |processes| && processes[i] != null ==> !processes[i].dead by {
        assert forall i :: 0 <= i < |before| && before[i] != null ==> !before[i].dead;
      }
      processes := processes[r.pid.idx := r];
      procs := procs[r.pid := r];
    }

    /** What a spawn alone comes to, from the table as it was. */
    lemma SpawnAloneIs(s: State, size: nat, notify: seq<Address>, p: Pid)
      requires TableOk(s) && p == Scheduler.NextPid(s)
      ensures var t, proc := SpawnAlone(s, size, notify), Proc(0, NotStarted, [], notify, seq(size, _ => EMPTY_BOX));
        && t == State(t.table, t.tombstones, s.procs[p := proc], s.doomed, s.queue + [Resume(p, 0)], s.posted,
                      s.outside, s.running, t.past)
        && t.tombstones == (if s.tombstones != [] then s.tombstones[..|s.tombstones| - 1] else [])
        && t.table == (if s.tombstones != [] then s.table[p.idx := Some(p)] else s.table + [Some(p)])
        && p.idx < |t.table| && (s.tombstones == [] ==> p.idx == |s.table|)
        && TableOk(t) && p !in s.procs && (s.tombstones != [] ==> p.idx < |s.past.newest|)
        && t.past == s.past.(born := s.past.born[p := proc],
                             newest := if s.tombstones != [] then s.past.newest[p.idx := p.version]
                                       else s.past.newest + [0])
    {
      TableFacts(s);
      SpawnAloneChanges(s, size, notify);
      SpawnedIsOk(s, p, SpawnAlone(s, size, notify));
      hide TableOk, SameLinks;
    }

    /** `spawnArgs`. */
    method Spawn(size: nat, notify: seq<Address>) returns (r: RunningProcess)
      requires Valid()
      modifies this
      ensures Valid() && St() == SpawnAlone(old(St()), size, notify)
      ensures fresh(r) && r.pid == Scheduler.NextPid(old(St())) && procs == old(procs)[r.pid := r]
    {
      hide TableOk, PidsOf, Scheduler.NextPid, Spawned, SpawnAlone, Live, Placed, DeadOk, ValuesOf, Occupants;
      ghost var s := St();
      SpawnAloneIs(s, size, notify, Scheduler.NextPid(s));
      AtIs(Scheduler.NextPid(s));
      assert allocated(procs.Values);
      var reuse := tombstones != [];
      var p := NextPid();
      r := new RunningProcess(p, size, notify);
      Install(r, old(processes), reuse);
      Record(p, r.Value(), reuse);
    }

    /** `queueResume` for the new process, and the record of its birth. */
    method Record(p: Pid, proc: Proc, reuse: bool)
      requires Placed(processes, toDestroy, procs) && DeadOk(processes, toDestroy, procs)
      requires reuse ==> p.idx < |past.newest|
      modifies this`queue, this`past
      ensures Placed(processes, toDestroy, procs) && DeadOk(processes, toDestroy, procs)
      ensures St() == old(St()).(
        queue := old(queue) + [Resume(p, 0)],
        past := old(past).(born := old(past).born[p := proc],
                           newest := if reuse then old(past).newest[p.idx := p.version] else old(past).newest + [0]))
    {
      hide PidsOf, Placed, DeadOk, ValuesOf, Occupants;
      queue := queue + [Resume(p, 0)];
      past := past.(born := past.born[p := proc],
                    newest := if reuse then past.newest[p.idx := p.version] else past.newest + [0]);
    }

    lemma NewPlace(before: seq<RunningProcess?>, processes: seq<RunningProcess?>, toDestroy: seq<RunningProcess>,
            procs: map<Pid, RunningProcess>, r: RunningProcess, reuse: bool)
      requires Placed(before, toDestroy, procs) && r.pid !in procs
      requires reuse ==> processes == before && r.pid.idx < |before|
      requires !reuse ==> processes == before + [null] && r.pid.idx == |before|
      ensures Placed(processes[r.pid.idx := r], toDestroy, procs[r.pid := r])
      ensures Occupants(processes[r.pid.idx := r]) ==
        if reuse then Occupants(before)[r.pid.idx := Some(r.pid)] else Occupants(before) + [Some(r.pid)]
    {
    }

    /** The spawns of `Process`: with a parent, either both die together, or the child dies
        with its parent, and its own death is notified. */
    method SpawnChild(size: nat, parent: RunningProcess?, both: bool, notify: seq<Address>) returns (r: RunningProcess)
      requires Valid() && (parent != null ==> parent in procs.Values)
      modifies this, procs.Values
      ensures Valid()
      ensures St() == SpawnStep(old(St()), size, if parent == null then None else Some(parent.pid), both, notify)
      ensures fresh(r) && procs == old(procs)[r.pid := r] && r.pid !in old(procs)
    {
      hide TableOk, Placed, DeadOk, Occupants, PidsOf, ValuesOf, SpawnAlone, AddKill;
      TableFacts(St());
      AtIs(Scheduler.NextPid(St()));
      if parent != null {
        AtIs(parent.pid);
      }
      r := Spawn(size, notify);
      assert r in procs.Values by { assert procs[r.pid] == r; }
      if parent != null {
        KeepsParent(old(procs), parent, r.pid, r);
        if both {
          AddKillOnDie(r, parent.pid);
        }
        AddKillOnDie(parent, r.pid);
      }
    }

    lemma KeepsParent(before: map<Pid, RunningProcess>, parent: RunningProcess, p: Pid, r: RunningProcess)
      requires parent in before.Values && p !in before
      ensures parent in before[p := r].Values
    {
      var q :| q in before && before[q] == parent;
      assert before[p := r][q] == parent;
    }

    /** `Context::link`, which throws if the process is dead. */
    method LinkTo(r: RunningProcess, q: Pid) returns (ok: bool)
      requires Valid() && r in procs.Values
      modifies procs.Values, this`past
      ensures Valid() && procs == old(procs)
      ensures ok == Live(old(St()), q) && St() == if ok then LinkStep(old(St()), r.pid, q) else old(St())
    {
      hide TableOk, Placed, DeadOk, Occupants, PidsOf, ValuesOf, AddKill, Live;
      var b := FindProc(q);
      ok := b != null;
      if ok {
        AtIs(q);
        AddKillOnDie(r, q);
        AddKillOnDie(b, r.pid);
      }
    }

    // -------------------------------------------------------------- the body of a process

    /** A box found by address, not by its process. */
    method SetBoxAt(a: Address, b: Box)
      requires Valid()
      modifies procs.Values
      ensures Valid() && St() == PutBox(old(St()), a, b)
    {
      hide TableOk, Placed, DeadOk, Occupants, PidsOf, ValuesOf;
      AtIs(a.pid);
      if a.pid in procs {
        SetBox(procs[a.pid], a.slot, b);
      } else {
        NoProcessNoBox(St(), a, b);
      }
    }

    lemma NoProcessNoBox(s: State, a: Address, b: Box)
      requires a.pid !in s.procs
      ensures PutBox(s, a, b) == s
    {
    }

    /** Taking a message from a slot that has one, which may post a continuation. */
    method Take(r: RunningProcess, slot: nat)
      requires Valid() && r in procs.Values
      modifies r`boxes, this`posted, this`past
      ensures Valid() && St() == TakeStep(old(St()), r.pid, slot)
    {
      hide TableOk, Placed, DeadOk, Occupants, PidsOf, ValuesOf, PutBox;
      var b := BoxOf(Address(r.pid, slot));
      if b.contents != [] {
        var popped := Pop(b);
        SetBox(r, slot, popped.box);
        posted := posted + popped.posted;
        past := past.(received := past.received + [Letter(Address(r.pid, slot), popped.m)]);
        UnmovedOk(old(St()), St());
      }
    }

    /** `any_ready`. */
    method AnyReadyIn(p: Pid, slots: seq<nat>) returns (ready: bool)
      requires Valid()
      ensures ready == AnyReady(St(), p, slots)
    {
      hide TableOk, Placed, DeadOk, Occupants, PidsOf, ValuesOf, BoxAt;
      ready := false;
      for i := 0 to |slots|
        invariant ready == exists k :: 0 <= k < i && BoxAt(St(), Address(p, slots[k])).contents != []
      {
        var b := BoxOf(Address(p, slots[i]));
        ready := ready || b.contents != [];
      }
    }

    /** `get_vals`. */
    method TakeFrom(r: RunningProcess, slots: seq<nat>)
      requires Valid() && r in procs.Values
      modifies r`boxes, this`posted, this`past
      ensures Valid() && St() == TakeAll(old(St()), r.pid, slots)
    {
      hide TableOk, Placed, DeadOk, Occupants, PidsOf, ValuesOf, TakeStep, Valid;
      assert slots[0..] == slots;
      for i := 0 to |slots|
        invariant Valid() && r in procs.Values
        invariant TakeAll(St(), r.pid, slots[i..]) == TakeAll(old(St()), r.pid, slots)
      {
        assert slots[i..][1..] == slots[i + 1..];
        Take(r, slots[i]);
      }
    }

    /** What the context does with the wait that a task returned. */
    method Await(r: RunningProcess, w: Wait)
      requires Valid() && r in procs.Values
      modifies this, procs.Values
      ensures Valid() && St() == SuspendStep(old(St()), r.pid, w) && procs == old(procs)
    {
      hide TableOk, Placed, DeadOk, Occupants, PidsOf, ValuesOf, PutBox, PutWait, SameLinks;
      KnownIs(r);
      var me := Waiter(r.pid, r.resumes);
      SetWaiting(r, w);
      running := None;
      UnmovedOk(old(St()), St());
      assert r in procs.Values;
      match w
      case Yielding(pending) =>
        QueueResume(r.pid, r.resumes);
        if pending.Some? {
          past := past.(throttled := past.throttled + {(r.pid, pending.value.to)});
          UnmovedOk(old(St()), St());
        }
      case Receiving(_, _, future) =>
        if future {
          outside := outside + [me];
          UnmovedOk(old(St()), St());
        }
      case OnOutside =>
        outside := outside + [me];
        UnmovedOk(old(St()), St());
      case OnThrottle(l) => SetContinuation(l.to, me);
      case _ =>
    }

    /** A continuation is given to the promise of a mailbox. */
    method SetContinuation(a: Address, me: Waiter)
      requires Valid()
      modifies this`posted, procs.Values
      ensures var r := Continued(BoxAt(old(St()), a).promise, me);
        && Valid()
        && St() == PutBox(old(St()), a, BoxAt(old(St()), a).(promise := r.signal)).(posted := old(posted) + r.posted)
    {
      hide TableOk, Placed, DeadOk, Occupants, PidsOf, ValuesOf, PutBox, BoxAt;
      var b := BoxOf(a);
      var res := Continued(b.promise, me);
      SetBoxAt(a, b.(promise := res.signal));
      posted := posted + res.posted;
      UnmovedOk(old(St()), St());
    }

    /** The beginning of `resume`, up to the body. */
    method Begin(r: RunningProcess)
      requires Valid() && r in procs.Values
      modifies this`running, procs.Values
      ensures Valid() && St() == BeginStep(old(St()), r.pid)
    {
      hide TableOk, Placed, DeadOk, Occupants, PidsOf, ValuesOf, PutBox, BoxAt, SameLinks;
      KnownIs(r);
      var w := r.lastWaiting;
      if w.OnThrottle? {
        var b := BoxOf(w.letter.to);
        SetBoxAt(w.letter.to, b.(promise := Processed(b.promise)));
      }
      KnownIs(r);
      Moved(r, Running(PendingOf(w)));
    }

    method Moved(r: RunningProcess, w: Wait)
      requires Valid() && r in procs.Values
      modifies this`running, r`resumes, r`lastWaiting
      ensures var s := old(St());
        && Valid()
        && St() == Put(s, r.pid, At(s, r.pid).(resumes := At(s, r.pid).resumes + 1, waiting := w))
                   .(running := Some(r.pid))
    {
      hide TableOk, DeadOk, Occupants, PidsOf;
      KnownIs(r);
      r.resumes := r.resumes + 1;
      r.lastWaiting := w;
      running := Some(r.pid);
      assert ValuesOf(procs) == old(ValuesOf(procs))[r.pid := r.Value()];
      hide Placed, ValuesOf;
      UnmovedOk(old(St()), St());
    }

    /** The task is done, or threw. */
    method Done(r: RunningProcess)
      requires Valid()
      modifies this, procs.Values
      ensures Valid() && St() == FinishStep(old(St()), r.pid) && procs == old(procs)
    {
      hide TableOk, Placed, DeadOk, Occupants, PidsOf, ValuesOf, DoomStep, SameLinks;
      AddToDestroy(r.pid);
      running := None;
      UnmovedOk(DoomStep(old(St()), r.pid), St());
    }

    /** No process was dropped, and `r` is one still. */
    twostate predicate Kept(r: RunningProcess)
      reads this
    {
      r in procs.Values && forall o :: o in procs.Values ==> o in old(procs.Values) || fresh(o)
    }

    method IsAddress(a: Address) returns (ok: bool)
      ensures ok == Addressable(St(), a)
    {
      hide Occupants, PidsOf, ValuesOf;
      ok := a.pid in past.born && a.slot < |past.born[a.pid].boxes|;
    }

    method ObeySpawn(r: RunningProcess, size: nat, parent: RunningProcess?, both: bool, notify: seq<Address>)
      requires Valid() && r in procs.Values && (parent != null ==> parent == r)
      modifies this, procs.Values
      ensures Valid() && Kept(r)
      ensures St() == SpawnStep(old(St()), size, if parent == null then None else Some(r.pid), both, notify)
    {
      hide Valid, SpawnStep;
      var child := SpawnChild(size, parent, both, notify);
      Grown(old(procs), procs, child, r);
    }

    lemma Grown(before: map<Pid, RunningProcess>, after: map<Pid, RunningProcess>, child: RunningProcess,
            r: RunningProcess)
      requires after == before[child.pid := child] && child.pid !in before && r in before.Values
      ensures r in after.Values && forall o :: o in after.Values ==> o in before.Values || o == child
    {
      KeepsParent(before, r, child.pid, child);
      forall o | o in after.Values ensures o in before.Values || o == child {
        var q :| q in after && after[q] == o;
        if q != child.pid {
          assert before[q] == o;
        }
      }
    }

    /** A send, discarded or awaited. */
    method ObeySend(r: RunningProcess, l: Letter, awaited: bool) returns (goesOn: bool)
      requires Valid() && r in procs.Values
      modifies this, procs.Values
      ensures Valid() && Kept(r)
      ensures var s, t := old(St()), SendPlainStep(old(St()), l);
        if !Addressable(s, l.to) then !goesOn && St() == FinishStep(s, r.pid)
        else if awaited && WaitOnQueue(t) then !goesOn && St() == SuspendStep(t, r.pid, Yielding(None))
        else goesOn && St() == t
    {
      hide TableOk, Placed, DeadOk, Occupants, PidsOf, ValuesOf, SendPlainStep, FinishStep, SuspendStep, Addressable;
      var ok := IsAddress(l.to);
      if !ok {
        Done(r);
        return false;
      }
      SendPlain(l);
      if awaited && |queue| > 10 {
        Await(r, Yielding(None));
        return false;
      }
      return true;
    }

    /** `sendThrottled` up to its loop, and then the loop. */
    method ObeyThrottled(r: RunningProcess, l: Letter, ghost rest: seq<Command>) returns (goesOn: bool)
      requires Valid() && r in procs.Values
      modifies this, procs.Values
      ensures Valid() && Kept(r)
      ensures var s, p := old(St()), r.pid;
        (if !Addressable(s, l.to) then FinishStep(s, p)
         else if WaitOnQueue(s) then SuspendStep(s, p, Yielding(Some(l)))
         else Throttle(PassStep(s, p, l), p, l, rest)) == if goesOn then RunBody(St(), p, rest) else St()
    {
      hide TableOk, Placed, DeadOk, Occupants, PidsOf, ValuesOf, FinishStep, SuspendStep, Addressable, Throttle,
           PutWait, SameLinks, RunBody;
      var ok := IsAddress(l.to);
      if !ok {
        Done(r);
        return false;
      }
      if |queue| > 10 {
        Await(r, Yielding(Some(l)));
        return false;
      }
      SetWaiting(r, Running(Some(l)));
      past := past.(throttled := past.throttled + {(r.pid, l.to)});
      KnownIs(r);
      UnmovedOk(PutWait(old(St()), r.pid, Running(Some(l))), St());
      goesOn := ThrottleLoop(r, l, rest);
    }

    /** One round of the loop of `sendThrottled`: it goes on waiting, or sends. */
    method ThrottleLoop(r: RunningProcess, l: Letter, ghost rest: seq<Command>) returns (goesOn: bool)
      requires Valid() && r in procs.Values && r.lastWaiting == Running(Some(l))
      modifies this, procs.Values
      ensures Valid() && Kept(r)
      ensures Throttle(old(St()), r.pid, l, rest) == if goesOn then RunBody(St(), r.pid, rest) else St()
    {
      hide TableOk, Placed, DeadOk, Occupants, PidsOf, ValuesOf, SuspendStep, PutWait, SameLinks, RunBody, Full;
      var full := CanQueue(l.to);
      if full {
        Await(r, OnThrottle(l));
        return false;
      }
      KnownIs(r);
      SetWaiting(r, Running(None));
      QueueSend(l);
      return true;
    }

    /** A receive that finds something, or suspends. */
    method ObeyReceive(r: RunningProcess, slots: seq<nat>, plain: bool, future: bool) returns (goesOn: bool)
      requires Valid() && r in procs.Values
      modifies this, procs.Values
      ensures Valid() && Kept(r) && goesOn == AnyReady(old(St()), r.pid, slots)
      ensures St() == if goesOn then TakeAll(old(St()), r.pid, slots)
                      else SuspendStep(old(St()), r.pid, Receiving(slots, plain, future))
    {
      hide Valid, SuspendStep, TakeAll, AnyReady;
      goesOn := AnyReadyIn(r.pid, slots);
      if goesOn {
        TakeFrom(r, slots);
      } else {
        Await(r, Receiving(slots, plain, future));
      }
    }

    /** One command of a body. */
    method ObeyOne(r: RunningProcess, c: Command, ghost rest: seq<Command>) returns (goesOn: bool)
      requires Valid() && r in procs.Values
      modifies this, procs.Values
      ensures Valid() && Kept(r)
      ensures Obey(old(St()), r.pid, c, rest) == if goesOn then RunBody(St(), r.pid, rest) else St()
    {
      hide Valid, St, RunBody, SpawnStep, LinkStep, DoomStep, FinishStep, SuspendStep, SendPlainStep, PassStep,
           Throttle, TakeAll, AnyReady, Addressable, Live, WaitOnQueue;
      goesOn := true;
      match c
      case SpawnNew(size) => ObeySpawn(r, size, null, false, []);
      case SpawnLink(size) => ObeySpawn(r, size, r, true, []);
      case SpawnLinkNotify(size, to) =>
        goesOn := IsAddress(to);
        if goesOn {
          ObeySpawn(r, size, r, false, [to]);
        } else {
          Done(r);
        }
      case LinkTo(q) =>
        goesOn := LinkTo(r, q);
        if !goesOn {
          Done(r);
        }
      case QueueKill(q) => AddToDestroy(q);
      case Send(to, n) => goesOn := ObeySend(r, Letter(to, Data(n)), false);
      case SendAwaited(to, n) => goesOn := ObeySend(r, Letter(to, Data(n)), true);
      case SendThrottled(to, n) => goesOn := ObeyThrottled(r, Letter(to, Data(n)), rest);
      case Recv(slot) => goesOn := ObeyReceive(r, [slot], true, false);
      case TryRecv(slots, future) => goesOn := ObeyReceive(r, slots, false, future);
      case Yield => Await(r, Yielding(None)); goesOn := false;
      case Sleep => Await(r, Sleeping); goesOn := false;
      case AwaitOutside => Await(r, OnOutside); goesOn := false;
      case Throw => Done(r); goesOn := false;
    }

    /** The body of a process, until it suspends, ends or throws. */
    method RunTask(r: RunningProcess, cmds: seq<Command>)
      requires Valid() && r in procs.Values
      modifies this, procs.Values
      ensures Valid() && Kept(r) && St() == RunBody(old(St()), r.pid, cmds)
    {
      hide Valid, St, Obey, FinishStep;
      assert cmds[0..] == cmds;
      var i := 0;
      while i < |cmds|
        invariant 0 <= i <= |cmds| && Valid() && Kept(r)
        invariant RunBody(St(), r.pid, cmds[i..]) == RunBody(old(St()), r.pid, cmds)
      {
        assert cmds[i..][0] == cmds[i] && cmds[i..][1..] == cmds[i + 1..];
        var goesOn := ObeyOne(r, cmds[i], cmds[i + 1..]);
        if !goesOn {
          return;
        }
        i := i + 1;
      }
      Done(r);
    }

    // -------------------------------------------------------------- resuming

    /** A plain receive that finds nothing: "Message was not ready". */
    method RaiseNotReady(r: RunningProcess)
      requires Valid() && r in procs.Values
      modifies this, procs.Values
      ensures Valid() && Kept(r)
      ensures var s := old(St()); St() == FinishStep(s.(past := s.past.(raised := true)), r.pid)
    {
      hide TableOk, Placed, DeadOk, Occupants, PidsOf, ValuesOf, FinishStep;
      past := past.(raised := true);
      UnmovedOk(old(St()), St());
      Done(r);
    }

    /** What an await does once its wait is over, and then the body. */
    method ResumeBody(r: RunningProcess, was: Wait, cmds: seq<Command>)
      requires Valid() && r in procs.Values && r.lastWaiting == Running(PendingOf(was))
      modifies this, procs.Values
      ensures Valid() && Kept(r) && St() == GoOn(old(St()), r.pid, was, cmds)
    {
      hide Valid, St, RunBody, Throttle, TakeAll, AnyReady, FinishStep;
      if was.Receiving? {
        var ready := AnyReadyIn(r.pid, was.slots);
        if was.plain && !ready {
          RaiseNotReady(r);
        } else {
          TakeFrom(r, was.slots);
          RunTask(r, cmds);
        }
      } else if PendingOf(was).Some? {
        var goesOn := ThrottleLoop(r, PendingOf(was).value, cmds);
        if goesOn {
          RunTask(r, cmds);
        }
      } else {
        RunTask(r, cmds);
      }
    }

    /** `RunningProcess::resume`. */
    method ResumeTask(r: RunningProcess, cmds: seq<Command>)
      requires Valid() && r in procs.Values
      modifies this, procs.Values
      ensures Valid() && Kept(r)
      ensures St() == if old(r.dead) then old(St()) else ResumeProcess(old(St()), r.pid, cmds)
    {
      if r.dead {
        return;
      }
      var was := r.lastWaiting;
      KnownIs(r);
      Begin(r);
      KnownIs(r);
      BeginsRunning(old(St()), r.pid);
      hide Valid, St, GoOn, BeginStep;
      ResumeBody(r, was, cmds);
    }

    /** `RunningProcess::send`: the message is pushed, and a process that waits for the slot
        is resumed at once. */
    method Receive(r: RunningProcess, l: Letter, cmds: seq<Command>)
      requires Valid() && r in procs.Values && r.pid == l.to.pid && !r.dead
      modifies this, procs.Values
      ensures Valid() && Kept(r)
      ensures var s := old(St());
        var t := PutBox(s, l.to, Mailboxes.Push(BoxAt(s, l.to), l.m));
        St() == if WaitingFor(s, l.to) then ResumeProcess(t, r.pid, cmds) else t
    {
      hide TableOk, Placed, DeadOk, Occupants, PidsOf, ValuesOf, PutBox, BoxAt, ResumeProcess;
      KnownIs(r);
      var waiting := r.lastWaiting.Receiving? && l.to.slot in r.lastWaiting.slots;
      var b := BoxOf(l.to);
      SetBox(r, l.to.slot, Mailboxes.Push(b, l.m));
      if waiting {
        ResumeTask(r, cmds);
      }
    }

    // -------------------------------------------------------------- the loop

    /** The processes after a round are those before it, and new ones. */
    twostate predicate Grew()
      reads this
    {
      forall o :: o in procs.Values ==> o in old(procs.Values) || fresh(o)
    }

    /** `processQueueItem` on the first item. */
    method ProcessQueueItem(cmds: seq<Command>)
      requires Valid() && queue != []
      modifies this, procs.Values
      ensures Valid() && Grew() && St() == ProcessItem(old(St()), cmds)
    {
      hide TableOk, Placed, DeadOk, Occupants, PidsOf, ValuesOf, PutBox, BoxAt, ResumeProcess, WaitingFor, Live;
      var i := queue[0];
      queue := queue[1..];
      UnmovedOk(old(St()), St());
      ghost var s := old(St());
      assert St() == PopItem(s);
      match i
      case Mail(l) =>
        var r := FindProc(l.to.pid);
        ItemSame(s, l.to);
        if r != null {
          KnownIs(r);
          Receive(r, l, cmds);
        }
      case Resume(p, stamp) =>
        var r := FindProc(p);
        ItemSame(s, Address(p, 0));
        if r != null {
          KnownIs(r);
          if r.resumes == stamp {
            ResumeTask(r, cmds);
          }
        }
    }

    lemma ItemSame(s: State, a: Address)
      ensures BoxAt(PopItem(s), a) == BoxAt(s, a) && WaitingFor(PopItem(s), a) == WaitingFor(s, a)
      ensures forall p :: Live(PopItem(s), p) == Live(s, p)
    {
    }

    /** A callback of the io service. A continuation whose process exists, but is dead or
        was resumed since, does nothing. */
    method RunOne(c: Callback)
      requires Valid()
      modifies this, procs.Values
      ensures Valid() && Grew() && St() == RunCallback(old(St()), c)
    {
      hide TableOk, Placed, DeadOk, Occupants, PidsOf, ValuesOf, SpawnStep, SendPlainStep, ResumeProcess,
           Addressable, Live, RemoveAt;
      match c
      case Posted(k, cmds) => RunPosted(k, cmds);
      case TimerOf(q, cmds) =>
        var r := FindProc(q);
        if r != null {
          KnownIs(r);
          if r.lastWaiting.Sleeping? {
            ResumeTask(r, cmds);
          }
        }
      case SetOutside(k) =>
        if k < |outside| {
          posted := posted + [outside[k]];
          outside := RemoveAt(outside, k);
          UnmovedOk(old(St()), St());
        }
      case SendFrom(to, n) =>
        var ok := IsAddress(to);
        if ok {
          SendPlain(Letter(to, Data(n)));
        }
      case SpawnFrom(size) =>
        var r := SpawnChild(size, null, false, []);
        NewGrown(old(procs), procs, r);
      case SpawnUnder(size, q) =>
        AtIs(q);
        if q in procs {
          assert procs[q] in procs.Values;
          var r := SpawnChild(size, procs[q], false, []);
          NewGrown(old(procs), procs, r);
        }
    }

    lemma NewGrown(before: map<Pid, RunningProcess>, after: map<Pid, RunningProcess>, child: RunningProcess)
      requires after == before[child.pid := child] && child.pid !in before
      ensures forall o :: o in after.Values ==> o in before.Values || o == child
    {
      forall o | o in after.Values ensures o in before.Values || o == child {
        var q :| q in after && after[q] == o;
        if q != child.pid {
          assert before[q] == o;
        }
      }
    }

    method RunPosted(k: nat, cmds: seq<Command>)
      requires Valid()
      modifies this, procs.Values
      ensures Valid() && Grew() && St() == RunCallback(old(St()), Posted(k, cmds))
    {
      hide TableOk, Placed, DeadOk, Occupants, PidsOf, ValuesOf, ResumeProcess, Live, RemoveAt;
      if k < |posted| {
        var w := posted[k];
        posted := RemoveAt(posted, k);
        UnmovedOk(old(St()), St());
        SameLive(old(St()), St());
        AtIs(w.pid);
        DeadOrLive(w.pid);
        if w.pid in procs && procs[w.pid].resumes == w.stamp {
          var r := procs[w.pid];
          assert r in procs.Values;
          KnownIs(r);
          ResumeTask(r, cmds);
        }
      }
    }

    /** A process that exists is dead, or in the table. */
    lemma DeadOrLive(p: Pid)
      requires Valid()
      ensures p in procs ==> (procs[p].dead <==> !Live(St(), p))
      ensures Live(St(), p) ==> p in procs
    {
      TableFacts(St());
      AtIs(p);
      hide TableOk;
      if p in procs {
        if Live(St(), p) {
          assert St().table[p.idx] == Some(p);
          assert processes[p.idx] == procs[p];
        } else {
          var i :| 0 <= i < |PidsOf(toDestroy)| && PidsOf(toDestroy)[i] == p;
          assert toDestroy[i] == procs[p];
        }
      }
    }

    /** Dooms those that a destroyed process takes with it. */
    method DoomEach(qs: seq<Pid>)
      requires Valid()
      modifies this, procs.Values
      ensures Valid() && procs == old(procs) && St() == DoomAll(old(St()), qs)
    {
      hide Valid, St, DoomStep;
      assert qs[0..] == qs;
      for i := 0 to |qs|
        invariant Valid() && procs == old(procs)
        invariant DoomAll(St(), qs[i..]) == DoomAll(old(St()), qs)
      {
        assert qs[i..][0] == qs[i] && qs[i..][1..] == qs[i + 1..];
        AddToDestroy(qs[i]);
      }
    }

    /** Sends the death notices of `p`. */
    method NotifyEach(p: Pid, to: seq<Address>)
      modifies this`queue, this`past
      ensures var ls := Notices(p, to);
        && queue == old(queue) + Mails(ls)
        && past == old(past).(sent := old(past).sent + ls, plain := old(past).plain + Those(to))
    {
      for i := 0 to |to|
        invariant var ls := Notices(p, to[..i]);
          && queue == old(queue) + Mails(ls)
          && past == old(past).(sent := old(past).sent + ls, plain := old(past).plain + Those(to[..i]))
      {
        var l := Letter(to[i], Died(p));
        NoticesMore(p, to, i);
        queue := queue + [Mail(l)];
        past := past.(sent := past.sent + [l], plain := past.plain + {to[i]});
      }
      assert to[..|to|] == to;
    }

    lemma NoticesMore(p: Pid, to: seq<Address>, i: nat)
      requires i < |to|
      ensures var ls := Notices(p, to[..i]);
        && Notices(p, to[..i + 1]) == ls + [Letter(to[i], Died(p))]
        && Mails(ls + [Letter(to[i], Died(p))]) == Mails(ls) + [Mail(Letter(to[i], Died(p)))]
      ensures Those(to[..i + 1]) == Those(to[..i]) + {to[i]}
    {
      assert to[..i + 1] == to[..i] + [to[i]];
      NoticesSnoc(p, to[..i], to[i]);
      MailsSnoc(Notices(p, to[..i]), Letter(to[i], Died(p)));
    }

    lemma {:induction false} NoticesSnoc(p: Pid, to: seq<Address>, a: Address)
      ensures Notices(p, to + [a]) == Notices(p, to) + [Letter(a, Died(p))]
      decreases |to|
    {
      if to != [] {
        assert (to + [a])[1..] == to[1..] + [a];
        NoticesSnoc(p, to[1..], a);
      }
    }

    lemma {:induction false} MailsSnoc(ls: seq<Letter>, l: Letter)
      ensures Mails(ls + [l]) == Mails(ls) + [Mail(l)]
      decreases |ls|
    {
      if ls != [] {
        assert (ls + [l])[1..] == ls[1..] + [l];
        MailsSnoc(ls[1..], l);
      }
    }

    /** The destructors of the mailboxes of a process signal their promises. */
    method ReleaseEach(boxes: seq<Box>)
      modifies this`posted
      ensures posted == old(posted) + Wakes(boxes)
    {
      assert boxes[0..] == boxes;
      for i := 0 to |boxes|
        invariant posted + Wakes(boxes[i..]) == old(posted) + Wakes(boxes)
      {
        assert boxes[i..][0] == boxes[i] && boxes[i..][1..] == boxes[i + 1..];
        var r := Fired(boxes[i].promise);
        assert posted + (r.posted + Wakes(boxes[i + 1..])) == posted + r.posted + Wakes(boxes[i + 1..]);
        posted := posted + r.posted;
      }
      assert posted + [] == posted;
    }

    /** `toDestroy_.pop_front()` and `destroy`. The process is taken off the deque last,
        which comes to the same, as those it takes with it are added at the back. */
    method DestroyFront()
      requires Valid() && running.None? && toDestroy != []
      modifies this, procs.Values
      ensures Valid() && Grew() && St() == Destroy(old(St()))
    {
      hide TableOk, Placed, DeadOk, Occupants, PidsOf, ValuesOf, DoomAll, Notices, Mails, Wakes, Destroy, MayBury,
           SameLinks, Live, BuryStep;
      ghost var s := St();
      var r := toDestroy[0];
      FrontIs(r);
      DestroyIs(s);
      DoomEach(r.killOnDie);
      ghost var u := St();
      KnownIs(r);
      BuryIsThis(u, r);
      DoomedOnce(u);
      StillFront(r);
      NotifyEach(r.pid, r.notifyOnDie);
      ReleaseEach(r.boxes);
      OnlyOnce();
      Forget(r);
    }

    /** Destroying is burying once the others are doomed. */
    lemma DestroyIs(s: State)
      requires TableOk(s) && s.running.None? && s.doomed != []
      ensures var u := DoomAll(s, At(s, s.doomed[0]).killOnDie);
        && TableOk(Destroy(s)) && Destroy(s) == BuryStep(u)
        && u.doomed != [] && u.doomed[0] == s.doomed[0] && u.procs == s.procs
    {
      hide TableOk;
      DestroySteps(s);
      DestroyFacts(s);
      FrontStays(s);
    }

    lemma BuryIsThis(u: State, r: RunningProcess)
      requires u.doomed != [] && u.doomed[0] == r.pid && At(u, r.pid) == r.Value()
      ensures BuryStep(u) ==
        u.(doomed := u.doomed[1..], procs := u.procs - {r.pid}, queue := u.queue + Mails(Notices(r.pid, r.notifyOnDie)),
           posted := u.posted + Wakes(r.boxes),
           past := u.past.(destroyed := u.past.destroyed + [r.pid], sent := u.past.sent + Notices(r.pid, r.notifyOnDie),
                           plain := u.past.plain + Those(r.notifyOnDie)))
    {
      hide Mails, Notices, Wakes, SameLinks;
    }

    lemma DoomedOnce(s: State)
      requires TableOk(s)
      ensures Distinct(s.doomed)
    {
    }

    lemma StillFront(r: RunningProcess)
      requires Placed(processes, toDestroy, procs) && r in procs.Values && PidsOf(toDestroy) != []
      requires PidsOf(toDestroy)[0] == r.pid
      ensures toDestroy != [] && toDestroy[0] == r
    {
      KnownIs(r);
    }

    /** The first of the doomed is not among the others. */
    lemma OnlyOnce()
      requires Placed(processes, toDestroy, procs) && toDestroy != [] && Distinct(PidsOf(toDestroy))
      ensures forall i :: 0 < i < |toDestroy| ==> toDestroy[i].pid != toDestroy[0].pid
    {
      hide Placed;
      forall i | 0 < i < |toDestroy| ensures toDestroy[i].pid != toDestroy[0].pid {
        assert PidsOf(toDestroy)[0] != PidsOf(toDestroy)[i];
      }
    }

    lemma FrontIs(r: RunningProcess)
      requires Valid() && toDestroy != [] && r == toDestroy[0]
      ensures r in procs.Values && r.pid in procs && procs[r.pid] == r && St().doomed != [] && St().doomed[0] == r.pid
      ensures At(St(), r.pid) == r.Value()
    {
      assert r in procs.Values by { assert procs[r.pid] == r; }
      KnownIs(r);
    }

    lemma FrontStays(s: State)
      requires TableOk(s) && s.doomed != []
      ensures var u := DoomAll(s, At(s, s.doomed[0]).killOnDie);
        u.doomed != [] && u.doomed[0] == s.doomed[0] && u.procs == s.procs
    {
      DoomAllFacts(s, At(s, s.doomed[0]).killOnDie);
    }

    /** The destroyed process is no more. */
    method Forget(r: RunningProcess)
      requires Placed(processes, toDestroy, procs) && DeadOk(processes, toDestroy, procs)
      requires toDestroy != [] && toDestroy[0] == r && PidsOf(toDestroy)[0] == r.pid
      requires forall i :: 0 < i < |toDestroy| ==> toDestroy[i].pid != r.pid
      modifies this`toDestroy, this`procs, this`past
      ensures Placed(processes, toDestroy, procs) && DeadOk(processes, toDestroy, procs)
      ensures procs == old(procs) - {r.pid}
      ensures St() == old(St()).(doomed := old(St()).doomed[1..], procs := old(St()).procs - {r.pid},
                                 past := old(past).(destroyed := old(past).destroyed + [r.pid]))
    {
      hide Occupants;
      assert r.dead && r in procs.Values by { assert procs[r.pid] == r; }
      NotInTable(r);
      PlacedWithout(processes, toDestroy, procs, r);
      assert forall i :: 0 <= i < |toDestroy[1..]| ==> toDestroy[1..][i].dead;
      WithoutFirst(toDestroy);
      toDestroy := toDestroy[1..];
      procs := procs - {r.pid};
      past := past.(destroyed := past.destroyed + [r.pid]);
      assert ValuesOf(procs) == old(ValuesOf(procs)) - {r.pid};
    }

    lemma NotInTable(r: RunningProcess)
      requires Placed(processes, toDestroy, procs) && DeadOk(processes, toDestroy, procs) && r.dead
      requires r.pid in procs && procs[r.pid] == r
      ensures forall i :: 0 <= i < |processes| && processes[i] != null ==> processes[i].pid != r.pid
    {
    }

    lemma PlacedWithout(processes: seq<RunningProcess?>, toDestroy: seq<RunningProcess>, procs: map<Pid,
            RunningProcess>, r: RunningProcess)
      requires Placed(processes, toDestroy, procs) && toDestroy != []
      requires forall i :: 0 <= i < |processes| && processes[i] != null ==> processes[i].pid != r.pid
      requires forall i :: 0 < i < |toDestroy| ==> toDestroy[i].pid != r.pid
      ensures Placed(processes, toDestroy[1..], procs - {r.pid})
    {
    }

    lemma WithoutFirst(ps: seq<RunningProcess>)
      requires ps != []
      ensures PidsOf(ps[1..]) == PidsOf(ps)[1..]
    {
    }

    lemma DestroyedRuns(s: State)
      requires Rests(s) && s.doomed != []
      ensures Rests(Destroy(s)) && Pending(Destroy(s)) == Pending(s) - 1 && Drain(s) == Drain(Destroy(s))
      ensures s.running.None?
    {
      hide Inv, Destroy, Pending;
      FollowsSelf(s);
      DestroyRuns(s, s);
      DestroyPending(s);
    }

    /** `while (toDestroy_.size())`. */
    method DrainAll()
      requires Valid() && Rests(St())
      modifies this, procs.Values
      ensures Valid() && Grew() && Rests(St()) && toDestroy == [] && St() == Drain(old(St()))
    {
      hide TableOk, Placed, DeadOk, Occupants, PidsOf, ValuesOf, Rests, Destroy, Pending;
      while toDestroy != []
        invariant Valid() && Grew() && Rests(St())
        invariant Drain(St()) == Drain(old(St()))
        decreases Pending(St())
      {
        DoomedAre();
        DestroyedRuns(St());
        DestroyFront();
      }
      DoomedAre();
    }

    lemma DoomedAre()
      ensures St().doomed == [] <==> toDestroy == []
    {
    }

    /** `run_one`, then `poll` until nothing is left. */
    method RunEach(cs: seq<Callback>)
      requires Valid()
      modifies this, procs.Values
      ensures Valid() && Grew() && St() == RunCallbacks(old(St()), cs)
    {
      hide Valid, St, RunCallback;
      assert cs[0..] == cs;
      for i := 0 to |cs|
        invariant Valid() && Grew()
        invariant RunCallbacks(St(), cs[i..]) == RunCallbacks(old(St()), cs)
      {
        assert cs[i..][0] == cs[i] && cs[i..][1..] == cs[i + 1..];
        RunOne(cs[i]);
      }
    }

    /** One round of the loop. */
    method RunRound(c: Choice)
      requires Valid() && Rests(St())
      modifies this, procs.Values
      ensures Valid() && Grew() && Rests(St()) && toDestroy == [] && St() == Round(old(St()), c)
    {
      RoundRests(St(), c);
      hide Valid, Rests, ProcessItem, RunCallbacks, Drain, Occupants, PidsOf, ValuesOf;
      if queue != [] {
        ProcessQueueItem(c.cmds);
      } else {
        RunEach(c.callbacks);
      }
      DrainAll();
    }

    /** `Context::run`: whether it returned, or still goes on when the choices are used up. */
    method Run(cs: seq<Choice>) returns (returned: bool)
      requires Valid() && Rests(St()) && toDestroy == []
      modifies this, procs.Values
      ensures Valid() && Grew() && Rests(St()) && toDestroy == []
      ensures St() == RunFor(old(St()), cs) && returned == !Going(St())
    {
      hide Valid, Rests, Round, Occupants, PidsOf, ValuesOf;
      assert cs[0..] == cs;
      var i := 0;
      while i < |cs| && |processes| != |tombstones|
        invariant 0 <= i <= |cs| && Valid() && Grew() && Rests(St()) && toDestroy == []
        invariant RunFor(St(), cs[i..]) == RunFor(old(St()), cs)
      {
        assert cs[i..][0] == cs[i] && cs[i..][1..] == cs[i + 1..];
        RunRound(cs[i]);
        i := i + 1;
      }
      returned := |processes| == |tombstones|;
    }

    lemma Prepared(s: State)
      requires Valid() && St() == s && s.doomed == []
      ensures toDestroy == []
    {
    }

    lemma Ends()
      ensures St().past == past
    {
    }

    /** The processes that are spawned before the loop is entered. */
    method SpawnEach(sizes: seq<nat>)
      requires Valid()
      modifies this, procs.Values
      ensures Valid() && Grew() && St() == Prepare(old(St()), sizes)
    {
      hide Valid, St, SpawnStep;
      assert sizes[0..] == sizes;
      for i := 0 to |sizes|
        invariant Valid() && Grew()
        invariant Prepare(St(), sizes[i..]) == Prepare(old(St()), sizes)
      {
        assert sizes[i..][0] == sizes[i] && sizes[i..][1..] == sizes[i + 1..];
        label before:
        var r := SpawnChild(sizes[i], null, false, []);
        NewGrown(old@before(procs), procs, r);
      }
    }
  }

  /** A whole run: some processes are spawned, then the context runs. When it returns,
      every process ever spawned has been destroyed, exactly once. */
  method Launch(sizes: seq<nat>, cs: seq<Choice>) returns (returned: bool, destroyed: seq<Pid>, sent: seq<Letter>)
    ensures returned == !Going(Top(sizes, cs))
    ensures destroyed == Top(sizes, cs).past.destroyed && sent == Top(sizes, cs).past.sent
    ensures Distinct(destroyed)
    ensures returned ==> forall p :: p in Top(sizes, cs).past.born ==> p in destroyed
  {
    hide TableOk, RunFor, Prepare, Rests, Top, Occupants, PidsOf, ValuesOf, Distinct;
    LaunchFacts(sizes, cs);
    var c := new Context();
    c.SpawnEach(sizes);
    c.Prepared(Prepare(BEGINNING, sizes));
    returned := c.Run(cs);
    c.Ends();
    destroyed, sent := c.past.destroyed, c.past.sent;
  }

  lemma LaunchFacts(sizes: seq<nat>, cs: seq<Choice>)
    ensures Rests(Prepare(BEGINNING, sizes)) && Prepare(BEGINNING, sizes).doomed == []
    ensures var s := Top(sizes, cs);
      && s == RunFor(Prepare(BEGINNING, sizes), cs) && Distinct(s.past.destroyed)
      && (!Going(s) ==> forall p :: p in s.past.born ==> p in s.past.destroyed)
  {
    hide TableOk, Inv, Prepare, RunFor, Going, Distinct;
    InvBegins();
    FollowsSelf(BEGINNING);
    PrepareRuns(BEGINNING, BEGINNING, sizes);
    EveryRun(sizes, cs);
    RunReturns(sizes, cs);
    RestsFacts(Top(sizes, cs));
    DestroyedOnce(Top(sizes, cs));
  }

  lemma DestroyedOnce(s: State)
    requires TableOk(s)
    ensures Distinct(s.past.destroyed)
  {
  }
}
