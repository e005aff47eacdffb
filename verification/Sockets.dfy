/** The socket process: one reader, one writer and one promise that both signal. */
module Sockets {
  import opened Options
  import opened Mailboxes

  type Chunk = seq<int>

  /** Where the process is: in the `sendThrottled` of `nextRead`, on the promise while a
      write is outstanding, or on the promise and its two slots; it has left its loop, or
      thrown. `Spinning` would be the loop going round for ever without suspending. */
  datatype Where = Running | Sending | OnWrite | OnAny | Ended | Failed | Spinning

  /** What an await of the two slots found. */
  datatype Taken = Taken(first: Option<Chunk>, second: Option<Chunk>)

  /** `reading` and `writing` count the operations outstanding at the socket. `data` and
      `many` are the mailboxes of the two slots, the latter with combined buffers. From
      `read` on, the fields record what happened; `taken` is what each await of the slots
      found, unless it threw. */
  datatype Socket = Socket(
    throttled: bool, eof: bool, except: bool, nextRead: Option<Chunk>, isWriting: bool,
    p: Signal<nat>, posted: seq<nat>, resumes: nat, at: Where,
    reading: nat, writing: nat, data: seq<Chunk>, many: seq<Chunk>,
    read: seq<Chunk>, readOver: bool, forwarded: seq<Chunk>,
    pushedData: seq<Chunk>, pushedMany: seq<Chunk>, written: seq<Chunk>, dropped: seq<Chunk>, taken: seq<Taken>)

  /** As the loop is entered: the first read has been started, and clients that were told of
      the socket may have sent to it already. */
  function Begun(throttled: bool, data: seq<Chunk>, many: seq<Chunk>): Socket {
    Socket(throttled, false, false, None, false, Signal(UNSET, None), [], 0, Running, 1, 0, data, many,
           [], false, [], data, many, [], [], [])
  }

  predicate Over(s: Socket) {
    s.at == Ended || s.at == Failed
  }

  // ---------------------------------------------------------------- the loop

  function SetValue(s: Socket): Socket {
    var r := Fired(s.p);
    s.(p := r.signal, posted := s.posted + r.posted)
  }

  /** The pending chunk has been sent: it is reset, and the next read started. */
  function Forward(s: Socket): Socket {
    if s.nextRead.Some? then
      s.(forwarded := s.forwarded + [s.nextRead.value], nextRead := None, reading := s.reading + 1)
    else s
  }

  function FirstOf(c: seq<Chunk>): Option<Chunk> {
    if c == [] then None else Some(c[0])
  }

  function RestOf(c: seq<Chunk>): seq<Chunk> {
    if c == [] then [] else c[1..]
  }

  /** A message is taken from each slot that has one; the first taken is written. */
  function TakeAndWrite(s: Socket): Socket {
    var first, second := FirstOf(s.data), FirstOf(s.many);
    var t := s.(data := RestOf(s.data), many := RestOf(s.many));
    if s.except then t.(at := Failed)
    else
      var u := t.(taken := s.taken + [Taken(first, second)]);
      if first.Some? then Write(u.(dropped := s.dropped + Held(second)), first.value)
      else if second.Some? then Write(u, second.value)
      else u
  }

  /** `write`, which replaces the promise. */
  function Write(s: Socket, c: Chunk): Socket {
    s.(isWriting := true, p := Signal(UNSET, None), writing := s.writing + 1, written := s.written + [c])
  }

  /** Suspends with the promise as the future to be woken by. */
  function Wait(s: Socket, at: Where): Socket {
    var r := Continued(s.p, s.resumes);
    s.(at := at, p := r.signal, posted := s.posted + r.posted)
  }

  /** The loop, until the process suspends, ends or throws. `ready` tells whether a
      `sendThrottled` gets its message into the queue without suspending. */
  function Loop(s: Socket, ready: bool): Socket
    decreases if s.nextRead.Some? then 1 else 0, if s.isWriting then 0 else 1
  {
    if s.eof then s.(at := Ended)
    else if s.nextRead.Some? then
      if ready then Loop(Forward(s), ready) else s.(at := Sending)
    else if s.isWriting then
      if !s.p.isSet then Wait(s, OnWrite)
      else if s.except then s.(at := Failed)
      else s.(at := Spinning)
    else if s.data == [] && s.many == [] then Wait(s, OnAny)
    else
      var t := TakeAndWrite(s);
      if t.at == Failed then t else Loop(t, ready)
  }

  /** `resume`, and what the await then does. */
  function Resume(s: Socket, ready: bool): Socket {
    var t := s.(p := Processed(s.p), resumes := s.resumes + 1, at := Running);
    if s.at == OnWrite then
      if t.except then t.(at := Failed) else Loop(t, ready)
    else
      var u := TakeAndWrite(t);
      if u.at == Failed then u else Loop(u, ready)
  }

  // ---------------------------------------------------------------- what happens to it

  datatype Event =
    | ReadSome(c: Chunk)
    | ReadNone
    | ReadEof
    | ReadError
    | WriteDone
    | WriteError
    | PushData(c: Chunk, ready: bool)
    | PushMany(c: Chunk, ready: bool)
    | Posted(k: nat, ready: bool)
    | SendDone(ready: bool)

  /** What can happen: a completion of what is outstanding, a message, a posted
      continuation, or the end of the suspended `sendThrottled`. */
  predicate Possible(s: Socket, e: Event) {
    !Over(s) && match e
      case ReadSome(c) => s.reading > 0 && c != []
      case ReadNone => s.reading > 0
      case ReadEof => s.reading > 0
      case ReadError => s.reading > 0
      case WriteDone => s.writing > 0
      case WriteError => s.writing > 0
      case PushData(_, _) => true
      case PushMany(_, _) => true
      case Posted(k, _) => k < |s.posted|
      case SendDone(_) => s.at == Sending && s.nextRead.Some?
  }

  function AfterData(s: Socket, c: Chunk): Socket
    requires s.reading > 0
  {
    var t := s.(read := s.read + [c], reading := s.reading - 1);
    if s.throttled then SetValue(t.(nextRead := Some(c))) else t.(forwarded := s.forwarded + [c], reading := s.reading)
  }

  /** A message is in one of the mailboxes. */
  function Pushed(s: Socket, e: Event): Socket
    requires e.PushData? || e.PushMany?
  {
    if e.PushData? then s.(data := s.data + [e.c], pushedData := s.pushedData + [e.c])
    else s.(many := s.many + [e.c], pushedMany := s.pushedMany + [e.c])
  }

  function Unposted(s: Socket, k: nat): Socket
    requires k < |s.posted|
  {
    s.(posted := s.posted[..k] + s.posted[k + 1..])
  }

  function Woken(s: Socket): Socket {
    s.(resumes := s.resumes + 1, at := Running)
  }

  function After(s: Socket, e: Event): Socket
    requires Possible(s, e)
  {
    match e
    case ReadSome(c) => AfterData(s, c)
    case ReadNone => s
    case ReadEof => SetValue(s.(eof := true, reading := s.reading - 1, readOver := true))
    case ReadError => SetValue(s).(except := true, reading := s.reading - 1, readOver := true)
    case WriteDone => SetValue(s.(isWriting := false, writing := s.writing - 1))
    case WriteError => SetValue(s.(isWriting := false, writing := s.writing - 1)).(except := true)
    case PushData(_, ready) => if s.at == OnAny then Resume(Pushed(s, e), ready) else Pushed(s, e)
    case PushMany(_, ready) => if s.at == OnAny then Resume(Pushed(s, e), ready) else Pushed(s, e)
    case Posted(k, ready) =>
      if s.posted[k] == s.resumes && (s.at == OnWrite || s.at == OnAny) then Resume(Unposted(s, k), ready)
      else Unposted(s, k)
    case SendDone(ready) => Loop(Forward(Woken(s)), ready)
  }

  // ---------------------------------------------------------------- reading and writing

  /** Until the reads are over, either one is outstanding or a chunk waits to be forwarded,
      not both; what was forwarded, then that chunk, is what was read. */
  predicate ReadsOk(s: Socket) {
    && s.reading + |Held(s.nextRead)| == (if s.readOver then 0 else 1)
    && s.forwarded + Held(s.nextRead) == s.read
    && (s.eof ==> s.readOver) && (s.readOver ==> s.eof || s.except)
  }

  /** At most one write is outstanding. */
  predicate WritesOk(s: Socket) {
    s.writing == if s.isWriting then 1 else 0
  }

  // What the awaits of the slots found: in the first, in the second, what is written of it,
  // and what is not.

  function Firsts(ts: seq<Taken>): seq<Chunk> {
    if ts == [] then [] else Firsts(ts[..|ts| - 1]) + Held(ts[|ts| - 1].first)
  }

  function Seconds(ts: seq<Taken>): seq<Chunk> {
    if ts == [] then [] else Seconds(ts[..|ts| - 1]) + Held(ts[|ts| - 1].second)
  }

  function Chosen(ts: seq<Taken>): seq<Chunk> {
    if ts == [] then []
    else
      var t := ts[|ts| - 1];
      Chosen(ts[..|ts| - 1]) + if t.first.Some? then [t.first.value] else Held(t.second)
  }

  function Unwritten(ts: seq<Taken>): seq<Chunk> {
    if ts == [] then []
    else
      var t := ts[|ts| - 1];
      Unwritten(ts[..|ts| - 1]) + if t.first.Some? then Held(t.second) else []
  }

  predicate Both(t: Taken) {
    t.first.Some? && t.second.Some?
  }

  /** What each slot was sent has been taken from it, in order, or is in its mailbox. */
  predicate TakenOk(s: Socket) {
    s.pushedData == Firsts(s.taken) + s.data && s.pushedMany == Seconds(s.taken) + s.many
  }

  /** Of what each await found the first is written, and the second if there was no first. */
  predicate ChosenOk(s: Socket) {
    s.written == Chosen(s.taken) && s.dropped == Unwritten(s.taken)
  }

  /** Nothing is dropped as long as no await finds a message in both slots. */
  lemma {:induction false} DroppedOfBoth(ts: seq<Taken>)
    ensures Unwritten(ts) == [] <==> forall i :: 0 <= i < |ts| ==> !Both(ts[i])
    decreases |ts|
  {
    if ts != [] {
      var rest, t := ts[..|ts| - 1], ts[|ts| - 1];
      DroppedOfBoth(rest);
      assert ts == rest + [t];
      assert Unwritten(ts) == [] <==> Unwritten(rest) == [] && !Both(t);
    }
  }

  /** With one slot in use, what is taken from it is written. */
  lemma {:induction false} OneSlot(ts: seq<Taken>)
    ensures Seconds(ts) == [] ==> Chosen(ts) == Firsts(ts)
    ensures Firsts(ts) == [] ==> Chosen(ts) == Seconds(ts)
    decreases |ts|
  {
    if ts != [] {
      OneSlot(ts[..|ts| - 1]);
    }
  }

  /** All that is taken is written or dropped. */
  lemma {:induction false} AllTaken(ts: seq<Taken>)
    ensures multiset(Chosen(ts)) + multiset(Unwritten(ts)) == multiset(Firsts(ts)) + multiset(Seconds(ts))
    decreases |ts|
  {
    if ts != [] {
      var rest, t := ts[..|ts| - 1], ts[|ts| - 1];
      var c := if t.first.Some? then [t.first.value] else Held(t.second);
      var u := if t.first.Some? then Held(t.second) else [];
      AllTaken(rest);
      assert c + u == Held(t.first) + Held(t.second);
      FourMore(Chosen(rest), Unwritten(rest), Firsts(rest), Seconds(rest), c, u, Held(t.first), Held(t.second));
    }
  }

  lemma FourMore<A>(c: seq<A>, u: seq<A>, f: seq<A>, s: seq<A>, c': seq<A>, u': seq<A>, f': seq<A>, s': seq<A>)
    requires multiset(c) + multiset(u) == multiset(f) + multiset(s) && c' + u' == f' + s'
    ensures multiset(c + c') + multiset(u + u') == multiset(f + f') + multiset(s + s')
  {
    Shuffle(multiset(c), multiset(c'), multiset(u), multiset(u'));
    Shuffle(multiset(f), multiset(f'), multiset(s), multiset(s'));
    assert multiset(c') + multiset(u') == multiset(c' + u') == multiset(f' + s') == multiset(f') + multiset(s');
  }

  lemma Shuffle<A>(a: multiset<A>, b: multiset<A>, c: multiset<A>, d: multiset<A>)
    ensures (a + b) + (c + d) == (a + c) + (b + d)
  {
  }

  // ---------------------------------------------------------------- waking up

  /** The loop has something to do. */
  predicate Pending(s: Socket) {
    s.eof || s.except || s.nextRead.Some? || (s.at == OnWrite && !s.isWriting)
  }

  /** Suspended on the promise, the process is known to it and has nothing to do, or its
      wake-up is posted. */
  predicate WakesOk(s: Socket) {
    match s.at
    case Running => s.p.exec.None? && (s.isWriting ==> !s.p.isSet) && (s.except ==> s.p.isSet && !s.isWriting)
    case Sending =>
      && s.p.exec.None? && (s.isWriting ==> !s.p.isSet) && (s.except ==> s.p.isSet && !s.isWriting)
      && s.nextRead.Some?
    case OnWrite => s.resumes in s.posted || (s.p == Signal(false, Some(s.resumes)) && !Pending(s))
    case OnAny => !s.isWriting && s.data == [] && s.many == [] &&
                  (s.resumes in s.posted || (s.p == Signal(false, Some(s.resumes)) && !Pending(s)))
    case Ended => s.eof
    case Failed => s.except
    case Spinning => false
  }

  /** No posted wake-up comes from the future, nor is one current that nobody waits for. */
  predicate PostedOk(s: Socket) {
    && Settled(s.p) && (s.p.exec.Some? ==> s.p.exec.value <= s.resumes)
    && forall i :: 0 <= i < |s.posted| ==>
         s.posted[i] <= s.resumes && (s.posted[i] == s.resumes ==> s.at != Running && s.at != Sending && s.p.exec.None?)
  }

  predicate SocketOk(s: Socket) {
    && WakesOk(s) && PostedOk(s)
    && ReadsOk(s) && WritesOk(s) && ChosenOk(s) && (s.at != Failed ==> TakenOk(s))
  }

  lemma Begins(throttled: bool, data: seq<Chunk>, many: seq<Chunk>)
    ensures SocketOk(Begun(throttled, data, many))
  {
    assert [] + data == data && [] + many == many;
  }

  lemma TakeOrder(s: Socket)
    requires TakenOk(s) && ChosenOk(s) && !s.except
    ensures TakenOk(TakeAndWrite(s)) && ChosenOk(TakeAndWrite(s))
  {
    hide TakeAndWrite, FirstOf, RestOf, Firsts, Seconds, Chosen, Unwritten;
    var one, t := Taken(FirstOf(s.data), FirstOf(s.many)), TakeAndWrite(s);
    TakeIs(s);
    OneMore(s.taken, one);
    FrontOff(s.data);
    FrontOff(s.many);
    assert Firsts(s.taken) + (Held(one.first) + t.data) == Firsts(s.taken) + Held(one.first) + t.data;
    assert Seconds(s.taken) + (Held(one.second) + t.many) == Seconds(s.taken) + Held(one.second) + t.many;
  }

  lemma TakeIs(s: Socket)
    requires !s.except
    ensures var one, t := Taken(FirstOf(s.data), FirstOf(s.many)), TakeAndWrite(s);
      && t.taken == s.taken + [one] && t.pushedData == s.pushedData && t.pushedMany == s.pushedMany
      && t.data == RestOf(s.data) && t.many == RestOf(s.many)
      && t.dropped == s.dropped + (if one.first.Some? then Held(one.second) else [])
      && t.written == s.written + if one.first.Some? then [one.first.value] else Held(one.second)
  {
    hide FirstOf, RestOf;
  }

  lemma FrontOff(c: seq<Chunk>)
    ensures c == Held(FirstOf(c)) + RestOf(c)
  {
  }

  lemma OneMore(ts: seq<Taken>, t: Taken)
    ensures Firsts(ts + [t]) == Firsts(ts) + Held(t.first) && Seconds(ts + [t]) == Seconds(ts) + Held(t.second)
    ensures Chosen(ts + [t]) == Chosen(ts) + if t.first.Some? then [t.first.value] else Held(t.second)
    ensures Unwritten(ts + [t]) == Unwritten(ts) + if t.first.Some? then Held(t.second) else []
  {
    assert (ts + [t])[..|ts|] == ts;
  }

  /** The loop suspends or ends with everything in order, and does not spin. */
  lemma {:induction false} LoopOk(s: Socket, ready: bool)
    requires SocketOk(s) && s.at == Running
    ensures SocketOk(Loop(s, ready)) && Loop(s, ready).at != Running
    decreases if s.nextRead.Some? then 1 else 0, if s.isWriting then 0 else 1
  {
    hide TakenOk, ChosenOk, TakeAndWrite, Forward;
    if s.eof {
    } else if s.nextRead.Some? {
      if ready {
        ForwardOk(s);
        LoopOk(Forward(s), ready);
      }
    } else if !s.isWriting && (s.data != [] || s.many != []) {
      TakesOk(s);
      var t := TakeAndWrite(s);
      if t.at != Failed {
        LoopOk(t, ready);
      }
    } else {
      SameOrder(s, Wait(s, OnWrite));
      SameOrder(s, Wait(s, OnAny));
    }
    SameOrder(s, s.(at := Ended));
    SameOrder(s, s.(at := Sending));
  }

  lemma SameOrder(s: Socket, t: Socket)
    requires t.pushedData == s.pushedData && t.pushedMany == s.pushedMany && t.data == s.data && t.many == s.many
    requires t.written == s.written && t.dropped == s.dropped && t.taken == s.taken
    ensures TakenOk(t) == TakenOk(s) && ChosenOk(t) == ChosenOk(s)
  {
  }

  lemma SameReads(s: Socket, t: Socket)
    requires t.reading == s.reading && t.nextRead == s.nextRead && t.eof == s.eof && t.except == s.except
    requires t.read == s.read && t.readOver == s.readOver && t.forwarded == s.forwarded
    ensures ReadsOk(t) == ReadsOk(s)
  {
  }

  lemma ForwardOk(s: Socket)
    requires SocketOk(s) && s.at == Running && !s.eof && s.nextRead.Some?
    ensures SocketOk(Forward(s)) && Forward(s).at == Running && Forward(s).nextRead.None?
    ensures Forward(s).isWriting == s.isWriting
  {
    hide TakenOk, ChosenOk;
    SameOrder(s, Forward(s));
    assert s.forwarded + [s.nextRead.value] + [] == s.read;
  }

  lemma TakesOk(s: Socket)
    requires SocketOk(s) && s.at == Running && !s.isWriting
    ensures SocketOk(TakeAndWrite(s)) && (TakeAndWrite(s).at == Running || TakeAndWrite(s).at == Failed)
    ensures s.except <==> TakeAndWrite(s).at == Failed
    ensures TakeAndWrite(s).nextRead == s.nextRead
    ensures !s.except && (s.data != [] || s.many != []) ==> TakeAndWrite(s).isWriting
  {
    hide TakenOk, ChosenOk, ReadsOk;
    if !s.except {
      TakeOrder(s);
    } else {
      FailsOk(s);
    }
    SameReads(s, TakeAndWrite(s));
  }

  /** Whether a continuation of an earlier wait is still held does not matter to a write. */
  lemma WriteResets(s: Socket)
    requires !s.except && (s.data != [] || s.many != [])
    ensures TakeAndWrite(s) == TakeAndWrite(s.(p := Signal(UNSET, None)))
  {
  }

  /** A resume from the promise, whatever the mailboxes hold by then. A continuation that
      is still held after a resume by a message goes away with the write. */
  lemma ResumeOk(s: Socket, ready: bool)
    requires s.at == OnWrite || (s.at == OnAny && !s.isWriting)
    requires s.p.exec.Some? && !s.p.isSet ==> s.at == OnAny && (s.data != [] || s.many != [])
    requires PostedOk(s) && ReadsOk(s) && WritesOk(s) && TakenOk(s) && ChosenOk(s)
    ensures SocketOk(Resume(s, ready)) && Resume(s, ready).at != Running
  {
    hide TakenOk, ChosenOk, Loop, TakeAndWrite, ReadsOk;
    var t := s.(p := Processed(s.p), resumes := s.resumes + 1, at := Running);
    SameReads(s, t);
    SameReads(s, t.(p := Signal(UNSET, None)));
    var u := t.(p := Signal(UNSET, None));
    SameOrder(s, u);
    SameOrder(s, t);
    if t.except {
      FailsOk(t);
    } else if s.at == OnWrite {
      LoopOk(t, ready);
    } else {
      if t.p.exec.Some? {
        WriteResets(t);
      }
      TakesOk(u);
      LoopOk(TakeAndWrite(u), ready);
    }
  }

  lemma FailsOk(s: Socket)
    requires s.except && PostedOk(s) && ReadsOk(s) && WritesOk(s) && ChosenOk(s)
    ensures SocketOk(s.(at := Failed)) && SocketOk(TakeAndWrite(s)) && TakeAndWrite(s).at == Failed
  {
  }

  // ---------------------------------------------------------------- events

  lemma ReadOk(s: Socket, e: Event)
    requires SocketOk(s) && s.at != Running && Possible(s, e)
    requires e.ReadSome? || e.ReadNone? || e.ReadEof? || e.ReadError?
    ensures SocketOk(After(s, e)) && After(s, e).at == s.at
  {
    hide TakenOk, ChosenOk;
    SameOrder(s, After(s, e));
    if e.ReadSome? {
      assert s.forwarded == s.read;
    }
  }

  lemma WrittenOk(s: Socket, e: Event)
    requires SocketOk(s) && s.at != Running && Possible(s, e) && (e.WriteDone? || e.WriteError?)
    ensures SocketOk(After(s, e)) && After(s, e).at == s.at
  {
    hide TakenOk, ChosenOk;
    SameOrder(s, After(s, e));
  }

  lemma PushOrder(s: Socket, e: Event)
    requires TakenOk(s) && ChosenOk(s) && (e.PushData? || e.PushMany?)
    ensures TakenOk(Pushed(s, e)) && ChosenOk(Pushed(s, e))
  {
    assert Firsts(s.taken) + (s.data + [e.c]) == Firsts(s.taken) + s.data + [e.c];
    assert Seconds(s.taken) + (s.many + [e.c]) == Seconds(s.taken) + s.many + [e.c];
  }

  lemma PushedAside(s: Socket, e: Event)
    requires SocketOk(s) && s.at != Running && !Over(s) && (e.PushData? || e.PushMany?)
    ensures s.at != OnAny ==> SocketOk(Pushed(s, e))
    ensures PostedOk(Pushed(s, e)) && ReadsOk(Pushed(s, e)) && WritesOk(Pushed(s, e)) && TakenOk(Pushed(s, e))
    ensures ChosenOk(Pushed(s, e))
    ensures Pushed(s, e).at == s.at
    ensures s.at == OnAny ==> !s.isWriting && (Pushed(s, e).data != [] || Pushed(s, e).many != [])
  {
    hide TakenOk, ChosenOk, ReadsOk;
    PushOrder(s, e);
    SameReads(s, Pushed(s, e));
  }

  lemma PushOk(s: Socket, e: Event)
    requires SocketOk(s) && s.at != Running && Possible(s, e) && (e.PushData? || e.PushMany?)
    ensures SocketOk(After(s, e)) && After(s, e).at != Running
  {
    hide SocketOk, Resume, PostedOk, ReadsOk, WritesOk, TakenOk, ChosenOk;
    PushedAside(s, e);
    if s.at == OnAny {
      ResumeOk(Pushed(s, e), e.ready);
    }
  }

  lemma UnpostedOk(s: Socket, k: nat)
    requires SocketOk(s) && k < |s.posted| && s.at != Running && !Over(s)
    ensures var t := Unposted(s, k);
      && t.at == s.at && PostedOk(t) && ReadsOk(t) && WritesOk(t) && TakenOk(t) && ChosenOk(t)
      && (s.posted[k] != s.resumes || (s.at != OnWrite && s.at != OnAny) ==> SocketOk(t))
      && (s.posted[k] == s.resumes ==> t.p.exec.None? && (s.at == OnAny ==> !s.isWriting))
  {
    hide TakenOk, ChosenOk, ReadsOk;
    var t := Unposted(s, k);
    assert forall w :: w in t.posted ==> w in s.posted;
    assert s.posted == s.posted[..k] + [s.posted[k]] + s.posted[k + 1..];
    assert forall w :: w in s.posted && w != s.posted[k] ==> w in t.posted;
    SameOrder(s, t);
    SameReads(s, t);
  }

  lemma PostedRuns(s: Socket, e: Event)
    requires SocketOk(s) && s.at != Running && Possible(s, e) && e.Posted?
    ensures SocketOk(After(s, e)) && After(s, e).at != Running
  {
    hide SocketOk, Resume, PostedOk, ReadsOk, WritesOk, TakenOk, ChosenOk;
    UnpostedOk(s, e.k);
    if s.posted[e.k] == s.resumes && (s.at == OnWrite || s.at == OnAny) {
      ResumeOk(Unposted(s, e.k), e.ready);
    }
  }

  lemma SentOk(s: Socket, e: Event)
    requires SocketOk(s) && s.at == Sending && Possible(s, e) && e.SendDone?
    ensures SocketOk(After(s, e)) && After(s, e).at != Running
  {
    hide TakenOk, ChosenOk;
    var t := Woken(s);
    SameOrder(s, t);
    assert SocketOk(t) && !t.eof;
    hide SocketOk, Loop;
    ForwardOk(t);
    LoopOk(Forward(t), e.ready);
  }

  /** Whatever happens to a suspended socket process leaves it in order. */
  lemma EventOk(s: Socket, e: Event)
    requires SocketOk(s) && s.at != Running && Possible(s, e)
    ensures SocketOk(After(s, e)) && After(s, e).at != Running
  {
    hide SocketOk, After, Possible;
    match e
    case ReadSome(_) => ReadOk(s, e);
    case ReadNone => ReadOk(s, e);
    case ReadEof => ReadOk(s, e);
    case ReadError => ReadOk(s, e);
    case WriteDone => WrittenOk(s, e);
    case WriteError => WrittenOk(s, e);
    case PushData(_, _) => PushOk(s, e);
    case PushMany(_, _) => PushOk(s, e);
    case Posted(_, _) => PostedRuns(s, e);
    case SendDone(_) =>
      WhenSent(s, e);
      SentOk(s, e);
  }

  lemma WhenSent(s: Socket, e: Event)
    requires Possible(s, e) && e.SendDone?
    ensures s.at == Sending && s.nextRead.Some?
  {
  }

  // ---------------------------------------------------------------- every run

  predicate Happens(s: Socket, es: seq<Event>)
    decreases |es|
  {
    es != [] ==> Possible(s, es[0]) && Happens(After(s, es[0]), es[1..])
  }

  function AfterAll(s: Socket, es: seq<Event>): Socket
    requires Happens(s, es)
    decreases |es|
  {
    if es == [] then s else AfterAll(After(s, es[0]), es[1..])
  }

  /** The loop is entered with what the slots were sent so far. */
  function Start(throttled: bool, data: seq<Chunk>, many: seq<Chunk>, ready: bool): Socket {
    Loop(Begun(throttled, data, many), ready)
  }

  lemma {:induction false} RunOk(s: Socket, es: seq<Event>)
    requires SocketOk(s) && s.at != Running && Happens(s, es)
    ensures SocketOk(AfterAll(s, es)) && AfterAll(s, es).at != Running
    decreases |es|
  {
    hide SocketOk, After, Possible;
    if es != [] {
      EventOk(s, es[0]);
      RunOk(After(s, es[0]), es[1..]);
    }
  }

  lemma EveryRun(throttled: bool, data: seq<Chunk>, many: seq<Chunk>, ready: bool, es: seq<Event>)
    requires Happens(Start(throttled, data, many, ready), es)
    ensures SocketOk(AfterAll(Start(throttled, data, many, ready), es))
    ensures AfterAll(Start(throttled, data, many, ready), es).at != Running
  {
    hide SocketOk, Loop, AfterAll, Happens;
    Begins(throttled, data, many);
    LoopOk(Begun(throttled, data, many), ready);
    RunOk(Start(throttled, data, many, ready), es);
  }

  /** Chunks are forwarded in the order they were read, and when the loop has ended, all
      of them have been, once. Until EOF or an error either a read is outstanding or a
      chunk is pending. */
  lemma ReadsForwarded(throttled: bool, data: seq<Chunk>, many: seq<Chunk>, ready: bool, es: seq<Event>)
    requires Happens(Start(throttled, data, many, ready), es)
    ensures var s := AfterAll(Start(throttled, data, many, ready), es);
      && s.forwarded + Held(s.nextRead) == s.read
      && (s.at == Ended ==> s.eof && s.forwarded == s.read)
      && (!s.eof && !s.except ==> (s.reading == 1 && s.nextRead.None?) || (s.reading == 0 && s.nextRead.Some?))
  {
    EveryRun(throttled, data, many, ready, es);
    hide AfterAll, Happens, Loop, TakenOk, ChosenOk, PostedOk;
    var s := AfterAll(Start(throttled, data, many, ready), es);
    assert s.forwarded + [] == s.forwarded;
  }

  /** At most one write is outstanding; and while the process is suspended on its promise
      with something to do, its wake-up is posted. It never goes round its loop for ever. */
  lemma WokenAndNeverSpins(throttled: bool, data: seq<Chunk>, many: seq<Chunk>, ready: bool, es: seq<Event>)
    requires Happens(Start(throttled, data, many, ready), es)
    ensures var s := AfterAll(Start(throttled, data, many, ready), es);
      && s.writing <= 1 && (s.isWriting <==> s.writing == 1)
      && s.at != Spinning
      && ((s.at == OnWrite || s.at == OnAny) && Pending(s) ==> s.resumes in s.posted)
  {
    EveryRun(throttled, data, many, ready, es);
    hide AfterAll, Happens, Loop, TakenOk, ChosenOk, PostedOk, ReadsOk;
  }

  /** While the process has not failed: what either slot was sent has been taken from it in
      order or waits in it; of what each await finds, the first slot is written, and the
      second if the first had nothing. So if clients use one of the slots, what they send is
      written in order; in any case all of it is written, waits, or was dropped. */
  lemma WritesInOrder(throttled: bool, data: seq<Chunk>, many: seq<Chunk>, ready: bool, es: seq<Event>)
    requires Happens(Start(throttled, data, many, ready), es)
    ensures var s := AfterAll(Start(throttled, data, many, ready), es);
      s.at != Failed ==>
        && s.pushedData == Firsts(s.taken) + s.data && s.pushedMany == Seconds(s.taken) + s.many
        && s.written == Chosen(s.taken)
        && (s.pushedMany == [] ==> s.written + s.data == s.pushedData)
        && (s.pushedData == [] ==> s.written + s.many == s.pushedMany)
        && multiset(s.written) + multiset(s.dropped) + multiset(s.data) + multiset(s.many)
             == multiset(s.pushedData) + multiset(s.pushedMany)
  {
    EveryRun(throttled, data, many, ready, es);
    hide AfterAll, Happens, Loop, PostedOk, ReadsOk;
    var s := AfterAll(Start(throttled, data, many, ready), es);
    OneSlot(s.taken);
    AllTaken(s.taken);
  }

  /** In every run: a message is dropped if and only if some await finds one in both slots;
      what is dropped is that of the second slot, each time. */
  lemma DropsExactly(throttled: bool, data: seq<Chunk>, many: seq<Chunk>, ready: bool, es: seq<Event>)
    requires Happens(Start(throttled, data, many, ready), es)
    ensures var s := AfterAll(Start(throttled, data, many, ready), es);
      s.dropped == Unwritten(s.taken) && (s.dropped == [] <==> forall i :: 0 <= i < |s.taken| ==> !Both(s.taken[i]))
  {
    EveryRun(throttled, data, many, ready, es);
    hide AfterAll, Happens, Loop, PostedOk, ReadsOk;
    DroppedOfBoth(AfterAll(Start(throttled, data, many, ready), es).taken);
  }

  /** A socket process waiting for its first write to be done. */
  function Writing(): Socket {
    Begun(true, [], []).(at := OnWrite, p := Signal(false, Some(1)), resumes := 1, isWriting := true, writing := 1,
                 written := [[1]], pushedData := [[1]],
                 taken := [Taken(Some([1]), None)])
  }

  lemma FirstWrite()
    ensures Start(true, [], [], true) == Begun(true, [], []).(at := OnAny, p := Signal(false, Some(0)))
    ensures Possible(Start(true, [], [], true), PushData([1], true))
    ensures After(Start(true, [], [], true), PushData([1], true)) == Writing()
  {
    var s := Start(true, [], [], true);
    var w := s.(data := [[1]], pushedData := [[1]], resumes := 1, at := Running);
    assert TakeAndWrite(w) == w.(data := [], isWriting := true, p := Signal(UNSET, None), writing := 1,
                                 written := [[1]], taken := [Taken(Some([1]), None)]);
    assert Loop(TakeAndWrite(w), true) == Writing();
  }

  /** Its state when the write is done, and messages are in both mailboxes. */
  function BothWait(): Socket {
    Writing().(p := Signal(true, None), posted := [1], isWriting := false, writing := 0, data := [[2]], many := [[3]],
               pushedData := [[1], [2]], pushedMany := [[3]])
  }

  lemma BothCome()
    ensures var es := [PushData([2], true), PushMany([3], true), WriteDone];
      Happens(Writing(), es) && AfterAll(Writing(), es) == BothWait()
  {
    var e2, e3, e4: Event := PushData([2], true), PushMany([3], true), WriteDone;
    var s2 := After(Writing(), e2);
    var s3 := After(s2, e3);
    assert After(s3, e4) == BothWait();
    hide After, BothWait;
    OneHappens(s3, e4, []);
    OneHappens(s2, e3, [e4]);
    OneHappens(Writing(), e2, [e3, e4]);
    assert [e4] + [] == [e4] && [e3] + [e4] == [e3, e4] && [e2] + [e3, e4] == [e2, e3, e4];
  }

  lemma OneHappens(s: Socket, e: Event, es: seq<Event>)
    requires Possible(s, e) && Happens(After(s, e), es)
    ensures Happens(s, [e] + es) && AfterAll(s, [e] + es) == AfterAll(After(s, e), es)
  {
    assert ([e] + es)[1..] == es;
  }

  lemma TakesBoth(v: Socket)
    requires !v.except && v.data == [[2]] && v.many == [[3]] && v.dropped == []
    ensures var u := TakeAndWrite(v);
      u.dropped == [[3]] && u.isWriting && !u.p.isSet && u.nextRead == v.nextRead && u.eof == v.eof && u.at == v.at
  {
  }

  lemma OneDropped()
    ensures Possible(BothWait(), Posted(0, true)) && After(BothWait(), Posted(0, true)).dropped == [[3]]
  {
    var s := BothWait();
    var v := s.(posted := [], p := Signal(false, None), resumes := 2, at := Running);
    assert Unposted(s, 0) == s.(posted := []);
    TakesBoth(v);
    assert v.nextRead.None? && !v.eof && !v.isWriting && !v.except && v.data != [];
    assert After(s, Posted(0, true)) == Resume(s.(posted := []), true) == Loop(v, true);
    var u := TakeAndWrite(v);
    hide TakeAndWrite, BothWait, After, Resume;
    assert Loop(v, true) == Loop(u, true) == Wait(u, OnWrite);
  }

  lemma {:induction false} HappensThen(s: Socket, es: seq<Event>, fs: seq<Event>)
    requires Happens(s, es) && Happens(AfterAll(s, es), fs)
    ensures Happens(s, es + fs) && AfterAll(s, es + fs) == AfterAll(AfterAll(s, es), fs)
    decreases |es|
  {
    hide After, Possible;
    if es == [] {
      assert es + fs == fs;
    } else {
      assert (es + fs)[1..] == es[1..] + fs;
      HappensThen(After(s, es[0]), es[1..], fs);
    }
  }

  /** It happens: while a write is outstanding a message comes in each slot; when the write
      is done both are taken, and the second one is never written. */
  lemma BothSlotsLose()
    ensures var es := [PushData([1], true)] +
                      ([PushData([2], true), PushMany([3], true), WriteDone] + [Posted(0, true)]);
      Happens(Start(true, [], [], true), es) && AfterAll(Start(true, [], [], true), es).dropped == [[3]]
  {
    FirstWrite();
    BothCome();
    OneDropped();
    hide After, Possible, Start, Writing, BothWait;
    OneHappens(BothWait(), Posted(0, true), []);
    assert [Posted(0, true)] + [] == [Posted(0, true)];
    HappensThen(Writing(), [PushData([2], true), PushMany([3], true), WriteDone], [Posted(0, true)]);
    OneHappens(Start(true, [], [], true), PushData([1], true),
               [PushData([2], true), PushMany([3], true), WriteDone] + [Posted(0, true)]);
  }
}
