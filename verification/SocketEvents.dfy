/** What a socket process owes to its events: everything that happened to it is recorded
    exactly once, and errors and EOF end it. */
module SocketEvents {
  import opened Mailboxes
  import opened Sockets

  /** The chunks that were read, and the messages that came for either slot. */
  function ReadIn(es: seq<Event>): seq<Chunk> {
    if es == [] then []
    else (if es[0].ReadSome? then [es[0].c] else []) + ReadIn(es[1..])
  }

  function DataIn(es: seq<Event>): seq<Chunk> {
    if es == [] then []
    else (if es[0].PushData? then [es[0].c] else []) + DataIn(es[1..])
  }

  function ManyIn(es: seq<Event>): seq<Chunk> {
    if es == [] then []
    else (if es[0].PushMany? then [es[0].c] else []) + ManyIn(es[1..])
  }

  /** How many writes came to an end. */
  function WritesIn(es: seq<Event>): nat {
    if es == [] then 0
    else (if es[0].WriteDone? || es[0].WriteError? then 1 else 0) + WritesIn(es[1..])
  }

  predicate IsError(e: Event) {
    e.ReadError? || e.WriteError?
  }

  predicate ErrorIn(es: seq<Event>) {
    exists i :: 0 <= i < |es| && IsError(es[i])
  }

  predicate EofIn(es: seq<Event>) {
    exists i :: 0 <= i < |es| && es[i].ReadEof?
  }

  // ---------------------------------------------------------------- what the loop leaves alone

  /** Nothing has happened to the process from outside; it may have written, but not after
      an error. */
  predicate Inside(s: Socket, t: Socket) {
    && t.read == s.read && t.pushedData == s.pushedData && t.pushedMany == s.pushedMany
    && t.eof == s.eof && t.except == s.except && |t.written| - t.writing == |s.written| - s.writing
    && (s.except ==> t.written == s.written)
  }

  lemma {:induction false} LoopInside(s: Socket, ready: bool)
    ensures Inside(s, Loop(s, ready))
    decreases if s.nextRead.Some? then 1 else 0, if s.isWriting then 0 else 1
  {
    if s.eof {
    } else if s.nextRead.Some? {
      if ready {
        LoopInside(Forward(s), ready);
      }
    } else if !s.isWriting && (s.data != [] || s.many != []) {
      var t := TakeAndWrite(s);
      hide Loop;
      if t.at != Failed {
        LoopInside(t, ready);
      }
    }
  }

  lemma InsideTwice(s: Socket, t: Socket, u: Socket)
    requires Inside(s, t) && Inside(t, u)
    ensures Inside(s, u)
  {
  }

  lemma ResumeInside(s: Socket, ready: bool)
    ensures Inside(s, Resume(s, ready))
  {
    var t := s.(p := Processed(s.p), resumes := s.resumes + 1, at := Running);
    assert Inside(s, t) && Inside(s, t.(at := Failed));
    hide Loop, TakeAndWrite, Inside;
    TakeInside(t);
    LoopInside(t, ready);
    LoopInside(TakeAndWrite(t), ready);
    InsideTwice(s, t, Loop(t, ready));
    InsideTwice(s, t, TakeAndWrite(t));
    InsideTwice(s, TakeAndWrite(t), Loop(TakeAndWrite(t), ready));
  }

  lemma TakeInside(s: Socket)
    ensures Inside(s, TakeAndWrite(s))
  {
  }

  /** What one event adds to the record. */
  predicate Recorded(s: Socket, e: Event, t: Socket) {
    && t.read == s.read + ReadIn([e])
    && t.pushedData == s.pushedData + DataIn([e]) && t.pushedMany == s.pushedMany + ManyIn([e])
    && (t.eof <==> s.eof || e.ReadEof?) && (t.except <==> s.except || IsError(e))
    && |t.written| - t.writing == |s.written| - s.writing + WritesIn([e])
    && (s.except ==> t.written == s.written)
  }

  lemma EventRecorded(s: Socket, e: Event)
    requires Possible(s, e)
    ensures Recorded(s, e, After(s, e))
  {
    hide *;
    match e
    case PushData(_, _) => PushRecorded(s, e);
    case PushMany(_, _) => PushRecorded(s, e);
    case Posted(_, _) => WakeRecorded(s, e);
    case SendDone(_) => WakeRecorded(s, e);
    case _ => OutsideRecorded(s, e);
  }

  lemma Same<A>(a: seq<A>)
    ensures a + [] == a
  {
  }

  /** A read or a write is over. */
  lemma OutsideRecorded(s: Socket, e: Event)
    requires Possible(s, e) && !e.PushData? && !e.PushMany? && !e.Posted? && !e.SendDone?
    ensures Recorded(s, e, After(s, e))
  {
    hide ReadIn, DataIn, ManyIn, WritesIn;
    OneIn(e);
    Same(s.read);
    Same(s.pushedData);
    Same(s.pushedMany);
  }

  lemma PushRecorded(s: Socket, e: Event)
    requires Possible(s, e) && (e.PushData? || e.PushMany?)
    ensures Recorded(s, e, After(s, e))
  {
    hide Resume, ReadIn, DataIn, ManyIn, WritesIn;
    OneIn(e);
    Same(s.read);
    Same(s.pushedData);
    Same(s.pushedMany);
    ResumeInside(Pushed(s, e), e.ready);
  }

  lemma WakeRecorded(s: Socket, e: Event)
    requires Possible(s, e) && (e.Posted? || e.SendDone?)
    ensures Recorded(s, e, After(s, e))
  {
    hide Loop, Resume, ReadIn, DataIn, ManyIn, WritesIn;
    OneIn(e);
    Same(s.read);
    Same(s.pushedData);
    Same(s.pushedMany);
    if e.Posted? {
      ResumeInside(Unposted(s, e.k), e.ready);
    } else {
      LoopInside(Forward(Woken(s)), e.ready);
    }
  }

  lemma OneIn(e: Event)
    ensures ReadIn([e]) == (if e.ReadSome? then [e.c] else []) && DataIn([e]) == (if e.PushData? then [e.c] else [])
    ensures ManyIn([e]) == if e.PushMany? then [e.c] else []
    ensures WritesIn([e]) == if e.WriteDone? || e.WriteError? then 1 else 0
  {
    assert [e][1..] == [];
  }

  lemma Split(e: Event, es: seq<Event>)
    ensures var all := [e] + es;
      && ReadIn(all) == ReadIn([e]) + ReadIn(es)
      && DataIn(all) == DataIn([e]) + DataIn(es) && ManyIn(all) == ManyIn([e]) + ManyIn(es)
      && WritesIn(all) == WritesIn([e]) + WritesIn(es)
      && (EofIn(all) <==> e.ReadEof? || EofIn(es)) && (ErrorIn(all) <==> IsError(e) || ErrorIn(es))
  {
    hide EofIn, ErrorIn;
    OneIn(e);
    assert ([e] + es)[0] == e && ([e] + es)[1..] == es;
    SomeIn(e, es);
  }

  lemma SomeIn(e: Event, es: seq<Event>)
    ensures EofIn([e] + es) <==> e.ReadEof? || EofIn(es)
    ensures ErrorIn([e] + es) <==> IsError(e) || ErrorIn(es)
  {
    var all := [e] + es;
    assert all[0] == e && forall i :: 0 <= i < |es| ==> all[i + 1] == es[i];
    if i :| 0 <= i < |es| && es[i].ReadEof? {
      assert all[i + 1].ReadEof?;
    }
    if i :| 0 <= i < |es| && IsError(es[i]) {
      assert IsError(all[i + 1]);
    }
  }

  /** The same for any number of events. */
  predicate AllRecorded(s: Socket, es: seq<Event>, t: Socket) {
    && t.read == s.read + ReadIn(es)
    && t.pushedData == s.pushedData + DataIn(es) && t.pushedMany == s.pushedMany + ManyIn(es)
    && (t.eof <==> s.eof || EofIn(es)) && (t.except <==> s.except || ErrorIn(es))
    && |t.written| - t.writing == |s.written| - s.writing + WritesIn(es)
    && (s.except ==> t.written == s.written)
  }

  lemma {:induction false} RunRecorded(s: Socket, es: seq<Event>)
    requires Happens(s, es)
    ensures AllRecorded(s, es, AfterAll(s, es))
    decreases |es|
  {
    if es != [] {
      var e, t := es[0], After(s, es[0]);
      EventRecorded(s, e);
      RunRecorded(t, es[1..]);
      assert es == [e] + es[1..];
      Split(e, es[1..]);
      hide After, Possible, AfterAll, ReadIn, DataIn, ManyIn, WritesIn, EofIn, ErrorIn, IsError;
      assert AfterAll(s, es) == AfterAll(t, es[1..]) by { OneHappens(s, e, es[1..]); }
      Onward(s, e, t, es[1..], AfterAll(t, es[1..]));
    }
  }

  lemma Onward(s: Socket, e: Event, t: Socket, es: seq<Event>, u: Socket)
    requires Recorded(s, e, t) && AllRecorded(t, es, u)
    ensures AllRecorded(s, [e] + es, u)
  {
    hide ReadIn, DataIn, ManyIn, WritesIn, EofIn, ErrorIn, IsError;
    Split(e, es);
    assert s.read + ReadIn([e]) + ReadIn(es) == s.read + (ReadIn([e]) + ReadIn(es));
    assert s.pushedData + DataIn([e]) + DataIn(es) == s.pushedData + (DataIn([e]) + DataIn(es));
    assert s.pushedMany + ManyIn([e]) + ManyIn(es) == s.pushedMany + (ManyIn([e]) + ManyIn(es));
  }

  // ---------------------------------------------------------------- every run

  /** In every run the process has recorded exactly what happened: every chunk read and every
      message, in order; EOF and errors if and only if they came; and each write that is over. */
  lemma EverythingRecorded(throttled: bool, data: seq<Chunk>, many: seq<Chunk>, ready: bool, es: seq<Event>)
    requires Happens(Start(throttled, data, many, ready), es)
    ensures var s := AfterAll(Start(throttled, data, many, ready), es);
      && s.read == ReadIn(es) && s.pushedData == data + DataIn(es) && s.pushedMany == many + ManyIn(es)
      && (s.eof <==> EofIn(es)) && (s.except <==> ErrorIn(es))
      && |s.written| == WritesIn(es) + s.writing
  {
    hide Loop, AfterAll, Happens, ReadIn, DataIn, ManyIn, WritesIn, EofIn, ErrorIn;
    LoopInside(Begun(throttled, data, many), ready);
    RunRecorded(Start(throttled, data, many, ready), es);
    assert [] + ReadIn(es) == ReadIn(es);
  }

  /** Once there was an error nothing more is written, whatever happens. */
  lemma NoWriteAfterError(throttled: bool, data: seq<Chunk>, many: seq<Chunk>, ready: bool, es: seq<Event>,
          fs: seq<Event>)
    requires Happens(Start(throttled, data, many, ready), es)
    requires Happens(AfterAll(Start(throttled, data, many, ready), es), fs) && ErrorIn(es)
    ensures var s := AfterAll(Start(throttled, data, many, ready), es); AfterAll(s, fs).written == s.written
  {
    hide AfterAll, Happens, Start, ReadIn, DataIn, ManyIn, WritesIn, EofIn, ErrorIn;
    EverythingRecorded(throttled, data, many, ready, es);
    RunRecorded(AfterAll(Start(throttled, data, many, ready), es), fs);
  }

  /** The event resumes the process. */
  predicate Wakes(s: Socket, e: Event) {
    || (e.Posted? && e.k < |s.posted| && s.posted[e.k] == s.resumes && (s.at == OnWrite || s.at == OnAny))
    || ((e.PushData? || e.PushMany?) && s.at == OnAny)
    || (e.SendDone? && s.at == Sending)
  }

  /** A process that was woken from its promise, or by a message, fails if there was an error,
      and otherwise ends if there was EOF. */
  lemma ResumeEnds(s: Socket, ready: bool)
    ensures s.except ==> Resume(s, ready).at == Failed
    ensures !s.except && s.eof ==> Resume(s, ready).at == Ended
  {
    hide Loop, TakeAndWrite, Inside;
    var t := s.(p := Processed(s.p), resumes := s.resumes + 1, at := Running);
    TakeKeeps(t);
    AtEof(t, ready);
    AtEof(TakeAndWrite(t), ready);
  }

  lemma TakeKeeps(s: Socket)
    ensures TakeAndWrite(s).at == (if s.except then Failed else s.at) && TakeAndWrite(s).eof == s.eof
  {
  }

  lemma AtEof(s: Socket, ready: bool)
    ensures s.eof ==> Loop(s, ready) == s.(at := Ended)
  {
  }

  /** A `sendThrottled` that is done after an error: the loop ends, fails, or waits with its
      wake-up posted. */
  lemma SentEnds(s: Socket, ready: bool)
    requires SocketOk(s) && s.at == Sending && s.nextRead.Some?
    ensures var t := Loop(Forward(Woken(s)), ready);
      && t.nextRead.None? && t.forwarded == t.read
      && (s.eof ==> t.at == Ended)
      && (s.except && !s.eof ==> t.at == Failed || (t.at == OnAny && t.resumes in t.posted))
  {
    hide TakenOk, ChosenOk, PostedOk, Loop;
    var u := Forward(Woken(s));
    assert u.nextRead.None? && u.forwarded == s.read && u.eof == s.eof && u.except == s.except;
    NothingPending(u, ready);
    LoopInside(u, ready);
    AtEof(u, ready);
    if s.except && !s.eof {
      AtError(u, ready);
    }
  }

  /** With an error pending and its promise set, the loop fails when it takes a message, or
      waits to be woken at once. */
  lemma AtError(s: Socket, ready: bool)
    requires s.except && !s.eof && s.nextRead.None? && s.p.isSet && !s.isWriting
    ensures var t := Loop(s, ready); t.at == Failed || (t.at == OnAny && t.resumes in t.posted)
  {
  }

  lemma {:induction false} NothingPending(s: Socket, ready: bool)
    requires s.nextRead.None?
    ensures Loop(s, ready).nextRead.None? && Loop(s, ready).forwarded == s.forwarded
    decreases if s.isWriting then 0 else 1
  {
    if !s.eof && !s.isWriting && (s.data != [] || s.many != []) {
      var t := TakeAndWrite(s);
      assert t.nextRead.None? && t.forwarded == s.forwarded && (t.at == Failed || t.isWriting);
      hide TakeAndWrite;
      if t.at != Failed {
        NothingPending(t, ready);
      }
    }
  }

  /** In every run, once there was an error or EOF: the next event that resumes the process
      ends it, in failure if there was an error. Only one that was suspended sending a chunk
      may first come back to its promise, and then its wake-up is posted. A chunk whose
      sending is done is never pending any more. */
  lemma EndsNext(throttled: bool, data: seq<Chunk>, many: seq<Chunk>, ready: bool, es: seq<Event>, e: Event)
    requires Happens(Start(throttled, data, many, ready), es)
    requires var s := AfterAll(Start(throttled, data, many, ready), es); Possible(s, e) && Wakes(s, e)
    ensures var s := AfterAll(Start(throttled, data, many, ready), es); var t := After(s, e);
      && (ErrorIn(es) && !e.SendDone? ==> t.at == Failed)
      && (!ErrorIn(es) && EofIn(es) ==> t.at == Ended)
      && (ErrorIn(es) && e.SendDone? ==> Over(t) || (t.at == OnAny && t.resumes in t.posted))
      && (e.SendDone? ==> t.nextRead.None? && t.forwarded == t.read)
  {
    var s := AfterAll(Start(throttled, data, many, ready), es);
    hide AfterAll, Happens, Start, ReadIn, DataIn, ManyIn, WritesIn, EofIn, ErrorIn, Loop, Resume, SocketOk;
    EverythingRecorded(throttled, data, many, ready, es);
    EveryRun(throttled, data, many, ready, es);
    match e
    case PushData(_, r) => ResumeEnds(Pushed(s, e), r);
    case PushMany(_, r) => ResumeEnds(Pushed(s, e), r);
    case Posted(k, r) => ResumeEnds(Unposted(s, k), r);
    case SendDone(r) => SentEnds(s, r);
  }
}
