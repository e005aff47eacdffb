/** The socket process on its own fields, proved against the socket loop. */
module SocketProcesses {
  import opened Options
  import opened Mailboxes
  import opened Sockets

  class SocketProcess {
    const throttled: bool
    const p: EslangPromise<nat>
    var eof: bool
    var except: bool
    var nextRead: Option<Chunk>
    var isWriting: bool
    var resumes: nat
    var at: Where
    var reading: nat
    var writing: nat
    var data: seq<Chunk>
    var many: seq<Chunk>
    ghost var read: seq<Chunk>
    ghost var readOver: bool
    ghost var forwarded: seq<Chunk>
    ghost var pushedData: seq<Chunk>
    ghost var pushedMany: seq<Chunk>
    ghost var written: seq<Chunk>
    ghost var dropped: seq<Chunk>
    ghost var taken: seq<Taken>

    ghost function St(): Socket
      reads this, p, p.io
    {
      Socket(throttled, eof, except, nextRead, isWriting, p.Value(), p.io.posted, resumes, at,
             reading, writing, data, many, read, readOver, forwarded, pushedData, pushedMany, written, dropped, taken)
    }

    /** The promise of the socket is never given an exception; it has `except` for that. */
    ghost predicate Valid()
      reads this, p, p.io
    {
      p.exception == None
    }

    /** The process as it enters its loop, with what its slots were sent before. */
    constructor (throttled: bool, data: seq<Chunk>, many: seq<Chunk>, ready: bool)
      ensures Valid() && St() == Start(throttled, data, many, ready) && fresh(p) && fresh(p.io)
    {
      this.throttled := throttled;
      var io := new IoService<nat>();
      var promise := new EslangPromise<nat>(io);
      p := promise;
      eof, except, nextRead, isWriting := false, false, None, false;
      resumes, at, reading, writing := 0, Where.Running, 0, 0;
      this.data, this.many, pushedData, pushedMany := data, many, data, many;
      read, readOver, forwarded, written, dropped, taken := [], false, [], [], [], [];
      new;
      AsyncRead();
      assert St() == Begun(throttled, data, many);
      RunLoop(ready);
    }

    /** `asyncRead`: a read is started. */
    method AsyncRead()
      requires Valid()
      modifies this`reading
      ensures Valid() && St() == old(St()).(reading := old(reading) + 1)
    {
      reading := reading + 1;
    }

    /** `setValue`. */
    method SetValue()
      requires Valid()
      modifies p`exec, p`isSet, p.io
      ensures Valid() && St() == Sockets.SetValue(old(St()))
    {
      p.SetIfUnset();
    }

    /** `setError`. */
    method SetError()
      requires Valid()
      modifies this`except, p`exec, p`isSet, p.io
      ensures Valid() && St() == Sockets.SetValue(old(St())).(except := true)
    {
      SetValue();
      except := true;
    }

    /** A chunk was read: it waits to be forwarded, or it is sent and the next read started. */
    method KeepOrSend(c: Chunk)
      requires Valid()
      modifies this`nextRead, this`forwarded, this`reading
      ensures Valid()
      ensures St() == if throttled then old(St()).(nextRead := Some(c))
                      else old(St()).(forwarded := old(forwarded) + [c], reading := old(reading) + 1)
    {
      if throttled {
        nextRead := Some(c);
      } else {
        forwarded := forwarded + [c];
        AsyncRead();
      }
    }

    method OnData(c: Chunk)
      requires Valid() && reading > 0
      modifies this`reading, this`read, this`nextRead, this`forwarded, p`exec, p`isSet, p.io
      ensures Valid() && St() == AfterData(old(St()), c)
    {
      reading := reading - 1;
      read := read + [c];
      KeepOrSend(c);
      if throttled {
        SetValue();
      }
    }

    method OnNoMore(e: Event)
      requires Valid() && Possible(St(), e) && (e.ReadEof? || e.ReadError?)
      modifies this`reading, this`readOver, this`eof, this`except, p`exec, p`isSet, p.io
      ensures Valid() && St() == After(old(St()), e)
    {
      reading := reading - 1;
      readOver := true;
      if e.ReadEof? {
        eof := true;
        SetValue();
      } else {
        SetError();
      }
    }

    /** The callback of a read. */
    method OnRead(e: Event)
      requires Valid() && Possible(St(), e) && (e.ReadSome? || e.ReadNone? || e.ReadEof? || e.ReadError?)
      modifies this, p, p.io
      ensures Valid() && St() == After(old(St()), e)
    {
      assert e.ReadSome? ==> reading > 0;
      hide Valid, St, AfterData;
      match e
      case ReadSome(c) => OnData(c);
      case ReadNone => OnNothing();
      case ReadEof => OnNoMore(e);
      case ReadError => OnNoMore(e);
    }

    method OnNothing()
      requires Valid() && Possible(St(), ReadNone)
      modifies this`reading
      ensures Valid() && St() == After(old(St()), ReadNone)
    {
      reading := reading - 1;
      AsyncRead();
    }

    /** `write`. */
    method Write(c: Chunk)
      requires Valid()
      modifies this`isWriting, this`writing, this`written, p
      ensures Valid() && isWriting && St() == Sockets.Write(old(St()), c)
    {
      isWriting := true;
      p.Renew();
      writing := writing + 1;
      written := written + [c];
    }

    /** The callback of a write. */
    method OnWrite(e: Event)
      requires Valid() && Possible(St(), e) && (e.WriteDone? || e.WriteError?)
      modifies this, p, p.io
      ensures Valid() && St() == After(old(St()), e)
    {
      isWriting := false;
      writing := writing - 1;
      if e.WriteError? {
        SetError();
      } else {
        SetValue();
      }
    }

    /** `await_resume` of the two slots. */
    method TakeBoth() returns (first: Option<Chunk>, second: Option<Chunk>)
      modifies this`data, this`many
      ensures first == FirstOf(old(data)) && second == FirstOf(old(many))
      ensures St() == old(St()).(data := RestOf(old(data)), many := RestOf(old(many)))
    {
      first, second := None, None;
      if data != [] {
        first := Some(data[0]);
        data := data[1..];
      }
      if many != [] {
        second := Some(many[0]);
        many := many[1..];
      }
    }

    /** What the process does with the messages an await of its slots found. */
    method TakeMessages()
      requires Valid()
      modifies this, p
      ensures Valid() && St() == TakeAndWrite(old(St()))
      ensures nextRead == old(nextRead) && eof == old(eof) && (at == old(at) || at == Failed)
      ensures at != Failed && (old(data) != [] || old(many) != []) ==> isWriting
    {
      hide FirstOf, RestOf, Sockets.Write;
      NoneIfEmpty(data);
      NoneIfEmpty(many);
      var first, second := TakeBoth();
      if except {
        at := Failed;
        return;
      }
      Note(first, second);
      if first.Some? {
        Write(first.value);
      } else if second.Some? {
        Write(second.value);
      }
    }

    /** What an await of the slots found, and what of it will not be written. */
    ghost method Note(first: Option<Chunk>, second: Option<Chunk>)
      modifies this`taken, this`dropped
      ensures St() == old(St()).(taken := old(taken) + [Taken(first, second)],
                                 dropped := if first.Some? then old(dropped) + Held(second) else old(dropped))
    {
      taken := taken + [Taken(first, second)];
      dropped := if first.Some? then dropped + Held(second) else dropped;
    }

    lemma NoneIfEmpty(c: seq<Chunk>)
      ensures FirstOf(c).None? <==> c == []
    {
    }

    /** The pending chunk is in the queue of the context. */
    method ForwardPending()
      requires Valid() && nextRead.Some?
      modifies this`forwarded, this`nextRead, this`reading
      ensures Valid() && nextRead == None && St() == Forward(old(St()))
    {
      forwarded := forwarded + [nextRead.value];
      nextRead := None;
      AsyncRead();
    }

    /** The context suspends the process with its promise as the future to wake it. */
    method Suspend(where_: Where)
      requires Valid()
      modifies this`at, p`exec, p`isSet, p.io
      ensures Valid() && St() == Wait(old(St()), where_)
    {
      at := where_;
      p.SetContinuation(resumes);
    }

    /** The loop of `run`. Where it would go round for ever it is said to spin. */
    method RunLoop(ready: bool)
      requires Valid() && at == Where.Running
      modifies this, p, p.io
      ensures Valid() && St() == Loop(old(St()), ready)
    {
      hide TakeAndWrite, Forward, Wait;
      while !eof
        invariant Valid() && at == Where.Running && Loop(St(), ready) == Loop(old(St()), ready)
        decreases if nextRead.Some? then 1 else 0, if isWriting then 0 else 1
      {
        if nextRead.Some? {
          if !ready {
            at := Sending;
            return;
          }
          ForwardPending();
        } else if isWriting {
          if !p.isSet {
            Suspend(Where.OnWrite);
          } else if except {
            at := Failed;
          } else {
            at := Spinning;
          }
          return;
        } else if data == [] && many == [] {
          Suspend(OnAny);
          return;
        } else {
          TakeMessages();
          if at == Failed {
            return;
          }
        }
      }
      at := Ended;
    }

    /** The promise is processed, and the process counts as resumed. */
    method Rouse()
      requires Valid()
      modifies this`resumes, this`at, p
      ensures Valid() && at == Where.Running
      ensures St() == old(St()).(p := Processed(old(p.Value())), resumes := old(resumes) + 1, at := Where.Running)
    {
      var raised := p.Process();
      resumes := resumes + 1;
      at := Where.Running;
    }

    /** The process is resumed from its promise. */
    method Resumed(ready: bool)
      requires Valid()
      modifies this, p, p.io
      ensures Valid() && St() == Resume(old(St()), ready)
    {
      hide Loop, TakeAndWrite;
      var was := at;
      Rouse();
      if was == Where.OnWrite {
        if except {
          at := Failed;
          return;
        }
      } else {
        TakeMessages();
        if at == Failed {
          return;
        }
      }
      RunLoop(ready);
    }

    method Store(e: Event)
      requires Valid() && (e.PushData? || e.PushMany?)
      modifies this`data, this`many, this`pushedData, this`pushedMany
      ensures Valid() && St() == Pushed(old(St()), e)
    {
      if e.PushData? {
        data, pushedData := data + [e.c], pushedData + [e.c];
      } else {
        many, pushedMany := many + [e.c], pushedMany + [e.c];
      }
    }

    /** A message for one of the slots: it resumes the process at once if it waits there. */
    method Push(e: Event)
      requires Valid() && Possible(St(), e) && (e.PushData? || e.PushMany?)
      modifies this, p, p.io
      ensures Valid() && St() == After(old(St()), e)
    {
      hide Resume;
      Store(e);
      if at == OnAny {
        Resumed(e.ready);
      }
    }

    /** A posted continuation runs; it does nothing if the process was resumed since. */
    method RunPosted(e: Event)
      requires Valid() && Possible(St(), e) && e.Posted?
      modifies this, p, p.io
      ensures Valid() && St() == After(old(St()), e)
    {
      hide Resume;
      var stamp := p.io.posted[e.k];
      p.io.posted := p.io.posted[..e.k] + p.io.posted[e.k + 1..];
      if stamp == resumes && (at == Where.OnWrite || at == OnAny) {
        Resumed(e.ready);
      }
    }

    /** The suspended `sendThrottled` of the pending chunk is done. */
    method OnSent(e: Event)
      requires Valid() && Possible(St(), e) && e.SendDone?
      modifies this, p, p.io
      ensures Valid() && St() == After(old(St()), e)
    {
      hide Loop, Forward, Possible;
      assert at == Sending && nextRead.Some? by { WhenSent(St(), e); }
      Wake();
      ForwardPending();
      RunLoop(e.ready);
    }

    /** The process is resumed, not from its promise. */
    method Wake()
      requires Valid()
      modifies this`resumes, this`at
      ensures Valid() && at == Where.Running && St() == Woken(old(St()))
    {
      resumes := resumes + 1;
      at := Where.Running;
    }
  }

  /** A whole life of a socket process, up to what has happened so far. When its loop has
      ended, every chunk that was read has been forwarded, in order, once. While it is
      suspended on its promise with something to do, its wake-up is posted. */
  method Live(throttled: bool, data: seq<Chunk>, many: seq<Chunk>, ready: bool, es: seq<Event>)
    returns (at: Where, posted: seq<nat>, resumes: nat)
    requires Happens(Start(throttled, data, many, ready), es)
    ensures var s := AfterAll(Start(throttled, data, many, ready), es);
      && at == s.at && posted == s.posted && resumes == s.resumes
      && at != Where.Running && at != Spinning
      && (at == Ended ==> s.forwarded == s.read)
      && ((at == Where.OnWrite || at == OnAny) && Pending(s) ==> resumes in posted)
  {
    var c := new SocketProcess(throttled, data, many, ready);
    ReadsForwarded(throttled, data, many, ready, es);
    WokenAndNeverSpins(throttled, data, many, ready, es);
    EveryRun(throttled, data, many, ready, es);
    hide After, Possible, Loop;
    assert es[0..] == es;
    for i := 0 to |es|
      invariant c.Valid() && fresh(c) && fresh(c.p) && fresh(c.p.io)
      invariant Happens(c.St(), es[i..])
      invariant AfterAll(c.St(), es[i..]) == AfterAll(Start(throttled, data, many, ready), es)
    {
      assert es[i..][0] == es[i] && es[i..][1..] == es[i + 1..];
      match es[i]
      case ReadSome(_) => c.OnRead(es[i]);
      case ReadNone => c.OnRead(es[i]);
      case ReadEof => c.OnRead(es[i]);
      case ReadError => c.OnRead(es[i]);
      case WriteDone => c.OnWrite(es[i]);
      case WriteError => c.OnWrite(es[i]);
      case PushData(_, _) => c.Push(es[i]);
      case PushMany(_, _) => c.Push(es[i]);
      case Posted(_, _) => c.RunPosted(es[i]);
      case SendDone(_) => c.OnSent(es[i]);
    }
    at, posted, resumes := c.at, c.p.io.posted, c.resumes;
  }
}
