/** Promises and mailboxes: what signals a continuation, and when a full mailbox makes
    room. `W` is a continuation, `T` a message. */
module Mailboxes {
  import opened Options

  // ---------------------------------------------------------------- promises

  /** A promise: whether it is set, and the continuation it holds. */
  datatype Signal<W> = Signal(isSet: bool, exec: Option<W>)

  const UNSET := false

  /** A promise after an operation, and the continuations the operation posted. */
  datatype Signalled<W> = Signalled(signal: Signal<W>, posted: seq<W>)

  function Held<W>(exec: Option<W>): seq<W> {
    if exec.Some? then [exec.value] else []
  }

  function Fired<W>(p: Signal<W>): Signalled<W> {
    if p.isSet then Signalled(p, []) else Signalled(Signal(true, None), Held(p.exec))
  }

  function Processed<W>(p: Signal<W>): Signal<W> {
    Signal(false, if p.isSet then None else p.exec)
  }

  function Continued<W>(p: Signal<W>, w: W): Signalled<W> {
    if p.isSet then Signalled(Signal(true, None), [w]) else Signalled(Signal(false, Some(w)), [])
  }

  datatype Use<W> = Set | Process | Continue(w: W)

  function Apply<W>(p: Signal<W>, u: Use<W>): Signalled<W> {
    match u
    case Set => Fired(p)
    case Process => Signalled(Processed(p), [])
    case Continue(w) => Continued(p, w)
  }

  /** All that a promise posted over a run. */
  function Runs<W>(p: Signal<W>, uses: seq<Use<W>>): Signalled<W>
    decreases |uses|
  {
    if uses == [] then Signalled(p, [])
    else
      var first := Apply(p, uses[0]);
      var rest := Runs(first.signal, uses[1..]);
      Signalled(rest.signal, first.posted + rest.posted)
  }

  function Given<W>(u: Use<W>): seq<W> {
    if u.Continue? then [u.w] else []
  }

  /** The continuations registered over a run, in order. */
  function Registered<W>(uses: seq<Use<W>>): seq<W> {
    if uses == [] then []
    else Given(uses[0]) + Registered(uses[1..])
  }

  /** Somebody registers while an earlier continuation is still held. */
  predicate Overwrites<W>(p: Signal<W>, uses: seq<Use<W>>)
    decreases |uses|
  {
    uses != [] &&
      ((uses[0].Continue? && p.exec.Some?) || Overwrites(Apply(p, uses[0]).signal, uses[1..]))
  }

  /** A set promise holds nothing: what it is given it posts. */
  predicate Settled<W>(p: Signal<W>) {
    p.isSet ==> p.exec.None?
  }

  lemma StepPosts<W>(p: Signal<W>, u: Use<W>)
    requires Settled(p)
    ensures var r := Apply(p, u);
      && Settled(r.signal)
      && if u.Continue? && p.exec.Some? then |r.posted + Held(r.signal.exec)| < |Held(p.exec) + Given(u)|
         else r.posted + Held(r.signal.exec) == Held(p.exec) + Given(u)
  {
  }

  /** Every continuation ever registered was posted exactly once, in order, or is still
      held, if and only if nobody registered over one still held. */
  lemma {:induction false} AllPosted<W>(p: Signal<W>, uses: seq<Use<W>>)
    requires Settled(p)
    ensures var r := Runs(p, uses);
      && Settled(r.signal)
      && |r.posted + Held(r.signal.exec)| <= |Held(p.exec) + Registered(uses)|
      && (Held(p.exec) + Registered(uses) == r.posted + Held(r.signal.exec) <==> !Overwrites(p, uses))
    decreases |uses|
  {
    if uses != [] {
      var first := Apply(p, uses[0]);
      var rest := Runs(first.signal, uses[1..]);
      var later, held := Registered(uses[1..]), Held(first.signal.exec);
      StepPosts(p, uses[0]);
      AllPosted(first.signal, uses[1..]);
      assert Runs(p, uses) == Signalled(rest.signal, first.posted + rest.posted);
      assert Overwrites(p, uses) == ((uses[0].Continue? && p.exec.Some?) || Overwrites(first.signal, uses[1..]));
      assert Registered(uses) == Given(uses[0]) + later;
      hide *;
      Reorder(Held(p.exec), Given(uses[0]), later, first.posted, rest.posted, Held(rest.signal.exec));
      if |first.posted + held| == |Held(p.exec) + Given(uses[0])| {
        Reorder(first.posted, held, later, [], [], []);
        Cancel(first.posted, held + later, rest.posted + Held(rest.signal.exec));
      }
    }
  }

  lemma Reorder<A>(a: seq<A>, b: seq<A>, c: seq<A>, d: seq<A>, e: seq<A>, f: seq<A>)
    ensures a + (b + c) == (a + b) + c && (d + e) + f == d + (e + f)
  {
  }

  lemma Cancel<A>(a: seq<A>, b: seq<A>, c: seq<A>)
    ensures a + b == a + c <==> b == c
  {
    assert (a + b)[|a|..] == b && (a + c)[|a|..] == c;
  }

  /** The queue of callbacks of the io service. */
  class IoService<W> {
    var posted: seq<W>

    constructor ()
      ensures posted == []
    {
      posted := [];
    }
  }

  class EslangPromise<W> {
    const io: IoService<W>
    var exec: Option<W>
    var isSet: bool
    var exception: Option<int>

    constructor (io: IoService<W>)
      ensures this.io == io && exception == None && Value() == Signal(UNSET, None)
    {
      this.io := io;
      exec, isSet, exception := None, false, None;
    }

    function Value(): Signal<W>
      reads this
    {
      Signal(isSet, exec)
    }

    method Set()
      modifies this`exec, this`isSet, io
      ensures Value() == Signal(true, None) && io.posted == old(io.posted) + Held(old(exec))
    {
      isSet := true;
      if exec.Some? {
        io.posted := io.posted + [exec.value];
        exec := None;
      }
    }

    method SetIfUnset()
      modifies this`exec, this`isSet, io
      ensures var r := Fired(old(Value())); Value() == r.signal && io.posted == old(io.posted) + r.posted
      ensures isSet && io.posted == old(io.posted) + if old(isSet) then [] else Held(old(exec))
    {
      if !isSet {
        Set();
      }
    }

    /** Rethrows a stored exception, and then leaves the promise as it is. */
    method Process() returns (raised: Option<int>)
      modifies this
      ensures raised == old(exception)
      ensures raised.Some? ==> Value() == old(Value()) && exception == raised
      ensures raised.None? ==> Value() == Processed(old(Value())) && exception == None
      ensures raised.None? ==> !isSet && exec == if old(isSet) then None else old(exec)
    {
      raised := exception;
      if raised.None? {
        if isSet {
          exec := None;
        }
        isSet := false;
      }
    }

    /** The first exception is the one that is kept. */
    method SetException(e: int)
      modifies this, io
      ensures exception == (if old(exception).Some? then old(exception) else Some(e))
      ensures var r := Fired(old(Value())); Value() == r.signal && io.posted == old(io.posted) + r.posted
    {
      if exception.None? {
        exception := Some(e);
      }
      SetIfUnset();
    }

    /** Assignment of a new promise. */
    method Renew()
      modifies this
      ensures Value() == Signal(UNSET, None) && exception == None
    {
      exec, isSet, exception := None, UNSET, None;
    }

    /** A continuation given to a set promise is posted at once; an unset one holds it, and
        nothing else. */
    method SetContinuation(w: W)
      modifies this`exec, this`isSet, io
      ensures var r := Continued(old(Value()), w); Value() == r.signal && io.posted == old(io.posted) + r.posted
      ensures isSet == old(isSet) && exec == (if old(isSet) then None else Some(w))
      ensures io.posted == old(io.posted) + if old(isSet) then [w] else []
    {
      exec := Some(w);
      if isSet {
        Set();
      }
    }
  }

  // ---------------------------------------------------------------- mailboxes

  const THROTTLE: nat := 10

  datatype Mailbox<T, W> = Mailbox(contents: seq<T>, promise: Signal<W>)

  datatype Popped<T, W> = Popped(box: Mailbox<T, W>, m: T, posted: seq<W>)

  predicate ShouldThrottle<T, W>(b: Mailbox<T, W>) {
    |b.contents| >= THROTTLE
  }

  function Push<T, W>(b: Mailbox<T, W>, m: T): Mailbox<T, W> {
    b.(contents := b.contents + [m])
  }

  /** Taking the message that makes room again signals the promise. */
  function Pop<T, W>(b: Mailbox<T, W>): Popped<T, W>
    requires b.contents != []
  {
    var rest := b.contents[1..];
    if |rest| == THROTTLE - 1 then
      var r := Fired(b.promise);
      Popped(Mailbox(rest, r.signal), b.contents[0], r.posted)
    else
      Popped(Mailbox(rest, b.promise), b.contents[0], [])
  }

  /** A mailbox that holds a continuation is full: it waits to be signalled. */
  predicate Guarded<T, W>(b: Mailbox<T, W>) {
    Settled(b.promise) && (b.promise.exec.Some? ==> ShouldThrottle(b))
  }

  /** Pushing, popping and waking keep that, and nothing held is dropped on the way. */
  lemma GuardKept<T, W>(b: Mailbox<T, W>, m: T, w: W)
    requires Guarded(b)
    ensures Guarded(Push(b, m)) && Push(b, m).promise == b.promise
    ensures Guarded(b.(promise := Processed(b.promise))) && Processed(b.promise).exec == b.promise.exec
    ensures ShouldThrottle(b) ==> Guarded(b.(promise := Continued(b.promise, w).signal))
    ensures b.contents != [] ==>
      var r := Pop(b); Guarded(r.box) && Held(b.promise.exec) == r.posted + Held(r.box.promise.exec)
  {
  }

  class MessageQueue<T, W> {
    var stackStorage: Option<T>
    var others: seq<T>
    const p: EslangPromise<W>

    constructor (io: IoService<W>)
      ensures Valid() && fresh(p) && p.io == io && Box() == Mailbox([], Signal(UNSET, None))
    {
      stackStorage, others := None, [];
      p := new EslangPromise(io);
    }

    /** The first message is in `stackStorage`, the others behind it. */
    predicate Valid()
      reads this
    {
      stackStorage.None? ==> others == []
    }

    function Contents(): seq<T>
      reads this
    {
      if stackStorage.Some? then [stackStorage.value] + others else []
    }

    function Box(): Mailbox<T, W>
      reads this, p
    {
      Mailbox(Contents(), p.Value())
    }

    function Size(): (n: nat)
      reads this
      ensures n == |Contents()|
    {
      if stackStorage.Some? then 1 + |others| else 0
    }

    method PushBack(m: T)
      requires Valid()
      modifies this
      ensures Valid() && Box() == Push(old(Box()), m)
      ensures Contents() == old(Contents()) + [m] && p.Value() == old(p.Value())
    {
      if stackStorage.Some? {
        others := others + [m];
      } else {
        stackStorage := Some(m);
      }
    }

    method PopFront() returns (m: T)
      requires Valid() && Size() > 0
      modifies this, p`exec, p`isSet, p.io
      ensures Valid()
      ensures var r := Pop(old(Box())); Box() == r.box && m == r.m && p.io.posted == old(p.io.posted) + r.posted
      ensures m == old(Contents())[0] && Contents() == old(Contents())[1..]
      ensures Size() != 9 ==> p.Value() == old(p.Value())
      ensures Size() == 9 ==> p.isSet
    {
      ghost var was := Contents();
      m := stackStorage.value;
      if others == [] {
        stackStorage := None;
      } else {
        stackStorage := Some(others[0]);
        others := others[1..];
      }
      assert Contents() == was[1..];
      if Size() == THROTTLE - 1 {
        p.SetIfUnset();
      }
    }

    /** The destructor. */
    method Destroy()
      modifies p`exec, p`isSet, p.io
      ensures p.Value().isSet && p.io.posted == old(p.io.posted) + Fired(old(p.Value())).posted
    {
      p.SetIfUnset();
    }
  }
}
