/** Letters and mailboxes: what was received, what a mailbox holds and what is queued for
    it are together what was sent, in order; and death notices are sent once. */
module Conservation {
  import opened Options
  import opened Mailboxes
  import opened Scheduler
  import opened PidTable

  // ---------------------------------------------------------------- one address

  /** The messages to `a` among these letters, in order. */
  function To(ls: seq<Letter>, a: Address): seq<Message> {
    if ls == [] then []
    else To(ls[..|ls| - 1], a) + (if ls[|ls| - 1].to == a then [ls[|ls| - 1].m] else [])
  }

  /** The messages to `a` in the work queue, in order. */
  function Queued(queue: seq<Item>, a: Address): seq<Message> {
    if queue == [] then []
    else (if queue[0].Mail? && queue[0].letter.to == a then [queue[0].letter.m] else []) + Queued(queue[1..], a)
  }

  lemma {:induction false} ToJoin(x: seq<Letter>, y: seq<Letter>, a: Address)
    ensures To(x + y, a) == To(x, a) + To(y, a)
    decreases |y|
  {
    if y == [] {
      assert x + y == x;
    } else {
      assert (x + y)[..|x + y| - 1] == x + y[..|y| - 1];
      ToJoin(x, y[..|y| - 1], a);
    }
  }

  lemma {:induction false} QueuedJoin(x: seq<Item>, y: seq<Item>, a: Address)
    ensures Queued(x + y, a) == Queued(x, a) + Queued(y, a)
    decreases |x|
  {
    if x == [] {
      assert x + y == y;
    } else {
      assert (x + y)[1..] == x[1..] + y;
      QueuedJoin(x[1..], y, a);
    }
  }

  lemma {:induction false} QueuedMails(ls: seq<Letter>, a: Address)
    ensures Queued(Mails(ls), a) == To(ls, a)
    decreases |ls|
  {
    if ls != [] {
      var l, rest := ls[0], ls[1..];
      QueuedMails(rest, a);
      assert Mails(ls) == [Mail(l)] + Mails(rest);
      OneTo(l, a);
      hide Queued, To, Mails;
      QueuedJoin([Mail(l)], Mails(rest), a);
      ToJoin([l], rest, a);
      assert [l] + rest == ls;
    }
  }

  lemma OneTo(l: Letter, a: Address)
    ensures To([l], a) == (if l.to == a then [l.m] else []) && Queued([Mail(l)], a) == To([l], a)
  {
    assert [l][..0] == [];
  }

  lemma {:induction false} NoneTo(ls: seq<Letter>, a: Address)
    requires forall i :: 0 <= i < |ls| ==> ls[i].to != a
    ensures To(ls, a) == []
    decreases |ls|
  {
    if ls != [] {
      NoneTo(ls[..|ls| - 1], a);
    }
  }

  lemma {:induction false} NoneQueued(queue: seq<Item>, a: Address)
    requires forall i :: 0 <= i < |queue| ==> queue[i].Mail? ==> queue[i].letter.to != a
    ensures Queued(queue, a) == []
    decreases |queue|
  {
    if queue != [] {
      NoneQueued(queue[1..], a);
    }
  }

  // ---------------------------------------------------------------- the invariant

  /** Letters are sent to, and received at, slots of processes that were spawned. */
  predicate Written(ls: seq<Letter>, born: map<Pid, Proc>) {
    forall i :: 0 <= i < |ls| ==> ls[i].to.pid in born && ls[i].to.slot < |born[ls[i].to.pid].boxes|
  }

  predicate QueueWritten(queue: seq<Item>, born: map<Pid, Proc>) {
    forall i :: 0 <= i < |queue| && queue[i].Mail? ==>
      queue[i].letter.to.pid in born && queue[i].letter.to.slot < |born[queue[i].letter.to.pid].boxes|
  }

  /** A process keeps the slots and the notices it was spawned with. */
  predicate AsBorn(procs: map<Pid, Proc>, born: map<Pid, Proc>) {
    forall p :: p in procs ==>
      p in born && |procs[p].boxes| == |born[p].boxes| && procs[p].notifyOnDie == born[p].notifyOnDie
  }

  /** Notices go to slots of processes that were spawned. */
  predicate NoticesWritten(born: map<Pid, Proc>) {
    forall p, i :: p in born && 0 <= i < |born[p].notifyOnDie| ==>
      var a := born[p].notifyOnDie[i]; a.pid in born && a.slot < |born[a.pid].boxes|
  }

  function LetterOf(w: Wait): Option<Letter> {
    if w.Running? then w.pending else PendingOf(w)
  }

  /** So are the letters of a `sendThrottled` that has begun. */
  predicate PendingWritten(procs: map<Pid, Proc>, born: map<Pid, Proc>) {
    forall p :: p in procs && LetterOf(procs[p].waiting).Some? ==>
      var l := LetterOf(procs[p].waiting).value;
      l.m.Data? && l.to.pid in born && l.to.slot < |born[l.to.pid].boxes|
  }

  ghost predicate WrittenOk(s: State) {
    && PendingWritten(s.procs, s.past.born)
    && Written(s.past.sent, s.past.born) && Written(s.past.received, s.past.born)
    && QueueWritten(s.queue, s.past.born) && AsBorn(s.procs, s.past.born) && NoticesWritten(s.past.born)
  }

  /** Received, held and queued are what was sent. */
  predicate Conserved(s: State, a: Address) {
    To(s.past.received, a) + BoxAt(s, a).contents + Queued(s.queue, a) == To(s.past.sent, a)
  }

  ghost predicate MailOk(s: State) {
    forall a: Address :: Live(s, a.pid) ==> Conserved(s, a)
  }

  /** The boxes hold the same messages. */
  ghost predicate SameContents(s: State, t: State) {
    forall a :: BoxAt(t, a).contents == BoxAt(s, a).contents
  }

  lemma MailSame(s: State, t: State)
    requires MailOk(s) && SameContents(s, t)
    requires t.past.sent == s.past.sent && t.past.received == s.past.received
    requires forall a: Address :: Live(t, a.pid) ==> Live(s, a.pid) && Queued(t.queue, a) == Queued(s.queue, a)
    ensures MailOk(t)
  {
  }

  // ---------------------------------------------------------------- contents

  lemma PutContents(s: State, a: Address, b: Box)
    ensures a.slot < |At(s, a.pid).boxes| ==> BoxAt(PutBox(s, a, b), a) == b
    ensures forall c :: c != a || a.slot >= |At(s, a.pid).boxes| ==> BoxAt(PutBox(s, a, b), c) == BoxAt(s, c)
  {
    hide SameProcesses, SameLinks;
  }

  lemma WaitContents(s: State, p: Pid, w: Wait)
    ensures SameContents(s, PutWait(s, p, w))
  {
    hide SameProcesses, SameLinks;
  }

  lemma KillContents(s: State, p: Pid, q: Pid)
    ensures SameContents(s, AddKill(s, p, q))
  {
    hide SameProcesses, SameLinks;
  }

  lemma BeginContents(s: State, p: Pid)
    ensures SameContents(s, BeginStep(s, p))
  {
    hide SameProcesses, SameLinks;
    var w := At(s, p).waiting;
    if w.OnThrottle? {
      PutContents(s, w.letter.to, BoxAt(s, w.letter.to).(promise := Processed(BoxAt(s, w.letter.to).promise)));
    }
    hide PutBox;
  }

  lemma SuspendContents(s: State, p: Pid, w: Wait)
    ensures SameContents(s, SuspendStep(s, p, w))
  {
    hide SameProcesses, SameLinks;
    WaitContents(s, p, w);
    var t := PutWait(s, p, w).(running := None);
    if w.OnThrottle? {
      var r := Continued(BoxAt(t, w.letter.to).promise, Waiter(p, At(s, p).resumes));
      PutContents(t, w.letter.to, BoxAt(t, w.letter.to).(promise := r.signal));
    }
    hide PutWait, PutBox;
  }

  lemma SpawnContents(s: State, slots: nat, parent: Option<Pid>, both: bool, notify: seq<Address>)
    requires NextPid(s) !in s.procs
    ensures SameContents(s, SpawnStep(s, slots, parent, both, notify))
  {
    hide SameProcesses, SameLinks;
    var p, t := NextPid(s), SpawnAlone(s, slots, notify);
    assert SameContents(s, t) by { hide NextPid; }
    hide NextPid, SpawnAlone, AddKill, BoxAt;
    if parent.Some? {
      var r := parent.value;
      KillContents(t, r, p);
      KillContents(t, p, r);
      KillContents(AddKill(t, p, r), r, p);
    }
  }

  // ---------------------------------------------------------------- letters on the way

  /** Letters are sent. */
  lemma SentMail(s: State, ls: seq<Letter>, t: State)
    requires MailOk(s) && t.queue == s.queue + Mails(ls) && t.past.sent == s.past.sent + ls
    requires t.past.received == s.past.received
    requires forall a: Address :: Live(t, a.pid) ==> Live(s, a.pid) && BoxAt(t, a).contents == BoxAt(s, a).contents
    ensures MailOk(t)
  {
    hide BoxAt, Live, To, Queued, Mails;
    forall a: Address | Live(t, a.pid) ensures Conserved(t, a) {
      assert Conserved(s, a);
      QueuedJoin(s.queue, Mails(ls), a);
      QueuedMails(ls, a);
      ToJoin(s.past.sent, ls, a);
      Regrouped(To(s.past.received, a), BoxAt(s, a).contents, Queued(s.queue, a), To(ls, a));
    }
  }

  lemma Regrouped(x: seq<Message>, y: seq<Message>, z: seq<Message>, u: seq<Message>)
    ensures x + y + (z + u) == (x + y + z) + u && x + (y + z) + u == x + y + (z + u)
  {
  }

  lemma OneMail(l: Letter)
    ensures Mails([l]) == [Mail(l)]
  {
    assert [l][1..] == [];
  }

  lemma SendMail(s: State, l: Letter)
    requires MailOk(s)
    ensures MailOk(QueueSend(s, l)) && MailOk(SendPlainStep(s, l))
  {
    hide SameProcesses, SameLinks, Mails;
    OneMail(l);
    SentMail(s, [l], QueueSend(s, l));
    SentMail(s, [l], SendPlainStep(s, l));
  }

  /** A message is taken from a box. */
  lemma TakeMail(s: State, p: Pid, slot: nat)
    requires MailOk(s)
    ensures MailOk(TakeStep(s, p, slot))
  {
    hide MailOk, SameLinks, SameProcesses, Live, To, Queued, PutBox;
    var a, t := Address(p, slot), TakeStep(s, p, slot);
    if BoxAt(s, a).contents != [] {
      var r := Pop(BoxAt(s, a));
      var l := Letter(a, r.m);
      PutContents(s, a, r.box);
      assert a.slot < |At(s, a.pid).boxes|;
      assert forall c :: BoxAt(t, c) == BoxAt(PutBox(s, a, r.box), c);
      assert BoxAt(s, a).contents == [l.m] + BoxAt(t, a).contents;
      assert forall c :: c != a ==> BoxAt(t, c) == BoxAt(s, c);
      assert t.queue == s.queue && t.past.sent == s.past.sent && t.table == s.table;
      assert t.past.received == s.past.received + [l];
      hide BoxAt, TakeStep;
      LiveByTable(s, t);
      MailAt(s);
      forall c: Address | Live(t, c.pid) ensures Conserved(t, c) {
        ToJoin(s.past.received, [l], c);
        OneTo(l, c);
        TakeOne(s, t, c, l);
      }
      AllMail(t);
    }
  }

  lemma LiveByTable(s: State, t: State)
    requires t.table == s.table
    ensures forall p :: Live(t, p) == Live(s, p)
  {
  }

  lemma TakeOne(s: State, t: State, c: Address, l: Letter)
    requires Conserved(s, c) && t.queue == s.queue && t.past.sent == s.past.sent
    requires To(t.past.received, c) == To(s.past.received, c) + (if l.to == c then [l.m] else [])
    requires BoxAt(s, c).contents == (if c == l.to then [l.m] else []) + BoxAt(t, c).contents
    ensures Conserved(t, c)
  {
    hide To, Queued, BoxAt;
    if c == l.to {
      Regrouped(To(s.past.received, c), [l.m], BoxAt(t, c).contents, Queued(s.queue, c));
      assert To(s.past.received, c) + ([l.m] + BoxAt(t, c).contents) == To(t.past.received, c) + BoxAt(t, c).contents;
    } else {
      assert To(s.past.received, c) + [] == To(s.past.received, c);
    }
  }

  /** A letter is taken from the queue to its box. */
  lemma DeliverMail(s: State)
    requires MailOk(s) && s.queue != [] && s.queue[0].Mail?
    requires var a := s.queue[0].letter.to; Live(s, a.pid) ==> a.slot < |At(s, a.pid).boxes|
    ensures MailOk(DeliverStep(s))
  {
    hide SameProcesses, SameLinks;
    var l, t := s.queue[0].letter, DeliverStep(s);
    PutContents(PopItem(s), l.to, Push(BoxAt(s, l.to), l.m));
    assert forall c :: BoxAt(PopItem(s), c) == BoxAt(s, c);
    forall c: Address | Live(t, c.pid) ensures Conserved(t, c) {
      assert Conserved(s, c);
      if c == l.to {
        assert BoxAt(t, c).contents == BoxAt(s, c).contents + [l.m];
        hide To, Queued, BoxAt;
        Regrouped(To(s.past.received, c), BoxAt(s, c).contents, [l.m], Queued(t.queue, c));
        QueueHead(s.queue, c);
        assert To(s.past.received, c) + BoxAt(s, c).contents + ([l.m] + Queued(t.queue, c)) == To(s.past.sent, c);
        assert To(s.past.received, c) + (BoxAt(s, c).contents + [l.m]) + Queued(t.queue, c) == To(s.past.sent, c);
      } else {
        QueueHead(s.queue, c);
      }
    }
  }

  lemma QueueHead(queue: seq<Item>, a: Address)
    requires queue != []
    ensures queue[0].Mail? && queue[0].letter.to == a ==>
      Queued(queue, a) == [queue[0].letter.m] + Queued(queue[1..], a)
    ensures !(queue[0].Mail? && queue[0].letter.to == a) ==> Queued(queue, a) == Queued(queue[1..], a)
  {
  }

  lemma PopMail(s: State)
    requires MailOk(s) && s.queue != [] && (s.queue[0].Mail? ==> !Live(s, s.queue[0].letter.to.pid))
    ensures MailOk(PopItem(s))
  {
    hide SameProcesses, SameLinks, Queued, To;
    var t := PopItem(s);
    assert SameContents(s, t);
    forall a: Address | Live(t, a.pid) ensures Queued(t.queue, a) == Queued(s.queue, a) {
      QueueHead(s.queue, a);
    }
    MailSame(s, t);
  }

  lemma QueuedResume(queue: seq<Item>, p: Pid, stamp: nat, a: Address)
    ensures Queued(queue + [Resume(p, stamp)], a) == Queued(queue, a)
  {
    QueuedJoin(queue, [Resume(p, stamp)], a);
  }

  lemma SuspendMail(s: State, p: Pid, w: Wait)
    requires MailOk(s) && p in s.procs
    ensures MailOk(SuspendStep(s, p, w))
  {
    SuspendContents(s, p, w);
    hide SameLinks, Queued, To, PutBox, PutWait, SameContents;
    var t := SuspendStep(s, p, w);
    forall a: Address | Live(t, a.pid) ensures Queued(t.queue, a) == Queued(s.queue, a) {
      QueuedResume(s.queue, p, At(s, p).resumes, a);
      assert s.queue + [] == s.queue;
    }
    MailSame(s, t);
  }

  lemma SpawnMail(s: State, slots: nat, parent: Option<Pid>, both: bool, notify: seq<Address>)
    requires MailOk(s) && WrittenOk(s) && TableOk(s) && (parent.Some? ==> parent.value in s.procs)
    ensures MailOk(SpawnStep(s, slots, parent, both, notify))
  {
    hide TableOk, Queued, To, SameContents, NextPid, SpawnStep, BoxAt, Live, MailOk, WrittenOk;
    var p, t := NextPid(s), SpawnStep(s, slots, parent, both, notify);
    TableFacts(s);
    SpawnOk(s, slots, parent, both, notify);
    SpawnContents(s, slots, parent, both, notify);
    SpawnPast(s, slots, parent, both, notify);
    MailAt(s);
    forall a: Address | Live(t, a.pid) ensures Conserved(t, a) {
      QueuedResume(s.queue, p, 0, a);
      SameAt(s, t, a);
      if a.pid == p {
        NothingYet(s, a);
        EmptyYet(s, a);
      }
    }
    AllMail(t);
  }

  lemma EmptyYet(s: State, a: Address)
    requires a.pid !in s.procs
    ensures BoxAt(s, a).contents == []
  {
  }

  lemma MailAt(s: State)
    requires MailOk(s)
    ensures forall a: Address :: Live(s, a.pid) ==> Conserved(s, a)
  {
  }

  lemma AllMail(s: State)
    requires forall a: Address :: Live(s, a.pid) ==> Conserved(s, a)
    ensures MailOk(s)
  {
  }

  lemma SameAt(s: State, t: State, a: Address)
    requires SameContents(s, t)
    ensures BoxAt(t, a).contents == BoxAt(s, a).contents
  {
  }

  lemma SpawnPast(s: State, slots: nat, parent: Option<Pid>, both: bool, notify: seq<Address>)
    ensures var t := SpawnStep(s, slots, parent, both, notify);
      t.queue == s.queue + [Resume(NextPid(s), 0)] && t.past.sent == s.past.sent && t.past.received == s.past.received
  {
    hide NextPid, SameLinks, SameProcesses;
  }

  /** Nothing was sent to a process that was not spawned. */
  lemma NothingYet(s: State, a: Address)
    requires WrittenOk(s) && a.pid !in s.past.born
    ensures To(s.past.sent, a) == [] && To(s.past.received, a) == [] && Queued(s.queue, a) == []
  {
    NoneTo(s.past.sent, a);
    NoneTo(s.past.received, a);
    NoneQueued(s.queue, a);
  }

  lemma BuryMail(s: State)
    requires MailOk(s) && s.doomed != [] && !Live(s, s.doomed[0])
    ensures MailOk(BuryStep(s))
  {
    hide SameLinks, To, Queued, Mails, Notices, Wakes;
    var f, t := s.doomed[0], BuryStep(s);
    forall a: Address | Live(t, a.pid) ensures BoxAt(t, a).contents == BoxAt(s, a).contents {
      assert a.pid != f;
    }
    SentMail(s, Notices(f, At(s, f).notifyOnDie), t);
  }

  lemma DoomMail(s: State, q: Pid)
    requires MailOk(s)
    ensures MailOk(DoomStep(s, q)) && MailOk(FinishStep(s, q))
  {
    hide To, Queued, DoomStep, FinishStep, SameLinks, MailOk, Live;
    var t := DoomStep(s, q);
    DoomGone(s, q);
    assert SameContents(s, t) && SameContents(t, t.(running := None));
    MailSame(s, t);
    LiveByTable(t, t.(running := None));
    MailSame(t, t.(running := None));
  }

  // ---------------------------------------------------------------- where letters may go

  /** What letters and notices depend on stays as it is, or grows. */
  lemma WrittenSame(s: State, t: State)
    requires WrittenOk(s) && t.past.born == s.past.born
    requires t.past.sent == s.past.sent && t.past.received == s.past.received && t.queue == s.queue
    requires forall p :: p in t.procs ==>
      && p in s.procs && |t.procs[p].boxes| == |s.procs[p].boxes|
      && t.procs[p].notifyOnDie == s.procs[p].notifyOnDie
    requires forall p :: p in t.procs ==>
      LetterOf(t.procs[p].waiting) == LetterOf(s.procs[p].waiting) || LetterOf(t.procs[p].waiting) == None
    ensures WrittenOk(t)
  {
    hide Written, QueueWritten, NoticesWritten, LetterOf;
  }

  lemma LinksWritten(s: State, t: State)
    requires WrittenOk(s) && t.past.born == s.past.born && SameLinks(s, t) && t.procs.Keys == s.procs.Keys
    requires t.past.sent == s.past.sent && t.past.received == s.past.received && t.queue == s.queue
    requires forall p :: p in t.procs && p in s.procs ==>
      LetterOf(t.procs[p].waiting) == LetterOf(s.procs[p].waiting) || LetterOf(t.procs[p].waiting) == None
    ensures WrittenOk(t)
  {
    hide WrittenOk, LetterOf;
    assert forall p :: p in t.procs <==> p in t.procs.Keys;
    assert forall p :: p in s.procs <==> p in s.procs.Keys;
    WrittenSame(s, t);
  }

  lemma SendWritten(s: State, ls: seq<Letter>, t: State)
    requires WrittenOk(s) && Written(ls, s.past.born) && t.past.born == s.past.born && t.procs == s.procs
    requires t.queue == s.queue + Mails(ls) && t.past.sent == s.past.sent + ls && t.past.received == s.past.received
    ensures WrittenOk(t)
  {
    MailsWritten(ls, s.past.born);
    hide PendingWritten, AsBorn, NoticesWritten, Mails;
  }

  lemma {:induction false} MailsWritten(ls: seq<Letter>, born: map<Pid, Proc>)
    requires Written(ls, born)
    ensures QueueWritten(Mails(ls), born)
    decreases |ls|
  {
    if ls != [] {
      MailsWritten(ls[1..], born);
    }
  }

  lemma {:induction false} NoticesAre(p: Pid, to: seq<Address>, born: map<Pid, Proc>)
    requires forall i :: 0 <= i < |to| ==> to[i].pid in born && to[i].slot < |born[to[i].pid].boxes|
    ensures Written(Notices(p, to), born)
    ensures forall q :: NoticesOf(Notices(p, to), q) == if q == p then to else []
    decreases |to|
  {
    if to != [] {
      NoticesAre(p, to[1..], born);
      var l := Letter(to[0], Died(p));
      forall q ensures NoticesOf(Notices(p, to), q) == if q == p then to else [] {
        NoticesJoin([l], Notices(p, to[1..]), q);
        assert [l][..0] == [];
      }
    }
  }

  // ---------------------------------------------------------------- death notices

  /** Whom these letters tell of the death of `p`, in order. */
  function NoticesOf(ls: seq<Letter>, p: Pid): seq<Address> {
    if ls == [] then []
    else NoticesOf(ls[..|ls| - 1], p) + (if ls[|ls| - 1].m == Died(p) then [ls[|ls| - 1].to] else [])
  }

  lemma {:induction false} NoticesJoin(x: seq<Letter>, y: seq<Letter>, p: Pid)
    ensures NoticesOf(x + y, p) == NoticesOf(x, p) + NoticesOf(y, p)
    decreases |y|
  {
    if y == [] {
      assert x + y == x;
    } else {
      assert (x + y)[..|x + y| - 1] == x + y[..|y| - 1];
      NoticesJoin(x, y[..|y| - 1], p);
    }
  }

  /** Every address that a process was to notify got one notice if it was destroyed, and
      none otherwise. */
  predicate Noticed(past: History, p: Pid) {
    NoticesOf(past.sent, p) == if p in past.destroyed && p in past.born then past.born[p].notifyOnDie else []
  }

  ghost predicate NoticesOk(s: State) {
    forall p :: Noticed(s.past, p)
  }

  lemma DataNotices(s: State, l: Letter, past: History)
    requires NoticesOk(s) && l.m.Data?
    requires past.sent == s.past.sent + [l] && past.destroyed == s.past.destroyed && past.born == s.past.born
    ensures forall p :: Noticed(past, p)
  {
    forall p ensures Noticed(past, p) {
      assert Noticed(s.past, p);
      NoticesJoin(s.past.sent, [l], p);
      assert [l][..0] == [];
    }
  }

  lemma NoticesSame(s: State, t: State)
    requires NoticesOk(s) && t.past.sent == s.past.sent && t.past.destroyed == s.past.destroyed
    requires t.past.born == s.past.born
    ensures NoticesOk(t)
  {
    forall p ensures Noticed(t.past, p) {
      assert Noticed(s.past, p);
    }
  }

  lemma SpawnNotices(s: State, t: State, q: Pid, proc: Proc)
    requires NoticesOk(s) && q !in s.past.destroyed
    requires t.past.sent == s.past.sent && t.past.destroyed == s.past.destroyed && t.past.born == s.past.born[q := proc]
    ensures NoticesOk(t)
  {
    forall p ensures Noticed(t.past, p) {
      assert Noticed(s.past, p);
    }
  }

  lemma BuryNotices(s: State)
    requires NoticesOk(s) && WrittenOk(s) && s.doomed != [] && s.doomed[0] in s.procs
    requires s.doomed[0] !in s.past.destroyed
    ensures NoticesOk(BuryStep(s)) && WrittenOk(BuryStep(s))
  {
    hide WrittenOk, NoticesOk, BuryStep, Written;
    NoticesOfFirst(s);
    BuryNoticed(s);
    BuryWritten(s);
  }

  /** The notices that the first of the doomed sends are its own, to addresses that exist. */
  lemma NoticesOfFirst(s: State)
    requires WrittenOk(s) && s.doomed != [] && s.doomed[0] in s.procs
    ensures var f := s.doomed[0];
            var ls := Notices(f, At(s, f).notifyOnDie);
      && f in s.past.born && Written(ls, s.past.born)
      && forall p :: NoticesOf(ls, p) == if p == f then s.past.born[f].notifyOnDie else []
  {
    hide Notices, NoticesOf, Written, QueueWritten, PendingWritten, LetterOf;
    NoticesAre(s.doomed[0], s.procs[s.doomed[0]].notifyOnDie, s.past.born);
  }

  lemma BuryNoticed(s: State)
    requires NoticesOk(s) && s.doomed != [] && s.doomed[0] !in s.past.destroyed && s.doomed[0] in s.past.born
    requires var f := s.doomed[0];
      forall p :: NoticesOf(Notices(f, At(s, f).notifyOnDie), p) == if p == f then s.past.born[f].notifyOnDie else []
    ensures NoticesOk(BuryStep(s))
  {
    var f, t := s.doomed[0], BuryStep(s);
    var ls := Notices(f, At(s, f).notifyOnDie);
    assert t.past.sent == s.past.sent + ls && t.past.destroyed == s.past.destroyed + [f] && t.past.born == s.past.born;
    hide BuryStep, Notices, NoticesOf;
    forall p ensures Noticed(t.past, p) {
      assert Noticed(s.past, p);
      NoticesJoin(s.past.sent, ls, p);
    }
  }

  lemma BuryWritten(s: State)
    requires WrittenOk(s) && s.doomed != []
    requires Written(Notices(s.doomed[0], At(s, s.doomed[0]).notifyOnDie), s.past.born)
    ensures WrittenOk(BuryStep(s))
  {
    hide Notices, Mails, Wakes, SameLinks, Written, QueueWritten, NoticesWritten, LetterOf;
    var t := BuryStep(s);
    var ls := Notices(s.doomed[0], At(s, s.doomed[0]).notifyOnDie);
    var u := s.(queue := t.queue, past := t.past);
    SendWritten(s, ls, u);
    assert PendingWritten(t.procs, t.past.born) && AsBorn(t.procs, t.past.born);
  }

  // ---------------------------------------------------------------- every step

  lemma SpawnWritten(s: State, slots: nat, parent: Option<Pid>, both: bool, notify: seq<Address>)
    requires WrittenOk(s) && TableOk(s) && Enabled(s, Spawn(slots, parent, both, notify))
    ensures WrittenOk(SpawnStep(s, slots, parent, both, notify))
  {
    var p, t := NextPid(s), SpawnAlone(s, slots, notify);
    TableFacts(s);
    SpawnAloneWritten(s, slots, notify);
    SpawnAloneChanges(s, slots, notify);
    assert forall q :: q in t.procs <==> q in t.procs.Keys;
    hide WrittenOk, TableOk, SpawnAlone, AddKill, NextPid, SameLinks;
    if parent.Some? {
      var r := parent.value;
      KillWritten(t, r, p);
      KillWritten(t, p, r);
      KillWritten(AddKill(t, p, r), r, p);
    }
  }

  lemma KillWritten(s: State, p: Pid, q: Pid)
    requires WrittenOk(s) && p in s.procs
    ensures WrittenOk(AddKill(s, p, q))
  {
    hide WrittenOk, LetterOf, SameProcesses;
    WrittenSame(s, AddKill(s, p, q));
  }

  lemma SpawnAloneWritten(s: State, slots: nat, notify: seq<Address>)
    requires WrittenOk(s) && NextPid(s) !in s.past.born && NextPid(s) !in s.procs
    requires forall i :: 0 <= i < |notify| ==> Addressable(s, notify[i])
    ensures WrittenOk(SpawnAlone(s, slots, notify))
  {
    hide NextPid, SameLinks;
    var p, t := NextPid(s), SpawnAlone(s, slots, notify);
    assert forall q :: q in s.past.born ==> q in t.past.born && t.past.born[q] == s.past.born[q];
    assert t.queue == s.queue + [Resume(p, 0)] && t.past.sent == s.past.sent && t.past.received == s.past.received;
    var proc := t.procs[p];
    assert t.procs == s.procs[p := proc] && t.past.born == s.past.born[p := proc];
    assert proc.notifyOnDie == notify && LetterOf(proc.waiting) == None;
    hide SpawnAlone;
  }

  /** A process gets another letter to send, or none. */
  lemma WaitWritten(s: State, p: Pid, w: Wait)
    requires WrittenOk(s) && p in s.procs
    requires LetterOf(w).Some? ==> LetterOf(w).value.m.Data? && Addressable(s, LetterOf(w).value.to)
    ensures WrittenOk(PutWait(s, p, w))
  {
    hide Written, QueueWritten, NoticesWritten, SameLinks, SameProcesses, LetterOf;
  }

  lemma QueueShorter(s: State, t: State)
    requires WrittenOk(s) && s.queue != [] && t == s.(queue := s.queue[1..])
    ensures WrittenOk(t)
  {
    hide Written, NoticesWritten, PendingWritten, AsBorn;
  }

  lemma QueueLonger(s: State, p: Pid, stamp: nat, t: State)
    requires WrittenOk(s) && t == s.(queue := s.queue + [Resume(p, stamp)], past := t.past)
    requires t.past == s.past.(throttled := t.past.throttled)
    ensures WrittenOk(t)
  {
    hide Written, NoticesWritten, PendingWritten, AsBorn;
  }

  lemma BoxWritten(s: State, a: Address, b: Box)
    requires WrittenOk(s)
    ensures WrittenOk(PutBox(s, a, b))
  {
    var t := PutBox(s, a, b);
    assert forall p :: p in t.procs && p in s.procs ==> t.procs[p].waiting == s.procs[p].waiting;
    hide WrittenOk, LetterOf, SameProcesses, SameLinks, PutBox;
    assert t.procs.Keys == s.procs.Keys by { SameKeys(s, t); }
    LinksWritten(s, t);
  }

  lemma SameKeys(s: State, t: State)
    requires SameProcesses(s, t)
    ensures t.procs.Keys == s.procs.Keys && t.past.born == s.past.born
  {
  }

  lemma TakeWritten(s: State, p: Pid, slot: nat)
    requires WrittenOk(s)
    ensures WrittenOk(TakeStep(s, p, slot))
  {
    var a := Address(p, slot);
    if BoxAt(s, a).contents != [] {
      var r := Pop(BoxAt(s, a));
      var l := Letter(a, r.m);
      BoxWritten(s, a, r.box);
      assert Written([l], s.past.born);
      hide PutBox, BoxAt, SameLinks, SameProcesses, PendingWritten, AsBorn, NoticesWritten, QueueWritten;
    }
  }

  lemma SuspendWritten(s: State, p: Pid, w: Wait)
    requires WrittenOk(s) && p in s.procs && MayWait(s, p, w)
    ensures WrittenOk(SuspendStep(s, p, w))
  {
    var t := PutWait(s, p, w).(running := None);
    var me := Waiter(p, At(s, p).resumes);
    WaitWritten(s, p, w);
    PlainWritten(PutWait(s, p, w), t);
    hide WrittenOk, PutWait, MayWait, LetterOf, PutBox, BoxAt, SameLinks, SameProcesses;
    match w
    case Yielding(pending) =>
      QueueLonger(t, p, me.stamp, t.(queue := t.queue + [Resume(p, me.stamp)]));
      QueueLonger(t, p, me.stamp, SuspendStep(s, p, w));
    case OnThrottle(l) =>
      var r := Continued(BoxAt(t, l.to).promise, me);
      var u := PutBox(t, l.to, BoxAt(t, l.to).(promise := r.signal));
      BoxWritten(t, l.to, BoxAt(t, l.to).(promise := r.signal));
      PlainWritten(u, u.(posted := t.posted + r.posted));
    case _ => PlainWritten(t, SuspendStep(s, p, w));
  }

  /** The fields that letters do not depend on. */
  lemma PlainWritten(s: State, t: State)
    requires WrittenOk(s)
    requires t == s.(table := t.table, tombstones := t.tombstones, doomed := t.doomed, running := t.running,
                     posted := t.posted, outside := t.outside, past := t.past)
    requires t.past == s.past.(throttled := t.past.throttled, plain := t.past.plain)
    ensures WrittenOk(t)
  {
    hide Written, NoticesWritten, PendingWritten, AsBorn, QueueWritten;
  }

  lemma BeginWritten(s: State, p: Pid)
    requires WrittenOk(s) && p in s.procs
    ensures WrittenOk(BeginStep(s, p))
  {
    var w, t := At(s, p).waiting, BeginStep(s, p);
    assert forall q :: q in t.procs && q in s.procs ==>
      LetterOf(t.procs[q].waiting) == LetterOf(s.procs[q].waiting) || LetterOf(t.procs[q].waiting) == None;
    hide WrittenOk, SameLinks, SameProcesses, BeginStep, LetterOf;
    SameKeys(s, t);
    LinksWritten(s, t);
  }

  lemma SendOnWritten(s: State, p: Pid)
    requires WrittenOk(s) && p in s.procs && At(s, p).waiting.Running? && At(s, p).waiting.pending.Some?
    ensures WrittenOk(SendOnStep(s, p)) && At(s, p).waiting.pending.value.m.Data?
  {
    var l, t := At(s, p).waiting.pending.value, PutWait(s, p, Running(None));
    WaitWritten(s, p, Running(None));
    assert Written([l], s.past.born) && l.m.Data? by {
      assert LetterOf(s.procs[p].waiting) == Some(l);
      hide Written, QueueWritten, NoticesWritten, AsBorn;
    }
    OneMail(l);
    hide WrittenOk, PutWait, Mails, SameLinks, Written;
    SameKeys(s, t);
    SendWritten(t, [l], QueueSend(t, l));
  }

  lemma BodyWritten(s: State, m: Step)
    requires WrittenOk(s) && TableOk(s) && Enabled(s, m) && OfBody(m)
    ensures WrittenOk(Next(s, m))
  {
    hide WrittenOk, TableOk, SpawnStep, AddKill, TakeStep, SuspendStep, PutWait, BoxAt, SendPlainStep, PassStep,
         SendOnStep, Full, Live, MayWait, Mails, SameLinks;
    TableFacts(s);
    match m
    case Spawn(slots, parent, both, notify) => SpawnWritten(s, slots, parent, both, notify);
    case Link(p, q) =>
      KillWritten(s, p, q);
      KillWritten(AddKill(s, p, q), q, p);
    case SendPlain(l) => SendPlainWritten(s, l);
    case Pass(p, l) => PassWritten(s, p, l);
    case SendOn(p) => SendOnWritten(s, p);
    case Take(p, slot) => TakeWritten(s, p, slot);
    case Suspend(p, w) => SuspendWritten(s, p, w);
  }

  lemma EndWritten(s: State, m: Step)
    requires WrittenOk(s) && NoticesOk(s) && TableOk(s) && Enabled(s, m) && (m.Doom? || m.Finish? || m.Bury?)
    ensures WrittenOk(Next(s, m))
  {
    hide WrittenOk, NoticesOk, TableOk, DoomStep, BuryStep, Live, SameLinks;
    NotDestroyed(s);
    match m
    case Doom(q) => PlainWritten(s, DoomStep(s, q));
    case Finish(p) =>
      PlainWritten(s, DoomStep(s, p));
      PlainWritten(DoomStep(s, p), FinishStep(s, p));
    case Bury => BuryNotices(s);
  }

  /** Where letters may go is kept by every step. */
  lemma WrittenKept(s: State, m: Step)
    requires WrittenOk(s) && NoticesOk(s) && TableOk(s) && Enabled(s, m)
    ensures WrittenOk(Next(s, m))
  {
    hide *;
    if OfBody(m) {
      BodyWritten(s, m);
    } else if m.Doom? || m.Finish? || m.Bury? {
      EndWritten(s, m);
    } else {
      LoopWritten(s, m);
    }
  }

  lemma SendPlainWritten(s: State, l: Letter)
    requires WrittenOk(s) && Addressable(s, l.to)
    ensures WrittenOk(SendPlainStep(s, l))
  {
    OneMail(l);
    assert Written([l], s.past.born);
    hide WrittenOk, Written, Mails, SameLinks, SameProcesses;
    SendWritten(s, [l], QueueSend(s, l));
    PlainWritten(QueueSend(s, l), SendPlainStep(s, l));
  }

  lemma PassWritten(s: State, p: Pid, l: Letter)
    requires WrittenOk(s) && p in s.procs && Addressable(s, l.to) && l.m.Data?
    ensures WrittenOk(PassStep(s, p, l))
  {
    hide WrittenOk, PutWait, SameLinks, SameProcesses;
    WaitWritten(s, p, Running(Some(l)));
    PlainWritten(PutWait(s, p, Running(Some(l))), PassStep(s, p, l));
  }

  lemma DeliverWritten(s: State)
    requires WrittenOk(s) && s.queue != [] && s.queue[0].Mail?
    ensures WrittenOk(DeliverStep(s))
  {
    hide WrittenOk, PutBox, BoxAt, SameLinks, SameProcesses;
    var l := s.queue[0].letter;
    QueueShorter(s, PopItem(s));
    BoxWritten(PopItem(s), l.to, Push(BoxAt(s, l.to), l.m));
  }

  lemma PopWritten(s: State)
    requires WrittenOk(s)
    ensures WrittenOk(PopItem(s))
  {
    hide WrittenOk, SameProcesses, SameLinks;
    if s.queue != [] {
      QueueShorter(s, PopItem(s));
    }
  }

  lemma ContinuationWritten(s: State, k: nat)
    requires WrittenOk(s) && forall p :: Live(s, p) ==> p in s.procs
    ensures WrittenOk(ContinuationStep(s, k))
  {
    hide WrittenOk, BeginStep, Live, SameProcesses, SameLinks, RemoveAt;
    if k < |s.posted| {
      var t := s.(posted := RemoveAt(s.posted, k));
      PlainWritten(s, t);
      if Current(s, s.posted[k].pid, s.posted[k].stamp) {
        BeginWritten(t, s.posted[k].pid);
      }
    }
  }

  lemma FireWritten(s: State, k: nat)
    requires WrittenOk(s)
    ensures WrittenOk(FireStep(s, k))
  {
    hide WrittenOk, SameProcesses, SameLinks, RemoveAt;
    PlainWritten(s, FireStep(s, k));
  }

  lemma LoopWritten(s: State, m: Step)
    requires WrittenOk(s) && TableOk(s) && Enabled(s, m) && !OfBody(m) && !m.Doom? && !m.Finish? && !m.Bury?
    ensures WrittenOk(Next(s, m))
  {
    hide WrittenOk, TableOk, BeginStep, DeliverStep, PopItem, ContinuationStep, FireStep, WaitingFor, Live,
         SameProcesses, SameLinks;
    TableFacts(s);
    match m
    case Drop => PopWritten(s);
    case Deliver => DeliverWritten(s);
    case DeliverWake =>
      DeliverWritten(s);
      SameSize(s, DeliverStep(s));
      BeginWritten(DeliverStep(s), s.queue[0].letter.to.pid);
    case WakeItem =>
      PopWritten(s);
      SameSize(s, PopItem(s));
      BeginWritten(PopItem(s), s.queue[0].pid);
    case Continuation(k) => ContinuationWritten(s, k);
    case Timer(q) => BeginWritten(s, q);
    case Fire(k) => FireWritten(s, k);
  }

  lemma SentSame(s: State, m: Step)
    requires !m.SendPlain? && !m.SendOn? && !m.Bury? && !m.Spawn?
    ensures Next(s, m).past.sent == s.past.sent
  {
    hide SameLinks, SameProcesses, AddKill, BeginStep, PutBox, BoxAt, RemoveAt, SuspendStep, DoomStep, Live;
  }

  lemma SpawnKeepsNotices(s: State, slots: nat, parent: Option<Pid>, both: bool, notify: seq<Address>)
    requires NoticesOk(s) && NextPid(s) !in s.past.destroyed
    ensures NoticesOk(SpawnStep(s, slots, parent, both, notify))
  {
    hide NoticesOk, AddKill, NextPid, SameProcesses, SameLinks;
    SpawnNotices(s, SpawnStep(s, slots, parent, both, notify), NextPid(s),
                 Proc(0, NotStarted, [], notify, seq(slots, _ => EMPTY_BOX)));
  }

  lemma SendOnNotices(s: State, p: Pid)
    requires WrittenOk(s) && NoticesOk(s) && p in s.procs && At(s, p).waiting.Running? && At(s, p).waiting.pending.Some?
    ensures NoticesOk(SendOnStep(s, p))
  {
    SendOnWritten(s, p);
    hide WrittenOk, NoticesOk, QueueSend, SendPlainStep, SameLinks;
    NoticesSame(s, PutWait(s, p, Running(None)));
    SendNotices(PutWait(s, p, Running(None)), At(s, p).waiting.pending.value);
  }

  lemma OtherNotices(s: State, m: Step)
    requires NoticesOk(s) && TableOk(s) && Enabled(s, m) && !Moves(m) && !m.SendPlain? && !m.SendOn?
    ensures NoticesOk(Next(s, m))
  {
    StaysSame(s, m);
    SentSame(s, m);
    hide *;
    SameKeys(s, Next(s, m));
    SameDestroyed(s, Next(s, m));
    NoticesSame(s, Next(s, m));
  }

  lemma SameDestroyed(s: State, t: State)
    requires SameProcesses(s, t)
    ensures t.past.destroyed == s.past.destroyed
  {
  }

  /** Death notices are kept by every step. */
  lemma NoticesKept(s: State, m: Step)
    requires WrittenOk(s) && NoticesOk(s) && TableOk(s) && Enabled(s, m)
    ensures NoticesOk(Next(s, m))
  {
    if !Moves(m) && !m.SendPlain? && !m.SendOn? {
      hide *;
      OtherNotices(s, m);
    } else {
      TableFacts(s);
      NotDestroyed(s);
      hide WrittenOk, NoticesOk, TableOk, BuryStep, SpawnStep, Live, Addressable, NextPid, DoomStep, FinishStep,
           SendPlainStep, SendOnStep, Full;
      match m
      case Spawn(slots, parent, both, notify) => SpawnKeepsNotices(s, slots, parent, both, notify);
      case SendPlain(l) => SendNotices(s, l);
      case SendOn(p) => SendOnNotices(s, p);
      case Bury => BuryNotices(s);
      case Doom(q) => NoticesSame(s, Next(s, m));
      case Finish(q) => NoticesSame(s, Next(s, m));
    }
  }

  lemma SendNotices(s: State, l: Letter)
    requires NoticesOk(s) && l.m.Data?
    ensures NoticesOk(QueueSend(s, l)) && NoticesOk(SendPlainStep(s, l))
  {
    hide SameLinks, SameProcesses, Noticed;
    DataNotices(s, l, QueueSend(s, l).past);
    DataNotices(s, l, SendPlainStep(s, l).past);
  }

  lemma BeginMail(s: State, p: Pid)
    requires MailOk(s)
    ensures MailOk(BeginStep(s, p))
  {
    hide MailOk, SameLinks, SameProcesses, SameContents, BeginStep;
    BeginContents(s, p);
    LiveByTable(s, BeginStep(s, p));
    MailSame(s, BeginStep(s, p));
  }

  lemma PlainMail(s: State, t: State)
    requires MailOk(s) && SameContents(s, t) && t.table == s.table && t.queue == s.queue
    requires t.past.sent == s.past.sent && t.past.received == s.past.received
    ensures MailOk(t)
  {
    hide MailOk, SameContents;
    LiveByTable(s, t);
    MailSame(s, t);
  }

  lemma BodyMail(s: State, m: Step)
    requires MailOk(s) && WrittenOk(s) && TableOk(s) && Enabled(s, m) && OfBody(m)
    ensures MailOk(Next(s, m))
  {
    hide MailOk, WrittenOk, TableOk, SpawnStep, AddKill, TakeStep, SuspendStep, SendOnStep, PutWait, BoxAt, Full, Live,
         MayWait, Addressable, SendPlainStep;
    TableFacts(s);
    match m
    case Spawn(slots, parent, both, notify) => SpawnMail(s, slots, parent, both, notify);
    case Link(p, q) =>
      KillMail(s, p, q);
      KillMail(AddKill(s, p, q), q, p);
    case SendPlain(l) => SendMail(s, l);
    case Pass(p, l) => PassMail(s, p, l);
    case SendOn(p) => SendOnMail(s, p);
    case Take(p, slot) => TakeMail(s, p, slot);
    case Suspend(p, w) => SuspendMail(s, p, w);
  }

  lemma PassMail(s: State, p: Pid, l: Letter)
    requires MailOk(s)
    ensures MailOk(PassStep(s, p, l))
  {
    hide MailOk, SameLinks, SameProcesses;
    WaitMail(s, p, Running(Some(l)), PassStep(s, p, l));
  }

  lemma SendOnMail(s: State, p: Pid)
    requires MailOk(s)
    ensures MailOk(SendOnStep(s, p))
  {
    hide MailOk, QueueSend, SendPlainStep;
    var w := At(s, p).waiting;
    if w.Running? && w.pending.Some? {
      WaitMail(s, p, Running(None), PutWait(s, p, Running(None)));
      SendMail(PutWait(s, p, Running(None)), w.pending.value);
    }
  }

  lemma LoopMail(s: State, m: Step)
    requires MailOk(s) && WrittenOk(s) && TableOk(s) && Enabled(s, m) && !OfBody(m)
    ensures MailOk(Next(s, m))
  {
    hide MailOk, WrittenOk, TableOk, BeginStep, DoomStep, FinishStep, BuryStep, WaitingFor, Live, FireStep,
         DeliverStep, PopItem, SameLinks, ContinuationStep;
    NotDestroyed(s);
    match m
    case Doom(q) => DoomMail(s, q);
    case Finish(p) => DoomMail(s, p);
    case Bury => BuryMail(s);
    case Timer(q) => BeginMail(s, q);
    case Fire(k) => FireMail(s, k);
    case Continuation(k) => ContinuationMail(s, k);
    case _ => ItemMail(s, m);
  }

  /** Letters are conserved by every step. */
  lemma MailKept(s: State, m: Step)
    requires MailOk(s) && WrittenOk(s) && TableOk(s) && Enabled(s, m)
    ensures MailOk(Next(s, m))
  {
    hide *;
    if OfBody(m) {
      BodyMail(s, m);
    } else {
      LoopMail(s, m);
    }
  }

  lemma KillMail(s: State, p: Pid, q: Pid)
    requires MailOk(s)
    ensures MailOk(AddKill(s, p, q))
  {
    KillContents(s, p, q);
    hide MailOk, SameContents, AddKill, SameProcesses;
    PlainMail(s, AddKill(s, p, q));
  }

  lemma WaitMail(s: State, p: Pid, w: Wait, t: State)
    requires MailOk(s) && t == PutWait(s, p, w).(past := t.past) && t.past == s.past.(throttled := t.past.throttled)
    ensures MailOk(t)
  {
    WaitContents(s, p, w);
    hide MailOk, SameContents, SameLinks, SameProcesses;
    assert SameContents(s, t) by { SamePast(s, PutWait(s, p, w), t); }
    PlainMail(s, t);
  }

  lemma SamePast(s: State, t: State, u: State)
    requires SameContents(s, t) && u.procs == t.procs
    ensures SameContents(s, u)
  {
  }

  lemma SameBoxes(s: State, t: State)
    requires t.procs == s.procs
    ensures SameContents(s, t)
  {
  }

  lemma FireMail(s: State, k: nat)
    requires MailOk(s)
    ensures MailOk(FireStep(s, k))
  {
    hide MailOk, SameContents, RemoveAt, SameLinks, SameProcesses;
    SameBoxes(s, FireStep(s, k));
    PlainMail(s, FireStep(s, k));
  }

  lemma ContinuationMail(s: State, k: nat)
    requires MailOk(s)
    ensures MailOk(ContinuationStep(s, k))
  {
    hide MailOk, SameContents, RemoveAt, SameLinks, SameProcesses, BeginStep, Current;
    if k < |s.posted| {
      var t := s.(posted := RemoveAt(s.posted, k));
      SameBoxes(s, t);
      PlainMail(s, t);
      BeginMail(t, s.posted[k].pid);
    }
  }

  lemma InRange(s: State, a: Address)
    requires WrittenOk(s) && a.pid in s.procs && s.queue != [] && s.queue[0].Mail? && s.queue[0].letter.to == a
    ensures a.slot < |At(s, a.pid).boxes|
  {
    hide Written, NoticesWritten, PendingWritten;
  }

  lemma ItemMail(s: State, m: Step)
    requires MailOk(s) && WrittenOk(s) && TableOk(s) && Enabled(s, m)
    requires m.Drop? || m.Deliver? || m.DeliverWake? || m.WakeItem?
    ensures MailOk(Next(s, m))
  {
    hide MailOk, WrittenOk, TableOk, BeginStep, DeliverStep, PopItem, WaitingFor, Live, SameProcesses, SameLinks;
    TableFacts(s);
    if s.queue[0].Mail? && Live(s, s.queue[0].letter.to.pid) {
      InRange(s, s.queue[0].letter.to);
      DeliverMail(s);
      BeginMail(DeliverStep(s), s.queue[0].letter.to.pid);
    } else {
      PopMail(s);
      if m.WakeItem? {
        BeginMail(PopItem(s), s.queue[0].pid);
      }
    }
  }
}
