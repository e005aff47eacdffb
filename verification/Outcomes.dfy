/** What commands lead to over whole runs. */
module Outcomes {
  import opened Options
  import opened Mailboxes
  import opened Scheduler
  import opened PidTable
  import opened RunLoop
  import opened Links
  import opened Stamps
  import opened Conservation
  import opened Throttles
  import opened Futures
  import opened Effects
  import opened Commands
  import opened Runs

  // ---------------------------------------------------------------- what is never undone

  /** No link is undone, nothing sent or received is taken back. */
  ghost predicate Lasts(s: State, t: State) {
    && s.past.kills <= t.past.kills && s.past.sent <= t.past.sent && s.past.received <= t.past.received
  }

  lemma StepLasts(s: State, m: Step)
    ensures Lasts(s, Next(s, m))
  {
    hide SameLinks, SameProcesses, NextPid, Live, BoxAt, PutBox, Notices, Mails, Wakes, RemoveAt, WaitingFor;
  }

  lemma {:induction false} LeadsLasts(s: State, ms: seq<Step>, t: State)
    requires Leads(s, ms, t)
    ensures Lasts(s, t)
    decreases |ms|
  {
    hide Enabled, Next;
    if ms != [] {
      StepLasts(s, ms[0]);
      LeadsLasts(Next(s, ms[0]), ms[1..], t);
    }
  }

  lemma FollowsLasts(s: State, t: State)
    requires Follows(s, t)
    ensures Lasts(s, t)
  {
    hide Lasts, Leads;
    var ms :| Leads(s, ms, t);
    LeadsLasts(s, ms, t);
  }

  lemma FollowsKeeps(s: State, t: State)
    requires Inv(s) && Follows(s, t)
    ensures Inv(t)
  {
    hide Inv, Leads;
    var ms :| Leads(s, ms, t);
    EveryStep(s, ms, t);
  }

  /** What a process was spawned with stays on record. */
  ghost predicate BornLasts(s: State, t: State) {
    forall r :: r in s.past.born ==> r in t.past.born && t.past.born[r] == s.past.born[r]
  }

  lemma StepBorn(s: State, m: Step)
    requires TableOk(s) && Enabled(s, m)
    ensures BornLasts(s, Next(s, m))
  {
    TableFacts(s);
    hide TableOk, Enabled;
    if m.Spawn? {
      BodyIs(s, m);
      hide Next;
      SpawnBorn(s, m.slots, m.parent, m.both, m.notify);
    } else {
      OtherBorn(s, m);
    }
  }

  lemma SpawnBorn(s: State, slots: nat, parent: Option<Pid>, both: bool, notify: seq<Address>)
    requires NextPid(s) !in s.past.born
    ensures BornLasts(s, SpawnStep(s, slots, parent, both, notify))
  {
    hide SameLinks, NextPid;
  }

  lemma OtherBorn(s: State, m: Step)
    requires !m.Spawn?
    ensures Next(s, m).past.born == s.past.born
  {
    hide SameLinks, SameProcesses, Live, BoxAt, PutBox, Notices, Mails, Wakes, RemoveAt, WaitingFor;
  }

  lemma {:induction false} LeadsBorn(s: State, ms: seq<Step>, t: State)
    requires Inv(s) && Leads(s, ms, t)
    ensures BornLasts(s, t)
    decreases |ms|
  {
    hide Inv, Enabled, Next;
    if ms != [] {
      InvTable(s);
      InvKept(s, ms[0]);
      StepBorn(s, ms[0]);
      LeadsBorn(Next(s, ms[0]), ms[1..], t);
    }
  }

  lemma FollowsBorn(s: State, t: State)
    requires Inv(s) && Follows(s, t)
    ensures BornLasts(s, t)
  {
    hide Inv, Leads, BornLasts;
    var ms :| Leads(s, ms, t);
    LeadsBorn(s, ms, t);
  }

  // ---------------------------------------------------------------- links

  /** In a run, the body of `p` has come to these commands. */
  ghost predicate Comes(ms: seq<Step>, s: State, p: Pid) {
    Leads(BEGINNING, ms, s) && s.running == Some(p) && At(s, p).waiting == Running(None)
  }

  lemma ComesBusy(ms: seq<Step>, s: State, p: Pid)
    requires Comes(ms, s, p)
    ensures Inv(s) && TableOk(s) && p in s.procs && Busy(s, s, p, None)
  {
    hide Inv, Leads, TableOk;
    AtEveryStep(ms, s);
    InvTable(s);
    FollowsSelf(s);
    TableFacts(s);
  }

  /** A step of the body, after which the other commands are obeyed. */
  lemma ThenRuns(s: State, m: Step, p: Pid, rest: seq<Command>, t: State)
    requires Busy(s, s, p, None) && Enabled(s, m)
    requires m.Spawn? || m.Link? || m.Doom? || m.SendPlain? || m.Take?
    requires (m.Link? ==> m.p == p) && Follows(RunBody(Next(s, m), p, rest), t)
    ensures Inv(Next(s, m)) && Follows(Next(s, m), t) && Inv(t)
  {
    hide Inv, Follows, Enabled, Next, RunBody, At;
    var u := Next(s, m);
    StepsOn(s, s, m, p, None);
    FollowsSelf(u);
    assert Busy(u, u, p, None);
    BodyRuns(u, u, p, rest);
    FollowsTwice(u, RunBody(u, p, rest), t);
    FollowsKeeps(u, t);
  }

  /** In every run: once the body of `p` has linked with a live `q`, the two are both in the
      table or both gone whenever nothing awaits destruction, for ever. */
  lemma LinkedEverAfter(ms: seq<Step>, s: State, p: Pid, q: Pid, rest: seq<Command>, t: State)
    requires Comes(ms, s, p) && Live(s, q) && Follows(RunBody(s, p, [LinkTo(q)] + rest), t) && t.doomed == []
    ensures Live(t, p) == Live(t, q)
  {
    hide Inv, Comes, Follows, Busy, RunBody, TableOk, Enabled, Next, LinkStep, Linked;
    ComesBusy(ms, s, p);
    BusyRuns(s, p);
    LinkCommand(s, p, q, rest);
    LiveExists(s, q);
    LinkMeans(s, p, q);
    ThenRuns(s, Link(p, q), p, rest, t);
    FollowsLasts(Next(s, Link(p, q)), t);
    BothLinked(s, Next(s, Link(p, q)), t, p, q);
    InvLinks(t);
    LinkedTogether(t, p, q);
  }

  lemma BusyRuns(s: State, p: Pid)
    requires Busy(s, s, p, None)
    ensures s.running == Some(p)
  {
    hide Inv, Follows;
  }

  lemma LinkCommand(s: State, p: Pid, q: Pid, rest: seq<Command>)
    requires Live(s, q) && s.running == Some(p)
    ensures RunBody(s, p, [LinkTo(q)] + rest) == RunBody(Next(s, Link(p, q)), p, rest) && Enabled(s, Link(p, q))
  {
    hide LinkStep, FinishStep, Live;
    LinkIs(s, p, q, Letter(Address(p, 0), Data(0)));
    assert ([LinkTo(q)] + rest)[1..] == rest;
  }

  lemma BothLinked(s: State, u: State, t: State, p: Pid, q: Pid)
    requires Linked(s, u, {(p, q), (q, p)}) && Lasts(u, t)
    ensures (p, q) in t.past.kills && (q, p) in t.past.kills
  {
  }

  /** The command that spawns, and what is then true of `t` and the child. */
  lemma SpawnCommand(s: State, p: Pid, c: Command, rest: seq<Command>)
    requires p in s.procs && s.running == Some(p) && !Hopeless(s, c) && (c.SpawnLink? || c.SpawnLinkNotify?)
    ensures var m := Spawn(c.size, Some(p), c.SpawnLink?, if c.SpawnLink? then [] else [c.to]);
      RunBody(s, p, [c] + rest) == RunBody(Next(s, m), p, rest) && Enabled(s, m)
  {
    hide SpawnStep, FinishStep, Addressable;
    SpawnIs(s, p, c.size, if c.SpawnLink? then Address(p, 0) else c.to);
    assert ([c] + rest)[1..] == rest;
  }

  lemma ChildBorn(s: State, u: State, t: State, c: Pid, size: nat, notify: seq<Address>)
    requires Spawns(s, u, c, size, notify) && BornLasts(u, t)
    ensures c !in s.past.born && c in t.past.born
    ensures |t.past.born[c].boxes| == size && t.past.born[c].notifyOnDie == notify
  {
    hide TakesIndex, Live;
    assert c in u.past.born.Keys;
  }

  lemma ChildLinked(s: State, u: State, t: State, p: Pid, c: Pid, both: bool)
    requires Linked(s, u, Pairs(Some(p), both, c)) && Lasts(u, t)
    ensures (p, c) in t.past.kills && (both ==> (c, p) in t.past.kills)
  {
    hide Names;
  }

  lemma DeadHasNotified(t: State, c: Pid)
    requires TableOk(t) && NoticesOk(t) && t.doomed == [] && c in t.past.born && !Live(t, c)
    ensures NoticesOf(t.past.sent, c) == t.past.born[c].notifyOnDie
  {
    assert Noticed(t.past, c);
    hide NoticesOf, NoticesOk;
  }

  /** In every run: a process spawned by `spawnLink` and its parent are both in the table or
      both gone whenever nothing awaits destruction, for ever. One spawned by
      `spawnLinkNotify` dies with its parent; when it is destroyed it has sent its notice,
      once, to the address its parent gave. */
  lemma SpawnedEverAfter(ms: seq<Step>, s: State, p: Pid, c: Command, rest: seq<Command>, t: State)
    returns (child: Pid)
    requires Comes(ms, s, p) && !Hopeless(s, c) && (c.SpawnLink? || c.SpawnLinkNotify?)
    requires Follows(RunBody(s, p, [c] + rest), t) && t.doomed == []
    ensures child !in s.past.born && child in t.past.born && |t.past.born[child].boxes| == c.size
    ensures Live(t, child) ==> Live(t, p)
    ensures c.SpawnLink? ==> (Live(t, p) ==> Live(t, child))
    ensures c.SpawnLinkNotify? && !Live(t, child) ==> NoticesOf(t.past.sent, child) == [c.to]
  {
    var notify := if c.SpawnLink? then [] else [c.to];
    var m := Spawn(c.size, Some(p), c.SpawnLink?, notify);
    hide Inv, Comes, Follows, Busy, RunBody, TableOk, Enabled, Next, Linked, Spawns, Hopeless, Live;
    ComesBusy(ms, s, p);
    BusyRuns(s, p);
    SpawnCommand(s, p, c, rest);
    child := SpawnMeans(s, c.size, Some(p), c.SpawnLink?, notify);
    ThenRuns(s, m, p, rest, t);
    FollowsLasts(Next(s, m), t);
    FollowsBorn(Next(s, m), t);
    ChildBorn(s, Next(s, m), t, child, c.size, notify);
    ChildLinked(s, Next(s, m), t, p, child, c.SpawnLink?);
    InvLinks(t);
    LinkedTogether(t, p, child);
    if c.SpawnLinkNotify? && !Live(t, child) {
      DeadHasNotified(t, child);
    }
  }

  // ---------------------------------------------------------------- throttled sends

  /** The letters of the `sendThrottled` that `p` begins on the way, in order: it gets to the
      test of the mailbox, or yields to the queue first. */
  function BegunBy(ms: seq<Step>, p: Pid): seq<Letter> {
    if ms == [] then [] else Begins(ms[0], p) + BegunBy(ms[1..], p)
  }

  function Begins(m: Step, p: Pid): seq<Letter> {
    match m
    case Pass(q, l) => if q == p then [l] else []
    case Suspend(q, w) => if q == p && w.Yielding? then Held(w.pending) else []
    case _ => []
  }

  /** What was sent between two states. */
  function Added(s: State, t: State): seq<Letter> {
    if |s.past.sent| <= |t.past.sent| then t.past.sent[|s.past.sent|..] else []
  }

  /** What the `sendThrottled` of `p` sent on the way. */
  function SentBy(s: State, ms: seq<Step>, p: Pid): seq<Letter>
    decreases |ms|
  {
    if ms == [] then []
    else (if ms[0] == SendOn(p) then Added(s, Next(s, ms[0])) else []) + SentBy(Next(s, ms[0]), ms[1..], p)
  }

  /** The letter of the `sendThrottled` that `p` is in. */
  function Unsent(s: State, p: Pid): seq<Letter> {
    Held(LetterOf(At(s, p).waiting))
  }

  /** `p` exists, or was never spawned. */
  predicate NotDead(s: State, p: Pid) {
    p in s.procs || p !in s.past.born
  }

  lemma NotDeadBefore(s: State, m: Step, p: Pid)
    requires TableOk(s) && Enabled(s, m) && NotDead(Next(s, m), p)
    ensures NotDead(s, p) && (p in s.procs ==> p in Next(s, m).procs)
  {
    hide TableOk, Enabled, Next;
    TableFacts(s);
    if p in s.past.born {
      BornStays(s, m, p);
      if p !in s.procs {
        DeadStay(s, m, p);
      }
    }
  }

  lemma DeadStay(s: State, m: Step, p: Pid)
    requires TableOk(s) && Enabled(s, m) && p in s.past.born && p !in s.procs
    ensures p !in Next(s, m).procs
  {
    hide TableOk;
    TableFacts(s);
    if !Moves(m) {
      StaysSame(s, m);
      SameSize(s, Next(s, m));
    } else if m.Spawn? {
      hide Enabled;
      BodyIs(s, m);
      SpawnChanges(s, m.slots, m.parent, m.both, m.notify);
    } else {
      OthersKeepBorn(s, m);
    }
  }

  /** A step accounts for the letter of `p`. */
  ghost predicate Accounts(s: State, m: Step, p: Pid) {
    Unsent(s, p) + Begins(m, p) == (if m == SendOn(p) then Added(s, Next(s, m)) else []) + Unsent(Next(s, m), p)
  }

  /** A step that `p` has no part in. */
  lemma OthersAccount(s: State, m: Step, p: Pid)
    requires TableOk(s) && StampsOk(s) && Enabled(s, m) && p in s.procs && p in Next(s, m).procs && s.running != Some(p)
    ensures Accounts(s, m, p)
  {
    hide TableOk, StampsOk, Enabled, Next, Woken, LetterOf, Added;
    CountsGrow(s, m, p);
    NoneBegun(s, m, p);
    if Woken(s, m) == Some(p) {
      WokenLetter(s, m, p);
    }
  }

  lemma NoneBegun(s: State, m: Step, p: Pid)
    requires Enabled(s, m) && s.running != Some(p)
    ensures Begins(m, p) == [] && m != SendOn(p)
  {
    hide MayWait, Free, WaitOnQueue, Addressable, Full;
  }

  /** A resume keeps the letter. */
  lemma WokenLetter(s: State, m: Step, p: Pid)
    requires TableOk(s) && StampsOk(s) && Enabled(s, m) && p in s.procs && Woken(s, m) == Some(p)
    ensures LetterOf(At(Next(s, m), p).waiting) == LetterOf(At(s, p).waiting)
  {
    hide TableOk, StampsOk, BeginStep, DeliverStep, PopItem, Live, WaitingFor, BoxAt, RemoveAt, LetterOf, SameLinks,
         SameProcesses;
    TableFacts(s);
    LiveNotRunning(s, p) by { WokenLive(s, m, p); }
    var w := At(s, p).waiting;
    LetterKept(w);
    match m
    case DeliverWake =>
      BoxTicks(s, p, 0, p);
      BeginsRunning(DeliverStep(s), p);
    case WakeItem =>
      BeginsRunning(PopItem(s), p);
      assert At(PopItem(s), p) == At(s, p) by { PopAt(s, p); }
    case Continuation(k) => BeginsRunning(s.(posted := RemoveAt(s.posted, k)), p);
    case Timer(q) => BeginsRunning(s, p);
  }

  lemma PopAt(s: State, p: Pid)
    ensures At(PopItem(s), p) == At(s, p)
  {
    hide SameLinks, SameProcesses;
  }

  lemma WokenLive(s: State, m: Step, p: Pid)
    requires Enabled(s, m) && Woken(s, m) == Some(p)
    ensures Live(s, p) && s.running.None?
  {
    hide Live, WaitingFor, MayWait, BoxAt;
  }

  lemma LiveNotRunning(s: State, p: Pid)
    requires TableOk(s) && StampsOk(s) && Live(s, p) && s.running.None?
    ensures !At(s, p).waiting.Running?
  {
    hide TableOk, StampsOk, Live;
    if At(s, p).waiting.Running? {
      OnlyOneRuns(s, p);
    }
  }

  lemma LetterKept(w: Wait)
    ensures !w.Running? ==> LetterOf(Running(PendingOf(w))) == LetterOf(w)
  {
  }

  /** A step of the body of `p`, or while it runs. */
  lemma OwnAccounts(s: State, m: Step, p: Pid)
    requires TableOk(s) && Enabled(s, m) && p in s.procs && s.running == Some(p)
    ensures Accounts(s, m, p)
  {
    hide TableOk, Live, LetterOf, Addressable, BoxAt, AnyReady, Full, WaitOnQueue, SuspendStep, PassStep, SendOnStep,
         SameLinks, SameProcesses, SpawnStep, LinkStep, TakeStep, NextPid;
    TableFacts(s);
    match m
    case Pass(q, l) => PassAccounts(s, p, l);
    case SendOn(q) => SendOnAccounts(s, p);
    case Suspend(q, w) => SuspendAccounts(s, p, w);
    case Finish(q) => assert Next(s, m).procs == s.procs;
    case Fire(k) => assert Next(s, m).procs == s.procs;
    case _ => StillAccounts(s, m, p);
  }

  lemma StillAccounts(s: State, m: Step, p: Pid)
    requires TableOk(s) && Enabled(s, m) && p in s.procs
    requires m.Spawn? || m.Link? || m.Doom? || m.SendPlain? || m.Take?
    ensures Accounts(s, m, p)
  {
    hide TableOk, Next, LetterOf, Live, NextPid, Addressable, BoxAt;
    TableFacts(s);
    WaitAfter(s, m, p);
  }

  lemma PassAccounts(s: State, p: Pid, l: Letter)
    requires p in s.procs && Free(s, p)
    ensures Accounts(s, Pass(p, l), p)
  {
    hide SameLinks, SameProcesses;
  }

  lemma SendOnAccounts(s: State, p: Pid)
    requires p in s.procs && At(s, p).waiting.Running? && At(s, p).waiting.pending.Some?
    ensures Accounts(s, SendOn(p), p)
  {
    var l := s.procs[p].waiting.pending.value;
    hide SameLinks, SameProcesses;
    SendOnMeans(s, p, l);
    assert (s.past.sent + [l])[|s.past.sent|..] == [l];
  }

  lemma SuspendAccounts(s: State, p: Pid, w: Wait)
    requires p in s.procs && MayWait(s, p, w)
    ensures Accounts(s, Step.Suspend(p, w), p)
  {
    WaitIs(s, p, w);
    hide SameLinks, SameProcesses, SuspendStep, AnyReady, WaitOnQueue, Addressable, Full;
  }

  /** A step accounts for the letter of a process that exists before and after it, or is
      spawned by it. */
  lemma StepAccounts(s: State, m: Step, p: Pid)
    requires Inv(s) && Enabled(s, m) && NotDead(Next(s, m), p)
    ensures NotDead(s, p) && Accounts(s, m, p)
  {
    hide Inv, TableOk, StampsOk, Enabled, Next, Accounts;
    InvTable(s);
    InvStamps(s);
    NotDeadBefore(s, m, p);
    if p !in s.procs {
      UnbornAccounts(s, m, p);
    } else if s.running == Some(p) {
      OwnAccounts(s, m, p);
    } else {
      OthersAccount(s, m, p);
    }
  }

  lemma UnbornAccounts(s: State, m: Step, p: Pid)
    requires TableOk(s) && Enabled(s, m) && p !in s.procs && p !in s.past.born
    ensures Accounts(s, m, p)
  {
    hide TableOk, Enabled, Next;
    TableFacts(s);
    NoneBegun(s, m, p);
    if p in Next(s, m).procs {
      NewIsUnstarted(s, m, p);
    }
  }

  lemma {:induction false} AllAccount(s: State, ms: seq<Step>, t: State, p: Pid)
    requires Inv(s) && Leads(s, ms, t) && NotDead(t, p)
    ensures NotDead(s, p) && Unsent(s, p) + BegunBy(ms, p) == SentBy(s, ms, p) + Unsent(t, p)
    decreases |ms|
  {
    hide Inv, Enabled, Next, NotDead, Unsent, Begins, Added;
    if ms != [] {
      var m, u := ms[0], Next(s, ms[0]);
      InvKept(s, m);
      AllAccount(u, ms[1..], t, p);
      StepAccounts(s, m, p);
      var one := if m == SendOn(p) then Added(s, u) else [];
      assert Unsent(s, p) + (Begins(m, p) + BegunBy(ms[1..], p)) == Unsent(s, p) + Begins(m, p) + BegunBy(ms[1..], p);
      assert one + Unsent(u, p) + BegunBy(ms[1..], p) == one + (Unsent(u, p) + BegunBy(ms[1..], p));
      assert one + (SentBy(u, ms[1..], p) + Unsent(t, p)) == one + SentBy(u, ms[1..], p) + Unsent(t, p);
    } else {
      assert Unsent(s, p) + [] == [] + Unsent(t, p);
    }
  }

  /** In every run, as long as `p` has not died: the letters of the `sendThrottled` it has
      begun are those that these have sent, each once and in order, and then the one it is
      still in, if it is in one. */
  lemma SentAsBegun(ms: seq<Step>, t: State, p: Pid)
    requires Leads(BEGINNING, ms, t) && NotDead(t, p)
    ensures BegunBy(ms, p) == SentBy(BEGINNING, ms, p) + Unsent(t, p)
  {
    hide Inv, Leads, NotDead, SentBy, BegunBy;
    InvBegins();
    AllAccount(BEGINNING, ms, t, p);
    assert Unsent(BEGINNING, p) == [];
    assert [] + BegunBy(ms, p) == BegunBy(ms, p);
  }

  // ---------------------------------------------------------------- sends and receives

  /** A command after which the body goes on in `u`, or pauses there: what `u` has done is
      never undone. */
  lemma GoneOn(s: State, m: Step, p: Pid, rest: seq<Command>, v: State, t: State)
    requires Busy(s, s, p, None) && Enabled(s, m) && (m.SendPlain? || m.Take?)
    requires v == RunBody(Next(s, m), p, rest) && Follows(v, t)
    ensures Lasts(Next(s, m), t)
  {
    hide Inv, Follows, Enabled, Next, RunBody, Lasts;
    ThenRuns(s, m, p, rest, t);
    FollowsLasts(Next(s, m), t);
  }

  /** In every run: what `send` sends, awaited or not, has been sent at every later state, at
      the place it was sent. */
  lemma SentEverAfter(ms: seq<Step>, s: State, p: Pid, c: Command, rest: seq<Command>, t: State)
    requires Comes(ms, s, p) && !Hopeless(s, c) && (c.Send? || c.SendAwaited?)
    requires Follows(RunBody(s, p, [c] + rest), t)
    ensures s.past.sent + [Letter(c.to, Data(c.n))] <= t.past.sent
  {
    var l := Letter(c.to, Data(c.n));
    hide Inv, Comes, Follows, Busy, TableOk, Enabled, Next, Hopeless, Obey, RunBody, SendPlainStep, Paused;
    ComesBusy(ms, s, p);
    var u := SendMeans(s, p, c, rest);
    SendCommand(s, p, c, rest, l);
    SentSame(s, u, p, l);
    if c.SendAwaited? && |s.queue| + 1 > 10 {
      PausedSent(u, Obey(s, p, c, rest), p, Yielding(None));
      FollowsLasts(Obey(s, p, c, rest), t);
    } else {
      GoneOn(s, SendPlain(l), p, rest, Obey(s, p, c, rest), t);
    }
  }

  lemma PausedSent(s: State, t: State, p: Pid, w: Wait)
    requires Paused(s, t, p, w)
    ensures t.past.sent == s.past.sent
  {
  }

  lemma SentSame(s: State, u: State, p: Pid, l: Letter)
    requires Sent(s, u, p, l)
    ensures u.past.sent == s.past.sent + [l] && Next(s, SendPlain(l)).past.sent == u.past.sent
  {
  }

  lemma SendCommand(s: State, p: Pid, c: Command, rest: seq<Command>, l: Letter)
    requires !Hopeless(s, c) && (c.Send? || c.SendAwaited?) && l == Letter(c.to, Data(c.n))
    ensures RunBody(s, p, [c] + rest) == Obey(s, p, c, rest) && Enabled(s, SendPlain(l))
    ensures !(c.SendAwaited? && |s.queue| + 1 > 10) ==> Obey(s, p, c, rest) == RunBody(Next(s, SendPlain(l)), p, rest)
  {
    hide SameLinks, SameProcesses, Addressable, FinishStep, SuspendStep;
    assert ([c] + rest)[1..] == rest;
  }

  /** In every run: a receive that finds a message in one of its slots has received the oldest
      of each slot that has one, in the order of the slots, at every later state. */
  lemma ReceivedEverAfter(ms: seq<Step>, s: State, p: Pid, c: Command, rest: seq<Command>, t: State)
    requires Comes(ms, s, p) && (c.Recv? || (c.TryRecv? && DistinctSlots(c.slots)))
    requires var slots := if c.Recv? then [c.slot] else c.slots;
      exists x :: x in slots && BoxAt(s, Address(p, x)).contents != []
    requires Follows(RunBody(s, p, [c] + rest), t)
    ensures s.past.received + Oldest(s, p, if c.Recv? then [c.slot] else c.slots) <= t.past.received
  {
    var slots := if c.Recv? then [c.slot] else c.slots;
    hide Inv, Comes, Follows, Busy, TableOk, Enabled, Next, RunBody, TakeAll, BoxAt, Taken, Oldest;
    ComesBusy(ms, s, p);
    ReceiveCommand(s, p, c, rest);
    Takes(s, s, p, slots);
    TakeAllMeans(s, p, slots);
    TakenReceived(s, TakeAll(s, p, slots), p, slots);
    FollowsSelf(TakeAll(s, p, slots));
    BusySelf(s, TakeAll(s, p, slots), p);
    BodyRuns(TakeAll(s, p, slots), TakeAll(s, p, slots), p, rest);
    GotFollows(TakeAll(s, p, slots), RunBody(TakeAll(s, p, slots), p, rest));
    FollowsLasts(TakeAll(s, p, slots), RunBody(TakeAll(s, p, slots), p, rest));
    FollowsLasts(RunBody(TakeAll(s, p, slots), p, rest), t);
  }

  lemma ReceiveCommand(s: State, p: Pid, c: Command, rest: seq<Command>)
    requires c.Recv? || c.TryRecv?
    requires var slots := if c.Recv? then [c.slot] else c.slots;
      exists x :: x in slots && BoxAt(s, Address(p, x)).contents != []
    ensures RunBody(s, p, [c] + rest) == RunBody(TakeAll(s, p, if c.Recv? then [c.slot] else c.slots), p, rest)
  {
    hide TakeAll, BoxAt, SuspendStep, AnyReady;
    ReadyMeans(s, p, if c.Recv? then [c.slot] else c.slots);
    assert ([c] + rest)[1..] == rest;
  }

  lemma TakenReceived(s: State, u: State, p: Pid, slots: seq<nat>)
    requires Taken(s, u, p, slots) && DistinctSlots(slots)
    ensures u.past.received == s.past.received + Oldest(s, p, slots)
  {
  }

  lemma BusySelf(o: State, s: State, p: Pid)
    requires Busy(o, s, p, None) && Follows(s, s)
    ensures Busy(s, s, p, None)
  {
    hide Inv, Follows;
  }

  lemma GotFollows(o: State, s: State)
    requires Got(o, s)
    ensures Follows(o, s)
  {
    hide Rests, Follows;
  }

  // ---------------------------------------------------------------- promises outside

  lemma AwaitedBegins()
    ensures AwaitedOk(BEGINNING)
  {
  }

  lemma {:induction false} AwaitedAlong(s: State, ms: seq<Step>, t: State)
    requires Inv(s) && AwaitedOk(s) && Leads(s, ms, t)
    ensures AwaitedOk(t)
    decreases |ms|
  {
    hide Inv, AwaitedOk, Enabled, Next;
    if ms != [] {
      InvKept(s, ms[0]);
      InvTable(s);
      InvStamps(s);
      AwaitedKept(s, ms[0]);
      AwaitedAlong(Next(s, ms[0]), ms[1..], t);
    }
  }

  /** At every step of every run: a live process that waits for a promise outside the context,
      alone or with slots, has exactly one continuation with its resume count, which that
      promise holds or which is posted. */
  lemma AwaitedAtEveryStep(ms: seq<Step>, t: State, p: Pid)
    requires Leads(BEGINNING, ms, t) && Live(t, p)
    requires At(t, p).waiting.OnOutside? || (At(t, p).waiting.Receiving? && At(t, p).waiting.future)
    ensures var w := Waiter(p, At(t, p).resumes); multiset(t.outside)[w] + multiset(t.posted)[w] == 1
  {
    hide Inv, Leads, AwaitedOk, Live, At;
    InvBegins();
    AwaitedBegins();
    AwaitedAlong(BEGINNING, ms, t);
    OneTally(t, p);
  }

  lemma OneTally(s: State, p: Pid)
    requires AwaitedOk(s) && Live(s, p) && ForFuture(At(s, p).waiting)
    ensures var w := Waiter(p, At(s, p).resumes); multiset(s.outside)[w] + multiset(s.posted)[w] == 1
  {
    hide HeldSomewhere, Live;
    assert Tally(s, Me(s, p)) == 1;
  }

  /** So it can be woken: once its promise is set, if it is not yet, and its continuation has
      run, its body goes on from its wait. */
  lemma SetWakes(ms: seq<Step>, s: State, p: Pid, cmds: seq<Command>) returns (cs: seq<Callback>, v: State, u: State)
    requires Leads(BEGINNING, ms, s) && s.running.None? && Live(s, p)
    requires At(s, p).waiting.OnOutside? || (At(s, p).waiting.Receiving? && At(s, p).waiting.future)
    ensures (forall c :: c in cs ==> c.SetOutside? || c.Posted?)
    ensures v == s.(outside := v.outside, posted := v.posted) && Roused(v, u, p)
    ensures RunCallbacks(s, cs) == GoOn(u, p, At(s, p).waiting, cmds)
  {
    var w := Waiter(p, At(s, p).resumes);
    hide Inv, TableOk, Leads, Live, GoOn, Roused, RunCallback;
    AwaitedAtEveryStep(ms, s, p);
    AtEveryStep(ms, s);
    InvTable(s);
    TableFacts(s);
    if w in s.posted {
      var j :| 0 <= j < |s.posted| && s.posted[j] == w;
      v, u := PostedWakes(s, p, j, cmds);
      cs := [Callback.Posted(j, cmds)];
      OneCallback(s, cs[0]);
    } else {
      assert w in s.outside;
      var k :| 0 <= k < |s.outside| && s.outside[k] == w;
      var t := RunCallback(s, SetOutside(k));
      SetPosts(s, k);
      SameTable(s.(outside := t.outside), t, p);
      v, u := PostedWakes(t, p, |s.posted|, cmds);
      cs := [SetOutside(k), Callback.Posted(|s.posted|, cmds)];
      TwoCallbacks(s, cs[0], cs[1]);
    }
  }

  lemma SetPosts(s: State, k: nat)
    requires k < |s.outside|
    ensures var t := RunCallback(s, SetOutside(k));
      && t == s.(outside := t.outside, posted := s.posted + [s.outside[k]])
      && forall r :: Live(t, r) == Live(s, r) && At(t, r) == At(s, r)
  {
  }

  lemma OneCallback(s: State, c: Callback)
    ensures RunCallbacks(s, [c]) == RunCallback(s, c)
  {
    hide RunCallback;
    assert [c][1..] == [];
  }

  lemma TwoCallbacks(s: State, c: Callback, d: Callback)
    ensures RunCallbacks(s, [c, d]) == RunCallback(RunCallback(s, c), d)
  {
    hide RunCallback;
    assert [c, d][1..] == [d];
    OneCallback(RunCallback(s, c), d);
  }

  lemma PostedWakes(s: State, p: Pid, j: nat, cmds: seq<Command>) returns (v: State, u: State)
    requires (forall r :: Live(s, r) ==> r in s.procs) && Live(s, p)
    requires j < |s.posted| && s.posted[j] == Waiter(p, At(s, p).resumes)
    ensures v == s.(posted := v.posted) && Roused(v, u, p)
    ensures RunCallback(s, Callback.Posted(j, cmds)) == GoOn(u, p, At(s, p).waiting, cmds)
  {
    hide GoOn, Roused, RunCallback, Live;
    v := s.(posted := s.posted[..j] + s.posted[j + 1..]);
    u := WakeMeans(s, Callback.Posted(j, cmds));
  }

  // ---------------------------------------------------------------- the queue

  predicate Onto(s: State, t: State) {
    s.queue <= t.queue
  }

  /** No step of a body, of a drain or of a spawn takes anything off the queue. */
  lemma StepsAppend(s: State, m: Step)
    requires !m.Drop? && !m.Deliver? && !m.DeliverWake? && !m.WakeItem?
    ensures Onto(s, Next(s, m))
  {
    hide SameLinks, SameProcesses, NextPid, Live, BoxAt, PutBox, Notices, Wakes, RemoveAt, WaitingFor;
  }

  lemma {:induction false} TakesAppend(s: State, p: Pid, slots: seq<nat>)
    ensures Onto(s, TakeAll(s, p, slots))
    decreases |slots|
  {
    hide TakeStep;
    if slots != [] {
      StepsAppend(s, Take(p, slots[0]));
      TakesAppend(TakeStep(s, p, slots[0]), p, slots[1..]);
    }
  }

  lemma {:induction false} BodyAppends(s: State, p: Pid, cmds: seq<Command>)
    ensures Onto(s, RunBody(s, p, cmds))
    decreases |cmds|, 1
  {
    hide Obey, FinishStep;
    StepsAppend(s, Finish(p));
    if cmds != [] {
      ObeyAppends(s, p, cmds[0], cmds[1..]);
    }
  }

  /** What a step appends, the rest of the commands leave there. */
  lemma {:induction false} StepThen(s: State, m: Step, p: Pid, rest: seq<Command>)
    requires !m.Drop? && !m.Deliver? && !m.DeliverWake? && !m.WakeItem?
    ensures Onto(s, RunBody(Next(s, m), p, rest))
    decreases |rest|, 2
  {
    hide RunBody, Next;
    StepsAppend(s, m);
    BodyAppends(Next(s, m), p, rest);
  }

  lemma {:induction false} ObeyAppends(s: State, p: Pid, c: Command, rest: seq<Command>)
    ensures Onto(s, Obey(s, p, c, rest))
    decreases |rest|, 5
  {
    hide RunBody, LinkStep, DoomStep, SendPlainStep, SuspendStep, FinishStep, PassStep, Throttle, TakeAll, Addressable,
         AnyReady, Live, Onto, WaitOnQueue;
    StepsAppend(s, Finish(p));
    match c
    case SpawnNew(_) => SpawnAppends(s, p, c, rest);
    case SpawnLink(_) => SpawnAppends(s, p, c, rest);
    case SpawnLinkNotify(_, _) => SpawnAppends(s, p, c, rest);
    case LinkTo(q) => StepThen(s, Link(p, q), p, rest);
    case QueueKill(q) => StepThen(s, Doom(q), p, rest);
    case Send(to, n) => AwaitedAppends(s, p, Letter(to, Data(n)), rest);
    case SendAwaited(to, n) => AwaitedAppends(s, p, Letter(to, Data(n)), rest);
    case SendThrottled(to, n) => ThrottledAppends(s, p, Letter(to, Data(n)), rest);
    case Recv(slot) => ReceiveAppends(s, p, [slot], true, false, rest);
    case TryRecv(slots, future) => ReceiveAppends(s, p, slots, false, future, rest);
    case _ => StopAppends(s, p, c, rest);
  }

  lemma {:induction false} SpawnAppends(s: State, p: Pid, c: Command, rest: seq<Command>)
    requires c.SpawnNew? || c.SpawnLink? || c.SpawnLinkNotify?
    ensures Onto(s, Obey(s, p, c, rest))
    decreases |rest|, 4
  {
    hide RunBody, SpawnStep, FinishStep, Addressable, Onto;
    StepsAppend(s, Finish(p));
    match c
    case SpawnNew(size) => StepThen(s, Spawn(size, None, false, []), p, rest);
    case SpawnLink(size) => StepThen(s, Spawn(size, Some(p), true, []), p, rest);
    case SpawnLinkNotify(size, to) => StepThen(s, Spawn(size, Some(p), false, [to]), p, rest);
  }

  lemma StopAppends(s: State, p: Pid, c: Command, rest: seq<Command>)
    requires c.Yield? || c.Sleep? || c.AwaitOutside? || c.Throw?
    ensures Onto(s, Obey(s, p, c, rest))
  {
    hide SuspendStep, FinishStep, Onto, Next, Enabled, MayWait;
    var w := if c.Yield? then Yielding(None) else if c.Sleep? then Sleeping else OnOutside;
    SuspendIs(s, p, w);
    StepsAppend(s, Finish(p));
    StepsAppend(s, Step.Suspend(p, w));
  }

  lemma OntoTwice(s: State, t: State, u: State)
    requires Onto(s, t) && Onto(t, u)
    ensures Onto(s, u)
  {
  }

  lemma {:induction false} AwaitedAppends(s: State, p: Pid, l: Letter, rest: seq<Command>)
    ensures var t := SendPlainStep(s, l);
      Onto(s, SuspendStep(t, p, Yielding(None))) && Onto(s, RunBody(t, p, rest))
    decreases |rest|, 4
  {
    var t := SendPlainStep(s, l);
    hide RunBody, SuspendStep, SendPlainStep, Onto;
    StepThen(s, SendPlain(l), p, rest);
    StepsAppend(s, SendPlain(l));
    StepsAppend(t, Step.Suspend(p, Yielding(None)));
    OntoTwice(s, t, SuspendStep(t, p, Yielding(None)));
  }

  lemma {:induction false} ThrottledAppends(s: State, p: Pid, l: Letter, rest: seq<Command>)
    ensures Onto(s, SuspendStep(s, p, Yielding(Some(l)))) && Onto(s, Throttle(PassStep(s, p, l), p, l, rest))
    decreases |rest|, 4
  {
    hide SuspendStep, PassStep, Throttle, Onto;
    StepsAppend(s, Step.Suspend(p, Yielding(Some(l))));
    StepsAppend(s, Pass(p, l));
    ThrottleAppends(PassStep(s, p, l), p, l, rest);
    OntoTwice(s, PassStep(s, p, l), Throttle(PassStep(s, p, l), p, l, rest));
  }

  lemma {:induction false} ThrottleAppends(s: State, p: Pid, l: Letter, rest: seq<Command>)
    ensures Onto(s, Throttle(s, p, l, rest))
    decreases |rest|, 3
  {
    hide SuspendStep, SendOnStep, RunBody, Full, Onto;
    StepsAppend(s, Step.Suspend(p, OnThrottle(l)));
    StepThen(s, SendOn(p), p, rest);
  }

  lemma {:induction false} ReceiveAppends(s: State, p: Pid, slots: seq<nat>, plain: bool, future: bool,
          rest: seq<Command>)
    ensures Onto(s, RunBody(TakeAll(s, p, slots), p, rest))
    ensures Onto(s, SuspendStep(s, p, Receiving(slots, plain, future)))
    decreases |rest|, 4
  {
    hide SuspendStep, TakeAll, RunBody, Onto;
    StepsAppend(s, Step.Suspend(p, Receiving(slots, plain, future)));
    TakesAppend(s, p, slots);
    BodyAppends(TakeAll(s, p, slots), p, rest);
    OntoTwice(s, TakeAll(s, p, slots), RunBody(TakeAll(s, p, slots), p, rest));
  }

  lemma ResumeAppends(s: State, p: Pid, cmds: seq<Command>)
    ensures Onto(s, ResumeProcess(s, p, cmds))
  {
    var u, was := BeginStep(s, p), At(s, p).waiting;
    hide BeginStep, RunBody, TakeAll, Throttle, FinishStep, AnyReady;
    assert u.queue == s.queue;
    BodyAppends(u, p, cmds);
    if was.Receiving? {
      TakesAppend(u, p, was.slots);
      BodyAppends(TakeAll(u, p, was.slots), p, cmds);
      StepsAppend(u.(past := u.past.(raised := true)), Finish(p));
    } else if PendingOf(was).Some? {
      ThrottleAppends(u, p, PendingOf(was).value, cmds);
    }
  }

  lemma ItemAppends(s: State, cmds: seq<Command>)
    requires s.queue != []
    ensures s.queue[1..] <= ProcessItem(s, cmds).queue
  {
    hide ResumeProcess, DeliverStep, Live, WaitingFor, SameLinks, SameProcesses;
    assert PopItem(s).queue == s.queue[1..];
    match s.queue[0] {
      case Mail(l) =>
        DeliveredQueue(s);
        ResumeAppends(DeliverStep(s), l.to.pid, cmds);
      case Resume(p, stamp) => ResumeAppends(PopItem(s), p, cmds);
    }
  }

  lemma DeliveredQueue(s: State)
    requires s.queue != [] && s.queue[0].Mail?
    ensures DeliverStep(s).queue == s.queue[1..]
  {
    hide SameLinks, SameProcesses;
  }

  lemma {:induction false} DoomsAppend(s: State, qs: seq<Pid>)
    ensures Onto(s, DoomAll(s, qs))
    decreases |qs|
  {
    hide DoomStep;
    if qs != [] {
      StepsAppend(s, Doom(qs[0]));
      DoomsAppend(DoomStep(s, qs[0]), qs[1..]);
    }
  }

  lemma {:induction false} DrainAppends(s: State)
    ensures Onto(s, Drain(s))
    decreases Pending(s)
  {
    hide BuryStep, DoomAll, Pending;
    if s.doomed != [] {
      var u := DoomAll(s, At(s, s.doomed[0]).killOnDie);
      DoomsAppend(s, At(s, s.doomed[0]).killOnDie);
      StepsAppend(u, Bury);
      DestroyPending(s);
      DrainAppends(Destroy(s));
    }
  }

  /** The queue is first in, first out: as long as the loop goes on, `n` rounds take up the
      first `n` items, and leave the others in their order before all that is queued since. */
  lemma {:induction false} FirstInFirstOut(s: State, cs: seq<Choice>)
    requires |cs| <= |s.queue| && forall i :: 0 <= i < |cs| ==> Going(RunFor(s, cs[..i]))
    ensures s.queue[|cs|..] <= RunFor(s, cs).queue
    decreases |cs|
  {
    hide Round, Going;
    if cs != [] {
      var t := Round(s, cs[0]);
      RoundAppends(s, cs[0]);
      assert RunFor(s, cs[..0]) == s;
      forall i | 0 <= i < |cs| - 1 ensures Going(RunFor(t, cs[1..][..i])) {
        assert cs[..i + 1][0] == cs[0] && cs[..i + 1][1..] == cs[1..][..i];
        assert Going(RunFor(s, cs[..i + 1]));
      }
      FirstInFirstOut(t, cs[1..]);
      assert s.queue[1..][|cs| - 1..] == s.queue[|cs|..];
    }
  }

  lemma RoundAppends(s: State, c: Choice)
    requires s.queue != []
    ensures s.queue[1..] <= Round(s, c).queue
  {
    hide ProcessItem, Drain, RunCallbacks;
    ItemAppends(s, c.cmds);
    DrainAppends(ProcessItem(s, c.cmds));
  }

  // ---------------------------------------------------------------- the start

  /** Who existed still does, with its mailboxes, and what was queued is first in the queue. */
  ghost predicate StillThere(s: State, t: State) {
    && s.queue <= t.queue && (forall r :: Live(s, r) ==> Live(t, r))
    && forall r :: r in s.procs ==> r in t.procs && |t.procs[r].boxes| == |s.procs[r].boxes|
  }

  /** The `i`-th process spawned since `s`. */
  predicate Started(s: State, t: State, sizes: seq<nat>, i: nat)
    requires i < |sizes|
  {
    var c := Pid(|s.table| + i, 0);
    && Live(t, c) && c in t.procs && |t.procs[c].boxes| == sizes[i]
    && |s.queue| + i < |t.queue| && t.queue[|s.queue| + i] == Resume(c, 0)
  }

  /** What is spawned before the loop is entered is spawned in that order, and will start in
      that order. */
  lemma {:induction false} PrepareMeans(s: State, sizes: seq<nat>)
    requires TableOk(s) && s.tombstones == []
    ensures var t := Prepare(s, sizes);
      && StillThere(s, t) && |t.queue| == |s.queue| + |sizes|
      && |t.table| == |s.table| + |sizes| && forall i :: 0 <= i < |sizes| ==> Started(s, t, sizes, i)
    decreases |sizes|
  {
    hide TableOk, SpawnStep, Live, Spawns, Linked, StillThere, Started;
    if sizes == [] {
      NoneStarted(s);
    } else {
      var u, rest := SpawnStep(s, sizes[0], None, false, []), sizes[1..];
      var c := SpawnMeans(s, sizes[0], None, false, []);
      SpawnOk(s, sizes[0], None, false, []);
      OneStarted(s, u, c, sizes[0]);
      PrepareMeans(u, rest);
      assert Prepare(s, sizes) == Prepare(u, rest);
      MoreStarted(s, u, Prepare(u, rest), c, sizes);
    }
  }

  lemma NoneStarted(s: State)
    ensures StillThere(s, s)
  {
  }

  lemma MoreStarted(s: State, u: State, t: State, c: Pid, sizes: seq<nat>)
    requires sizes != [] && StillThere(s, u) && StillThere(u, t) && |u.table| == |s.table| + 1
    requires c == Pid(|s.table|, 0) && Live(u, c) && c in u.procs && |u.procs[c].boxes| == sizes[0]
    requires |u.queue| == |s.queue| + 1 && u.queue[|s.queue|] == Resume(c, 0)
    requires forall i :: 0 <= i < |sizes| - 1 ==> Started(u, t, sizes[1..], i)
    ensures StillThere(s, t) && forall i :: 0 <= i < |sizes| ==> Started(s, t, sizes, i)
  {
    hide Live;
    forall i | 0 <= i < |sizes| ensures Started(s, t, sizes, i) {
      if i > 0 {
        assert Started(u, t, sizes[1..], i - 1);
      }
    }
  }

  lemma OneStarted(s: State, u: State, c: Pid, size: nat)
    requires Spawns(s, u, c, size, []) && Linked(s, u, {}) && s.tombstones == []
    ensures StillThere(s, u) && u.tombstones == [] && |u.table| == |s.table| + 1
    ensures c == Pid(|s.table|, 0) && Live(u, c) && c in u.procs && |u.procs[c].boxes| == size
    ensures |u.queue| == |s.queue| + 1 && u.queue[|s.queue|] == Resume(c, 0)
  {
    hide Live, Names;
    assert c in u.procs.Keys;
  }
}
