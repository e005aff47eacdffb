/** Kill links: who dies with whom, and what the draining of the doomed removes. */
module Links {
  import opened Options
  import opened Scheduler
  import opened PidTable
  import opened RunLoop

  /** While the second of a pair is in the table, the first exists and will take it along. */
  ghost predicate LinksOk(s: State) {
    forall x, y :: (x, y) in s.past.kills ==>
      y in s.past.born && (Live(s, y) ==> x in s.procs && y in s.procs[x].killOnDie)
  }

  /** Whoever lives in `t` and was born in `s` lived in `s`, and nobody disappeared whose
      victims live. */
  lemma LinksStay(s: State, t: State)
    requires LinksOk(s) && SameLinks(s, t)
    requires forall p :: p in s.past.born ==> p in t.past.born && (Live(t, p) ==> Live(s, p))
    requires forall p :: p in s.procs && p !in t.procs ==> forall c :: c in s.procs[p].killOnDie ==> !Live(t, c)
    ensures LinksOk(t)
  {
  }

  lemma AddKillOk(s: State, p: Pid, q: Pid)
    requires LinksOk(s) && p in s.procs && q in s.past.born
    ensures LinksOk(AddKill(s, p, q))
  {
    var t := AddKill(s, p, q);
    assert forall x :: x in s.procs <==> x in t.procs;
    assert forall x, c :: x in s.procs && c in s.procs[x].killOnDie ==> c in t.procs[x].killOnDie;
    assert t.procs[p].killOnDie[|s.procs[p].killOnDie|] == q;
  }

  lemma SpawnAloneLinks(s: State, slots: nat, notify: seq<Address>)
    requires LinksOk(s) && TableOk(s)
    ensures LinksOk(SpawnAlone(s, slots, notify))
  {
    var p, t := NextPid(s), SpawnAlone(s, slots, notify);
    TableFacts(s);
    SpawnAloneChanges(s, slots, notify);
    SpawnedIsOk(s, p, t);
    hide SpawnAlone, TableOk, Live, NextPid, LinksOk, SameLinks;
    assert forall q :: q in t.past.born <==> q in t.past.born.Keys;
    LinksStay(s, t);
  }

  lemma SpawnLinks(s: State, slots: nat, parent: Option<Pid>, both: bool, notify: seq<Address>)
    requires LinksOk(s) && TableOk(s) && (parent.Some? ==> parent.value in s.procs)
    ensures LinksOk(SpawnStep(s, slots, parent, both, notify))
  {
    hide TableOk, LinksOk, SpawnAlone, AddKill, NextPid, Live, SameLinks;
    var p, t := NextPid(s), SpawnAlone(s, slots, notify);
    TableFacts(s);
    SpawnAloneLinks(s, slots, notify);
    SpawnAloneChanges(s, slots, notify);
    assert forall q :: q in t.procs <==> q in t.procs.Keys;
    assert forall q :: q in t.past.born <==> q in t.past.born.Keys;
    if parent.Some? {
      var r := parent.value;
      if both {
        AddKillOk(t, p, r);
        AddKillOk(AddKill(t, p, r), r, p);
      } else {
        AddKillOk(t, r, p);
      }
    }
  }

  lemma LinkLinks(s: State, p: Pid, q: Pid)
    requires LinksOk(s) && TableOk(s) && p in s.procs && q in s.procs
    ensures LinksOk(LinkStep(s, p, q))
  {
    hide TableOk, LinksOk, AddKill;
    TableFacts(s);
    AddKillOk(s, p, q);
    AddKillOk(AddKill(s, p, q), q, p);
  }

  lemma DoomLinks(s: State, q: Pid)
    requires LinksOk(s)
    ensures LinksOk(DoomStep(s, q)) && LinksOk(FinishStep(s, q))
  {
    DoomGone(s, q);
    hide LinksOk, DoomStep, SameLinks;
    LinksStay(s, DoomStep(s, q));
    LinksStay(s, FinishStep(s, q));
  }

  lemma BuryLinks(s: State)
    requires LinksOk(s) && Enabled(s, Bury)
    ensures LinksOk(BuryStep(s))
  {
    hide LinksOk, SameLinks;
    LinksStay(s, BuryStep(s));
  }

  /** The links are kept by every step. */
  lemma LinksKept(s: State, m: Step)
    requires LinksOk(s) && TableOk(s) && Enabled(s, m)
    ensures LinksOk(Next(s, m))
  {
    hide LinksOk, TableOk, SpawnStep, LinkStep, DoomStep, FinishStep, BuryStep;
    match m
    case Spawn(slots, parent, both, notify) => SpawnLinks(s, slots, parent, both, notify);
    case Link(p, q) =>
      TableFacts(s);
      LinkLinks(s, p, q);
    case Doom(q) => DoomLinks(s, q);
    case Finish(q) => DoomLinks(s, q);
    case Bury => BuryLinks(s);
    case _ =>
      StaysSame(s, m);
      OthersKeepLinks(s, m);
      hide *;
      SameLive(s, Next(s, m));
      SameSize(s, Next(s, m));
      LinksStay(s, Next(s, m));
  }

  lemma OthersKeepLinks(s: State, m: Step)
    requires TableOk(s) && Enabled(s, m) && !Moves(m) && !m.Link?
    ensures SameLinks(s, Next(s, m))
  {
    hide TableOk, SameProcesses, SameLinks, AnyReady, Addressable, PutBox, BoxAt, BeginStep, WaitingFor, MayWait,
         Full, Live, AddKill, RemoveAt,
         LinkStep, SendPlainStep, PassStep, SendOnStep, TakeStep, SuspendStep, PopItem, DeliverStep, Put, PutWait, Free;
    TableFacts(s);
    match m {
      case DeliverWake =>
        SameSize(s, DeliverStep(s));
        LinksTwice(s, DeliverStep(s), Next(s, m));
      case WakeItem =>
        SameSize(s, PopItem(s));
        LinksTwice(s, PopItem(s), Next(s, m));
      case _ =>
    }
  }

  lemma LinksTwice(s: State, t: State, u: State)
    requires SameLinks(s, t) && SameLinks(t, u) && t.procs.Keys == s.procs.Keys
    ensures SameLinks(s, u)
  {
    assert forall p :: p in s.procs <==> p in s.procs.Keys;
    assert forall p :: p in t.procs <==> p in t.procs.Keys;
  }

  /** Wherever nothing awaits destruction, as at the top of the run loop, whoever should
      have died with another has: linked processes are both in the table or both gone. */
  lemma LinkedTogether(s: State, x: Pid, y: Pid)
    requires LinksOk(s) && TableOk(s) && s.doomed == [] && (x, y) in s.past.kills
    ensures Live(s, y) ==> Live(s, x)
    ensures (y, x) in s.past.kills ==> Live(s, x) == Live(s, y)
  {
    TableFacts(s);
  }

  // ---------------------------------------------------------------- reachability

  /** `p` is `n` kill links away from one of `doomed`, all of them to live processes. */
  ghost predicate Within(doomed: set<Pid>, live: set<Pid>, kills: map<Pid, seq<Pid>>, p: Pid, n: nat)
    decreases n
  {
    if n == 0 then p in doomed
    else p in live && exists x :: x in kills && p in kills[x] && Within(doomed, live, kills, x, n - 1)
  }

  ghost predicate ReachedFrom(doomed: set<Pid>, live: set<Pid>, kills: map<Pid, seq<Pid>>, p: Pid) {
    exists n :: Within(doomed, live, kills, p, n)
  }

  /** The victims of `f` join the doomed in its place. */
  ghost predicate Replaces(doomed: set<Pid>, live: set<Pid>, kills: map<Pid, seq<Pid>>, f: Pid,
                     doomed': set<Pid>, live': set<Pid>, kills': map<Pid, seq<Pid>>) {
    && f in doomed && f in kills && f !in live
    && (forall p :: p in doomed' <==> p != f && (p in doomed || (p in live && p in kills[f])))
    && (forall p :: p in live' <==> p in live && p !in kills[f])
    && kills' == kills - {f}
  }

  lemma {:induction false} ReachedBefore(doomed: set<Pid>, live: set<Pid>, kills: map<Pid, seq<Pid>>, f: Pid,
                                         doomed': set<Pid>, live': set<Pid>, kills': map<Pid, seq<Pid>>, p: Pid, n: nat)
    requires Replaces(doomed, live, kills, f, doomed', live', kills')
    requires Within(doomed', live', kills', p, n)
    ensures ReachedFrom(doomed, live, kills, p)
    decreases n
  {
    if n == 0 {
      assert Within(doomed, live, kills, f, 0);
      assert Within(doomed, live, kills, p, if p in doomed then 0 else 1);
    } else {
      var x :| x in kills' && p in kills'[x] && Within(doomed', live', kills', x, n - 1);
      ReachedBefore(doomed, live, kills, f, doomed', live', kills', x, n - 1);
      var k: nat :| Within(doomed, live, kills, x, k);
      assert Within(doomed, live, kills, p, k + 1);
    }
  }

  lemma {:induction false} ReachedAfter(doomed: set<Pid>, live: set<Pid>, kills: map<Pid, seq<Pid>>, f: Pid,
                                        doomed': set<Pid>, live': set<Pid>, kills': map<Pid, seq<Pid>>, p: Pid, n: nat)
    requires Replaces(doomed, live, kills, f, doomed', live', kills')
    requires Within(doomed, live, kills, p, n) && p != f
    ensures ReachedFrom(doomed', live', kills', p)
    decreases n
  {
    if p in doomed' {
      assert Within(doomed', live', kills', p, 0);
    } else {
      var x :| x in kills && p in kills[x] && Within(doomed, live, kills, x, n - 1);
      assert x != f && x in kills' && kills'[x] == kills[x] && p in live';
      ReachedAfter(doomed, live, kills, f, doomed', live', kills', x, n - 1);
      var k: nat :| Within(doomed', live', kills', x, k);
      assert Within(doomed', live', kills', p, k + 1);
    }
  }

  /** Processing one doomed process leaves the same processes to be reached. */
  lemma ReachedSame(doomed: set<Pid>, live: set<Pid>, kills: map<Pid, seq<Pid>>, f: Pid,
                    doomed': set<Pid>, live': set<Pid>, kills': map<Pid, seq<Pid>>)
    requires Replaces(doomed, live, kills, f, doomed', live', kills')
    ensures forall p :: ReachedFrom(doomed, live, kills, p) <==> p == f || ReachedFrom(doomed', live', kills', p)
  {
    assert Within(doomed, live, kills, f, 0);
    forall p ensures ReachedFrom(doomed, live, kills, p) <==> p == f || ReachedFrom(doomed', live', kills', p) {
      if n: nat :| Within(doomed', live', kills', p, n) {
        ReachedBefore(doomed, live, kills, f, doomed', live', kills', p, n);
      }
      if p != f {
        if n: nat :| Within(doomed, live, kills, p, n) {
          ReachedAfter(doomed, live, kills, f, doomed', live', kills', p, n);
        }
      }
    }
  }

  lemma NobodyReached(live: set<Pid>, kills: map<Pid, seq<Pid>>, p: Pid, n: nat)
    ensures !Within({}, live, kills, p, n)
    decreases n
  {
    if n > 0 {
      forall x | x in kills ensures !Within({}, live, kills, x, n - 1) {
        NobodyReached(live, kills, x, n - 1);
      }
    }
  }

  // ---------------------------------------------------------------- draining

  function DoomedSet(s: State): set<Pid> {
    set p | p in s.doomed
  }

  function LiveSet(s: State): set<Pid> {
    set p | p in s.procs && Live(s, p)
  }

  function KillMap(s: State): map<Pid, seq<Pid>> {
    map p | p in s.procs :: s.procs[p].killOnDie
  }

  /** Kill links lead from a doomed process to `p` through live ones. */
  ghost predicate Reached(s: State, p: Pid) {
    ReachedFrom(DoomedSet(s), LiveSet(s), KillMap(s), p)
  }

  lemma {:induction false} DoomAllFacts(s: State, qs: seq<Pid>)
    requires TableOk(s)
    ensures var t := DoomAll(s, qs);
      && TableOk(t) && t == s.(table := t.table, doomed := t.doomed, tombstones := t.tombstones)
      && (forall p :: Live(t, p) <==> Live(s, p) && p !in qs)
      && (forall p :: p in t.doomed <==> p in s.doomed || (Live(s, p) && p in qs))
      && s.doomed <= t.doomed
    decreases |qs|
  {
    if qs != [] {
      var q, u := qs[0], DoomStep(s, qs[0]);
      DoomOk(s, q);
      DoomChanges(s, q);
      assert forall p :: p in qs <==> p == q || p in qs[1..];
      DoomAllFacts(u, qs[1..]);
      assert DoomAll(s, qs) == DoomAll(u, qs[1..]);
      hide *;
    }
  }

  lemma DoomChanges(s: State, q: Pid)
    requires TableOk(s)
    ensures var t := DoomStep(s, q);
      && t == s.(table := t.table, doomed := t.doomed, tombstones := t.tombstones) && s.doomed <= t.doomed
      && (forall p :: Live(t, p) <==> Live(s, p) && p != q)
      && (forall p :: p in t.doomed <==> p in s.doomed || (Live(s, p) && p == q))
  {
    hide SameLinks;
  }

  lemma FrontOnce(s: State)
    requires TableOk(s) && s.doomed != []
    ensures forall p :: p in s.doomed[1..] <==> p in s.doomed && p != s.doomed[0]
  {
    assert s.doomed == [s.doomed[0]] + s.doomed[1..];
  }

  lemma BuryFacts(s: State)
    requires TableOk(s) && s.running.None? && MayBury(s)
    ensures var f, t := s.doomed[0], BuryStep(s);
      && TableOk(t) && t.running == s.running
      && t.procs == s.procs - {f} && t.doomed == s.doomed[1..] && t.past.destroyed == s.past.destroyed + [f]
      && forall p :: Live(t, p) == Live(s, p)
  {
    hide TableOk, Notices, Mails, Wakes, SameLinks;
    TableKept(s, Bury);
  }

  /** Once those that `f` takes along are doomed, it can be buried. */
  lemma DestroySteps(s: State)
    requires TableOk(s) && s.running.None? && s.doomed != []
    ensures var u := DoomAll(s, At(s, s.doomed[0]).killOnDie);
      TableOk(u) && u.running.None? && MayBury(u) && Destroy(s) == BuryStep(u)
  {
    var ks := At(s, s.doomed[0]).killOnDie;
    var u := DoomAll(s, ks);
    DoomAllFacts(s, ks);
    assert u.doomed[0] == s.doomed[0] && At(u, u.doomed[0]).killOnDie == ks;
    hide TableOk, DoomAll, BuryStep, Live;
  }

  /** What one destroy changes. */
  lemma DestroyFacts(s: State)
    requires TableOk(s) && s.running.None? && s.doomed != []
    ensures var f, t := s.doomed[0], Destroy(s);
      && TableOk(t) && t.running.None? && t.procs == s.procs - {f}
      && (forall p :: Live(t, p) <==> Live(s, p) && p !in At(s, f).killOnDie)
      && (forall p :: p in t.doomed <==> p != f && (p in s.doomed || (Live(s, p) && p in At(s, f).killOnDie)))
      && t.past.destroyed == s.past.destroyed + [f]
  {
    var ks := At(s, s.doomed[0]).killOnDie;
    DoomAllFacts(s, ks);
    DestroySteps(s);
    hide TableOk, DoomAll, BuryStep, Live, Enabled, Destroy;
    BuryFacts(DoomAll(s, ks));
    FrontOnce(DoomAll(s, ks));
  }

  lemma SetsAre(s: State)
    requires TableOk(s)
    ensures forall p :: (p in LiveSet(s) <==> Live(s, p)) && (p in DoomedSet(s) <==> p in s.doomed)
    ensures forall p :: p in KillMap(s) <==> p in s.procs
    ensures forall p :: p in s.procs ==> KillMap(s)[p] == At(s, p).killOnDie
    ensures forall p :: p in s.doomed ==> p in s.procs && !Live(s, p)
  {
    TableFacts(s);
  }

  lemma KillMapWithout(s: State, t: State, f: Pid)
    requires t.procs == s.procs - {f}
    ensures KillMap(t) == KillMap(s) - {f}
  {
  }

  lemma DestroyReplaces(s: State)
    requires TableOk(s) && s.running.None? && s.doomed != []
    ensures var t := Destroy(s);
      Replaces(DoomedSet(s), LiveSet(s), KillMap(s), s.doomed[0], DoomedSet(t), LiveSet(t), KillMap(t))
  {
    hide TableOk, Destroy, Live, DoomedSet, LiveSet, KillMap, At;
    var f, t := s.doomed[0], Destroy(s);
    DestroyFacts(s);
    SetsAre(s);
    SetsAre(t);
    KillMapWithout(s, t, f);
    assert f in s.doomed;
  }

  /** Draining removes exactly the live processes that kill links reach from the doomed
      ones, and destroys exactly those and the doomed ones. */
  lemma {:induction false} DrainExact(s: State)
    requires TableOk(s) && s.running.None?
    ensures var t := Drain(s);
      && TableOk(t) && t.doomed == [] && t.running.None?
      && (forall p :: Live(t, p) <==> Live(s, p) && !Reached(s, p))
      && (forall p :: p in t.past.destroyed <==> p in s.past.destroyed || Reached(s, p))
    decreases Pending(s)
  {
    if s.doomed == [] {
      assert DoomedSet(s) == {};
      forall p, n: nat ensures !Within({}, LiveSet(s), KillMap(s), p, n) {
        NobodyReached(LiveSet(s), KillMap(s), p, n);
      }
    } else {
      var f, t := s.doomed[0], Destroy(s);
      DestroyPending(s);
      DestroyFacts(s);
      DrainExact(t);
      assert Drain(s) == Drain(t);
      DestroyReplaces(s);
      ReachedSame(DoomedSet(s), LiveSet(s), KillMap(s), f, DoomedSet(t), LiveSet(t), KillMap(t));
      assert forall p :: Reached(s, p) <==> p == f || Reached(t, p);
      DoomedAreReached(t);
      hide *;
      assert forall p :: p in t.past.destroyed <==> p in s.past.destroyed || p == f;
    }
  }

  lemma DoomedAreReached(s: State)
    ensures forall p :: p in s.doomed ==> Reached(s, p)
  {
    forall p | p in s.doomed ensures Reached(s, p) {
      assert Within(DoomedSet(s), LiveSet(s), KillMap(s), p, 0);
    }
  }
}
