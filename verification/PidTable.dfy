/** The table of processes: an index is live or tombstoned, and no pid is used twice. */
module PidTable {
  import opened Options
  import opened Scheduler

  predicate Distinct(ps: seq<Pid>) {
    forall i, j :: 0 <= i < j < |ps| ==> ps[i] != ps[j]
  }

  /** Every index is live, or tombstoned once, with the newest pid issued for it. */
  ghost predicate Slots(table: seq<Option<Pid>>, tombs: seq<Pid>, newest: seq<nat>) {
    && |newest| == |table|
    && (forall i :: 0 <= i < |table| ==>
          if table[i].Some? then table[i].value == Pid(i, newest[i]) else Pid(i, newest[i]) in tombs)
    && (forall k :: 0 <= k < |tombs| ==>
          var t := tombs[k]; t.idx < |table| && table[t.idx].None? && t.version == newest[t.idx])
    && Distinct(tombs)
  }

  /** The pids issued are all versions of all indices, up to the newest. */
  ghost predicate Issued(newest: seq<nat>, born: set<Pid>) {
    forall p :: p in born <==> p.idx < |newest| && p.version <= newest[p.idx]
  }

  /** Every pid issued is in the table, doomed, or destroyed, and only one of these. */
  ghost predicate Fates(table: seq<Option<Pid>>, procs: set<Pid>, doomed: seq<Pid>, destroyed: seq<Pid>,
          born: set<Pid>) {
    && (forall p :: p in procs <==> InTable(table, p) || p in doomed)
    && (forall p :: p in born <==> p in procs || p in destroyed)
    && (forall p :: p in doomed ==> !InTable(table, p))
    && (forall p :: p in destroyed ==> p !in procs)
    && Distinct(doomed) && Distinct(destroyed)
  }

  ghost predicate TableOk(s: State) {
    && Slots(s.table, s.tombstones, s.past.newest)
    && Issued(s.past.newest, s.past.born.Keys)
    && Fates(s.table, s.procs.Keys, s.doomed, s.past.destroyed, s.past.born.Keys)
    && (s.running.Some? ==> s.running.value in s.procs)
  }

  lemma TableFacts(s: State)
    requires TableOk(s)
    ensures forall p :: Live(s, p) ==> p in s.procs && p in s.past.born && p !in s.doomed
    ensures forall p :: p in s.procs ==> p in s.past.born && (Live(s, p) || p in s.doomed)
    ensures s.running.Some? ==> s.running.value in s.procs
    ensures NextPid(s) !in s.past.born && NextPid(s) !in s.procs && !Live(s, NextPid(s))
    ensures |s.past.newest| == |s.table| && NextPid(s).idx <= |s.table|
    ensures s.tombstones != [] ==> NextPid(s).idx < |s.table| && s.table[NextPid(s).idx].None?
  {
  }

  /** The first of the doomed still exists. */
  lemma NotDestroyed(s: State)
    requires TableOk(s)
    ensures s.doomed != [] ==> s.doomed[0] in s.procs && s.doomed[0] !in s.past.destroyed && !Live(s, s.doomed[0])
    ensures NextPid(s) !in s.past.destroyed
  {
    TableFacts(s);
  }

  // ---------------------------------------------------------------- what changes the table

  lemma Reused(table: seq<Option<Pid>>, tombs: seq<Pid>, newest: seq<nat>, p: Pid)
    requires Slots(table, tombs, newest)
    requires tombs != [] && var t := tombs[|tombs| - 1]; p == Pid(t.idx, t.version + 1)
    ensures p.idx < |table| && Slots(table[p.idx := Some(p)], tombs[..|tombs| - 1], newest[p.idx := p.version])
  {
    var n := |tombs| - 1;
    var less := tombs[..n];
    assert tombs == less + [tombs[n]];
    assert forall q :: q in tombs ==> q in less || q == tombs[n];
  }

  lemma Extended(table: seq<Option<Pid>>, newest: seq<nat>)
    requires Slots(table, [], newest)
    ensures Slots(table + [Some(Pid(|table|, 0))], [], newest + [0])
  {
  }

  lemma Buried(table: seq<Option<Pid>>, tombs: seq<Pid>, newest: seq<nat>, q: Pid)
    requires Slots(table, tombs, newest) && InTable(table, q)
    ensures Slots(table[q.idx := None], tombs + [q], newest)
  {
    var more := tombs + [q];
    assert forall p :: p in tombs ==> p in more;
    assert more[|tombs|] == q;
  }

  lemma NewInTable(table: seq<Option<Pid>>, p: Pid)
    requires p.idx < |table| ==> table[p.idx].None?
    requires p.idx <= |table|
    ensures var after := if p.idx < |table| then table[p.idx := Some(p)] else table + [Some(p)];
      forall q :: InTable(after, q) <==> InTable(table, q) || q == p
  {
    var after := if p.idx < |table| then table[p.idx := Some(p)] else table + [Some(p)];
    forall q ensures InTable(after, q) <==> InTable(table, q) || q == p {
      if q.idx == p.idx {
        assert after[q.idx] == Some(p);
      } else if q.idx < |table| {
        assert after[q.idx] == table[q.idx];
      }
    }
  }

  lemma IssuedGrows(newest: seq<nat>, born: set<Pid>, p: Pid)
    requires Issued(newest, born)
    requires if p.idx < |newest| then p.version == newest[p.idx] + 1 else p == Pid(|newest|, 0)
    ensures Issued(if p.idx < |newest| then newest[p.idx := p.version] else newest + [0], born + {p})
  {
  }

  lemma FateOfNew(table: seq<Option<Pid>>, procs: set<Pid>, doomed: seq<Pid>, destroyed: seq<Pid>, born: set<Pid>,
          p: Pid, after: seq<Option<Pid>>)
    requires Fates(table, procs, doomed, destroyed, born) && p !in born
    requires forall q :: InTable(after, q) <==> InTable(table, q) || q == p
    ensures Fates(after, procs + {p}, doomed, destroyed, born + {p})
  {
  }

  lemma FateOfDoomed(table: seq<Option<Pid>>, procs: set<Pid>, doomed: seq<Pid>, destroyed: seq<Pid>, born: set<Pid>,
          q: Pid)
    requires Fates(table, procs, doomed, destroyed, born) && InTable(table, q)
    ensures Fates(table[q.idx := None], procs, doomed + [q], destroyed, born)
  {
    var after := table[q.idx := None];
    assert forall p :: InTable(after, p) <==> InTable(table, p) && p != q;
    assert forall p :: p in doomed + [q] <==> p in doomed || p == q;
  }

  lemma FateOfBuried(table: seq<Option<Pid>>, procs: set<Pid>, doomed: seq<Pid>, destroyed: seq<Pid>, born: set<Pid>)
    requires Fates(table, procs, doomed, destroyed, born) && doomed != []
    ensures Fates(table, procs - {doomed[0]}, doomed[1..], destroyed + [doomed[0]], born)
  {
    var p, rest := doomed[0], doomed[1..];
    assert doomed == [p] + rest;
    assert forall q :: q in doomed <==> q == p || q in rest;
    assert p !in rest;
    assert forall q :: q in destroyed + [p] <==> q in destroyed || q == p;
  }

  // ---------------------------------------------------------------- steps

  predicate Moves(m: Step) {
    m.Spawn? || m.Doom? || m.Finish? || m.Bury?
  }

  lemma SameTwice(s: State, t: State, u: State)
    requires SameProcesses(s, t) && SameProcesses(t, u)
    ensures SameProcesses(s, u)
  {
  }

  /** A step that moves nobody. */
  lemma StaysSame(s: State, m: Step)
    requires TableOk(s) && Enabled(s, m) && !Moves(m)
    ensures SameProcesses(s, Next(s, m)) && (Next(s, m).running.Some? ==> Next(s, m).running.value in s.procs)
  {
    hide TableOk, SameProcesses, AnyReady, Addressable, PutBox, BoxAt, BeginStep, WaitingFor, MayWait, Full, Live,
         AddKill, RemoveAt,
         LinkStep, SendPlainStep, PassStep, SendOnStep, TakeStep, SuspendStep, PopItem, DeliverStep, Put, PutWait, Free;
    TableFacts(s);
    match m {
      case DeliverWake =>
        SameSize(s, DeliverStep(s));
        SameTwice(s, DeliverStep(s), Next(s, m));
      case WakeItem =>
        SameSize(s, PopItem(s));
        SameTwice(s, PopItem(s), Next(s, m));
      case _ =>
    }
  }

  lemma SameSize(s: State, t: State)
    requires SameProcesses(s, t)
    ensures forall p :: p in s.procs <==> p in t.procs
  {
    assert forall p :: p in s.procs <==> p in s.procs.Keys;
    assert forall p :: p in t.procs <==> p in t.procs.Keys;
  }

  /** `t` has the new process `p` of `s`. */
  predicate Spawned(s: State, p: Pid, t: State) {
    && t.procs.Keys == s.procs.Keys + {p} && t.doomed == s.doomed && t.running == s.running
    && t.past.born.Keys == s.past.born.Keys + {p} && t.past.destroyed == s.past.destroyed
    && if s.tombstones != [] then
         && p.idx < |s.table| == |s.past.newest|
         && t.table == s.table[p.idx := Some(p)] && t.past.newest == s.past.newest[p.idx := p.version]
         && t.tombstones == s.tombstones[..|s.tombstones| - 1]
       else t.table == s.table + [Some(p)] && t.past.newest == s.past.newest + [0] && t.tombstones == []
  }

  lemma SpawnAloneChanges(s: State, slots: nat, notify: seq<Address>)
    requires |s.past.newest| == |s.table| && (s.tombstones != [] ==> NextPid(s).idx < |s.table|)
    ensures Spawned(s, NextPid(s), SpawnAlone(s, slots, notify))
  {
  }

  lemma SpawnChanges(s: State, slots: nat, parent: Option<Pid>, both: bool, notify: seq<Address>)
    requires TableOk(s) && (parent.Some? ==> parent.value in s.procs)
    ensures Spawned(s, NextPid(s), SpawnStep(s, slots, parent, both, notify))
  {
    var t := SpawnAlone(s, slots, notify);
    TableFacts(s);
    SpawnAloneChanges(s, slots, notify);
    assert forall q :: q in t.procs <==> q in t.procs.Keys;
    hide TableOk, AddKill, SpawnAlone, Live, NextPid;
  }

  lemma SpawnedIsOk(s: State, p: Pid, t: State)
    requires TableOk(s) && p == NextPid(s) && Spawned(s, p, t)
    ensures TableOk(t) && forall q :: Live(t, q) <==> Live(s, q) || q == p
  {
    TableFacts(s);
    NewInTable(s.table, p);
    if s.tombstones != [] {
      Reused(s.table, s.tombstones, s.past.newest, p);
      assert p.version == s.past.newest[p.idx] + 1;
    } else {
      Extended(s.table, s.past.newest);
    }
    hide Slots;
    IssuedGrows(s.past.newest, s.past.born.Keys, p);
    hide Issued;
    FateOfNew(s.table, s.procs.Keys, s.doomed, s.past.destroyed, s.past.born.Keys, p, t.table);
    hide Fates, InTable;
    assert t.running.Some? ==> t.running.value in t.procs.Keys;
  }

  lemma SpawnOk(s: State, slots: nat, parent: Option<Pid>, both: bool, notify: seq<Address>)
    requires TableOk(s) && (parent.Some? ==> parent.value in s.procs)
    ensures TableOk(SpawnStep(s, slots, parent, both, notify))
    ensures forall q :: Live(SpawnStep(s, slots, parent, both, notify), q) <==> Live(s, q) || q == NextPid(s)
  {
    SpawnChanges(s, slots, parent, both, notify);
    hide *;
    SpawnedIsOk(s, NextPid(s), SpawnStep(s, slots, parent, both, notify));
  }

  lemma DoomOk(s: State, q: Pid)
    requires TableOk(s)
    ensures TableOk(DoomStep(s, q))
  {
    if Live(s, q) {
      Buried(s.table, s.tombstones, s.past.newest, q);
      FateOfDoomed(s.table, s.procs.Keys, s.doomed, s.past.destroyed, s.past.born.Keys, q);
      hide Slots, Fates, Issued;
    }
  }

  /** The table is kept by every step. */
  lemma TableKept(s: State, m: Step)
    requires TableOk(s) && Enabled(s, m)
    ensures TableOk(Next(s, m))
  {
    if !Moves(m) {
      StaysSame(s, m);
      hide Slots, Fates, Issued, Next, Enabled;
    } else {
      match m
      case Spawn(slots, parent, both, notify) =>
        hide Slots, Fates, Issued, SpawnStep;
        SpawnOk(s, slots, parent, both, notify);
      case Doom(q) =>
        hide Slots, Fates, Issued, DoomStep;
        DoomOk(s, q);
      case Finish(p) =>
        hide Slots, Fates, Issued, DoomStep;
        DoomOk(s, p);
      case Bury =>
        FateOfBuried(s.table, s.procs.Keys, s.doomed, s.past.destroyed, s.past.born.Keys);
        hide Slots, Fates, Issued;
    }
  }

  lemma SameLive(s: State, t: State)
    requires SameProcesses(s, t)
    ensures forall p :: Live(t, p) == Live(s, p) && (p in t.past.born <==> p in s.past.born)
  {
  }

  lemma DoomGone(s: State, q: Pid)
    ensures var t := DoomStep(s, q);
      && t.past == s.past && (forall p :: Live(t, p) ==> Live(s, p))
      && (forall p :: Live(s, p) && !Live(t, p) ==> p.idx == q.idx) && !Live(t, q)
  {
  }

  /** What was ever spawned stays known. */
  lemma BornStays(s: State, m: Step, p: Pid)
    requires TableOk(s) && Enabled(s, m) && p in s.past.born
    ensures p in Next(s, m).past.born
  {
    if !Moves(m) {
      StaysSame(s, m);
      hide *;
      SameLive(s, Next(s, m));
    } else {
      hide TableOk, DoomStep, BuryStep, Live, Addressable;
      if m.Spawn? {
        SpawnChanges(s, m.slots, m.parent, m.both, m.notify);
        hide SpawnStep;
      } else {
        OthersKeepBorn(s, m);
      }
    }
  }

  /** Who is live still exists after a step. */
  lemma LiveRemains(s: State, m: Step, p: Pid)
    requires TableOk(s) && Enabled(s, m) && Live(s, p)
    ensures p in s.procs && p in Next(s, m).procs
  {
    TableFacts(s);
    if !Moves(m) {
      StaysSame(s, m);
      SameSize(s, Next(s, m));
    } else if m.Spawn? {
      SpawnChanges(s, m.slots, m.parent, m.both, m.notify);
      hide SpawnStep, TableOk;
      assert p in s.procs.Keys;
    } else {
      OthersKeepLive(s, m, p);
    }
  }

  lemma OthersKeepLive(s: State, m: Step, p: Pid)
    requires TableOk(s) && Live(s, p) && (m.Doom? || m.Finish? || m.Bury?)
    ensures p in Next(s, m).procs
  {
    TableFacts(s);
    hide TableOk, SameLinks, Notices, Mails, Wakes, Live;
  }

  lemma OthersKeepBorn(s: State, m: Step)
    requires m.Doom? || m.Finish? || m.Bury?
    ensures Next(s, m).past.born == s.past.born
  {
    hide SameLinks, Notices, Mails, Wakes;
  }

  /** Whatever was spawned and is no longer in the table never is in it again: a stale
      address, resume item or kill link cannot reach a later process of the same index. */
  lemma GoneForGood(s: State, m: Step, p: Pid)
    requires TableOk(s) && Enabled(s, m)
    requires p in s.past.born && !Live(s, p)
    ensures p in Next(s, m).past.born && !Live(Next(s, m), p)
  {
    TableFacts(s);
    if !Moves(m) {
      StaysSame(s, m);
      hide *;
      SameLive(s, Next(s, m));
    } else {
      match m
      case Spawn(slots, parent, both, notify) =>
        SpawnChanges(s, slots, parent, both, notify);
        SpawnOk(s, slots, parent, both, notify);
        hide TableOk, SpawnStep, Live, NextPid;
      case Doom(q) =>
        DoomGone(s, q);
        hide DoomStep, TableOk, Live;
      case Finish(q) =>
        DoomGone(s, q);
        hide DoomStep, TableOk;
      case Bury =>
        hide TableOk;
    }
  }

  /** Every index is in the table or has one tombstone, never both, with the newest pid
      issued for it; and the pid that the next spawn gets was never issued before. */
  lemma IndexOnce(s: State, i: nat)
    requires TableOk(s) && i < |s.table|
    ensures var p := Pid(i, s.past.newest[i]);
      && (Live(s, p) <==> p !in s.tombstones)
      && (s.table[i].Some? ==> s.table[i].value == p)
      && (forall j, k :: 0 <= j < |s.tombstones| && 0 <= k < |s.tombstones| ==>
            (s.tombstones[j].idx == i && s.tombstones[k].idx == i ==> j == k))
    ensures NextPid(s) !in s.past.born
  {
    TableFacts(s);
    hide Fates, Issued;
    forall j, k | 0 <= j < |s.tombstones| && 0 <= k < |s.tombstones|
      ensures s.tombstones[j].idx == i && s.tombstones[k].idx == i ==> j == k
    {
      if s.tombstones[j].idx == i && s.tombstones[k].idx == i {
        assert s.tombstones[j] == s.tombstones[k];
      }
    }
  }

  /** `findProc` compares only the version; it finds exactly the live process asked for. */
  lemma FindProcExact(s: State, p: Pid)
    requires TableOk(s)
    ensures p.idx < |s.table| && s.table[p.idx].Some? && s.table[p.idx].value.version == p.version <==> Live(s, p)
  {
  }

  // ---------------------------------------------------------------- when the loop ends

  /** The indices below `n`. */
  function Below(n: nat): (b: set<nat>)
    ensures |b| == n && forall i :: i in b <==> 0 <= i < n
  {
    if n == 0 then {} else Below(n - 1) + {n - 1}
  }

  function Indices(ps: seq<Pid>): set<nat> {
    if ps == [] then {} else Indices(ps[..|ps| - 1]) + {ps[|ps| - 1].idx}
  }

  lemma {:induction false} IndicesAre(ps: seq<Pid>)
    ensures forall i :: i in Indices(ps) <==> exists k :: 0 <= k < |ps| && ps[k].idx == i
    decreases |ps|
  {
    if ps != [] {
      var n := |ps| - 1;
      IndicesAre(ps[..n]);
      assert forall k :: 0 <= k < n ==> ps[..n][k] == ps[k];
    }
  }

  lemma {:induction false} IndicesSize(ps: seq<Pid>)
    requires forall j, k :: 0 <= j < k < |ps| ==> ps[j].idx != ps[k].idx
    ensures |Indices(ps)| == |ps|
    decreases |ps|
  {
    if ps != [] {
      var n := |ps| - 1;
      IndicesSize(ps[..n]);
      IndicesAre(ps[..n]);
      assert ps[n].idx !in Indices(ps[..n]);
    }
  }

  lemma {:induction false} SubsetSize<A>(a: set<A>, b: set<A>)
    requires a <= b
    ensures |a| <= |b| && (a != b ==> |a| < |b|)
    decreases a
  {
    if a != {} {
      var x :| x in a;
      SubsetSize(a - {x}, b - {x});
    }
  }

  lemma TombIndices(table: seq<Option<Pid>>, tombs: seq<Pid>, newest: seq<nat>)
    requires Slots(table, tombs, newest)
    ensures |Indices(tombs)| == |tombs|
    ensures forall i :: i in Indices(tombs) <==> 0 <= i < |table| && table[i].None?
  {
    IndicesAre(tombs);
    forall j, k | 0 <= j < k < |tombs| ensures tombs[j].idx != tombs[k].idx {
      assert tombs[j] != tombs[k];
    }
    IndicesSize(tombs);
    forall i | 0 <= i < |table| && table[i].None? ensures i in Indices(tombs) {
      assert Pid(i, newest[i]) in tombs;
      var k :| 0 <= k < |tombs| && tombs[k] == Pid(i, newest[i]);
      assert tombs[k].idx == i;
    }
  }

  /** As many tombstones as indices means that no index is live. */
  lemma TombsFill(table: seq<Option<Pid>>, tombs: seq<Pid>, newest: seq<nat>)
    requires Slots(table, tombs, newest)
    ensures |table| == |tombs| <==> forall i :: 0 <= i < |table| ==> table[i].None?
  {
    var some, all := Indices(tombs), Below(|table|);
    TombIndices(table, tombs, newest);
    SubsetSize(some, all);
    assert |some| == |tombs| && |all| == |table|;
    assert forall i :: i in all <==> 0 <= i < |table|;
    hide *;
    if |table| == |tombs| {
      assert some == all;
      assert forall i :: 0 <= i < |table| ==> i in all;
    } else {
      assert some != all;
      var i :| 0 <= i < |table| && i !in some;
    }
  }

  /** The test of the run loop: as many tombstones as indices means that no process is in
      the table. Once nothing awaits destruction, every process ever spawned has then been
      destroyed, exactly once. */
  lemma LoopEnds(s: State)
    requires TableOk(s)
    ensures |s.table| == |s.tombstones| <==> forall p :: !Live(s, p)
    ensures |s.table| == |s.tombstones| && s.doomed == [] ==>
      Distinct(s.past.destroyed) && forall p :: p in s.past.born <==> p in s.past.destroyed
  {
    TombsFill(s.table, s.tombstones, s.past.newest);
    forall i | 0 <= i < |s.table| && s.table[i].Some? ensures Live(s, s.table[i].value) {
    }
    hide Slots;
  }
}
