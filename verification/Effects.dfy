/** What each command of a body and each callback does, said of what can be observed:
    who exists and is linked with whom, what is sent, queued, held in mailboxes and
    received, and who waits for what. */
module Effects {
  import opened Options
  import opened Mailboxes
  import opened Scheduler
  import opened PidTable
  import opened RunLoop
  import opened Conservation

  // ---------------------------------------------------------------- links

  /** `x` takes `y` along when it dies. */
  predicate Names(s: State, x: Pid, y: Pid) {
    x in s.procs && y in s.procs[x].killOnDie
  }

  /** Exactly these pairs were linked, and else nobody who existed has changed. */
  ghost predicate Linked(s: State, u: State, pairs: set<(Pid, Pid)>) {
    && u.past.kills == s.past.kills + pairs
    && (forall x, y :: Names(u, x, y) <==> Names(s, x, y) || (x, y) in pairs)
    && forall r :: r in s.procs ==> r in u.procs && u.procs[r] == s.procs[r].(killOnDie := u.procs[r].killOnDie)
  }

  lemma AddKillLinks(s: State, p: Pid, q: Pid)
    requires p in s.procs
    ensures Linked(s, AddKill(s, p, q), {(p, q)}) && AddKill(s, p, q).procs.Keys == s.procs.Keys
  {
    hide SameProcesses;
  }

  lemma LinkedTwice(s: State, t: State, u: State, a: set<(Pid, Pid)>, b: set<(Pid, Pid)>)
    requires Linked(s, t, a) && Linked(t, u, b)
    ensures Linked(s, u, a + b)
  {
    hide Names;
  }

  /** A link makes each take the other along. */
  lemma LinkMeans(s: State, p: Pid, q: Pid)
    requires p in s.procs && q in s.procs
    ensures var u := Next(s, Link(p, q));
      && Linked(s, u, {(p, q), (q, p)}) && u.procs.Keys == s.procs.Keys
      && u == s.(procs := u.procs, past := s.past.(kills := u.past.kills))
  {
    AddKillLinks(s, p, q);
    var t := AddKill(s, p, q);
    assert q in t.procs.Keys;
    AddKillLinks(t, q, p);
    LinkedTwice(s, t, AddKill(t, q, p), {(p, q)}, {(q, p)});
    assert {(p, q)} + {(q, p)} == {(p, q), (q, p)};
    hide Linked, SameProcesses;
  }

  // ---------------------------------------------------------------- spawns

  /** `c` takes the index of the last tombstone, one version on, or else a new index. */
  predicate TakesIndex(s: State, u: State, c: Pid) {
    if s.tombstones == [] then c == Pid(|s.table|, 0) && |u.table| == |s.table| + 1 && u.tombstones == []
    else
      var n := |s.tombstones| - 1;
      && c == Pid(s.tombstones[n].idx, s.tombstones[n].version + 1)
      && |u.table| == |s.table| && u.tombstones == s.tombstones[..n]
  }

  /** `c` is new, with this many empty mailboxes, and has not started. */
  predicate Newborn(s: State, u: State, c: Pid, size: nat, notify: seq<Address>) {
    && c !in s.past.born && u.past.born.Keys == s.past.born.Keys + {c}
    && c !in s.procs && u.procs.Keys == s.procs.Keys + {c}
    && (forall r :: r in s.past.born ==> u.past.born[r] == s.past.born[r])
    && var child := u.past.born[c];
       && child == Proc(0, NotStarted, [], notify, child.boxes)
       && u.procs[c] == child.(killOnDie := u.procs[c].killOnDie)
       && |child.boxes| == size && forall i :: 0 <= i < size ==> child.boxes[i] == EMPTY_BOX
  }

  /** A process is spawned: it is in the table, its first resume is queued, and nothing else
      has changed but the links. */
  ghost predicate Spawns(s: State, u: State, c: Pid, size: nat, notify: seq<Address>) {
    && TakesIndex(s, u, c) && Newborn(s, u, c, size, notify)
    && (forall r :: Live(u, r) <==> Live(s, r) || r == c)
    && u == s.(table := u.table, tombstones := u.tombstones, procs := u.procs, queue := s.queue + [Resume(c, 0)],
               past := s.past.(born := u.past.born, newest := u.past.newest, kills := u.past.kills))
  }

  lemma SpawnAloneMeans(s: State, size: nat, notify: seq<Address>)
    requires TableOk(s)
    ensures Spawns(s, SpawnAlone(s, size, notify), NextPid(s), size, notify)
    ensures Linked(s, SpawnAlone(s, size, notify), {})
  {
    hide TableOk, Live, SameLinks, Spawned, NextPid, TakesIndex, Newborn, SpawnAlone, Linked;
    TableFacts(s);
    SpawnAloneChanges(s, size, notify);
    SpawnedIsOk(s, NextPid(s), SpawnAlone(s, size, notify));
    SpawnIndex(s, size, notify);
    SpawnNewborn(s, size, notify);
    SpawnFrame(s, size, notify);
  }

  lemma SpawnIndex(s: State, size: nat, notify: seq<Address>)
    requires |s.past.newest| == |s.table| && (s.tombstones != [] ==> NextPid(s).idx < |s.table|)
    ensures TakesIndex(s, SpawnAlone(s, size, notify), NextPid(s))
  {
    hide SameLinks;
  }

  lemma SpawnNewborn(s: State, size: nat, notify: seq<Address>)
    requires NextPid(s) !in s.past.born && NextPid(s) !in s.procs
    ensures Newborn(s, SpawnAlone(s, size, notify), NextPid(s), size, notify)
    ensures Linked(s, SpawnAlone(s, size, notify), {})
  {
    hide SameLinks, NextPid;
    var c, u := NextPid(s), SpawnAlone(s, size, notify);
    assert u.procs.Keys == s.procs.Keys + {c} && u.past.born.Keys == s.past.born.Keys + {c};
    assert u.procs[c].killOnDie == [] && u.past.kills == s.past.kills + {};
  }

  lemma SpawnFrame(s: State, size: nat, notify: seq<Address>)
    ensures var c, u := NextPid(s), SpawnAlone(s, size, notify);
      u == s.(table := u.table, tombstones := u.tombstones, procs := u.procs, queue := s.queue + [Resume(c, 0)],
              past := s.past.(born := u.past.born, newest := u.past.newest, kills := u.past.kills))
  {
    hide SameLinks, NextPid;
  }

  /** Whom a spawn links. */
  function Pairs(parent: Option<Pid>, both: bool, c: Pid): set<(Pid, Pid)> {
    if parent.None? then {} else if both then {(parent.value, c), (c, parent.value)} else {(parent.value, c)}
  }

  /** Links leave all else of a spawn as it was. */
  lemma SpawnsStill(s: State, t: State, u: State, c: Pid, size: nat, notify: seq<Address>, pairs: set<(Pid, Pid)>)
    requires Spawns(s, t, c, size, notify) && Linked(t, u, pairs) && u.procs.Keys == t.procs.Keys
    requires u == t.(procs := u.procs, past := t.past.(kills := u.past.kills))
    ensures Spawns(s, u, c, size, notify)
  {
    hide Names, TakesIndex, Live;
    IndexOnly(s, t, u, c);
    assert c in t.procs.Keys;
  }

  lemma IndexOnly(s: State, t: State, u: State, c: Pid)
    requires u.table == t.table && u.tombstones == t.tombstones
    ensures TakesIndex(s, u, c) == TakesIndex(s, t, c)
    ensures forall r :: Live(u, r) == Live(t, r)
  {
  }

  /** A spawn makes one new process, and links it with its parent as asked. */
  lemma SpawnMeans(s: State, size: nat, parent: Option<Pid>, both: bool, notify: seq<Address>) returns (c: Pid)
    requires TableOk(s) && (parent.Some? ==> parent.value in s.procs)
    ensures var u := Next(s, Spawn(size, parent, both, notify));
      Spawns(s, u, c, size, notify) && Linked(s, u, Pairs(parent, both, c))
  {
    var t := SpawnAlone(s, size, notify);
    c := NextPid(s);
    hide TableOk, SpawnAlone, NextPid, AddKill, Linked, Live;
    SpawnAloneMeans(s, size, notify);
    assert c in t.procs.Keys && (parent.Some? ==> parent.value in t.procs.Keys);
    hide Spawns;
    if parent.Some? {
      var q := parent.value;
      if both {
        var v := AddKill(t, c, q);
        AddKillLinks(t, c, q);
        SpawnsStill(s, t, v, c, size, notify, {(c, q)});
        assert q in v.procs.Keys;
        AddKillLinks(v, q, c);
        SpawnsStill(s, v, AddKill(v, q, c), c, size, notify, {(q, c)});
        LinkedTwice(s, t, v, {}, {(c, q)});
        LinkedTwice(s, v, AddKill(v, q, c), {} + {(c, q)}, {(q, c)});
        assert {} + {(c, q)} + {(q, c)} == Pairs(parent, both, c);
      } else {
        AddKillLinks(t, q, c);
        SpawnsStill(s, t, AddKill(t, q, c), c, size, notify, {(q, c)});
        LinkedTwice(s, t, AddKill(t, q, c), {}, {(q, c)});
        assert {} + {(q, c)} == Pairs(parent, both, c);
      }
    }
  }

  // ---------------------------------------------------------------- receives

  function First<A>(xs: seq<A>, n: nat): seq<A> {
    if n <= |xs| then xs[..n] else xs
  }

  function After<A>(xs: seq<A>, n: nat): seq<A> {
    if n <= |xs| then xs[n..] else []
  }

  /** How many messages a receive on these slots takes from `a`, if it has them. */
  function Asked(p: Pid, slots: seq<nat>, a: Address): nat {
    if a.pid == p then multiset(slots)[a.slot] else 0
  }

  /** The oldest message of each slot that has one, in the order of the slots. */
  function Oldest(s: State, p: Pid, slots: seq<nat>): seq<Letter> {
    if slots == [] then []
    else
      var a := Address(p, slots[0]);
      (if BoxAt(s, a).contents == [] then [] else [Letter(a, BoxAt(s, a).contents[0])]) + Oldest(s, p, slots[1..])
  }

  predicate DistinctSlots(slots: seq<nat>) {
    forall i, j :: 0 <= i < j < |slots| ==> slots[i] != slots[j]
  }

  /** A message has been taken from each of the slots that had one, and from no other
      mailbox. If no slot is named twice, they were received in the order of the slots. */
  ghost predicate Taken(s: State, u: State, p: Pid, slots: seq<nat>) {
    && (forall a: Address :: BoxAt(u, a).contents == After(BoxAt(s, a).contents, Asked(p, slots, a)))
    && (forall a: Address ::
          To(u.past.received, a) == To(s.past.received, a) + First(BoxAt(s, a).contents, Asked(p, slots, a)))
    && (DistinctSlots(slots) ==> u.past.received == s.past.received + Oldest(s, p, slots))
    && TakenFrom(s, u, p)
  }

  /** Nothing has changed but the mailboxes of `p`, what was received, and what is posted. */
  ghost predicate TakenFrom(s: State, u: State, p: Pid) {
    && u == s.(procs := u.procs, posted := u.posted, past := s.past.(received := u.past.received))
    && u.procs.Keys == s.procs.Keys && s.posted <= u.posted
    && forall r :: r in s.procs ==>
         u.procs[r] == s.procs[r].(boxes := if r == p then u.procs[r].boxes else s.procs[r].boxes)
  }

  lemma ToOne(ls: seq<Letter>, l: Letter, a: Address)
    ensures To(ls + [l], a) == To(ls, a) + if l.to == a then [l.m] else []
  {
    assert (ls + [l])[..|ls|] == ls;
  }

  /** One message has been taken from one slot, if it has any. */
  ghost predicate OneTaken(s: State, u: State, a: Address) {
    && (forall b: Address ::
          BoxAt(u, b).contents == if b == a then After(BoxAt(s, b).contents, 1) else BoxAt(s, b).contents)
    && u.past.received ==
         s.past.received + if BoxAt(s, a).contents == [] then [] else [Letter(a, BoxAt(s, a).contents[0])]
  }

  lemma TakeStepMeans(s: State, p: Pid, slot: nat)
    requires p in s.procs
    ensures TakenFrom(s, TakeStep(s, p, slot), p) && OneTaken(s, TakeStep(s, p, slot), Address(p, slot))
  {
    var a := Address(p, slot);
    hide SameLinks, SameProcesses;
    if BoxAt(s, a).contents != [] {
      PutContents(s, a, Pop(BoxAt(s, a)).box);
    } else {
      assert s.past.received + [] == s.past.received;
    }
  }

  lemma AskedMore(p: Pid, slots: seq<nat>, a: Address)
    requires slots != []
    ensures Asked(p, slots, a) == Asked(p, slots[1..], a) + if a == Address(p, slots[0]) then 1 else 0
  {
    assert slots == [slots[0]] + slots[1..];
  }

  lemma AfterMore<A>(xs: seq<A>, n: nat, k: nat)
    ensures After(After(xs, k), n) == After(xs, n + k)
    ensures First(xs, k) + First(After(xs, k), n) == First(xs, n + k)
  {
  }

  lemma {:induction false} OldestSame(s: State, u: State, p: Pid, slots: seq<nat>)
    requires forall x :: x in slots ==> BoxAt(u, Address(p, x)).contents == BoxAt(s, Address(p, x)).contents
    ensures Oldest(u, p, slots) == Oldest(s, p, slots)
    decreases |slots|
  {
    if slots != [] {
      OldestSame(s, u, p, slots[1..]);
    }
  }

  /** What a receive takes. */
  lemma {:induction false} TakeAllMeans(s: State, p: Pid, slots: seq<nat>)
    requires p in s.procs
    ensures Taken(s, TakeAll(s, p, slots), p, slots)
    decreases |slots|
  {
    if slots == [] {
      assert s.past.received + [] == s.past.received;
      assert forall a: Address :: First(BoxAt(s, a).contents, 0) == [];
      assert forall a: Address :: After(BoxAt(s, a).contents, 0) == BoxAt(s, a).contents;
    } else {
      var u, rest := TakeStep(s, p, slots[0]), slots[1..];
      var a := Address(p, slots[0]);
      TakeStepMeans(s, p, slots[0]);
      assert p in u.procs;
      TakeAllMeans(u, p, rest);
      hide TakeStep, BoxAt, OneTaken;
      TakenMore(s, u, TakeAll(u, p, rest), p, slots);
    }
  }

  lemma TakenMore(s: State, u: State, v: State, p: Pid, slots: seq<nat>)
    requires slots != [] && Taken(u, v, p, slots[1..]) && TakenFrom(s, u, p)
    requires OneTaken(s, u, Address(p, slots[0]))
    ensures Taken(s, v, p, slots)
  {
    hide TakenFrom, BoxAt, To, Asked, After, First, Oldest, DistinctSlots, OneTaken;
    TakenFromTwice(s, u, v, p);
    forall b: Address
      ensures BoxAt(v, b).contents == After(BoxAt(s, b).contents, Asked(p, slots, b))
      ensures To(v.past.received, b) == To(s.past.received, b) + First(BoxAt(s, b).contents, Asked(p, slots, b))
    {
      TakenAt(s, u, v, p, slots, b);
    }
    TakenInOrder(s, u, v, p, slots);
  }

  lemma TakenFromTwice(s: State, u: State, v: State, p: Pid)
    requires TakenFrom(s, u, p) && TakenFrom(u, v, p)
    ensures TakenFrom(s, v, p)
  {
  }

  lemma OneTakenAt(s: State, u: State, a: Address, b: Address)
    requires OneTaken(s, u, a)
    ensures var c, k := BoxAt(s, b).contents, if b == a then 1 else 0;
      BoxAt(u, b).contents == After(c, k) && To(u.past.received, b) == To(s.past.received, b) + First(c, k)
  {
    if BoxAt(s, a).contents != [] {
      ToOne(s.past.received, Letter(a, BoxAt(s, a).contents[0]), b);
    } else {
      assert s.past.received + [] == s.past.received;
    }
    hide To, BoxAt;
  }

  lemma TakenAt(s: State, u: State, v: State, p: Pid, slots: seq<nat>, b: Address)
    requires slots != [] && OneTaken(s, u, Address(p, slots[0]))
    requires BoxAt(v, b).contents == After(BoxAt(u, b).contents, Asked(p, slots[1..], b))
    requires To(v.past.received, b) ==
      To(u.past.received, b) + First(BoxAt(u, b).contents, Asked(p, slots[1..], b))
    ensures BoxAt(v, b).contents == After(BoxAt(s, b).contents, Asked(p, slots, b))
    ensures To(v.past.received, b) == To(s.past.received, b) + First(BoxAt(s, b).contents, Asked(p, slots, b))
  {
    hide BoxAt, Asked, To, After, First, OneTaken;
    var a := Address(p, slots[0]);
    AskedMore(p, slots, b);
    OneTakenAt(s, u, a, b);
    AfterMore(BoxAt(s, b).contents, Asked(p, slots[1..], b), if b == a then 1 else 0);
  }

  lemma DistinctRest(slots: seq<nat>)
    requires slots != [] && DistinctSlots(slots)
    ensures DistinctSlots(slots[1..]) && slots[0] !in slots[1..]
  {
    var rest := slots[1..];
    assert forall i :: 0 <= i < |rest| ==> rest[i] == slots[i + 1];
  }

  lemma OneOldest(s: State, u: State, p: Pid, slots: seq<nat>) returns (one: seq<Letter>)
    requires slots != [] && OneTaken(s, u, Address(p, slots[0])) && slots[0] !in slots[1..]
    ensures Oldest(s, p, slots) == one + Oldest(s, p, slots[1..]) && u.past.received == s.past.received + one
    ensures forall x :: x in slots[1..] ==> BoxAt(u, Address(p, x)).contents == BoxAt(s, Address(p, x)).contents
  {
    var a := Address(p, slots[0]);
    one := if BoxAt(s, a).contents == [] then [] else [Letter(a, BoxAt(s, a).contents[0])];
    hide BoxAt, After;
  }

  lemma TakenInOrder(s: State, u: State, v: State, p: Pid, slots: seq<nat>)
    requires slots != [] && OneTaken(s, u, Address(p, slots[0]))
    requires DistinctSlots(slots[1..]) ==> v.past.received == u.past.received + Oldest(u, p, slots[1..])
    ensures DistinctSlots(slots) ==> v.past.received == s.past.received + Oldest(s, p, slots)
  {
    hide BoxAt, DistinctSlots, OneTaken, Oldest;
    if DistinctSlots(slots) {
      var rest := slots[1..];
      DistinctRest(slots);
      ghost var one := OneOldest(s, u, p, slots);
      OldestSame(s, u, p, rest);
      assert s.past.received + one + Oldest(s, p, rest) == s.past.received + (one + Oldest(s, p, rest));
    }
  }
}
