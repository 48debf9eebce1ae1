/** What the operations on the HNode hash come to: what a turn of a lookup does in every case, how
  * a lookup ends, and what the end of an attach and of a vnode's life leave behind.
  */
module HashLookup {
  import opened Lists
  import opened HashMemory
  import opened HashProtocol
  import opened HashInvariant
  import opened HashTheorems

  // ---- One turn ---------------------------------------------------------------------------

  /** n is the HNode of key that a lookup finds. */
  predicate IsNodeOf(h: Hash, n: Nid, key: Key) { HasTable(h) && Linked(h, n) && h.nodes[n].key == key }

  ghost predicate Missing(h: Hash, key: Key) { forall n :: !IsNodeOf(h, n, key) }

  lemma TurnFinds(h: Hash, n: Nid, key: Key)
    requires TableOk(h) && UniqueOk(h) && IsNodeOf(h, n, key)
    ensures Find(Chain(h, key), h.nodes, key) == Some(n)
  {
    FindsFirst(Chain(h, key), h.nodes, key);
    var m := Find(Chain(h, key), h.nodes, key).value;
    assert Apart(h, m, n);
  }

  lemma TurnMisses(h: Hash, key: Key)
    requires TableOk(h) && Missing(h, key)
    ensures Find(Chain(h, key), h.nodes, key) == None
  {
    FindsFirst(Chain(h, key), h.nodes, key);
    assert forall n :: n in Chain(h, key) && n in h.nodes && h.nodes[n].key == key ==> IsNodeOf(h, n, key);
  }

  /** Of the whole hash only the record of HNode n has changed, to x. */
  predicate OnlyRecord(h: Hash, h': Hash, n: Nid, x: HNode) {
    h'.table == h.table && h'.nodes == h.nodes[n := x] && h'.nodeCount == h.nodeCount && h'.next == h.next
  }

  /** The turn of a lookup whose HNode is in the table. An outstanding attach is waited for, with the
    * wish to be woken recorded. A fork index beyond the array asks for a buffer, and with one the
    * array grows by empty slots until the index is its last. An empty slot gives the attach token.
    * A vnode in the slot is the candidate, and nothing changes.
    */
  lemma TurnExactly(h: Hash, key: Key, fork: nat, haveNode: bool, haveBuffer: bool, n: Nid)
    requires TableOk(h) && UniqueOk(h) && IsNodeOf(h, n, key)
    ensures var (h', o) := Turn(h, key, fork, haveNode, haveBuffer);
      var x := h.nodes[n];
      if x.attaching then
        o == MustWait(n) && OnlyRecord(h, h', n, HNode(key, true, true, x.slots, x.count))
      else if fork >= |x.slots| && !haveBuffer then
        o == NeedBuffer && h' == h
      else if fork >= |x.slots| then
        && o == Grown && n in h'.nodes && |h'.nodes[n].slots| == fork + 1
        && OnlyRecord(h, h', n, HNode(key, false, x.waiting, h'.nodes[n].slots, x.count))
        && (forall f :: 0 <= f <= fork ==> h'.nodes[n].slots[f] == if f < |x.slots| then x.slots[f] else None)
      else if x.slots[fork].Some? then
        o == Candidate(n, x.slots[fork].value) && h' == h
      else
        o == AttachTo(n) && OnlyRecord(h, h', n, HNode(key, true, x.waiting, x.slots, x.count + 1))
  {
    TurnFinds(h, n, key);
  }

  /** The turn of a lookup whose HNode is not in the table: without an HNode of its own it asks for
    * one; with one, that HNode enters the table at the head of its chain, and the lookup has the
    * token.
    */
  lemma MissingTurnExactly(h: Hash, key: Key, fork: nat, haveNode: bool, haveBuffer: bool)
    requires TableOk(h) && Missing(h, key)
    ensures var (h', o) := Turn(h, key, fork, haveNode, haveBuffer);
      if !haveNode then
        o == NeedNode && h' == h
      else
        var b := BucketOf(|h.table|, key);
        && o == AttachTo(h.next) && h'.nodeCount == h.nodeCount + 1 && h'.next == h.next + 1
        && h'.table == h.table[b := [h.next] + h.table[b]]
        && h.next in h'.nodes && h'.nodes == h.nodes[h.next := h'.nodes[h.next]]
        && var y := h'.nodes[h.next];
           && y == HNode(key, true, false, y.slots, 1) && |y.slots| == fork + 1
           && (forall f :: 0 <= f <= fork ==> y.slots[f] == None)
  {
    TurnMisses(h, key);
    var g := Insert(h, key, fork);
    assert Examine(g, h.next, fork, haveBuffer).1 == AttachTo(h.next);
    assert Turn(h, key, fork, haveNode, haveBuffer).0.nodes ==
           if haveNode then h.nodes[h.next := HNode(key, true, false, NoVNodes(fork + 1), 1)] else h.nodes;
  }

  // ---- A whole lookup -----------------------------------------------------------------------

  /** The run is possible from s; it ends with thread i at pc and every other thread where it was. */
  ghost predicate Leads(s: State, run: seq<Action>, i: Tid, pc: Pc) {
    && Run(s, run).Some?
    && (forall k :: 0 <= k < |run| ==> run[k].i == i)
    && Run(s, run).value.th == s.th[i := pc]
  }

  lemma {:induction false} OneMore(s: State, run: seq<Action>, a: Action)
    requires Run(s, run).Some? && HasTable(Run(s, run).value.h)
    ensures Run(s, run + [a]) == Step(Run(s, run).value, a)
  {
    assert (run + [a])[..|run|] == run && (run + [a])[|run|] == a;
  }

  /** A lookup that finds its slot ends within two steps: asleep if an attach is outstanding, with the
    * token if the slot is empty, and with the vnode in the slot if that is not being reclaimed.
    */
  lemma LookupOfASlotEnds(s0: State, run: seq<Action>, s: State, i: Tid, c: Call, n: Nid)
    requires Init(s0) && Run(s0, run) == Some(s) && s.At(i, Looking(c)) && IsNodeOf(s.h, n, c.key)
    requires s.h.nodes[n].attaching || c.fork < |s.h.nodes[n].slots|
    ensures var x := s.h.nodes[n];
      if x.attaching then Leads(s, [TakeTurn(i)], i, Asleep(n, c))
      else if x.slots[c.fork].None? then Leads(s, [TakeTurn(i)], i, Attaching(n, c.key, c.fork))
      else
        var v := x.slots[c.fork].value;
        && Leads(s, [TakeTurn(i)], i, Getting(n, v, c)) && v in s.vns
        && Leads(s, [TakeTurn(i), GetDone(i, false)], i, Looking(c))
        && (Leads(s, [TakeTurn(i), GetDone(i, true)], i, Using(n, v, c.key, c.fork)) <==> s.vns[v].dying.None?)
  {
    RunIsGood(s0, run, s);
    assert NodeOk(s, n);
    TurnExactly(s.h, c.key, c.fork, c.node, c.buffer, n);
    OneStep(s, TakeTurn(i));
    var x := s.h.nodes[n];
    if !x.attaching && x.slots[c.fork].Some? { CandidateEnds(s, i, c, n, x.slots[c.fork].value); }
  }

  lemma CandidateEnds(s: State, i: Tid, c: Call, n: Nid, v: Vn)
    requires HasTable(s.h) && s.At(i, Looking(c)) && v in s.vns
    requires StepTurn(s, i) == Some(s.(th := s.th[i := Getting(n, v, c)]))
    ensures Leads(s, [TakeTurn(i), GetDone(i, false)], i, Looking(c))
    ensures Leads(s, [TakeTurn(i), GetDone(i, true)], i, Using(n, v, c.key, c.fork)) <==> s.vns[v].dying.None?
  {
    OneStep(s, TakeTurn(i));
    TwoMore(s, TakeTurn(i), GetDone(i, false));
    TwoMore(s, TakeTurn(i), GetDone(i, true));
    var got := Using(n, v, c.key, c.fork);
    assert s.th[i := Getting(n, v, c)][i := Looking(c)] == s.th[i := Looking(c)];
    assert s.th[i := Getting(n, v, c)][i := got] == s.th[i := got];
  }

  lemma TwoMore(s: State, a: Action, b: Action)
    requires Run(s, [a]).Some? && HasTable(Run(s, [a]).value.h)
    ensures Run(s, [a, b]) == Step(Run(s, [a]).value, b)
  {
    OneMore(s, [a], b);
    assert [a] + [b] == [a, b];
  }

  lemma {:induction false} Joined(s: State, a: seq<Action>, b: seq<Action>)
    requires Run(s, a).Some?
    ensures Run(s, a + b) == Run(Run(s, a).value, b)
  {
    if b == [] {
      assert a + b == a;
    } else {
      var last := |b| - 1;
      Joined(s, a, b[..last]);
      assert (a + b)[..|a + b| - 1] == a + b[..last];
    }
  }

  lemma LeadsOn(s: State, a: seq<Action>, b: seq<Action>, i: Tid, pc: Pc)
    requires Run(s, a).Some? && (forall k :: 0 <= k < |a| ==> a[k].i == i)
    requires forall j :: j in s.th && j != i ==> Run(s, a).value.At(j, s.th[j])
    requires i in s.th && Run(s, a).value.th.Keys == s.th.Keys && Leads(Run(s, a).value, b, i, pc)
    ensures Leads(s, a + b, i, pc)
  {
    Joined(s, a, b);
    assert s.th[i := pc] == Run(s, a).value.th[i := pc];
  }

  /** A lookup whose index is beyond the array gets the token once it has allocated a buffer, unless it
    * has one already: four steps at most.
    */
  lemma LookupPastTheEndEnds(s0: State, run: seq<Action>, s: State, i: Tid, c: Call, n: Nid)
    requires Init(s0) && Run(s0, run) == Some(s) && s.At(i, Looking(c)) && IsNodeOf(s.h, n, c.key)
    requires !s.h.nodes[n].attaching && c.fork >= |s.h.nodes[n].slots|
    ensures c.buffer ==> Leads(s, [TakeTurn(i), TakeTurn(i)], i, Attaching(n, c.key, c.fork))
    ensures !c.buffer ==>
              && Leads(s, [TakeTurn(i), BufferMade(i, false)], i, Idle)
              && Leads(s, [TakeTurn(i), BufferMade(i, true)] + [TakeTurn(i), TakeTurn(i)], i,
                       Attaching(n, c.key, c.fork))
  {
    RunIsGood(s0, run, s);
    TurnExactly(s.h, c.key, c.fork, c.node, c.buffer, n);
    OneStep(s, TakeTurn(i));
    if c.buffer {
      LookupGrows(s, i, c, n);
    } else {
      TwoMore(s, TakeTurn(i), BufferMade(i, false));
      TwoMore(s, TakeTurn(i), BufferMade(i, true));
      assert s.th[i := MakingBuffer(c)][i := Idle] == s.th[i := Idle];
      var s2 := Run(s, [TakeTurn(i), BufferMade(i, true)]).value;
      StepKeepsGood(s, TakeTurn(i), Run(s, [TakeTurn(i)]).value);
      StepKeepsGood(Run(s, [TakeTurn(i)]).value, BufferMade(i, true), s2);
      LookupGrows(s2, i, c.(buffer := true), n);
      LeadsOn(s, [TakeTurn(i), BufferMade(i, true)], [TakeTurn(i), TakeTurn(i)], i, Attaching(n, c.key, c.fork));
    }
  }

  lemma OneStep(s: State, a: Action)
    requires HasTable(s.h)
    ensures Run(s, [a]) == Step(s, a)
  {
    assert [a][..0] == [] && Run(s, []) == Some(s);
  }

  lemma LookupGrows(s: State, i: Tid, c: Call, n: Nid)
    requires Good(s) && s.At(i, Looking(c)) && IsNodeOf(s.h, n, c.key) && c.buffer
    requires !s.h.nodes[n].attaching && c.fork >= |s.h.nodes[n].slots|
    ensures Leads(s, [TakeTurn(i), TakeTurn(i)], i, Attaching(n, c.key, c.fork))
  {
    TurnExactly(s.h, c.key, c.fork, c.node, c.buffer, n);
    OneStep(s, TakeTurn(i));
    var s1 := Run(s, [TakeTurn(i)]).value;
    StepKeepsGood(s, TakeTurn(i), s1);
    TurnExactly(s1.h, c.key, c.fork, c.node, false, n);
    TwoMore(s, TakeTurn(i), TakeTurn(i));
    assert s.th[i := s1.th[i]][i := Attaching(n, c.key, c.fork)] == s.th[i := Attaching(n, c.key, c.fork)];
  }

  /** The lookup of a new file gets the token of the HNode that it inserts. */
  lemma LookupOfANewFileEnds(s0: State, run: seq<Action>, s: State, i: Tid, c: Call)
    requires Init(s0) && Run(s0, run) == Some(s) && HasTable(s.h) && s.At(i, Looking(c)) && Missing(s.h, c.key)
    ensures c.node ==> Leads(s, [TakeTurn(i)], i, Attaching(s.h.next, c.key, c.fork))
    ensures !c.node ==>
              && Leads(s, [TakeTurn(i), NodeMade(i, false)], i, Idle)
              && Leads(s, [TakeTurn(i), NodeMade(i, true)] + [TakeTurn(i)], i, Attaching(s.h.next, c.key, c.fork))
  {
    RunIsGood(s0, run, s);
    if c.node {
      LookupInserts(s, i, c);
    } else {
      LookupAllocates(s, i, c);
      var s2 := s.Go(i, Looking(c.(node := true)));
      LookupInserts(s2, i, c.(node := true));
      LeadsOn(s, [TakeTurn(i), NodeMade(i, true)], [TakeTurn(i)], i, Attaching(s.h.next, c.key, c.fork));
    }
  }

  lemma LookupAllocates(s: State, i: Tid, c: Call)
    requires TableOk(s.h) && s.At(i, Looking(c)) && Missing(s.h, c.key) && !c.node
    ensures Leads(s, [TakeTurn(i), NodeMade(i, false)], i, Idle)
    ensures Run(s, [TakeTurn(i), NodeMade(i, true)]) == Some(s.Go(i, Looking(c.(node := true))))
  {
    MissingTurnExactly(s.h, c.key, c.fork, c.node, c.buffer);
    OneStep(s, TakeTurn(i));
    TwoMore(s, TakeTurn(i), NodeMade(i, false));
    TwoMore(s, TakeTurn(i), NodeMade(i, true));
    var now := Looking(c.(node := true));
    assert s.th[i := MakingNode(c)][i := Idle] == s.th[i := Idle];
    assert s.th[i := MakingNode(c)][i := now] == s.th[i := now];
  }

  lemma LookupInserts(s: State, i: Tid, c: Call)
    requires TableOk(s.h) && s.At(i, Looking(c)) && Missing(s.h, c.key) && c.node
    ensures Leads(s, [TakeTurn(i)], i, Attaching(s.h.next, c.key, c.fork))
  {
    MissingTurnExactly(s.h, c.key, c.fork, c.node, c.buffer);
    OneStep(s, TakeTurn(i));
  }

  /** The vnode attached where the lookup looks, if there is one, is not being reclaimed. */
  ghost predicate NotDying(s: State, key: Key, fork: nat) {
    forall n :: IsNodeOf(s.h, n, key) && fork < |s.h.nodes[n].slots| && s.h.nodes[n].slots[fork].Some?
                ==> s.h.nodes[n].slots[fork].value in s.vns && s.vns[s.h.nodes[n].slots[fork].value].dying.None?
  }

  /** A lookup of (key, fork) has come to an end, or waits for an attach. */
  predicate Ended(pc: Pc, key: Key, fork: nat) {
    || (pc.Asleep? && pc.c.key == key && pc.c.fork == fork)
    || ((pc.Attaching? || pc.Using?) && pc.key == key && pc.fork == fork)
  }

  /** A lookup that nobody disturbs and whose allocations succeed ends within five steps of its call,
    * unless the vnode it finds is being reclaimed.
    */
  lemma LookupEnds(s0: State, run: seq<Action>, s: State, i: Tid, key: Key, fork: nat)
    requires Init(s0) && Run(s0, run) == Some(s) && s.At(i, Idle) && NotDying(s, key, fork)
    ensures exists my, pc ::
              Leads(s, my, i, pc) && 0 < |my| <= 5 && my[0] == Start(i, key, fork) && Ended(pc, key, fork)
  {
    RunIsGood(s0, run, s);
    OneStep(s, Start(i, key, fork));
    Joined(s0, run, [Start(i, key, fork)]);
    var s1 := Run(s, [Start(i, key, fork)]).value;
    var my, pc := LookupPath(s0, run + [Start(i, key, fork)], s1, i, Call(key, fork, false, false));
    LeadsOn(s, [Start(i, key, fork)], my, i, pc);
    assert ([Start(i, key, fork)] + my)[0] == Start(i, key, fork);
  }

  lemma LookupPath(s0: State, run: seq<Action>, s: State, i: Tid, c: Call) returns (my: seq<Action>, pc: Pc)
    requires Init(s0) && Run(s0, run) == Some(s) && s.At(i, Looking(c)) && NotDying(s, c.key, c.fork)
    ensures Leads(s, my, i, pc) && |my| <= 4 && Ended(pc, c.key, c.fork)
  {
    RunIsGood(s0, run, s);
    if n :| IsNodeOf(s.h, n, c.key) {
      if s.h.nodes[n].attaching || c.fork < |s.h.nodes[n].slots| {
        my, pc := PathToASlot(s0, run, s, i, c, n);
      } else {
        my, pc := PathPastTheEnd(s0, run, s, i, c, n);
      }
    } else {
      my, pc := PathOfANewFile(s0, run, s, i, c);
    }
  }

  lemma PathToASlot(s0: State, run: seq<Action>, s: State, i: Tid, c: Call, n: Nid)
    returns (my: seq<Action>, pc: Pc)
    requires Init(s0) && Run(s0, run) == Some(s) && s.At(i, Looking(c)) && IsNodeOf(s.h, n, c.key)
    requires s.h.nodes[n].attaching || c.fork < |s.h.nodes[n].slots|
    requires NotDying(s, c.key, c.fork)
    ensures Leads(s, my, i, pc) && |my| <= 4 && Ended(pc, c.key, c.fork)
  {
    var x := s.h.nodes[n];
    LookupOfASlotEnds(s0, run, s, i, c, n);
    if x.attaching {
      my, pc := [TakeTurn(i)], Asleep(n, c);
    } else if x.slots[c.fork].None? {
      my, pc := [TakeTurn(i)], Attaching(n, c.key, c.fork);
    } else {
      my, pc := [TakeTurn(i), GetDone(i, true)], Using(n, x.slots[c.fork].value, c.key, c.fork);
    }
  }

  lemma PathPastTheEnd(s0: State, run: seq<Action>, s: State, i: Tid, c: Call, n: Nid)
    returns (my: seq<Action>, pc: Pc)
    requires Init(s0) && Run(s0, run) == Some(s) && s.At(i, Looking(c)) && IsNodeOf(s.h, n, c.key)
    requires !s.h.nodes[n].attaching && c.fork >= |s.h.nodes[n].slots|
    ensures Leads(s, my, i, pc) && |my| <= 4 && Ended(pc, c.key, c.fork)
  {
    LookupPastTheEndEnds(s0, run, s, i, c, n);
    pc := Attaching(n, c.key, c.fork);
    if c.buffer {
      my := [TakeTurn(i), TakeTurn(i)];
    } else {
      my := [TakeTurn(i), BufferMade(i, true)] + [TakeTurn(i), TakeTurn(i)];
    }
  }

  lemma PathOfANewFile(s0: State, run: seq<Action>, s: State, i: Tid, c: Call)
    returns (my: seq<Action>, pc: Pc)
    requires Init(s0) && Run(s0, run) == Some(s) && HasTable(s.h) && s.At(i, Looking(c)) && Missing(s.h, c.key)
    ensures Leads(s, my, i, pc) && |my| <= 4 && Ended(pc, c.key, c.fork)
  {
    LookupOfANewFileEnds(s0, run, s, i, c);
    pc := Attaching(s.h.next, c.key, c.fork);
    if c.node {
      my := [TakeTurn(i)];
    } else {
      my := [TakeTurn(i), NodeMade(i, true)] + [TakeTurn(i)];
    }
  }

  /** A thread that is not asleep can always go on; one that is has an attach to wait for whose thread
    * can go on.
    */
  lemma OnlySleepersWait(s0: State, run: seq<Action>, s: State, i: Tid)
    requires Init(s0) && Run(s0, run) == Some(s) && i in s.th
    ensures HasTable(s.h)
    ensures (exists a: Action :: a.i == i && Step(s, a).Some?) <==> !s.th[i].Asleep?
    ensures s.th[i].Asleep? ==>
              exists j :: j in s.th && s.th[j].Attaching? && s.th[j].n == s.th[i].n && StepSucceed(s, j).Some?
  {
    RunIsGood(s0, run, s);
    if s.th[i].Asleep? {
      NoLostWakeup(s0, run, s, i, s.th[i].n, s.th[i].c);
      var j :| j in s.th && s.th[j].Attaching? && s.th[j].n == s.th[i].n;
      AttachCanEnd(s, j);
      forall a: Action | a.i == i ensures Step(s, a) == None { SleeperWaits(s, a); }
    } else {
      var a := NextStep(s, i);
      assert a.i == i && Step(s, a).Some?;
    }
  }

  lemma SleeperWaits(s: State, a: Action)
    requires HasTable(s.h) && a.i in s.th && s.th[a.i].Asleep?
    ensures Step(s, a) == None
  {
  }

  lemma NextStep(s: State, i: Tid) returns (a: Action)
    requires Good(s) && i in s.th && !s.th[i].Asleep?
    ensures a.i == i && Step(s, a).Some?
  {
    assert ThreadOk(s, i);
    match s.th[i]
    case Idle => a := Start(i, Key(0, 0), 0);
    case Looking(c) => a := TakeTurn(i);
    case MakingNode(c) => a := NodeMade(i, true);
    case MakingBuffer(c) => a := BufferMade(i, true);
    case Getting(n, v, c) => a := GetDone(i, false);
    case Using(n, v, key, f) => a := Put(i);
    case Attaching(n, key, f) =>
      AttachCanEnd(s, i);
      a := Fail(i);
    case Reclaiming(n, v) =>
      DetachCanEnd(s, i);
      a := DetachIt(i);
    case Scrubbing(n) =>
      assert NodeOk(s, n);
      a := ScrubDone(i);
  }

  // ---- The ends of an attach and of a vnode's life ---------------------------------------------

  /** Nobody but i moves, except the sleepers of n, which are woken if wakes. */
  ghost predicate OthersStay(s: State, s': State, i: Tid, n: Nid, wakes: bool) {
    && s'.th.Keys == s.th.Keys
    && forall j :: j in s.th && j != i ==>
         s'.th[j] == if wakes && s.th[j].Asleep? && s.th[j].n == n then Looking(s.th[j].c) else s.th[j]
  }

  /** The attach has a vnode: it takes the slot that the lookup asked for, its thread has a reference
    * on it, and the sleepers look again.
    */
  lemma SucceedExactly(s0: State, run: seq<Action>, s: State, i: Tid, n: Nid, key: Key, f: nat)
    requires Init(s0) && Run(s0, run) == Some(s) && s.At(i, Attaching(n, key, f))
    ensures StepSucceed(s, i).Some? && n in s.h.nodes && f < |s.h.nodes[n].slots| && s.nextVn !in s.vns
    ensures var s', x, v := StepSucceed(s, i).value, s.h.nodes[n], s.nextVn;
      && OnlyRecord(s.h, s'.h, n, HNode(key, false, false, x.slots[f := Some(v)], x.count))
      && s'.At(i, Using(n, v, key, f)) && s'.vns == s.vns[v := Vnode(n, f, {i}, None)]
      && OthersStay(s, s', i, n, true)
  {
    RunIsGood(s0, run, s);
    assert ThreadOk(s, i);
    AttachCanEnd(s, i);
    assert s.nextVn in s.vns ==> VnodeOk(s, s.nextVn);
  }

  /** HNode n, now with record x, has one vnode or attach less. With the last of them, and only then,
    * it leaves the table.
    */
  ghost predicate LosesOne(h: Hash, h': Hash, n: Nid, x: HNode, gone: bool)
    requires HasTable(h) && HasTable(h')
  {
    && x.count > 0 && h'.nodes == h.nodes[n := x.(count := x.count - 1)] && h'.next == h.next
    && gone == (x.count == 1) && gone == !Linked(h', n)
    && (forall m :: m in h.nodes && m != n ==> (Linked(h', m) <==> Linked(h, m)))
    && (if gone then h'.nodeCount == h.nodeCount - 1 else h'.table == h.table && h'.nodeCount == h.nodeCount)
  }

  lemma DecrementExactly(h: Hash, n: Nid, x: HNode)
    requires TableOk(h) && UniqueOk(h) && Linked(h, n) && h.nodeCount > 0 && h.nodes[n].count > 0
    requires x.key == h.nodes[n].key && x.count == h.nodes[n].count
    ensures var (h', gone) := Decrement(SetNode(h, n, x), n); HasTable(h') && LosesOne(h, h', n, x, gone)
  {
    DecrementKeepsTable(h, n, x);
  }

  /** The thread is done, or must scrub the HNode if it has left the table. */
  predicate DoneOrScrubs(s: State, i: Tid, n: Nid, gone: bool) {
    s.At(i, if gone then Scrubbing(n) else Idle)
  }

  /** The attach has failed: the slot stays empty, the HNode has an attach less, and the sleepers look
    * again.
    */
  lemma FailExactly(s0: State, run: seq<Action>, s: State, i: Tid, n: Nid, key: Key, f: nat)
    requires Init(s0) && Run(s0, run) == Some(s) && s.At(i, Attaching(n, key, f))
    ensures HasTable(s.h) && StepFail(s, i).Some? && n in s.h.nodes && HasTable(StepFail(s, i).value.h)
    ensures var s', x := StepFail(s, i).value, s.h.nodes[n];
      && LosesOne(s.h, s'.h, n, HNode(key, false, false, x.slots, x.count), x.count == 1)
      && DoneOrScrubs(s', i, n, x.count == 1) && s'.vns == s.vns && OthersStay(s, s', i, n, true)
  {
    RunIsGood(s0, run, s);
    assert ThreadOk(s, i);
    AttachCanEnd(s, i);
    Counted(s, n);
    DecrementExactly(s.h, n, HNode(key, false, false, s.h.nodes[n].slots, s.h.nodes[n].count));
  }

  /** The vnode is detached: it is gone, exactly its slot is emptied, and the HNode has a vnode less. */
  lemma DetachExactly(s0: State, run: seq<Action>, s: State, i: Tid, n: Nid, v: Vn)
    requires Init(s0) && Run(s0, run) == Some(s) && s.At(i, Reclaiming(n, v))
    ensures HasTable(s.h) && StepDetach(s, i).Some? && HasTable(StepDetach(s, i).value.h)
    ensures v in s.vns && n in s.h.nodes && s.vns[v].fork < |s.h.nodes[n].slots|
    ensures s.h.nodes[n].slots[s.vns[v].fork] == Some(v)
    ensures var s', x := StepDetach(s, i).value, s.h.nodes[n];
      && s'.vns == s.vns - {v} && OthersStay(s, s', i, n, false) && DoneOrScrubs(s', i, n, x.count == 1)
      && var slots := x.slots[s.vns[v].fork := None];
         LosesOne(s.h, s'.h, n, HNode(x.key, x.attaching, x.waiting, slots, x.count), x.count == 1)
  {
    RunIsGood(s0, run, s);
    assert ThreadOk(s, i) && VnodeOk(s, v) && NodeOk(s, n);
    DetachCanEnd(s, i);
    Counted(s, n);
    var x, f := s.h.nodes[n], s.vns[v].fork;
    IndexFound(x.slots, v, f);
    assert IndexOf(x.slots, v) == f;
    DecrementExactly(s.h, n, HNode(x.key, x.attaching, x.waiting, x.slots[f := None], x.count));
  }

  /** A reference is given back; without any, the vnode may be reclaimed, and then nobody gets it. */
  lemma PutAndReclaim(s0: State, run: seq<Action>, s: State, i: Tid, n: Nid, v: Vn, key: Key, f: nat, j: Tid)
    requires Init(s0) && Run(s0, run) == Some(s) && s.At(i, Using(n, v, key, f)) && (j == i || s.At(j, Idle))
    ensures StepPut(s, i).Some? && v in s.vns
    ensures var s1, y := StepPut(s, i).value, s.vns[v];
      && s1 == s.(th := s.th[i := Idle], vns := s.vns[v := Vnode(n, f, y.users - {i}, None)])
      && (StepReclaim(s1, j, v).Some? <==> y.users == {i})
      && (y.users == {i} ==>
            StepReclaim(s1, j, v).value ==
            s1.(th := s1.th[j := Reclaiming(n, v)], vns := s1.vns[v := Vnode(n, f, {}, Some(j))]))
  {
    RunIsGood(s0, run, s);
    assert ThreadOk(s, i) && VnodeOk(s, v);
  }

  /** A scrubbed HNode, which is not in the table, is freed, and nothing else. */
  lemma ScrubFrees(s0: State, run: seq<Action>, s: State, i: Tid, n: Nid)
    requires Init(s0) && Run(s0, run) == Some(s) && s.At(i, Scrubbing(n))
    ensures HasTable(s.h) && n in s.h.nodes && !Linked(s.h, n) && StepScrubDone(s, i).Some?
    ensures var s' := StepScrubDone(s, i).value;
      s'.h == s.h.(nodes := s.h.nodes - {n}) && s'.th == s.th[i := Idle] && s'.vns == s.vns
  {
    RunIsGood(s0, run, s);
    assert ThreadOk(s, i) && NodeOk(s, n);
  }
}
