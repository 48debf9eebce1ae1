/** Whole runs of the HNode hash. */
module HashTheorems {
  import opened Lists
  import opened HashMemory
  import opened HashProtocol
  import opened HashInvariant

  lemma StepKeepsGood(s: State, a: Action, s': State)
    requires Good(s) && Step(s, a) == Some(s')
    ensures Good(s')
  {
    match a
    case Start(i, key, fork) => MoveKeeps(s, i, Looking(Call(key, fork, false, false)));
    case TakeTurn(i) => TurnKeeps(s, i, s');
    case NodeMade(i, ok) => MoveKeeps(s, i, s'.th[i]);
    case BufferMade(i, ok) => MoveKeeps(s, i, s'.th[i]);
    case GetDone(i, ok) => GetKeeps(s, i, ok, s');
    case Succeed(i) => SucceedKeeps(s, i, s');
    case Fail(i) => FailKeeps(s, i, s');
    case Put(i) => PutKeeps(s, i, s');
    case Reclaim(i, v) => ReclaimKeeps(s, i, v, s');
    case DetachIt(i) => DetachKeeps(s, i, s');
    case ScrubDone(i) => ScrubKeeps(s, i, s');
  }

  lemma {:induction false} RunIsGood(s0: State, run: seq<Action>, s: State)
    requires Init(s0) && Run(s0, run) == Some(s)
    ensures HasTable(s.h) && Good(s)
  {
    if run == [] {
      InitIsGood(s0);
    } else {
      var before, last := run[..|run| - 1], run[|run| - 1];
      var mid := Run(s0, before).value;
      RunIsGood(s0, before, mid);
      StepKeepsGood(mid, last, s);
    }
  }

  // ---- The table ------------------------------------------------------------------------

  /** Whenever gHashMutex is free there is at most one HNode for each (dev, ino), it is in the
    * bucket its key selects, and nowhere twice.
    */
  lemma OneHNodePerFile(s0: State, run: seq<Action>, s: State, b: nat, c: nat, m: Nid, n: Nid)
    requires Init(s0) && Run(s0, run) == Some(s)
    requires b < |s.h.table| && c < |s.h.table| && m in s.h.table[b] && n in s.h.table[c]
    ensures m in s.h.nodes && n in s.h.nodes && b == BucketOf(|s.h.table|, s.h.nodes[m].key)
    ensures s.h.nodes[m].key == s.h.nodes[n].key ==> m == n && b == c
    ensures NoDup(s.h.table[b])
  {
    RunIsGood(s0, run, s);
    assert ChainOk(s.h, b) && ChainOk(s.h, c);
    assert Apart(s.h, m, n);
  }

  /** forkVNodesCount is the number of vnodes plus one for an outstanding attach; an HNode has
    * left the table exactly when its count has reached zero, and then it is being scrubbed.
    */
  lemma CountsAgree(s0: State, run: seq<Action>, s: State, n: Nid)
    requires Init(s0) && Run(s0, run) == Some(s) && n in s.h.nodes
    ensures HasTable(s.h) && s.h.nodeCount == Total(s.h.table)
    ensures var x := s.h.nodes[n];
      && x.count == Filled(x.slots) + One(x.attaching)
      && (Linked(s.h, n) <==> x.count > 0)
      && (x.count == 0 <==> exists i :: s.At(i, Scrubbing(n)))
  {
    RunIsGood(s0, run, s);
    assert NodeOk(s, n);
    if s.h.nodes[n].count == 0 { assert s.At(s.job[n], Scrubbing(n)); }
    if i :| s.At(i, Scrubbing(n)) { assert ThreadOk(s, i); }
  }

  // ---- Sleepers ---------------------------------------------------------------------------

  /** A thread asleep on an HNode: the HNode is in the table, the thread's wish to be woken is
    * recorded, and an attach is outstanding whose end will wake it.
    */
  lemma NoLostWakeup(s0: State, run: seq<Action>, s: State, i: Tid, n: Nid, c: Call)
    requires Init(s0) && Run(s0, run) == Some(s) && s.At(i, Asleep(n, c))
    ensures HasTable(s.h) && Linked(s.h, n) && s.h.nodes[n].key == c.key
    ensures s.h.nodes[n].waiting && s.h.nodes[n].attaching
    ensures exists j :: j in s.th && s.th[j].Attaching? && s.th[j].n == n
  {
    RunIsGood(s0, run, s);
    assert ThreadOk(s, i) && NodeOk(s, n);
    assert s.th[s.job[n]].Attaching?;
  }

  /** Either end of an attach wakes every sleeper of the HNode, and leaves nobody waiting. */
  lemma AttachEndWakesAll(s0: State, run: seq<Action>, s: State, a: Action, s': State, n: Nid)
    requires Init(s0) && Run(s0, run) == Some(s) && HasTable(s.h) && Step(s, a) == Some(s')
    requires (a.Succeed? || a.Fail?) && s.th[a.i].n == n
    ensures n in s'.h.nodes && !s'.h.nodes[n].attaching && !s'.h.nodes[n].waiting
    ensures forall j :: j in s.th && s.th[j].Asleep? && s.th[j].n == n ==> s'.At(j, Looking(s.th[j].c))
    ensures forall j :: j in s'.th && s'.th[j].Asleep? ==> s'.th[j].n != n
  {
    RunIsGood(s0, run, s);
    assert ThreadOk(s, a.i);
  }

  // ---- The attach token ---------------------------------------------------------------------

  /** From the moment a lookup has returned success without a vnode to the attach call that
    * answers it: the thread is the only one with an attach on that HNode, the HNode stays in
    * the table, the index is in range, and the slot is empty.
    */
  lemma AttachIsExclusive(s0: State, run: seq<Action>, s: State, i: Tid, j: Tid, n: Nid, key: Key, f: nat)
    requires Init(s0) && Run(s0, run) == Some(s) && s.At(i, Attaching(n, key, f))
    ensures HasTable(s.h) && Linked(s.h, n) && s.h.nodes[n].key == key && s.h.nodes[n].attaching
    ensures f < |s.h.nodes[n].slots| && s.h.nodes[n].slots[f] == None
    ensures j in s.th && s.th[j].Attaching? && s.th[j].n == n ==> i == j
  {
    RunIsGood(s0, run, s);
    assert ThreadOk(s, i) && NodeOk(s, n);
    assert j in s.th ==> ThreadOk(s, j);
  }

  /** No assert of HNodeAttachComplete, HNodeAttachVNodeSucceeded, HNodeAttachVNodeFailed,
    * HNodeForkVNodeDecrement, HNodeDetachVNode or HNodeScrubDone can fire, and these steps are
    * always possible.
    */
  lemma AssertsHold(s0: State, run: seq<Action>, s: State, i: Tid)
    requires Init(s0) && Run(s0, run) == Some(s) && i in s.th
    ensures HasTable(s.h)
    ensures s.th[i].Attaching? ==> StepSucceed(s, i).Some? && StepFail(s, i).Some?
    ensures s.th[i].Attaching? ==>
              && s.th[i].n in s.h.nodes && s.h.nodeCount > 0
              && var x, f := s.h.nodes[s.th[i].n], s.th[i].fork;
                 x.attaching && x.count > 0 && f < |x.slots| && x.slots[f] == None
    ensures s.th[i].Reclaiming? ==> StepDetach(s, i).Some?
    ensures s.th[i].Reclaiming? ==>
              && s.th[i].n in s.h.nodes && s.h.nodeCount > 0 && s.h.nodes[s.th[i].n].count > 0
              && Some(s.th[i].v) in s.h.nodes[s.th[i].n].slots
    ensures s.th[i].Scrubbing? ==> StepScrubDone(s, i).Some?
    ensures s.th[i].Scrubbing? ==> s.th[i].n in s.h.nodes && !s.h.nodes[s.th[i].n].waiting
  {
    RunIsGood(s0, run, s);
    assert ThreadOk(s, i);
    if s.th[i].Attaching? {
      AttachCanEnd(s, i);
      assert NodeOk(s, s.th[i].n);
      Counted(s, s.th[i].n);
    } else if s.th[i].Reclaiming? {
      DetachCanEnd(s, i);
      assert VnodeOk(s, s.th[i].v);
    } else if s.th[i].Scrubbing? {
      assert NodeOk(s, s.th[i].n);
    }
  }

  lemma AttachCanEnd(s: State, i: Tid)
    requires Good(s) && i in s.th && s.th[i].Attaching?
    ensures StepSucceed(s, i).Some? && StepFail(s, i).Some?
  {
    assert ThreadOk(s, i) && NodeOk(s, s.th[i].n);
    Counted(s, s.th[i].n);
  }

  lemma DetachCanEnd(s: State, i: Tid)
    requires Good(s) && i in s.th && s.th[i].Reclaiming?
    ensures StepDetach(s, i).Some?
  {
    var n, v := s.th[i].n, s.th[i].v;
    assert ThreadOk(s, i) && VnodeOk(s, v) && NodeOk(s, n);
    IndexFound(s.h.nodes[n].slots, v, s.vns[v].fork);
    FilledSlot(s.h.nodes[n].slots, s.vns[v].fork);
    Counted(s, n);
  }

  // ---- What a lookup returns ------------------------------------------------------------------

  /** A lookup for (key, f) that returns a vnode returns the one attached at index f of the
    * one HNode of key, and the vnode stays there as long as the caller keeps its reference.
    */
  lemma LookupFindsTheVnode(s0: State, run: seq<Action>, s: State, i: Tid, n: Nid, v: Vn, key: Key, f: nat)
    requires Init(s0) && Run(s0, run) == Some(s) && s.At(i, Using(n, v, key, f))
    ensures HasTable(s.h) && Linked(s.h, n) && s.h.nodes[n].key == key
    ensures f < |s.h.nodes[n].slots| && s.h.nodes[n].slots[f] == Some(v)
    ensures forall j :: j in s.th ==> s.th[j] != Reclaiming(n, v) && s.th[j] != Scrubbing(n)
  {
    RunIsGood(s0, run, s);
    assert ThreadOk(s, i) && VnodeOk(s, v) && NodeOk(s, n);
    FilledSlot(s.h.nodes[n].slots, s.vns[v].fork);
    forall j | j in s.th ensures s.th[j] != Reclaiming(n, v) && s.th[j] != Scrubbing(n) { assert ThreadOk(s, j); }
  }

  /** HNodeScrubDone frees memory that no other thread will touch: only a lookup in
    * vnode_getwithvid may still have the address, and its call fails.
    */
  lemma FreedHNodeIsUnused(s0: State, run: seq<Action>, s: State, i: Tid, n: Nid, j: Tid)
    requires Init(s0) && Run(s0, run) == Some(s) && s.At(i, Scrubbing(n)) && j in s.th && j != i && Has(s.th[j], n)
    ensures s.th[j].Getting? && StepGetDone(s, j, true) == None
  {
    RunIsGood(s0, run, s);
    assert ThreadOk(s, i) && ThreadOk(s, j) && NodeOk(s, n);
    if (s.th[j].Getting? || s.th[j].Using? || s.th[j].Reclaiming?) && s.th[j].v in s.vns {
      var v := s.th[j].v;
      assert VnodeOk(s, v);
      FilledSlot(s.h.nodes[n].slots, s.vns[v].fork);
    }
  }
}
