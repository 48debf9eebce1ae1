/** Threads that look up, attach, detach and scrub HNodes. One step is one section that
  * holds gHashMutex, or one call between two of them.
  *
  * A vnode is opaque: vnode_getwithvid takes a reference only while the vnode has not
  * begun to be reclaimed, and a vnode is not reclaimed while a reference is held. `job`
  * is bookkeeping: the thread that must end the attach, or the life, of an HNode.
  */
module HashProtocol {
  import opened Lists
  import opened HashMemory

  type Tid = nat

  /** The arguments and the allocations of one HNodeLookupCreatingIfNecessary. */
  datatype Call = Call(key: Key, fork: nat, node: bool, buffer: bool)

  datatype Pc =
    | Idle
    | Looking(c: Call)                 // at the top of the loop
    | MakingNode(c: Call)              // allocating an HNode, mutex dropped
    | MakingBuffer(c: Call)            // allocating a fork buffer, mutex dropped
    | Asleep(n: Nid, c: Call)
    | Getting(n: Nid, v: Vn, c: Call)  // in vnode_getwithvid, mutex dropped
    | Attaching(n: Nid, key: Key, fork: nat)   // success without a vnode
    | Using(n: Nid, v: Vn, key: Key, fork: nat) // success with a vnode, and a reference on it
    | Reclaiming(n: Nid, v: Vn)        // VNOP_RECLAIM, before HNodeDetachVNode
    | Scrubbing(n: Nid)                // before HNodeScrubDone

  datatype Vnode = Vnode(node: Nid, fork: nat, users: set<Tid>, dying: Option<Tid>)

  datatype State = State(h: Hash, th: map<Tid, Pc>, vns: map<Vn, Vnode>, nextVn: Vn, job: map<Nid, Tid>)
  {
    predicate At(i: Tid, pc: Pc) { i in th && th[i] == pc }

    function Go(i: Tid, pc: Pc): State { this.(th := th[i := pc]) }
  }

  /** fuse_wakeup(hnode): the sleepers start over. */
  function Wake(th: map<Tid, Pc>, n: Nid): map<Tid, Pc> {
    map i | i in th :: if th[i].Asleep? && th[i].n == n then Looking(th[i].c) else th[i]
  }

  datatype Action =
    | Start(i: Tid, key: Key, fork: nat) | TakeTurn(i: Tid)
    | NodeMade(i: Tid, ok: bool) | BufferMade(i: Tid, ok: bool) | GetDone(i: Tid, ok: bool)
    | Succeed(i: Tid) | Fail(i: Tid) | Put(i: Tid)
    | Reclaim(i: Tid, v: Vn) | DetachIt(i: Tid) | ScrubDone(i: Tid)

  function StepStart(s: State, i: Tid, key: Key, fork: nat): Option<State> {
    if !s.At(i, Idle) then None else Some(s.Go(i, Looking(Call(key, fork, false, false))))
  }

  function After(o: Outcome, c: Call): Pc {
    match o
    case NeedNode => MakingNode(c)
    case NeedBuffer => MakingBuffer(c)
    case Grown => Looking(c.(buffer := false))
    case MustWait(n) => Asleep(n, c)
    case AttachTo(n) => Attaching(n, c.key, c.fork)
    case Candidate(n, v) => Getting(n, v, c)
  }

  function StepTurn(s: State, i: Tid): Option<State>
    requires HasTable(s.h)
  {
    if i !in s.th || !s.th[i].Looking? then None
    else
      var c := s.th[i].c;
      var (h, o) := Turn(s.h, c.key, c.fork, c.node, c.buffer);
      var job := if o.AttachTo? then s.job[o.n := i] else s.job;
      Some(s.(h := h, job := job).Go(i, After(o, c)))
  }

  /** A failed allocation ends the call with ENOMEM. */
  function StepNodeMade(s: State, i: Tid, ok: bool): Option<State> {
    if i !in s.th || !s.th[i].MakingNode? then None
    else Some(s.Go(i, if ok then Looking(s.th[i].c.(node := true)) else Idle))
  }

  function StepBufferMade(s: State, i: Tid, ok: bool): Option<State> {
    if i !in s.th || !s.th[i].MakingBuffer? then None
    else Some(s.Go(i, if ok then Looking(s.th[i].c.(buffer := true)) else Idle))
  }

  function StepGetDone(s: State, i: Tid, ok: bool): Option<State> {
    if i !in s.th || !s.th[i].Getting? then None
    else
      var n, v, c := s.th[i].n, s.th[i].v, s.th[i].c;
      if !ok then Some(s.Go(i, Looking(c)))
      else if v !in s.vns || s.vns[v].dying.Some? then None
      else Some(s.(vns := s.vns[v := s.vns[v].(users := s.vns[v].users + {i})]).Go(i, Using(n, v, c.key, c.fork)))
  }

  /** vnode_create has made a vnode: HNodeAttachVNodeSucceeded. */
  function StepSucceed(s: State, i: Tid): Option<State> {
    if i !in s.th || !s.th[i].Attaching? then None
    else
      var n, f, v := s.th[i].n, s.th[i].fork, s.nextVn;
      // the asserts of HNodeAttachComplete and HNodeAttachVNodeSucceeded
      if n !in s.h.nodes || !s.h.nodes[n].attaching || f >= |s.h.nodes[n].slots| || s.h.nodes[n].slots[f] != None then None
      else Some(State(AttachSucceeded(s.h, n, f, v), Wake(s.th[i := Using(n, v, s.th[i].key, f)], n),
                      s.vns[v := Vnode(n, f, {i}, None)], v + 1, s.job - {n}))
  }

  function AfterDecrement(s: State, i: Tid, n: Nid, r: (Hash, bool)): State {
    s.(h := r.0, job := if r.1 then s.job[n := i] else s.job).Go(i, if r.1 then Scrubbing(n) else Idle)
  }

  function StepFail(s: State, i: Tid): Option<State>
    requires HasTable(s.h)
  {
    if i !in s.th || !s.th[i].Attaching? then None
    else
      var n := s.th[i].n;
      if n !in s.h.nodes || !s.h.nodes[n].attaching || s.th[i].fork >= |s.h.nodes[n].slots| || s.h.nodes[n].count == 0
         || s.h.nodeCount == 0 then None
      else
        var s1 := AfterDecrement(s.(job := s.job - {n}), i, n, AttachFailed(s.h, n));
        Some(s1.(th := Wake(s1.th, n)))
  }

  /** vnode_put. */
  function StepPut(s: State, i: Tid): Option<State> {
    if i !in s.th || !s.th[i].Using? || s.th[i].v !in s.vns then None
    else
      var v := s.th[i].v;
      Some(s.(vns := s.vns[v := s.vns[v].(users := s.vns[v].users - {i})]).Go(i, Idle))
  }

  function StepReclaim(s: State, i: Tid, v: Vn): Option<State> {
    if !s.At(i, Idle) || v !in s.vns || s.vns[v].users != {} || s.vns[v].dying.Some? then None
    else Some(s.(vns := s.vns[v := s.vns[v].(dying := Some(i))]).Go(i, Reclaiming(s.vns[v].node, v)))
  }

  /** The search of HNodeDetachVNode; it asserts that the vnode is found. */
  function IndexOf(slots: seq<Option<Vn>>, v: Vn): nat {
    if slots == [] || slots[0] == Some(v) then 0 else 1 + IndexOf(slots[1..], v)
  }

  function StepDetach(s: State, i: Tid): Option<State>
    requires HasTable(s.h)
  {
    if i !in s.th || !s.th[i].Reclaiming? then None
    else
      var n, v := s.th[i].n, s.th[i].v;
      if n !in s.h.nodes || s.h.nodes[n].count == 0 || s.h.nodeCount == 0 then None
      else
        var f := IndexOf(s.h.nodes[n].slots, v);
        if f >= |s.h.nodes[n].slots| then None
        else Some(AfterDecrement(s.(vns := s.vns - {v}), i, n, Detach(s.h, n, f)))
  }

  /** HNodeScrubDone, with its assert that nobody is waiting. */
  function StepScrubDone(s: State, i: Tid): Option<State> {
    if i !in s.th || !s.th[i].Scrubbing? then None
    else
      var n := s.th[i].n;
      if n !in s.h.nodes || s.h.nodes[n].waiting then None
      else Some(s.(h := Free(s.h, n), job := s.job - {n}).Go(i, Idle))
  }

  function Step(s: State, a: Action): Option<State>
    requires HasTable(s.h)
  {
    match a
    case Start(i, key, fork) => StepStart(s, i, key, fork)
    case TakeTurn(i) => StepTurn(s, i)
    case NodeMade(i, ok) => StepNodeMade(s, i, ok)
    case BufferMade(i, ok) => StepBufferMade(s, i, ok)
    case GetDone(i, ok) => StepGetDone(s, i, ok)
    case Succeed(i) => StepSucceed(s, i)
    case Fail(i) => StepFail(s, i)
    case Put(i) => StepPut(s, i)
    case Reclaim(i, v) => StepReclaim(s, i, v)
    case DetachIt(i) => StepDetach(s, i)
    case ScrubDone(i) => StepScrubDone(s, i)
  }

  /** HNodeInit, and threads that have not started. */
  predicate Init(s: State) {
    && HasTable(s.h) && (forall b :: 0 <= b < |s.h.table| ==> s.h.table[b] == [])
    && s.h.nodes == map[] && s.h.nodeCount == 0
    && (forall i :: i in s.th ==> s.th[i] == Idle) && s.vns == map[] && s.job == map[]
  }

  /** The state after a run, if every step of it is possible. */
  function Run(s: State, run: seq<Action>): Option<State> {
    if run == [] then Some(s)
    else
      var last := |run| - 1;
      match Run(s, run[..last])
      case None => None
      case Some(mid) => if HasTable(mid.h) then Step(mid, run[last]) else None
  }
}
