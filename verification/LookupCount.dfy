/** The references that the daemon grants with every entry it returns, and the FORGET
  * messages that give them back, on live vnodes.
  */
module LookupCount {
  const NULL_ID := 0
  const ROOT_ID := 1

  const ENOENT := 2
  const EIO := 5
  const ENOTDIR := 20
  const EINVAL := 22
  const EJUSTRETURN := -2

  type Node = nat

  /** nlookup of every vnode there is; how often the daemon has returned an entry for each
    * node, and the counts it has been sent in FORGETs.
    */
  datatype Refs = Refs(nlookup: map<Node, nat>, granted: map<Node, nat>, forgotten: map<Node, nat>)

  function Count(m: map<Node, nat>, n: Node): nat { if n in m then m[n] else 0 }

  function Add(m: map<Node, nat>, n: Node, k: nat): map<Node, nat> { m[n := Count(m, n) + k] }

  /** An error, or an entry: typed says that its mode has a file type (lookup), or the one that
    * was asked for (mkdir, mknod, symlink).
    */
  datatype Reply = Failed(err: int) | Entry(node: Node, typed: bool)

  /** cn_nameiop: what the name is looked up for. */
  datatype NameiOp = ForLookup | ForCreate | ForDelete | ForRename

  /** The reply says that there is no such name. */
  predicate IsMissing(r: Reply) { if r.Failed? then r.err == ENOENT else r.node == NULL_ID }

  /** A reply with the null node id grants nothing: there is no such entry. */
  function Grant(s: Refs, r: Reply): Refs {
    if r.Entry? && r.node != NULL_ID then s.(granted := Add(s.granted, r.node, 1)) else s
  }

  /** fuse_internal_forget_send. */
  function Forget(s: Refs, n: Node, k: nat): Refs { s.(forgotten := Add(s.forgotten, n, k)) }

  /** fuse_vget_i; got tells whether it yields a vnode. */
  function Keep(s: Refs, n: Node, got: bool): Refs {
    if got then s.(nlookup := Add(s.nlookup, n, 1)) else Forget(s, n, 1)
  }

  datatype Op =
    | Lookup(r: Reply, got: bool)     // fuse_vnop_lookup when it asks with FUSE_LOOKUP
    | DotLookup                       // "." and "..": FUSE_GETATTR, which grants nothing
    | CachedLookup                    // answered by the name cache
    | NewEntry(r: Reply, got: bool)   // fuse_internal_newentry: mkdir, mknod, symlink
    | Reclaim(n: Node)                // fuse_vnop_reclaim

  function DoLookup(s: Refs, r: Reply, got: bool): Refs {
    var s1 := Grant(s, r);
    if r.Failed? || r.node == NULL_ID || r.node == ROOT_ID then s1
    else if !r.typed then Forget(s1, r.node, 1)
    else Keep(s1, r.node, got)
  }

  /** fuse_internal_checkentry. */
  predicate EntryOk(r: Reply) { r.Entry? && r.typed && r.node != NULL_ID && r.node != ROOT_ID }

  function DoNewEntry(s: Refs, r: Reply, got: bool): Refs {
    var s1 := Grant(s, r);
    if !EntryOk(r) then s1 else Keep(s1, r.node, got)
  }

  function DoReclaim(s: Refs, n: Node): Refs {
    if n !in s.nlookup then s
    else
      var s1 := if s.nlookup[n] > 0 then Forget(s, n, s.nlookup[n]) else s;
      s1.(nlookup := s1.nlookup - {n})
  }

  function Do(s: Refs, op: Op): Refs {
    match op
    case Lookup(r, got) => DoLookup(s, r, got)
    case DotLookup => s
    case CachedLookup => s
    case NewEntry(r, got) => DoNewEntry(s, r, got)
    case Reclaim(n) => DoReclaim(s, n)
  }

  // ---- What one operation does ---------------------------------------------------------------

  /** Of all counts only those of node n have changed: so many more references granted, held by its
    * vnode, and given back; isThere tells whether it has a vnode.
    */
  ghost predicate Counts(s: Refs, s': Refs, n: Node, granted: int, held: int, forgotten: int, isThere: bool) {
    && Count(s'.granted, n) == Count(s.granted, n) + granted
    && Count(s'.nlookup, n) == Count(s.nlookup, n) + held && (n in s'.nlookup <==> isThere)
    && Count(s'.forgotten, n) == Count(s.forgotten, n) + forgotten
    && forall m: Node :: m != n ==>
         && Count(s'.granted, m) == Count(s.granted, m) && Count(s'.forgotten, m) == Count(s.forgotten, m)
         && Count(s'.nlookup, m) == Count(s.nlookup, m) && (m in s'.nlookup <==> m in s.nlookup)
  }

  /** A lookup that yields a vnode holds one more reference to it and gives none back. One that gets an
    * entry but no vnode gives its one reference back; the root's is kept by nobody. One without an
    * entry changes nothing.
    */
  lemma LookupDoes(s: Refs, r: Reply, got: bool)
    ensures var s' := Do(s, Lookup(r, got));
      if r.Failed? || r.node == NULL_ID then s' == s
      else if r.node == ROOT_ID then Counts(s, s', ROOT_ID, 1, 0, 0, ROOT_ID in s.nlookup)
      else if r.typed && got then Counts(s, s', r.node, 1, 1, 0, true)
      else Counts(s, s', r.node, 1, 0, 1, r.node in s.nlookup)
  {
  }

  /** The same for mkdir, mknod and symlink, where any entry but the one asked for is kept by nobody. */
  lemma NewEntryDoes(s: Refs, r: Reply, got: bool)
    ensures var s' := Do(s, NewEntry(r, got));
      if r.Failed? || r.node == NULL_ID then s' == s
      else if r.node == ROOT_ID || !r.typed then Counts(s, s', r.node, 1, 0, 0, r.node in s.nlookup)
      else if got then Counts(s, s', r.node, 1, 1, 0, true)
      else Counts(s, s', r.node, 1, 0, 1, r.node in s.nlookup)
  {
  }

  /** A reclaim gives back exactly what the vnode holds. */
  lemma ReclaimDoes(s: Refs, n: Node)
    ensures var s' := Do(s, Reclaim(n));
      if n in s.nlookup then Counts(s, s', n, 0, 0 - Count(s.nlookup, n), Count(s.nlookup, n), false) else s' == s
    ensures Do(s, DotLookup) == s && Do(s, CachedLookup) == s
  {
  }

  // ---- As it runs ------------------------------------------------------------------------

  class FuseMount {
    var nlookup: map<Node, nat>
    var granted: map<Node, nat>
    var forgotten: map<Node, nat>

    constructor ()
      ensures View() == Refs(map[], map[], map[])
    {
      nlookup, granted, forgotten := map[], map[], map[];
    }

    function View(): Refs
      reads this
    {
      Refs(nlookup, granted, forgotten)
    }

    method ForgetSend(n: Node, k: nat)
      modifies this`forgotten
      ensures View() == Forget(old(View()), n, k)
    {
      forgotten := forgotten[n := Count(forgotten, n) + k];
    }

    /** The reply of the daemon, and the reference that comes with it. */
    method Receive(r: Reply)
      modifies this`granted
      ensures View() == Grant(old(View()), r)
    {
      if r.Entry? && r.node != NULL_ID { granted := granted[r.node := Count(granted, r.node) + 1]; }
    }

    /** fuse_vget_i; it fails with the given error, if that is not 0. */
    method Vget(n: Node, err: int)
      modifies this`nlookup
      ensures View() == if err == 0 then Keep(old(View()), n, true) else old(View())
    {
      if err == 0 { nlookup := nlookup[n := Count(nlookup, n) + 1]; }
    }

    /** fuse_vnop_lookup, from the reply on; isLast: the last component of the path, walkable: the
      * vnode is a directory or a link.
      */
    method VnopLookup(r: Reply, verr: int, op: NameiOp, isLast: bool, walkable: bool) returns (err: int)
      modifies this
      ensures View() == Do(old(View()), Lookup(r, verr == 0))
      ensures IsMissing(r) ==> err == if isLast && (op == ForCreate || op == ForRename) then EJUSTRETURN else ENOENT
      ensures r.Failed? && r.err != ENOENT ==> err == if r.err == 0 then EIO else r.err
      ensures r.Entry? && r.node != NULL_ID ==> err == if r.node == ROOT_ID then EINVAL
                                                       else if !r.typed then EIO
                                                       else if verr == 0 && !isLast && !walkable then ENOTDIR
                                                       else verr
      ensures err == 0 ==> r.Entry? && Count(nlookup, r.node) == old(Count(nlookup, r.node)) + 1
      ensures err == 0 ==> forgotten == old(forgotten)
    {
      Receive(r);
      var lookupErr := 0;
      match r {
        case Failed(e) => lookupErr := if e == 0 then EIO else e;
        case Entry(node, typed) =>
          if node == NULL_ID { lookupErr := ENOENT; } else if node == ROOT_ID { lookupErr := EINVAL; }
      }
      if lookupErr != 0 {
        if lookupErr == ENOENT && (op == ForCreate || op == ForRename) && isLast { return EJUSTRETURN; }
        return lookupErr;
      }
      if !r.typed {
        err := EIO;
      } else {
        Vget(r.node, verr);
        err := verr;
      }
      if err != 0 {
        ForgetSend(r.node, 1);
      } else if !isLast && !walkable {
        err := ENOTDIR;
      }
    }

    /** fuse_internal_newentry_core. */
    method InternalNewEntry(r: Reply, verr: int) returns (err: int)
      modifies this
      ensures View() == Do(old(View()), NewEntry(r, verr == 0))
      ensures r.Failed? ==> err == if r.err == 0 then EIO else r.err
      ensures r.Entry? ==> err == if EntryOk(r) then verr else EINVAL
      ensures err == 0 ==> r.Entry? && Count(nlookup, r.node) == old(Count(nlookup, r.node)) + 1
      ensures err == 0 ==> forgotten == old(forgotten)
    {
      Receive(r);
      if r.Failed? { return if r.err == 0 then EIO else r.err; }
      if !r.typed || r.node == NULL_ID || r.node == ROOT_ID { return EINVAL; }
      Vget(r.node, verr);
      err := verr;
      if err != 0 { ForgetSend(r.node, 1); }
    }

    /** fuse_vnop_reclaim. */
    method VnopReclaim(n: Node)
      requires n in nlookup
      modifies this
      ensures View() == Do(old(View()), Reclaim(n)) && n !in nlookup
      ensures Count(forgotten, n) == old(Count(forgotten, n)) + old(nlookup)[n]
    {
      if nlookup[n] != 0 { ForgetSend(n, nlookup[n]); }
      nlookup := nlookup - {n};
    }
  }

  // ---- Conservation ----------------------------------------------------------------------------

  /** For every node: what the daemon has granted is what a vnode holds and what has been
    * given back.
    */
  ghost predicate Conserved(s: Refs) {
    forall n: Node :: Count(s.granted, n) == Count(s.nlookup, n) + Count(s.forgotten, n)
  }

  /** A reference that is taken and neither kept nor given back: an entry that a lookup
    * rejects because it is the root, or that mkdir, mknod or symlink reject at all.
    */
  predicate Leaks(op: Op) {
    match op
    case Lookup(r, got) => r.Entry? && r.node == ROOT_ID
    case NewEntry(r, got) => r.Entry? && r.node != NULL_ID && !EntryOk(r)
    case _ => false
  }

  lemma ReclaimConserves(s: Refs, n: Node)
    requires Conserved(s)
    ensures Conserved(DoReclaim(s, n))
  {
    var s' := DoReclaim(s, n);
    forall i: Node ensures Count(s'.granted, i) == Count(s'.nlookup, i) + Count(s'.forgotten, i) {
      assert Count(s.granted, i) == Count(s.nlookup, i) + Count(s.forgotten, i);
    }
  }

  /** An entry is kept or given back at once. */
  lemma KeepConserves(s: Refs, r: Reply, got: bool)
    requires Conserved(s) && r.Entry? && r.node != NULL_ID
    ensures Conserved(Keep(Grant(s, r), r.node, got))
  {
    var s' := Keep(Grant(s, r), r.node, got);
    forall i: Node ensures Count(s'.granted, i) == Count(s'.nlookup, i) + Count(s'.forgotten, i) {
      assert Count(s.granted, i) == Count(s.nlookup, i) + Count(s.forgotten, i);
    }
  }

  lemma LeakUnbalances(s: Refs, n: Node)
    requires Conserved(s) && n != NULL_ID
    ensures !Conserved(s.(granted := Add(s.granted, n, 1)))
  {
    var s' := s.(granted := Add(s.granted, n, 1));
    assert Count(s.granted, n) == Count(s.nlookup, n) + Count(s.forgotten, n);
    assert Count(s'.granted, n) == Count(s'.nlookup, n) + Count(s'.forgotten, n) + 1;
  }

  /** The references are conserved by exactly the operations that do not leak. */
  lemma ConservedExactly(s: Refs, op: Op)
    requires Conserved(s)
    ensures Conserved(Do(s, op)) <==> !Leaks(op)
  {
    match op
    case Lookup(r, got) =>
      if Leaks(op) { LeakUnbalances(s, r.node); }
      else if r.Entry? && r.node != NULL_ID { KeepConserves(s, r, got && r.typed); }
    case NewEntry(r, got) =>
      if Leaks(op) { LeakUnbalances(s, r.node); } else if EntryOk(r) { KeepConserves(s, r, got); }
    case Reclaim(n) => ReclaimConserves(s, n);
    case _ =>
  }

  function Run(ops: seq<Op>): Refs {
    if ops == [] then Refs(map[], map[], map[]) else Do(Run(ops[..|ops| - 1]), ops[|ops| - 1])
  }

  /** How many references to node n the replies of a run have leaked. */
  function Leaked(ops: seq<Op>, n: Node): nat {
    if ops == [] then 0 else Leaked(ops[..|ops| - 1], n) + LeakedBy(ops[|ops| - 1], n)
  }

  function LeakedBy(op: Op, n: Node): nat {
    if Leaks(op) && op.r.node == n then 1 else 0
  }

  /** What has been granted and is neither held by a vnode nor given back. */
  function Missing(s: Refs, n: Node): int {
    Count(s.granted, n) - Count(s.nlookup, n) - Count(s.forgotten, n)
  }

  lemma KeptIsNotMissing(s: Refs, r: Reply, got: bool, n: Node)
    requires r.Entry? && r.node != NULL_ID
    ensures Missing(Keep(Grant(s, r), r.node, got), n) == Missing(s, n)
  {
  }

  lemma ReclaimedIsNotMissing(s: Refs, m: Node, n: Node)
    ensures Missing(DoReclaim(s, m), n) == Missing(s, n)
  {
  }

  lemma GrantedIsMissing(s: Refs, r: Reply, n: Node)
    requires r.Entry? && r.node != NULL_ID
    ensures Missing(Grant(s, r), n) == Missing(s, n) + if n == r.node then 1 else 0
  {
  }

  lemma OpLeaks(s: Refs, op: Op, n: Node)
    ensures Missing(Do(s, op), n) == Missing(s, n) + LeakedBy(op, n)
  {
    match op
    case Lookup(r, got) =>
      if Leaks(op) { GrantedIsMissing(s, r, n); }
      else if r.Entry? && r.node != NULL_ID { KeptIsNotMissing(s, r, got && r.typed, n); }
    case NewEntry(r, got) =>
      if Leaks(op) { GrantedIsMissing(s, r, n); } else if EntryOk(r) { KeptIsNotMissing(s, r, got, n); }
    case Reclaim(m) => ReclaimedIsNotMissing(s, m, n);
    case _ =>
  }

  /** Over every run and for every node: the references granted are those a vnode holds, those
    * given back, and one for each leaking reply.
    */
  lemma {:induction false} RunLeaksExactly(ops: seq<Op>, n: Node)
    ensures Count(Run(ops).granted, n) == Count(Run(ops).nlookup, n) + Count(Run(ops).forgotten, n) + Leaked(ops, n)
  {
    if ops != [] {
      RunLeaksExactly(ops[..|ops| - 1], n);
      OpLeaks(Run(ops[..|ops| - 1]), ops[|ops| - 1], n);
    }
  }

  predicate LeakFree(ops: seq<Op>) {
    forall op {:trigger op in ops} :: op in ops ==> !Leaks(op)
  }

  lemma LeakFreeSplits(ops: seq<Op>, op: Op)
    ensures LeakFree(ops + [op]) <==> LeakFree(ops) && !Leaks(op)
  {
    assert forall o :: o in ops + [op] <==> o in ops || o == op;
    if LeakFree(ops + [op]) {
      assert op in ops + [op];
      forall o | o in ops ensures !Leaks(o) { assert o in ops + [op]; }
    }
  }

  lemma {:induction false} LeaksNothingExactly(ops: seq<Op>)
    ensures (forall n: Node :: Leaked(ops, n) == 0) <==> LeakFree(ops)
  {
    if ops != [] {
      var before, op := ops[..|ops| - 1], ops[|ops| - 1];
      LeaksNothingExactly(before);
      LeakFreeSplits(before, op);
      assert ops == before + [op];
      forall n: Node ensures Leaked(ops, n) == Leaked(before, n) + LeakedBy(op, n) { }
      if Leaks(op) {
        assert Leaked(ops, op.r.node) > 0;
      } else if LeakFree(before) {
        forall n: Node ensures Leaked(ops, n) == 0 { assert Leaked(before, n) == 0; }
      } else {
        var n: Node :| Leaked(before, n) != 0;
        assert Leaked(ops, n) != 0;
      }
    }
  }

  /** A run conserves the references of every node if and only if none of its replies leaks. */
  lemma RunConserves(ops: seq<Op>)
    ensures Conserved(Run(ops)) <==> LeakFree(ops)
  {
    LeaksNothingExactly(ops);
    var s := Run(ops);
    if LeakFree(ops) {
      forall n: Node ensures Count(s.granted, n) == Count(s.nlookup, n) + Count(s.forgotten, n) {
        RunLeaksExactly(ops, n);
        assert Leaked(ops, n) == 0;
      }
    } else {
      var n: Node :| Leaked(ops, n) != 0;
      RunLeaksExactly(ops, n);
    }
  }

  /** When a node has no vnode left, the daemon has been given back what it has granted, except
    * for what has leaked.
    */
  lemma AllGivenBack(ops: seq<Op>, n: Node)
    requires n !in Run(ops).nlookup
    ensures Count(Run(ops).forgotten, n) + Leaked(ops, n) == Count(Run(ops).granted, n)
  {
    RunLeaksExactly(ops, n);
  }

  /** No FORGET ever exceeds what has been granted. */
  lemma NeverForgetsTooMuch(ops: seq<Op>, n: Node)
    ensures Count(Run(ops).forgotten, n) <= Count(Run(ops).granted, n)
  {
    RunLeaksExactly(ops, n);
  }
}
