/** The HNode hash of fuse_nodehash.c: what every section that holds gHashMutex does. */
module HashMemory {
  import opened Lists

  type Nid = nat  // address of an HNode
  type Vn = nat   // one incarnation of a vnode: its address together with its vid

  datatype Key = Key(dev: nat, ino: nat)

  /** struct HNode; slots is forkVNodes, count is forkVNodesCount. */
  datatype HNode = HNode(key: Key, attaching: bool, waiting: bool, slots: seq<Option<Vn>>, count: nat)

  /** gHashTable, the HNodes that have not been freed, and gHashNodeCount. */
  datatype Hash = Hash(table: seq<seq<Nid>>, nodes: map<Nid, HNode>, nodeCount: nat, next: Nid)

  const WORD_SPAN: nat := 0x1_0000_0000_0000_0000

  /** HNodeGetFirstFromHashTable: the table's size is a power of two, so masking is %. */
  function BucketOf(size: nat, key: Key): (b: nat)
    requires size > 0
    ensures b < size
  {
    (key.dev + key.ino) % WORD_SPAN % size
  }

  predicate HasTable(h: Hash) { |h.table| > 0 }

  function Chain(h: Hash, key: Key): seq<Nid>
    requires HasTable(h)
  {
    h.table[BucketOf(|h.table|, key)]
  }

  predicate Linked(h: Hash, n: Nid)
    requires HasTable(h)
  {
    n in h.nodes && n in Chain(h, h.nodes[n].key)
  }

  /** The walk along a chain. */
  function Find(q: seq<Nid>, nodes: map<Nid, HNode>, key: Key): Option<Nid> {
    if q == [] then None
    else if q[0] in nodes && nodes[q[0]].key == key then Some(q[0])
    else Find(q[1..], nodes, key)
  }

  function NoVNodes(n: nat): (r: seq<Option<Vn>>)
    ensures |r| == n && forall f :: 0 <= f < n ==> r[f] == None
  {
    seq(n, _ => None)
  }

  function SetNode(h: Hash, n: Nid, x: HNode): Hash { h.(nodes := h.nodes[n := x]) }

  /** A new HNode, with a fork buffer that is just big enough, at the head of its chain. */
  function Insert(h: Hash, key: Key, fork: nat): Hash
    requires HasTable(h)
  {
    Hash(h.table[BucketOf(|h.table|, key) := [h.next] + Chain(h, key)],
         h.nodes[h.next := HNode(key, false, false, NoVNodes(fork + 1), 0)], h.nodeCount + 1, h.next + 1)
  }

  /** How a turn of the loop of HNodeLookupCreatingIfNecessary ends. */
  datatype Outcome =
    | NeedNode                 // drop the mutex and allocate an HNode
    | NeedBuffer               // drop the mutex and allocate a fork buffer
    | Grown                    // the fork buffer has been swapped in
    | MustWait(n: Nid)         // msleep on the HNode
    | AttachTo(n: Nid)         // success without a vnode
    | Candidate(n: Nid, v: Vn) // drop the mutex and try to get the vnode

  function Examine(h: Hash, n: Nid, fork: nat, haveBuffer: bool): (Hash, Outcome)
    requires n in h.nodes
  {
    var x := h.nodes[n];
    if x.attaching then (SetNode(h, n, x.(waiting := true)), MustWait(n))
    else if fork >= |x.slots| then
      if !haveBuffer then (h, NeedBuffer)
      else (SetNode(h, n, x.(slots := x.slots + NoVNodes(fork + 1 - |x.slots|))), Grown)
    else if x.slots[fork] == None then (SetNode(h, n, x.(attaching := true, count := x.count + 1)), AttachTo(n))
    else (h, Candidate(n, x.slots[fork].value))
  }

  function Turn(h: Hash, key: Key, fork: nat, haveNode: bool, haveBuffer: bool): (Hash, Outcome)
    requires HasTable(h)
  {
    match Find(Chain(h, key), h.nodes, key)
    case Some(n) => if n in h.nodes then Examine(h, n, fork, haveBuffer) else (h, NeedNode)
    case None => if haveNode then Examine(Insert(h, key, fork), h.next, fork, haveBuffer) else (h, NeedNode)
  }

  /** HNodeAttachComplete. */
  function AttachComplete(x: HNode): HNode { x.(attaching := false, waiting := false) }

  function Unlink(h: Hash, n: Nid): Hash
    requires HasTable(h) && n in h.nodes && h.nodeCount > 0
  {
    var b := BucketOf(|h.table|, h.nodes[n].key);
    h.(table := h.table[b := Without(h.table[b], n)], nodeCount := h.nodeCount - 1)
  }

  /** HNodeForkVNodeDecrement: true if the HNode is gone and must be scrubbed. */
  function Decrement(h: Hash, n: Nid): (Hash, bool)
    requires HasTable(h) && n in h.nodes && h.nodes[n].count > 0 && h.nodeCount > 0
  {
    var h1 := SetNode(h, n, h.nodes[n].(count := h.nodes[n].count - 1));
    if h1.nodes[n].count == 0 then (Unlink(h1, n), true) else (h1, false)
  }

  function AttachSucceeded(h: Hash, n: Nid, fork: nat, v: Vn): Hash
    requires n in h.nodes && fork < |h.nodes[n].slots|
  {
    var x := AttachComplete(h.nodes[n]);
    SetNode(h, n, x.(slots := x.slots[fork := Some(v)]))
  }

  function AttachFailed(h: Hash, n: Nid): (Hash, bool)
    requires HasTable(h) && n in h.nodes && h.nodes[n].count > 0 && h.nodeCount > 0
  {
    Decrement(SetNode(h, n, AttachComplete(h.nodes[n])), n)
  }

  /** HNodeDetachVNode, once it has found the vnode at index fork. */
  function Detach(h: Hash, n: Nid, fork: nat): (Hash, bool)
    requires HasTable(h) && n in h.nodes && fork < |h.nodes[n].slots| && h.nodes[n].count > 0 && h.nodeCount > 0
  {
    Decrement(SetNode(h, n, h.nodes[n].(slots := h.nodes[n].slots[fork := None])), n)
  }

  /** HNodeScrubDone frees the HNode. */
  function Free(h: Hash, n: Nid): Hash { h.(nodes := h.nodes - {n}) }

  // ---- Counting -------------------------------------------------------------------

  function Filled(slots: seq<Option<Vn>>): nat {
    if slots == [] then 0 else (if slots[0].Some? then 1 else 0) + Filled(slots[1..])
  }

  lemma {:induction false} FilledSplit(a: seq<Option<Vn>>, b: seq<Option<Vn>>)
    ensures Filled(a + b) == Filled(a) + Filled(b)
  {
    if a == [] {
      assert a + b == b;
    } else {
      assert (a + b)[1..] == a[1..] + b;
      FilledSplit(a[1..], b);
    }
  }

  lemma {:induction false} NothingFilled(n: nat)
    ensures Filled(NoVNodes(n)) == 0
  {
    if n > 0 {
      assert NoVNodes(n)[1..] == NoVNodes(n - 1);
      NothingFilled(n - 1);
    }
  }

  /** Replacing one slot changes the count by that slot's share. */
  lemma FilledUpdate(slots: seq<Option<Vn>>, f: nat, x: Option<Vn>)
    requires f < |slots|
    ensures Filled(slots[f := x]) + (if slots[f].Some? then 1 else 0) == Filled(slots) + (if x.Some? then 1 else 0)
  {
    assert slots == slots[..f] + ([slots[f]] + slots[f + 1..]);
    assert slots[f := x] == slots[..f] + ([x] + slots[f + 1..]);
    FilledSplit(slots[..f], [slots[f]] + slots[f + 1..]);
    FilledSplit(slots[..f], [x] + slots[f + 1..]);
  }

  lemma {:induction false} FilledSlot(slots: seq<Option<Vn>>, f: nat)
    requires f < |slots| && slots[f].Some?
    ensures Filled(slots) > 0
  {
    if f > 0 { FilledSlot(slots[1..], f - 1); }
  }

  function Total(table: seq<seq<Nid>>): nat {
    if table == [] then 0 else |table[0]| + Total(table[1..])
  }

  lemma {:induction false} TotalSplit(a: seq<seq<Nid>>, b: seq<seq<Nid>>)
    ensures Total(a + b) == Total(a) + Total(b)
  {
    if a == [] {
      assert a + b == b;
    } else {
      assert (a + b)[1..] == a[1..] + b;
      TotalSplit(a[1..], b);
    }
  }

  lemma TotalUpdate(table: seq<seq<Nid>>, b: nat, q: seq<Nid>)
    requires b < |table|
    ensures Total(table[b := q]) + |table[b]| == Total(table) + |q|
  {
    assert table == table[..b] + ([table[b]] + table[b + 1..]);
    assert table[b := q] == table[..b] + ([q] + table[b + 1..]);
    TotalSplit(table[..b], [table[b]] + table[b + 1..]);
    TotalSplit(table[..b], [q] + table[b + 1..]);
  }

  lemma {:induction false} FindsFirst(q: seq<Nid>, nodes: map<Nid, HNode>, key: Key)
    ensures match Find(q, nodes, key)
            case Some(n) => n in q && n in nodes && nodes[n].key == key
            case None => forall m :: m in q && m in nodes ==> nodes[m].key != key
  {
    if q != [] && !(q[0] in nodes && nodes[q[0]].key == key) {
      FindsFirst(q[1..], nodes, key);
      assert q == [q[0]] + q[1..];
    }
  }
}
