/** The HNode hash as objects: chains, fork arrays and flags updated in place, each section
  * that holds gHashMutex proved to compute its function of HashMemory.
  */
module NodeHash {
  import opened Lists
  import opened HashMemory
  import HashProtocol

  class HNodeCell {
    /** Its address. */
    const id: Nid
    const key: Key
    var attachOutstanding: bool
    var waiting: bool
    var forkVNodes: array<Option<Vn>>
    var forkVNodesCount: nat

    constructor (id: Nid, key: Key, fork: nat)
      ensures this.id == id && this.key == key && fresh(forkVNodes)
      ensures Value() == HNode(key, false, false, NoVNodes(fork + 1), 0)
    {
      this.id, this.key := id, key;
      attachOutstanding, waiting, forkVNodesCount := false, false, 0;
      forkVNodes := new Option<Vn>[fork + 1](_ => None);
      new;
      assert forkVNodes[..] == NoVNodes(fork + 1);
    }

    function Value(): HNode
      reads this, forkVNodes
    {
      HNode(key, attachOutstanding, waiting, forkVNodes[..], forkVNodesCount)
    }

    /** A zeroed buffer that is big enough gets the old contents and takes the old one's place. */
    method SwapBuffer(buffer: array<Option<Vn>>)
      requires forkVNodes.Length <= buffer.Length && buffer != forkVNodes && buffer[..] == NoVNodes(buffer.Length)
      modifies this`forkVNodes, buffer
      ensures forkVNodes == buffer && buffer[..] == old(forkVNodes[..]) + NoVNodes(buffer.Length - old(forkVNodes.Length))
    {
      var k := 0;
      while k < forkVNodes.Length
        invariant k <= forkVNodes.Length
        invariant forkVNodes[..] == old(forkVNodes[..])
        invariant forall f :: 0 <= f < buffer.Length ==> buffer[f] == if f < k then forkVNodes[f] else None
      {
        buffer[k] := forkVNodes[k];
        k := k + 1;
      }
      forkVNodes := buffer;
    }

    /** The search of HNodeDetachVNode and HNodeGetForkIndexForVNode. */
    method ForkIndexOf(v: Vn) returns (f: nat)
      ensures f == HashProtocol.IndexOf(forkVNodes[..], v) && f <= forkVNodes.Length
      ensures f < forkVNodes.Length ==> forkVNodes[f] == Some(v)
    {
      f := 0;
      while f < forkVNodes.Length && forkVNodes[f] != Some(v)
        invariant f <= forkVNodes.Length
        invariant HashProtocol.IndexOf(forkVNodes[..], v) == f + HashProtocol.IndexOf(forkVNodes[f..], v)
      {
        assert forkVNodes[f..][1..] == forkVNodes[f + 1..];
        f := f + 1;
      }
    }

    /** HNodeAttachComplete; true if the sleepers are to be woken. */
    method AttachComplete() returns (wake: bool)
      modifies this`attachOutstanding, this`waiting
      ensures wake == old(waiting) && Value() == HashMemory.AttachComplete(old(Value()))
    {
      attachOutstanding := false;
      wake := waiting;
      if waiting { waiting := false; }
    }
  }

  ghost function Ids(q: seq<HNodeCell>): (r: seq<Nid>)
    ensures |r| == |q| && forall k :: 0 <= k < |q| ==> r[k] == q[k].id
  {
    seq(|q|, k requires 0 <= k < |q| => q[k].id)
  }

  ghost function Rows(t: seq<seq<HNodeCell>>): (r: seq<seq<Nid>>)
    ensures |r| == |t| && forall b :: 0 <= b < |t| ==> r[b] == Ids(t[b])
  {
    seq(|t|, b requires 0 <= b < |t| => Ids(t[b]))
  }

  lemma RowChanged(t: seq<seq<HNodeCell>>, b: nat, q: seq<HNodeCell>)
    requires b < |t|
    ensures Rows(t[b := q]) == Rows(t)[b := Ids(q)]
  {
  }

  class HNodeTable {
    const gHashTable: array<seq<HNodeCell>>
    var gHashNodeCount: nat
    /** Stands for the allocator: the address of the next HNode. */
    var made: Nid
    /** Every HNode ever made, and which of them have not been freed. */
    ghost var known: seq<HNodeCell>
    ghost var live: set<Nid>

    ghost predicate Knows(x: HNodeCell)
      reads this
    {
      x.id < |known| && known[x.id] == x && x.id in live
    }

    ghost predicate RowOk(q: seq<HNodeCell>)
      reads this
    {
      forall x :: x in q ==> Knows(x)
    }

    ghost function Buffers(): set<array<Option<Vn>>>
      reads this, known
    {
      set u | 0 <= u < |known| :: known[u].forkVNodes
    }

    ghost predicate Valid()
      reads this, gHashTable, known
    {
      && gHashTable.Length > 0 && made == |known|
      && (forall u :: 0 <= u < |known| ==> known[u].id == u)
      && (forall u :: u in live ==> u < |known|)
      && (forall u, w :: 0 <= u < w < |known| ==> known[u].forkVNodes != known[w].forkVNodes)
      && (forall b :: 0 <= b < gHashTable.Length ==> RowOk(gHashTable[b]))
    }

    ghost function View(): Hash
      reads this, gHashTable, known, Buffers()
    {
      Hash(Rows(gHashTable[..]), map u | u in live && u < |known| :: known[u].Value(), gHashNodeCount, made)
    }

    /** HNodeInit; hashinit makes the table's size a power of two. */
    constructor (size: nat)
      requires size > 0
      ensures Valid() && fresh(gHashTable)
      ensures View() == Hash(seq(size, _ => []), map[], 0, 0)
    {
      gHashTable := new seq<HNodeCell>[size](_ => []);
      gHashNodeCount, made, known, live := 0, 0, [], {};
    }

    /** The head of the chain, and the walk along it. */
    method FindInChain(key: Key) returns (x: HNodeCell?)
      requires Valid()
      ensures x == null <==> Find(Chain(View(), key), View().nodes, key) == None
      ensures x != null ==> Knows(x) && Find(Chain(View(), key), View().nodes, key) == Some(x.id)
    {
      var chain := gHashTable[BucketOf(gHashTable.Length, key)];
      var k := 0;
      x := null;
      while k < |chain| && chain[k].key != key
        invariant k <= |chain|
        invariant Find(Ids(chain), View().nodes, key) == Find(Ids(chain)[k..], View().nodes, key)
      {
        assert Knows(chain[k]);
        assert Ids(chain)[k..][1..] == Ids(chain)[k + 1..];
        k := k + 1;
      }
      if k < |chain| {
        x := chain[k];
        assert Knows(chain[k]);
      }
    }

    method NewCell(key: Key, fork: nat) returns (x: HNodeCell)
      requires Valid()
      modifies this`made, this`known, this`live
      ensures Valid() && Knows(x) && x.id == old(made) && fresh(x) && fresh(x.forkVNodes) && known == old(known) + [x]
      ensures View() == old(View()).(nodes := old(View()).nodes[x.id := HNode(key, false, false, NoVNodes(fork + 1), 0)],
                                     next := old(made) + 1)
      ensures x.key == key
    {
      x := new HNodeCell(made, key, fork);
      made := made + 1;
      known, live := known + [x], live + {x.id};
      forall b | 0 <= b < gHashTable.Length ensures RowOk(gHashTable[b]) {
        assert old(RowOk(gHashTable[b]));
      }
      assert View().nodes == old(View()).nodes[x.id := x.Value()];
    }

    method SetRow(b: nat, q: seq<HNodeCell>)
      requires Valid() && b < gHashTable.Length && RowOk(q)
      modifies gHashTable
      ensures Valid() && View() == old(View()).(table := old(View()).table[b := Ids(q)])
    {
      RowChanged(gHashTable[..], b, q);
      gHashTable[b] := q;
      assert gHashTable[..] == old(gHashTable[..])[b := q];
      assert forall c :: 0 <= c < gHashTable.Length && c != b ==> gHashTable[c] == old(gHashTable[c]);
    }

    /** LIST_INSERT_HEAD. */
    method LinkHead(x: HNodeCell)
      requires Valid() && Knows(x)
      modifies this`gHashNodeCount, gHashTable
      ensures Valid()
      ensures var h, b := old(View()), BucketOf(gHashTable.Length, x.key);
        View() == h.(table := h.table[b := [x.id] + h.table[b]], nodeCount := h.nodeCount + 1)
    {
      var b := BucketOf(gHashTable.Length, x.key);
      assert Ids([x] + gHashTable[b]) == [x.id] + Ids(gHashTable[b]) && RowOk([x] + gHashTable[b]);
      SetRow(b, [x] + gHashTable[b]);
      gHashNodeCount := gHashNodeCount + 1;
    }

    /** The HNode that the caller has allocated for its key enters the table. */
    method InsertNew(key: Key, fork: nat) returns (x: HNodeCell)
      requires Valid()
      modifies this`gHashNodeCount, this`made, this`known, this`live, gHashTable
      ensures Valid() && Knows(x) && x.id == old(made) && fresh(x) && fresh(x.forkVNodes) && known == old(known) + [x]
      ensures View() == Insert(old(View()), key, fork)
    {
      x := NewCell(key, fork);
      LinkHead(x);
    }

    lemma OneNodeChanged(was: Hash, x: HNodeCell)
      requires Valid() && Knows(x) && was.nodes.Keys == View().nodes.Keys
      requires forall u :: u in live && u != x.id ==> was.nodes[u] == known[u].Value()
      ensures View().nodes == was.nodes[x.id := x.Value()]
    {
    }

    /** A bigger fork buffer is swapped in. */
    method Grow(x: HNodeCell, fork: nat, buffer: array<Option<Vn>>)
      requires Valid() && Knows(x) && x.forkVNodes.Length <= fork
      requires buffer !in Buffers() && buffer.Length == fork + 1 && buffer[..] == NoVNodes(fork + 1)
      modifies x`forkVNodes, buffer
      ensures Valid()
      ensures var h, y := old(View()), old(x.Value());
        View() == SetNode(h, x.id, y.(slots := y.slots + NoVNodes(fork + 1 - |y.slots|)))
    {
      assert x.forkVNodes in Buffers();
      x.SwapBuffer(buffer);
      OneNodeChanged(old(View()), x);
    }

    method WaitOn(x: HNodeCell)
      requires Valid() && Knows(x)
      modifies x`waiting
      ensures Valid() && View() == SetNode(old(View()), x.id, old(x.Value()).(waiting := true))
    {
      x.waiting := true;
      OneNodeChanged(old(View()), x);
    }

    method TakeToken(x: HNodeCell)
      requires Valid() && Knows(x)
      modifies x`attachOutstanding, x`forkVNodesCount
      ensures Valid()
      ensures var y := old(x.Value()); View() == SetNode(old(View()), x.id, y.(attaching := true, count := y.count + 1))
    {
      x.attachOutstanding, x.forkVNodesCount := true, x.forkVNodesCount + 1;
      OneNodeChanged(old(View()), x);
    }

    /** The status checks on the HNode that the lookup has found or inserted. */
    method Status(x: HNodeCell, fork: nat, buffer: array?<Option<Vn>>) returns (o: Outcome)
      requires Valid() && Knows(x)
      requires buffer != null ==>
        buffer !in Buffers() && buffer.Length == fork + 1 && buffer[..] == NoVNodes(fork + 1)
      modifies x, buffer
      ensures Valid() && View() == Examine(old(View()), x.id, fork, buffer != null).0
      ensures o == Examine(old(View()), x.id, fork, buffer != null).1
    {
      if !x.attachOutstanding && fork >= x.forkVNodes.Length {
        if buffer == null {
          o := NeedBuffer;
        } else {
          Grow(x, fork, buffer);
          o := Grown;
        }
      } else {
        if x.attachOutstanding {
          WaitOn(x);
          o := MustWait(x.id);
        } else if x.forkVNodes[fork] == None {
          TakeToken(x);
          o := AttachTo(x.id);
        } else {
          o := Candidate(x.id, x.forkVNodes[fork].value);
        }
      }
    }

    /** One turn of the loop of HNodeLookupCreatingIfNecessary. */
    method LookupTurn(key: Key, fork: nat, haveNode: bool, buffer: array?<Option<Vn>>) returns (o: Outcome)
      requires Valid()
      requires buffer != null ==>
        buffer !in Buffers() && buffer.Length == fork + 1 && buffer[..] == NoVNodes(fork + 1)
      modifies this, gHashTable, known, buffer
      ensures Valid() && View() == Turn(old(View()), key, fork, haveNode, buffer != null).0
      ensures o == Turn(old(View()), key, fork, haveNode, buffer != null).1
    {
      ghost var h := View();
      var x := FindInChain(key);
      assert View() == h;
      if x == null && !haveNode {
        o := NeedNode;
        assert View() == h && Turn(h, key, fork, haveNode, buffer != null) == (h, NeedNode);
      } else if x == null {
        x := InsertNew(key, fork);
        assert buffer != null ==> buffer !in Buffers();
        o := Status(x, fork, buffer);
        assert Turn(h, key, fork, haveNode, buffer != null) == Examine(Insert(h, key, fork), h.next, fork, buffer != null);
      } else {
        assert x.id in h.nodes;
        o := Status(x, fork, buffer);
        assert Turn(h, key, fork, haveNode, buffer != null) == Examine(h, x.id, fork, buffer != null);
      }
    }

    /** HNodeForkVNodeDecrement. */
    method ForkVNodeDecrement(x: HNodeCell) returns (scrubIt: bool)
      requires Valid() && Knows(x) && x.forkVNodesCount > 0 && gHashNodeCount > 0
      modifies this`gHashNodeCount, gHashTable, x`forkVNodesCount
      ensures Valid() && (View(), scrubIt) == Decrement(old(View()), x.id)
    {
      x.forkVNodesCount := x.forkVNodesCount - 1;
      scrubIt := x.forkVNodesCount == 0;
      OneNodeChanged(old(View()), x);
      if scrubIt { UnlinkCell(x); }
    }

    method Remove(q: seq<HNodeCell>, x: HNodeCell) returns (rest: seq<HNodeCell>)
      requires Valid() && Knows(x) && RowOk(q)
      ensures Ids(rest) == Without(Ids(q), x.id) && RowOk(rest)
    {
      var k := 0;
      while k < |q| && q[k] != x
        invariant k <= |q| && forall m :: 0 <= m < k ==> q[m] != x
      {
        k := k + 1;
      }
      CellUnlinked(q, x, k);
      rest := if k < |q| then q[..k] + q[k + 1..] else q;
    }

    /** LIST_REMOVE. */
    method UnlinkCell(x: HNodeCell)
      requires Valid() && Knows(x) && gHashNodeCount > 0
      modifies this`gHashNodeCount, gHashTable
      ensures Valid() && View() == Unlink(old(View()), x.id)
    {
      var b := BucketOf(gHashTable.Length, x.key);
      var rest := Remove(gHashTable[b], x);
      gHashNodeCount := gHashNodeCount - 1;
      assert forall c :: 0 <= c < gHashTable.Length ==> RowOk(gHashTable[c]);
      assert View() == old(View()).(nodeCount := gHashNodeCount);
      SetRow(b, rest);
    }

    lemma CellUnlinked(q: seq<HNodeCell>, x: HNodeCell, k: nat)
      requires Valid() && Knows(x) && k <= |q| && RowOk(q)
      requires (forall m :: 0 <= m < k ==> q[m] != x) && (k < |q| ==> q[k] == x)
      ensures var rest := if k < |q| then q[..k] + q[k + 1..] else q;
        Ids(rest) == Without(Ids(q), x.id) && RowOk(rest)
    {
      forall m | 0 <= m < k ensures Ids(q)[m] != x.id { assert q[m] in q && Knows(q[m]); }
      if k < |q| {
        WithoutAt(Ids(q), k);
        assert Ids(q[..k] + q[k + 1..]) == Ids(q)[..k] + Ids(q)[k + 1..];
      } else {
        WithoutAbsent(Ids(q), x.id);
      }
    }

    /** HNodeAttachVNodeSucceeded, with what its asserts demand. */
    method AttachVNodeSucceeded(x: HNodeCell, fork: nat, v: Vn) returns (wake: bool)
      requires Valid() && Knows(x) && x.attachOutstanding && fork < x.forkVNodes.Length && x.forkVNodes[fork] == None
      modifies x, x.forkVNodes
      ensures Valid() && View() == AttachSucceeded(old(View()), x.id, fork, v) && wake == old(x.waiting)
    {
      wake := x.AttachComplete();
      x.forkVNodes[fork] := Some(v);
      OneNodeChanged(old(View()), x);
    }

    /** HNodeAttachVNodeFailed. */
    method AttachVNodeFailed(x: HNodeCell) returns (scrubIt: bool, wake: bool)
      requires Valid() && Knows(x) && x.attachOutstanding && x.forkVNodesCount > 0 && gHashNodeCount > 0
      modifies this`gHashNodeCount, gHashTable, x
      ensures Valid() && (View(), scrubIt) == AttachFailed(old(View()), x.id) && wake == old(x.waiting)
    {
      wake := x.AttachComplete();
      OneNodeChanged(old(View()), x);
      scrubIt := ForkVNodeDecrement(x);
    }

    /** HNodeDetachVNode; it asserts that the vnode is attached. */
    method DetachVNode(x: HNodeCell, v: Vn) returns (scrubIt: bool)
      requires Valid() && Knows(x) && Some(v) in x.forkVNodes[..] && x.forkVNodesCount > 0 && gHashNodeCount > 0
      modifies this`gHashNodeCount, gHashTable, x, x.forkVNodes
      ensures Valid() && HashProtocol.IndexOf(old(x.forkVNodes[..]), v) < old(x.forkVNodes.Length)
      ensures (View(), scrubIt) == Detach(old(View()), x.id, HashProtocol.IndexOf(old(x.forkVNodes[..]), v))
    {
      var f := x.ForkIndexOf(v);
      Found(x.forkVNodes[..], v);
      x.forkVNodes[f] := None;
      OneNodeChanged(old(View()), x);
      scrubIt := ForkVNodeDecrement(x);
    }

    lemma {:induction false} Found(slots: seq<Option<Vn>>, v: Vn)
      requires Some(v) in slots
      ensures HashProtocol.IndexOf(slots, v) < |slots|
    {
      if slots[0] != Some(v) { Found(slots[1..], v); }
    }
  }
}
