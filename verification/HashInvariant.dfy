/** What holds in the HNode hash whenever gHashMutex is free. */
module HashInvariant {
  import opened Lists
  import opened HashMemory
  import opened HashProtocol

  ghost predicate ChainOk(h: Hash, b: nat)
    requires b < |h.table|
  {
    && NoDup(h.table[b])
    && forall n :: n in h.table[b] ==> n in h.nodes && BucketOf(|h.table|, h.nodes[n].key) == b
  }

  ghost predicate TableOk(h: Hash) {
    && HasTable(h)
    && (forall b {:trigger ChainOk(h, b)} :: 0 <= b < |h.table| ==> ChainOk(h, b))
    && h.nodeCount == Total(h.table)
    && (forall n :: n in h.nodes ==> n < h.next)
  }

  ghost predicate Apart(h: Hash, m: Nid, n: Nid)
    requires HasTable(h)
  {
    Linked(h, m) && Linked(h, n) && h.nodes[m].key == h.nodes[n].key ==> m == n
  }

  /** At most one HNode in the table for each (dev, ino). */
  ghost predicate UniqueOk(h: Hash)
    requires HasTable(h)
  {
    forall m, n {:trigger Apart(h, m, n)} :: Apart(h, m, n)
  }

  ghost predicate NodeOk(s: State, n: Nid)
    requires HasTable(s.h) && n in s.h.nodes
  {
    var x := s.h.nodes[n];
    && |x.slots| > 0
    && (Linked(s.h, n) <==> x.count > 0)
    && x.count == Filled(x.slots) + One(x.attaching)
    && (x.waiting ==> x.attaching)
    && (x.attaching || x.count == 0 ==> n in s.job && s.job[n] in s.th)
    && (x.attaching ==> s.th[s.job[n]].Attaching? && s.th[s.job[n]].n == n)
    && (x.count == 0 ==> s.th[s.job[n]] == Scrubbing(n))
    && (forall f :: 0 <= f < |x.slots| && x.slots[f].Some? ==>
          x.slots[f].value in s.vns && s.vns[x.slots[f].value].node == n && s.vns[x.slots[f].value].fork == f)
  }

  ghost predicate VnodeOk(s: State, v: Vn)
    requires v in s.vns
  {
    var y := s.vns[v];
    && v < s.nextVn && y.node in s.h.nodes && y.fork < |s.h.nodes[y.node].slots|
    && s.h.nodes[y.node].slots[y.fork] == Some(v)
    && (y.dying.Some? ==> y.users == {} && s.At(y.dying.value, Reclaiming(y.node, v)))
  }

  ghost predicate ThreadOk(s: State, i: Tid)
    requires HasTable(s.h) && i in s.th
  {
    match s.th[i]
    case Asleep(n, c) => n in s.h.nodes && s.h.nodes[n].waiting && s.h.nodes[n].attaching && s.h.nodes[n].key == c.key
    case Getting(n, v, c) =>
      && v < s.nextVn && (v in s.vns ==> s.vns[v].node == n && s.vns[v].fork == c.fork)
      && n < s.h.next && (n in s.h.nodes ==> s.h.nodes[n].key == c.key)
    case Attaching(n, key, f) =>
      && n in s.h.nodes && s.h.nodes[n].key == key && s.h.nodes[n].attaching && n in s.job && s.job[n] == i
      && f < |s.h.nodes[n].slots| && s.h.nodes[n].slots[f] == None
    case Using(n, v, key, f) =>
      && v in s.vns && s.vns[v].node == n && s.vns[v].fork == f && i in s.vns[v].users
      && n in s.h.nodes && s.h.nodes[n].key == key
    case Reclaiming(n, v) => v in s.vns && s.vns[v].node == n && s.vns[v].dying == Some(i)
    case Scrubbing(n) => n in s.h.nodes && s.h.nodes[n].count == 0 && n in s.job && s.job[n] == i
    case _ => true
  }

  ghost predicate Good(s: State) {
    && TableOk(s.h) && UniqueOk(s.h)
    && (forall n {:trigger NodeOk(s, n)} :: n in s.h.nodes ==> NodeOk(s, n))
    && (forall v {:trigger VnodeOk(s, v)} :: v in s.vns ==> VnodeOk(s, v))
    && (forall i {:trigger ThreadOk(s, i)} :: i in s.th ==> ThreadOk(s, i))
  }

  lemma InitIsGood(s: State)
    requires Init(s)
    ensures Good(s)
  {
    EmptyTotal(s.h.table);
  }

  lemma {:induction false} EmptyTotal(table: seq<seq<Nid>>)
    requires forall b :: 0 <= b < |table| ==> table[b] == []
    ensures Total(table) == 0
  {
    if table != [] { EmptyTotal(table[1..]); }
  }

  // ---- A step concerns one thread and one HNode ----------------------------------------

  predicate OnlyAt(pc: Pc, n: Nid) {
    pc.Idle? || pc.Looking? || pc.MakingNode? || pc.MakingBuffer? || pc.n == n
  }

  ghost predicate Local(s: State, s': State, i: Tid, n: Nid) {
    && HasTable(s.h) && |s'.h.table| == |s.h.table|
    && i in s.th && s'.th.Keys == s.th.Keys && OnlyAt(s.th[i], n) && OnlyAt(s'.th[i], n)
    && (forall j {:trigger s'.th[j]} :: j in s.th && j != i ==>
          s'.th[j] == s.th[j] || (s.th[j].Asleep? && s.th[j].n == n && s'.th[j] == Looking(s.th[j].c)))
    && (forall m :: m != n ==> (m in s'.h.nodes <==> m in s.h.nodes) && (m in s'.job <==> m in s.job))
    && (forall m :: m != n && m in s.h.nodes ==> s'.h.nodes[m] == s.h.nodes[m] && (Linked(s'.h, m) <==> Linked(s.h, m)))
    && (forall m :: m != n && m in s.job ==> s'.job[m] == s.job[m])
    && s.nextVn <= s'.nextVn && s.h.next <= s'.h.next
    && (forall v :: v in s.vns && s.vns[v].node != n ==> v in s'.vns && s'.vns[v] == s.vns[v])
    && (forall v :: v in s'.vns && v !in s.vns ==> s.nextVn <= v && s'.vns[v].node == n)
    && (forall v :: v in s'.vns && v in s.vns ==> s'.vns[v].node == s.vns[v].node && s'.vns[v].fork == s.vns[v].fork)
  }

  lemma NodeFrame(s: State, s': State, i: Tid, n: Nid, m: Nid)
    requires Local(s, s', i, n) && m != n && m in s.h.nodes && NodeOk(s, m)
    ensures NodeOk(s', m)
  {
  }

  lemma VnodeFrame(s: State, s': State, i: Tid, n: Nid, v: Vn)
    requires Local(s, s', i, n) && v in s.vns && s.vns[v].node != n && VnodeOk(s, v)
    ensures VnodeOk(s', v)
  {
  }

  lemma ThreadFrame(s: State, s': State, i: Tid, n: Nid, j: Tid)
    requires Local(s, s', i, n) && j != i && j in s.th && ThreadOk(s, j)
    requires OnlyAt(s.th[j], n) ==> s.th[j].Idle? || s.th[j].Looking? || s.th[j].MakingNode? || s.th[j].MakingBuffer?
    ensures ThreadOk(s', j)
  {
  }

  ghost predicate Has(pc: Pc, n: Nid) {
    (pc.Asleep? || pc.Getting? || pc.Attaching? || pc.Using? || pc.Reclaiming? || pc.Scrubbing?) && pc.n == n
  }

  /** What is left to show about such a step. */
  ghost predicate Settled(s: State, s': State, i: Tid, n: Nid) {
    && Local(s, s', i, n) && TableOk(s'.h) && UniqueOk(s'.h) && ThreadOk(s', i)
    && (n in s'.h.nodes ==> NodeOk(s', n))
    && (forall v {:trigger VnodeOk(s', v)} :: v in s'.vns && s'.vns[v].node == n ==> VnodeOk(s', v))
    && (forall j {:trigger ThreadOk(s', j)} :: j in s'.th && j != i && Has(s.th[j], n) ==> ThreadOk(s', j))
  }

  lemma Assemble(s: State, s': State, i: Tid, n: Nid)
    requires Good(s) && Settled(s, s', i, n)
    ensures Good(s')
  {
    forall m | m in s'.h.nodes ensures NodeOk(s', m) {
      assert m != n ==> NodeOk(s, m);
      if m != n { NodeFrame(s, s', i, n, m); }
    }
    forall v | v in s'.vns ensures VnodeOk(s', v) {
      if s'.vns[v].node != n {
        assert VnodeOk(s, v);
        VnodeFrame(s, s', i, n, v);
      }
    }
    forall j | j in s'.th ensures ThreadOk(s', j) {
      if j != i && !Has(s.th[j], n) {
        assert ThreadOk(s, j);
        ThreadFrame(s, s', i, n, j);
      }
    }
  }

  // ---- The table ---------------------------------------------------------------------------

  /** No HNode is linked, unlinked or renamed. */
  lemma SameLinks(h: Hash, h': Hash)
    requires TableOk(h) && UniqueOk(h)
    requires h'.table == h.table && h'.nodeCount == h.nodeCount && h'.next == h.next
    requires h'.nodes.Keys == h.nodes.Keys && forall n :: n in h.nodes ==> h'.nodes[n].key == h.nodes[n].key
    ensures TableOk(h') && UniqueOk(h') && forall n :: n in h.nodes ==> (Linked(h', n) <==> Linked(h, n))
  {
    forall b | 0 <= b < |h'.table| ensures ChainOk(h', b) { assert ChainOk(h, b); }
    forall m, n ensures Apart(h', m, n) { assert Apart(h, m, n); }
  }

  lemma InsertKeepsTable(h: Hash, key: Key, fork: nat)
    requires TableOk(h) && UniqueOk(h)
    requires forall n :: Linked(h, n) ==> h.nodes[n].key != key
    ensures var h' := Insert(h, key, fork);
      && TableOk(h') && UniqueOk(h') && Linked(h', h.next) && h.next !in h.nodes
      && forall n :: n in h.nodes ==> (Linked(h', n) <==> Linked(h, n))
  {
    var h' := Insert(h, key, fork);
    var k := BucketOf(|h.table|, key);
    TotalUpdate(h.table, k, [h.next] + h.table[k]);
    assert h.next !in h.nodes;
    assert ChainOk(h, k);
    assert forall n :: n in [h.next] + h.table[k] <==> n == h.next || n in h.table[k];
    forall b | 0 <= b < |h'.table| ensures ChainOk(h', b) { assert ChainOk(h, b); }
    forall n | n in h.nodes ensures Linked(h', n) <==> Linked(h, n) {
      assert BucketOf(|h.table|, h.nodes[n].key) != k ==> Chain(h', h.nodes[n].key) == Chain(h, h.nodes[n].key);
    }
    forall m, n ensures Apart(h', m, n) { assert Apart(h, m, n); }
  }

  lemma UnlinkKeepsTable(h: Hash, n: Nid)
    requires TableOk(h) && UniqueOk(h) && Linked(h, n) && h.nodeCount > 0
    ensures var h' := Unlink(h, n);
      && TableOk(h') && UniqueOk(h') && !Linked(h', n)
      && forall m :: m in h.nodes && m != n ==> (Linked(h', m) <==> Linked(h, m))
  {
    var h' := Unlink(h, n);
    var k := BucketOf(|h.table|, h.nodes[n].key);
    assert ChainOk(h, k);
    WithoutMembers(h.table[k], n);
    TotalUpdate(h.table, k, Without(h.table[k], n));
    forall b | 0 <= b < |h'.table| ensures ChainOk(h', b) { assert ChainOk(h, b); }
    forall m | m in h.nodes && m != n ensures Linked(h', m) <==> Linked(h, m) {
      assert BucketOf(|h.table|, h.nodes[m].key) != k ==> Chain(h', h.nodes[m].key) == Chain(h, h.nodes[m].key);
    }
    forall l, m ensures Apart(h', l, m) { assert Apart(h, l, m); }
  }

  lemma FreeKeepsTable(h: Hash, n: Nid)
    requires TableOk(h) && UniqueOk(h) && n in h.nodes && !Linked(h, n)
    ensures TableOk(Free(h, n)) && UniqueOk(Free(h, n))
    ensures forall m :: m in h.nodes && m != n ==> (Linked(Free(h, n), m) <==> Linked(h, m))
  {
    var h' := Free(h, n);
    forall b | 0 <= b < |h'.table| ensures ChainOk(h', b) { assert ChainOk(h, b); }
    forall l, m ensures Apart(h', l, m) { assert Apart(h, l, m); }
  }

  lemma {:induction false} LinkedIsCounted(table: seq<seq<Nid>>, b: nat, n: Nid)
    requires b < |table| && n in table[b]
    ensures Total(table) > 0
  {
    if b > 0 { LinkedIsCounted(table[1..], b - 1, n); }
  }

  // ---- One lemma for every kind of step ------------------------------------------------------

  /** A thread with nothing to its name moves on. */
  lemma MoveKeeps(s: State, i: Tid, pc: Pc)
    requires Good(s) && i in s.th
    requires s.th[i].Idle? || s.th[i].Looking? || s.th[i].MakingNode? || s.th[i].MakingBuffer? || s.th[i].Getting?
    requires ThreadOk(s.Go(i, pc), i)
    ensures Good(s.Go(i, pc))
  {
    var s' := s.Go(i, pc);
    forall n | n in s'.h.nodes ensures NodeOk(s', n) { assert NodeOk(s, n); }
    forall v | v in s'.vns ensures VnodeOk(s', v) { assert VnodeOk(s, v); }
    forall j | j in s'.th ensures ThreadOk(s', j) { assert j != i ==> ThreadOk(s, j); }
  }

  /** A lookup goes to sleep on an HNode whose attach is outstanding. */
  lemma WaitKeeps(s: State, i: Tid, n: Nid, c: Call, s': State)
    requires Good(s) && i in s.th && s.th[i] == Looking(c) && n in s.h.nodes && s.h.nodes[n].key == c.key
    requires s.h.nodes[n].attaching
    requires s' == s.(h := SetNode(s.h, n, s.h.nodes[n].(waiting := true))).Go(i, Asleep(n, c))
    ensures Good(s')
  {
    assert NodeOk(s, n);
    SameLinks(s.h, s'.h);
    forall v | v in s'.vns && s'.vns[v].node == n ensures VnodeOk(s', v) { assert VnodeOk(s, v); }
    forall j | j in s'.th && j != i && Has(s.th[j], n) ensures ThreadOk(s', j) { assert ThreadOk(s, j); }
    assert Settled(s, s', i, n);
    Assemble(s, s', i, n);
  }

  /** The bigger fork buffer replaces the old one: every vnode keeps its index. */
  function Grow(x: HNode, fork: nat): HNode
    requires |x.slots| <= fork
  {
    x.(slots := x.slots + NoVNodes(fork + 1 - |x.slots|))
  }

  lemma GrowSettles(s: State, i: Tid, n: Nid, fork: nat, pc: Pc, s': State)
    requires HasTable(s.h) && i in s.th && s.th[i].Looking? && pc.Looking? && n in s.h.nodes && NodeOk(s, n)
    requires |s.h.nodes[n].slots| <= fork && s' == s.(h := SetNode(s.h, n, Grow(s.h.nodes[n], fork))).Go(i, pc)
    requires Linked(s'.h, n) <==> Linked(s.h, n)
    ensures NodeOk(s', n)
  {
    var more := fork + 1 - |s.h.nodes[n].slots|;
    FilledSplit(s.h.nodes[n].slots, NoVNodes(more));
    NothingFilled(more);
  }

  lemma GrowKeeps(s: State, i: Tid, n: Nid, fork: nat, pc: Pc, s': State)
    requires Good(s) && i in s.th && s.th[i].Looking? && pc.Looking? && n in s.h.nodes
    requires |s.h.nodes[n].slots| <= fork && s' == s.(h := SetNode(s.h, n, Grow(s.h.nodes[n], fork))).Go(i, pc)
    ensures Good(s')
  {
    assert NodeOk(s, n);
    SameLinks(s.h, s'.h);
    GrowSettles(s, i, n, fork, pc, s');
    forall v | v in s'.vns && s'.vns[v].node == n ensures VnodeOk(s', v) { assert VnodeOk(s, v); }
    forall j | j in s'.th && j != i && Has(s.th[j], n) ensures ThreadOk(s', j) { assert ThreadOk(s, j); }
    Assemble(s, s', i, n);
  }

  /** The attach token is handed out. */
  lemma AttachKeeps(s: State, i: Tid, n: Nid, c: Call, s': State)
    requires Good(s) && i in s.th && s.th[i] == Looking(c) && n in s.h.nodes && Linked(s.h, n) && s.h.nodes[n].key == c.key
    requires var x := s.h.nodes[n];
      && !x.attaching && c.fork < |x.slots| && x.slots[c.fork] == None
      && s' == s.(h := SetNode(s.h, n, x.(attaching := true, count := x.count + 1)), job := s.job[n := i])
                .Go(i, Attaching(n, c.key, c.fork))
    ensures Good(s')
  {
    assert NodeOk(s, n);
    SameLinks(s.h, s'.h);
    forall v | v in s'.vns && s'.vns[v].node == n ensures VnodeOk(s', v) { assert VnodeOk(s, v); }
    forall j | j in s'.th && j != i && Has(s.th[j], n) ensures ThreadOk(s', j) { assert ThreadOk(s, j); }
    assert Settled(s, s', i, n);
    Assemble(s, s', i, n);
  }

  /** Nobody has anything to do with an HNode that does not exist. */
  lemma NothingAt(s: State, n: Nid)
    requires Good(s) && n !in s.h.nodes
    ensures forall v :: v in s.vns ==> s.vns[v].node != n
    ensures forall j :: j in s.th && Has(s.th[j], n) ==> s.th[j].Getting?
  {
    forall v | v in s.vns ensures s.vns[v].node != n { assert VnodeOk(s, v); }
    forall j | j in s.th && Has(s.th[j], n) ensures s.th[j].Getting? { assert ThreadOk(s, j); }
  }

  lemma InsertStays(s: State, i: Tid, c: Call, s': State)
    requires HasTable(s.h) && i in s.th && s.th[i] == Looking(c) && s.h.next !in s.h.nodes
    requires var n, h := s.h.next, Insert(s.h, c.key, c.fork);
      && s' == s.(h := SetNode(h, n, h.nodes[n].(attaching := true, count := 1)), job := s.job[n := i])
                .Go(i, Attaching(n, c.key, c.fork))
      && forall m :: m in s.h.nodes ==> (Linked(s'.h, m) <==> Linked(s.h, m))
    ensures Local(s, s', i, s.h.next)
  {
  }

  lemma InsertedIsOk(s: State, i: Tid, c: Call, s': State)
    requires HasTable(s.h) && i in s.th && s.th[i] == Looking(c) && s.h.next !in s.h.nodes
    requires var n, h := s.h.next, Insert(s.h, c.key, c.fork);
      && s' == s.(h := SetNode(h, n, h.nodes[n].(attaching := true, count := 1)), job := s.job[n := i])
                .Go(i, Attaching(n, c.key, c.fork))
    requires HasTable(s'.h) && Linked(s'.h, s.h.next)
    ensures NodeOk(s', s.h.next) && ThreadOk(s', i)
  {
    NothingFilled(c.fork + 1);
  }

  /** A new HNode enters the table with the attach token already taken. */
  lemma InsertKeeps(s: State, i: Tid, c: Call, s': State)
    requires Good(s) && i in s.th && s.th[i] == Looking(c)
    requires forall n :: Linked(s.h, n) ==> s.h.nodes[n].key != c.key
    requires var n, h := s.h.next, Insert(s.h, c.key, c.fork);
      s' == s.(h := SetNode(h, n, h.nodes[n].(attaching := true, count := 1)), job := s.job[n := i])
             .Go(i, Attaching(n, c.key, c.fork))
    ensures Good(s')
  {
    var n, h := s.h.next, Insert(s.h, c.key, c.fork);
    InsertKeepsTable(s.h, c.key, c.fork);
    SameLinks(h, s'.h);
    InsertStays(s, i, c, s');
    InsertedIsOk(s, i, c, s');
    NothingAt(s, n);
    forall j | j in s'.th && j != i && Has(s.th[j], n) ensures ThreadOk(s', j) { assert ThreadOk(s, j); }
    Assemble(s, s', i, n);
  }

  lemma TurnKeeps(s: State, i: Tid, s': State)
    requires Good(s) && StepTurn(s, i) == Some(s')
    ensures Good(s')
  {
    var c := s.th[i].c;
    var q := Chain(s.h, c.key);
    FindsFirst(q, s.h.nodes, c.key);
    var (h, o) := Turn(s.h, c.key, c.fork, c.node, c.buffer);
    match Find(q, s.h.nodes, c.key)
    case None =>
      assert forall n :: Linked(s.h, n) && s.h.nodes[n].key == c.key ==> n in q;
      if c.node { InsertKeeps(s, i, c, s'); } else { MoveKeeps(s, i, MakingNode(c)); }
    case Some(n) =>
      var x := s.h.nodes[n];
      assert NodeOk(s, n) && Linked(s.h, n);
      if x.attaching { WaitKeeps(s, i, n, c, s'); }
      else if c.fork >= |x.slots| {
        if c.buffer { GrowKeeps(s, i, n, c.fork, s'.th[i], s'); } else { MoveKeeps(s, i, MakingBuffer(c)); }
      } else if x.slots[c.fork] == None { AttachKeeps(s, i, n, c, s'); }
      else {
        var v := x.slots[c.fork].value;
        assert VnodeOk(s, v);
        MoveKeeps(s, i, Getting(n, v, c));
      }
  }

  lemma GotStays(s: State, i: Tid, s': State)
    requires StepGetDone(s, i, true) == Some(s') && HasTable(s.h)
    requires s.th[i].v in s.vns ==> s.vns[s.th[i].v].node == s.th[i].n
    requires forall m :: m in s.h.nodes ==> (Linked(s'.h, m) <==> Linked(s.h, m))
    ensures Local(s, s', i, s.th[i].n)
  {
  }

  lemma GotKeeps(s: State, i: Tid, s': State)
    requires Good(s) && StepGetDone(s, i, true) == Some(s')
    ensures Good(s')
  {
    var n, v := s.th[i].n, s.th[i].v;
    assert ThreadOk(s, i) && VnodeOk(s, v) && NodeOk(s, n);
    SameLinks(s.h, s'.h);
    GotStays(s, i, s');
    forall w | w in s'.vns && s'.vns[w].node == n ensures VnodeOk(s', w) { assert VnodeOk(s, w); }
    forall j | j in s'.th && j != i && Has(s.th[j], n) ensures ThreadOk(s', j) { assert ThreadOk(s, j); }
    Assemble(s, s', i, n);
  }

  lemma GetKeeps(s: State, i: Tid, ok: bool, s': State)
    requires Good(s) && StepGetDone(s, i, ok) == Some(s')
    ensures Good(s')
  {
    if ok { GotKeeps(s, i, s'); } else { MoveKeeps(s, i, Looking(s.th[i].c)); }
  }

  lemma PutStays(s: State, i: Tid, s': State)
    requires StepPut(s, i) == Some(s') && HasTable(s.h)
    requires s.th[i].v in s.vns ==> s.vns[s.th[i].v].node == s.th[i].n
    requires forall m :: m in s.h.nodes ==> (Linked(s'.h, m) <==> Linked(s.h, m))
    ensures Local(s, s', i, s.th[i].n)
  {
  }

  lemma PutKeeps(s: State, i: Tid, s': State)
    requires Good(s) && StepPut(s, i) == Some(s')
    ensures Good(s')
  {
    var n, v := s.th[i].n, s.th[i].v;
    assert ThreadOk(s, i) && VnodeOk(s, v) && NodeOk(s, n);
    SameLinks(s.h, s'.h);
    PutStays(s, i, s');
    forall w | w in s'.vns && s'.vns[w].node == n ensures VnodeOk(s', w) { assert VnodeOk(s, w); }
    forall j | j in s'.th && j != i && Has(s.th[j], n) ensures ThreadOk(s', j) { assert ThreadOk(s, j); }
    Assemble(s, s', i, n);
  }

  lemma ReclaimStays(s: State, i: Tid, v: Vn, s': State)
    requires StepReclaim(s, i, v) == Some(s') && HasTable(s.h)
    requires forall m :: m in s.h.nodes ==> (Linked(s'.h, m) <==> Linked(s.h, m))
    ensures Local(s, s', i, s.vns[v].node)
  {
  }

  lemma ReclaimKeeps(s: State, i: Tid, v: Vn, s': State)
    requires Good(s) && StepReclaim(s, i, v) == Some(s')
    ensures Good(s')
  {
    var n := s.vns[v].node;
    assert VnodeOk(s, v) && NodeOk(s, n);
    SameLinks(s.h, s'.h);
    ReclaimStays(s, i, v, s');
    forall w | w in s'.vns && s'.vns[w].node == n ensures VnodeOk(s', w) { assert VnodeOk(s, w); }
    forall j | j in s'.th && j != i && Has(s.th[j], n) ensures ThreadOk(s', j) { assert ThreadOk(s, j); }
    Assemble(s, s', i, n);
  }

  lemma SucceedStays(s: State, i: Tid, s': State)
    requires StepSucceed(s, i) == Some(s') && HasTable(s.h) && s.nextVn !in s.vns
    requires forall m :: m in s.h.nodes ==> (Linked(s'.h, m) <==> Linked(s.h, m))
    ensures Local(s, s', i, s.th[i].n)
  {
  }

  lemma SucceedSettles(s: State, i: Tid, s': State)
    requires StepSucceed(s, i) == Some(s') && HasTable(s.h) && HasTable(s'.h) && s.nextVn !in s.vns
    requires ThreadOk(s, i) && NodeOk(s, s.th[i].n) && (Linked(s'.h, s.th[i].n) <==> Linked(s.h, s.th[i].n))
    ensures ThreadOk(s', i) && NodeOk(s', s.th[i].n) && VnodeOk(s', s.nextVn)
  {
    FilledUpdate(s.h.nodes[s.th[i].n].slots, s.th[i].fork, Some(s.nextVn));
  }

  lemma SucceedOthers(s: State, i: Tid, s': State, j: Tid)
    requires StepSucceed(s, i) == Some(s') && HasTable(s.h) && HasTable(s'.h) && s.nextVn !in s.vns
    requires j in s.th && j != i && ThreadOk(s, i) && ThreadOk(s, j) && Has(s.th[j], s.th[i].n)
    ensures ThreadOk(s', j)
  {
  }

  lemma SucceedKeeps(s: State, i: Tid, s': State)
    requires Good(s) && StepSucceed(s, i) == Some(s')
    ensures Good(s')
  {
    var n, v := s.th[i].n, s.nextVn;
    assert ThreadOk(s, i) && NodeOk(s, n);
    assert v in s.vns ==> VnodeOk(s, v);
    SameLinks(s.h, s'.h);
    SucceedStays(s, i, s');
    SucceedSettles(s, i, s');
    forall w | w in s'.vns && s'.vns[w].node == n ensures VnodeOk(s', w) { assert w != v ==> VnodeOk(s, w); }
    forall j | j in s'.th && j != i && Has(s.th[j], n) ensures ThreadOk(s', j) {
      assert ThreadOk(s, j);
      SucceedOthers(s, i, s', j);
    }
    Assemble(s, s', i, n);
  }

  // ---- Steps that may take the HNode out of the table ----------------------------------------

  /** HNodeForkVNodeDecrement from a state h1 in which n has lost an attach or a vnode. */
  lemma DecrementKeepsTable(h: Hash, n: Nid, x: HNode)
    requires TableOk(h) && UniqueOk(h) && Linked(h, n) && h.nodeCount > 0 && h.nodes[n].count > 0
    requires x.key == h.nodes[n].key && x.count == h.nodes[n].count
    ensures var (h', gone) := Decrement(SetNode(h, n, x), n);
      && TableOk(h') && UniqueOk(h') && n in h'.nodes && gone == (h.nodes[n].count == 1)
      && h'.nodes == h.nodes[n := x.(count := x.count - 1)]
      && (Linked(h', n) <==> h'.nodes[n].count > 0)
      && forall m :: m in h.nodes && m != n ==> (Linked(h', m) <==> Linked(h, m))
  {
    var h2 := SetNode(SetNode(h, n, x), n, x.(count := x.count - 1));
    SameLinks(h, h2);
    if h2.nodes[n].count == 0 { UnlinkKeepsTable(h2, n); }
  }

  lemma Counted(s: State, n: Nid)
    requires Good(s) && n in s.h.nodes && s.h.nodes[n].count > 0
    ensures Linked(s.h, n) && s.h.nodeCount > 0
  {
    assert NodeOk(s, n);
    LinkedIsCounted(s.h.table, BucketOf(|s.h.table|, s.h.nodes[n].key), n);
  }

  lemma FailStays(s: State, i: Tid, s': State)
    requires HasTable(s.h) && StepFail(s, i) == Some(s') && ThreadOk(s, i)
    requires var n := s.th[i].n;
      && |s'.h.table| == |s.h.table|
      && s'.h.nodes == s.h.nodes[n := AttachComplete(s.h.nodes[n]).(count := s.h.nodes[n].count - 1)]
      && forall m :: m in s.h.nodes && m != n ==> (Linked(s'.h, m) <==> Linked(s.h, m))
    ensures Local(s, s', i, s.th[i].n)
  {
  }

  lemma FailSettles(s: State, i: Tid, s': State)
    requires HasTable(s.h) && HasTable(s'.h) && StepFail(s, i) == Some(s')
    requires ThreadOk(s, i) && NodeOk(s, s.th[i].n)
    requires var n := s.th[i].n;
      && s'.h.nodes == s.h.nodes[n := AttachComplete(s.h.nodes[n]).(count := s.h.nodes[n].count - 1)]
      && (Linked(s'.h, n) <==> s'.h.nodes[n].count > 0)
    ensures ThreadOk(s', i) && NodeOk(s', s.th[i].n)
  {
  }

  lemma FailOthers(s: State, i: Tid, s': State, j: Tid)
    requires HasTable(s.h) && HasTable(s'.h) && StepFail(s, i) == Some(s')
    requires j in s.th && j != i && ThreadOk(s, i) && ThreadOk(s, j) && Has(s.th[j], s.th[i].n) && NodeOk(s, s.th[i].n)
    ensures ThreadOk(s', j)
  {
  }

  lemma FailVnodes(s: State, i: Tid, s': State, w: Vn)
    requires HasTable(s.h) && StepFail(s, i) == Some(s') && ThreadOk(s, i) && w in s.vns && VnodeOk(s, w)
    ensures s'.vns == s.vns && VnodeOk(s', w)
  {
  }

  lemma FailTable(s: State, i: Tid, s': State)
    requires Good(s) && StepFail(s, i) == Some(s')
    ensures Local(s, s', i, s.th[i].n) && TableOk(s'.h) && UniqueOk(s'.h)
    ensures ThreadOk(s', i) && s.th[i].n in s'.h.nodes && NodeOk(s', s.th[i].n) && s'.vns == s.vns
  {
    var n := s.th[i].n;
    assert ThreadOk(s, i) && NodeOk(s, n);
    Counted(s, n);
    DecrementKeepsTable(s.h, n, AttachComplete(s.h.nodes[n]));
    FailStays(s, i, s');
    FailSettles(s, i, s');
  }

  lemma FailKeeps(s: State, i: Tid, s': State)
    requires Good(s) && StepFail(s, i) == Some(s')
    ensures Good(s')
  {
    var n := s.th[i].n;
    FailTable(s, i, s');
    assert ThreadOk(s, i) && NodeOk(s, n);
    forall w | w in s'.vns && s'.vns[w].node == n ensures VnodeOk(s', w) {
      assert VnodeOk(s, w);
      FailVnodes(s, i, s', w);
    }
    forall j | j in s'.th && j != i && Has(s.th[j], n) ensures ThreadOk(s', j) {
      assert ThreadOk(s, j);
      FailOthers(s, i, s', j);
    }
    Assemble(s, s', i, n);
  }

  lemma {:induction false} IndexFound(slots: seq<Option<Vn>>, v: Vn, f: nat)
    requires f < |slots| && slots[f] == Some(v)
    ensures IndexOf(slots, v) <= f && slots[IndexOf(slots, v)] == Some(v)
  {
    if slots[0] != Some(v) { IndexFound(slots[1..], v, f - 1); }
  }

  lemma DetachStays(s: State, i: Tid, f: nat, s': State)
    requires HasTable(s.h) && StepDetach(s, i) == Some(s') && ThreadOk(s, i)
    requires var n := s.th[i].n; var x := s.h.nodes[n];
      && f < |x.slots| && |s'.h.table| == |s.h.table|
      && s'.h.nodes == s.h.nodes[n := x.(slots := x.slots[f := None], count := x.count - 1)]
      && forall m :: m in s.h.nodes && m != n ==> (Linked(s'.h, m) <==> Linked(s.h, m))
    ensures Local(s, s', i, s.th[i].n)
  {
  }

  lemma DetachSettles(s: State, i: Tid, f: nat, s': State)
    requires HasTable(s.h) && HasTable(s'.h) && StepDetach(s, i) == Some(s')
    requires ThreadOk(s, i) && NodeOk(s, s.th[i].n) && VnodeOk(s, s.th[i].v)
    requires var n := s.th[i].n; var x := s.h.nodes[n];
      && f < |x.slots| && x.slots[f] == Some(s.th[i].v)
      && s'.h.nodes == s.h.nodes[n := x.(slots := x.slots[f := None], count := x.count - 1)]
      && (Linked(s'.h, n) <==> s'.h.nodes[n].count > 0)
    ensures ThreadOk(s', i) && NodeOk(s', s.th[i].n)
  {
    FilledUpdate(s.h.nodes[s.th[i].n].slots, f, None);
  }

  lemma DetachOthers(s: State, i: Tid, s': State, j: Tid)
    requires HasTable(s.h) && HasTable(s'.h) && StepDetach(s, i) == Some(s')
    requires j in s.th && j != i && ThreadOk(s, i) && ThreadOk(s, j) && Has(s.th[j], s.th[i].n) && NodeOk(s, s.th[i].n)
    requires VnodeOk(s, s.th[i].v)
    ensures ThreadOk(s', j)
  {
    FilledSlot(s.h.nodes[s.th[i].n].slots, s.vns[s.th[i].v].fork);
  }

  lemma DetachVnodes(s: State, i: Tid, f: nat, s': State, w: Vn)
    requires HasTable(s.h) && StepDetach(s, i) == Some(s') && ThreadOk(s, i) && VnodeOk(s, s.th[i].v)
    requires var n := s.th[i].n; var x := s.h.nodes[n];
      && f < |x.slots| && x.slots[f] == Some(s.th[i].v)
      && s'.h.nodes == s.h.nodes[n := x.(slots := x.slots[f := None], count := x.count - 1)]
    requires w in s'.vns && s'.vns[w].node == s.th[i].n && VnodeOk(s, w)
    ensures VnodeOk(s', w)
  {
  }

  lemma DetachTable(s: State, i: Tid, s': State)
    requires Good(s) && StepDetach(s, i) == Some(s')
    ensures var n := s.th[i].n;
      && n in s.h.nodes && Local(s, s', i, n) && TableOk(s'.h) && UniqueOk(s'.h)
      && ThreadOk(s', i) && n in s'.h.nodes && NodeOk(s', n)
    ensures var n := s.th[i].n; var x := s.h.nodes[n]; var f := IndexOf(x.slots, s.th[i].v);
      f < |x.slots| && x.slots[f] == Some(s.th[i].v)
      && s'.h.nodes == s.h.nodes[n := x.(slots := x.slots[f := None], count := x.count - 1)]
  {
    var n, v := s.th[i].n, s.th[i].v;
    assert ThreadOk(s, i) && NodeOk(s, n) && VnodeOk(s, v);
    var f := IndexOf(s.h.nodes[n].slots, v);
    IndexFound(s.h.nodes[n].slots, v, s.vns[v].fork);
    Counted(s, n);
    DecrementKeepsTable(s.h, n, s.h.nodes[n].(slots := s.h.nodes[n].slots[f := None]));
    DetachStays(s, i, f, s');
    DetachSettles(s, i, f, s');
  }

  lemma DetachKeeps(s: State, i: Tid, s': State)
    requires Good(s) && StepDetach(s, i) == Some(s')
    ensures Good(s')
  {
    var n, v := s.th[i].n, s.th[i].v;
    DetachTable(s, i, s');
    assert ThreadOk(s, i) && NodeOk(s, n) && VnodeOk(s, v);
    forall w | w in s'.vns && s'.vns[w].node == n ensures VnodeOk(s', w) {
      assert VnodeOk(s, w);
      DetachVnodes(s, i, IndexOf(s.h.nodes[n].slots, v), s', w);
    }
    forall j | j in s'.th && j != i && Has(s.th[j], n) ensures ThreadOk(s', j) {
      assert ThreadOk(s, j);
      DetachOthers(s, i, s', j);
    }
    Assemble(s, s', i, n);
  }

  lemma ScrubKeeps(s: State, i: Tid, s': State)
    requires Good(s) && StepScrubDone(s, i) == Some(s')
    ensures Good(s')
  {
    var n := s.th[i].n;
    assert ThreadOk(s, i) && NodeOk(s, n);
    FreeKeepsTable(s.h, n);
    forall w | w in s.vns ensures s.vns[w].node != n {
      assert VnodeOk(s, w);
      if s.vns[w].node == n { FilledSlot(s.h.nodes[n].slots, s.vns[w].fork); }
    }
    forall j | j in s.th && j != i ensures Has(s.th[j], n) ==> s.th[j].Getting? { assert ThreadOk(s, j); }
    forall j | j in s.th && j != i && Has(s.th[j], n) ensures ThreadOk(s', j) { assert ThreadOk(s, j); }
    Assemble(s, s', i, n);
  }
}
