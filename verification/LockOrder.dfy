/** The order in which fuse_locking.c takes the locks of several fusenodes. */
module LockOrder {
  import opened Lists

  /** A fusenode_t: an address. */
  type Addr = nat

  const NULL: Addr := 0
  const SENTINEL: Addr := 0xffff_ffff

  /** The fields of struct fuse_vnode_data that the locking code reads. */
  datatype Info = Info(nodeid: nat, parent: nat, isDir: bool, noExists: bool)

  /** The fusenodes there are: neither NULL nor the sentinel is one. */
  type Nodes = p: map<Addr, Info> | NULL !in p && SENTINEL !in p witness map[]

  predicate IsArg(p: Nodes, x: Addr) { x == NULL || x in p }

  /** fusefs_isordered. */
  predicate IsOrdered(p: Nodes, x: Addr, y: Addr)
    requires IsArg(p, x) || x == SENTINEL
    requires IsArg(p, y) || y == SENTINEL
  {
    if x == y then false
    else if x == NULL || y == SENTINEL then true
    else if y == NULL || x == SENTINEL then false
    else if p[x].nodeid == p[y].parent then true
    else if p[y].nodeid == p[x].parent then false
    else x < y
  }

  predicate MutualParents(p: Nodes, x: Addr, y: Addr) {
    x in p && y in p && x != y && p[x].nodeid == p[y].parent && p[y].nodeid == p[x].parent
  }

  /** On fusenodes that are not each other's parent the relation is total and antisymmetric. */
  lemma OneWay(p: Nodes, x: Addr, y: Addr)
    requires IsArg(p, x) && IsArg(p, y) && x != y
    ensures IsOrdered(p, x, y) || IsOrdered(p, y, x)
    ensures IsOrdered(p, x, y) && IsOrdered(p, y, x) <==> MutualParents(p, x, y)
  {
  }

  /** A parent goes before its child, and fusenodes that are not related go by address; no fusenode
    * comes before NULL or after the sentinel.
    */
  lemma ParentFirst(p: Nodes, x: Addr, y: Addr)
    requires x in p && y in p && x != y && !MutualParents(p, x, y)
    ensures p[x].nodeid == p[y].parent ==> IsOrdered(p, x, y) && !IsOrdered(p, y, x)
    ensures p[x].nodeid != p[y].parent && p[y].nodeid != p[x].parent ==> (IsOrdered(p, x, y) <==> x < y)
    ensures IsOrdered(p, NULL, x) && !IsOrdered(p, x, NULL) && IsOrdered(p, x, SENTINEL) && !IsOrdered(p, SENTINEL, x)
  {
  }

  // ---- The merge of fusefs_lockfour ----------------------------------------------------

  function Pair(p: Nodes, x: Addr, y: Addr): (r: seq<Addr>)
    requires IsArg(p, x) && IsArg(p, y)
    ensures |r| == 3 && r[2] == SENTINEL && IsArg(p, r[0]) && IsArg(p, r[1])
    ensures (r[0] == x && r[1] == y) || (r[0] == y && r[1] == x)
  {
    if IsOrdered(p, x, y) then [x, y, SENTINEL] else [y, x, SENTINEL]
  }

  predicate IsPair(p: Nodes, a: seq<Addr>) {
    |a| == 3 && IsArg(p, a[0]) && IsArg(p, a[1]) && a[2] == SENTINEL
  }

  datatype Merge = Merge(i: nat, j: nat, list: seq<Addr>)

  /** A list entry is added unless it repeats the one before. */
  function Push(list: seq<Addr>, x: Addr): seq<Addr> {
    if list == [] || x != list[|list| - 1] then list + [x] else list
  }

  /** One turn of the loop. */
  function Pick(p: Nodes, a: seq<Addr>, b: seq<Addr>, m: Merge): (r: Merge)
    requires IsPair(p, a) && IsPair(p, b) && m.i <= 2 && m.j <= 2 && (m.i < 2 || m.j < 2)
    ensures r.i <= 2 && r.j <= 2 && r.i + r.j == m.i + m.j + 1
    ensures |m.list| <= |r.list| <= |m.list| + 1
  {
    if IsOrdered(p, a[m.i], b[m.j]) then Merge(m.i + 1, m.j, Push(m.list, a[m.i]))
    else Merge(m.i, m.j + 1, Push(m.list, b[m.j]))
  }

  /** The indices stay in bounds, and four turns exhaust both pairs. */
  function Picks(p: Nodes, a: seq<Addr>, b: seq<Addr>, n: nat): (m: Merge)
    requires IsPair(p, a) && IsPair(p, b) && n <= 4
    ensures m.i <= 2 && m.j <= 2 && m.i + m.j == n && |m.list| <= n
  {
    if n == 0 then Merge(0, 0, []) else Pick(p, a, b, Picks(p, a, b, n - 1))
  }

  /** The list that fusefs_lockfour locks, NULL entries included. */
  function LockList(p: Nodes, c1: Addr, c2: Addr, c3: Addr, c4: Addr): seq<Addr>
    requires IsArg(p, c1) && IsArg(p, c2) && IsArg(p, c3) && IsArg(p, c4)
  {
    Picks(p, Pair(p, c1, c2), Pair(p, c3, c4), 4).list
  }

  /** The fusenodes on a list. */
  function Fusenodes(q: seq<Addr>): seq<Addr> {
    if q == [] then []
    else Fusenodes(q[..|q| - 1]) + if q[|q| - 1] == NULL then [] else [q[|q| - 1]]
  }

  lemma FusenodesNext(q: seq<Addr>, i: nat)
    requires i < |q|
    ensures Fusenodes(q[..i + 1]) == Fusenodes(q[..i]) + if q[i] == NULL then [] else [q[i]]
  {
    assert q[..i + 1][..i] == q[..i];
  }

  lemma FourPicks(p: Nodes, a: seq<Addr>, b: seq<Addr>)
    requires IsPair(p, a) && IsPair(p, b)
    ensures Picks(p, a, b, 1) == Pick(p, a, b, Merge(0, 0, []))
    ensures Picks(p, a, b, 2) == Pick(p, a, b, Picks(p, a, b, 1))
    ensures Picks(p, a, b, 3) == Pick(p, a, b, Picks(p, a, b, 2))
    ensures Picks(p, a, b, 4) == Pick(p, a, b, Picks(p, a, b, 3))
  {
    assert Picks(p, a, b, 0) == Merge(0, 0, []);
  }

  predicate Friendly(p: Nodes, c1: Addr, c2: Addr, c3: Addr, c4: Addr) {
    && !MutualParents(p, c1, c2) && !MutualParents(p, c1, c3) && !MutualParents(p, c1, c4)
    && !MutualParents(p, c2, c3) && !MutualParents(p, c2, c4) && !MutualParents(p, c3, c4)
  }

  /** In order, or the same. */
  predicate Le(p: Nodes, x: Addr, y: Addr)
    requires IsArg(p, x) || x == SENTINEL
    requires IsArg(p, y) || y == SENTINEL
  {
    x == y || IsOrdered(p, x, y)
  }

  /** An entry of pair a that is still to come, but already on the list, is at the head of
    * the pair and at the end of the list, and goes before what is left of the other pair.
    */
  ghost predicate RepeatsNext(p: Nodes, a: seq<Addr>, i: nat, b: seq<Addr>, j: nat, list: seq<Addr>)
    requires IsPair(p, a) && IsPair(p, b) && i <= 2 && j <= 2
  {
    forall u :: i <= u < 2 && a[u] in list ==> a[i] == a[u] == list[|list| - 1] && Le(p, a[i], b[j])
  }

  ghost predicate Merged(p: Nodes, a: seq<Addr>, b: seq<Addr>, m: Merge)
    requires IsPair(p, a) && IsPair(p, b) && m.i <= 2 && m.j <= 2
  {
    && NoDup(m.list)
    && (forall x :: x in m.list <==> x in a[..m.i] || x in b[..m.j])
    && RepeatsNext(p, a, m.i, b, m.j, m.list)
    && RepeatsNext(p, b, m.j, a, m.i, m.list)
  }

  /** Both pairs are in order, and nobody is the parent of its parent. */
  predicate Workable(p: Nodes, a: seq<Addr>, b: seq<Addr>) {
    && IsPair(p, a) && IsPair(p, b) && Le(p, a[0], a[1]) && Le(p, b[0], b[1])
    && Friendly(p, a[0], a[1], b[0], b[1])
  }

  lemma PickA(p: Nodes, a: seq<Addr>, b: seq<Addr>, m: Merge)
    requires Workable(p, a, b) && m.i <= 2 && m.j <= 2 && (m.i < 2 || m.j < 2) && Merged(p, a, b, m)
    requires IsOrdered(p, a[m.i], b[m.j])
    ensures Merged(p, a, b, Pick(p, a, b, m))
  {
    var r := Pick(p, a, b, m);
    assert r.i == m.i + 1 && r.j == m.j && r.list == Push(m.list, a[m.i]);
    assert a[..m.i + 1] == a[..m.i] + [a[m.i]];
    if m.j < 2 { OneWay(p, a[m.i], b[m.j]); }
  }

  lemma PickB(p: Nodes, a: seq<Addr>, b: seq<Addr>, m: Merge)
    requires Workable(p, a, b) && m.i <= 2 && m.j <= 2 && (m.i < 2 || m.j < 2) && Merged(p, a, b, m)
    requires !IsOrdered(p, a[m.i], b[m.j])
    ensures Merged(p, a, b, Pick(p, a, b, m))
  {
    var r := Pick(p, a, b, m);
    assert r.i == m.i && r.j == m.j + 1 && r.list == Push(m.list, b[m.j]);
    assert b[..m.j + 1] == b[..m.j] + [b[m.j]];
    if m.i < 2 && a[m.i] != b[m.j] { OneWay(p, a[m.i], b[m.j]); }
  }

  lemma {:induction false} PicksAreMerged(p: Nodes, a: seq<Addr>, b: seq<Addr>, n: nat)
    requires Workable(p, a, b) && n <= 4
    ensures Merged(p, a, b, Picks(p, a, b, n))
  {
    if n > 0 {
      PicksAreMerged(p, a, b, n - 1);
      var m := Picks(p, a, b, n - 1);
      if IsOrdered(p, a[m.i], b[m.j]) { PickA(p, a, b, m); } else { PickB(p, a, b, m); }
    }
  }

  lemma PairIsOrdered(p: Nodes, x: Addr, y: Addr)
    requires IsArg(p, x) && IsArg(p, y)
    ensures Le(p, Pair(p, x, y)[0], Pair(p, x, y)[1])
  {
    if x != y { OneWay(p, x, y); }
  }

  /** Although only neighbours are compared and the relation is not transitive, each
    * argument is on the list exactly once.
    */
  lemma EachOnce(p: Nodes, c1: Addr, c2: Addr, c3: Addr, c4: Addr)
    requires IsArg(p, c1) && IsArg(p, c2) && IsArg(p, c3) && IsArg(p, c4) && Friendly(p, c1, c2, c3, c4)
    ensures NoDup(LockList(p, c1, c2, c3, c4))
    ensures forall x :: x in LockList(p, c1, c2, c3, c4) <==> x == c1 || x == c2 || x == c3 || x == c4
  {
    var a, b := Pair(p, c1, c2), Pair(p, c3, c4);
    PairIsOrdered(p, c1, c2);
    PairIsOrdered(p, c3, c4);
    PicksAreMerged(p, a, b, 4);
    assert a[..2] == [a[0], a[1]] && b[..2] == [b[0], b[1]];
  }

  ghost predicate NoMutualParents(p: Nodes) {
    forall x, y :: !MutualParents(p, x, y)
  }

  /** The lists are free of repetitions for all arguments if and only if no two fusenodes
    * are each other's parent.
    */
  lemma NoRepetitionExactly(p: Nodes)
    ensures NoMutualParents(p)
       <==> forall c1, c2, c3, c4 :: IsArg(p, c1) && IsArg(p, c2) && IsArg(p, c3) && IsArg(p, c4)
              ==> NoDup(LockList(p, c1, c2, c3, c4))
  {
    if NoMutualParents(p) {
      forall c1, c2, c3, c4 | IsArg(p, c1) && IsArg(p, c2) && IsArg(p, c3) && IsArg(p, c4)
        ensures NoDup(LockList(p, c1, c2, c3, c4))
      {
        EachOnce(p, c1, c2, c3, c4);
      }
    }
    forall x, y | MutualParents(p, x, y) ensures !NoDup(LockList(p, x, y, y, x)) { LockedTwice(p, x, y); }
  }

  /** Two fusenodes that are each other's parent: the first is listed twice. */
  lemma LockedTwice(p: Nodes, x: Addr, y: Addr)
    requires MutualParents(p, x, y)
    ensures LockList(p, x, y, y, x) == [x, y, x] && !NoDup(LockList(p, x, y, y, x))
  {
    var a, b := Pair(p, x, y), Pair(p, y, x);
    FourPicks(p, a, b);
    assert Picks(p, a, b, 1) == Merge(1, 0, [x]);
    assert Picks(p, a, b, 2) == Merge(1, 1, [x, y]);
    assert Picks(p, a, b, 3) == Merge(2, 1, [x, y]);
    assert [x, y, x][0] == [x, y, x][2];
  }

  // ---- Order of the list, and deadlock ---------------------------------------------------

  ghost predicate Transitive(p: Nodes) {
    forall x, y, z :: x in p && y in p && z in p && IsOrdered(p, x, y) && IsOrdered(p, y, z) ==> IsOrdered(p, x, z)
  }

  /** IsOrdered is a strict total order on the fusenodes. */
  ghost predicate Ranked(p: Nodes) { NoMutualParents(p) && Transitive(p) }

  ghost predicate Increasing(p: Nodes, q: seq<Addr>) {
    && (forall x :: x in q ==> IsArg(p, x))
    && forall u, v :: 0 <= u < v < |q| ==> IsOrdered(p, q[u], q[v])
  }

  lemma Chain(p: Nodes, x: Addr, y: Addr, z: Addr)
    requires Ranked(p) && IsArg(p, x) && IsArg(p, y) && IsArg(p, z) && Le(p, x, y) && Le(p, y, z)
    ensures Le(p, x, z)
  {
    if x != NULL && x != y && y != z && y != NULL && z != NULL { assert IsOrdered(p, x, z); }
  }

  /** What is on the list goes before all that is still to come. */
  ghost predicate Rising(p: Nodes, a: seq<Addr>, b: seq<Addr>, m: Merge)
    requires IsPair(p, a) && IsPair(p, b) && m.i <= 2 && m.j <= 2
  {
    && Increasing(p, m.list)
    && (forall x, u :: x in m.list && m.i <= u < 2 ==> Le(p, x, a[u]))
    && (forall x, u :: x in m.list && m.j <= u < 2 ==> Le(p, x, b[u]))
  }

  /** The next entry v goes before all that is still to come after it. */
  lemma RiseBy(p: Nodes, list: seq<Addr>, v: Addr)
    requires Ranked(p) && IsArg(p, v) && Increasing(p, list) && forall x :: x in list ==> Le(p, x, v)
    ensures Increasing(p, Push(list, v))
  {
    var q := Push(list, v);
    if |q| > |list| {
      forall u | 0 <= u < |list| ensures IsOrdered(p, list[u], v) {
        assert list[u] in list;
        if list[u] == v && u < |list| - 1 {
          var last := list[|list| - 1];
          assert IsOrdered(p, v, last) && last in list && Le(p, last, v);
          OneWay(p, v, last);
        }
      }
    }
  }

  lemma PickRises(p: Nodes, a: seq<Addr>, b: seq<Addr>, m: Merge)
    requires Ranked(p) && Workable(p, a, b) && m.i <= 2 && m.j <= 2 && (m.i < 2 || m.j < 2) && Rising(p, a, b, m)
    ensures Rising(p, a, b, Pick(p, a, b, m))
  {
    var first := IsOrdered(p, a[m.i], b[m.j]);
    var v := if first then a[m.i] else b[m.j];
    RiseBy(p, m.list, v);
    var r := Pick(p, a, b, m);
    if m.i < 2 && m.j < 2 && a[m.i] != b[m.j] { OneWay(p, a[m.i], b[m.j]); }
    forall u | r.i <= u < 2 ensures Le(p, v, a[u]) {
      if !first { Chain(p, v, a[m.i], a[u]); }
    }
    forall u | r.j <= u < 2 ensures Le(p, v, b[u]) {
      if first { Chain(p, v, b[m.j], b[u]); }
    }
  }

  lemma {:induction false} PicksRise(p: Nodes, a: seq<Addr>, b: seq<Addr>, n: nat)
    requires Ranked(p) && Workable(p, a, b) && n <= 4
    ensures Rising(p, a, b, Picks(p, a, b, n))
  {
    if n > 0 {
      PicksRise(p, a, b, n - 1);
      PickRises(p, a, b, Picks(p, a, b, n - 1));
    }
  }

  /** When the relation is transitive the list is strictly increasing. */
  lemma ListIsIncreasing(p: Nodes, c1: Addr, c2: Addr, c3: Addr, c4: Addr)
    requires Ranked(p) && IsArg(p, c1) && IsArg(p, c2) && IsArg(p, c3) && IsArg(p, c4)
    ensures Increasing(p, LockList(p, c1, c2, c3, c4))
  {
    PairIsOrdered(p, c1, c2);
    PairIsOrdered(p, c3, c4);
    PicksRise(p, Pair(p, c1, c2), Pair(p, c3, c4), 4);
  }

  /** fusefs_lockpair on two different fusenodes: which one is locked first. */
  function PairFirst(p: Nodes, x: Addr, y: Addr): Addr
    requires x in p && y in p
  {
    if p[x].isDir && p[x].nodeid == p[y].parent then x else if x < y then x else y
  }

  ghost predicate ParentsAreDirs(p: Nodes) {
    forall x, y :: x in p && y in p && p[x].nodeid == p[y].parent ==> p[x].isDir
  }

  /** fusefs_lockpair looks for a parent in its first argument only. It therefore goes by
    * another order than fusefs_lockfour exactly when its second argument is the parent of
    * the first and has the higher address.
    */
  lemma PairInOrderExactly(p: Nodes, x: Addr, y: Addr)
    requires NoMutualParents(p) && ParentsAreDirs(p) && x in p && y in p && x != y
    ensures IsOrdered(p, PairFirst(p, x, y), if PairFirst(p, x, y) == x then y else x)
       <==> !(p[y].nodeid == p[x].parent && x < y)
  {
    assert !MutualParents(p, x, y);
  }

  /** The locks that one thread takes with one call, in this order. */
  datatype Call = One(x: Addr) | Two(x: Addr, y: Addr) | Four(c1: Addr, c2: Addr, c3: Addr, c4: Addr)

  predicate CallOk(p: Nodes, c: Call) {
    match c
    case One(x) => x in p
    case Two(x, y) => x in p && y in p && !p[x].isDir && !p[y].isDir
    case Four(c1, c2, c3, c4) => IsArg(p, c1) && IsArg(p, c2) && IsArg(p, c3) && IsArg(p, c4)
  }

  function Locks(p: Nodes, c: Call): seq<Addr>
    requires CallOk(p, c)
  {
    match c
    case One(x) => [x]
    case Two(x, y) => if x == y then [x] else if PairFirst(p, x, y) == x then [x, y] else [y, x]
    case Four(c1, c2, c3, c4) => LockList(p, c1, c2, c3, c4)
  }

  /** A thread inside a call: it holds the locks before position at and waits for that one. */
  datatype Waiter = Waiter(call: Call, at: nat)

  ghost predicate Waiting(p: Nodes, w: Waiter) {
    CallOk(p, w.call) && w.at < |Locks(p, w.call)| && Locks(p, w.call)[w.at] != NULL
  }

  ghost function Wanted(p: Nodes, w: Waiter): Addr
    requires Waiting(p, w)
  {
    Locks(p, w.call)[w.at]
  }

  ghost predicate HeldBy(p: Nodes, x: Addr, h: Waiter)
    requires Waiting(p, h)
  {
    x in Locks(p, h.call)[..h.at]
  }

  /** Each thread waits for a lock that the next one holds, and the last for the first. */
  ghost predicate WaitCycle(p: Nodes, ws: seq<Waiter>) {
    && ws != [] && (forall k :: 0 <= k < |ws| ==> Waiting(p, ws[k]))
    && (forall k :: 0 < k < |ws| ==> HeldBy(p, Wanted(p, ws[k - 1]), ws[k]))
    && HeldBy(p, Wanted(p, ws[|ws| - 1]), ws[0])
  }

  lemma CallIsIncreasing(p: Nodes, c: Call)
    requires Ranked(p) && ParentsAreDirs(p) && CallOk(p, c)
    ensures Increasing(p, Locks(p, c))
  {
    match c
    case One(x) =>
    case Two(x, y) => if x != y { PairInOrderExactly(p, x, y); }
    case Four(c1, c2, c3, c4) => ListIsIncreasing(p, c1, c2, c3, c4);
  }

  /** A waiter wants a lock that comes before the one its holder wants. */
  lemma WantsLess(p: Nodes, w: Waiter, h: Waiter)
    requires Ranked(p) && ParentsAreDirs(p) && Waiting(p, w) && Waiting(p, h) && HeldBy(p, Wanted(p, w), h)
    ensures Wanted(p, w) in p && Wanted(p, h) in p && IsOrdered(p, Wanted(p, w), Wanted(p, h))
  {
    CallIsIncreasing(p, h.call);
    var x := Wanted(p, w);
    var u :| 0 <= u < h.at && Locks(p, h.call)[u] == x;
    assert Wanted(p, h) in Locks(p, h.call) && x in Locks(p, h.call);
  }

  lemma {:induction false} FirstWantsLess(p: Nodes, ws: seq<Waiter>, k: nat)
    requires Ranked(p) && ParentsAreDirs(p) && WaitCycle(p, ws) && 0 < k < |ws|
    ensures Wanted(p, ws[0]) in p && Wanted(p, ws[k]) in p && IsOrdered(p, Wanted(p, ws[0]), Wanted(p, ws[k]))
  {
    WantsLess(p, ws[k - 1], ws[k]);
    if k > 1 { FirstWantsLess(p, ws, k - 1); }
  }

  /** Threads each inside one fusefs_lock, one fusefs_lockfour, or one fusefs_lockpair on
    * two non-directories never form a wait cycle.
    */
  lemma NoWaitCycle(p: Nodes, ws: seq<Waiter>)
    requires Ranked(p) && ParentsAreDirs(p)
    ensures !WaitCycle(p, ws)
  {
    if WaitCycle(p, ws) {
      var n := |ws| - 1;
      WantsLess(p, ws[n], ws[0]);
      if n > 0 {
        FirstWantsLess(p, ws, n);
        OneWay(p, Wanted(p, ws[0]), Wanted(p, ws[n]));
      }
    }
  }

  // ---- Only transitivity will do -----------------------------------------------------------

  /** fusefs_lockfour on two fusenodes in order. */
  lemma TwoInOrder(p: Nodes, x: Addr, y: Addr)
    requires x in p && y in p && IsOrdered(p, x, y) && !MutualParents(p, x, y)
    ensures LockList(p, x, y, x, y) == [x, y]
  {
    var a := Pair(p, x, y);
    OneWay(p, x, y);
    FourPicks(p, a, a);
    assert Picks(p, a, a, 1) == Merge(0, 1, [x]);
    assert Picks(p, a, a, 2) == Merge(1, 1, [x]);
    assert Picks(p, a, a, 3) == Merge(1, 2, [x, y]);
  }

  /** x before y before z before x: three calls of fusefs_lockfour block each other. */
  lemma RoundaboutBlocks(p: Nodes, x: Addr, y: Addr, z: Addr)
    requires NoMutualParents(p) && x in p && y in p && z in p
    requires IsOrdered(p, x, y) && IsOrdered(p, y, z) && IsOrdered(p, z, x)
    ensures WaitCycle(p, [Waiter(Four(x, y, x, y), 1), Waiter(Four(y, z, y, z), 1), Waiter(Four(z, x, z, x), 1)])
  {
    TwoInOrder(p, x, y);
    TwoInOrder(p, y, z);
    TwoInOrder(p, z, x);
  }

  ghost predicate OnlyFours(ws: seq<Waiter>) { forall k :: 0 <= k < |ws| ==> ws[k].call.Four? }

  /** Calls of fusefs_lockfour cannot block each other in a circle if and only if the
    * relation is transitive on the fusenodes in play.
    */
  lemma NoWaitCycleExactly(p: Nodes)
    requires NoMutualParents(p) && ParentsAreDirs(p)
    ensures Transitive(p) <==> forall ws :: OnlyFours(ws) ==> !WaitCycle(p, ws)
  {
    if Transitive(p) {
      forall ws | OnlyFours(ws) ensures !WaitCycle(p, ws) { NoWaitCycle(p, ws); }
    } else {
      var x, y, z :| x in p && y in p && z in p && IsOrdered(p, x, y) && IsOrdered(p, y, z) && !IsOrdered(p, x, z);
      assert !MutualParents(p, x, y);
      if x != z { OneWay(p, x, z); } else { OneWay(p, x, y); }
      RoundaboutBlocks(p, x, y, z);
      assert OnlyFours([Waiter(Four(x, y, x, y), 1), Waiter(Four(y, z, y, z), 1), Waiter(Four(z, x, z, x), 1)]);
    }
  }

  /** And it need not be: a parent whose address is above a third fusenode's. */
  lemma NotTransitiveInGeneral()
    ensures var p: Nodes := map[10 := Info(3, 2, false, false), 20 := Info(5, 9, false, false), 30 := Info(2, 1, true, false)];
      && NoMutualParents(p) && ParentsAreDirs(p)
      && IsOrdered(p, 30, 10) && IsOrdered(p, 10, 20) && !IsOrdered(p, 30, 20)
  {
  }
}
