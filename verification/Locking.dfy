/** fuse_locking.c as it runs: arrays of four, the merge loop, and the locks one thread holds. */
module Locking {
  import opened Lists
  import opened LockOrder

  const ENOENT := 2

  datatype LockType = SharedLock | ExclusiveLock | ForceLock

  /** The fusenodes among the arguments. */
  predicate IsFusenode(x: Addr, c1: Addr, c2: Addr, c3: Addr, c4: Addr) {
    x != NULL && (x == c1 || x == c2 || x == c3 || x == c4)
  }

  function Once(b: bool): nat { if b then 1 else 0 }

  /** How often fusenode x is on a list. */
  function Times(q: seq<Addr>, x: Addr): nat {
    if q == [] then 0 else Times(q[..|q| - 1], x) + Once(q[|q| - 1] == x)
  }

  lemma TimesMore(q: seq<Addr>, y: Addr, x: Addr)
    ensures Times(q + [y], x) == Times(q, x) + Once(y == x)
  {
    assert (q + [y])[..|q|] == q;
  }

  lemma TimesNext(q: seq<Addr>, i: nat)
    requires i < |q|
    ensures forall x :: Times(q[..i + 1], x) == Times(q[..i], x) + Once(q[i] == x)
  {
    assert q[..i + 1] == q[..i] + [q[i]];
    forall x ensures Times(q[..i + 1], x) == Times(q[..i], x) + Once(q[i] == x) { TimesMore(q[..i], q[i], x); }
  }

  lemma {:induction false} TimesInList(q: seq<Addr>, x: Addr)
    ensures Times(q, x) > 0 <==> x in q
    ensures NoDup(q) ==> Times(q, x) <= 1
  {
    if q != [] {
      var last := |q| - 1;
      assert q == q[..last] + [q[last]];
      TimesInList(q[..last], x);
    }
  }

  lemma OneMore(q: seq<Addr>, i: nat, x: Addr)
    requires i < |q|
    ensures x in q[..i + 1] <==> x in q[..i] || x == q[i]
  {
    assert q[..i + 1] == q[..i] + [q[i]];
  }

  /** One turn of the merge adds the entry it moves past, unless that is the last one already. */
  lemma PickHasAll(p: Nodes, a: seq<Addr>, b: seq<Addr>, m: Merge, x: Addr)
    requires IsPair(p, a) && IsPair(p, b) && m.i <= 2 && m.j <= 2 && (m.i < 2 || m.j < 2)
    requires x in m.list <==> x in a[..m.i] || x in b[..m.j]
    ensures var r := Pick(p, a, b, m); x in r.list <==> x in a[..r.i] || x in b[..r.j]
  {
    if IsOrdered(p, a[m.i], b[m.j]) { OneMore(a, m.i, x); } else { OneMore(b, m.j, x); }
  }

  lemma {:induction false} PicksHaveAll(p: Nodes, a: seq<Addr>, b: seq<Addr>, n: nat, x: Addr)
    requires IsPair(p, a) && IsPair(p, b) && n <= 4
    ensures var m := Picks(p, a, b, n); x in m.list <==> x in a[..m.i] || x in b[..m.j]
  {
    if n > 0 {
      PicksHaveAll(p, a, b, n - 1, x);
      PickHasAll(p, a, b, Picks(p, a, b, n - 1), x);
    }
  }

  /** No argument is dropped from the list, whatever the relation. */
  lemma ListHasAll(p: Nodes, c1: Addr, c2: Addr, c3: Addr, c4: Addr, x: Addr)
    requires IsArg(p, c1) && IsArg(p, c2) && IsArg(p, c3) && IsArg(p, c4)
    ensures x in LockList(p, c1, c2, c3, c4) <==> x == c1 || x == c2 || x == c3 || x == c4
  {
    var a, b := Pair(p, c1, c2), Pair(p, c3, c4);
    PicksHaveAll(p, a, b, 4, x);
    assert a[..2] == [a[0], a[1]] && b[..2] == [b[0], b[1]];
  }

  lemma EntriesAreArguments(p: Nodes, c1: Addr, c2: Addr, c3: Addr, c4: Addr)
    requires IsArg(p, c1) && IsArg(p, c2) && IsArg(p, c3) && IsArg(p, c4)
    ensures var q := LockList(p, c1, c2, c3, c4);
      && (forall u :: 0 <= u < |q| ==> q[u] == c1 || q[u] == c2 || q[u] == c3 || q[u] == c4)
      && c1 in q && c2 in q && c3 in q && c4 in q
  {
    var q := LockList(p, c1, c2, c3, c4);
    forall u | 0 <= u < |q| ensures q[u] == c1 || q[u] == c2 || q[u] == c3 || q[u] == c4 {
      ListHasAll(p, c1, c2, c3, c4, q[u]);
    }
    ListHasAll(p, c1, c2, c3, c4, c1);
    ListHasAll(p, c1, c2, c3, c4, c2);
    ListHasAll(p, c1, c2, c3, c4, c3);
    ListHasAll(p, c1, c2, c3, c4, c4);
  }

  lemma ListedOnce(p: Nodes, c1: Addr, c2: Addr, c3: Addr, c4: Addr, x: Addr)
    requires IsArg(p, c1) && IsArg(p, c2) && IsArg(p, c3) && IsArg(p, c4) && Friendly(p, c1, c2, c3, c4) && x != NULL
    ensures Times(LockList(p, c1, c2, c3, c4), x) == Once(IsFusenode(x, c1, c2, c3, c4))
  {
    EachOnce(p, c1, c2, c3, c4);
    TimesInList(LockList(p, c1, c2, c3, c4), x);
  }

  ghost predicate Reached(p: Nodes, a: seq<Addr>, b: seq<Addr>, m: Merge) {
    IsPair(p, a) && IsPair(p, b) && m.i + m.j <= 4 && m == Picks(p, a, b, m.i + m.j)
  }

  lemma ReachedNext(p: Nodes, a: seq<Addr>, b: seq<Addr>, m: Merge)
    requires Reached(p, a, b, m) && m.i <= 2 && m.j <= 2 && (m.i < 2 || m.j < 2)
    ensures Reached(p, a, b, Pick(p, a, b, m))
  {
  }

  class Locker {
    const nodes: Nodes
    /** How often the thread holds the lock of each fusenode. */
    var held: multiset<Addr>
    /** The fusenodes whose locks the thread has ever taken, in this order. */
    ghost var taken: seq<Addr>

    constructor (p: Nodes)
      ensures nodes == p && held == multiset{} && taken == []
    {
      nodes, held, taken := p, multiset{}, [];
    }

    predicate CanLock(x: Addr, t: LockType) {
      t == ForceLock || (x in nodes ==> !nodes[x].noExists)
    }

    /** fusefs_lock. */
    method Lock(cp: Addr, t: LockType) returns (err: int)
      requires cp in nodes
      modifies this
      ensures err == if CanLock(cp, t) then 0 else ENOENT
      ensures forall x :: held[x] == old(held)[x] + Once(err == 0 && x == cp)
      ensures taken == old(taken) + [cp]
    {
      held, taken := held + multiset{cp}, taken + [cp];
      if t != ForceLock && nodes[cp].noExists {
        Unlock(cp);
        return ENOENT;
      }
      return 0;
    }

    /** fusefs_unlock. */
    method Unlock(cp: Addr)
      requires held[cp] > 0
      modifies this`held
      ensures forall x :: held[x] == old(held)[x] - Once(x == cp)
    {
      held := held - multiset{cp};
    }

    /** fusefs_lockpair: both fusenodes or neither, and a single one once. */
    method LockPair(cp1: Addr, cp2: Addr, t: LockType) returns (err: int)
      requires cp1 in nodes && cp2 in nodes
      modifies this
      ensures err == if CanLock(cp1, t) && CanLock(cp2, t) then 0 else ENOENT
      ensures forall x :: held[x] == old(held)[x] + Once(err == 0 && (x == cp1 || x == cp2))
      ensures var first := if cp1 == cp2 then cp1 else PairFirst(nodes, cp1, cp2);
        var last := if first == cp1 then cp2 else cp1;
        taken == old(taken) + if cp1 == cp2 || !CanLock(first, t) then [first] else [first, last]
    {
      if cp1 == cp2 {
        err := Lock(cp1, t);
        return;
      }
      var first, last;
      if nodes[cp1].isDir && nodes[cp1].nodeid == nodes[cp2].parent {
        first, last := cp1, cp2;
      } else if cp1 < cp2 {
        first, last := cp1, cp2;
      } else {
        first, last := cp2, cp1;
      }
      assert first == PairFirst(nodes, cp1, cp2);
      err := Lock(first, t);
      if err != 0 { return; }
      err := Lock(last, t);
      if err != 0 { Unlock(first); }
    }

    /** fusefs_unlockpair. */
    method UnlockPair(cp1: Addr, cp2: Addr)
      requires held[cp1] > 0 && held[cp2] > 0
      modifies this`held
      ensures forall x :: held[x] == old(held)[x] - Once(x == cp1 || x == cp2)
    {
      Unlock(cp1);
      if cp2 != cp1 { Unlock(cp2); }
    }

    /** One turn of the merge. */
    method MergeTurn(a: array<Addr>, b: array<Addr>, list: array<Addr>, i: nat, j: nat, k: nat)
      returns (i': nat, j': nat, k': nat)
      requires IsPair(nodes, a[..]) && IsPair(nodes, b[..]) && list != a && list != b
      requires i <= 2 && j <= 2 && (i < 2 || j < 2) && k < list.Length
      modifies list
      ensures k' <= k + 1 && Merge(i', j', list[..k']) == Pick(nodes, a[..], b[..], Merge(i, j, old(list[..k])))
    {
      i', j', k' := i, j, k;
      var tmp;
      if IsOrdered(nodes, a[i], b[j]) {
        tmp, i' := a[i], i + 1;
      } else {
        tmp, j' := b[j], j + 1;
      }
      if k == 0 || tmp != list[k - 1] {
        list[k] := tmp;
        k' := k + 1;
        assert list[..k + 1] == old(list[..k]) + [tmp];
      }
    }

    /** The merge of fusefs_lockfour. */
    method MergeLists(a: array<Addr>, b: array<Addr>, list: array<Addr>) returns (k: nat)
      requires IsPair(nodes, a[..]) && IsPair(nodes, b[..]) && list.Length == 4 && list != a && list != b
      modifies list
      ensures k <= 4 && list[..k] == Picks(nodes, a[..], b[..], 4).list
    {
      var i, j := 0, 0;
      k := 0;
      ghost var s, r := a[..], b[..];
      while i < 2 || j < 2
        invariant i <= 2 && j <= 2 && k <= i + j && a[..] == s && b[..] == r
        invariant Reached(nodes, s, r, Merge(i, j, list[..k]))
        decreases 4 - i - j
      {
        ghost var m := Merge(i, j, list[..k]);
        i, j, k := MergeTurn(a, b, list, i, j, k);
        ReachedNext(nodes, s, r, m);
      }
    }

    /** Drop the locks on the first n entries. */
    method Unwind(list: array<Addr>, n: nat)
      requires n <= list.Length && forall x :: x != NULL ==> Times(list[..n], x) <= held[x]
      modifies this`held
      ensures forall x :: held[x] == old(held)[x] - if x == NULL then 0 else Times(list[..n], x)
    {
      var i: nat := n;
      while i > 0
        invariant i <= n
        invariant forall x :: x != NULL ==>
          Times(list[..i], x) <= held[x] == old(held)[x] - Times(list[..n], x) + Times(list[..i], x)
        invariant held[NULL] == old(held)[NULL]
      {
        i := i - 1;
        assert list[..i + 1] == list[..i] + [list[i]];
        forall x ensures Times(list[..i + 1], x) == Times(list[..i], x) + Once(list[i] == x) {
          TimesMore(list[..i], list[i], x);
        }
        if list[i] != NULL { Unlock(list[i]); }
      }
    }

    /** All entries before position n - 1 can be locked, and that one cannot. */
    predicate GotTo(q: seq<Addr>, t: LockType, n: nat) {
      && 0 < n <= |q| && q[n - 1] != NULL && !CanLock(q[n - 1], t)
      && forall u :: 0 <= u < n - 1 && q[u] != NULL ==> CanLock(q[u], t)
    }

    /** The locks have been taken in the order of the list, up to the first that cannot be had. */
    ghost predicate TakenInOrder(q: seq<Addr>, t: LockType, err: int, was: seq<Addr>)
      reads this`taken
    {
      if err == 0 then taken == was + Fusenodes(q)
      else exists n: nat {:trigger GotTo(q, t, n)} :: GotTo(q, t, n) && taken == was + Fusenodes(q[..n])
    }

    /** The lock loop of fusefs_lockfour, with its way back. */
    method LockAll(list: array<Addr>, k: nat, t: LockType) returns (err: int)
      requires k <= list.Length && forall u :: 0 <= u < k ==> IsArg(nodes, list[u])
      modifies this
      ensures err == 0 || err == ENOENT
      ensures err == 0 <==> forall u :: 0 <= u < k && list[u] != NULL ==> CanLock(list[u], t)
      ensures forall x :: held[x] == old(held)[x] + if err == 0 && x != NULL then Times(list[..k], x) else 0
      ensures TakenInOrder(list[..k], t, err, old(taken))
    {
      var i := 0;
      ghost var q := list[..k];
      while i < k
        invariant i <= k
        invariant forall x :: held[x] == old(held)[x] + if x == NULL then 0 else Times(q[..i], x)
        invariant forall u :: 0 <= u < i && list[u] != NULL ==> CanLock(list[u], t)
        invariant taken == old(taken) + Fusenodes(q[..i])
      {
        assert q[..i] == list[..i];
        TimesNext(q, i);
        FusenodesNext(q, i);
        if list[i] != NULL {
          err := Lock(list[i], t);
          if err != 0 {
            Unwind(list, i);
            assert GotTo(q, t, i + 1) && taken == old(taken) + Fusenodes(q[..i + 1]);
            return;
          }
        }
        i := i + 1;
      }
      assert q[..k] == q;
      err := 0;
    }

    /** Two arguments in order, and the sentinel. */
    method FillPair(x: Addr, y: Addr) returns (a: array<Addr>)
      requires IsArg(nodes, x) && IsArg(nodes, y)
      ensures fresh(a) && a[..] == Pair(nodes, x, y)
    {
      a := new Addr[3];
      if IsOrdered(nodes, x, y) {
        a[0], a[1] := x, y;
      } else {
        a[0], a[1] := y, x;
      }
      a[2] := SENTINEL;
    }

    /** The first half of fusefs_lockfour. */
    method BuildList(cp1: Addr, cp2: Addr, cp3: Addr, cp4: Addr) returns (list: array<Addr>, k: nat)
      requires IsArg(nodes, cp1) && IsArg(nodes, cp2) && IsArg(nodes, cp3) && IsArg(nodes, cp4)
      ensures fresh(list) && k <= list.Length && list[..k] == LockList(nodes, cp1, cp2, cp3, cp4)
    {
      var a := FillPair(cp1, cp2);
      var b := FillPair(cp3, cp4);
      list := new Addr[4];
      k := MergeLists(a, b, list);
    }

    /** fusefs_lockfour: all or none, and each distinct fusenode once. */
    method LockFour(cp1: Addr, cp2: Addr, cp3: Addr, cp4: Addr, t: LockType) returns (err: int)
      requires IsArg(nodes, cp1) && IsArg(nodes, cp2) && IsArg(nodes, cp3) && IsArg(nodes, cp4)
      modifies this
      ensures err == 0 || err == ENOENT
      ensures err == 0 <==> forall x :: IsFusenode(x, cp1, cp2, cp3, cp4) ==> CanLock(x, t)
      ensures err != 0 ==> forall x :: held[x] == old(held)[x]
      ensures err == 0 && Friendly(nodes, cp1, cp2, cp3, cp4) ==>
                forall x :: held[x] == old(held)[x] + Once(IsFusenode(x, cp1, cp2, cp3, cp4))
      ensures TakenInOrder(LockList(nodes, cp1, cp2, cp3, cp4), t, err, old(taken))
    {
      var list, k := BuildList(cp1, cp2, cp3, cp4);
      ghost var q := list[..k];
      EntriesAreArguments(nodes, cp1, cp2, cp3, cp4);
      assert forall u :: 0 <= u < k ==> list[u] == q[u];
      err := LockAll(list, k, t);
      if err == 0 && Friendly(nodes, cp1, cp2, cp3, cp4) {
        forall x ensures held[x] == old(held)[x] + Once(IsFusenode(x, cp1, cp2, cp3, cp4)) {
          if x != NULL { ListedOnce(nodes, cp1, cp2, cp3, cp4, x); }
        }
      }
    }

    /** The scan and the unlock that fusefs_unlockfour repeats for each argument. */
    method UnlockNew(list: array<Addr>, k: nat, cp: Addr) returns (k': nat)
      requires k < list.Length && (cp != NULL && cp !in list[..k] ==> held[cp] > 0)
      modifies this`held, list
      ensures k' <= k + 1
      ensures forall x :: held[x] == old(held)[x] - Once(x == cp && cp != NULL && cp !in old(list[..k]))
      ensures forall x :: x in list[..k'] <==> x in old(list[..k]) || (x == cp && cp != NULL)
    {
      k' := k;
      if cp != NULL {
        var i := 0;
        while i < k && list[i] != cp
          invariant i <= k && cp !in list[..i]
        {
          i := i + 1;
        }
        if i == k {
          Unlock(cp);
          list[k] := cp;
          k' := k + 1;
          assert list[..k + 1] == old(list[..k]) + [cp];
        } else {
          assert cp in list[..k];
        }
      }
    }

    /** fusefs_unlockfour releases exactly what a successful fusefs_lockfour took. */
    method UnlockFour(cp1: Addr, cp2: Addr, cp3: Addr, cp4: Addr)
      requires forall x :: IsFusenode(x, cp1, cp2, cp3, cp4) ==> held[x] > 0
      modifies this`held
      ensures forall x :: held[x] == old(held)[x] - Once(IsFusenode(x, cp1, cp2, cp3, cp4))
    {
      var list := new Addr[4];
      var k := UnlockNew(list, 0, cp1);
      assert forall x :: x in list[..k] <==> IsFusenode(x, cp1, cp1, cp1, cp1);
      k := UnlockNew(list, k, cp2);
      assert forall x :: x in list[..k] <==> IsFusenode(x, cp1, cp2, cp2, cp2);
      UnlockRest(list, k, cp1, cp2, cp3, cp4);
    }

    method UnlockRest(list: array<Addr>, k: nat, cp1: Addr, cp2: Addr, cp3: Addr, cp4: Addr)
      requires list.Length == 4 && k <= 2
      requires forall x :: x in list[..k] <==> IsFusenode(x, cp1, cp2, cp2, cp2)
      requires forall x :: IsFusenode(x, cp1, cp2, cp3, cp4) && x !in list[..k] ==> held[x] > 0
      modifies this`held, list
      ensures forall x ::
        held[x] == old(held)[x] - Once(IsFusenode(x, cp1, cp2, cp3, cp4) && !IsFusenode(x, cp1, cp2, cp2, cp2))
    {
      var k' := UnlockNew(list, k, cp3);
      assert forall x :: x in list[..k'] <==> IsFusenode(x, cp1, cp2, cp3, cp3);
      k' := UnlockNew(list, k', cp4);
    }
  }
}
