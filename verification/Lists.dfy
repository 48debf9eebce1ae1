/** Linked lists of numbered objects (the kernel's TAILQ, STAILQ and LIST) as sequences. */
module Lists {
  datatype Option<+T> = None | Some(value: T)

  /** Removes the first occurrence, as TAILQ_REMOVE of a linked element does. */
  function Without(q: seq<nat>, t: nat): (r: seq<nat>)
    ensures |r| <= |q|
  {
    if q == [] then [] else if q[0] == t then q[1..] else [q[0]] + Without(q[1..], t)
  }

  predicate NoDup(q: seq<nat>) {
    forall i, j :: 0 <= i < j < |q| ==> q[i] != q[j]
  }

  lemma {:induction false} WithoutMembers(q: seq<nat>, t: nat)
    requires NoDup(q)
    ensures NoDup(Without(q, t)) && t !in Without(q, t)
    ensures forall u :: u in Without(q, t) <==> u in q && u != t
    ensures |Without(q, t)| == if t in q then |q| - 1 else |q|
  {
    if q == [] {
    } else {
      assert q == [q[0]] + q[1..];
      assert forall u :: u in q <==> u == q[0] || u in q[1..];
      if q[0] != t {
        WithoutMembers(q[1..], t);
        var w := Without(q[1..], t);
        assert forall u :: u in [q[0]] + w <==> u == q[0] || u in w;
        forall i, j | 0 <= i < j < |[q[0]] + w| ensures ([q[0]] + w)[i] != ([q[0]] + w)[j] {
          assert j > 0 && w[j - 1] in w;
        }
      }
    }
  }

  /** TAILQ_REMOVE of the element that a search has found first. */
  lemma {:induction false} WithoutAt(q: seq<nat>, i: nat)
    requires i < |q| && forall k :: 0 <= k < i ==> q[k] != q[i]
    ensures Without(q, q[i]) == q[..i] + q[i + 1..]
  {
    if i > 0 {
      WithoutAt(q[1..], i - 1);
      assert q[..i] + q[i + 1..] == [q[0]] + (q[1..][..i - 1] + q[1..][i..]);
    }
  }

  lemma {:induction false} WithoutAbsent(q: seq<nat>, t: nat)
    requires t !in q
    ensures Without(q, t) == q
  {
    if q != [] { WithoutAbsent(q[1..], t); }
  }

  function One(b: bool): nat { if b then 1 else 0 }

  lemma {:induction false} WithoutCounts(q: seq<nat>, t: nat)
    ensures multiset(Without(q, t)) == multiset(q) - multiset{t}
    ensures |Without(q, t)| == |q| - One(t in q)
  {
    if q == [] {
    } else {
      assert q == [q[0]] + q[1..];
      if q[0] != t { WithoutCounts(q[1..], t); }
    }
  }

  lemma HeadCounts(q: seq<nat>)
    requires q != []
    ensures multiset(q) == multiset{q[0]} + multiset(q[1..])
  {
    assert q == [q[0]] + q[1..];
  }

  lemma TailCounts(q: seq<nat>, t: nat)
    ensures multiset(q + [t]) == multiset(q) + multiset{t}
  {
  }

  lemma OnceInQueue(q: seq<nat>, t: nat)
    requires NoDup(q)
    ensures multiset(q)[t] == One(t in q)
  {
    WithoutMembers(q, t);
    WithoutCounts(q, t);
    assert t !in multiset(Without(q, t));
    assert t in q <==> t in multiset(q);
  }

  predicate EndsIn<T(==)>(q: seq<T>, t: T) { q != [] && q[|q| - 1] == t }

  /** The elements up to the first t, all of them if there is no t. */
  function UpTo<T(==)>(q: seq<T>, t: T): (r: seq<T>)
    ensures r <= q
  {
    if q == [] then [] else if q[0] == t then [t] else [q[0]] + UpTo(q[1..], t)
  }

  lemma {:induction false} UpToEnds<T>(q: seq<T>, t: T)
    ensures t in q ==> EndsIn(UpTo(q, t), t)
    ensures t !in q ==> UpTo(q, t) == q
  {
    if q != [] { UpToEnds(q[1..], t); }
  }

  lemma {:induction false} UpToAt<T>(q: seq<T>, k: nat)
    requires k < |q| && forall n :: 0 <= n < k ==> q[n] != q[k]
    ensures UpTo(q, q[k]) == q[..k + 1]
  {
    if k > 0 {
      UpToAt(q[1..], k - 1);
      assert q[..k + 1] == [q[0]] + q[1..][..k];
    }
  }
}
