/** struct fuse_iov: the buffer of a ticket, and how reluctantly it is made smaller. */
module Fiov {
  import DirRecords

  const MIN_ALLOC: nat := 160
  const ENOMEM := 12

  /** FU_AT_LEAST. */
  function AtLeast(size: nat): (r: nat)
    ensures r >= size && r >= MIN_ALLOC && (r == size || r == MIN_ALLOC)
  {
    if size > MIN_ALLOC then size else MIN_ALLOC
  }

  datatype Iov = Iov(len: nat, alloc: nat, credit: int)

  /** fuse_iov_permanent_bufsize (unsigned, so the test that it is >= 0 is always true) and
    * fuse_iov_credit.
    */
  datatype Tunables = Tunables(permanent: nat, credit: nat)

  /** What a call did to the buffer: nothing; it was too large but was left alone; it was
    * replaced because it was too small, or because it had been too large for too long; or
    * there was no memory to replace it.
    */
  datatype Kind = Kept | Spared | Grown | Trimmed | Failed

  predicate Replaced(k: Kind) { k == Grown || k == Trimmed }

  datatype Call = Adjust(size: nat) | AdjustCanFail(size: nat, memory: bool) | Refresh

  function Init(t: Tunables, size: nat): Iov { Iov(0, AtLeast(size), t.credit) }

  /** fiov_adjust and fiov_adjust_canfail. */
  function Resize(t: Tunables, v: Iov, size: nat, memory: bool): (Iov, Kind) {
    var whole := Iov(size, AtLeast(size), t.credit);
    if v.alloc < size then if memory then (whole, Grown) else (v, Failed)
    else if v.alloc - size <= t.permanent then (v.(len := size), Kept)
    else if v.credit - 1 >= 0 then (v.(len := size, credit := v.credit - 1), Spared)
    else if memory then (whole, Trimmed) else (v.(credit := v.credit - 1), Failed)
  }

  function Do(t: Tunables, v: Iov, c: Call): (Iov, Kind) {
    match c
    case Adjust(size) => Resize(t, v, size, true)
    case AdjustCanFail(size, memory) => Resize(t, v, size, memory)
    case Refresh => Resize(t, v, 0, true)
  }

  /** An adjustment that does not fail makes the buffer that long. It fails exactly if the buffer is too
    * small, or too large and out of credit, and there is no memory, and then the buffer is as it was.
    * A buffer that is replaced is as large as asked for, or 160, and has its full credit; one that is
    * not keeps its size, and loses one credit if it is too large.
    */
  lemma ResizeExactly(t: Tunables, v: Iov, size: nat, memory: bool)
    ensures var (w, k) := Resize(t, v, size, memory);
      var tooLarge := v.alloc > size + t.permanent;
      var replace := v.alloc < size || (tooLarge && v.credit <= 0);
      && (k == Failed <==> replace && !memory) && w.len == (if k == Failed then v.len else size)
      && (Replaced(k) <==> replace && memory) && (k == Grown ==> v.alloc < size) && (k == Trimmed ==> v.alloc >= size)
      && (if Replaced(k) then w.alloc == AtLeast(size) && w.credit == t.credit
          else w.alloc == v.alloc && w.credit == if tooLarge then v.credit - 1 else v.credit)
      && (k == Spared <==> tooLarge && !replace)
  {
  }

  // ---- As it runs ----------------------------------------------------------------------------

  /** fuse_memory_allocated. */
  class Account {
    var memory: int

    constructor ()
      ensures memory == 0
    {
      memory := 0;
    }
  }

  class FuseIov {
    const tunables: Tunables
    var len: nat
    var allocatedSize: nat
    var credit: int

    function View(): Iov
      reads this
    {
      Iov(len, allocatedSize, credit)
    }

    /** fiov_init. */
    constructor (t: Tunables, size: nat, account: Account)
      modifies account
      ensures tunables == t && View() == Init(t, size) && account.memory == old(account.memory) + allocatedSize
    {
      tunables, len, allocatedSize, credit := t, 0, AtLeast(size), t.credit;
      new;
      account.memory := account.memory + AtLeast(size);
    }

    /** fiov_adjust_canfail; fiov_adjust panics where this one fails. memory: the allocator has
      * not returned NULL, which FUSE_OSMalloc answers with a panic when it counts memory.
      */
    method AdjustCanFail(size: nat, memory: bool, account: Account) returns (err: int)
      modifies this, account
      ensures View() == Resize(tunables, old(View()), size, memory).0
      ensures err == if Resize(tunables, old(View()), size, memory).1 == Failed then ENOMEM else 0
      ensures account.memory - allocatedSize == old(account.memory - allocatedSize)
      ensures err == 0 ==> len == size <= allocatedSize
      ensures err != 0 ==> !memory && len == old(len) && allocatedSize == old(allocatedSize)
    {
      var replace := allocatedSize < size;
      if !replace && allocatedSize - size > tunables.permanent {
        credit := credit - 1;
        replace := credit < 0;
      }
      if replace {
        if !memory { return ENOMEM; }
        account.memory := account.memory + AtLeast(size);
        account.memory := account.memory - allocatedSize;
        allocatedSize, credit := AtLeast(size), tunables.credit;
      }
      len := size;
      err := 0;
    }

    /** fiov_adjust. */
    method AdjustTo(size: nat, account: Account)
      modifies this, account
      ensures View() == Resize(tunables, old(View()), size, true).0 && len == size <= allocatedSize
      ensures account.memory - allocatedSize == old(account.memory - allocatedSize)
    {
      var err := AdjustCanFail(size, true, account);
    }

    /** fiov_refresh. */
    method RefreshIt(account: Account)
      modifies this, account
      ensures View() == Do(tunables, old(View()), Refresh).0 && len == 0
      ensures account.memory - allocatedSize == old(account.memory - allocatedSize)
    {
      AdjustTo(0, account);
    }

    /** fiov_teardown. */
    method Teardown(account: Account)
      modifies this, account
      ensures allocatedSize == 0 && account.memory - allocatedSize == old(account.memory - allocatedSize)
    {
      account.memory := account.memory - allocatedSize;
      allocatedSize := 0;
    }
  }

  // ---- Whole runs ---------------------------------------------------------------------------

  /** The buffer after a run of calls, and what each of them did. */
  function Run(t: Tunables, size: nat, calls: seq<Call>): (r: (Iov, seq<Kind>))
    ensures |r.1| == |calls|
  {
    if calls == [] then (Init(t, size), [])
    else
      var last := |calls| - 1;
      var (v, kinds) := Run(t, size, calls[..last]);
      var (v', k) := Do(t, v, calls[last]);
      (v', kinds + [k])
  }

  /** How often the buffer has been spared since it was last replaced. */
  function SparedSince(kinds: seq<Kind>): nat {
    if kinds == [] then 0
    else
      var last := |kinds| - 1;
      if Replaced(kinds[last]) then 0
      else SparedSince(kinds[..last]) + if kinds[last] == Spared then 1 else 0
  }

  function SparedTimes(kinds: seq<Kind>): nat {
    if kinds == [] then 0
    else
      var last := |kinds| - 1;
      SparedTimes(kinds[..last]) + if kinds[last] == Spared then 1 else 0
  }

  /** len never exceeds the allocation, which is never below 160, and the credit says how
    * often the buffer has been spared.
    */
  lemma {:induction false} BufferIsBigEnough(t: Tunables, size: nat, calls: seq<Call>)
    ensures var (v, kinds) := Run(t, size, calls);
      && v.len <= v.alloc && MIN_ALLOC <= v.alloc
      && (v.credit > 0 ==> v.credit == t.credit - SparedSince(kinds))
      && (v.credit <= 0 ==> SparedSince(kinds) == t.credit)
  {
    if calls != [] {
      var last := |calls| - 1;
      BufferIsBigEnough(t, size, calls[..last]);
      var (v, kinds) := Run(t, size, calls[..last]);
      var k := Do(t, v, calls[last]).1;
      assert (kinds + [k])[..last] == kinds;
    }
  }

  function SizeOf(c: Call): nat { if c.Refresh? then 0 else c.size }

  /** After any calls: the buffer is as long as the last one asked for, unless that failed, and has at
    * least that room.
    */
  lemma LastCallIsMet(t: Tunables, size: nat, calls: seq<Call>, c: Call)
    ensures var (v, kinds) := Run(t, size, calls + [c]);
      kinds[|calls|] != Failed ==> v.len == SizeOf(c) <= v.alloc
  {
    assert (calls + [c])[..|calls|] == calls;
    BufferIsBigEnough(t, size, calls + [c]);
  }

  lemma {:induction false} SparedBetween(kinds: seq<Kind>, i: nat)
    requires i < |kinds| && Replaced(kinds[i])
    ensures SparedSince(kinds) <= SparedTimes(kinds[i + 1..])
  {
    var last := |kinds| - 1;
    if i < last {
      SparedBetween(kinds[..last], i);
      assert kinds[i + 1..][..last - i - 1] == kinds[..last][i + 1..];
    }
  }

  lemma {:induction false} KindsSoFar(t: Tunables, size: nat, calls: seq<Call>, n: nat)
    requires n <= |calls|
    ensures Run(t, size, calls).1[..n] == Run(t, size, calls[..n]).1
  {
    if n < |calls| {
      var last := |calls| - 1;
      KindsSoFar(t, size, calls[..last], n);
      assert calls[..last][..n] == calls[..n];
    } else {
      assert calls[..n] == calls;
    }
  }

  /** A buffer that has just been replaced is trimmed only after having been spared as often
    * as the credit allows: two trims are that many spared calls apart, and so is the first
    * one from the beginning.
    */
  lemma TrimsAreFarApart(t: Tunables, size: nat, calls: seq<Call>, i: nat, j: nat)
    requires j < |calls| && Run(t, size, calls).1[j] == Trimmed
    ensures SparedTimes(Run(t, size, calls).1[..j]) >= t.credit
    ensures i < j && Replaced(Run(t, size, calls).1[i]) ==> SparedTimes(Run(t, size, calls).1[i + 1..j]) >= t.credit
  {
    var kinds := Run(t, size, calls).1;
    KindsSoFar(t, size, calls, j);
    KindsSoFar(t, size, calls, j + 1);
    assert calls[..j + 1][..j] == calls[..j];
    BufferIsBigEnough(t, size, calls[..j]);
    assert kinds[..j + 1][j] == Trimmed;
    assert SparedSince(kinds[..j]) == t.credit;
    AtMostAll(kinds[..j]);
    if i < j && Replaced(kinds[i]) {
      SparedBetween(kinds[..j], i);
      assert kinds[..j][i + 1..] == kinds[i + 1..j];
    }
  }

  lemma {:induction false} AtMostAll(kinds: seq<Kind>)
    ensures SparedSince(kinds) <= SparedTimes(kinds)
  {
    if kinds != [] { AtMostAll(kinds[..|kinds| - 1]); }
  }

  // ---- The buffer in which readdir builds its records --------------------------------------------

  /** The buffer is made for one record of any length; see fuse_vnop_readdir. */
  const DIRCOOKEDSIZE: nat := (DirRecords.FUSE_NAME_OFFSET + DirRecords.MAXNAMLEN + 1 + 7) / 8 * 8

  /** fuse_internal_readdir_processdata makes the buffer as long as the record of a name. */
  function ForRecord(t: Tunables, v: Iov, namelen: nat): Iov {
    Do(t, Do(t, v, Refresh).0, Adjust(DirRecords.CookedSize(namelen))).0
  }

  /** It writes the byte behind every record; all these bytes are in the allocation. */
  predicate AllHaveRoom(t: Tunables, v: Iov, names: seq<nat>)
    decreases names
  {
    names == [] || (var w := ForRecord(t, v, names[0]); w.len < w.alloc && AllHaveRoom(t, w, names[1..]))
  }

  predicate AreNames(names: seq<nat>) {
    forall n :: n in names ==> 1 <= n <= DirRecords.MAXNAMLEN
  }

  lemma {:induction false} LeftAlone(t: Tunables, v: Iov, names: seq<nat>)
    requires v.alloc == AtLeast(DIRCOOKEDSIZE) <= t.permanent && AreNames(names)
    ensures AllHaveRoom(t, v, names)
    decreases names
  {
    if names != [] {
      assert names[0] in names && forall n :: n in names[1..] ==> n in names;
      LeftAlone(t, ForRecord(t, v, names[0]), names[1..]);
    }
  }

  function LongNames(n: nat): (names: seq<nat>)
    ensures AreNames(names) && |names| == n
  {
    seq(n, _ => DirRecords.MAXNAMLEN)
  }

  /** Every record spends credit, and the one that trims the buffer has no byte behind it. */
  lemma {:induction false} TrimmedTooFar(t: Tunables, v: Iov, n: nat)
    requires v.alloc == AtLeast(DIRCOOKEDSIZE) > t.permanent && 0 <= v.credit < n
    ensures !AllHaveRoom(t, v, LongNames(n))
    decreases v.credit
  {
    var w := ForRecord(t, v, DirRecords.MAXNAMLEN);
    assert LongNames(n)[1..] == LongNames(n - 1);
    if w.len < w.alloc { TrimmedTooFar(t, w, n - 1); }
  }

  /** The byte that readdir writes behind a record is in the allocation, for every directory, if and
    * only if the tunable fuse_iov_permanent_bufsize lets the buffer keep the size that it is made with.
    */
  lemma RecordsHaveRoomExactly(t: Tunables)
    ensures (forall names: seq<nat> :: AreNames(names) ==> AllHaveRoom(t, Init(t, DIRCOOKEDSIZE), names))
            <==> DIRCOOKEDSIZE <= t.permanent
  {
    if DIRCOOKEDSIZE <= t.permanent {
      forall names: seq<nat> | AreNames(names) ensures AllHaveRoom(t, Init(t, DIRCOOKEDSIZE), names) {
        LeftAlone(t, Init(t, DIRCOOKEDSIZE), names);
      }
    } else {
      TrimmedTooFar(t, Init(t, DIRCOOKEDSIZE), t.credit + 1);
      assert AreNames(LongNames(t.credit + 1));
    }
  }
}
