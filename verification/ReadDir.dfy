/** Reading a directory: fuse_internal_readdir, its record loop, and calls in sequence. */
module ReadDir {
  import opened DirRecords

  const EIO := 5
  const EINVAL := 22

  /** A uio_t: what is left of the user's buffer, the position, and what is in the buffer. */
  datatype Uio = Uio(resid: nat, offset: nat, out: seq<Dirent>)
  {
    function Take(e: Entry, hidden: Hidden): Uio
      requires CookedSize(|e.name|) <= resid
    {
      Uio(resid - CookedSize(|e.name|), e.off, out + [Cook(e, hidden)])
    }
  }

  /** fuse_internal_readdir_processdata, with cou records behind it. */
  function Process(u: Uio, buf: seq<byte>, cou: nat, hidden: Hidden): (r: (Uio, int))
    ensures r.0.resid <= u.resid && (cou == 0 && r.1 == 0 ==> r.0.resid < u.resid)
    decreases |buf|
  {
    if |buf| < FUSE_NAME_OFFSET then (u, -1)
    else
      var namelen := NameLength(buf);
      if |buf| < RawSize(namelen) then (u, if cou == 0 then -1 else 0)
      else if namelen == 0 then (u, EINVAL)
      else if namelen > MAXNAMLEN then (u, EIO)
      else if CookedSize(namelen) > u.resid then (u, -1)
      else Process(u.Take(Decode(buf), hidden), buf[RawSize(namelen)..], cou + 1, hidden)
  }

  /** What fdisp_wait_answ makes of a reply: an error of the daemon, or the body. */
  datatype Reply = Reply(err: int, body: seq<byte>)

  /** The daemon, asked for (call, turn, offset, size): it may answer differently each time. */
  type Daemon = (nat, nat, nat, nat) -> Reply

  /** fuse_body_audit for FUSE_READDIR: a body longer than the request is an error. */
  function Ask(daemon: Daemon, call: nat, turn: nat, offset: nat, size: nat): (r: Reply)
    ensures r.err == 0 ==> |r.body| <= size
  {
    var r := daemon(call, turn, offset, size);
    if r.err != 0 then Reply(r.err, []) else if |r.body| > size then Reply(EIO, []) else r
  }

  function Min(a: nat, b: nat): nat { if a < b then a else b }

  /** fuse_internal_readdir. */
  function Read(u: Uio, daemon: Daemon, call: nat, turn: nat, iosize: nat, hidden: Hidden): (Uio, int)
    decreases u.resid
  {
    if u.resid == 0 then (u, 0)
    else
      var r := Ask(daemon, call, turn, u.offset, Min(u.resid, iosize));
      if r.err != 0 then (u, if r.err == -1 then 0 else r.err)
      else
        var (u1, err) := Process(u, r.body, 0, hidden);
        if err == 0 then Read(u1, daemon, call, turn + 1, iosize, hidden)
        else (u1, if err == -1 then 0 else err)
  }

  class UserIo {
    var resid: nat
    var offset: nat
    var out: seq<Dirent>

    constructor (resid: nat, offset: nat)
      ensures View() == Uio(resid, offset, [])
    {
      this.resid, this.offset, out := resid, offset, [];
    }

    function View(): Uio
      reads this
    {
      Uio(resid, offset, out)
    }

    method ProcessData(buffer: seq<byte>, hidden: Hidden) returns (err: int)
      modifies this
      ensures (View(), err) == Process(old(View()), buffer, 0, hidden)
    {
      var buf, cou := buffer, 0;
      while true
        invariant Process(View(), buf, cou, hidden) == Process(old(View()), buffer, 0, hidden)
        decreases |buf|
      {
        if |buf| < FUSE_NAME_OFFSET { return -1; }
        var namelen := NameLength(buf);
        var freclen := RawSize(namelen);
        cou := cou + 1;
        if |buf| < freclen { return if cou == 1 then -1 else 0; }
        if namelen == 0 { return EINVAL; }
        if namelen > MAXNAMLEN { return EIO; }
        var bytesavail := CookedSize(namelen);
        if bytesavail > resid { return -1; }
        var fudge := Decode(buf);
        resid, out, offset := resid - bytesavail, out + [Cook(fudge, hidden)], fudge.off;
        buf := buf[freclen..];
      }
    }

    method InternalReaddir(daemon: Daemon, call: nat, iosize: nat, hidden: Hidden) returns (err: int)
      modifies this
      ensures (View(), err) == Read(old(View()), daemon, call, 0, iosize, hidden)
    {
      var turn := 0;
      while resid > 0
        invariant Read(View(), daemon, call, turn, iosize, hidden) == Read(old(View()), daemon, call, 0, iosize, hidden)
        decreases resid
      {
        var r := Ask(daemon, call, turn, offset, Min(resid, iosize));
        if r.err != 0 { return if r.err == -1 then 0 else r.err; }
        err := ProcessData(r.body, hidden);
        if err != 0 { return if err == -1 then 0 else err; }
        turn := turn + 1;
      }
      err := 0;
    }
  }

  // ---- A directory and a daemon that serves it -----------------------------------------------

  ghost predicate WellFormed(d: seq<Entry>) {
    forall i :: 0 <= i < |d| ==> Encodable(d[i]) && 0 < |d[i].name| <= MAXNAMLEN
  }

  /** The position before entry k: each entry's off is the position after it. */
  function Position(d: seq<Entry>, k: nat): nat
    requires k <= |d|
  {
    if k == 0 then 0 else d[k - 1].off
  }

  /** A reply to a request at entry k: m whole entries, and at most a part of another. */
  ghost predicate Serving(d: seq<Entry>, k: nat, m: nat, size: nat, r: Reply)
    requires k <= |d|
  {
    && k + m <= |d| && r.err == 0 && |r.body| <= size
    && (exists tail :: Incomplete(tail) && r.body == EncodeAll(d[k..k + m]) + tail)
    && (k < |d| && RawSize(|d[k].name|) <= size ==> m > 0)
  }

  ghost predicate Serves(daemon: Daemon, d: seq<Entry>) {
    forall call, turn, k, size :: 0 <= k <= |d| ==>
      exists m :: Serving(d, k, m, size, daemon(call, turn, Position(d, k), size))
  }

  function CookedTotal(es: seq<Entry>): nat {
    if es == [] then 0 else CookedSize(|es[0].name|) + CookedTotal(es[1..])
  }

  /** An audited reply always fits into what is left of the user's buffer. */
  lemma {:induction false} RepliesFit(es: seq<Entry>)
    ensures CookedTotal(es) <= |EncodeAll(es)|
  {
    if es != [] {
      CookedFits(|es[0].name|);
      RepliesFit(es[1..]);
    }
  }

  /** The uio after the entries es have been moved to it. */
  function Moved(u: Uio, es: seq<Entry>, hidden: Hidden): Uio
    requires CookedTotal(es) <= u.resid
  {
    Uio(u.resid - CookedTotal(es), if es == [] then u.offset else es[|es| - 1].off, u.out + CookAll(es, hidden))
  }

  lemma MovedFirst(u: Uio, e: Entry, es: seq<Entry>, hidden: Hidden)
    requires CookedSize(|e.name|) + CookedTotal(es) <= u.resid
    ensures CookedTotal([e] + es) <= u.resid
    ensures Moved(u.Take(e, hidden), es, hidden) == Moved(u, [e] + es, hidden)
  {
    assert ([e] + es)[1..] == es;
    assert u.out + CookAll([e] + es, hidden) == u.out + [Cook(e, hidden)] + CookAll(es, hidden);
  }

  lemma ProcessOne(u: Uio, e: Entry, rest: seq<byte>, cou: nat, hidden: Hidden)
    requires Encodable(e) && 0 < |e.name| <= MAXNAMLEN && CookedSize(|e.name|) <= u.resid
    ensures Process(u, Encode(e) + rest, cou, hidden) == Process(u.Take(e, hidden), rest, cou + 1, hidden)
  {
    DecodeEncode(e, rest);
  }

  /** The record loop takes whole entries that fit, one after the other. */
  lemma {:induction false} ProcessMoves(u: Uio, es: seq<Entry>, rest: seq<byte>, cou: nat, n: nat, hidden: Hidden)
    requires WellFormed(es) && CookedTotal(es) <= u.resid && n == cou + |es|
    ensures Process(u, EncodeAll(es) + rest, cou, hidden) == Process(Moved(u, es, hidden), rest, n, hidden)
    decreases |es|
  {
    if es == [] {
      assert EncodeAll(es) + rest == rest && CookAll(es, hidden) == [];
      assert u.out + [] == u.out;
    } else {
      var more := EncodeAll(es[1..]) + rest;
      assert EncodeAll(es) + rest == Encode(es[0]) + more;
      calc {
        Process(u, EncodeAll(es) + rest, cou, hidden);
        { ProcessOne(u, es[0], more, cou, hidden); }
        Process(u.Take(es[0], hidden), more, cou + 1, hidden);
        { ProcessMoves(u.Take(es[0], hidden), es[1..], rest, cou + 1, n, hidden); }
        Process(Moved(u.Take(es[0], hidden), es[1..], hidden), rest, n, hidden);
        { MovedFirst(u, es[0], es[1..], hidden); assert es == [es[0]] + es[1..]; }
        Process(Moved(u, es, hidden), rest, n, hidden);
      }
    }
  }

  /** u1 is u after the records of es have been moved to it. */
  ghost predicate HasMoved(u: Uio, es: seq<Entry>, hidden: Hidden, u1: Uio) {
    && u1.resid + CookedTotal(es) == u.resid && u1.offset == (if es == [] then u.offset else es[|es| - 1].off)
    && u.out <= u1.out && ShowsAll(u1.out[|u.out|..], es, hidden)
  }

  lemma MovedHasMoved(u: Uio, es: seq<Entry>, hidden: Hidden)
    requires CookedTotal(es) <= u.resid
    ensures HasMoved(u, es, hidden, Moved(u, es, hidden))
  {
    CookedShow(es, hidden);
    assert Moved(u, es, hidden).out[|u.out|..] == CookAll(es, hidden);
  }

  lemma ProcessTakesWhole(u: Uio, es: seq<Entry>, tail: seq<byte>, cou: nat, hidden: Hidden)
    requires WellFormed(es) && Incomplete(tail) && |EncodeAll(es)| <= u.resid
    ensures CookedTotal(es) <= u.resid
    ensures var (u1, err) := Process(u, EncodeAll(es) + tail, cou, hidden);
      u1 == Moved(u, es, hidden) && (err == -1 || err == 0) && (err == 0 ==> cou + |es| > 0)
  {
    RepliesFit(es);
    ProcessMoves(u, es, tail, cou, cou + |es|, hidden);
  }

  /** The record loop takes every whole entry of a reply that fits, and stops at the tail. */
  lemma ProcessTakesAll(u: Uio, es: seq<Entry>, tail: seq<byte>, hidden: Hidden)
    requires WellFormed(es) && Incomplete(tail) && |EncodeAll(es)| <= u.resid
    ensures var (u1, err) := Process(u, EncodeAll(es) + tail, 0, hidden);
      HasMoved(u, es, hidden, u1) && (err == -1 || err == 0)
  {
    ProcessTakesWhole(u, es, tail, 0, hidden);
    MovedHasMoved(u, es, hidden);
  }

  /** It stops at a record without a name, with too long a name, or too long for the buffer, and
    * keeps what it has taken before.
    */
  lemma ProcessStops(u: Uio, es: seq<Entry>, rest: seq<byte>, hidden: Hidden)
    requires WellFormed(es) && CookedTotal(es) <= u.resid && !Incomplete(rest)
    ensures var (u1, err) := Process(u, EncodeAll(es) + rest, 0, hidden);
      && (NameLength(rest) == 0 ==> HasMoved(u, es, hidden, u1) && err == EINVAL)
      && (NameLength(rest) > MAXNAMLEN ==> HasMoved(u, es, hidden, u1) && err == EIO)
      && (0 < NameLength(rest) <= MAXNAMLEN && CookedTotal(es) + CookedSize(NameLength(rest)) > u.resid ==>
            HasMoved(u, es, hidden, u1) && err == -1)
  {
    ProcessMoves(u, es, rest, 0, |es|, hidden);
    MovedHasMoved(u, es, hidden);
  }

  lemma {:induction false} TotalSplit(a: seq<Entry>, b: seq<Entry>)
    ensures CookedTotal(a + b) == CookedTotal(a) + CookedTotal(b)
  {
    if a == [] {
      assert a + b == b;
    } else {
      assert (a + b)[1..] == a[1..] + b;
      TotalSplit(a[1..], b);
    }
  }

  lemma MovedOn(d: seq<Entry>, k: nat, m: nat, n: nat, hidden: Hidden)
    requires k <= m <= n <= |d|
    ensures CookAll(d[k..m], hidden) + CookAll(d[m..n], hidden) == CookAll(d[k..n], hidden)
    ensures CookedTotal(d[k..m]) + CookedTotal(d[m..n]) == CookedTotal(d[k..n])
  {
    CookAllSplit(d[k..m], d[m..n], hidden);
    TotalSplit(d[k..m], d[m..n]);
    assert d[k..n] == d[k..m] + d[m..n];
  }

  ghost predicate TookTo(u: Uio, d: seq<Entry>, k: nat, n: nat, hidden: Hidden, u1: Uio) {
    && k <= n <= |d| && u1.offset == Position(d, n) && u1.resid + CookedTotal(d[k..n]) == u.resid
    && u1.out == u.out + CookAll(d[k..n], hidden)
  }

  lemma MovedTo(u: Uio, d: seq<Entry>, k: nat, n: nat, hidden: Hidden)
    requires k <= n <= |d| && u.offset == Position(d, k) && CookedTotal(d[k..n]) <= u.resid
    ensures TookTo(u, d, k, n, hidden, Moved(u, d[k..n], hidden))
  {
    var es := d[k..n];
    if n > k { assert es[|es| - 1] == d[n - 1]; }
  }

  lemma ReplyTakes(u: Uio, d: seq<Entry>, k: nat, n: nat, tail: seq<byte>, hidden: Hidden)
    requires WellFormed(d) && k <= n <= |d| && u.offset == Position(d, k) && Incomplete(tail)
    requires |EncodeAll(d[k..n])| <= u.resid
    ensures var (u1, err) := Process(u, EncodeAll(d[k..n]) + tail, 0, hidden);
      (err == -1 || err == 0) && TookTo(u, d, k, n, hidden, u1)
  {
    ProcessTakesWhole(u, d[k..n], tail, 0, hidden);
    MovedTo(u, d, k, n, hidden);
  }

  lemma ReplyAt(daemon: Daemon, d: seq<Entry>, k: nat, call: nat, turn: nat, size: nat)
    returns (n: nat, tail: seq<byte>)
    requires Serves(daemon, d) && k <= |d|
    ensures k <= n <= |d| && (k < |d| && RawSize(|d[k].name|) <= size ==> n > k)
    ensures var r := daemon(call, turn, Position(d, k), size);
      r.err == 0 && |r.body| <= size && Incomplete(tail) && r.body == EncodeAll(d[k..n]) + tail
  {
    var r := daemon(call, turn, Position(d, k), size);
    var m :| Serving(d, k, m, size, r);
    n := k + m;
    tail :| Incomplete(tail) && r.body == EncodeAll(d[k..n]) + tail;
  }

  /** One request, from entry k. */
  lemma OneRequest(u: Uio, daemon: Daemon, d: seq<Entry>, k: nat, call: nat, turn: nat, size: nat, hidden: Hidden)
    returns (n: nat)
    requires WellFormed(d) && Serves(daemon, d) && k <= |d| && u.offset == Position(d, k) && size <= u.resid
    ensures k <= n <= |d| && (k < |d| && RawSize(|d[k].name|) <= size ==> n > k)
    ensures var r := Ask(daemon, call, turn, u.offset, size);
      && r.err == 0
      && var (u1, err) := Process(u, r.body, 0, hidden);
        (err == -1 || err == 0) && TookTo(u, d, k, n, hidden, u1)
  {
    var tail;
    n, tail := ReplyAt(daemon, d, k, call, turn, size);
    ReplyTakes(u, d, k, n, tail, hidden);
  }

  lemma TookFurther(u: Uio, d: seq<Entry>, k: nat, m: nat, n: nat, hidden: Hidden, u1: Uio, u2: Uio)
    requires TookTo(u, d, k, m, hidden, u1) && TookTo(u1, d, m, n, hidden, u2)
    ensures TookTo(u, d, k, n, hidden, u2)
  {
    MovedOn(d, k, m, n, hidden);
    Regroup(u.out, CookAll(d[k..m], hidden), CookAll(d[m..n], hidden));
  }

  lemma Regroup(a: seq<Dirent>, b: seq<Dirent>, c: seq<Dirent>)
    ensures (a + b) + c == a + (b + c)
  {
  }

  lemma {:induction false} ReadTakes(u: Uio, daemon: Daemon, d: seq<Entry>, k: nat, call: nat, turn: nat, iosize: nat,
                                     hidden: Hidden)
    returns (n: nat)
    requires WellFormed(d) && Serves(daemon, d) && k <= |d| && u.offset == Position(d, k)
    ensures var (u1, err) := Read(u, daemon, call, turn, iosize, hidden); err == 0 && TookTo(u, d, k, n, hidden, u1)
    ensures k < |d| && RawSize(|d[k].name|) <= Min(u.resid, iosize) ==> n > k
    decreases u.resid
  {
    if u.resid == 0 {
      n := k;
      assert u.out + CookAll(d[k..k], hidden) == u.out;
    } else {
      var m := OneRequest(u, daemon, d, k, call, turn, Min(u.resid, iosize), hidden);
      var (u1, err) := Process(u, Ask(daemon, call, turn, u.offset, Min(u.resid, iosize)).body, 0, hidden);
      n := m;
      if err == 0 {
        n := ReadTakes(u1, daemon, d, m, call, turn + 1, iosize, hidden);
        TookFurther(u, d, k, m, n, hidden, u1, Read(u1, daemon, call, turn + 1, iosize, hidden).0);
      }
    }
  }

  /** Entries k to n have been moved: the position, the space left, and the records, field by field. */
  ghost predicate MovedOnTo(u: Uio, d: seq<Entry>, k: nat, n: nat, hidden: Hidden, u1: Uio) {
    && k <= n <= |d| && u1.offset == Position(d, n) && u1.resid + CookedTotal(d[k..n]) == u.resid
    && u.out <= u1.out && ShowsAll(u1.out[|u.out|..], d[k..n], hidden)
  }

  lemma TookAndShows(u: Uio, d: seq<Entry>, k: nat, n: nat, hidden: Hidden, u1: Uio)
    requires TookTo(u, d, k, n, hidden, u1)
    ensures MovedOnTo(u, d, k, n, hidden, u1)
  {
    CookedShow(d[k..n], hidden);
    assert u1.out[|u.out|..] == CookAll(d[k..n], hidden);
  }

  /** One call, from entry k: it succeeds, and has moved the entries k to n, each once and in
    * order; n > k if there is an entry and the first request can hold it.
    */
  lemma ReadMovesOn(u: Uio, daemon: Daemon, d: seq<Entry>, k: nat, call: nat, iosize: nat, hidden: Hidden)
    returns (n: nat)
    requires WellFormed(d) && Serves(daemon, d) && k <= |d| && u.offset == Position(d, k)
    ensures var (u1, err) := Read(u, daemon, call, 0, iosize, hidden); err == 0 && MovedOnTo(u, d, k, n, hidden, u1)
    ensures k < |d| && RawSize(|d[k].name|) <= Min(u.resid, iosize) ==> n > k
  {
    n := ReadTakes(u, daemon, d, k, call, 0, iosize, hidden);
    TookAndShows(u, d, k, n, hidden, Read(u, daemon, call, 0, iosize, hidden).0);
  }

  // ---- A daemon that fails --------------------------------------------------------------------

  /** From its turn on the daemon answers with error e; until then it serves d. */
  ghost predicate ServesUntil(daemon: Daemon, d: seq<Entry>, fails: nat, e: int) {
    && (forall call: nat, turn: nat, k: nat, size: nat :: k <= |d| && turn < fails ==>
          exists m :: Serving(d, k, m, size, daemon(call, turn, Position(d, k), size)))
    && forall call: nat, turn: nat, offset: nat, size: nat :: turn >= fails ==>
         daemon(call, turn, offset, size).err == e
  }

  lemma FailingReplyAt(daemon: Daemon, d: seq<Entry>, fails: nat, e: int, k: nat, call: nat, turn: nat, size: nat)
    returns (n: nat, tail: seq<byte>)
    requires ServesUntil(daemon, d, fails, e) && k <= |d| && turn < fails
    ensures k <= n <= |d|
    ensures var r := daemon(call, turn, Position(d, k), size);
      r.err == 0 && |r.body| <= size && Incomplete(tail) && r.body == EncodeAll(d[k..n]) + tail
  {
    var r := daemon(call, turn, Position(d, k), size);
    var m :| Serving(d, k, m, size, r);
    n := k + m;
    tail :| Incomplete(tail) && r.body == EncodeAll(d[k..n]) + tail;
  }

  lemma FailingRequest(u: Uio, daemon: Daemon, d: seq<Entry>, fails: nat, e: int, k: nat, call: nat, turn: nat,
                       size: nat, hidden: Hidden)
    returns (n: nat)
    requires WellFormed(d) && ServesUntil(daemon, d, fails, e) && k <= |d| && turn < fails
    requires u.offset == Position(d, k) && size <= u.resid
    ensures var r := Ask(daemon, call, turn, u.offset, size);
      && r.err == 0
      && var (u1, err) := Process(u, r.body, 0, hidden);
        (err == -1 || err == 0) && TookTo(u, d, k, n, hidden, u1)
  {
    var tail;
    n, tail := FailingReplyAt(daemon, d, fails, e, k, call, turn, size);
    ReplyTakes(u, d, k, n, tail, hidden);
  }

  lemma FailingTurn(u: Uio, daemon: Daemon, d: seq<Entry>, fails: nat, e: int, call: nat, turn: nat, iosize: nat,
                    hidden: Hidden)
    requires ServesUntil(daemon, d, fails, e) && e > 0 && turn >= fails && u.resid > 0
    ensures Read(u, daemon, call, turn, iosize, hidden) == (u, e)
  {
    assert daemon(call, turn, u.offset, Min(u.resid, iosize)).err == e;
  }

  lemma LastTurn(u: Uio, daemon: Daemon, call: nat, turn: nat, iosize: nat, hidden: Hidden)
    requires u.resid > 0 && Ask(daemon, call, turn, u.offset, Min(u.resid, iosize)).err == 0
    requires Process(u, Ask(daemon, call, turn, u.offset, Min(u.resid, iosize)).body, 0, hidden).1 == -1
    ensures Read(u, daemon, call, turn, iosize, hidden) ==
              (Process(u, Ask(daemon, call, turn, u.offset, Min(u.resid, iosize)).body, 0, hidden).0, 0)
  {
  }

  lemma {:induction false} FailingReadTakes(u: Uio, daemon: Daemon, d: seq<Entry>, fails: nat, e: int, k: nat,
                                            call: nat, turn: nat, iosize: nat, hidden: Hidden)
    returns (n: nat)
    requires WellFormed(d) && ServesUntil(daemon, d, fails, e) && e > 0 && k <= |d| && u.offset == Position(d, k)
    ensures var (u1, err) := Read(u, daemon, call, turn, iosize, hidden);
      TookTo(u, d, k, n, hidden, u1) && (err == 0 || err == e)
    decreases u.resid
  {
    n := k;
    assert u.out + CookAll(d[k..k], hidden) == u.out;
    if u.resid == 0 {
    } else if turn >= fails {
      FailingTurn(u, daemon, d, fails, e, call, turn, iosize, hidden);
    } else {
      var size := Min(u.resid, iosize);
      n := FailingRequest(u, daemon, d, fails, e, k, call, turn, size, hidden);
      var (u1, err) := Process(u, Ask(daemon, call, turn, u.offset, size).body, 0, hidden);
      if err == 0 {
        var m := n;
        n := FailingReadTakes(u1, daemon, d, fails, e, m, call, turn + 1, iosize, hidden);
        TookFurther(u, d, k, m, n, hidden, u1, Read(u1, daemon, call, turn + 1, iosize, hidden).0);
      } else {
        LastTurn(u, daemon, call, turn, iosize, hidden);
      }
    }
  }

  /** A daemon that fails: the call returns its error, or has ended before, and the user has whole
    * records up to there, each once and in order; if the first request fails nothing is moved.
    */
  lemma ErrorIsReturned(u: Uio, daemon: Daemon, d: seq<Entry>, fails: nat, e: int, k: nat, call: nat, iosize: nat,
                        hidden: Hidden)
    returns (n: nat)
    requires WellFormed(d) && ServesUntil(daemon, d, fails, e) && e > 0 && k <= |d| && u.offset == Position(d, k)
    ensures var (u1, err) := Read(u, daemon, call, 0, iosize, hidden);
      MovedOnTo(u, d, k, n, hidden, u1) && (err == 0 || err == e) && (fails == 0 && u.resid > 0 ==> u1 == u && err == e)
  {
    n := FailingReadTakes(u, daemon, d, fails, e, k, call, 0, iosize, hidden);
    if fails == 0 && u.resid > 0 { FailingTurn(u, daemon, d, fails, e, call, 0, iosize, hidden); }
    TookAndShows(u, d, k, n, hidden, Read(u, daemon, call, 0, iosize, hidden).0);
  }

  /** A body longer than was asked for is EIO, and nothing of it is moved. */
  lemma TooLongIsRefused(u: Uio, daemon: Daemon, call: nat, iosize: nat, hidden: Hidden)
    requires u.resid > 0
    requires var r := daemon(call, 0, u.offset, Min(u.resid, iosize)); r.err == 0 && |r.body| > Min(u.resid, iosize)
    ensures Read(u, daemon, call, 0, iosize, hidden) == (u, EIO)
  {
  }

  /** No request is for more than iosize or than the user's buffer has room for: a call cannot tell
    * daemons apart that differ on other requests only.
    */
  lemma {:induction false} RequestsAreBounded(u: Uio, a: Daemon, b: Daemon, call: nat, turn: nat, iosize: nat,
                                              hidden: Hidden)
    requires forall t: nat, o: nat, size: nat :: size <= Min(u.resid, iosize) ==>
               a(call, t, o, size) == b(call, t, o, size)
    ensures Read(u, a, call, turn, iosize, hidden) == Read(u, b, call, turn, iosize, hidden)
    decreases u.resid
  {
    if u.resid > 0 {
      var r := Ask(a, call, turn, u.offset, Min(u.resid, iosize));
      if r.err == 0 {
        var (u1, err) := Process(u, r.body, 0, hidden);
        if err == 0 { RequestsAreBounded(u1, a, b, call, turn + 1, iosize, hidden); }
      }
    }
  }

  // ---- Calls in sequence ------------------------------------------------------------------------

  /** Successive calls with buffers of the given sizes: the position after them, and all they
    * have returned.
    */
  function Paged(daemon: Daemon, sizes: seq<nat>, iosize: nat, hidden: Hidden): (nat, seq<Dirent>) {
    if sizes == [] then (0, [])
    else
      var last := |sizes| - 1;
      var (offset, out) := Paged(daemon, sizes[..last], iosize, hidden);
      var u := Read(Uio(sizes[last], offset, []), daemon, last, 0, iosize, hidden).0;
      (u.offset, out + u.out)
  }

  /** Call number j can hold the raw entry at the position that the calls before it have got to,
    * unless they have returned everything.
    */
  ghost predicate HoldsNext(daemon: Daemon, d: seq<Entry>, sizes: seq<nat>, iosize: nat, hidden: Hidden, j: nat)
    requires j < |sizes|
  {
    var k := |Paged(daemon, sizes[..j], iosize, hidden).1|;
    k < |d| ==> RawSize(|d[k].name|) <= Min(sizes[j], iosize)
  }

  ghost predicate AllHoldNext(daemon: Daemon, d: seq<Entry>, sizes: seq<nat>, iosize: nat, hidden: Hidden) {
    forall j: nat {:trigger HoldsNext(daemon, d, sizes, iosize, hidden, j)} ::
      j < |sizes| ==> HoldsNext(daemon, d, sizes, iosize, hidden, j)
  }

  lemma {:induction false} CookAllLength(es: seq<Entry>, hidden: Hidden)
    ensures |CookAll(es, hidden)| == |es|
  {
    if es != [] { CookAllLength(es[1..], hidden); }
  }

  lemma HeldNextBefore(daemon: Daemon, d: seq<Entry>, sizes: seq<nat>, iosize: nat, hidden: Hidden)
    requires sizes != [] && AllHoldNext(daemon, d, sizes, iosize, hidden)
    ensures AllHoldNext(daemon, d, sizes[..|sizes| - 1], iosize, hidden)
  {
    var before := sizes[..|sizes| - 1];
    forall j: nat | j < |before| ensures HoldsNext(daemon, d, before, iosize, hidden, j) {
      assert before[..j] == sizes[..j] && HoldsNext(daemon, d, sizes, iosize, hidden, j);
    }
  }

  lemma {:induction false} PagingTakes(daemon: Daemon, d: seq<Entry>, sizes: seq<nat>, iosize: nat, hidden: Hidden)
    returns (n: nat)
    requires WellFormed(d) && Serves(daemon, d)
    ensures n <= |d| && Paged(daemon, sizes, iosize, hidden) == (Position(d, n), CookAll(d[..n], hidden))
    ensures AllHoldNext(daemon, d, sizes, iosize, hidden) ==> n >= Min(|sizes|, |d|)
  {
    if sizes == [] {
      n := 0;
    } else {
      var last := |sizes| - 1;
      var k := PagingTakes(daemon, d, sizes[..last], iosize, hidden);
      n := ReadTakes(Uio(sizes[last], Position(d, k), []), daemon, d, k, last, 0, iosize, hidden);
      assert d[0..k] == d[..k] && d[0..n] == d[..n];
      MovedOn(d, 0, k, n, hidden);
      assert [] + CookAll(d[k..n], hidden) == CookAll(d[k..n], hidden);
      if AllHoldNext(daemon, d, sizes, iosize, hidden) {
        HeldNextBefore(daemon, d, sizes, iosize, hidden);
        CookAllLength(d[..k], hidden);
        assert HoldsNext(daemon, d, sizes, iosize, hidden, last);
      }
    }
  }

  /** After any calls the directory has been returned up to some entry n, every entry once
    * and in order, field by field. If every call can hold the raw entry at its own position, each
    * has got at least one entry further.
    */
  lemma PagingLosesNothing(daemon: Daemon, d: seq<Entry>, sizes: seq<nat>, iosize: nat, hidden: Hidden)
    returns (n: nat)
    requires WellFormed(d) && Serves(daemon, d)
    ensures n <= |d| && Paged(daemon, sizes, iosize, hidden).0 == Position(d, n)
    ensures ShowsAll(Paged(daemon, sizes, iosize, hidden).1, d[..n], hidden)
    ensures AllHoldNext(daemon, d, sizes, iosize, hidden) ==> n >= Min(|sizes|, |d|)
  {
    n := PagingTakes(daemon, d, sizes, iosize, hidden);
    CookedShow(d[..n], hidden);
  }

  /** As many such calls as there are entries return the whole directory. */
  lemma PagingEndsWithAll(daemon: Daemon, d: seq<Entry>, sizes: seq<nat>, iosize: nat, hidden: Hidden)
    requires WellFormed(d) && Serves(daemon, d) && |sizes| >= |d|
    requires AllHoldNext(daemon, d, sizes, iosize, hidden)
    ensures ShowsAll(Paged(daemon, sizes, iosize, hidden).1, d, hidden)
  {
    var n := PagingLosesNothing(daemon, d, sizes, iosize, hidden);
    assert n == |d| && d[..n] == d;
  }
}
