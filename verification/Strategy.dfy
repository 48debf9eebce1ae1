/** The read and write loops of fuse_internal_strategy on one buffer. */
module Strategy {
  type byte = x: int | 0 <= x < 256

  const EIO := 5
  const EINVAL := 22

  function Min(a: nat, b: nat): nat { if a < b then a else b }

  // ---- The daemon's file ---------------------------------------------------------------

  /** A byte of a file; past the end there are zeros. */
  function At(file: seq<byte>, i: nat): byte { if i < |file| then file[i] else 0 }

  function Zeros(n: nat): (r: seq<byte>)
    ensures |r| == n && forall i :: 0 <= i < n ==> r[i] == 0
  {
    seq(n, _ => 0)
  }

  /** The first n bytes of a file, with a hole of zeros if it is shorter. */
  function Front(file: seq<byte>, n: nat): (r: seq<byte>)
    ensures |r| == n
  {
    if n <= |file| then file[..n] else file + Zeros(n - |file|)
  }

  /** One write of data at an offset. */
  function WriteAt(file: seq<byte>, offset: nat, data: seq<byte>): seq<byte> {
    if data == [] then file
    else Front(file, offset) + data + if offset + |data| <= |file| then file[offset + |data|..] else []
  }

  /** Every byte of a file that has been written to: those written, those from before, and zeros in a
    * hole.
    */
  lemma WrittenBytes(file: seq<byte>, offset: nat, data: seq<byte>, i: nat)
    requires data != []
    ensures var w := WriteAt(file, offset, data);
      && |w| == (if offset + |data| > |file| then offset + |data| else |file|)
      && At(w, i) == if offset <= i < offset + |data| then data[i - offset] else At(file, i)
  {
  }

  /** Two writes that meet are one write. */
  lemma WritesJoin(file: seq<byte>, offset: nat, a: seq<byte>, b: seq<byte>)
    ensures WriteAt(WriteAt(file, offset, a), offset + |a|, b) == WriteAt(file, offset, a + b)
  {
    if a == [] {
      assert a + b == b;
    } else if b == [] {
      assert a + b == a;
    } else {
      var m := WriteAt(file, offset, a);
      assert Front(m, offset + |a|) == Front(file, offset) + a;
      var n := offset + |a| + |b|;
      if n <= |file| { assert m[n..] == file[n..]; }
      assert WriteAt(m, offset + |a|, b) == (Front(file, offset) + a) + b + if n <= |file| then file[n..] else [];
    }
  }

  /** The next n bytes go to where the last ones ended. */
  lemma WroteMore(file: seq<byte>, start: nat, all: seq<byte>, at: nat, n: nat)
    requires at + n <= |all|
    ensures WriteAt(WriteAt(file, start, all[..at]), start + at, all[at..at + n]) == WriteAt(file, start, all[..at + n])
  {
    WritesJoin(file, start, all[..at], all[at..at + n]);
    assert all[..at] + all[at..at + n] == all[..at + n];
  }

  /** How the daemon meets a request: with an error, or with up to n of the bytes asked for;
    * or it claims to have written n more than it was given.
    */
  datatype Response = Failure(err: int) | Bytes(n: nat) | Boast(n: nat)

  /** The daemon's responses, turn by turn; after the last of them it does all it is asked. */
  type Script = seq<Response>

  function ResponseAt(script: Script, turn: nat, size: nat): Response {
    if turn < |script| then script[turn] else Bytes(size)
  }

  /** Failures carry an error number. */
  ghost predicate Sane(script: Script) {
    forall t :: 0 <= t < |script| && script[t].Failure? ==> script[t].err > 0
  }

  // ---- The check on the size of a write -----------------------------------------------------

  const SPAN32: nat := 0x1_0000_0000
  const SPAN64: nat := 0x1_0000_0000_0000_0000

  /** The kernel's word size, and with it the span of the unsigned size_t. */
  datatype Word = Word32 | Word64

  /** off_t diff = chunksize - fwo->size. */
  function Diff(word: Word, chunk: nat, size: nat): int {
    var d := if word == Word32 then (chunk - size) % SPAN32 else (chunk - size) % SPAN64;
    if d >= SPAN64 / 2 then d - SPAN64 else d
  }

  /** On a 32-bit kernel the check "diff < 0" cannot fire; on a 64-bit one it fires exactly
    * for a daemon that claims to have written more than it was given.
    */
  lemma DiffCheckExactly(chunk: nat, size: nat)
    requires chunk < SPAN32 && size < SPAN32
    ensures Diff(Word32, chunk, size) >= 0
    ensures Diff(Word64, chunk, size) < 0 <==> size > chunk
  {
  }

  /** How the write loop ends: normally or with an error; or the daemon claims more than it
    * was given and the check does not notice: left is then negative and the loop goes on
    * beyond the buffer, which the model does not follow.
    */
  datatype Outcome = Done(err: int) | Derailed

  /** A FUSE_READ or FUSE_WRITE: for size bytes at an offset. */
  datatype Request = Request(offset: nat, size: nat)

  /** A transfer of the stretch from start to end in requests of at most iosize bytes. */
  datatype Plan = Plan(start: nat, end: nat, iosize: nat)

  /** Every request asks for as much as is left of the stretch, but no more than iosize bytes; the first
    * begins at the start, and each goes on from where the one before was, or as far as that could get.
    */
  predicate InPieces(asked: seq<Request>, p: Plan) {
    asked == [] ||
    (var before, last := asked[..|asked| - 1], asked[|asked| - 1];
     && InPieces(before, p) && NextAt(before, p, last.offset)
     && p.start <= last.offset < p.end && last.size == Min(p.iosize, p.end - last.offset))
  }

  /** After these requests the next one may be for offset. */
  predicate NextAt(asked: seq<Request>, p: Plan, offset: nat) {
    if asked == [] then offset == p.start
    else var last := asked[|asked| - 1]; last.offset <= offset <= last.offset + last.size
  }

  /** A request that has been sent as planned, and of which n bytes have been done. */
  lemma AskNext(asked: seq<Request>, p: Plan, offset: nat, size: nat, n: nat)
    requires InPieces(asked, p) && NextAt(asked, p, offset) && p.start <= offset < p.end
    requires n <= size == Min(p.iosize, p.end - offset)
    ensures var all := asked + [Request(offset, size)]; InPieces(all, p) && NextAt(all, p, offset + n)
  {
    assert (asked + [Request(offset, size)])[..|asked|] == asked;
  }

  /** The errors that a loop can end with: one the daemon has sent, or the one for a boast. */
  ghost predicate MayFail(script: Script, err: int, boastErr: int) {
    || (exists t :: 0 <= t < |script| && script[t] == Failure(err))
    || (err == boastErr && exists t :: 0 <= t < |script| && script[t].Boast?)
  }

  /** A buf_t. */
  class Buf {
    /** The memory the buffer maps; it is as long as the count on entry. */
    const data: array<byte>
    var count: nat
    var resid: nat
    var error: int
    /** The requests that the read loop has sent. */
    ghost var asked: seq<Request>

    constructor (contents: seq<byte>)
      ensures fresh(data) && data[..] == contents && count == |contents| && resid == 0 && error == 0 && asked == []
    {
      data := new byte[|contents|](i requires 0 <= i < |contents| => contents[i]);
      count, resid, error, asked := |contents|, 0, 0, [];
    }

    /** The whole buffer is to be filled. */
    function PlanOf(start: nat, iosize: nat): Plan { Plan(start, start + data.Length, iosize) }

    /** Copies the daemon's bytes into the buffer. */
    method CopyIn(at: nat, bytes: seq<byte>)
      requires at + |bytes| <= data.Length
      modifies data
      ensures data[..] == old(data[..at]) + bytes + old(data[at + |bytes|..])
    {
      var k := 0;
      while k < |bytes|
        invariant k <= |bytes|
        invariant data[..at] == old(data[..at]) && data[at..at + k] == bytes[..k]
        invariant data[at + |bytes|..] == old(data[at + |bytes|..])
      {
        data[at + k] := bytes[k];
        k := k + 1;
      }
      assert data[..] == data[..at] + data[at..at + k] + data[at + |bytes|..];
    }

    /** bzero of the rest of the buffer. */
    method ZeroFill(at: nat)
      requires at <= data.Length
      modifies data
      ensures data[..] == old(data[..at]) + Zeros(data.Length - at)
    {
      var k := at;
      while k < data.Length
        invariant at <= k <= data.Length && data[..at] == old(data[..at])
        invariant forall i :: at <= i < k ==> data[i] == 0
      {
        data[k] := 0;
        k := k + 1;
      }
    }

    /** One turn of the read loop. The reply is the file's own bytes, as many as r says. */
    method ReadTurn(file: seq<byte>, start: nat, iosize: nat, bufdat: nat, r: Response) returns (err: int, size: nat)
      requires bufdat + resid == data.Length && resid > 0 && iosize > 0 && (r.Failure? ==> r.err > 0)
      modifies this`resid, this`error, this`asked, data
      ensures asked == old(asked) + [Request(start + bufdat, Min(old(resid), iosize))]
      ensures err != 0 ==> error == err && (r == Failure(err) || (err == EIO && r.Boast?))
      ensures err == 0 ==> error == old(error) && size <= old(resid) && resid == old(resid) - size
      ensures err == 0 ==> size <= Min(old(resid), iosize)
      ensures data[..bufdat] == old(data[..bufdat])
      ensures err == 0 ==> forall i :: bufdat <= i < bufdat + size ==> data[i] == At(file, start + i)
      ensures err == 0 && size > 0 ==> start + bufdat + size <= |file|
      ensures err == 0 && size == 0 ==> start + bufdat >= |file| || (r.Bytes? && r.n == 0)
    {
      var offset, chunksize := start + bufdat, Min(resid, iosize);
      asked := asked + [Request(offset, chunksize)];
      if r.Failure? {
        error := r.err;
        return r.err, 0;
      }
      var have := if offset <= |file| then |file| - offset else 0;
      size := Min(have, if r.Boast? then chunksize + r.n else Min(chunksize, r.n));
      if size > chunksize {
        // fuse_body_audit refuses the reply
        error := EIO;
        return EIO, 0;
      }
      if size > 0 { CopyIn(bufdat, file[offset..offset + size]); }
      resid := resid - size;
      err := 0;
    }

    /** The loop of the read side. */
    method ReadLoop(file: seq<byte>, start: nat, iosize: nat, script: Script) returns (err: int)
      requires Sane(script) && resid == data.Length && iosize > 0 && asked == []
      modifies this`resid, this`error, this`asked, data
      ensures InPieces(asked, PlanOf(start, iosize))
      ensures err != 0 ==> MayFail(script, err, EIO)
      ensures error == if err != 0 then err else old(error)
      ensures err == 0 ==> resid == 0 && exists k :: FilledTo(file, start, data[..], k)
      ensures err == 0 && NoEarlyZero(script) ==> forall i :: 0 <= i < data.Length ==> data[i] == At(file, start + i)
    {
      err := 0;
      var bufdat, turn := 0, 0;
      while resid > 0
        invariant bufdat + resid == data.Length && error == old(error)
        invariant bufdat > 0 ==> start + bufdat <= |file|
        invariant forall i :: 0 <= i < bufdat ==> data[i] == At(file, start + i)
        invariant turn <= |script| || bufdat > 0
        invariant InPieces(asked, PlanOf(start, iosize)) && NextAt(asked, PlanOf(start, iosize), start + bufdat)
        decreases resid
      {
        var size;
        ghost var was, before := data[..], asked;
        var chunksize := Min(resid, iosize);
        var r := ResponseAt(script, turn, chunksize);
        err, size := ReadTurn(file, start, iosize, bufdat, r);
        AskNext(before, PlanOf(start, iosize), start + bufdat, chunksize, if err == 0 then size else 0);
        if err != 0 { return; }
        assert forall i :: 0 <= i < bufdat ==> data[i] == data[..bufdat][i] == was[i];
        bufdat, turn := bufdat + size, turn + 1;
        if size == 0 && resid > 0 {
          ZeroFill(bufdat);
          resid := 0;
          assert FilledTo(file, start, data[..], bufdat);
          return;
        }
      }
      assert FilledTo(file, start, data[..], bufdat);
    }

    /** The read side. */
    method Read(file: seq<byte>, filesize: nat, start: nat, iosize: nat, script: Script) returns (err: int)
      requires Sane(script) && count == data.Length && iosize > 0 && asked == []
      modifies this, data
      ensures InPieces(asked, Plan(start, start + old(count), iosize))
      ensures err != 0 ==> MayFail(script, err, EIO)
      ensures count > 0 && start < filesize ==> count == Min(old(count), filesize - start)
      ensures count == 0 || start >= filesize ==>
                err == 0 && count == old(count) && data[..] == old(data[..]) && asked == []
      ensures count > 0 && start >= filesize ==> error == if start > filesize then EINVAL else old(error)
      ensures old(count) > 0 && start < filesize ==> error == if err != 0 then err else old(error)
      ensures old(count) > 0 && start < filesize && err == 0 ==>
                resid == 0 && exists k :: FilledTo(file, start, data[..], k)
      ensures old(count) > 0 && start < filesize && err == 0 && NoEarlyZero(script) ==>
                forall i :: 0 <= i < data.Length ==> data[i] == At(file, start + i)
    {
      err := 0;
      if count == 0 { return; }
      resid := count;
      var offset := start;
      if offset >= filesize {
        if offset != filesize { error := EINVAL; }
        return;
      }
      if offset + count > filesize { count := filesize - offset; }
      err := ReadLoop(file, start, iosize, script);
    }
  }

  /** data holds k of the file's bytes from start, then zeros. */
  ghost predicate FilledTo(file: seq<byte>, start: nat, data: seq<byte>, k: nat) {
    k <= |data| && forall i :: 0 <= i < |data| ==> data[i] == if i < k then At(file, start + i) else 0
  }

  /** A zero reply means the end of the file. */
  ghost predicate NoEarlyZero(script: Script) {
    forall t :: 0 <= t < |script| && script[t].Bytes? ==> script[t].n > 0
  }

  ghost predicate Honest(script: Script) {
    forall t :: 0 <= t < |script| ==> !script[t].Boast?
  }

  /** The file server at the other end of the write loop. */
  class Writer {
    var file: seq<byte>
    /** The requests that it has had. */
    ghost var asked: seq<Request>

    constructor (file: seq<byte>)
      ensures this.file == file && asked == []
    {
      this.file, asked := file, [];
    }

    /** FUSE_WRITE: the daemon writes up to n bytes of what it is given, and says how many. */
    method Serve(offset: nat, data: seq<byte>, r: Response) returns (size: nat)
      modifies this
      ensures asked == old(asked) + [Request(offset, |data|)]
      ensures r.Failure? ==> size == 0 && file == old(file)
      ensures r.Bytes? ==> size == Min(r.n, |data|) && file == WriteAt(old(file), offset, data[..size])
      ensures r.Boast? ==> size == |data| + 1 + r.n
    {
      asked := asked + [Request(offset, |data|)];
      if r.Failure? {
        size := 0;
      } else if r.Bytes? {
        size := Min(r.n, |data|);
        file := WriteAt(file, offset, data[..size]);
      } else {
        size := |data| + 1 + r.n;
        file := WriteAt(file, offset, data);
      }
    }
  }

  /** Turns that are left in which the daemon may write nothing. */
  function TurnsLeft(script: Script, turn: nat): nat { if turn < |script| then |script| - turn else 0 }

  /** All but the last resid bytes have gone to the file, in one piece. */
  ghost predicate WrittenUpTo(file0: seq<byte>, file: seq<byte>, start: nat, all: seq<byte>, resid: nat) {
    resid <= |all| && file == WriteAt(file0, start, all[..|all| - resid])
  }

  lemma StillInOnePiece(file0: seq<byte>, file: seq<byte>, start: nat, offset: nat, all: seq<byte>, at: nat, resid: nat,
                        n: nat)
    requires at + resid == |all| && offset == start + at && n <= resid
    requires WrittenUpTo(file0, file, start, all, resid)
    ensures WrittenUpTo(file0, WriteAt(file, offset, all[at..at + n]), start, all, resid - n)
  {
    assert all[..|all| - resid] == all[..at] && all[..|all| - (resid - n)] == all[..at + n];
    WroteMore(file0, start, all, at, n);
  }

  /** The test for too large a write. */
  method IsRefused(word: Word, chunk: nat, size: nat) returns (refused: bool)
    requires chunk < SPAN32 && size < SPAN32
    ensures refused <==> word == Word64 && size > chunk
  {
    DiffCheckExactly(chunk, size);
    refused := Diff(word, chunk, size) < 0;
  }

  lemma FirstOfChunk(all: seq<byte>, at: nat, chunk: nat, size: nat)
    requires at + chunk <= |all| && size <= chunk
    ensures all[at..at + chunk][..size] == all[at..at + size]
  {
  }

  /** A request for chunksize bytes from bufdat. */
  method SendChunk(bp: Buf, offset: nat, bufdat: nat, chunksize: nat, daemon: Writer, r: Response) returns (size: nat)
    requires bufdat + chunksize <= bp.data.Length
    modifies daemon
    ensures r.Failure? ==> size == 0 && daemon.file == old(daemon.file)
    ensures r.Bytes? ==> size == Min(r.n, chunksize)
    ensures r.Bytes? ==> daemon.file == WriteAt(old(daemon.file), offset, bp.data[..][bufdat..bufdat + size])
    ensures r.Boast? ==> size == chunksize + 1 + r.n
    ensures daemon.asked == old(daemon.asked) + [Request(offset, chunksize)]
  {
    var chunk := bp.data[..][bufdat..bufdat + chunksize];
    size := daemon.Serve(offset, chunk, r);
    if r.Bytes? { FirstOfChunk(bp.data[..], bufdat, chunksize, size); }
  }

  /** One turn of the write loop: such a request, and what is made of the daemon's answer. */
  method WriteTurn(bp: Buf, word: Word, offset: nat, bufdat: nat, chunksize: nat, daemon: Writer, r: Response)
    returns (o: Outcome, size: nat)
    requires bufdat + chunksize <= bp.data.Length && chunksize <= bp.resid && chunksize < SPAN32
    requires r.Failure? ==> r.err > 0
    requires r.Boast? ==> chunksize + 1 + r.n < SPAN32
    modifies bp`resid, bp`error, daemon
    ensures r.Failure? ==> o == Done(r.err) && bp.error == r.err && daemon.file == old(daemon.file)
    ensures r.Bytes? ==> o == Done(0) && size == Min(r.n, chunksize) && bp.error == old(bp.error)
    ensures r.Bytes? ==> daemon.file == WriteAt(old(daemon.file), offset, bp.data[..][bufdat..bufdat + size])
    ensures r.Boast? ==> o == if word == Word32 then Derailed else Done(EINVAL)
    ensures r.Boast? && o.Done? ==> bp.error == EINVAL
    ensures bp.resid == old(bp.resid) - if r.Bytes? then size else 0
    ensures daemon.asked == old(daemon.asked) + [Request(offset, chunksize)]
  {
    size := SendChunk(bp, offset, bufdat, chunksize, daemon, r);
    if r.Failure? {
      bp.error := r.err;
      return Done(r.err), 0;
    }
    var refused := IsRefused(word, chunksize, size);
    if refused {
      bp.error := EINVAL;
      return Done(EINVAL), size;
    }
    if size > chunksize { return Derailed, size; }
    bp.resid := bp.resid - size;
    o := Done(0);
  }

  /** The same, seen from the start of the loop: file0 was the file then. */
  method WriteMore(bp: Buf, word: Word, ghost file0: seq<byte>, start: nat, offset: nat, bufdat: nat, chunksize: nat,
                   daemon: Writer, r: Response)
    returns (o: Outcome, size: nat)
    requires bufdat + bp.resid == bp.data.Length && offset == start + bufdat
    requires chunksize <= bp.resid && chunksize < SPAN32
    requires r.Failure? ==> r.err > 0
    requires r.Boast? ==> chunksize + 1 + r.n < SPAN32
    requires WrittenUpTo(file0, daemon.file, start, bp.data[..], bp.resid)
    modifies bp`resid, bp`error, daemon
    ensures !r.Boast? ==> o.Done? && WrittenUpTo(file0, daemon.file, start, bp.data[..], bp.resid)
    ensures if r.Bytes? then o == Done(0) && size == Min(r.n, chunksize) && bp.error == old(bp.error)
            else o != Done(0) && (o.Done? ==> bp.error == o.err)
    ensures bp.resid == old(bp.resid) - if r.Bytes? then size else 0
    ensures o == Derailed ==> r.Boast? && word == Word32
    ensures o.Done? && r.Failure? ==> o.err == r.err
    ensures o.Done? && r.Boast? ==> o.err == EINVAL
    ensures daemon.asked == old(daemon.asked) + [Request(offset, chunksize)]
  {
    ghost var all, file, resid := bp.data[..], daemon.file, bp.resid;
    o, size := WriteTurn(bp, word, offset, bufdat, chunksize, daemon, r);
    if r.Bytes? { StillInOnePiece(file0, file, start, offset, all, bufdat, resid, size); }
  }

  /** The write side, on a kernel of either word size. Whatever short writes the daemon does,
    * a normal end means that one write of the whole buffer has been done; otherwise resid is
    * what is left.
    */
  method WriteLoop(bp: Buf, word: Word, start: nat, iosize: nat, daemon: Writer, script: Script) returns (o: Outcome)
    requires Sane(script) && bp.count == bp.data.Length && 0 < iosize < SPAN32 && bp.count < SPAN32
    requires forall t :: 0 <= t < |script| && script[t].Boast? ==> bp.count + 1 + script[t].n < SPAN32
    requires daemon.asked == []
    modifies bp`resid, bp`error, daemon
    ensures InPieces(daemon.asked, Plan(start, start + bp.count, iosize))
    ensures o.Done? && o.err != 0 ==> MayFail(script, o.err, EINVAL)
    ensures o == Done(0) ==> daemon.file == WriteAt(old(daemon.file), start, bp.data[..])
    ensures o == Done(0) ==> bp.resid == 0 && bp.error == old(bp.error)
    ensures Honest(script) ==> o.Done? && WrittenUpTo(old(daemon.file), daemon.file, start, bp.data[..], bp.resid)
    ensures o.Done? && o.err != 0 ==> bp.error == o.err
    ensures o.Derailed? ==> !Honest(script) && word == Word32
  {
    ghost var p := Plan(start, start + bp.count, iosize);
    bp.resid := bp.count;
    var offset, left, turn := start, bp.count, 0;
    var bufdat: nat := 0;
    while left > 0
      invariant bufdat + left == bp.data.Length == bp.count && offset == start + bufdat && bp.resid == left
      invariant bp.error == old(bp.error) && WrittenUpTo(old(daemon.file), daemon.file, start, bp.data[..], left)
      invariant InPieces(daemon.asked, p) && NextAt(daemon.asked, p, offset)
      decreases left + TurnsLeft(script, turn)
    {
      var chunksize := Min(left, iosize);
      var r := ResponseAt(script, turn, chunksize);
      var size;
      ghost var before := daemon.asked;
      o, size := WriteMore(bp, word, old(daemon.file), start, offset, bufdat, chunksize, daemon, r);
      AskNext(before, p, offset, chunksize, if r.Bytes? then size else 0);
      if o != Done(0) {
        assert turn < |script| && script[turn] == r;
        return;
      }
      left, bufdat, offset, turn := left - size, bufdat + size, offset + size, turn + 1;
    }
    assert bp.data[..][..bp.data.Length] == bp.data[..];
    o := Done(0);
  }
}
