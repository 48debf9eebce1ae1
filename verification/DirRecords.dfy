/** Directory entries in their two formats: the daemon's struct fuse_dirent, byte by byte,
  * and the kernel's struct dirent.
  */
module DirRecords {
  type byte = x: int | 0 <= x < 256

  const FUSE_NAME_OFFSET := 24
  const MAXNAMLEN := 255

  datatype Entry = Entry(ino: nat, off: nat, kind: nat, name: seq<byte>)

  /** struct dirent; reclen is its length in the user's buffer. */
  datatype Dirent = Dirent(fileno: nat, reclen: nat, kind: nat, name: seq<byte>)

  /** FUSE_DIRENT_SIZE: header and name, padded to a multiple of 8 bytes. */
  function RawSize(namelen: nat): (r: nat)
    ensures r % 8 == 0 && 24 + namelen <= r < 24 + namelen + 8
  {
    (FUSE_NAME_OFFSET + namelen + 7) / 8 * 8
  }

  /** GENERIC_DIRSIZ: a header of 8 bytes, the name and its terminator, padded to a multiple of 4. */
  function CookedSize(namelen: nat): (r: nat)
    ensures r % 4 == 0 && 8 + namelen + 1 <= r < 8 + namelen + 1 + 4
  {
    8 + (namelen + 1 + 3) / 4 * 4
  }

  /** A cooked record is never longer than its raw one. */
  lemma CookedFits(namelen: nat)
    ensures CookedSize(namelen) <= RawSize(namelen)
  {
  }

  // ---- The raw format -------------------------------------------------------------------

  /** Does x fit into n bytes? */
  predicate Fits(x: nat, n: nat) { if n == 0 then x == 0 else Fits(x / 256, n - 1) }

  function ToBytes(x: nat, n: nat): (r: seq<byte>)
    ensures |r| == n
  {
    if n == 0 then [] else [x % 256] + ToBytes(x / 256, n - 1)
  }

  function FromBytes(b: seq<byte>): nat {
    if b == [] then 0 else b[0] + 256 * FromBytes(b[1..])
  }

  lemma {:induction false} BytesRoundTrip(x: nat, n: nat)
    requires Fits(x, n)
    ensures FromBytes(ToBytes(x, n)) == x
  {
    if n > 0 {
      BytesRoundTrip(x / 256, n - 1);
      assert ToBytes(x, n)[1..] == ToBytes(x / 256, n - 1);
    }
  }

  function Zeros(n: nat): (r: seq<byte>)
    ensures |r| == n
  {
    seq(n, _ => 0)
  }

  predicate Encodable(e: Entry) {
    Fits(e.ino, 8) && Fits(e.off, 8) && Fits(e.kind, 4) && Fits(|e.name|, 4)
  }

  /** struct fuse_dirent, padded to eight bytes. */
  function Encode(e: Entry): (r: seq<byte>)
    ensures |r| == RawSize(|e.name|)
  {
    ToBytes(e.ino, 8) + ToBytes(e.off, 8) + ToBytes(|e.name|, 4) + ToBytes(e.kind, 4) + e.name
    + Zeros(RawSize(|e.name|) - FUSE_NAME_OFFSET - |e.name|)
  }

  /** The namelen field of the record at the front of a buffer. */
  function NameLength(b: seq<byte>): nat
    requires FUSE_NAME_OFFSET <= |b|
  {
    FromBytes(b[16..20])
  }

  /** Does the buffer end before its first record does? */
  predicate Incomplete(b: seq<byte>) {
    |b| < FUSE_NAME_OFFSET || |b| < RawSize(NameLength(b))
  }

  function Decode(b: seq<byte>): Entry
    requires !Incomplete(b)
  {
    Entry(FromBytes(b[0..8]), FromBytes(b[8..16]), FromBytes(b[20..24]), b[24..24 + NameLength(b)])
  }

  lemma DecodeEncode(e: Entry, rest: seq<byte>)
    requires Encodable(e)
    ensures var b := Encode(e) + rest;
      && FUSE_NAME_OFFSET <= |b| && NameLength(b) == |e.name| && !Incomplete(b) && Decode(b) == e
      && b[RawSize(NameLength(b))..] == rest
  {
    var b := Encode(e) + rest;
    BytesRoundTrip(e.ino, 8);
    BytesRoundTrip(e.off, 8);
    BytesRoundTrip(|e.name|, 4);
    BytesRoundTrip(e.kind, 4);
    assert b[0..8] == ToBytes(e.ino, 8);
    assert b[8..16] == ToBytes(e.off, 8);
    assert b[16..20] == ToBytes(|e.name|, 4);
    assert b[20..24] == ToBytes(e.kind, 4);
    assert b[24..24 + |e.name|] == e.name;
  }

  /** Where the fields of struct fuse_dirent are: ino, off, namelen, type, name. */
  lemma Layout(e: Entry)
    requires Encodable(e)
    ensures var b := Encode(e);
      && FromBytes(b[0..8]) == e.ino && FromBytes(b[8..16]) == e.off && FromBytes(b[16..20]) == |e.name|
      && FromBytes(b[20..24]) == e.kind && b[24..24 + |e.name|] == e.name
  {
    DecodeEncode(e, []);
    assert Encode(e) + [] == Encode(e);
  }

  function EncodeAll(es: seq<Entry>): seq<byte> {
    if es == [] then [] else Encode(es[0]) + EncodeAll(es[1..])
  }

  // ---- The cooked format ------------------------------------------------------------------

  /** The names that fuse_skip_apple_double_mp hides (._*), if the mount asks for it. */
  type Hidden = set<seq<byte>>

  const DT_WHT := 14

  /** d_fileno and d_type are narrower than the daemon's fields; a hidden name is shown as a
    * whiteout.
    */
  function Cook(e: Entry, hidden: Hidden): Dirent {
    if e.name in hidden then Dirent(0, CookedSize(|e.name|), DT_WHT, e.name)
    else Dirent(e.ino % 0x1_0000_0000, CookedSize(|e.name|), e.kind % 256, e.name)
  }

  /** What the user is to get for an entry, field by field. */
  predicate Shows(r: Dirent, e: Entry, hidden: Hidden) {
    && r.name == e.name && r.reclen == CookedSize(|e.name|)
    && (e.name !in hidden ==> r.fileno == e.ino % 0x1_0000_0000 && r.kind == e.kind % 256)
    && (e.name in hidden ==> r.fileno == 0 && r.kind == 14)
  }

  /** Records rs are what the user is to get for the entries es, each once and in order. */
  predicate ShowsAll(rs: seq<Dirent>, es: seq<Entry>, hidden: Hidden) {
    |rs| == |es| && forall j :: 0 <= j < |es| ==> Shows(rs[j], es[j], hidden)
  }

  function CookAll(es: seq<Entry>, hidden: Hidden): seq<Dirent> {
    if es == [] then [] else [Cook(es[0], hidden)] + CookAll(es[1..], hidden)
  }

  lemma {:induction false} CookedShow(es: seq<Entry>, hidden: Hidden)
    ensures ShowsAll(CookAll(es, hidden), es, hidden)
  {
    if es != [] {
      CookedShow(es[1..], hidden);
      var rs := CookAll(es, hidden);
      forall j | 0 <= j < |es| ensures |rs| == |es| && Shows(rs[j], es[j], hidden) {
        assert j > 0 ==> rs[j] == CookAll(es[1..], hidden)[j - 1] && es[j] == es[1..][j - 1];
      }
    }
  }

  lemma {:induction false} CookAllSplit(a: seq<Entry>, b: seq<Entry>, hidden: Hidden)
    ensures CookAll(a + b, hidden) == CookAll(a, hidden) + CookAll(b, hidden)
  {
    if a == [] {
      assert a + b == b;
    } else {
      assert (a + b)[1..] == a[1..] + b;
      CookAllSplit(a[1..], b, hidden);
    }
  }
}
