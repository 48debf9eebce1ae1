/** The three file handle slots of a vnode: fuse_file.c and the vnops that use it, run one at
  * a time on a live vnode.
  */
module FileHandle {
  import opened Lists

  const RDONLY := 0
  const WRONLY := 1
  const RDWR := 2

  /** A slot of fufh[]: the daemon's handle and the open count. */
  datatype Slot = Slot(id: nat, count: nat)

  /** current is what this vnode contributes to fuse_fh_current. The daemon numbers the
    * handles it opens; released counts the FUSE_RELEASE messages for each of them.
    */
  datatype Vnode = Vnode(slots: seq<Slot>, isDir: bool, creating: bool, current: int,
                         handles: nat, released: multiset<nat>, reclaimed: bool)

  type Type = t: nat | t <= 2 witness 0

  predicate Valid(s: Slot) { s.count > 0 }

  predicate Shaped(v: Vnode) { |v.slots| == 3 }

  function SetSlot(v: Vnode, t: Type, s: Slot): Vnode
    requires Shaped(v)
  {
    v.(slots := v.slots[t := s])
  }

  /** What a vnop ends in; Blocked means that it cannot run now. */
  datatype Outcome = Done(v: Vnode) | Panic | Blocked

  // ---- fuse_filehandle_get and fuse_filehandle_put ------------------------------------------

  /** ok: the daemon has opened the file. */
  function Get(v: Vnode, t: Type, ok: bool): Outcome
    requires Shaped(v)
  {
    if Valid(v.slots[t]) then Panic
    else if !ok then Done(v)
    else Done(SetSlot(v, t, Slot(v.handles, 1)).(current := v.current + 1, handles := v.handles + 1))
  }

  function Put(v: Vnode, t: Type): Outcome
    requires Shaped(v)
  {
    if Valid(v.slots[t]) then Panic
    else Done(v.(current := v.current - 1, released := v.released + multiset{v.slots[t].id}))
  }

  // ---- The vnops ------------------------------------------------------------------------------

  /** errno of a failed attempt to get a handle for mmap, or 0. */
  datatype Attempt = Got | NoAccess | OtherError

  datatype Op =
    | Create                                    // fuse_vnop_create with FUSE_CREATE: a fresh vnode
    | Open(t: Type, creator: bool, ok: bool)
    | Close(t: Type, ndelay: bool)
    | Mmap(t: Type, first: Attempt, second: Attempt)
    | ReadDirectory(ok: bool)
    | Strategy(read: bool, ok: bool)
    | Inactive
    | Reclaim

  function Fresh(isDir: bool): Vnode {
    Vnode([Slot(0, 0), Slot(0, 0), Slot(0, 0)], isDir, false, 0, 0, multiset{}, false)
  }

  function DoCreate(v: Vnode): Outcome
    requires Shaped(v)
  {
    if v != Fresh(false) then Blocked
    else Done(SetSlot(v, RDWR, Slot(v.handles, 1)).(current := v.current + 1, handles := v.handles + 1, creating := true))
  }

  function SlotFor(v: Vnode, t: Type): Type { if v.isDir then RDONLY else t }

  /** The creator moves the handle of fuse_vnop_create to the slot it opens with. */
  function PickUp(v: Vnode, t: Type): Vnode
    requires Shaped(v)
  {
    var rw := v.slots[RDWR];
    SetSlot(SetSlot(v, RDWR, Slot(rw.id, 0)), t, Slot(rw.id, 1)).(creating := false)
  }

  function UseOrGet(v: Vnode, t: Type, ok: bool): Outcome
    requires Shaped(v)
  {
    if Valid(v.slots[t]) then Done(SetSlot(v, t, v.slots[t].(count := v.slots[t].count + 1))) else Get(v, t, ok)
  }

  /** Anybody but the creator sleeps until the handle has been picked up. */
  function DoOpen(v: Vnode, t0: Type, creator: bool, ok: bool): Outcome
    requires Shaped(v)
  {
    var t := SlotFor(v, t0);
    if !v.isDir && v.creating then if creator then Done(PickUp(v, t)) else Blocked
    else UseOrGet(v, t, ok)
  }

  /** vclean() closes with IO_NDELAY. */
  function DoClose(v: Vnode, t0: Type, ndelay: bool): Outcome
    requires Shaped(v)
  {
    var t := SlotFor(v, t0);
    if ndelay || !Valid(v.slots[t]) then Done(v)
    else
      var v1 := SetSlot(v, t, v.slots[t].(count := v.slots[t].count - 1));
      if Valid(v1.slots[t]) then Done(v1) else Put(v1, t)
  }

  /** A mapping that may not be written is retried read-only. */
  function DoMmap(v: Vnode, t: Type, first: Attempt, second: Attempt): Outcome
    requires Shaped(v)
  {
    if Valid(v.slots[t]) || first == Got || first == OtherError || t == RDONLY then UseOrGet(v, t, first == Got)
    else UseOrGet(v, RDONLY, second == Got)
  }

  function DoReadDirectory(v: Vnode, ok: bool): Outcome
    requires Shaped(v)
  {
    if Valid(v.slots[RDONLY]) then Done(v)
    else
      match Get(v, RDONLY, ok)
      case Panic => Panic
      case Blocked => Blocked
      case Done(v1) =>
        if !ok || !Shaped(v1) || v1.slots[RDONLY].count == 0 then Done(v)
        else Put(SetSlot(v1, RDONLY, v1.slots[RDONLY].(count := v1.slots[RDONLY].count - 1)), RDONLY)
  }

  /** fuse_internal_strategy: any slot will do that allows the access. */
  function DoStrategy(v: Vnode, read: bool, ok: bool): Outcome
    requires Shaped(v)
  {
    var t := if read then RDONLY else WRONLY;
    if Valid(v.slots[t]) || Valid(v.slots[RDWR]) then Done(v)
    else Get(v, if read then RDONLY else RDWR, ok)
  }

  /** One turn of the loops of fuse_vnop_inactive and fuse_vnop_reclaim. */
  function Drop(v: Vnode, t: Type): Outcome
    requires Shaped(v)
  {
    if Valid(v.slots[t]) then Put(SetSlot(v, t, v.slots[t].(count := 0)), t) else Done(v)
  }

  function Then(o: Outcome, t: Type): Outcome {
    if o.Done? && Shaped(o.v) then Drop(o.v, t) else o
  }

  function DropAll(v: Vnode): Outcome
    requires Shaped(v)
  {
    Then(Then(Drop(v, RDONLY), WRONLY), RDWR)
  }

  function Do(v: Vnode, op: Op): Outcome
    requires Shaped(v)
  {
    if v.reclaimed then Blocked
    else
      match op
      case Create => DoCreate(v)
      case Open(t, creator, ok) => DoOpen(v, t, creator, ok)
      case Close(t, ndelay) => DoClose(v, t, ndelay)
      case Mmap(t, first, second) => DoMmap(v, t, first, second)
      case ReadDirectory(ok) => DoReadDirectory(v, ok)
      case Strategy(read, ok) => DoStrategy(v, read, ok)
      case Inactive => DropAll(v)
      case Reclaim =>
        (match DropAll(v)
         case Done(v1) => Done(v1.(reclaimed := true))
         case Panic => Panic
         case Blocked => Blocked)
  }

  // ---- What the slots promise -------------------------------------------------------------------

  function ValidSlots(v: Vnode): nat
    requires Shaped(v)
  {
    One(Valid(v.slots[RDONLY])) + One(Valid(v.slots[WRONLY])) + One(Valid(v.slots[RDWR]))
  }

  function Holds(s: Slot, h: nat): nat { One(Valid(s) && s.id == h) }

  /** In how many slots handle h is in use. */
  function InSlots(v: Vnode, h: nat): nat
    requires Shaped(v)
  {
    Holds(v.slots[RDONLY], h) + Holds(v.slots[WRONLY], h) + Holds(v.slots[RDWR], h)
  }

  /** The count is right, and every handle the daemon has opened is either in one slot or has
    * been released once.
    */
  ghost predicate Balanced(v: Vnode) {
    && Shaped(v) && v.current == ValidSlots(v)
    && (forall h: nat :: v.released[h] + InSlots(v, h) == One(h < v.handles))
    && (v.creating && !Valid(v.slots[RDWR]) ==> v.released[v.slots[RDWR].id] == 1)
  }

  /** The one operation that can go wrong: the creator's open, when the handle has gone from
    * the slot of fuse_vnop_create or the slot it is to go to is in use.
    */
  predicate CleanPickUp(v: Vnode, op: Op)
    requires Shaped(v)
  {
    op.Open? && v.creating && !v.isDir && op.creator ==>
      Valid(v.slots[RDWR]) && (op.t == RDWR || !Valid(v.slots[op.t]))
  }

  lemma GetKeeps(v: Vnode, t: Type, ok: bool)
    requires Balanced(v) && !Valid(v.slots[t])
    ensures Get(v, t, ok).Done? && Balanced(Get(v, t, ok).v)
  {
    var w := Get(v, t, ok).v;
    forall h: nat ensures w.released[h] + InSlots(w, h) == One(h < w.handles) {
      assert v.released[h] + InSlots(v, h) == One(h < v.handles);
      assert v.released[v.handles] + InSlots(v, v.handles) == 0;
    }
  }

  /** The last use of a slot ends. */
  lemma EndUseKeeps(v: Vnode, t: Type)
    requires Balanced(v) && Valid(v.slots[t])
    ensures var o := Put(SetSlot(v, t, v.slots[t].(count := 0)), t);
      o.Done? && Balanced(o.v) && o.v.slots == v.slots[t := Slot(v.slots[t].id, 0)] && o.v.handles == v.handles
  {
    var w := Put(SetSlot(v, t, v.slots[t].(count := 0)), t).v;
    forall h: nat ensures w.released[h] + InSlots(w, h) == One(h < w.handles) {
      assert v.released[h] + InSlots(v, h) == One(h < v.handles);
    }
  }

  lemma CountKeeps(v: Vnode, t: Type, n: nat)
    requires Balanced(v) && Valid(v.slots[t]) && n > 0
    ensures Balanced(SetSlot(v, t, v.slots[t].(count := n)))
  {
    var w := SetSlot(v, t, v.slots[t].(count := n));
    forall h: nat ensures w.released[h] + InSlots(w, h) == One(h < w.handles) {
      assert v.released[h] + InSlots(v, h) == One(h < v.handles);
    }
  }

  lemma UseKeeps(v: Vnode, t: Type, ok: bool)
    requires Balanced(v)
    ensures UseOrGet(v, t, ok).Done? && Balanced(UseOrGet(v, t, ok).v)
  {
    if Valid(v.slots[t]) { CountKeeps(v, t, v.slots[t].count + 1); } else { GetKeeps(v, t, ok); }
  }

  lemma DropKeeps(v: Vnode, t: Type)
    requires Balanced(v)
    ensures Drop(v, t).Done? && Balanced(Drop(v, t).v) && Drop(v, t).v.handles == v.handles
    ensures Drop(v, t).v.slots == v.slots[t := Slot(v.slots[t].id, 0)]
  {
    if Valid(v.slots[t]) { EndUseKeeps(v, t); } else { assert v.slots[t := Slot(v.slots[t].id, 0)] == v.slots; }
  }

  lemma DropAllKeeps(v: Vnode)
    requires Balanced(v)
    ensures DropAll(v).Done? && Balanced(DropAll(v).v) && ValidSlots(DropAll(v).v) == 0 && DropAll(v).v.handles == v.handles
  {
    DropKeeps(v, RDONLY);
    var v1 := Drop(v, RDONLY).v;
    DropKeeps(v1, WRONLY);
    var v2 := Drop(v1, WRONLY).v;
    DropKeeps(v2, RDWR);
  }

  lemma CloseKeeps(v: Vnode, t: Type, ndelay: bool)
    requires Balanced(v)
    ensures DoClose(v, t, ndelay).Done? && Balanced(DoClose(v, t, ndelay).v)
  {
    var u := SlotFor(v, t);
    if !ndelay && Valid(v.slots[u]) {
      if v.slots[u].count > 1 { CountKeeps(v, u, v.slots[u].count - 1); } else { EndUseKeeps(v, u); }
    }
  }

  lemma ReadDirectoryKeeps(v: Vnode, ok: bool)
    requires Balanced(v)
    ensures DoReadDirectory(v, ok).Done? && Balanced(DoReadDirectory(v, ok).v)
  {
    if !Valid(v.slots[RDONLY]) && ok {
      GetKeeps(v, RDONLY, ok);
      EndUseKeeps(Get(v, RDONLY, ok).v, RDONLY);
    }
  }

  lemma CreateKeeps(v: Vnode)
    requires v == Fresh(false)
    ensures Balanced(DoCreate(v).v)
  {
    var w := DoCreate(v).v;
    assert w == Vnode([Slot(0, 0), Slot(0, 0), Slot(0, 1)], false, true, 1, 1, multiset{}, false);
  }

  /** The creator's open keeps the balance if and only if it finds its handle in place and the
    * slot it moves it to free.
    */
  lemma PickUpExactly(v: Vnode, t: Type)
    requires Balanced(v) && v.creating
    ensures Balanced(PickUp(v, t)) <==> Valid(v.slots[RDWR]) && (t == RDWR || !Valid(v.slots[t]))
  {
    var w := PickUp(v, t);
    var r, h := v.slots[RDWR].id, v.slots[t].id;
    assert v.released[h] + InSlots(v, h) == One(h < v.handles);
    if Valid(v.slots[RDWR]) && (t == RDWR || !Valid(v.slots[t])) {
      forall g: nat ensures w.released[g] + InSlots(w, g) == One(g < w.handles) {
        assert v.released[g] + InSlots(v, g) == One(g < v.handles);
      }
    } else if !Valid(v.slots[RDWR]) {
      // the handle that is picked up has been released
      assert w.released[r] + InSlots(w, r) > 1;
    } else {
      // the handle that was in slot t is lost
      assert InSlots(w, h) == 0 && h < w.handles;
    }
  }

  // ---- Whole runs -----------------------------------------------------------------------------------

  /** Every operation but an unclean pick-up keeps the balance, and none of them panics. */
  lemma OpKeeps(v: Vnode, op: Op)
    requires Balanced(v) && CleanPickUp(v, op) && Do(v, op).Done?
    ensures Balanced(Do(v, op).v)
  {
    match op
    case Create => CreateKeeps(v);
    case Open(t, creator, ok) =>
      if !v.isDir && v.creating { PickUpExactly(v, t); } else { UseKeeps(v, SlotFor(v, t), ok); }
    case Close(t, ndelay) => CloseKeeps(v, t, ndelay);
    case Mmap(t, first, second) => UseKeeps(v, t, first == Got); UseKeeps(v, RDONLY, second == Got);
    case ReadDirectory(ok) => ReadDirectoryKeeps(v, ok);
    case Strategy(read, ok) =>
      if !Valid(v.slots[if read then RDONLY else WRONLY]) && !Valid(v.slots[RDWR]) {
        GetKeeps(v, if read then RDONLY else RDWR, ok);
      }
    case Inactive => DropAllKeeps(v);
    case Reclaim => DropAllKeeps(v);
  }

  lemma DropWorks(v: Vnode, t: Type)
    requires Shaped(v)
    ensures Drop(v, t).Done? && Shaped(Drop(v, t).v)
  {
  }

  lemma DropAllWorks(v: Vnode)
    requires Shaped(v)
    ensures DropAll(v).Done? && Shaped(DropAll(v).v)
  {
    DropWorks(v, RDONLY);
    var v1 := Drop(v, RDONLY).v;
    DropWorks(v1, WRONLY);
    DropWorks(Drop(v1, WRONLY).v, RDWR);
  }

  lemma UseWorks(v: Vnode, t: Type, ok: bool)
    requires Shaped(v)
    ensures UseOrGet(v, t, ok).Done? && Shaped(UseOrGet(v, t, ok).v)
  {
  }

  lemma ReadDirectoryWorks(v: Vnode, ok: bool)
    requires Shaped(v)
    ensures DoReadDirectory(v, ok).Done? && Shaped(DoReadDirectory(v, ok).v)
  {
  }

  /** "filehandle_get called despite valid fufh" and "filehandle_put called on a valid fufh"
    * cannot happen, whatever the slots hold.
    */
  lemma NoPanic(v: Vnode, op: Op)
    requires Shaped(v)
    ensures !Do(v, op).Panic?
    ensures Do(v, op).Done? ==> Shaped(Do(v, op).v)
  {
    match op
    case Create =>
    case Open(t, creator, ok) => UseWorks(v, SlotFor(v, t), ok);
    case Close(t, ndelay) =>
    case Mmap(t, first, second) => UseWorks(v, t, first == Got); UseWorks(v, RDONLY, second == Got);
    case ReadDirectory(ok) => ReadDirectoryWorks(v, ok);
    case Strategy(read, ok) =>
    case Inactive => DropAllWorks(v);
    case Reclaim => DropAllWorks(v);
  }

  /** The vnode after a run of operations; None if one of them was blocked. */
  function Run(isDir: bool, ops: seq<Op>): Outcome {
    if ops == [] then Done(Fresh(isDir))
    else
      var last := |ops| - 1;
      var o := Run(isDir, ops[..last]);
      if o.Done? && Shaped(o.v) then Do(o.v, ops[last]) else o
  }

  /** Every pick-up in the run has been clean. */
  ghost predicate CleanRun(isDir: bool, ops: seq<Op>) {
    forall n: nat {:trigger CleanAt(isDir, ops, n)} :: n < |ops| ==> CleanAt(isDir, ops, n)
  }

  predicate CleanAt(isDir: bool, ops: seq<Op>, n: nat)
    requires n < |ops|
  {
    var o := Run(isDir, ops[..n]);
    o.Done? && Shaped(o.v) ==> CleanPickUp(o.v, ops[n])
  }

  lemma {:induction false} NoRunPanics(isDir: bool, ops: seq<Op>)
    ensures !Run(isDir, ops).Panic? && (Run(isDir, ops).Done? ==> Shaped(Run(isDir, ops).v))
  {
    if ops != [] {
      NoRunPanics(isDir, ops[..|ops| - 1]);
      var o := Run(isDir, ops[..|ops| - 1]);
      if o.Done? { NoPanic(o.v, ops[|ops| - 1]); }
    }
  }

  /** After a run whose pick-ups were clean, fuse_fh_current is the number of slots in use and
    * every handle that the daemon has opened is in one slot or has been released once.
    */
  lemma {:induction false} RunIsBalanced(isDir: bool, ops: seq<Op>)
    requires CleanRun(isDir, ops) && Run(isDir, ops).Done?
    ensures Balanced(Run(isDir, ops).v)
  {
    if ops == [] {
      var v := Fresh(isDir);
      assert forall h: nat :: v.released[h] + InSlots(v, h) == One(h < v.handles);
    } else {
      var last := |ops| - 1;
      NoRunPanics(isDir, ops[..last]);
      CleanPrefix(isDir, ops);
      RunIsBalanced(isDir, ops[..last]);
      assert CleanAt(isDir, ops, last);
      OpKeeps(Run(isDir, ops[..last]).v, ops[last]);
    }
  }

  lemma CleanPrefix(isDir: bool, ops: seq<Op>)
    requires CleanRun(isDir, ops) && ops != []
    ensures CleanRun(isDir, ops[..|ops| - 1])
  {
    var before := ops[..|ops| - 1];
    forall n: nat | n < |before| ensures CleanAt(isDir, before, n) {
      assert before[..n] == ops[..n] && CleanAt(isDir, ops, n);
    }
  }

  lemma ReclaimEmpties(v: Vnode)
    requires Balanced(v) && Do(v, Reclaim).Done?
    ensures var w := Do(v, Reclaim).v; w.current == 0 && forall h: nat :: w.released[h] == One(h < w.handles)
  {
    DropAllKeeps(v);
    var w := DropAll(v).v;
    forall h: nat ensures w.released[h] == One(h < w.handles) {
      assert w.released[h] + InSlots(w, h) == One(h < w.handles);
    }
  }

  /** When the vnode is reclaimed, every handle has been released exactly once. */
  lemma AllReleasedOnce(isDir: bool, ops: seq<Op>)
    requires CleanRun(isDir, ops) && Run(isDir, ops).Done?
    requires |ops| > 0 && ops[|ops| - 1] == Reclaim
    ensures var v := Run(isDir, ops).v; v.current == 0 && forall h: nat :: v.released[h] == One(h < v.handles)
  {
    var before := ops[..|ops| - 1];
    NoRunPanics(isDir, before);
    CleanPrefix(isDir, ops);
    RunIsBalanced(isDir, before);
    ReclaimEmpties(Run(isDir, before).v);
  }

  // ---- What an unclean pick-up does for good ----------------------------------------------------------

  /** How often handle h is in a slot or has been released, beyond the once that is due. */
  function Gap(v: Vnode, h: nat): int
    requires Shaped(v)
  {
    v.released[h] + InSlots(v, h) - One(h < v.handles)
  }

  /** The created handle has been picked up, and can be no more. */
  predicate PickedUp(v: Vnode) { !v.creating && v.handles > 0 }

  ghost predicate SameGap(v: Vnode, w: Vnode, h: nat) {
    Shaped(v) && Shaped(w) && Gap(w, h) == Gap(v, h) && (PickedUp(v) ==> PickedUp(w)) && (w.creating ==> v.creating)
  }

  lemma UseSameGap(v: Vnode, t: Type, ok: bool, h: nat)
    requires Shaped(v)
    ensures UseOrGet(v, t, ok).Done? && SameGap(v, UseOrGet(v, t, ok).v, h)
  {
  }

  lemma DropSameGap(v: Vnode, t: Type, h: nat)
    requires Shaped(v)
    ensures Drop(v, t).Done? && SameGap(v, Drop(v, t).v, h)
  {
  }

  lemma DropAllSameGap(v: Vnode, h: nat)
    requires Shaped(v)
    ensures DropAll(v).Done? && SameGap(v, DropAll(v).v, h)
  {
    DropSameGap(v, RDONLY, h);
    var v1 := Drop(v, RDONLY).v;
    DropSameGap(v1, WRONLY, h);
    DropSameGap(Drop(v1, WRONLY).v, RDWR, h);
  }

  lemma CloseSameGap(v: Vnode, t: Type, ndelay: bool, h: nat)
    requires Shaped(v)
    ensures DoClose(v, t, ndelay).Done? && SameGap(v, DoClose(v, t, ndelay).v, h)
  {
  }

  lemma ReadDirectorySameGap(v: Vnode, ok: bool, h: nat)
    requires Shaped(v)
    ensures DoReadDirectory(v, ok).Done? && SameGap(v, DoReadDirectory(v, ok).v, h)
  {
  }

  /** Once the created handle has been picked up no vnop closes or opens a gap. */
  lemma OpSameGap(v: Vnode, op: Op, h: nat)
    requires Shaped(v) && PickedUp(v) && Do(v, op).Done?
    ensures SameGap(v, Do(v, op).v, h)
  {
    match op
    case Create =>
    case Open(t, creator, ok) => UseSameGap(v, SlotFor(v, t), ok, h);
    case Close(t, ndelay) => CloseSameGap(v, t, ndelay, h);
    case Mmap(t, first, second) => UseSameGap(v, t, first == Got, h); UseSameGap(v, RDONLY, second == Got, h);
    case ReadDirectory(ok) => ReadDirectorySameGap(v, ok, h);
    case Strategy(read, ok) => UseSameGap(v, if read then RDONLY else RDWR, ok, h);
    case Inactive => DropAllSameGap(v, h);
    case Reclaim => DropAllSameGap(v, h);
  }

  /** The handle that is released a second time, or the one that is lost. */
  lemma UncleanPickUpLeavesGap(v: Vnode, t: Type)
    requires Balanced(v) && v.creating && !(Valid(v.slots[RDWR]) && (t == RDWR || !Valid(v.slots[t])))
    ensures exists h: nat :: Gap(PickUp(v, t), h) != 0
  {
    var w := PickUp(v, t);
    var r, h := v.slots[RDWR].id, v.slots[t].id;
    assert v.released[h] + InSlots(v, h) == One(h < v.handles);
    assert v.released[r] + InSlots(v, r) == One(r < v.handles);
    if !Valid(v.slots[RDWR]) { assert Gap(w, r) != 0; } else { assert Gap(w, h) != 0; }
  }

  lemma {:induction false} CreatedIsOpened(isDir: bool, ops: seq<Op>)
    requires Run(isDir, ops).Done?
    ensures Run(isDir, ops).v.creating ==> Run(isDir, ops).v.handles > 0
  {
    if ops != [] {
      var last := |ops| - 1;
      NoRunPanics(isDir, ops[..last]);
      CreatedIsOpened(isDir, ops[..last]);
      HandlesOnlyGrow(Run(isDir, ops[..last]).v, ops[last]);
    }
  }

  lemma HandlesOnlyGrow(v: Vnode, op: Op)
    requires Shaped(v) && Do(v, op).Done?
    ensures Do(v, op).v.handles >= v.handles
    ensures Do(v, op).v.creating ==> v.creating || Do(v, op).v.handles > 0
  {
    match op
    case Create =>
    case Open(t, creator, ok) =>
    case Close(t, ndelay) =>
    case Mmap(t, first, second) =>
    case ReadDirectory(ok) =>
    case Strategy(read, ok) =>
    case Inactive => DropAllHandles(v);
    case Reclaim => DropAllHandles(v);
  }

  lemma DropAllHandles(v: Vnode)
    requires Shaped(v)
    ensures DropAll(v).Done? && DropAll(v).v.handles == v.handles && DropAll(v).v.creating == v.creating
  {
    DropWorks(v, RDONLY);
    var v1 := Drop(v, RDONLY).v;
    DropWorks(v1, WRONLY);
    DropWorks(Drop(v1, WRONLY).v, RDWR);
  }

  lemma CleanStep(isDir: bool, ops: seq<Op>)
    requires ops != [] && Run(isDir, ops[..|ops| - 1]).Done? && Shaped(Run(isDir, ops[..|ops| - 1]).v)
    requires CleanRun(isDir, ops[..|ops| - 1]) && CleanPickUp(Run(isDir, ops[..|ops| - 1]).v, ops[|ops| - 1])
    ensures CleanRun(isDir, ops)
  {
    var before := ops[..|ops| - 1];
    forall n: nat | n < |ops| ensures CleanAt(isDir, ops, n) {
      if n < |before| { assert before[..n] == ops[..n] && CleanAt(isDir, before, n); }
    }
  }

  /** A gap that a pick-up has left stays to the end of the run. */
  lemma {:induction false} UncleanRunLeavesGap(isDir: bool, ops: seq<Op>) returns (h: nat)
    requires Run(isDir, ops).Done? && Shaped(Run(isDir, ops).v) && !CleanRun(isDir, ops)
    ensures PickedUp(Run(isDir, ops).v) && Gap(Run(isDir, ops).v, h) != 0
  {
    var last := |ops| - 1;
    NoRunPanics(isDir, ops[..last]);
    var v := Run(isDir, ops[..last]).v;
    if CleanRun(isDir, ops[..last]) {
      if CleanPickUp(v, ops[last]) { CleanStep(isDir, ops); }
      RunIsBalanced(isDir, ops[..last]);
      CreatedIsOpened(isDir, ops[..last]);
      UncleanPickUpLeavesGap(v, ops[last].t);
      h :| Gap(PickUp(v, ops[last].t), h) != 0;
    } else {
      h := UncleanRunLeavesGap(isDir, ops[..last]);
      OpSameGap(v, ops[last], h);
    }
  }

  lemma ReclaimLeavesNoSlot(v: Vnode, h: nat)
    requires Shaped(v) && Do(v, Reclaim).Done? && Shaped(Do(v, Reclaim).v)
    ensures InSlots(Do(v, Reclaim).v, h) == 0
  {
    DropWorks(v, RDONLY);
    var v1 := Drop(v, RDONLY).v;
    DropWorks(v1, WRONLY);
    DropWorks(Drop(v1, WRONLY).v, RDWR);
  }

  /** When the vnode is reclaimed every handle has been released exactly once if and only if
    * every pick-up of a created handle was clean.
    */
  lemma AllReleasedOnceExactly(isDir: bool, ops: seq<Op>)
    requires Run(isDir, ops).Done? && |ops| > 0 && ops[|ops| - 1] == Reclaim
    ensures (forall h: nat :: Run(isDir, ops).v.released[h] == One(h < Run(isDir, ops).v.handles)) <==> CleanRun(isDir, ops)
  {
    if CleanRun(isDir, ops) {
      AllReleasedOnce(isDir, ops);
    } else {
      var before := ops[..|ops| - 1];
      NoRunPanics(isDir, before);
      NoRunPanics(isDir, ops);
      var h := UncleanRunLeavesGap(isDir, ops);
      ReclaimLeavesNoSlot(Run(isDir, before).v, h);
    }
  }

  lemma RunOneMore(isDir: bool, ops: seq<Op>, op: Op, v: Vnode)
    requires Run(isDir, ops) == Done(v) && Shaped(v)
    ensures Run(isDir, ops + [op]) == Do(v, op)
  {
    assert (ops + [op])[..|ops|] == ops;
  }

  /** An unclean pick-up: the created vnode goes inactive before its creator opens it. Its
    * handle is then released twice, and fuse_fh_current is one too low.
    */
  lemma ReleasedTwice()
    ensures var ops := [Create] + [Inactive] + [Open(RDWR, true, true)] + [Close(RDWR, false)];
      && Run(false, ops).Done? && !CleanRun(false, ops)
      && Run(false, ops).v.released[0] == 2 && Run(false, ops).v.current == -1
  {
    var v1 := DoCreate(Fresh(false)).v;
    RunOneMore(false, [], Create, Fresh(false));
    assert [] + [Create] == [Create];
    var v2 := DropAll(v1).v;
    RunOneMore(false, [Create], Inactive, v1);
    RunOneMore(false, [Create] + [Inactive], Open(RDWR, true, true), v2);
    RunOneMore(false, [Create] + [Inactive] + [Open(RDWR, true, true)], Close(RDWR, false), PickUp(v2, RDWR));
    var ops := [Create] + [Inactive] + [Open(RDWR, true, true)] + [Close(RDWR, false)];
    assert ops[..2] == [Create] + [Inactive] && !CleanAt(false, ops, 2);
  }

  // ---- What the vnops do to the slots -------------------------------------------------------------

  /** The slot that an open, or a close, of type t0 is about: directories have only one. */
  ghost predicate IsSlotOf(v: Vnode, t0: Type, t: Type) { if v.isDir then t == 0 else t == t0 }

  /** Only slot t changes. */
  ghost predicate OnlySlot(v: Vnode, w: Vnode, t: Type) {
    Shaped(v) && Shaped(w) && (forall u: Type :: u != t ==> w.slots[u] == v.slots[u]) && w.isDir == v.isDir
  }

  /** Slot t has one use more, and nothing else has happened. */
  ghost predicate OneUseMore(v: Vnode, w: Vnode, t: Type) {
    && OnlySlot(v, w, t) && w.slots[t] == Slot(v.slots[t].id, v.slots[t].count + 1)
    && w.current == v.current && w.handles == v.handles && w.released == v.released
  }

  /** The daemon has opened a handle, and it is in slot t with one use. */
  ghost predicate NewHandle(v: Vnode, w: Vnode, t: Type) {
    && OnlySlot(v, w, t) && w.slots[t] == Slot(v.handles, 1)
    && w.current == v.current + 1 && w.handles == v.handles + 1 && w.released == v.released
  }

  /** The handle in slot t has been released, once. */
  ghost predicate HandleGone(v: Vnode, w: Vnode, t: Type) {
    && OnlySlot(v, w, t) && w.slots[t] == Slot(v.slots[t].id, 0)
    && w.current == v.current - 1 && w.handles == v.handles && w.released == v.released + multiset{v.slots[t].id}
  }

  /** An open uses the slot of its own type: once more if it is in use; else with a new handle, if
    * the daemon agrees; else nothing happens.
    */
  lemma OpenUsesItsSlot(v: Vnode, t0: Type, creator: bool, ok: bool, t: Type)
    requires Shaped(v) && !v.reclaimed && IsSlotOf(v, t0, t) && (v.isDir || !v.creating)
    ensures var o := Do(v, Open(t0, creator, ok));
      && o.Done? && o.v.creating == v.creating
      && (v.slots[t].count > 0 ==> OneUseMore(v, o.v, t))
      && (v.slots[t].count == 0 && ok ==> NewHandle(v, o.v, t))
      && (v.slots[t].count == 0 && !ok ==> o.v == v)
  {
  }

  /** A close ends one use of the slot of its own type, and releases the handle with the last; a
    * close that is not wanted, or of a slot that is not in use, does nothing.
    */
  lemma CloseEndsOneUse(v: Vnode, t0: Type, ndelay: bool, t: Type)
    requires Shaped(v) && !v.reclaimed && IsSlotOf(v, t0, t)
    ensures var o := Do(v, Close(t0, ndelay));
      && o.Done? && o.v.creating == v.creating
      && (ndelay || v.slots[t].count == 0 ==> o.v == v)
      && (!ndelay && v.slots[t].count == 1 ==> HandleGone(v, o.v, t))
      && (!ndelay && v.slots[t].count > 1 ==> OneUseMore(o.v, v, t))
  {
  }

  /** An open and a close of one type leave the slots in use as they were; the handle is released
    * exactly if the slot was free before.
    */
  lemma OpenThenClose(v: Vnode, t0: Type, creator: bool, t: Type)
    requires Shaped(v) && !v.reclaimed && IsSlotOf(v, t0, t) && (v.isDir || !v.creating)
    ensures var o := Do(v, Open(t0, creator, true));
      && o.Done? && Shaped(o.v) && Do(o.v, Close(t0, false)).Done?
      && var w := Do(o.v, Close(t0, false)).v;
         && OnlySlot(v, w, t) && w.slots[t].count == v.slots[t].count && w.current == v.current
         && (v.slots[t].count > 0 ==> w == v)
         && (v.slots[t].count == 0 ==> w.released == v.released + multiset{v.handles} && w.handles == v.handles + 1)
  {
    OpenUsesItsSlot(v, t0, creator, true, t);
    var o := Do(v, Open(t0, creator, true));
    CloseEndsOneUse(o.v, t0, false, t);
    var w := Do(o.v, Close(t0, false)).v;
    if v.slots[t].count > 0 { assert w.slots == v.slots; }
  }

  /** fuse_vnop_create leaves one handle, in the read-write slot, for its creator; the creator's
    * open moves it to its own slot, and nobody else gets in before.
    */
  lemma CreateThenOpen(t: Type, ok: bool)
    ensures var o := Do(Fresh(false), Create);
      && o.Done? && NewHandle(Fresh(false), o.v, RDWR) && o.v.creating
      && Do(o.v, Open(t, false, ok)) == Blocked
      && var p := Do(o.v, Open(t, true, ok));
         && p.Done? && Shaped(p.v) && !p.v.creating && p.v.slots[t] == Slot(0, 1)
         && (forall u: Type :: u != t ==> p.v.slots[u].count == 0)
         && p.v.current == 1 && p.v.handles == 1 && p.v.released == multiset{}
  {
    var o := Do(Fresh(false), Create);
    assert o.v.slots == [Slot(0, 0), Slot(0, 0), Slot(0, 1)];
  }

  /** A mapping uses the slot of its own type; if that is refused for lack of access it uses the
    * read-only slot in the same way.
    */
  lemma MmapUsesItsSlot(v: Vnode, t: Type, first: Attempt, second: Attempt)
    requires Shaped(v) && !v.reclaimed
    ensures var o := Do(v, Mmap(t, first, second));
      && o.Done? && o.v.creating == v.creating
      && (v.slots[t].count > 0 ==> OneUseMore(v, o.v, t))
      && (v.slots[t].count == 0 && first == Got ==> NewHandle(v, o.v, t))
      && (v.slots[t].count == 0 && (first == OtherError || (first == NoAccess && t == 0)) ==> o.v == v)
      && (v.slots[t].count == 0 && first == NoAccess && t != 0 ==>
            && (v.slots[0].count > 0 ==> OneUseMore(v, o.v, 0))
            && (v.slots[0].count == 0 && second == Got ==> NewHandle(v, o.v, 0))
            && (v.slots[0].count == 0 && second != Got ==> o.v == v))
  {
  }

  /** Reading a directory that is not open borrows a handle and releases it again. */
  lemma ReadDirectoryBorrows(v: Vnode, ok: bool)
    requires Shaped(v) && !v.reclaimed
    ensures var o := Do(v, ReadDirectory(ok));
      && o.Done? && OnlySlot(v, o.v, 0) && o.v.slots[0].count == v.slots[0].count && o.v.current == v.current
      && (v.slots[0].count > 0 || !ok ==> o.v == v)
      && (v.slots[0].count == 0 && ok ==>
            o.v.handles == v.handles + 1 && o.v.released == v.released + multiset{v.handles})
  {
    var before, after := Slot(v.handles, 1), Slot(v.handles, 0);
    assert v.slots[0 := before][0 := after] == v.slots[0 := after];
  }

  /** Paging uses any handle that allows the access; without one it opens a handle that stays. */
  lemma StrategyUsesAnyHandle(v: Vnode, read: bool, ok: bool)
    requires Shaped(v) && !v.reclaimed
    ensures var o := Do(v, Strategy(read, ok));
      && o.Done? && o.v.creating == v.creating
      && (v.slots[2].count > 0 || v.slots[if read then 0 else 1].count > 0 || !ok ==> o.v == v)
      && (v.slots[2].count == 0 && v.slots[if read then 0 else 1].count == 0 && ok ==>
            NewHandle(v, o.v, if read then 0 else 2))
  {
  }

  /** fuse_vnop_inactive and fuse_vnop_reclaim release the handle of every slot in use, once, and no other. */
  lemma InactiveReleasesAll(v: Vnode, h: nat)
    requires Shaped(v) && !v.reclaimed
    ensures var o, p := Do(v, Inactive), Do(v, Reclaim);
      && o.Done? && Shaped(o.v) && (forall t: Type :: o.v.slots[t] == Slot(v.slots[t].id, 0))
      && o.v.released[h] == v.released[h] + InSlots(v, h) && o.v.current == v.current - ValidSlots(v)
      && o.v.handles == v.handles && p == Done(o.v.(reclaimed := true))
  {
    DropsSlot(v, RDONLY, h);
    var v1 := Drop(v, RDONLY).v;
    DropsSlot(v1, WRONLY, h);
    DropsSlot(Drop(v1, WRONLY).v, RDWR, h);
  }

  lemma DropsSlot(v: Vnode, t: Type, h: nat)
    requires Shaped(v)
    ensures var o := Drop(v, t);
      && o.Done? && OnlySlot(v, o.v, t) && o.v.slots[t] == Slot(v.slots[t].id, 0)
      && o.v.released[h] == v.released[h] + Holds(v.slots[t], h) && o.v.current == v.current - One(Valid(v.slots[t]))
      && o.v.handles == v.handles
  {
  }

  // ---- As it runs ---------------------------------------------------------------------------------------

  /** struct fuse_vnode_data, as far as the handles go, and the daemon's side of them. */
  class FuseVnode {
    const fufh: array<Slot>
    const isDir: bool
    var creating: bool
    var current: int
    var handles: nat
    var released: multiset<nat>
    var reclaimed: bool

    ghost predicate Ok() { fufh.Length == 3 }

    function View(): Vnode
      reads this, fufh
    {
      Vnode(fufh[..], isDir, creating, current, handles, released, reclaimed)
    }

    /** FSNodeGetOrCreateFileVNodeByID for a new vnode. */
    constructor (isDir: bool)
      ensures Ok() && fresh(fufh) && View() == Fresh(isDir)
    {
      this.isDir := isDir;
      fufh := new Slot[3](_ => Slot(0, 0));
      creating, current, handles, released, reclaimed := false, 0, 0, multiset{}, false;
    }

    /** fuse_filehandle_get. */
    method FilehandleGet(t: Type, ok: bool) returns (err: bool)
      requires Ok() && !Valid(fufh[t])
      modifies this`current, this`handles, fufh
      ensures Done(View()) == Get(old(View()), t, ok) && err == !ok
    {
      err := !ok;
      if ok {
        current := current + 1;
        fufh[t] := Slot(handles, 1);
        handles := handles + 1;
        assert fufh[..] == old(fufh[..])[t := fufh[t]];
      }
    }

    /** fuse_filehandle_put. */
    method FilehandlePut(t: Type)
      requires Ok() && !Valid(fufh[t])
      modifies this`current, this`released
      ensures Done(View()) == Put(old(View()), t)
    {
      released := released + multiset{fufh[t].id};
      current := current - 1;
    }

    /** fuse_vnop_open. */
    method VnopOpen(t0: Type, creator: bool, ok: bool)
      requires Ok() && !reclaimed && (creating && !isDir ==> creator)
      modifies this, fufh
      ensures Done(View()) == Do(old(View()), Open(t0, creator, ok))
    {
      var t: Type := if isDir then RDONLY else t0;
      if !isDir && creating {
        var id := fufh[RDWR].id;
        fufh[RDWR] := Slot(id, 0);
        fufh[t] := Slot(id, 1);
        creating := false;
        assert fufh[..] == old(fufh[..])[RDWR := Slot(id, 0)][t := Slot(id, 1)];
      } else if Valid(fufh[t]) {
        fufh[t] := fufh[t].(count := fufh[t].count + 1);
        assert fufh[..] == old(fufh[..])[t := fufh[t]];
      } else {
        var err := FilehandleGet(t, ok);
      }
    }

    /** fuse_vnop_close. */
    method VnopClose(t0: Type, ndelay: bool)
      requires Ok() && !reclaimed
      modifies this, fufh
      ensures Done(View()) == Do(old(View()), Close(t0, ndelay))
    {
      var t: Type := if isDir then RDONLY else t0;
      if ndelay || !Valid(fufh[t]) { return; }
      fufh[t] := fufh[t].(count := fufh[t].count - 1);
      assert fufh[..] == old(fufh[..])[t := fufh[t]];
      if !Valid(fufh[t]) { FilehandlePut(t); }
    }

    /** fuse_vnop_mmap with its retry. */
    method VnopMmap(t0: Type, first: Attempt, second: Attempt)
      requires Ok() && !reclaimed
      modifies this, fufh
      ensures Done(View()) == Do(old(View()), Mmap(t0, first, second))
    {
      var t, attempt, retried := t0, first, false;
      while true
        invariant View() == old(View()) && (if retried then t == RDONLY && attempt == second else t == t0 && attempt == first)
        invariant retried ==> !Valid(fufh[t0]) && first == NoAccess && t0 != RDONLY
        decreases !retried
      {
        if Valid(fufh[t]) {
          fufh[t] := fufh[t].(count := fufh[t].count + 1);
          assert fufh[..] == old(fufh[..])[t := fufh[t]];
          return;
        }
        var err := FilehandleGet(t, attempt == Got);
        if !err || retried || attempt != NoAccess || t == RDONLY { return; }
        t, attempt, retried := RDONLY, second, true;
      }
    }

    /** One turn of the loops of fuse_vnop_inactive and fuse_vnop_reclaim. */
    method DropSlot(t: Type)
      requires Ok()
      modifies this`current, this`released, fufh
      ensures Done(View()) == Drop(old(View()), t)
    {
      if Valid(fufh[t]) {
        fufh[t] := fufh[t].(count := 0);
        assert fufh[..] == old(fufh[..])[t := fufh[t]];
        FilehandlePut(t);
      }
    }

    /** fuse_vnop_inactive. */
    method VnopInactive()
      requires Ok() && !reclaimed
      modifies this, fufh
      ensures Done(View()) == Do(old(View()), Inactive)
    {
      var t := 0;
      while t < 3
        invariant t <= 3 && Done(View()) == Dropped(old(View()), t)
      {
        DropSlot(t);
        t := t + 1;
      }
      DroppedAll(old(View()));
    }

    /** fuse_vnop_reclaim. */
    method VnopReclaim()
      requires Ok() && !reclaimed
      modifies this, fufh
      ensures Done(View()) == Do(old(View()), Reclaim)
    {
      VnopInactive();
      reclaimed := true;
    }
  }

  /** The loop of fuse_vnop_inactive after n turns. */
  function Dropped(v: Vnode, n: nat): Outcome
    requires Shaped(v) && n <= 3
  {
    if n == 0 then Done(v) else Then(Dropped(v, n - 1), n - 1)
  }

  lemma DroppedAll(v: Vnode)
    requires Shaped(v)
    ensures Dropped(v, 3) == DropAll(v)
  {
    assert Dropped(v, 1) == Then(Dropped(v, 0), RDONLY);
    assert Dropped(v, 2) == Then(Dropped(v, 1), WRONLY);
  }
}
