/** Opens, closes, mounts and unmounts of the devices in any order and interleaving. */
module DeviceLife {
  import opened Lists
  import opened DeviceMemory

  type Tid = nat

  /** How far a process or the kernel has come with a device. */
  datatype Pc =
    | Idle
    | Opening(u: Unit)          // counted, holds the local lock
    | Open(u: Unit, d: Sid)     // has the device open
    | Closing(u: Unit)          // about to give the use count back
    | Mounting(u: Unit, d: Sid) // in the handshake with the daemon
    | Mounted(u: Unit, d: Sid)
    | Leaving(u: Unit)          // on the error path of a mount that was not counted

  datatype State = State(y: System, th: map<Tid, Pc>, user: map<Unit, Tid>, mounter: map<Unit, Tid>)
  {
    predicate At(i: Tid, pc: Pc) { i in th && th[i] == pc }

    /** The local lock of a device is held across steps only by an open in progress. */
    predicate LockFree(u: Unit) { forall j :: j in th ==> th[j] != Opening(u) }
  }

  datatype Action =
    | BeginOpen(i: Tid, u: Unit) | EndOpen(i: Tid) | BeginClose(i: Tid) | EndClose(i: Tid)
    | BeginMount(i: Tid, u: Unit, randomOk: bool) | EndMount(i: Tid, ok: bool) | LeaveMount(i: Tid) | Unmount(i: Tid)

  function Step(s: State, a: Action): Option<State> {
    if a.i !in s.th then None
    else
      match a
      case BeginOpen(i, u) =>
        if s.th[i] != Idle || u !in s.y.dev || !s.LockFree(u) then None
        else
          (match OpenEnter(s.y, u)
           case None => Some(s)
           case Some(y) => Some(s.(y := y, th := s.th[i := Opening(u)], user := s.user[u := i])))
      case EndOpen(i) =>
        if !s.th[i].Opening? || s.th[i].u !in s.y.dev then None
        else
          var u, d := s.th[i].u, s.y.next;
          var (y, ok) := OpenFinish(s.y, u);
          Some(s.(y := y, th := s.th[i := if ok then Open(u, d) else Idle], user := if ok then s.user else s.user - {u}))
      case BeginClose(i) =>
        if !s.th[i].Open? || !s.LockFree(s.th[i].u) || !s.y.Has(s.th[i].u, s.th[i].d) then None
        else Some(s.(y := CloseLocked(s.y, s.th[i].u, s.th[i].d), th := s.th[i := Closing(s.th[i].u)]))
      case EndClose(i) =>
        if !s.th[i].Closing? || s.th[i].u !in s.y.dev then None
        else Some(s.(y := CloseDone(s.y, s.th[i].u), th := s.th[i := Idle], user := s.user - {s.th[i].u}))
      case BeginMount(i, u, randomOk) =>
        if s.th[i] != Idle || u !in s.y.dev || !s.LockFree(u) then None
        else
          var (y, r) := MountEnter(s.y, u, randomOk);
          Some(s.(y := y, th := s.th[i := if r.Entered? then Mounting(u, r.d) else if r.Out? then Leaving(u) else Idle],
                  mounter := if r.Entered? then s.mounter[u := i] else s.mounter))
      case EndMount(i, ok) =>
        if !s.th[i].Mounting? || s.th[i].u !in s.y.dev then None
        else if ok then Some(s.(th := s.th[i := Mounted(s.th[i].u, s.th[i].d)]))
        else if !s.LockFree(s.th[i].u) then None
        else Some(s.(y := MountOut(s.y, s.th[i].u, true), th := s.th[i := Idle], mounter := s.mounter - {s.th[i].u}))
      case LeaveMount(i) =>
        if !s.th[i].Leaving? || s.th[i].u !in s.y.dev || !s.LockFree(s.th[i].u) then None
        else Some(s.(y := MountOut(s.y, s.th[i].u, false), th := s.th[i := Idle]))
      case Unmount(i) =>
        if !s.th[i].Mounted? || !s.LockFree(s.th[i].u) || !s.y.Has(s.th[i].u, s.th[i].d) then None
        else Some(s.(y := UnmountLocked(s.y, s.th[i].u, s.th[i].d), th := s.th[i := Idle], mounter := s.mounter - {s.th[i].u}))
  }

  predicate Init(s: State) {
    && (forall u :: u in s.y.dev ==> s.y.dev[u] == Dev(0, None))
    && s.y.sess == map[] && s.y.mountCount == 0
    && (forall i :: i in s.th ==> s.th[i] == Idle) && s.user == map[] && s.mounter == map[]
  }

  function Run(s: State, run: seq<Action>): Option<State> {
    if run == [] then Some(s)
    else
      var last := |run| - 1;
      match Run(s, run[..last])
      case None => None
      case Some(mid) => Step(mid, run[last])
  }

  // ---- The invariant ---------------------------------------------------------------------

  /** The thread is one of those that the use count of device u counts. */
  predicate Uses(pc: Pc, u: Unit) { (pc.Opening? || pc.Open? || pc.Closing?) && pc.u == u }

  predicate Mounts(pc: Pc, u: Unit) { (pc.Mounting? || pc.Mounted?) && pc.u == u }

  ghost predicate SlotOk(s: State, u: Unit)
    requires u in s.y.dev
  {
    var x := s.y.dev[u];
    && x.usecount == (if u in s.user then 1 else 0)
    && (u in s.user ==> s.user[u] in s.th && Uses(s.th[s.user[u]], u))
    && (u in s.mounter ==> s.mounter[u] in s.th && Mounts(s.th[s.mounter[u]], u))
    && (x.data.Some? ==>
          && x.data.value in s.y.sess && s.y.sess[x.data.value].unit == u
          && var z := s.y.sess[x.data.value];
             && z.destroyed == 0 && (z.isOpen || z.isMounted)
             && (z.isOpen ==> u in s.user && s.th[s.user[u]] == Open(u, x.data.value))
             && (z.isMounted ==> u in s.mounter && s.th[s.mounter[u]].d == x.data.value))
  }

  ghost predicate ThreadOk(s: State, i: Tid)
    requires i in s.th
  {
    match s.th[i]
    case Idle => true
    case Opening(u) => u in s.y.dev && u in s.user && s.user[u] == i
    case Open(u, d) => s.y.Has(u, d) && s.y.sess[d].isOpen && u in s.user && s.user[u] == i
    case Closing(u) => u in s.y.dev && u in s.user && s.user[u] == i
    case Mounting(u, d) => s.y.Has(u, d) && s.y.sess[d].isMounted && u in s.mounter && s.mounter[u] == i
    case Mounted(u, d) => s.y.Has(u, d) && s.y.sess[d].isMounted && u in s.mounter && s.mounter[u] == i
    case Leaving(u) => false
  }

  /** A session that is not in its slot has been destroyed, once, and is not in use. */
  ghost predicate SessionOk(s: State, d: Sid)
    requires d in s.y.sess
  {
    var z := s.y.sess[d];
    && d < s.y.next && z.unit in s.y.dev
    && (s.y.Has(z.unit, d) || (z.destroyed == 1 && !z.isOpen && !z.isMounted))
  }

  function MountedSessions(y: System): set<Sid> { set d | d in y.sess && y.sess[d].isMounted }

  ghost predicate Good(s: State) {
    && s.y.mountCount == |MountedSessions(s.y)|
    && (forall u {:trigger SlotOk(s, u)} :: u in s.y.dev ==> SlotOk(s, u))
    && (forall i {:trigger ThreadOk(s, i)} :: i in s.th ==> ThreadOk(s, i))
    && (forall d {:trigger SessionOk(s, d)} :: d in s.y.sess ==> SessionOk(s, d))
  }

  lemma InitIsGood(s: State)
    requires Init(s)
    ensures Good(s)
  {
    assert MountedSessions(s.y) == {};
  }

  // ---- A step concerns one thread and one device ------------------------------------------

  predicate OnlyAt(pc: Pc, u: Unit) { pc.Idle? || pc.u == u }

  ghost predicate Local(s: State, s': State, i: Tid, u: Unit) {
    && i in s.th && i in s'.th && s'.th == s.th[i := s'.th[i]] && OnlyAt(s.th[i], u) && OnlyAt(s'.th[i], u)
    && s'.y.dev.Keys == s.y.dev.Keys && (forall v :: v in s.y.dev && v != u ==> s'.y.dev[v] == s.y.dev[v])
    && (forall v :: v != u ==> (v in s'.user <==> v in s.user) && (v in s'.mounter <==> v in s.mounter))
    && (forall v :: v != u && v in s.user ==> s'.user[v] == s.user[v])
    && (forall v :: v != u && v in s.mounter ==> s'.mounter[v] == s.mounter[v])
    && (forall d :: d in s.y.sess ==> d in s'.y.sess && s'.y.sess[d].unit == s.y.sess[d].unit)
    && (forall d :: d in s.y.sess && s.y.sess[d].unit != u ==> s'.y.sess[d] == s.y.sess[d])
    && (forall d :: d in s'.y.sess && d !in s.y.sess ==> s'.y.sess[d].unit == u)
    && s.y.next <= s'.y.next
  }

  lemma SlotFrame(s: State, s': State, i: Tid, u: Unit, v: Unit)
    requires Local(s, s', i, u) && v in s.y.dev && v != u && SlotOk(s, v)
    ensures SlotOk(s', v)
  {
  }

  lemma ThreadFrame(s: State, s': State, i: Tid, u: Unit, j: Tid)
    requires Local(s, s', i, u) && j in s.th && j != i && ThreadOk(s, j) && (s.th[j].Idle? || s.th[j].u != u)
    requires s.th[j].Open? || s.th[j].Mounting? || s.th[j].Mounted? ==> s.th[j].u in s.y.dev && SlotOk(s, s.th[j].u)
    ensures ThreadOk(s', j)
  {
  }

  ghost predicate Settled(s: State, s': State, i: Tid, u: Unit) {
    && Local(s, s', i, u) && u in s'.y.dev && SlotOk(s', u) && ThreadOk(s', i)
    && s'.y.mountCount == |MountedSessions(s'.y)|
    && (forall j {:trigger ThreadOk(s', j)} :: j in s.th && j != i && !s.th[j].Idle? && s.th[j].u == u ==> ThreadOk(s', j))
    && (forall d {:trigger SessionOk(s', d)} :: d in s'.y.sess && s'.y.sess[d].unit == u ==> SessionOk(s', d))
  }

  lemma Assemble(s: State, s': State, i: Tid, u: Unit)
    requires Good(s) && Settled(s, s', i, u)
    ensures Good(s')
  {
    forall v | v in s'.y.dev ensures SlotOk(s', v) {
      if v != u {
        assert SlotOk(s, v);
        SlotFrame(s, s', i, u, v);
      }
    }
    forall j | j in s'.th ensures ThreadOk(s', j) {
      if j != i && (s.th[j].Idle? || s.th[j].u != u) {
        assert ThreadOk(s, j);
        assert !s.th[j].Idle? && s.th[j].u in s.y.dev ==> SlotOk(s, s.th[j].u);
        ThreadFrame(s, s', i, u, j);
      }
    }
    forall d | d in s'.y.sess ensures SessionOk(s', d) {
      if s'.y.sess[d].unit != u { assert SessionOk(s, d); }
    }
  }

  // ---- The mount count ------------------------------------------------------------------------

  lemma OneElement(a: set<Sid>, b: set<Sid>, d: Sid)
    requires a - {d} == b - {d}
    ensures |b| + One(d in a) == |a| + One(d in b)
  {
    if d in a { assert a == (a - {d}) + {d}; } else { assert a == a - {d}; }
    if d in b { assert b == (b - {d}) + {d}; } else { assert b == b - {d}; }
  }

  /** Only session d changes, from being mounted or not to being mounted or not. */
  lemma CountMounted(y: System, y': System, d: Sid)
    requires forall e :: e != d ==> (e in y'.sess && y'.sess[e].isMounted <==> e in y.sess && y.sess[e].isMounted)
    ensures |MountedSessions(y')| + One(d in MountedSessions(y)) == |MountedSessions(y)| + One(d in MountedSessions(y'))
  {
    var a, b := MountedSessions(y), MountedSessions(y');
    forall e ensures e in a - {d} <==> e in b - {d} { }
    OneElement(a, b, d);
  }

  // ---- One lemma for every step ------------------------------------------------------------------

  lemma BeginOpenKeeps(s: State, i: Tid, u: Unit, s': State)
    requires Good(s) && Step(s, BeginOpen(i, u)) == Some(s')
    ensures Good(s')
  {
    assert SlotOk(s, u);
    if s' != s {
      forall d | d in s'.y.sess && s'.y.sess[d].unit == u ensures SessionOk(s', d) { assert SessionOk(s, d); }
      forall j | j in s.th && j != i && !s.th[j].Idle? && s.th[j].u == u ensures ThreadOk(s', j) { assert ThreadOk(s, j); }
      assert MountedSessions(s'.y) == MountedSessions(s.y);
      Assemble(s, s', i, u);
    }
  }

  lemma EndOpenKeeps(s: State, i: Tid, s': State)
    requires Good(s) && Step(s, EndOpen(i)) == Some(s')
    ensures Good(s')
  {
    var u, d := s.th[i].u, s.y.next;
    assert SlotOk(s, u) && ThreadOk(s, i);
    assert d in s.y.sess ==> SessionOk(s, d);
    CountMounted(s.y, s'.y, d);
    forall e | e in s'.y.sess && s'.y.sess[e].unit == u ensures SessionOk(s', e) { assert e != d ==> SessionOk(s, e); }
    forall j | j in s.th && j != i && !s.th[j].Idle? && s.th[j].u == u ensures ThreadOk(s', j) { assert ThreadOk(s, j); }
    Assemble(s, s', i, u);
  }

  lemma BeginCloseKeeps(s: State, i: Tid, s': State)
    requires Good(s) && Step(s, BeginClose(i)) == Some(s')
    ensures Good(s')
  {
    var u, d := s.th[i].u, s.th[i].d;
    assert SlotOk(s, u) && ThreadOk(s, i);
    CountMounted(s.y, s'.y, d);
    forall e | e in s'.y.sess && s'.y.sess[e].unit == u ensures SessionOk(s', e) { assert SessionOk(s, e); }
    forall j | j in s.th && j != i && !s.th[j].Idle? && s.th[j].u == u ensures ThreadOk(s', j) { assert ThreadOk(s, j); }
    Assemble(s, s', i, u);
  }

  lemma EndCloseKeeps(s: State, i: Tid, s': State)
    requires Good(s) && Step(s, EndClose(i)) == Some(s')
    ensures Good(s')
  {
    var u := s.th[i].u;
    assert SlotOk(s, u) && ThreadOk(s, i);
    assert MountedSessions(s'.y) == MountedSessions(s.y);
    forall e | e in s'.y.sess && s'.y.sess[e].unit == u ensures SessionOk(s', e) { assert SessionOk(s, e); }
    forall j | j in s.th && j != i && !s.th[j].Idle? && s.th[j].u == u ensures ThreadOk(s', j) { assert ThreadOk(s, j); }
    Assemble(s, s', i, u);
  }

  lemma BeginMountKeeps(s: State, i: Tid, u: Unit, randomOk: bool, s': State)
    requires Good(s) && Step(s, BeginMount(i, u, randomOk)) == Some(s')
    ensures Good(s')
  {
    assert SlotOk(s, u) && ThreadOk(s, i);
    var (y, r) := MountEnter(s.y, u, randomOk);
    if r.Entered? {
      CountMounted(s.y, s'.y, r.d);
    } else {
      assert MountedSessions(s'.y) == MountedSessions(s.y);
    }
    forall e | e in s'.y.sess && s'.y.sess[e].unit == u ensures SessionOk(s', e) { assert SessionOk(s, e); }
    forall j | j in s.th && j != i && !s.th[j].Idle? && s.th[j].u == u ensures ThreadOk(s', j) { assert ThreadOk(s, j); }
    Assemble(s, s', i, u);
  }

  lemma MountedKeeps(s: State, i: Tid, s': State)
    requires Good(s) && Step(s, EndMount(i, true)) == Some(s')
    ensures Good(s')
  {
    var u := s.th[i].u;
    assert SlotOk(s, u) && ThreadOk(s, i);
    assert MountedSessions(s'.y) == MountedSessions(s.y);
    forall e | e in s'.y.sess && s'.y.sess[e].unit == u ensures SessionOk(s', e) { assert SessionOk(s, e); }
    forall j | j in s.th && j != i && !s.th[j].Idle? && s.th[j].u == u ensures ThreadOk(s', j) { assert ThreadOk(s, j); }
    Assemble(s, s', i, u);
  }

  lemma MountFailedKeeps(s: State, i: Tid, s': State)
    requires Good(s) && Step(s, EndMount(i, false)) == Some(s')
    ensures Good(s')
  {
    var u, d := s.th[i].u, s.th[i].d;
    assert SlotOk(s, u) && ThreadOk(s, i);
    CountMounted(s.y, s'.y, d);
    forall e | e in s'.y.sess && s'.y.sess[e].unit == u ensures SessionOk(s', e) { assert SessionOk(s, e); }
    forall j | j in s.th && j != i && !s.th[j].Idle? && s.th[j].u == u ensures ThreadOk(s', j) { assert ThreadOk(s, j); }
    Assemble(s, s', i, u);
  }

  lemma UnmountKeeps(s: State, i: Tid, s': State)
    requires Good(s) && Step(s, Unmount(i)) == Some(s')
    ensures Good(s')
  {
    var u, d := s.th[i].u, s.th[i].d;
    assert SlotOk(s, u) && ThreadOk(s, i);
    CountMounted(s.y, s'.y, d);
    forall e | e in s'.y.sess && s'.y.sess[e].unit == u ensures SessionOk(s', e) { assert SessionOk(s, e); }
    forall j | j in s.th && j != i && !s.th[j].Idle? && s.th[j].u == u ensures ThreadOk(s', j) { assert ThreadOk(s, j); }
    Assemble(s, s', i, u);
  }

  lemma NobodyIsLeaving(s: State)
    requires Good(s)
    ensures forall i :: i in s.th ==> !s.th[i].Leaving?
  {
    forall i | i in s.th ensures !s.th[i].Leaving? { assert ThreadOk(s, i); }
  }

  lemma StepKeepsGood(s: State, a: Action, s': State)
    requires Good(s) && Step(s, a) == Some(s')
    ensures Good(s')
  {
    NobodyIsLeaving(s);
    match a
    case BeginOpen(i, u) => BeginOpenKeeps(s, i, u, s');
    case EndOpen(i) => EndOpenKeeps(s, i, s');
    case BeginClose(i) => BeginCloseKeeps(s, i, s');
    case EndClose(i) => EndCloseKeeps(s, i, s');
    case BeginMount(i, u, randomOk) => BeginMountKeeps(s, i, u, randomOk, s');
    case EndMount(i, ok) => if ok { MountedKeeps(s, i, s'); } else { MountFailedKeeps(s, i, s'); }
    case LeaveMount(i) =>
    case Unmount(i) => UnmountKeeps(s, i, s');
  }

  lemma {:induction false} RunIsGood(s0: State, run: seq<Action>, s: State)
    requires Init(s0) && Run(s0, run) == Some(s)
    ensures Good(s)
  {
    if run == [] {
      InitIsGood(s0);
    } else {
      var mid := Run(s0, run[..|run| - 1]).value;
      RunIsGood(s0, run[..|run| - 1], mid);
      StepKeepsGood(mid, run[|run| - 1], s);
    }
  }

  // ---- The promises -----------------------------------------------------------------------------

  /** fdev->data is set exactly while the device is open or mounted, by one and the same
    * session, and the use count is 0 or 1: 1 while the device is being opened, is open, or is
    * being closed.
    */
  lemma DataIffOpenOrMounted(s0: State, run: seq<Action>, s: State, u: Unit)
    requires Init(s0) && Run(s0, run) == Some(s) && u in s.y.dev
    ensures s.y.dev[u].data.Some? <==> exists i :: i in s.th && (s.th[i].Open? || Mounts(s.th[i], u)) && s.th[i].u == u
    ensures forall i :: i in s.th && (s.th[i].Open? || Mounts(s.th[i], u)) && s.th[i].u == u ==>
              s.y.dev[u].data == Some(s.th[i].d)
    ensures s.y.dev[u].usecount == 0 || s.y.dev[u].usecount == 1
    ensures s.y.dev[u].usecount == 1 <==> exists i :: i in s.th && Uses(s.th[i], u)
    ensures forall i, j :: i in s.th && j in s.th && Uses(s.th[i], u) && Uses(s.th[j], u) ==> i == j
  {
    RunIsGood(s0, run, s);
    assert SlotOk(s, u);
    forall i | i in s.th && !s.th[i].Idle? && s.th[i].u == u ensures ThreadOk(s, i) { }
    forall i, j | i in s.th && j in s.th && Uses(s.th[i], u) && Uses(s.th[j], u) ensures i == j {
      assert ThreadOk(s, i) && ThreadOk(s, j);
    }
  }

  /** Every session ever made is either installed in its device and alive, or has been
    * destroyed exactly once.
    */
  lemma DestroyedExactlyOnce(s0: State, run: seq<Action>, s: State, d: Sid)
    requires Init(s0) && Run(s0, run) == Some(s) && d in s.y.sess
    ensures s.y.sess[d].destroyed == if s.y.Has(s.y.sess[d].unit, d) then 0 else 1
    ensures s.y.Has(s.y.sess[d].unit, d) <==> s.y.sess[d].isOpen || s.y.sess[d].isMounted
  {
    RunIsGood(s0, run, s);
    assert SessionOk(s, d) && SlotOk(s, s.y.sess[d].unit);
  }

  /** fuse_mount_count is the number of mounted devices. */
  lemma MountCountIsRight(s0: State, run: seq<Action>, s: State)
    requires Init(s0) && Run(s0, run) == Some(s)
    ensures s.y.mountCount == |MountedDevices(s)|
  {
    RunIsGood(s0, run, s);
    MountedOneToOne(s);
  }

  /** The devices with a mount that has been counted. */
  ghost function MountedDevices(s: State): set<Unit> {
    set u | u in s.y.dev && s.y.dev[u].data.Some? && s.y.dev[u].data.value in MountedSessions(s.y)
  }

  lemma MountedOneToOne(s: State)
    requires Good(s)
    ensures |MountedDevices(s)| == |MountedSessions(s.y)|
  {
    forall d | d in MountedSessions(s.y) ensures s.y.sess[d].unit in MountedDevices(s) { assert SessionOk(s, d); }
    forall u | u in MountedDevices(s) ensures s.y.sess[s.y.dev[u].data.value].unit == u { assert SlotOk(s, u); }
    forall d, e | d in MountedSessions(s.y) && e in MountedSessions(s.y) && s.y.sess[d].unit == s.y.sess[e].unit ensures d == e {
      assert SessionOk(s, d) && SessionOk(s, e);
    }
    var units := map d | d in MountedSessions(s.y) :: s.y.sess[d].unit;
    SameSize(units, MountedSessions(s.y), MountedDevices(s));
  }

  lemma {:induction false} SameSize(f: map<Sid, Unit>, a: set<Sid>, b: set<Unit>)
    requires a <= f.Keys && forall d :: d in a ==> f[d] in b
    requires forall d, e :: d in a && e in a && f[d] == f[e] ==> d == e
    requires forall u :: u in b ==> exists d :: d in a && f[d] == u
    ensures |a| == |b|
  {
    if a == {} {
      assert b == {};
    } else {
      var d :| d in a;
      SameSize(f, a - {d}, b - {f[d]});
    }
  }

  /** The branch of fuse_vfsop_mount for a session that is not open is never taken. */
  lemma NobodyLeaves(s0: State, run: seq<Action>, s: State, i: Tid)
    requires Init(s0) && Run(s0, run) == Some(s) && i in s.th
    ensures !s.th[i].Leaving?
  {
    RunIsGood(s0, run, s);
    NobodyIsLeaving(s);
  }

  // ---- What the operations do, in every run -------------------------------------------------------

  /** The local lock of the device is free. */
  ghost predicate NobodyOpens(s: State, u: Unit) { forall j :: j in s.th ==> s.th[j] != Opening(u) }

  ghost predicate InUse(s: State, u: Unit) { exists i :: i in s.th && Uses(s.th[i], u) }

  ghost predicate IsOpen(s: State, u: Unit) { exists i :: i in s.th && s.th[i].Open? && s.th[i].u == u }

  ghost predicate IsMounted(s: State, u: Unit) { exists i :: i in s.th && Mounts(s.th[i], u) }

  /** Only thread i and device u change, and no session that the device does not have. */
  ghost predicate OnlyHere(s: State, s': State, i: Tid, u: Unit) {
    && s'.th.Keys == s.th.Keys && s'.y.dev.Keys == s.y.dev.Keys
    && (forall j :: j in s.th && j != i ==> s'.th[j] == s.th[j])
    && (forall v :: v in s.y.dev && v != u ==> s'.y.dev[v] == s.y.dev[v])
    && (forall d :: d in s.y.sess && !s.y.Has(u, d) ==> d in s'.y.sess && s'.y.sess[d] == s.y.sess[d])
  }

  /** The device has the session, with these flags; or it has none. */
  predicate Installed(y: System, u: Unit, d: Sid, isOpen: bool, isMounted: bool) {
    y.Has(u, d) && y.sess[d] == Sess(u, isOpen, isMounted, 0)
  }

  predicate Gone(y: System, u: Unit, d: Sid) {
    u in y.dev && y.dev[u].data == None && d in y.sess && y.sess[d] == Sess(u, false, false, 1)
  }

  /** An open of a device that somebody uses is refused at once. Of any other it is let in; it ends
    * with a new session that is open and not mounted if the device is not mounted, and is refused
    * with the device as before if it is.
    */
  lemma OpenExactly(s0: State, run: seq<Action>, s: State, i: Tid, u: Unit)
    requires Init(s0) && Run(s0, run) == Some(s) && s.At(i, Idle) && u in s.y.dev && NobodyOpens(s, u)
    ensures InUse(s, u) ==> Step(s, BeginOpen(i, u)) == Some(s)
    ensures !InUse(s, u) ==> Run(s, [BeginOpen(i, u), EndOpen(i)]).Some?
    ensures !InUse(s, u) ==>
              var s2 := Run(s, [BeginOpen(i, u), EndOpen(i)]).value;
              && OnlyHere(s, s2, i, u) && s2.y.mountCount == s.y.mountCount
              && (IsMounted(s, u) ==> s2.At(i, Idle) && s2.y.dev[u] == s.y.dev[u] && Same(s.y, s2.y, u))
              && (!IsMounted(s, u) ==> s2.At(i, Open(u, s.y.next)) && s.y.next !in s.y.sess
                                       && Installed(s2.y, u, s.y.next, true, false) && s2.y.dev[u].usecount == 1)
  {
    RunIsGood(s0, run, s);
    UseCounts(s, u);
    if !InUse(s, u) {
      var s1 := Step(s, BeginOpen(i, u)).value;
      Two(s, BeginOpen(i, u), EndOpen(i), s1);
      FirstOpenEnds(s, i, u, s1);
    }
  }

  /** The flags of the installed session say whether the device is open and mounted, by one thread. */
  lemma FlagsMean(s: State, u: Unit)
    requires Good(s) && u in s.y.dev
    ensures var x := s.y.dev[u].data;
      if x.Some? then x.value in s.y.sess && s.y.sess[x.value] == Sess(u, IsOpen(s, u), IsMounted(s, u), 0)
      else !IsOpen(s, u) && !IsMounted(s, u)
    ensures s.y.dev[u].data.Some? ==> IsOpen(s, u) || IsMounted(s, u)
    ensures forall j :: j in s.th && Uses(s.th[j], u) ==> u in s.user && s.user[u] == j
    ensures forall j :: j in s.th && Mounts(s.th[j], u) ==> u in s.mounter && s.mounter[u] == j
    ensures s.y.dev[u].usecount == (if u in s.user then 1 else 0)
  {
    assert SlotOk(s, u);
    forall j | j in s.th ensures ThreadOk(s, j) { }
  }

  lemma UseCounts(s: State, u: Unit)
    requires Good(s) && u in s.y.dev
    ensures s.y.dev[u].usecount == if InUse(s, u) then 1 else 0
    ensures !InUse(s, u) ==> (s.y.dev[u].data.Some? <==> IsMounted(s, u)) && s.y.next !in s.y.sess
  {
    assert SlotOk(s, u);
    forall j | j in s.th ensures ThreadOk(s, j) { }
    assert s.y.next in s.y.sess ==> SessionOk(s, s.y.next);
  }

  lemma FirstOpenEnds(s: State, i: Tid, u: Unit, s1: State)
    requires Good(s) && s.At(i, Idle) && u in s.y.dev && !InUse(s, u) && NobodyOpens(s, u)
    requires Step(s, BeginOpen(i, u)) == Some(s1)
    ensures Step(s1, EndOpen(i)).Some?
    ensures var s2 := Step(s1, EndOpen(i)).value;
      && OnlyHere(s, s2, i, u) && s2.y.mountCount == s.y.mountCount
      && (IsMounted(s, u) ==> s2.At(i, Idle) && s2.y.dev[u] == s.y.dev[u] && Same(s.y, s2.y, u))
      && (!IsMounted(s, u) ==> s2.At(i, Open(u, s.y.next)) && Installed(s2.y, u, s.y.next, true, false)
                               && s2.y.dev[u].usecount == 1)
  {
    UseCounts(s, u);
    assert s1.y == s.y.SetDev(u, s.y.dev[u].(usecount := 1)) && s1.th == s.th[i := Opening(u)];
    assert SlotOk(s, u);
  }

  /** The session of the device is as before. */
  predicate Same(y: System, y': System, u: Unit) {
    && u in y.dev && u in y'.dev && y'.dev[u].data == y.dev[u].data
    && (y.dev[u].data.Some? && y.dev[u].data.value in y.sess ==>
          y.dev[u].data.value in y'.sess && y'.sess[y.dev[u].data.value] == y.sess[y.dev[u].data.value])
  }

  lemma Two(s: State, a: Action, b: Action, mid: State)
    requires Step(s, a) == Some(mid)
    ensures Run(s, [a, b]) == Step(mid, b)
  {
    assert [a, b][..1] == [a] && [a][..0] == [];
    assert Run(s, [a]) == Some(mid);
  }

  /** A close can always go on, and ends with a device that nobody uses. Its session is destroyed if
    * the device is not mounted; else it stays there, no longer open.
    */
  lemma CloseExactly(s0: State, run: seq<Action>, s: State, i: Tid, u: Unit, d: Sid)
    requires Init(s0) && Run(s0, run) == Some(s) && s.At(i, Open(u, d)) && NobodyOpens(s, u)
    ensures Run(s, [BeginClose(i), EndClose(i)]).Some?
    ensures var s2 := Run(s, [BeginClose(i), EndClose(i)]).value;
      && OnlyHere(s, s2, i, u) && s2.y.mountCount == s.y.mountCount
      && s2.At(i, Idle) && u in s2.y.dev && s2.y.dev[u].usecount == 0 && !InUse(s2, u)
      && (if IsMounted(s, u) then Installed(s2.y, u, d, false, true) else Gone(s2.y, u, d))
  {
    RunIsGood(s0, run, s);
    assert ThreadOk(s, i);
    FlagsMean(s, u);
    var s1 := Step(s, BeginClose(i)).value;
    Two(s, BeginClose(i), EndClose(i), s1);
    CloseGoesOn(s, i, u, d, s1);
  }

  lemma CloseGoesOn(s: State, i: Tid, u: Unit, d: Sid, s1: State)
    requires s.At(i, Open(u, d)) && s.y.Has(u, d) && s.y.sess[d] == Sess(u, true, IsMounted(s, u), 0)
    requires s.y.dev[u].usecount == 1 && (forall j :: j in s.th && Uses(s.th[j], u) ==> j == i)
    requires Step(s, BeginClose(i)) == Some(s1)
    ensures Step(s1, EndClose(i)).Some?
    ensures var s2 := Step(s1, EndClose(i)).value;
      && OnlyHere(s, s2, i, u) && s2.y.mountCount == s.y.mountCount
      && s2.At(i, Idle) && u in s2.y.dev && s2.y.dev[u].usecount == 0 && !InUse(s2, u)
      && (if IsMounted(s, u) then Installed(s2.y, u, d, false, true) else Gone(s2.y, u, d))
  {
  }

  /** A mount is let in exactly if there is a random number for the handshake and the device is open
    * and not mounted; else nothing changes.
    */
  lemma MountEntersExactly(s0: State, run: seq<Action>, s: State, i: Tid, u: Unit, randomOk: bool)
    requires Init(s0) && Run(s0, run) == Some(s) && s.At(i, Idle) && u in s.y.dev && NobodyOpens(s, u)
    ensures Step(s, BeginMount(i, u, randomOk)).Some?
    ensures var s1 := Step(s, BeginMount(i, u, randomOk)).value;
      if randomOk && IsOpen(s, u) && !IsMounted(s, u) then
        && OnlyHere(s, s1, i, u) && s1.y.mountCount == s.y.mountCount + 1 && s1.y.dev[u] == s.y.dev[u]
        && s1.th[i].Mounting? && s1.th[i].u == u && Installed(s1.y, u, s1.th[i].d, true, true)
      else
        s1 == s
  {
    RunIsGood(s0, run, s);
    assert ThreadOk(s, i);
    FlagsMean(s, u);
    assert s.th[i := Idle] == s.th;
  }

  /** The end of a mount: it is mounted, or it is uncounted and taken back. */
  lemma MountEndsExactly(s0: State, run: seq<Action>, s: State, i: Tid, u: Unit, d: Sid, ok: bool)
    requires Init(s0) && Run(s0, run) == Some(s) && s.At(i, Mounting(u, d)) && (ok || NobodyOpens(s, u))
    ensures Step(s, EndMount(i, ok)).Some?
    ensures var s1 := Step(s, EndMount(i, ok)).value;
      if ok then s1 == s.(th := s.th[i := Mounted(u, d)]) else NoLongerMounted(s, s1, i, u, d)
  {
    RunIsGood(s0, run, s);
    assert ThreadOk(s, i);
    FlagsMean(s, u);
  }

  /** The device is no longer mounted and the mount no longer counted; the session is destroyed if the
    * device is not open either.
    */
  ghost predicate NoLongerMounted(s: State, s1: State, i: Tid, u: Unit, d: Sid) {
    && OnlyHere(s, s1, i, u) && s1.At(i, Idle) && !IsMounted(s1, u) && s1.y.mountCount == s.y.mountCount - 1
    && u in s.y.dev && u in s1.y.dev && s1.y.dev[u].usecount == s.y.dev[u].usecount
    && (if IsOpen(s, u) then Installed(s1.y, u, d, true, false) else Gone(s1.y, u, d))
  }

  lemma UnmountExactly(s0: State, run: seq<Action>, s: State, i: Tid, u: Unit, d: Sid)
    requires Init(s0) && Run(s0, run) == Some(s) && s.At(i, Mounted(u, d)) && NobodyOpens(s, u)
    ensures Step(s, Unmount(i)).Some? && NoLongerMounted(s, Step(s, Unmount(i)).value, i, u, d)
  {
    RunIsGood(s0, run, s);
    assert ThreadOk(s, i);
    FlagsMean(s, u);
  }

  /** While an open of a device is in progress, no other thread changes the device or its session. */
  lemma OpenIsAlone(s0: State, run: seq<Action>, s: State, i: Tid, u: Unit, a: Action, s': State)
    requires Init(s0) && Run(s0, run) == Some(s) && s.At(i, Opening(u)) && a.i != i && Step(s, a) == Some(s')
    ensures s'.At(i, Opening(u)) && u in s.y.dev && u in s'.y.dev && s'.y.dev[u] == s.y.dev[u] && Same(s.y, s'.y, u)
  {
    RunIsGood(s0, run, s);
    assert ThreadOk(s, i) && SlotOk(s, u);
    assert ThreadOk(s, a.i);
    if !s.th[a.i].Idle? && s.th[a.i].u in s.y.dev { assert SlotOk(s, s.th[a.i].u); }
    assert s.y.next in s.y.sess ==> SessionOk(s, s.y.next);
    match a
    case BeginMount(j, v, randomOk) => assert SlotOk(s, v);
    case _ =>
  }
}
