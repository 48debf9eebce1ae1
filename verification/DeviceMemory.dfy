/** A device slot, its session, and the mount count: what every locked section of
  * fuse_device.c, fuse_vfsop_mount and fuse_vfsop_unmount does to them.
  */
module DeviceMemory {
  import opened Lists

  type Unit = nat
  type Sid = nat

  const ENXIO := 6
  const EBUSY := 16
  const EINVAL := 22
  const EALREADY := 37

  /** struct fuse_data: its device, FSESS_OPENED, mount_state == FM_MOUNTED, and how often
    * fdata_destroy has been called.
    */
  datatype Sess = Sess(unit: Unit, isOpen: bool, isMounted: bool, destroyed: nat)

  /** struct fuse_device. */
  datatype Dev = Dev(usecount: int, data: Option<Sid>)

  datatype System = System(dev: map<Unit, Dev>, sess: map<Sid, Sess>, mountCount: int, next: Sid)
  {
    /** The session installed in a slot. */
    predicate Has(u: Unit, d: Sid) { u in dev && dev[u].data == Some(d) && d in sess }

    function SetDev(u: Unit, x: Dev): System { this.(dev := dev[u := x]) }

    function SetSess(d: Sid, x: Sess): System { this.(sess := sess[d := x]) }
  }

  /** fdata_destroy of a slot's session. */
  function DestroyData(y: System, u: Unit, d: Sid): System
    requires u in y.dev && d in y.sess
  {
    y.SetDev(u, y.dev[u].(data := None)).SetSess(d, y.sess[d].(destroyed := y.sess[d].destroyed + 1))
  }

  /** fuse_device_open under the global lock; None is EBUSY. */
  function OpenEnter(y: System, u: Unit): Option<System>
    requires u in y.dev
  {
    if y.dev[u].usecount != 0 then None else Some(y.SetDev(u, y.dev[u].(usecount := y.dev[u].usecount + 1)))
  }

  /** The rest of fuse_device_open, under the local lock: a new session, which is destroyed
    * again if the slot still has one.
    */
  function OpenFinish(y: System, u: Unit): (System, bool)
    requires u in y.dev
  {
    var d := y.next;
    if y.dev[u].data.Some? then
      (y.(sess := y.sess[d := Sess(u, false, false, 1)], next := d + 1)
       .SetDev(u, y.dev[u].(usecount := y.dev[u].usecount - 1)), false)
    else
      (y.(sess := y.sess[d := Sess(u, true, false, 0)], next := d + 1).SetDev(u, y.dev[u].(data := Some(d))), true)
  }

  /** fuse_device_close under the local lock. */
  function CloseLocked(y: System, u: Unit, d: Sid): System
    requires y.Has(u, d)
  {
    var y1 := y.SetSess(d, y.sess[d].(isOpen := false));
    if y.sess[d].isMounted then y1 else DestroyData(y1, u, d)
  }

  /** fuse_device_close under the global lock. */
  function CloseDone(y: System, u: Unit): System
    requires u in y.dev
  {
    y.SetDev(u, y.dev[u].(usecount := y.dev[u].usecount - 1))
  }

  /** The error path of fuse_vfsop_mount; counted tells whether the mount was counted. */
  function MountOut(y: System, u: Unit, counted: bool): System
    requires u in y.dev
  {
    var y1 := if counted then y.(mountCount := y.mountCount - 1) else y;
    match y.dev[u].data
    case None => y1
    case Some(d) =>
      if d !in y.sess then y1
      else
        var y2 := y1.SetSess(d, y.sess[d].(isMounted := false));
        if y.sess[d].isOpen then y2 else DestroyData(y2, u, d)
  }

  /** fuse_vfsop_mount under the device lock. */
  datatype MountResult = Refused(err: int) | Out | Entered(d: Sid)

  function MountEnter(y: System, u: Unit, randomOk: bool): (System, MountResult)
    requires u in y.dev
  {
    if !randomOk then (y, Refused(EINVAL))
    else
      match y.dev[u].data
      case None => (y, Refused(ENXIO))
      case Some(d) =>
        if d !in y.sess then (y, Refused(ENXIO))
        else if y.sess[d].isMounted then (y, Refused(EALREADY))
        else if !y.sess[d].isOpen then (y, Out)
        else (y.SetSess(d, y.sess[d].(isMounted := true)).(mountCount := y.mountCount + 1), Entered(d))
  }

  /** fuse_vfsop_unmount under the device lock. */
  function UnmountLocked(y: System, u: Unit, d: Sid): System
    requires y.Has(u, d)
  {
    var y1 := y.SetSess(d, y.sess[d].(isMounted := false)).(mountCount := y.mountCount - 1);
    if y.sess[d].isOpen then y1 else DestroyData(y1, u, d)
  }
}
