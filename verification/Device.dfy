/** The device table as objects: the locked sections of fuse_device.c, fuse_vfsop_mount and
  * fuse_vfsop_unmount, each proved to compute its function of DeviceMemory.
  */
module Device {
  import opened Lists
  import opened DeviceMemory

  /** The part of struct fuse_data that its life depends on. */
  class SessionData {
    const id: Sid
    const unit: Unit
    var isOpen: bool
    var isMounted: bool
    /** How often fdata_destroy has been called for it. */
    ghost var destroyed: nat

    constructor (id: Sid, unit: Unit)
      ensures this.id == id && Value() == Sess(unit, false, false, 0)
    {
      this.id, this.unit, isOpen, isMounted, destroyed := id, unit, false, false, 0;
    }

    ghost function Value(): Sess
      reads this
    {
      Sess(unit, isOpen, isMounted, destroyed)
    }
  }

  /** struct fuse_device. */
  class FuseDevice {
    var usecount: int
    var data: SessionData?

    constructor ()
      ensures usecount == 0 && data == null
    {
      usecount, data := 0, null;
    }
  }

  class DeviceTable {
    const devices: seq<FuseDevice>
    var mountCount: int
    /** Stands for the allocator: the address of the next session. */
    var made: Sid
    ghost var known: seq<SessionData>

    ghost predicate Valid()
      reads this, devices
    {
      && made == |known| && (forall d :: 0 <= d < |known| ==> known[d].id == d)
      && (forall u, v :: 0 <= u < v < |devices| ==> devices[u] != devices[v])
      && (forall u :: 0 <= u < |devices| && devices[u].data != null ==> Knows(devices[u].data))
    }

    ghost predicate Knows(x: SessionData)
      reads this
    {
      x.id < |known| && known[x.id] == x
    }

    ghost function DevValue(f: FuseDevice): Dev
      reads f
    {
      Dev(f.usecount, if f.data == null then None else Some(f.data.id))
    }

    ghost function View(): System
      reads this, devices, known
    {
      System(map u | 0 <= u < |devices| :: DevValue(devices[u]), map d | 0 <= d < |known| :: known[d].Value(), mountCount, made)
    }

    constructor (devices: seq<FuseDevice>)
      requires forall u, v :: 0 <= u < v < |devices| ==> devices[u] != devices[v]
      requires forall f :: f in devices ==> f.usecount == 0 && f.data == null
      ensures Valid() && this.devices == devices
      ensures View().sess == map[] && View().mountCount == 0 && View().next == 0
      ensures forall u :: 0 <= u < |devices| ==> View().dev[u] == Dev(0, None)
    {
      this.devices := devices;
      mountCount, made, known := 0, 0, [];
    }

    /** fdata_alloc. */
    method NewSession(u: Unit) returns (x: SessionData)
      requires Valid() && u < |devices|
      modifies this`made, this`known
      ensures Valid() && Knows(x) && fresh(x) && x.id == old(made) && x.Value() == Sess(u, false, false, 0)
      ensures View() == old(View()).(sess := old(View()).sess[x.id := x.Value()], next := x.id + 1)
    {
      x := new SessionData(made, u);
      made, known := made + 1, known + [x];
      assert View().sess == old(View()).sess[x.id := x.Value()];
    }

    /** The flags of a session. */
    method SetFlags(x: SessionData, isOpen: bool, isMounted: bool)
      requires Valid() && Knows(x)
      modifies x`isOpen, x`isMounted
      ensures Valid() && x.isOpen == isOpen && x.isMounted == isMounted
      ensures View() == old(View()).SetSess(x.id, old(x.Value()).(isOpen := isOpen, isMounted := isMounted))
    {
      x.isOpen, x.isMounted := isOpen, isMounted;
      assert View().sess == old(View()).sess[x.id := x.Value()];
    }

    method Destroy(x: SessionData)
      requires Valid() && Knows(x)
      modifies x`destroyed
      ensures Valid() && View() == old(View()).SetSess(x.id, old(x.Value()).(destroyed := old(x.destroyed) + 1))
      ensures x.destroyed == old(x.destroyed) + 1
    {
      x.destroyed := x.destroyed + 1;
      assert View().sess == old(View()).sess[x.id := x.Value()];
    }

    lemma LastFlagsCount(m: map<Sid, Sess>, d: Sid, x: Sess, y: Sess)
      ensures m[d := x][d := y] == m[d := y]
    {
    }

    method SetSlot(u: Unit, usecount: int, data: SessionData?)
      requires Valid() && u < |devices| && (data != null ==> Knows(data))
      modifies devices[u]
      ensures Valid() && View() == old(View()).SetDev(u, Dev(usecount, if data == null then None else Some(data.id)))
      ensures devices[u].data == data && devices[u].usecount == usecount
    {
      devices[u].usecount, devices[u].data := usecount, data;
      assert View().dev == old(View()).dev[u := DevValue(devices[u])];
    }

    /** fuse_device_open under the global lock. */
    method OpenDeviceEnter(u: Unit) returns (err: int)
      requires Valid() && u < |devices|
      modifies devices[u]
      ensures Valid() && (err == 0 || err == EBUSY)
      ensures err == 0 <==> OpenEnter(old(View()), u).Some?
      ensures View() == if err == 0 then OpenEnter(old(View()), u).value else old(View())
      ensures devices[u].data == old(devices[u].data) && (err == 0 <==> old(devices[u].usecount) == 0)
      ensures devices[u].usecount == old(devices[u].usecount) + if err == 0 then 1 else 0
    {
      if devices[u].usecount != 0 {
        err := EBUSY;
      } else {
        SetSlot(u, devices[u].usecount + 1, devices[u].data);
        err := 0;
      }
    }

    /** The new session takes its slot, and is open. */
    method Install(u: Unit, x: SessionData)
      requires Valid() && u < |devices| && Knows(x)
      modifies devices[u], x`isOpen, x`isMounted
      ensures Valid() && devices[u].data == x && devices[u].usecount == old(devices[u].usecount)
      ensures x.isOpen && !x.isMounted
      ensures View() == old(View()).SetSess(x.id, old(x.Value()).(isOpen := true, isMounted := false))
                        .SetDev(u, old(DevValue(devices[u])).(data := Some(x.id)))
    {
      SetFlags(x, true, false);
      SetSlot(u, devices[u].usecount, x);
    }

    /** fuse_device_open under the local lock: a new session, open and not mounted, takes the slot if
      * it is free; else the slot keeps its session, and the use count is given back.
      */
    method OpenDeviceFinish(u: Unit) returns (err: int)
      requires Valid() && u < |devices|
      modifies devices[u], this`made, this`known
      ensures Valid() && (err == 0 || err == EBUSY)
      ensures View() == OpenFinish(old(View()), u).0 && (err == 0 <==> OpenFinish(old(View()), u).1)
      ensures err == 0 <==> old(devices[u].data) == null
      ensures err == 0 ==> devices[u].data != null && fresh(devices[u].data) && devices[u].data.isOpen
                           && !devices[u].data.isMounted && devices[u].data.destroyed == 0
      ensures err == 0 ==> devices[u].usecount == old(devices[u].usecount)
      ensures err != 0 ==> devices[u].data == old(devices[u].data)
                           && devices[u].usecount == old(devices[u].usecount) - 1
    {
      var fdata := NewSession(u);
      if devices[u].data != null {
        SetSlot(u, devices[u].usecount - 1, devices[u].data);
        Destroy(fdata);
        LastFlagsCount(old(View()).sess, fdata.id, Sess(u, false, false, 0), Sess(u, false, false, 1));
        err := EBUSY;
      } else {
        Install(u, fdata);
        LastFlagsCount(old(View()).sess, fdata.id, Sess(u, false, false, 0), Sess(u, true, false, 0));
        err := 0;
      }
    }

    /** fuse_device_close_final. */
    method CloseFinal(u: Unit, data: SessionData)
      requires Valid() && u < |devices| && devices[u].data == data
      modifies devices[u], data`destroyed
      ensures Valid() && data.id in old(View()).sess && View() == DestroyData(old(View()), u, data.id)
      ensures devices[u].data == null && devices[u].usecount == old(devices[u].usecount)
      ensures data.destroyed == old(data.destroyed) + 1
    {
      Destroy(data);
      SetSlot(u, devices[u].usecount, null);
    }

    /** fuse_device_close under the local lock: the session is no longer open, and is destroyed unless
      * it is mounted.
      */
    method CloseDevice(u: Unit, data: SessionData)
      requires Valid() && u < |devices| && devices[u].data == data
      modifies devices[u], data
      ensures Valid() && old(View()).Has(u, data.id) && View() == CloseLocked(old(View()), u, data.id)
      ensures !data.isOpen && data.isMounted == old(data.isMounted) && devices[u].usecount == old(devices[u].usecount)
      ensures if data.isMounted then devices[u].data == data && data.destroyed == old(data.destroyed)
              else devices[u].data == null && data.destroyed == old(data.destroyed) + 1
    {
      SetFlags(data, false, data.isMounted);
      if !data.isMounted { CloseFinal(u, data); }
    }

    /** fuse_device_close under the global lock. */
    method CloseDeviceDone(u: Unit)
      requires Valid() && u < |devices|
      modifies devices[u]
      ensures Valid() && View() == CloseDone(old(View()), u)
      ensures devices[u].usecount == old(devices[u].usecount) - 1 && devices[u].data == old(devices[u].data)
    {
      SetSlot(u, devices[u].usecount - 1, devices[u].data);
    }

    method AddMounts(n: int)
      requires Valid()
      modifies this`mountCount
      ensures Valid() && View() == old(View()).(mountCount := old(View()).mountCount + n)
    {
      mountCount := mountCount + n;
    }

    /** fuse_vfsop_mount under the device lock: a device that is open and not mounted is mounted. */
    method Mount(u: Unit, randomOk: bool) returns (r: MountResult)
      requires Valid() && u < |devices|
      modifies this`mountCount, if devices[u].data == null then {} else {devices[u].data}
      ensures Valid() && View() == MountEnter(old(View()), u, randomOk).0
      ensures r == MountEnter(old(View()), u, randomOk).1
      ensures var d := devices[u].data;
        && (!randomOk ==> r == Refused(EINVAL)) && (randomOk && d == null ==> r == Refused(ENXIO))
        && (randomOk && d != null && old(d.isMounted) ==> r == Refused(EALREADY))
        && (randomOk && d != null && !old(d.isMounted) ==> r == if old(d.isOpen) then Entered(d.id) else Out)
      ensures r.Entered? ==> devices[u].data.isOpen && devices[u].data.isMounted && mountCount == old(mountCount) + 1
      ensures !r.Entered? ==> mountCount == old(mountCount) && View() == old(View())
    {
      var data := devices[u].data;
      if !randomOk {
        r := Refused(EINVAL);
      } else if data == null {
        r := Refused(ENXIO);
      } else if data.isMounted {
        r := Refused(EALREADY);
      } else if !data.isOpen {
        r := Out;
      } else {
        SetFlags(data, true, true);
        AddMounts(1);
        r := Entered(data.id);
      }
    }

    /** The session that was in the slot is not mounted, and has left the slot unless it is open. */
    ghost predicate TakenBack(u: Unit, was: SessionData?, wasOpen: bool)
      requires u < |devices|
      reads devices[u], was
    {
      && devices[u].data == (if wasOpen then was else null)
      && (was != null ==> !was.isMounted && was.isOpen == wasOpen)
    }

    /** The session, if there is one, is no longer mounted, and is destroyed if it is not open either. */
    method TakeBack(u: Unit)
      requires Valid() && u < |devices|
      modifies devices[u], if devices[u].data == null then {} else {devices[u].data}
      ensures Valid() && View() == MountOut(old(View()), u, false)
      ensures TakenBack(u, old(devices[u].data), old(devices[u].data != null && devices[u].data.isOpen))
    {
      var data := devices[u].data;
      if data == null {
        assert View().dev[u].data == None;
      } else {
        SetFlags(data, data.isOpen, false);
        if !data.isOpen { CloseFinal(u, data); }
      }
    }

    lemma CountedFirst(y: System, y1: System, u: Unit, counted: bool)
      requires u in y.dev && y1 == if counted then y.(mountCount := y.mountCount - 1) else y
      ensures MountOut(y, u, counted) == MountOut(y1, u, false)
    {
    }

    /** The error path of fuse_vfsop_mount. */
    method MountFailed(u: Unit, counted: bool)
      requires Valid() && u < |devices|
      modifies this`mountCount, devices[u], if devices[u].data == null then {} else {devices[u].data}
      ensures Valid() && View() == MountOut(old(View()), u, counted)
      ensures TakenBack(u, old(devices[u].data), old(devices[u].data != null && devices[u].data.isOpen))
      ensures mountCount == old(mountCount) - if counted then 1 else 0
    {
      ghost var y := View();
      if counted { AddMounts(-1); }
      CountedFirst(y, View(), u, counted);
      TakeBack(u);
    }

    /** fuse_vfsop_unmount under the device lock. */
    method Unmount(u: Unit, data: SessionData)
      requires Valid() && u < |devices| && devices[u].data == data
      modifies this`mountCount, devices[u], data
      ensures Valid() && old(View()).Has(u, data.id) && View() == UnmountLocked(old(View()), u, data.id)
      ensures TakenBack(u, data, old(data.isOpen)) && mountCount == old(mountCount) - 1
      ensures data.destroyed == old(data.destroyed) + if data.isOpen then 0 else 1
    {
      SetFlags(data, data.isOpen, false);
      AddMounts(-1);
      if !data.isOpen { CloseFinal(u, data); }
    }
  }
}
