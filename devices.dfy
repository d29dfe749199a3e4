/** The device list of a user as the `useDevices` hook keeps it: replaced by
    a fetch, then kept in step with realtime INSERT, UPDATE and DELETE
    events; plus the rows written when a device or a connection is
    created. */
module Devices {
  import opened Common

  /** A row of `devices`. */
  datatype Device = Device(id: string, userId: string, name: string, deviceType: string, os: string, online: bool)

  /** A realtime change on `devices`. */
  datatype ChangeEvent =
    | Inserted(newRow: Device)
    | Updated(newRow: Device)
    | Deleted(oldId: string)
    | OtherEvent

  function IsNot(id: string): Device -> bool
  {
    (d: Device) => d.id != id
  }

  /** The list after a realtime event. */
  function ApplyChange(devices: seq<Device>, ev: ChangeEvent): (r: seq<Device>)
    ensures ev.Inserted? ==> r == devices + [ev.newRow]
    ensures ev.Updated? ==> |r| == |devices| && forall i :: 0 <= i < |devices| ==>
      r[i] == (if devices[i].id == ev.newRow.id then ev.newRow else devices[i])
    ensures ev.Deleted? ==> forall i :: 0 <= i < |r| ==> r[i].id != ev.oldId && r[i] in devices
    ensures ev.Deleted? ==> forall i :: 0 <= i < |devices| && devices[i].id != ev.oldId ==> devices[i] in r
    ensures ev.OtherEvent? ==> r == devices
  {
    match ev
    case Inserted(d) => devices + [d]
    case Updated(d) => seq(|devices|, i requires 0 <= i < |devices| => if devices[i].id == d.id then d else devices[i])
    case Deleted(id) => Filter(devices, IsNot(id))
    case OtherEvent => devices
  }

  /** An INSERT does not look for an existing row with the same id, so a
      repeated event leaves the device in the list twice. */
  lemma InsertDoesNotDeduplicate(devices: seq<Device>, d: Device)
    requires d in devices
    ensures |ApplyChange(devices, Inserted(d))| == |devices| + 1
    ensures exists i :: 0 <= i < |devices| && ApplyChange(devices, Inserted(d))[i] == d
    ensures ApplyChange(devices, Inserted(d))[|devices|] == d
  {
    var i :| 0 <= i < |devices| && devices[i] == d;
    assert ApplyChange(devices, Inserted(d))[i] == d;
  }

  /** An UPDATE for an id that is not in the list changes nothing, and
      applying the same UPDATE twice is the same as once. */
  lemma UpdateProperties(devices: seq<Device>, d: Device)
    ensures (forall i :: 0 <= i < |devices| ==> devices[i].id != d.id) ==> ApplyChange(devices, Updated(d)) == devices
    ensures ApplyChange(ApplyChange(devices, Updated(d)), Updated(d)) == ApplyChange(devices, Updated(d))
  {
  }

  /** A DELETE works row by row, keeping the order of the rest, and after it
      no row with that id remains; deleting again changes nothing. */
  lemma DeleteProperties(a: seq<Device>, b: seq<Device>, id: string)
    ensures ApplyChange(a + b, Deleted(id)) == ApplyChange(a, Deleted(id)) + ApplyChange(b, Deleted(id))
    ensures ApplyChange(ApplyChange(a, Deleted(id)), Deleted(id)) == ApplyChange(a, Deleted(id))
  {
    FilterConcat(a, b, IsNot(id));
    FilterIdempotent(a, IsNot(id));
  }

  /** The fields a caller gives `createDevice`. */
  datatype NewDevice = NewDevice(name: string, deviceType: string, os: string)

  /** The row inserted by `createDevice`: the caller's fields and the hook's
      user id (`None` when the hook has no user). */
  datatype DeviceInsert = DeviceInsert(name: string, deviceType: string, os: string, userId: Option<string>)

  function CreateDeviceRow(d: NewDevice, userId: Option<string>): (row: DeviceInsert)
    ensures row.userId == userId
    ensures row.name == d.name && row.deviceType == d.deviceType && row.os == d.os
  {
    DeviceInsert(d.name, d.deviceType, d.os, userId)
  }

  /** The row inserted by `createConnection`. */
  datatype ConnectionInsert = ConnectionInsert(deviceId: string, connectionCode: string, status: string)

  /** `createConnection`'s row for a fresh UUID `u`: the code is the first
      dash-separated group of `u`, upper-cased, and the status `pending`. For
      a canonical UUID the code is 8 upper-case hexadecimal digits. */
  function ConnectionRow(deviceId: string, u: string): (row: ConnectionInsert)
    ensures row.deviceId == deviceId && row.status == "pending"
    ensures row.connectionCode == ConnectionCode(u)
    ensures '-' !in row.connectionCode
    ensures IsCanonicalUuid(u) ==>
      |row.connectionCode| == 8 && forall i :: 0 <= i < 8 ==> IsUpperHex(row.connectionCode[i])
  {
    if IsCanonicalUuid(u) then
      CanonicalConnectionCode(u);
      ConnectionInsert(deviceId, ConnectionCode(u), "pending")
    else ConnectionInsert(deviceId, ConnectionCode(u), "pending")
  }

  class DevicesHook {
    const userId: Option<string>
    var devices: seq<Device>
    var loading: bool

    constructor (userId: Option<string>)
      ensures this.userId == userId && devices == [] && loading
    {
      this.userId := userId;
      devices := [];
      loading := true;
    }

    /** The realtime callback. */
    method OnChange(ev: ChangeEvent)
      modifies this
      ensures devices == ApplyChange(old(devices), ev) && loading == old(loading)
    {
      devices := ApplyChange(devices, ev);
    }

    /** `fetchDevices`: the list becomes the fetched rows; an error keeps the
        list; loading ends either way. */
    method FetchDevices(response: Result<seq<Device>>)
      modifies this
      ensures response.Ok? ==> devices == response.value
      ensures response.Err? ==> devices == old(devices)
      ensures !loading
    {
      if response.Ok? {
        devices := response.value;
      }
      loading := false;
    }
  }
}
