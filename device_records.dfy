/**
 * The connected-devices record service: activating a device for a veteran
 * finds the veteran's record for that device, or starts one, and marks it
 * active.
 */
module DeviceRecords {
  import opened Wrappers

  /** A `VeteranDeviceRecord` row: the veteran's ICN, the device (nil for an unknown key) and whether it is active. */
  datatype DeviceRecord = DeviceRecord(icn: Option<string>, device: Option<nat>, active: bool)

  predicate IsFor(r: DeviceRecord, icn: Option<string>, device: Option<nat>) {
    r.icn == icn && r.device == device
  }

  /** `find_by` over the rows: the first row for the pair, or `|rows|` when there is none. */
  function MatchIndex(rows: seq<DeviceRecord>, icn: Option<string>, device: Option<nat>): (i: nat)
    ensures i <= |rows|
    ensures i < |rows| ==> IsFor(rows[i], icn, device)
    ensures forall j :: 0 <= j < i ==> !IsFor(rows[j], icn, device)
  {
    if |rows| == 0 then 0
    else if IsFor(rows[0], icn, device) then 0
    else 1 + MatchIndex(rows[1..], icn, device)
  }

  /** The first matching row is the one MatchIndex names. */
  lemma {:induction false} MatchIndexIs(rows: seq<DeviceRecord>, icn: Option<string>, device: Option<nat>, i: nat)
    requires i <= |rows| && (i < |rows| ==> IsFor(rows[i], icn, device))
    requires forall j :: 0 <= j < i ==> !IsFor(rows[j], icn, device)
    ensures MatchIndex(rows, icn, device) == i
  {
    if i > 0 {
      MatchIndexIs(rows[1..], icn, device, i - 1);
    }
  }

  /** `find_or_initialize_by(...).update!(active: true)` on the rows. */
  function Upsert(rows: seq<DeviceRecord>, icn: Option<string>, device: Option<nat>): seq<DeviceRecord> {
    var i := MatchIndex(rows, icn, device);
    if i < |rows| then rows[i := rows[i].(active := true)] else rows + [DeviceRecord(icn, device, true)]
  }

  /**
   * After the upsert an active row for the pair exists; an existing row is
   * reused (no row is added, no other row changes), and only a missing one
   * is appended.
   */
  lemma UpsertOutcome(rows: seq<DeviceRecord>, icn: Option<string>, device: Option<nat>)
    ensures var r := Upsert(rows, icn, device);
      exists i :: 0 <= i < |r| && IsFor(r[i], icn, device) && r[i].active
    ensures (exists i :: 0 <= i < |rows| && IsFor(rows[i], icn, device)) ==>
      var r := Upsert(rows, icn, device);
      |r| == |rows| &&
      forall j :: 0 <= j < |rows| && j != MatchIndex(rows, icn, device) ==> r[j] == rows[j]
    ensures (forall i :: 0 <= i < |rows| ==> !IsFor(rows[i], icn, device)) ==>
      Upsert(rows, icn, device) == rows + [DeviceRecord(icn, device, true)]
  {
    var r := Upsert(rows, icn, device);
    var i := MatchIndex(rows, icn, device);
    if i < |rows| {
      assert IsFor(r[i], icn, device) && r[i].active;
    } else {
      assert IsFor(r[|rows|], icn, device) && r[|rows|].active;
    }
  }

  /** Activating twice leaves the same rows as activating once. */
  lemma UpsertIdempotent(rows: seq<DeviceRecord>, icn: Option<string>, device: Option<nat>)
    ensures Upsert(Upsert(rows, icn, device), icn, device) == Upsert(rows, icn, device)
  {
    var r := Upsert(rows, icn, device);
    var i := MatchIndex(rows, icn, device);
    if i < |rows| {
      MatchIndexIs(r, icn, device, i);
    } else {
      MatchIndexIs(r, icn, device, |rows|);
    }
  }

  /** The device table (`key` to device) and the veteran device records. */
  class Service {
    const devices: map<string, nat>
    var rows: seq<DeviceRecord>

    constructor(devices: map<string, nat>, rows: seq<DeviceRecord>)
      ensures this.devices == devices && this.rows == rows
    {
      this.devices := devices;
      this.rows := rows;
    }

    /** `Device.find_by(key:)`: nil for an unknown key. */
    function DeviceFor(key: string): (d: Option<nat>)
      ensures d.Some? <==> key in devices
    {
      if key in devices then Some(devices[key]) else None
    }

    /** `create_or_activate`: the user's record for the device with that key, found or created, made active. */
    method CreateOrActivate(icn: Option<string>, deviceKey: string)
      modifies this
      ensures rows == Upsert(old(rows), icn, DeviceFor(deviceKey))
    {
      var device := DeviceFor(deviceKey);
      var i := 0;
      while i < |rows| && !IsFor(rows[i], icn, device)
        invariant 0 <= i <= |rows|
        invariant forall j :: 0 <= j < i ==> !IsFor(rows[j], icn, device)
      {
        i := i + 1;
      }
      assert i == MatchIndex(rows, icn, device);
      if i < |rows| {
        rows := rows[i := rows[i].(active := true)];
      } else {
        rows := rows + [DeviceRecord(icn, device, true)];
      }
    }
  }
}
