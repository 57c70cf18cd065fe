// The `DeviceManager` of crates/core/src/manager.rs.

module Manager {
  import opened Wrappers
  import opened Errors
  import opened States
  import opened Devices

  class DeviceManager {
    var devices: map<string, Device>

    /** Every device is stored under its own id. */
    ghost predicate Valid()
      reads this, devices.Values
    {
      forall k | k in devices :: devices[k].id == k
    }

    constructor ()
      ensures Valid() && devices == map[]
    {
      devices := map[];
    }

    /** Always succeeds; a device with the same id is replaced. */
    method AddDevice(d: Device) returns (r: Result<()>)
      requires Valid()
      modifies this
      ensures Valid()
      ensures r == Ok(())
      ensures devices == old(devices)[d.id := d]
    {
      devices := devices[d.id := d];
      r := Ok(());
    }

    /** Removes the id and hands back the device that was stored there. */
    method RemoveDevice(id: string) returns (r: Result<Option<Device>>)
      requires Valid()
      modifies this
      ensures Valid()
      ensures r.Ok?
      ensures r.value.Some? <==> id in old(devices)
      ensures r.value.Some? ==> r.value.value == old(devices)[id]
      ensures devices == old(devices) - {id}
      ensures id !in devices
    {
      if id in devices {
        var d := devices[id];
        devices := devices - {id};
        r := Ok(Some(d));
      } else {
        r := Ok(None);
      }
    }

    function GetDevice(id: string): (r: Option<Device>)
      requires Valid()
      reads this, devices.Values
      ensures r.Some? <==> id in devices
      ensures r.Some? ==> r.value == devices[id] && r.value.id == id
    {
      if id in devices then Some(devices[id]) else None
    }

    /** All devices, in no particular order; one per key. */
    function ListDevices(): (r: set<Device>)
      requires Valid()
      reads this, devices.Values
      ensures forall k | k in devices :: devices[k] in r
      ensures |r| == |devices|
    {
      KeyedTableSize(devices);
      devices.Values
    }

    /** The devices whose state is `Connected`, and no others. */
    function ConnectedDevices(): (r: set<Device>)
      requires Valid()
      reads this, devices.Values
      ensures forall k | k in devices :: devices[k] in r <==> devices[k].state == Connected
      ensures r <= devices.Values
    {
      set d | d in devices.Values && d.state == Connected
    }

    /** Sets the state of the named device; an unknown id is an error and
        changes nothing. */
    method UpdateDeviceState(id: string, state: DeviceState) returns (r: Result<()>)
      requires Valid()
      modifies if id in devices then {devices[id]} else {}
      ensures Valid()
      ensures devices == old(devices)
      ensures r.Ok? <==> id in devices
      ensures r.Err? ==> r.error == DeviceNotConnected
      ensures id in devices ==> devices[id].state == state
      ensures id in devices ==>
        devices[id].name == old(devices[id].name) &&
        devices[id].capabilities == old(devices[id].capabilities) &&
        devices[id].metadata == old(devices[id].metadata)
      ensures forall k | k in devices && k != id :: devices[k].state == old(devices[k].state)
    {
      if id in devices {
        devices[id].SetState(state);
        r := Ok(());
      } else {
        r := Err(DeviceNotConnected);
      }
    }
  }

  /** The tests: a new manager lists nothing and one added device is listed;
      connecting it makes it the only connected device, and an unknown id
      is refused. */
  method ManagerScenario() returns (empty: nat, listed: nat, connected: nat, unknown: Result<()>)
    ensures empty == 0 && listed == 1 && connected == 1
    ensures unknown == Err(DeviceNotConnected)
  {
    var m := new DeviceManager();
    empty := |m.ListDevices()|;
    var d := new Device("test_001", "Test AirPods", AirPods3);
    var _ := m.AddDevice(d);
    listed := |m.ListDevices()|;
    var _ := m.UpdateDeviceState("test_001", Connected);
    assert m.ConnectedDevices() == {d};
    connected := |m.ConnectedDevices()|;
    unknown := m.UpdateDeviceState("missing", Connected);
  }
}
