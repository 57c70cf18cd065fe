// The device table of the `Engine` in crates/core/src/lib.rs.

module Engines {
  import opened Wrappers
  import opened Devices

  class Engine {
    var devices: map<string, Device>

    /** Every device is stored under its own id. */
    ghost predicate Valid()
      reads this, devices.Values
    {
      forall k | k in devices :: devices[k].id == k
    }

    constructor ()
      ensures Valid() && devices == map[]
    {
      devices := map[];
    }

    /** Stores the device under its id, replacing any device with that id. */
    method RegisterDevice(d: Device)
      requires Valid()
      modifies this
      ensures Valid()
      ensures devices == old(devices)[d.id := d]
      ensures |devices| == if d.id in old(devices) then |old(devices)| else |old(devices)| + 1
    {
      devices := devices[d.id := d];
    }

    function GetDevice(id: string): (r: Option<Device>)
      requires Valid()
      reads this, devices.Values
      ensures r.Some? <==> id in devices
      ensures r.Some? ==> r.value == devices[id] && r.value.id == id
    {
      if id in devices then Some(devices[id]) else None
    }

    /** The devices, in no particular order. */
    function Devices(): (r: set<Device>)
      requires Valid()
      reads this, devices.Values
      ensures forall k | k in devices :: devices[k] in r
      ensures |r| == |devices|
    {
      KeyedTableSize(devices);
      devices.Values
    }
  }

  /** The tests: a new engine has no device; a registered device is the
      only one and is found under its id with its name. */
  method EngineScenario() returns (empty: nat, count: nat, found: Option<Device>, name: string)
    ensures empty == 0 && count == 1
    ensures found.Some? && name == "Test AirPods"
  {
    var e := new Engine();
    empty := |e.Devices()|;
    var d := new Device("test_001", "Test AirPods", AirPods3);
    e.RegisterDevice(d);
    count := |e.Devices()|;
    found := e.GetDevice("test_001");
    name := found.value.name;
  }
}
