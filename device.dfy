// The device record of crates/core/src/device.rs.

module Devices {
  import opened Wrappers
  import opened Errors
  import opened States

  datatype DeviceModel =
    | AirPods2 | AirPods3 | AirPods4
    | AirPodsProGen1 | AirPodsProGen2 | AirPodsProGen3
    | AirPodsMax | BeatsFitPro

  datatype DeviceCapability =
    | BatteryMonitoring | NoiseControl | AdaptiveTransparency | EarDetection
    | ConversationAwareness | HeadGestures | HearingAid | CustomTransparency
    | DeviceRename | LongPressActions | Multipoint | FirmwareInfo | FindMy
    | HeartRate | SpatialAudio

  /** No capability occurs twice. */
  predicate Distinct<T(==)>(s: seq<T>)
  {
    forall i, j | 0 <= i < j < |s| :: s[i] != s[j]
  }

  /** The capability list after `add_capability(c)`: c is pushed at the end
      unless it is already present. */
  function WithCapability(caps: seq<DeviceCapability>, c: DeviceCapability): seq<DeviceCapability>
  {
    if c in caps then caps else caps + [c]
  }

  /** After adding, c is present and so is everything that was before. */
  lemma WithCapabilityMembers(caps: seq<DeviceCapability>, c: DeviceCapability, x: DeviceCapability)
    ensures x in WithCapability(caps, c) <==> x == c || x in caps
  {
  }

  /** Adding keeps the list free of duplicates and the order of the earlier
      entries. */
  lemma WithCapabilityDistinct(caps: seq<DeviceCapability>, c: DeviceCapability)
    requires Distinct(caps)
    ensures Distinct(WithCapability(caps, c))
    ensures WithCapability(caps, c)[..|caps|] == caps
  {
  }

  /** Adding the same capability twice is the same as adding it once. */
  lemma WithCapabilityIdempotent(caps: seq<DeviceCapability>, c: DeviceCapability)
    ensures WithCapability(WithCapability(caps, c), c) == WithCapability(caps, c)
  {
  }

  class Device {
    const id: string
    const model: DeviceModel
    var name: string
    var state: DeviceState
    var capabilities: seq<DeviceCapability>
    var metadata: map<string, string>

    ghost predicate Valid()
      reads this
    {
      Distinct(capabilities)
    }

    /** A new device is disconnected, with no capabilities and no metadata. */
    constructor (id: string, name: string, model: DeviceModel)
      ensures Valid()
      ensures this.id == id && this.name == name && this.model == model
      ensures state == Disconnected && capabilities == [] && metadata == map[]
    {
      this.id := id;
      this.name := name;
      this.model := model;
      state := Disconnected;
      capabilities := [];
      metadata := map[];
    }

    method SetName(name: string)
      modifies this
      ensures this.name == name
      ensures state == old(state) && capabilities == old(capabilities) && metadata == old(metadata)
    {
      this.name := name;
    }

    /** Any state may follow any state; there is no transition check. */
    method SetState(state: DeviceState)
      modifies this
      ensures this.state == state
      ensures name == old(name) && capabilities == old(capabilities) && metadata == old(metadata)
    {
      this.state := state;
    }

    method AddCapability(c: DeviceCapability)
      requires Valid()
      modifies this
      ensures Valid()
      ensures capabilities == WithCapability(old(capabilities), c)
      ensures name == old(name) && state == old(state) && metadata == old(metadata)
    {
      WithCapabilityDistinct(capabilities, c);
      if c !in capabilities {
        capabilities := capabilities + [c];
      }
    }

    predicate HasCapability(c: DeviceCapability)
      reads this
    {
      c in capabilities
    }

    /** Inserts or overwrites one key. */
    method SetMetadata(key: string, value: string)
      modifies this
      ensures metadata == old(metadata)[key := value]
      ensures name == old(name) && state == old(state) && capabilities == old(capabilities)
    {
      metadata := metadata[key := value];
    }

    function GetMetadata(key: string): (r: Option<string>)
      reads this
      ensures r.Some? <==> key in metadata
      ensures r.Some? ==> r.value == metadata[key]
    {
      if key in metadata then Some(metadata[key]) else None
    }
  }

  /** The integration test: a new device has no capability; after adding
      battery monitoring and noise control both are reported and heart rate
      is not, and adding one again changes nothing. */
  method CapabilityScenario() returns (before: bool, battery: bool, noise: bool, heartRate: bool, count: nat)
    ensures !before && battery && noise && !heartRate && count == 2
  {
    var d := new Device("test_001", "Test AirPods", AirPodsProGen2);
    before := d.HasCapability(BatteryMonitoring);
    d.AddCapability(BatteryMonitoring);
    d.AddCapability(NoiseControl);
    d.AddCapability(BatteryMonitoring);
    battery := d.HasCapability(BatteryMonitoring);
    noise := d.HasCapability(NoiseControl);
    heartRate := d.HasCapability(HeartRate);
    count := |d.capabilities|;
  }

  /** The metadata test: a written key reads back, another key stays absent
      and the second write to a key wins. */
  method MetadataScenario() returns (first: Option<string>, other: Option<string>, last: Option<string>)
    ensures first == Some("1.0") && other == None && last == Some("2.0")
  {
    var d := new Device("test", "Test AirPods", AirPods3);
    d.SetMetadata("firmware", "1.0");
    first := d.GetMetadata("firmware");
    other := d.GetMetadata("serial");
    d.SetMetadata("firmware", "2.0");
    last := d.GetMetadata("firmware");
  }

  /** Every state can be set from every state, and the id and model stay. */
  method StateScenario(s1: DeviceState, s2: DeviceState) returns (seen1: DeviceState, seen2: DeviceState, sameId: bool)
    ensures seen1 == s1 && seen2 == s2 && sameId
  {
    var d := new Device("dev", "Name", AirPodsMax);
    d.SetState(s1);
    seen1 := d.state;
    d.SetName("Renamed");
    d.SetState(s2);
    seen2 := d.state;
    sameId := d.id == "dev" && d.model == AirPodsMax;
  }

  /** Keys equal to their values' ids make the values pairwise distinct, so
      there are as many devices as keys. */
  lemma {:induction false} KeyedTableSize(m: map<string, Device>)
    requires forall k | k in m :: m[k].id == k
    ensures |m.Values| == |m|
    decreases |m|
  {
    if m != map[] {
      var k :| k in m;
      var rest := m - {k};
      assert rest.Keys == m.Keys - {k};
      assert |rest| == |m| - 1;
      KeyedTableSize(rest);
      forall v | v in m.Values
        ensures v in rest.Values + {m[k]}
      {
        var j :| j in m && m[j] == v;
        if j != k {
          assert rest[j] == v;
        }
      }
      assert m.Values == rest.Values + {m[k]};
      assert m[k] !in rest.Values;
    }
  }
}
