// The known-protocol tables and the drift analysis of
// crates/core/src/protocol_analyzer.rs. The analyzer's three maps are filled
// once by `new` and never changed afterwards, so they are constants here.

module ProtocolAnalyzer {
  import opened Wrappers
  import opened Errors
  import opened Seqs
  import Protocol

  const KnownMessageTypes: map<byte, string> := map[
    0x01 := "BatteryStatus", 0x02 := "AncControl", 0x03 := "EarDetection",
    0x04 := "FirmwareInfo", 0x05 := "SpatialAudio", 0x06 := "HeartRate",
    0x07 := "FindMy", 0x08 := "ConversationAwareness", 0x09 := "HearingAid",
    0x0A := "DeviceRename", 0x0B := "MultipointControl", 0x0C := "AdaptiveTransparency",
    0x0D := "LongPressActions", 0x0E := "CustomTransparency", 0x0F := "HeadGestures"]

  const KnownUuids: map<string, string> := map[
    "7DFC9000-7D1C-4951-86AA-8D9728F8D66C" := "AAP_SERVICE",
    "7DFC9001-7D1C-4951-86AA-8D9728F8D66C" := "AAP_CHARACTERISTIC",
    "180F" := "BATTERY_SERVICE",
    "180A" := "DEVICE_INFO_SERVICE"]

  const KnownFeatures: map<string, bool> := map[
    "BatteryMonitoring" := true, "NoiseControl" := true, "AdaptiveTransparency" := true,
    "EarDetection" := true, "ConversationAwareness" := true, "HeadGestures" := true,
    "HearingAid" := true, "CustomTransparency" := true, "DeviceRename" := true,
    "LongPressActions" := true, "Multipoint" := true, "FirmwareInfo" := true,
    "FindMy" := true, "HeartRate" := true, "SpatialAudio" := true]

  /** The identifier of each `MessageType` variant. */
  function VariantName(t: Protocol.MessageType): string
  {
    match t
    case BatteryStatus => "BatteryStatus"
    case AncControl => "AncControl"
    case EarDetection => "EarDetection"
    case FirmwareInfo => "FirmwareInfo"
    case SpatialAudio => "SpatialAudio"
    case HeartRate => "HeartRate"
    case FindMy => "FindMy"
    case ConversationAwareness => "ConversationAwareness"
    case HearingAid => "HearingAid"
    case DeviceRename => "DeviceRename"
    case MultipointControl => "MultipointControl"
    case AdaptiveTransparency => "AdaptiveTransparency"
    case LongPressActions => "LongPressActions"
    case CustomTransparency => "CustomTransparency"
    case HeadGestures => "HeadGestures"
  }

  predicate IsKnownMessageType(b: byte)
  {
    b in KnownMessageTypes
  }

  predicate IsKnownUuid(u: string)
  {
    u in KnownUuids
  }

  predicate IsKnownFeature(f: string)
  {
    f in KnownFeatures
  }

  /** A byte is a known message type exactly when it is one of 0x01..0x0F,
      which is exactly when `MessageType::from_u8` accepts it; the table
      names each byte after the variant it decodes to. */
  lemma KnownTypesAreTheVariants(b: byte)
    ensures IsKnownMessageType(b) <==> 0x01 <= b <= 0x0F
    ensures IsKnownMessageType(b) <==> Protocol.FromU8(b).Ok?
    ensures IsKnownMessageType(b) ==> KnownMessageTypes[b] == VariantName(Protocol.FromU8(b).value)
  {
  }

  /** Each variant's discriminant is known under the variant's own name. */
  lemma EveryVariantKnown(t: Protocol.MessageType)
    ensures IsKnownMessageType(Protocol.TypeByte(t))
    ensures KnownMessageTypes[Protocol.TypeByte(t)] == VariantName(t)
  {
  }

  /** `get_message_type_name`. */
  function MessageTypeName(b: byte): (r: Option<string>)
    ensures r.Some? <==> IsKnownMessageType(b)
    ensures r.Some? ==> r.value == KnownMessageTypes[b]
  {
    if b in KnownMessageTypes then Some(KnownMessageTypes[b]) else None
  }

  /** `get_uuid_name`. */
  function UuidName(u: string): (r: Option<string>)
    ensures r.Some? <==> IsKnownUuid(u)
    ensures r.Some? ==> r.value == KnownUuids[u]
  {
    if u in KnownUuids then Some(KnownUuids[u]) else None
  }

  /** The loop shared by the three `analyze_*` methods: each incoming item
      goes to `known` or `unknown`, keeping the input order. */
  method Partition<T>(incoming: seq<T>, isKnown: T -> bool) returns (known: seq<T>, unknown: seq<T>)
    ensures known == Filter(incoming, isKnown)
    ensures unknown == Filter(incoming, Not(isKnown))
  {
    known, unknown := [], [];
    var i := 0;
    while i < |incoming|
      invariant 0 <= i <= |incoming|
      invariant known == Filter(incoming[..i], isKnown)
      invariant unknown == Filter(incoming[..i], Not(isKnown))
    {
      var x := incoming[i];
      assert incoming[..i + 1] == incoming[..i] + [x];
      FilterSnoc(incoming[..i], x, isKnown);
      FilterSnoc(incoming[..i], x, Not(isKnown));
      if isKnown(x) {
        known := known + [x];
      } else {
        unknown := unknown + [x];
      }
      i := i + 1;
    }
    assert incoming[..i] == incoming;
  }

  /** The two parts together are the input, and an item lies in `known`
      exactly when it is in the table. */
  lemma PartitionSplits<T>(incoming: seq<T>, isKnown: T -> bool, x: T)
    ensures |Filter(incoming, isKnown)| + |Filter(incoming, Not(isKnown))| == |incoming|
    ensures multiset(Filter(incoming, isKnown)) + multiset(Filter(incoming, Not(isKnown))) == multiset(incoming)
    ensures x in Filter(incoming, isKnown) <==> x in incoming && isKnown(x)
    ensures x in Filter(incoming, Not(isKnown)) <==> x in incoming && !isKnown(x)
  {
    FilterPartition(incoming, isKnown);
    FilterMembers(incoming, isKnown, x);
    FilterMembers(incoming, Not(isKnown), x);
  }

  method AnalyzeMessageTypes(incoming: seq<byte>) returns (known: seq<byte>, unknown: seq<byte>)
    ensures known == Filter(incoming, IsKnownMessageType)
    ensures unknown == Filter(incoming, Not(IsKnownMessageType))
    ensures |known| + |unknown| == |incoming|
  {
    known, unknown := Partition(incoming, IsKnownMessageType);
    FilterPartition(incoming, IsKnownMessageType);
  }

  method AnalyzeUuids(incoming: seq<string>) returns (known: seq<string>, unknown: seq<string>)
    ensures known == Filter(incoming, IsKnownUuid)
    ensures unknown == Filter(incoming, Not(IsKnownUuid))
    ensures |known| + |unknown| == |incoming|
  {
    known, unknown := Partition(incoming, IsKnownUuid);
    FilterPartition(incoming, IsKnownUuid);
  }

  method AnalyzeFeatures(incoming: seq<string>) returns (known: seq<string>, unknown: seq<string>)
    ensures known == Filter(incoming, IsKnownFeature)
    ensures unknown == Filter(incoming, Not(IsKnownFeature))
    ensures |known| + |unknown| == |incoming|
  {
    known, unknown := Partition(incoming, IsKnownFeature);
    FilterPartition(incoming, IsKnownFeature);
  }

  /** The (key, value) pairs of a table, one per key, in the map's order. */
  method Entries<K, V>(m: map<K, V>) returns (r: seq<(K, V)>)
    ensures forall i | 0 <= i < |r| :: r[i].0 in m && m[r[i].0] == r[i].1
    ensures forall i, j | 0 <= i < j < |r| :: r[i].0 != r[j].0
    ensures forall k | k in m :: exists i | 0 <= i < |r| :: r[i].0 == k
  {
    r := CollectByKey(m.Keys, k => if k in m then Some((k, m[k])) else None, (e: (K, V)) => e.0);
  }

  /** `get_all_message_types`: every known opcode with its name, once. */
  method GetAllMessageTypes() returns (r: seq<(byte, string)>)
    ensures forall i | 0 <= i < |r| :: IsKnownMessageType(r[i].0) && MessageTypeName(r[i].0) == Some(r[i].1)
    ensures forall i, j | 0 <= i < j < |r| :: r[i].0 != r[j].0
    ensures forall b | IsKnownMessageType(b) :: exists i | 0 <= i < |r| :: r[i].0 == b
  {
    r := Entries(KnownMessageTypes);
  }

  /** `get_all_uuids`: every known UUID with its name, once. */
  method GetAllUuids() returns (r: seq<(string, string)>)
    ensures forall i | 0 <= i < |r| :: IsKnownUuid(r[i].0) && UuidName(r[i].0) == Some(r[i].1)
    ensures forall i, j | 0 <= i < j < |r| :: r[i].0 != r[j].0
    ensures forall u | IsKnownUuid(u) :: exists i | 0 <= i < |r| :: r[i].0 == u
  {
    r := Entries(KnownUuids);
  }

  /** `get_all_features`: every known feature, once. */
  method GetAllFeatures() returns (r: seq<string>)
    ensures forall f :: f in r <==> IsKnownFeature(f)
    ensures Distinct(r)
  {
    var m := KnownFeatures;
    r := CollectByKey(m.Keys, f => Some(f), (f: string) => f);
    forall f | f in m
      ensures f in r
    {
      var i :| 0 <= i < |r| && r[i] == f;
    }
  }

  /** The unknown part is empty exactly when every item is known. */
  lemma {:induction false} UnknownEmpty<T>(incoming: seq<T>, isKnown: T -> bool)
    ensures Filter(incoming, Not(isKnown)) == [] <==> forall i | 0 <= i < |incoming| :: isKnown(incoming[i])
  {
    if forall i | 0 <= i < |incoming| :: isKnown(incoming[i]) {
      FilterNone(incoming, Not(isKnown));
    } else {
      var i :| 0 <= i < |incoming| && !isKnown(incoming[i]);
      FilterMembers(incoming, Not(isKnown), incoming[i]);
    }
  }

  /** `detect_drift`: some incoming message type or UUID is not known. */
  method DetectDrift(types: seq<byte>, uuids: seq<string>) returns (drift: bool)
    ensures drift <==>
      (exists i | 0 <= i < |types| :: !IsKnownMessageType(types[i])) ||
      (exists i | 0 <= i < |uuids| :: !IsKnownUuid(uuids[i]))
  {
    var _, unknownTypes := AnalyzeMessageTypes(types);
    var _, unknownUuids := AnalyzeUuids(uuids);
    UnknownEmpty(types, IsKnownMessageType);
    UnknownEmpty(uuids, IsKnownUuid);
    drift := unknownTypes != [] || unknownUuids != [];
  }

  /** The "Protocol Drift" line of `generate_analysis_report` as written: it
      calls `detect_drift` on the known parts, so it cannot be true. */
  method ReportDriftAsWritten(types: seq<byte>, uuids: seq<string>) returns (drift: bool)
    ensures !drift
  {
    var knownTypes, _ := AnalyzeMessageTypes(types);
    var knownUuids, _ := AnalyzeUuids(uuids);
    FilterSatisfies(types, IsKnownMessageType);
    FilterSatisfies(uuids, IsKnownUuid);
    drift := DetectDrift(knownTypes, knownUuids);
  }

  /** An incoming unknown opcode is drift, but the report says there is none. */
  method ReportMissesDrift() returns (detected: bool, reported: bool)
    ensures detected && !reported
  {
    assert !IsKnownMessageType([0x01, 0xFF][1]);
    detected := DetectDrift([0x01, 0xFF], []);
    reported := ReportDriftAsWritten([0x01, 0xFF], []);
  }

  /** The report line as intended: the drift of the incoming lists. */
  method ReportDrift(types: seq<byte>, uuids: seq<string>) returns (drift: bool)
    ensures drift <==>
      (exists i | 0 <= i < |types| :: !IsKnownMessageType(types[i])) ||
      (exists i | 0 <= i < |uuids| :: !IsKnownUuid(uuids[i]))
  {
    drift := DetectDrift(types, uuids);
  }

  /** Part of the test of `new`: four UUIDs are known. */
  lemma UuidTableSize()
    ensures |KnownUuids| == 4
  {
  }

  /** Three known message types: three known, none unknown. */
  method KnownTypesScenario() returns (known: nat, unknown: nat)
    ensures known == 3 && unknown == 0
  {
    var p: byte -> bool := IsKnownMessageType;
    assert p(0x01) && p(0x02) && p(0x03);
    FilterOfThree<byte>(0x01, 0x02, 0x03, p);
    FilterOfThree<byte>(0x01, 0x02, 0x03, Not<byte>(p));
    var k, u := AnalyzeMessageTypes([0x01, 0x02, 0x03]);
    known, unknown := |k|, |u|;
  }

  /** One known and two unknown message types. */
  method UnknownTypesScenario() returns (known: nat, unknown: nat)
    ensures known == 1 && unknown == 2
  {
    var p: byte -> bool := IsKnownMessageType;
    assert p(0x01) && !p(0xFF) && !p(0xFE);
    FilterOfThree<byte>(0x01, 0xFF, 0xFE, p);
    FilterOfThree<byte>(0x01, 0xFF, 0xFE, Not<byte>(p));
    var k, u := AnalyzeMessageTypes([0x01, 0xFF, 0xFE]);
    known, unknown := |k|, |u|;
  }

  /** The unit tests of the lookups and of `detect_drift`: 0x01 is named
      "BatteryStatus", and a table UUID with known types is no drift while an
      unknown type with an unknown UUID is. */
  method DriftScenario() returns (name: Option<string>, knownDrift: bool, unknownDrift: bool)
    ensures name == Some("BatteryStatus")
    ensures !knownDrift && unknownDrift
  {
    name := MessageTypeName(0x01);
    assert !IsKnownMessageType([0x01, 0xFF][1]);
    knownDrift := DetectDrift([0x01, 0x02], ["7DFC9000-7D1C-4951-86AA-8D9728F8D66C"]);
    unknownDrift := DetectDrift([0x01, 0xFF], ["UNKNOWN-UUID"]);
  }
}
