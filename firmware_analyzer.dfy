// The firmware table of crates/core/src/firmware_analyzer.rs: known
// versions by version string, the supported device models, and the
// queries over them. The queries that walk the `HashMap` leave its order
// open.

module FirmwareAnalyzer {
  import opened Wrappers
  import opened Seqs
  import opened Text

  datatype FirmwareInfo = FirmwareInfo(
    version: string, deviceModel: string, releaseDate: string,
    features: seq<string>, buildNumber: string)

  /** The rows `initialize_known_versions` inserts: version, model, release
      date and features. */
  const InitialTable: seq<(string, string, string, seq<string>)> := [
    ("5E135", "AirPodsProGen2", "2025-11-21", ["BatteryMonitoring", "ANC", "SpatialAudio"]),
    ("5D134", "AirPodsProGen2", "2025-10-15", ["BatteryMonitoring", "ANC"]),
    ("5C133", "AirPodsMax", "2025-09-20", ["BatteryMonitoring", "ANC", "AdaptiveTransparency"]),
    ("5B132", "AirPods4", "2025-08-10", ["BatteryMonitoring", "ANC"]),
    ("5A131", "AirPods3", "2025-07-05", ["BatteryMonitoring", "ANC"])]

  const DeviceModels: seq<string> := [
    "AirPods2", "AirPods3", "AirPods4", "AirPodsProGen1",
    "AirPodsProGen2", "AirPodsProGen3", "AirPodsMax", "BeatsFitPro"]

  /** The record built from one row; the build number is "BUILD_" and the
      version. */
  function InfoOf(row: (string, string, string, seq<string>)): (r: FirmwareInfo)
    ensures r.version == row.0 && r.deviceModel == row.1 && r.releaseDate == row.2 && r.features == row.3
  {
    FirmwareInfo(row.0, row.1, row.2, row.3, "BUILD_" + row.0)
  }

  /** The five rows have five different versions. */
  lemma InitialVersionsDistinct()
    ensures forall i, j | 0 <= i < j < |InitialTable| :: InitialTable[i].0 != InitialTable[j].0
  {
    forall i, j | 0 <= i < j < |InitialTable|
      ensures InitialTable[i].0 != InitialTable[j].0
    {
      assert InitialTable[i].0[1] != InitialTable[j].0[1];
    }
  }

  lemma StrLeRefl(a: string)
    ensures StrLe(a, a)
  {
  }

  /** `values().max_by_key(date)`: some value whose date is greatest, None
      exactly for an empty map. Among equal dates `max_by_key` keeps the
      last one met, and the order is the map's, so which one is left open. */
  method LatestByDate<V(==)>(m: map<string, V>, date: V -> string) returns (r: Option<V>)
    ensures r.None? <==> m == map[]
    ensures r.Some? ==> r.value in m.Values && forall k | k in m :: StrLe(date(m[k]), date(r.value))
  {
    r := None;
    var todo := m.Keys;
    while todo != {}
      invariant todo <= m.Keys
      invariant r.None? <==> todo == m.Keys
      invariant r.Some? ==> r.value in m.Values && forall k | k in m.Keys - todo :: StrLe(date(m[k]), date(r.value))
      decreases |todo|
    {
      var k :| k in todo;
      var candidate := m[k];
      match r {
        case None =>
          StrLeRefl(date(candidate));
          r := Some(candidate);
        case Some(best) =>
          if StrLe(date(best), date(candidate)) {
            forall k' | k' in m.Keys - todo
              ensures StrLe(date(m[k']), date(candidate))
            {
              StrLeTrans(date(m[k']), date(best), date(candidate));
            }
            StrLeRefl(date(candidate));
            r := Some(candidate);
          } else {
            StrLeTotal(date(best), date(candidate));
          }
      }
      todo := todo - {k};
    }
    if m != map[] {
      var k :| k in m;
    }
  }

  /** The loop of `initialize_known_versions`: each row is inserted under
      its version; rows with different versions give one entry each. */
  method InsertRows(rows: seq<(string, string, string, seq<string>)>) returns (m: map<string, FirmwareInfo>)
    requires forall i, j | 0 <= i < j < |rows| :: rows[i].0 != rows[j].0
    ensures forall v | v in m :: m[v].version == v && exists i | 0 <= i < |rows| :: rows[i].0 == v
    ensures |m| == |rows|
    ensures forall i | 0 <= i < |rows| :: rows[i].0 in m && m[rows[i].0] == InfoOf(rows[i])
  {
    m := map[];
    for i := 0 to |rows|
      invariant forall v | v in m :: m[v].version == v && exists j | 0 <= j < i :: rows[j].0 == v
      invariant |m| == i
      invariant forall j | 0 <= j < i :: rows[j].0 in m && m[rows[j].0] == InfoOf(rows[j])
    {
      var info := InfoOf(rows[i]);
      forall v | v in m
        ensures v != info.version
      {
        var j :| 0 <= j < i && rows[j].0 == v;
      }
      m := m[info.version := info];
    }
  }

  class FirmwareAnalyzer {
    var knownVersions: map<string, FirmwareInfo>
    var deviceModels: seq<string>

    /** Every entry is stored under its own version. */
    ghost predicate Valid()
      reads this
    {
      forall v | v in knownVersions :: knownVersions[v].version == v
    }

    constructor ()
      ensures Valid() && deviceModels == DeviceModels
      ensures forall v | v in knownVersions :: exists i | 0 <= i < |InitialTable| :: InitialTable[i].0 == v
      ensures |knownVersions| == |InitialTable|
      ensures forall i | 0 <= i < |InitialTable| ::
        InitialTable[i].0 in knownVersions && knownVersions[InitialTable[i].0] == InfoOf(InitialTable[i])
    {
      InitialVersionsDistinct();
      var table := InsertRows(InitialTable);
      knownVersions := table;
      deviceModels := DeviceModels;
    }

    function GetFirmwareInfo(version: string): (r: Option<FirmwareInfo>)
      requires Valid()
      reads this
      ensures r.Some? <==> IsKnownVersion(version)
      ensures r.Some? ==> r.value == knownVersions[version] && r.value.version == version
    {
      if version in knownVersions then Some(knownVersions[version]) else None
    }

    /** Inserts or overwrites by version. */
    method AddFirmwareVersion(info: FirmwareInfo)
      requires Valid()
      modifies this
      ensures Valid()
      ensures knownVersions == old(knownVersions)[info.version := info]
      ensures deviceModels == old(deviceModels)
    {
      knownVersions := knownVersions[info.version := info];
    }

    predicate IsKnownVersion(version: string)
      reads this
    {
      version in knownVersions
    }

    /** An added version is known and found, and others are untouched. */
    lemma AddedVersionIsKnown(info: FirmwareInfo, table: map<string, FirmwareInfo>, version: string)
      requires Valid() && knownVersions == table[info.version := info]
      ensures IsKnownVersion(info.version) && GetFirmwareInfo(info.version) == Some(info)
      ensures version != info.version ==> (IsKnownVersion(version) <==> version in table)
    {
    }

    method GetLatestVersion() returns (r: Option<FirmwareInfo>)
      ensures r.None? <==> knownVersions == map[]
      ensures r.Some? ==> r.value in knownVersions.Values
      ensures r.Some? ==> forall v | v in knownVersions :: StrLe(knownVersions[v].releaseDate, r.value.releaseDate)
    {
      r := LatestByDate(knownVersions, (f: FirmwareInfo) => f.releaseDate);
    }

    /** The entries of one device model, each once, in the map's order. */
    method GetVersionsForModel(model: string) returns (r: seq<FirmwareInfo>)
      requires Valid()
      ensures forall i | 0 <= i < |r| ::
        r[i].version in knownVersions && knownVersions[r[i].version] == r[i] && r[i].deviceModel == model
      ensures forall i, j | 0 <= i < j < |r| :: r[i].version != r[j].version
      ensures forall v | v in knownVersions && knownVersions[v].deviceModel == model :: knownVersions[v] in r
    {
      var m := knownVersions;
      r := CollectByKey(m.Keys,
        v => if v in m && m[v].deviceModel == model then Some(m[v]) else None,
        (f: FirmwareInfo) => f.version);
      forall v | v in m && m[v].deviceModel == model
        ensures m[v] in r
      {
        var i :| 0 <= i < |r| && r[i].version == v;
      }
    }

    /** The versions of `newVersions` not in `oldVersions`, and the other way
        round, each once, in an unspecified order. */
    method DetectVersionChanges(oldVersions: seq<string>, newVersions: seq<string>)
      returns (added: seq<string>, removed: seq<string>)
      ensures forall v :: v in added <==> v in newVersions && v !in oldVersions
      ensures forall v :: v in removed <==> v in oldVersions && v !in newVersions
      ensures Distinct(added) && Distinct(removed)
    {
      var oldSet := set v | v in oldVersions;
      var newSet := set v | v in newVersions;
      added := CollectByKey(newSet, v => if v !in oldSet then Some(v) else None, (v: string) => v);
      removed := CollectByKey(oldSet, v => if v !in newSet then Some(v) else None, (v: string) => v);
      forall v | v in newVersions && v !in oldVersions
        ensures v in added
      {
        assert v in newSet;
        var i :| 0 <= i < |added| && added[i] == v;
      }
      forall v | v in oldVersions && v !in newVersions
        ensures v in removed
      {
        assert v in oldSet;
        var i :| 0 <= i < |removed| && removed[i] == v;
      }
    }

    /** The stored features, or none for an unknown version. */
    function ExtractFeaturesFromVersion(version: string): (r: seq<string>)
      requires Valid()
      reads this
      ensures !IsKnownVersion(version) ==> r == []
      ensures IsKnownVersion(version) ==> r == knownVersions[version].features
    {
      match GetFirmwareInfo(version)
      case Some(info) => info.features
      case None => []
    }

    predicate IsValidDeviceModel(model: string)
      reads this
    {
      model in deviceModels
    }

    /** The known versions, each once, in the map's order. */
    method GetAllKnownVersions() returns (r: seq<string>)
      ensures forall v :: v in r <==> v in knownVersions
      ensures Distinct(r)
    {
      var m := knownVersions;
      r := CollectByKey(m.Keys, v => Some(v), (v: string) => v);
      forall v | v in m
        ensures v in r
      {
        var i :| 0 <= i < |r| && r[i] == v;
      }
    }
  }

  /** The tests: the built-in table has five versions and eight models. */
  method TableSizeScenario() returns (versions: nat, models: nat)
    ensures versions == 5 && models == 8
  {
    var a := new FirmwareAnalyzer();
    InitialVersionsDistinct();
    versions := |a.knownVersions|;
    models := |a.deviceModels|;
  }

  /** The tests: "5E135" is a known AirPods Pro (2nd generation) firmware
      with features, "UNKNOWN" is not known; "AirPods2" is a valid model
      and "UnknownModel" is not. */
  method LookupScenario()
    returns (model: Option<string>, features: nat, unknown: bool, valid: bool, invalid: bool)
    ensures model == Some("AirPodsProGen2") && features == 3
    ensures !unknown && valid && !invalid
  {
    var a := new FirmwareAnalyzer();
    assert InitialTable[0].0 == "5E135";
    model := match a.GetFirmwareInfo("5E135") case Some(f) => Some(f.deviceModel) case None => None;
    features := |a.ExtractFeaturesFromVersion("5E135")|;
    valid := a.IsValidDeviceModel("AirPods2");
    invalid := a.IsValidDeviceModel("UnknownModel");
    unknown := a.IsKnownVersion("UNKNOWN");
  }

  /** The first row's date is the only greatest one. */
  lemma FirstDateIsLatest()
    ensures forall i | 1 <= i < |InitialTable| :: !StrLe(InitialTable[0].2, InitialTable[i].2)
  {
    var dates := ["2025-11-21", "2025-10-15", "2025-09-20", "2025-08-10", "2025-07-05"];
    FirstOfDatesIsLatest(dates);
    forall i | 0 <= i < |InitialTable|
      ensures InitialTable[i].2 == dates[i]
    {
    }
  }

  /** The release dates of the firmware tables, newest first: each later
      date first differs from the newest by a smaller digit. */
  lemma FirstOfDatesIsLatest(dates: seq<string>)
    requires dates == ["2025-11-21", "2025-10-15", "2025-09-20", "2025-08-10", "2025-07-05"]
    ensures forall i | 1 <= i < |dates| :: !StrLe(dates[0], dates[i])
  {
    forall i | 1 <= i < |dates|
      ensures !StrLe(dates[0], dates[i])
    {
      NotStrLeAtDifference(dates[0], dates[i], if i == 1 then 6 else 5);
    }
  }

  /** The latest entry of the built-in table is "5E135". */
  method LatestScenario() returns (latest: Option<FirmwareInfo>)
    ensures latest.Some? && latest.value.version == "5E135"
  {
    var a := new FirmwareAnalyzer();
    assert InitialTable[0].0 in a.knownVersions;
    latest := a.GetLatestVersion();
    var l := latest.value;
    var v :| v in a.knownVersions && a.knownVersions[v] == l;
    var i :| 0 <= i < |InitialTable| && InitialTable[i].0 == v;
    assert StrLe(InitialTable[0].2, l.releaseDate) by {
      assert a.knownVersions[InitialTable[0].0] == InfoOf(InitialTable[0]);
    }
    FirstDateIsLatest();
    assert l == InfoOf(InitialTable[i]);
    assert i == 0;
  }

  /** The test: one version added and one removed. */
  method ChangesScenario() returns (added: nat, removed: nat)
    ensures added == 1 && removed == 1
  {
    var a := new FirmwareAnalyzer();
    var ad, rm := a.DetectVersionChanges(["5E135", "5D134"], ["5E135", "5C133"]);
    forall i | 0 <= i < |ad|
      ensures ad[i] == "5C133"
    {
      assert ad[i] in ad;
    }
    forall i | 0 <= i < |rm|
      ensures rm[i] == "5D134"
    {
      assert rm[i] in rm;
    }
    assert Elements(ad) == {"5C133"};
    assert Elements(rm) == {"5D134"};
    DistinctElements(ad);
    DistinctElements(rm);
    added, removed := |ad|, |rm|;
  }
}
