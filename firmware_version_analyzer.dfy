// The versioned firmware table of crates/core/src/firmware_version_analyzer.rs:
// like the firmware analyzer's, with a protocol version per entry, plus the
// change list between two version lists and the feature comparison.

module FirmwareVersionAnalyzer {
  import opened Wrappers
  import opened Seqs
  import opened Text
  import FirmwareAnalyzer

  datatype FirmwareVersionInfo = FirmwareVersionInfo(
    version: string, deviceModel: string, releaseDate: string,
    features: seq<string>, buildNumber: string, protocolVersion: string)

  datatype VersionChangeType = Major | Minor | Patch | Unknown

  datatype VersionChange = VersionChange(
    oldVersion: string, newVersion: string, deviceModel: string,
    changeType: VersionChangeType, isBreaking: bool)

  /** The rows `initialize_versions` inserts; the build number is the
      version itself and every protocol version is "1.0.0". */
  const Row5E135 := FirmwareVersionInfo("5E135", "AirPodsProGen2", "2025-11-21", ["BatteryMonitoring", "ANC", "SpatialAudio"], "5E135", "1.0.0")
  const Row5D134 := FirmwareVersionInfo("5D134", "AirPodsProGen2", "2025-10-15", ["BatteryMonitoring", "ANC"], "5D134", "1.0.0")
  const Row5C133 := FirmwareVersionInfo("5C133", "AirPodsMax", "2025-09-20", ["BatteryMonitoring", "ANC", "AdaptiveTransparency"], "5C133", "1.0.0")
  const Row5B132 := FirmwareVersionInfo("5B132", "AirPods4", "2025-08-10", ["BatteryMonitoring", "ANC"], "5B132", "1.0.0")
  const Row5A131 := FirmwareVersionInfo("5A131", "AirPods3", "2025-07-05", ["BatteryMonitoring", "ANC"], "5A131", "1.0.0")

  const VersionTable: seq<FirmwareVersionInfo> := [Row5E135, Row5D134, Row5C133, Row5B132, Row5A131]

  lemma VersionTableDistinct()
    ensures forall i, j | 0 <= i < j < |VersionTable| :: VersionTable[i].version != VersionTable[j].version
  {
    forall i, j | 0 <= i < j < |VersionTable|
      ensures VersionTable[i].version != VersionTable[j].version
    {
      assert VersionTable[i].version[1] != VersionTable[j].version[1];
    }
  }

  /** The loop of `initialize_versions`: each row is inserted under its
      version; rows with different versions give one entry each. */
  method InsertRows(rows: seq<FirmwareVersionInfo>) returns (m: map<string, FirmwareVersionInfo>)
    requires forall i, j | 0 <= i < j < |rows| :: rows[i].version != rows[j].version
    ensures forall v | v in m :: m[v].version == v && exists i | 0 <= i < |rows| :: rows[i] == m[v]
    ensures |m| == |rows|
    ensures forall i | 0 <= i < |rows| :: rows[i].version in m && m[rows[i].version] == rows[i]
  {
    m := map[];
    for i := 0 to |rows|
      invariant forall v | v in m :: m[v].version == v && exists j | 0 <= j < i :: rows[j] == m[v]
      invariant |m| == i
      invariant forall j | 0 <= j < i :: rows[j].version in m && m[rows[j].version] == rows[j]
    {
      var info := rows[i];
      forall v | v in m
        ensures v != info.version
      {
        var j :| 0 <= j < i && rows[j] == m[v];
      }
      m := m[info.version := info];
    }
  }

  /** `determine_change_type`: split at '.', and when at least two pieces
      both parse as `u32`, Major for a non-zero first piece, else Minor for
      a non-zero second piece, else Patch; Unknown otherwise. */
  function ChangeType(version: string): (r: VersionChangeType)
    ensures r != Unknown ==> '.' in version
  {
    var parts := SplitOn(version, '.');
    if |parts| < 2 then Unknown
    else
      match (ParseU32(parts[0]), ParseU32(parts[1]))
      case (Some(major), Some(minor)) =>
        if major > 0 then Major else if minor > 0 then Minor else Patch
      case _ => Unknown
  }

  /** A version without a dot, such as every Apple build "5E135", is of
      unknown change type. */
  lemma NoDotIsUnknown(version: string)
    requires '.' !in version
    ensures ChangeType(version) == Unknown
  {
    assert version[..|version|] == version;
    assert FindChar(version, '.') == |version|;
  }

  /** A rendered decimal has no dot. */
  lemma NumeralHasNoDot(n: nat)
    ensures '.' !in NatToString(n)
  {
    var s := NatToString(n);
    forall k | 0 <= k < |s|
      ensures s[k] != '.'
    {
      assert IsDigit(s[k]);
    }
  }

  /** The change type of a version is read off its first two pieces. */
  function TypeOfPieces(a: string, b: string): VersionChangeType
  {
    match (ParseU32(a), ParseU32(b))
    case (Some(major), Some(minor)) => if major > 0 then Major else if minor > 0 then Minor else Patch
    case _ => Unknown
  }

  lemma ChangeTypeOfSplit(version: string)
    requires |SplitOn(version, '.')| >= 2
    ensures ChangeType(version) == TypeOfPieces(SplitOn(version, '.')[0], SplitOn(version, '.')[1])
  {
  }

  /** The type of dot-joined, dot-free pieces is read off the first two. */
  lemma ChangeTypeOfPieces(pieces: seq<string>)
    requires |pieces| >= 2 && forall k | 0 <= k < |pieces| :: '.' !in pieces[k]
    ensures ChangeType(JoinWith(pieces, '.')) == TypeOfPieces(pieces[0], pieces[1])
  {
    SplitJoin(pieces, '.');
    ChangeTypeOfSplit(JoinWith(pieces, '.'));
  }

  /** A dotted version whose first two pieces are numerals is Major, Minor
      or Patch by the first non-zero of them. */
  lemma DottedChangeType(major: nat, minor: nat, pieces: seq<string>)
    requires major < U32Limit && minor < U32Limit
    requires |pieces| >= 2 && pieces[0] == NatToString(major) && pieces[1] == NatToString(minor)
    requires forall k | 2 <= k < |pieces| :: '.' !in pieces[k]
    ensures ChangeType(JoinWith(pieces, '.')) == if major > 0 then Major else if minor > 0 then Minor else Patch
  {
    NumeralHasNoDot(major);
    NumeralHasNoDot(minor);
    ChangeTypeOfPieces(pieces);
    ParseNatToString(major);
    ParseNatToString(minor);
  }

  /** The entry for a version that is new and known. */
  function NewEntry(version: string, info: FirmwareVersionInfo): VersionChange
  {
    VersionChange("N/A", version, info.deviceModel, ChangeType(version), false)
  }

  /** The entry for a version that disappeared and is known. */
  function GoneEntry(version: string, info: FirmwareVersionInfo): VersionChange
  {
    VersionChange(version, "N/A", info.deviceModel, Unknown, true)
  }

  /** The first pass of `detect_version_changes`: in the order of
      `newVersions`, one entry per occurrence of a version that is not in
      `oldVersions` and is in the table. */
  function AddedChanges(newVersions: seq<string>, oldVersions: seq<string>, table: map<string, FirmwareVersionInfo>)
    : (r: seq<VersionChange>)
    ensures |r| <= |newVersions|
    ensures forall i | 0 <= i < |r| ::
      && r[i].oldVersion == "N/A" && !r[i].isBreaking
      && r[i].newVersion in newVersions && r[i].newVersion !in oldVersions && r[i].newVersion in table
      && r[i] == NewEntry(r[i].newVersion, table[r[i].newVersion])
    decreases |newVersions|
  {
    if newVersions == [] then []
    else
      var v := newVersions[|newVersions| - 1];
      var r := AddedChanges(newVersions[..|newVersions| - 1], oldVersions, table);
      if v !in oldVersions && v in table then r + [NewEntry(v, table[v])] else r
  }

  /** The second pass: in the order of `oldVersions`, one entry per
      occurrence of a version that is not in `newVersions` and is in the
      table. */
  function RemovedChanges(oldVersions: seq<string>, newVersions: seq<string>, table: map<string, FirmwareVersionInfo>)
    : (r: seq<VersionChange>)
    ensures |r| <= |oldVersions|
    ensures forall i | 0 <= i < |r| ::
      && r[i].newVersion == "N/A" && r[i].isBreaking && r[i].changeType == Unknown
      && r[i].oldVersion in oldVersions && r[i].oldVersion !in newVersions && r[i].oldVersion in table
      && r[i] == GoneEntry(r[i].oldVersion, table[r[i].oldVersion])
    decreases |oldVersions|
  {
    if oldVersions == [] then []
    else
      var v := oldVersions[|oldVersions| - 1];
      var r := RemovedChanges(oldVersions[..|oldVersions| - 1], newVersions, table);
      if v !in newVersions && v in table then r + [GoneEntry(v, table[v])] else r
  }

  /** Every new, known version has an entry in the first pass. */
  lemma {:induction false} AddedChangesComplete(
    newVersions: seq<string>, oldVersions: seq<string>, table: map<string, FirmwareVersionInfo>, v: string)
    requires v in newVersions && v !in oldVersions && v in table
    ensures NewEntry(v, table[v]) in AddedChanges(newVersions, oldVersions, table)
    decreases |newVersions|
  {
    var n := |newVersions| - 1;
    if newVersions[n] != v {
      assert v in newVersions[..n] by {
        var k :| 0 <= k < |newVersions| && newVersions[k] == v;
        assert newVersions[..n][k] == v;
      }
      AddedChangesComplete(newVersions[..n], oldVersions, table, v);
    }
  }

  /** Every vanished, known version has an entry in the second pass. */
  lemma {:induction false} RemovedChangesComplete(
    oldVersions: seq<string>, newVersions: seq<string>, table: map<string, FirmwareVersionInfo>, v: string)
    requires v in oldVersions && v !in newVersions && v in table
    ensures GoneEntry(v, table[v]) in RemovedChanges(oldVersions, newVersions, table)
    decreases |oldVersions|
  {
    var n := |oldVersions| - 1;
    if oldVersions[n] != v {
      assert v in oldVersions[..n] by {
        var k :| 0 <= k < |oldVersions| && oldVersions[k] == v;
        assert oldVersions[..n][k] == v;
      }
      RemovedChangesComplete(oldVersions[..n], newVersions, table, v);
    }
  }

  /** A version listed twice keeps both of its entries: the passes do not
      deduplicate. */
  lemma AddedChangesKeepsDuplicates(newVersions: seq<string>, oldVersions: seq<string>, table: map<string, FirmwareVersionInfo>, v: string)
    requires v !in oldVersions && v in table
    ensures AddedChanges(newVersions + [v, v], oldVersions, table)
      == AddedChanges(newVersions, oldVersions, table) + [NewEntry(v, table[v]), NewEntry(v, table[v])]
  {
    assert (newVersions + [v, v])[..|newVersions| + 1] == newVersions + [v];
    assert (newVersions + [v])[..|newVersions|] == newVersions;
  }

  /** The test of the `filter` closures: not contained in the other list. */
  function Absent(features: seq<string>): string -> bool
  {
    f => f !in features
  }

  /** `compare_feature_sets` on two feature lists: the features of the new
      list missing from the old one, and the other way round, each in its
      own list's order. */
  function FeatureDifference(oldFeatures: seq<string>, newFeatures: seq<string>): (r: (seq<string>, seq<string>))
  {
    (Filter(newFeatures, Absent(oldFeatures)), Filter(oldFeatures, Absent(newFeatures)))
  }

  /** The two lists are exactly the one-sided differences. */
  lemma FeatureDifferenceMembers(oldFeatures: seq<string>, newFeatures: seq<string>, f: string)
    ensures f in FeatureDifference(oldFeatures, newFeatures).0 <==> f in newFeatures && f !in oldFeatures
    ensures f in FeatureDifference(oldFeatures, newFeatures).1 <==> f in oldFeatures && f !in newFeatures
  {
    FilterMembers(newFeatures, Absent(oldFeatures), f);
    FilterMembers(oldFeatures, Absent(newFeatures), f);
  }

  /** Equal lists have no difference. */
  lemma FeatureDifferenceOfSame(features: seq<string>)
    ensures FeatureDifference(features, features) == ([], [])
  {
    FilterNone(features, Absent(features));
  }

  /** A list extended by one feature it lacks gains exactly that feature. */
  lemma FeatureDifferenceOfOneMore(features: seq<string>, f: string)
    requires f !in features
    ensures FeatureDifference(features, features + [f]) == ([f], [])
  {
    FilterSnoc(features, f, Absent(features));
    FilterNone(features, Absent(features));
    assert Absent(features)(f);
    assert Filter(features + [f], Absent(features)) == [] + [f];
    FilterNone(features, Absent(features + [f]));
    assert FeatureDifference(features, features + [f]).1 == [];
    assert FeatureDifference(features, features + [f]).0 == [f];
  }

  class FirmwareVersionAnalyzer {
    var knownVersions: map<string, FirmwareVersionInfo>
    var versionHistory: seq<(string, string)>

    /** Every entry is stored under its own version. */
    ghost predicate Valid()
      reads this
    {
      forall v | v in knownVersions :: knownVersions[v].version == v
    }

    constructor ()
      ensures Valid() && versionHistory == []
      ensures |knownVersions| == |VersionTable|
      ensures forall v | v in knownVersions :: exists i | 0 <= i < |VersionTable| :: VersionTable[i] == knownVersions[v]
      ensures forall i | 0 <= i < |VersionTable| ::
        VersionTable[i].version in knownVersions && knownVersions[VersionTable[i].version] == VersionTable[i]
    {
      VersionTableDistinct();
      var table := InsertRows(VersionTable);
      knownVersions := table;
      versionHistory := [];
    }

    function GetVersionInfo(version: string): (r: Option<FirmwareVersionInfo>)
      requires Valid()
      reads this
      ensures r.Some? <==> version in knownVersions
      ensures r.Some? ==> r.value == knownVersions[version] && r.value.version == version
    {
      if version in knownVersions then Some(knownVersions[version]) else None
    }

    /** Inserts or overwrites by version. */
    method AddVersion(info: FirmwareVersionInfo)
      requires Valid()
      modifies this
      ensures Valid()
      ensures knownVersions == old(knownVersions)[info.version := info]
      ensures versionHistory == old(versionHistory)
    {
      knownVersions := knownVersions[info.version := info];
    }

    /** An added version is found afterwards, and the other versions are
        found as before. */
    lemma AddedVersionIsFound(info: FirmwareVersionInfo, table: map<string, FirmwareVersionInfo>, version: string)
      requires Valid() && knownVersions == table[info.version := info]
      ensures GetVersionInfo(info.version) == Some(info)
      ensures version != info.version ==> (GetVersionInfo(version).Some? <==> version in table)
    {
    }

    /** The two passes of `detect_version_changes`, one after the other. */
    method DetectVersionChanges(oldVersions: seq<string>, newVersions: seq<string>) returns (changes: seq<VersionChange>)
      requires Valid()
      ensures changes == AddedChanges(newVersions, oldVersions, knownVersions)
        + RemovedChanges(oldVersions, newVersions, knownVersions)
    {
      changes := [];
      for i := 0 to |newVersions|
        invariant changes == AddedChanges(newVersions[..i], oldVersions, knownVersions)
      {
        var v := newVersions[i];
        assert newVersions[..i + 1][..i] == newVersions[..i];
        if v !in oldVersions {
          match GetVersionInfo(v) {
            case Some(info) =>
              changes := changes + [VersionChange("N/A", v, info.deviceModel, ChangeType(v), false)];
            case None =>
          }
        }
      }
      assert newVersions[..|newVersions|] == newVersions;
      ghost var added := changes;
      for i := 0 to |oldVersions|
        invariant changes == added + RemovedChanges(oldVersions[..i], newVersions, knownVersions)
      {
        var v := oldVersions[i];
        assert oldVersions[..i + 1][..i] == oldVersions[..i];
        if v !in newVersions {
          match GetVersionInfo(v) {
            case Some(info) =>
              changes := changes + [VersionChange(v, "N/A", info.deviceModel, Unknown, true)];
            case None =>
          }
        }
      }
      assert oldVersions[..|oldVersions|] == oldVersions;
    }

    /** The entries of one device model, each once, in the map's order. */
    method GetVersionsForModel(model: string) returns (r: seq<FirmwareVersionInfo>)
      requires Valid()
      ensures forall i | 0 <= i < |r| ::
        r[i].version in knownVersions && knownVersions[r[i].version] == r[i] && r[i].deviceModel == model
      ensures forall i, j | 0 <= i < j < |r| :: r[i].version != r[j].version
      ensures forall v | v in knownVersions && knownVersions[v].deviceModel == model :: knownVersions[v] in r
    {
      var m := knownVersions;
      r := CollectByKey(m.Keys,
        v => if v in m && m[v].deviceModel == model then Some(m[v]) else None,
        (f: FirmwareVersionInfo) => f.version);
      forall v | v in m && m[v].deviceModel == model
        ensures m[v] in r
      {
        var i :| 0 <= i < |r| && r[i].version == v;
      }
    }

    /** The entry with the greatest release date; None only for an empty
        table. */
    method GetLatestVersion() returns (r: Option<FirmwareVersionInfo>)
      ensures r.None? <==> knownVersions == map[]
      ensures r.Some? ==> r.value in knownVersions.Values
      ensures r.Some? ==> forall v | v in knownVersions :: StrLe(knownVersions[v].releaseDate, r.value.releaseDate)
    {
      r := FirmwareAnalyzer.LatestByDate(knownVersions, (f: FirmwareVersionInfo) => f.releaseDate);
    }

    /** The stored features, or none for an unknown version. */
    function ExtractFeaturesFromVersion(version: string): (r: seq<string>)
      requires Valid()
      reads this
      ensures version !in knownVersions ==> r == []
      ensures version in knownVersions ==> r == knownVersions[version].features
    {
      match GetVersionInfo(version)
      case Some(info) => info.features
      case None => []
    }

    /** `compare_feature_sets`: the feature differences of two table
        entries, an unknown entry having no features. */
    function CompareFeatureSets(oldVersion: string, newVersion: string): (r: (seq<string>, seq<string>))
      requires Valid()
      reads this
      ensures forall f :: f in r.0 <==>
        f in ExtractFeaturesFromVersion(newVersion) && f !in ExtractFeaturesFromVersion(oldVersion)
      ensures forall f :: f in r.1 <==>
        f in ExtractFeaturesFromVersion(oldVersion) && f !in ExtractFeaturesFromVersion(newVersion)
    {
      var oldFeatures := ExtractFeaturesFromVersion(oldVersion);
      var newFeatures := ExtractFeaturesFromVersion(newVersion);
      FilterMembersAll(newFeatures, Absent(oldFeatures));
      FilterMembersAll(oldFeatures, Absent(newFeatures));
      FeatureDifference(oldFeatures, newFeatures)
    }
  }

  /** The first row's date is the only greatest one. */
  lemma FirstDateIsLatest()
    ensures forall i | 1 <= i < |VersionTable| :: !StrLe(VersionTable[0].releaseDate, VersionTable[i].releaseDate)
  {
    var dates := ["2025-11-21", "2025-10-15", "2025-09-20", "2025-08-10", "2025-07-05"];
    FirmwareAnalyzer.FirstOfDatesIsLatest(dates);
    forall i | 0 <= i < |VersionTable|
      ensures VersionTable[i].releaseDate == dates[i]
    {
    }
  }

  /** The latest entry of the built-in table is "5E135", with protocol
      version "1.0.0". */
  method LatestScenario() returns (latest: Option<FirmwareVersionInfo>)
    ensures latest.Some? && latest.value.version == "5E135" && latest.value.protocolVersion == "1.0.0"
  {
    var a := new FirmwareVersionAnalyzer();
    assert VersionTable[0].version in a.knownVersions;
    latest := a.GetLatestVersion();
    var l := latest.value;
    var v :| v in a.knownVersions && a.knownVersions[v] == l;
    var i :| 0 <= i < |VersionTable| && VersionTable[i] == l;
    assert StrLe(VersionTable[0].releaseDate, l.releaseDate) by {
      assert a.knownVersions[VersionTable[0].version] == VersionTable[0];
    }
    FirstDateIsLatest();
    assert i == 0;
  }

  /** The test: from "5D134" to "5E135" one feature is added and none is
      removed. */
  method FeatureScenario() returns (added: seq<string>, removed: seq<string>)
    ensures added == ["SpatialAudio"] && removed == []
  {
    var a := new FirmwareVersionAnalyzer();
    assert VersionTable[0].version == "5E135" && VersionTable[1].version == "5D134";
    var oldF := a.ExtractFeaturesFromVersion("5D134");
    var newF := a.ExtractFeaturesFromVersion("5E135");
    assert oldF == ["BatteryMonitoring", "ANC"];
    assert newF == ["BatteryMonitoring", "ANC", "SpatialAudio"];
    assert newF == oldF + ["SpatialAudio"];
    FeatureDifferenceOfOneMore(oldF, "SpatialAudio");
    var r := a.CompareFeatureSets("5D134", "5E135");
    assert r == FeatureDifference(oldF, newF);
    added, removed := r.0, r.1;
  }

  /** Two versions of which only the second is new and known give one
      entry. */
  lemma AddedOfPair(kept: string, v: string, others: seq<string>, table: map<string, FirmwareVersionInfo>)
    requires kept in others && v !in others && v in table
    ensures AddedChanges([kept, v], others, table) == [NewEntry(v, table[v])]
  {
    assert [kept, v][..1] == [kept];
    assert [kept][..0] == [];
  }

  /** Two versions of which only the second is gone and known give one
      entry. */
  lemma RemovedOfPair(kept: string, v: string, others: seq<string>, table: map<string, FirmwareVersionInfo>)
    requires kept in others && v !in others && v in table
    ensures RemovedChanges([kept, v], others, table) == [GoneEntry(v, table[v])]
  {
    assert [kept, v][..1] == [kept];
    assert [kept][..0] == [];
  }

  /** Replacing one known version by another known, dot-free one gives one
      new entry of unknown type for the added version, then one breaking
      entry for the gone one. */
  lemma SwapChanges(current: string, gone: string, added: string, table: map<string, FirmwareVersionInfo>)
    requires current != gone && current != added && gone != added
    requires gone in table && added in table && '.' !in added
    ensures AddedChanges([current, added], [current, gone], table)
      + RemovedChanges([current, gone], [current, added], table) == [
      VersionChange("N/A", added, table[added].deviceModel, Unknown, false),
      VersionChange(gone, "N/A", table[gone].deviceModel, Unknown, true)]
  {
    NoDotIsUnknown(added);
    AddedOfPair(current, added, [current, gone], table);
    RemovedOfPair(current, gone, [current, added], table);
  }

  /** The test: old ["5E135", "5D134"] and new ["5E135", "5C133"] give one
      new entry for "5C133" and one breaking entry for "5D134", both of
      unknown type. */
  method ChangesScenario() returns (changes: seq<VersionChange>)
    ensures changes == [
      VersionChange("N/A", "5C133", "AirPodsMax", Unknown, false),
      VersionChange("5D134", "N/A", "AirPodsProGen2", Unknown, true)]
  {
    var a := new FirmwareVersionAnalyzer();
    var current, gone, added := "5E135", "5D134", "5C133";
    assert VersionTable[1] == Row5D134 && VersionTable[2] == Row5C133;
    assert current[1] != gone[1] && current[1] != added[1] && gone[1] != added[1];
    changes := a.DetectVersionChanges([current, gone], [current, added]);
    SwapChanges(current, gone, added, a.knownVersions);
  }
}
