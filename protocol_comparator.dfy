// The comparison of an upstream protocol against the base protocol, from
// crates/core/src/protocol_comparator.rs. The `compare_*` methods walk
// `HashMap`s and `HashSet`s, whose order is not fixed: their results are
// described per key, not by position.

module ProtocolComparator {
  import opened Wrappers
  import opened Seqs
  import opened ProtocolDrift
  import ProtocolAnalyzer

  /** The tables `initialize_base_protocol` fills. */
  const BaseMessageTypes: map<byte, string> := map[
    0x01 := "BatteryStatus", 0x02 := "AncControl", 0x03 := "EarDetection",
    0x04 := "FirmwareInfo", 0x05 := "SpatialAudio", 0x06 := "HeartRate",
    0x07 := "FindMy", 0x08 := "ConversationAwareness", 0x09 := "HearingAid",
    0x0A := "DeviceRename", 0x0B := "MultipointControl", 0x0C := "AdaptiveTransparency",
    0x0D := "LongPressActions", 0x0E := "CustomTransparency", 0x0F := "HeadGestures"]

  const BaseUuids: map<string, string> := map[
    "7DFC9000-7D1C-4951-86AA-8D9728F8D66C" := "AAP_SERVICE",
    "7DFC9001-7D1C-4951-86AA-8D9728F8D66C" := "AAP_CHARACTERISTIC",
    "180F" := "BATTERY_SERVICE",
    "180A" := "DEVICE_INFO_SERVICE"]

  const BaseFeatures: set<string> := {
    "BatteryMonitoring", "NoiseControl", "AdaptiveTransparency", "EarDetection",
    "ConversationAwareness", "HeadGestures", "HearingAid", "CustomTransparency",
    "DeviceRename", "LongPressActions", "Multipoint", "FirmwareInfo", "FindMy",
    "HeartRate", "SpatialAudio"}

  /** The comparator's base protocol is the analyzer's known protocol. */
  lemma BaseIsKnownProtocol()
    ensures BaseMessageTypes == ProtocolAnalyzer.KnownMessageTypes
    ensures BaseUuids == ProtocolAnalyzer.KnownUuids
    ensures BaseFeatures == ProtocolAnalyzer.KnownFeatures.Keys
  {
  }

  // ---- message types ----

  /** The drift `compare_message_types` reports for opcode o, if any: an
      upstream opcode missing from the base is Added, one whose name
      changed is Modified, and a base opcode missing upstream is Removed. */
  function TypeDrift(o: byte, base: map<byte, string>, upstream: map<byte, string>): Option<MessageTypeDrift>
  {
    if o in upstream then
      if o in base then
        if base[o] != upstream[o] then
          Some(MessageTypeDrift(o, upstream[o], Modified, Some(base[o]), upstream[o], true))
        else Option.None
      else Some(MessageTypeDrift(o, upstream[o], Added, Option.None, upstream[o], false))
    else if o in base then
      Some(MessageTypeDrift(o, base[o], Removed, Some(base[o]), "", true))
    else Option.None
  }

  /** The three kinds of message-type drift, when each occurs, and which
      ones are breaking. */
  lemma TypeDriftKinds(o: byte, base: map<byte, string>, upstream: map<byte, string>)
    ensures (TypeDrift(o, base, upstream).Some? && TypeDrift(o, base, upstream).value.status == Added)
      <==> o in upstream && o !in base
    ensures (TypeDrift(o, base, upstream).Some? && TypeDrift(o, base, upstream).value.status == Modified)
      <==> o in upstream && o in base && upstream[o] != base[o]
    ensures (TypeDrift(o, base, upstream).Some? && TypeDrift(o, base, upstream).value.status == Removed)
      <==> o !in upstream && o in base
    ensures TypeDrift(o, base, upstream).Some? ==>
      TypeDrift(o, base, upstream).value.opcode == o &&
      (TypeDrift(o, base, upstream).value.breakingChange <==> TypeDrift(o, base, upstream).value.status != Added)
    ensures TypeDrift(o, base, upstream).Some? && TypeDrift(o, base, upstream).value.status == Modified ==>
      TypeDrift(o, base, upstream).value.previousVersion == Some(base[o])
  {
  }

  /** Some opcode drifts exactly when the upstream table differs from the
      base table. */
  lemma TypeDriftIffTablesDiffer(base: map<byte, string>, upstream: map<byte, string>)
    ensures (exists o: byte :: TypeDrift(o, base, upstream).Some?) <==> upstream != base
  {
    if !exists o: byte :: TypeDrift(o, base, upstream).Some? {
      forall o: byte
        ensures (o in upstream <==> o in base) && (o in upstream ==> upstream[o] == base[o])
      {
        assert TypeDrift(o, base, upstream).None?;
      }
      assert upstream == base;
    } else {
      var o: byte :| TypeDrift(o, base, upstream).Some?;
    }
  }

  /** `ds` lists each opcode's drift exactly once, all drifts coming from
      the upstream table before those from the base table. */
  ghost predicate IsTypeComparison(ds: seq<MessageTypeDrift>, base: map<byte, string>, upstream: map<byte, string>)
  {
    (forall i | 0 <= i < |ds| :: TypeDrift(ds[i].opcode, base, upstream) == Some(ds[i])) &&
    (forall i, j | 0 <= i < j < |ds| :: ds[i].opcode != ds[j].opcode) &&
    (forall o: byte | TypeDrift(o, base, upstream).Some? :: exists i | 0 <= i < |ds| :: ds[i].opcode == o) &&
    (forall i, j | 0 <= i < j < |ds| :: ds[i].status == Removed ==> ds[j].status == Removed)
  }

  /** The drifts of the upstream opcodes followed by those of the base
      opcodes missing upstream make a comparison. */
  lemma TypeComparisonOfParts(u: seq<MessageTypeDrift>, b: seq<MessageTypeDrift>,
                              base: map<byte, string>, upstream: map<byte, string>)
    requires forall i | 0 <= i < |u| :: u[i].opcode in upstream && TypeDrift(u[i].opcode, base, upstream) == Some(u[i])
    requires forall i, j | 0 <= i < j < |u| :: u[i].opcode != u[j].opcode
    requires forall o | o in upstream && TypeDrift(o, base, upstream).Some? :: exists i | 0 <= i < |u| :: u[i].opcode == o
    requires forall i | 0 <= i < |b| ::
      b[i].opcode in base && (if b[i].opcode in upstream then Option.None else TypeDrift(b[i].opcode, base, upstream)) == Some(b[i])
    requires forall i, j | 0 <= i < j < |b| :: b[i].opcode != b[j].opcode
    requires forall o | o in base && (if o in upstream then Option.None else TypeDrift(o, base, upstream)).Some? ::
      exists i | 0 <= i < |b| :: b[i].opcode == o
    ensures IsTypeComparison(u + b, base, upstream)
  {
    var ds := u + b;
    forall i | 0 <= i < |b|
      ensures b[i].opcode !in upstream && b[i].status == Removed
    {
    }
    forall i | 0 <= i < |u|
      ensures u[i].status != Removed
    {
    }
    forall o: byte | TypeDrift(o, base, upstream).Some?
      ensures exists i | 0 <= i < |ds| :: ds[i].opcode == o
    {
      if o in upstream {
        var i :| 0 <= i < |u| && u[i].opcode == o;
        assert ds[i].opcode == o;
      } else {
        var i :| 0 <= i < |b| && b[i].opcode == o;
        assert ds[|u| + i].opcode == o;
      }
    }
  }

  // ---- UUIDs ----

  /** The drift `compare_uuids` reports for a UUID: only keys are compared,
      so a renamed UUID present on both sides is no drift. */
  function UuidDriftOf(u: string, base: map<string, string>, upstream: map<string, string>): Option<UuidDrift>
  {
    if u in upstream then
      if u !in base then Some(UuidDrift(u, upstream[u], Added, ["All"], false))
      else Option.None
    else if u in base then Some(UuidDrift(u, base[u], Removed, ["All"], true))
    else Option.None
  }

  lemma UuidDriftKinds(u: string, base: map<string, string>, upstream: map<string, string>)
    ensures UuidDriftOf(u, base, upstream).Some? <==> (u in upstream <==> u !in base)
    ensures UuidDriftOf(u, base, upstream).Some? ==>
      UuidDriftOf(u, base, upstream).value.uuid == u &&
      (UuidDriftOf(u, base, upstream).value.status == Added || UuidDriftOf(u, base, upstream).value.status == Removed) &&
      (UuidDriftOf(u, base, upstream).value.status == Added <==> u in upstream) &&
      (UuidDriftOf(u, base, upstream).value.breakingChange <==> u !in upstream)
  {
  }

  /** Some UUID drifts exactly when the two key sets differ. */
  lemma UuidDriftIffKeysDiffer(base: map<string, string>, upstream: map<string, string>)
    ensures (exists u | u in upstream.Keys + base.Keys :: UuidDriftOf(u, base, upstream).Some?)
      <==> upstream.Keys != base.Keys
  {
    if upstream.Keys != base.Keys {
      if exists u :: u in upstream.Keys && u !in base.Keys {
        var u :| u in upstream.Keys && u !in base.Keys;
        assert UuidDriftOf(u, base, upstream).Some?;
      } else {
        var u :| u in base.Keys && u !in upstream.Keys;
        assert UuidDriftOf(u, base, upstream).Some?;
      }
    }
  }

  ghost predicate IsUuidComparison(ds: seq<UuidDrift>, base: map<string, string>, upstream: map<string, string>)
  {
    (forall i | 0 <= i < |ds| :: UuidDriftOf(ds[i].uuid, base, upstream) == Some(ds[i])) &&
    (forall i, j | 0 <= i < j < |ds| :: ds[i].uuid != ds[j].uuid) &&
    (forall u | u in upstream.Keys + base.Keys && UuidDriftOf(u, base, upstream).Some? ::
       exists i | 0 <= i < |ds| :: ds[i].uuid == u) &&
    (forall i, j | 0 <= i < j < |ds| :: ds[i].status == Removed ==> ds[j].status == Removed)
  }

  /** The two passes of `compare_uuids` together: the upstream pass
      reports what upstream adds, the base pass what it removes. */
  lemma UuidComparisonOfParts(u: seq<UuidDrift>, b: seq<UuidDrift>,
                              base: map<string, string>, upstream: map<string, string>)
    requires forall i | 0 <= i < |u| ::
      u[i].uuid in upstream && (if u[i].uuid in upstream then UuidDriftOf(u[i].uuid, base, upstream) else Option.None) == Some(u[i])
    requires forall i, j | 0 <= i < j < |u| :: u[i].uuid != u[j].uuid
    requires forall k | k in upstream && (if k in upstream then UuidDriftOf(k, base, upstream) else Option.None).Some? ::
      exists i | 0 <= i < |u| :: u[i].uuid == k
    requires forall i | 0 <= i < |b| ::
      b[i].uuid in base && (if b[i].uuid !in upstream then UuidDriftOf(b[i].uuid, base, upstream) else Option.None) == Some(b[i])
    requires forall i, j | 0 <= i < j < |b| :: b[i].uuid != b[j].uuid
    requires forall k | k in base && (if k !in upstream then UuidDriftOf(k, base, upstream) else Option.None).Some? ::
      exists i | 0 <= i < |b| :: b[i].uuid == k
    ensures IsUuidComparison(u + b, base, upstream)
  {
    var ds := u + b;
    forall i | 0 <= i < |b|
      ensures b[i].uuid !in upstream && b[i].status == Removed
    {
    }
    forall i | 0 <= i < |u|
      ensures u[i].status != Removed
    {
    }
    forall k | k in upstream.Keys + base.Keys && UuidDriftOf(k, base, upstream).Some?
      ensures exists i | 0 <= i < |ds| :: ds[i].uuid == k
    {
      if k in upstream {
        var i :| 0 <= i < |u| && u[i].uuid == k;
        assert ds[i].uuid == k;
      } else {
        var i :| 0 <= i < |b| && b[i].uuid == k;
        assert ds[|u| + i].uuid == k;
      }
    }
  }

  // ---- features ----

  /** The drift `compare_features` reports: upstream minus base is Added,
      base minus upstream is Removed and breaking. */
  function FeatureDriftOf(f: string, base: set<string>, upstream: set<string>): Option<FeatureDrift>
  {
    if f in upstream && f !in base then Some(FeatureDrift(f, Added, ["All"], false))
    else if f !in upstream && f in base then Some(FeatureDrift(f, Removed, ["All"], true))
    else Option.None
  }

  lemma FeatureDriftKinds(f: string, base: set<string>, upstream: set<string>)
    ensures (FeatureDriftOf(f, base, upstream).Some? && FeatureDriftOf(f, base, upstream).value.status == Added)
      <==> f in upstream - base
    ensures (FeatureDriftOf(f, base, upstream).Some? && FeatureDriftOf(f, base, upstream).value.status == Removed)
      <==> f in base - upstream
    ensures FeatureDriftOf(f, base, upstream).Some? ==>
      FeatureDriftOf(f, base, upstream).value.featureName == f &&
      (FeatureDriftOf(f, base, upstream).value.breakingChange <==> FeatureDriftOf(f, base, upstream).value.status == Removed)
  {
  }

  ghost predicate IsFeatureComparison(ds: seq<FeatureDrift>, base: set<string>, upstream: set<string>)
  {
    (forall i | 0 <= i < |ds| :: FeatureDriftOf(ds[i].featureName, base, upstream) == Some(ds[i])) &&
    (forall i, j | 0 <= i < j < |ds| :: ds[i].featureName != ds[j].featureName) &&
    (forall f | f in upstream + base && FeatureDriftOf(f, base, upstream).Some? ::
       exists i | 0 <= i < |ds| :: ds[i].featureName == f) &&
    (forall i, j | 0 <= i < j < |ds| :: ds[i].status == Removed ==> ds[j].status == Removed)
  }

  /** The two passes of `compare_features` together. */
  lemma FeatureComparisonOfParts(u: seq<FeatureDrift>, b: seq<FeatureDrift>, base: set<string>, upstream: set<string>)
    requires forall i | 0 <= i < |u| ::
      u[i].featureName in upstream &&
      (if u[i].featureName in upstream then FeatureDriftOf(u[i].featureName, base, upstream) else Option.None) == Some(u[i])
    requires forall i, j | 0 <= i < j < |u| :: u[i].featureName != u[j].featureName
    requires forall f | f in upstream && (if f in upstream then FeatureDriftOf(f, base, upstream) else Option.None).Some? ::
      exists i | 0 <= i < |u| :: u[i].featureName == f
    requires forall i | 0 <= i < |b| ::
      b[i].featureName in base &&
      (if b[i].featureName !in upstream then FeatureDriftOf(b[i].featureName, base, upstream) else Option.None) == Some(b[i])
    requires forall i, j | 0 <= i < j < |b| :: b[i].featureName != b[j].featureName
    requires forall f | f in base && (if f !in upstream then FeatureDriftOf(f, base, upstream) else Option.None).Some? ::
      exists i | 0 <= i < |b| :: b[i].featureName == f
    ensures IsFeatureComparison(u + b, base, upstream)
  {
    var ds := u + b;
    forall i | 0 <= i < |b|
      ensures b[i].featureName !in upstream && b[i].status == Removed
    {
    }
    forall i | 0 <= i < |u|
      ensures u[i].status != Removed
    {
    }
    forall f | f in upstream + base && FeatureDriftOf(f, base, upstream).Some?
      ensures exists i | 0 <= i < |ds| :: ds[i].featureName == f
    {
      if f in upstream {
        var i :| 0 <= i < |u| && u[i].featureName == f;
        assert ds[i].featureName == f;
      } else {
        var i :| 0 <= i < |b| && b[i].featureName == f;
        assert ds[|u| + i].featureName == f;
      }
    }
  }

  const ReviewBreaking := "Review breaking changes before upgrading"
  const SignificantChanges := "Significant protocol changes detected"

  class ProtocolComparator {
    const baseMessageTypes: map<byte, string>
    const baseUuids: map<string, string>
    const baseFeatures: set<string>

    constructor ()
      ensures baseMessageTypes == BaseMessageTypes
      ensures baseUuids == BaseUuids && baseFeatures == BaseFeatures
    {
      baseMessageTypes := BaseMessageTypes;
      baseUuids := BaseUuids;
      baseFeatures := BaseFeatures;
    }

    method CompareMessageTypes(upstream: map<byte, string>) returns (drifts: seq<MessageTypeDrift>)
      ensures IsTypeComparison(drifts, baseMessageTypes, upstream)
    {
      var base := baseMessageTypes;
      var fromUpstream := CollectByKey(upstream.Keys,
        o => TypeDrift(o, base, upstream), (d: MessageTypeDrift) => d.opcode);
      var fromBase := CollectByKey(base.Keys,
        o => if o in upstream then Option.None else TypeDrift(o, base, upstream),
        (d: MessageTypeDrift) => d.opcode);
      TypeComparisonOfParts(fromUpstream, fromBase, base, upstream);
      drifts := fromUpstream + fromBase;
    }

    /** `detect_protocol_drift`: the comparison of the message types is not
        empty, which is exactly when the upstream table differs from the base. */
    method DetectProtocolDrift(upstream: map<byte, string>) returns (drift: bool)
      ensures drift <==> upstream != baseMessageTypes
    {
      var drifts := CompareMessageTypes(upstream);
      TypeDriftIffTablesDiffer(baseMessageTypes, upstream);
      if drifts != [] {
        assert TypeDrift(drifts[0].opcode, baseMessageTypes, upstream).Some?;
      }
      drift := |drifts| > 0;
    }

    method CompareUuids(upstream: map<string, string>) returns (drifts: seq<UuidDrift>)
      ensures IsUuidComparison(drifts, baseUuids, upstream)
    {
      var base := baseUuids;
      var fromUpstream := CollectByKey(upstream.Keys,
        u => if u in upstream then UuidDriftOf(u, base, upstream) else Option.None,
        (d: UuidDrift) => d.uuid);
      var fromBase := CollectByKey(base.Keys,
        u => if u !in upstream then UuidDriftOf(u, base, upstream) else Option.None,
        (d: UuidDrift) => d.uuid);
      UuidComparisonOfParts(fromUpstream, fromBase, base, upstream);
      drifts := fromUpstream + fromBase;
    }

    method CompareFeatures(upstream: set<string>) returns (drifts: seq<FeatureDrift>)
      ensures IsFeatureComparison(drifts, baseFeatures, upstream)
    {
      var base := baseFeatures;
      var fromUpstream := CollectByKey(upstream,
        f => if f in upstream then FeatureDriftOf(f, base, upstream) else Option.None,
        (d: FeatureDrift) => d.featureName);
      var fromBase := CollectByKey(base,
        f => if f !in upstream then FeatureDriftOf(f, base, upstream) else Option.None,
        (d: FeatureDrift) => d.featureName);
      FeatureComparisonOfParts(fromUpstream, fromBase, base, upstream);
      drifts := fromUpstream + fromBase;
    }

    /** Adds the three comparisons to a new report in order, then one
        recommendation if anything is breaking and another if there are
        more than five changes. */
    method GenerateDriftReport(baseVersion: string, upstreamVersion: string,
                               upstreamTypes: map<byte, string>, upstreamUuids: map<string, string>,
                               upstreamFeatures: set<string>)
      returns (report: ProtocolDriftReport)
      ensures fresh(report) && report.Valid()
      ensures report.baseVersion == baseVersion && report.upstreamVersion == upstreamVersion
      ensures IsTypeComparison(report.messageTypeDrifts, baseMessageTypes, upstreamTypes)
      ensures IsUuidComparison(report.uuidDrifts, baseUuids, upstreamUuids)
      ensures IsFeatureComparison(report.featureDrifts, baseFeatures, upstreamFeatures)
      ensures report.recommendations ==
        (if report.breakingChanges > 0 then [ReviewBreaking] else []) +
        (if report.totalChanges > 5 then [SignificantChanges] else [])
    {
      var md := CompareMessageTypes(upstreamTypes);
      var ud := CompareUuids(upstreamUuids);
      var fd := CompareFeatures(upstreamFeatures);
      report := BuildReport(baseVersion, upstreamVersion, md, ud, fd);
    }
  }

  /** The body of `generate_drift_report` once the three comparisons are
      made: a new report holding them, with its recommendations. */
  method BuildReport(baseVersion: string, upstreamVersion: string,
                     md: seq<MessageTypeDrift>, ud: seq<UuidDrift>, fd: seq<FeatureDrift>)
    returns (report: ProtocolDriftReport)
    ensures fresh(report) && report.Valid()
    ensures report.baseVersion == baseVersion && report.upstreamVersion == upstreamVersion
    ensures report.messageTypeDrifts == md && report.uuidDrifts == ud && report.featureDrifts == fd
    ensures report.recommendations ==
      (if report.breakingChanges > 0 then [ReviewBreaking] else []) +
      (if report.totalChanges > 5 then [SignificantChanges] else [])
  {
    report := new ProtocolDriftReport(baseVersion, upstreamVersion);
    AddAllMessageTypeDrifts(report, md);
    AddAllUuidDrifts(report, ud);
    AddAllFeatureDrifts(report, fd);
    AddRecommendations(report);
  }

  /** The recommendations at the end of `generate_drift_report`. */
  method AddRecommendations(report: ProtocolDriftReport)
    requires report.Valid() && report.recommendations == []
    modifies report
    ensures report.Valid()
    ensures report.recommendations ==
      (if report.breakingChanges > 0 then [ReviewBreaking] else []) +
      (if report.totalChanges > 5 then [SignificantChanges] else [])
    ensures unchanged(report`messageTypeDrifts, report`uuidDrifts, report`featureDrifts)
    ensures unchanged(report`totalChanges, report`breakingChanges)
    ensures unchanged(report`baseVersion, report`upstreamVersion)
  {
    if report.breakingChanges > 0 {
      report.AddRecommendation(ReviewBreaking);
    }
    if report.totalChanges > 5 {
      report.AddRecommendation(SignificantChanges);
    }
  }

  /** The first loop of `generate_drift_report`. */
  method AddAllMessageTypeDrifts(report: ProtocolDriftReport, ds: seq<MessageTypeDrift>)
    requires report.Valid()
    modifies report
    ensures report.Valid()
    ensures report.messageTypeDrifts == old(report.messageTypeDrifts) + ds
    ensures report.uuidDrifts == old(report.uuidDrifts) && report.featureDrifts == old(report.featureDrifts)
    ensures report.recommendations == old(report.recommendations)
    ensures report.baseVersion == old(report.baseVersion) && report.upstreamVersion == old(report.upstreamVersion)
  {
    var i := 0;
    while i < |ds|
      invariant 0 <= i <= |ds|
      invariant report.Valid()
      invariant report.messageTypeDrifts == old(report.messageTypeDrifts) + ds[..i]
      invariant report.uuidDrifts == old(report.uuidDrifts) && report.featureDrifts == old(report.featureDrifts)
      invariant report.recommendations == old(report.recommendations)
      invariant report.baseVersion == old(report.baseVersion) && report.upstreamVersion == old(report.upstreamVersion)
    {
      assert ds[..i + 1] == ds[..i] + [ds[i]];
      report.AddMessageTypeDrift(ds[i]);
      AppendAssoc(old(report.messageTypeDrifts), ds[..i], [ds[i]]);
      i := i + 1;
    }
    assert ds[..i] == ds;
  }

  /** The second loop of `generate_drift_report`. */
  method AddAllUuidDrifts(report: ProtocolDriftReport, ds: seq<UuidDrift>)
    requires report.Valid()
    modifies report
    ensures report.Valid()
    ensures report.uuidDrifts == old(report.uuidDrifts) + ds
    ensures report.messageTypeDrifts == old(report.messageTypeDrifts) && report.featureDrifts == old(report.featureDrifts)
    ensures report.recommendations == old(report.recommendations)
    ensures report.baseVersion == old(report.baseVersion) && report.upstreamVersion == old(report.upstreamVersion)
  {
    var i := 0;
    while i < |ds|
      invariant 0 <= i <= |ds|
      invariant report.Valid()
      invariant report.uuidDrifts == old(report.uuidDrifts) + ds[..i]
      invariant report.messageTypeDrifts == old(report.messageTypeDrifts) && report.featureDrifts == old(report.featureDrifts)
      invariant report.recommendations == old(report.recommendations)
      invariant report.baseVersion == old(report.baseVersion) && report.upstreamVersion == old(report.upstreamVersion)
    {
      assert ds[..i + 1] == ds[..i] + [ds[i]];
      report.AddUuidDrift(ds[i]);
      AppendAssoc(old(report.uuidDrifts), ds[..i], [ds[i]]);
      i := i + 1;
    }
    assert ds[..i] == ds;
  }

  /** The third loop of `generate_drift_report`. */
  method AddAllFeatureDrifts(report: ProtocolDriftReport, ds: seq<FeatureDrift>)
    requires report.Valid()
    modifies report
    ensures report.Valid()
    ensures report.featureDrifts == old(report.featureDrifts) + ds
    ensures report.messageTypeDrifts == old(report.messageTypeDrifts) && report.uuidDrifts == old(report.uuidDrifts)
    ensures report.recommendations == old(report.recommendations)
    ensures report.baseVersion == old(report.baseVersion) && report.upstreamVersion == old(report.upstreamVersion)
  {
    var i := 0;
    while i < |ds|
      invariant 0 <= i <= |ds|
      invariant report.Valid()
      invariant report.featureDrifts == old(report.featureDrifts) + ds[..i]
      invariant report.messageTypeDrifts == old(report.messageTypeDrifts) && report.uuidDrifts == old(report.uuidDrifts)
      invariant report.recommendations == old(report.recommendations)
      invariant report.baseVersion == old(report.baseVersion) && report.upstreamVersion == old(report.upstreamVersion)
    {
      assert ds[..i + 1] == ds[..i] + [ds[i]];
      report.AddFeatureDrift(ds[i]);
      AppendAssoc(old(report.featureDrifts), ds[..i], [ds[i]]);
      i := i + 1;
    }
    assert ds[..i] == ds;
  }

  /** A comparison reports the drift of every opcode that drifts. */
  lemma ComparisonReports(ds: seq<MessageTypeDrift>, base: map<byte, string>, upstream: map<byte, string>, o: byte)
    requires IsTypeComparison(ds, base, upstream) && TypeDrift(o, base, upstream).Some?
    ensures TypeDrift(o, base, upstream).value in ds
  {
    var i :| 0 <= i < |ds| && ds[i].opcode == o;
    assert TypeDrift(ds[i].opcode, base, upstream) == Some(ds[i]);
  }

  /** The tests: comparing the base table with itself gives no drift, with
      an opcode added upstream some drift is Added, and with one removed
      upstream some drift is Removed. */
  method ComparatorScenario() returns (same: seq<MessageTypeDrift>, added: seq<MessageTypeDrift>, removed: seq<MessageTypeDrift>)
    ensures same == []
    ensures exists d | d in added :: d.status == Added
    ensures exists d | d in removed :: d.status == Removed
  {
    var c := new ProtocolComparator();
    var base := c.baseMessageTypes;
    same := c.CompareMessageTypes(base);
    if same != [] {
      TypeDriftKinds(same[0].opcode, base, base);
    }
    assert 0x20 !in BaseMessageTypes;
    var withNew := base[0x20 := "NewType"];
    added := c.CompareMessageTypes(withNew);
    TypeDriftKinds(0x20, base, withNew);
    ComparisonReports(added, base, withNew, 0x20);
    var withoutFirst := base - {0x01};
    removed := c.CompareMessageTypes(withoutFirst);
    TypeDriftKinds(0x01, base, withoutFirst);
    ComparisonReports(removed, base, withoutFirst, 0x01);
  }
}
