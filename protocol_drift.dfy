// The drift records and the `ProtocolDriftReport` of
// crates/core/src/protocol_drift.rs.

module ProtocolDrift {
  import opened Wrappers
  import opened Seqs

  datatype DriftStatus = Added | Modified | Deprecated | Removed | Unchanged

  datatype MessageTypeDrift = MessageTypeDrift(
    opcode: byte, name: string, status: DriftStatus,
    previousVersion: Option<string>, currentVersion: string, breakingChange: bool)

  datatype UuidDrift = UuidDrift(
    uuid: string, name: string, status: DriftStatus,
    deviceModels: seq<string>, breakingChange: bool)

  datatype FeatureDrift = FeatureDrift(
    featureName: string, status: DriftStatus,
    affectedModels: seq<string>, breakingChange: bool)

  datatype DriftSeverity = None | Minor | Moderate | Major | Critical

  /** The order of the variants. */
  function Rank(s: DriftSeverity): nat
  {
    match s
    case None => 0
    case Minor => 1
    case Moderate => 2
    case Major => 3
    case Critical => 4
  }

  /** The rule of `update_severity`; each `add_*_drift` assigns it to
      `drift_severity` after updating the counters. */
  function Severity(breaking: nat, total: nat): DriftSeverity
  {
    if breaking > 3 then Critical
    else if breaking > 1 then Major
    else if total > 5 then Moderate
    else if total > 0 then Minor
    else DriftSeverity.None
  }

  /** More changes never give a lower severity. */
  lemma SeverityMonotone(b1: nat, t1: nat, b2: nat, t2: nat)
    requires b1 <= b2 && t1 <= t2
    ensures Rank(Severity(b1, t1)) <= Rank(Severity(b2, t2))
  {
  }

  /** With no more breaking changes than changes, the severity is None
      exactly when there is no change, and Critical or Major exactly when
      there are at least two breaking changes. */
  lemma SeverityLevels(b: nat, t: nat)
    requires b <= t
    ensures Severity(b, t) == DriftSeverity.None <==> t == 0
    ensures Rank(Severity(b, t)) >= Rank(Major) <==> b >= 2
    ensures Severity(b, t) == Moderate <==> b <= 1 && t >= 6
  {
  }

  predicate MessageBreaking(d: MessageTypeDrift) { d.breakingChange }
  predicate UuidBreaking(d: UuidDrift) { d.breakingChange }
  predicate FeatureBreaking(d: FeatureDrift) { d.breakingChange }

  class ProtocolDriftReport {
    var scanDate: string
    var baseVersion: string
    var upstreamVersion: string
    var messageTypeDrifts: seq<MessageTypeDrift>
    var uuidDrifts: seq<UuidDrift>
    var featureDrifts: seq<FeatureDrift>
    var totalChanges: nat
    var breakingChanges: nat
    var hasDrift: bool
    var driftSeverity: DriftSeverity
    var recommendations: seq<string>

    /** The number of breaking drifts in the three lists. */
    function BreakingCount(): nat
      reads this
    {
      |Filter(messageTypeDrifts, MessageBreaking)| + |Filter(uuidDrifts, UuidBreaking)| +
      |Filter(featureDrifts, FeatureBreaking)|
    }

    /** The counters describe the lists and the severity follows the rule. */
    ghost predicate Valid()
      reads this
    {
      totalChanges == |messageTypeDrifts| + |uuidDrifts| + |featureDrifts| &&
      breakingChanges == BreakingCount() &&
      (hasDrift <==> totalChanges > 0) &&
      driftSeverity == Severity(breakingChanges, totalChanges)
    }

    /** The breaking count never exceeds the total. */
    lemma BreakingAtMostTotal()
      requires Valid()
      ensures breakingChanges <= totalChanges
    {
    }

    constructor (baseVersion: string, upstreamVersion: string)
      ensures Valid()
      ensures this.baseVersion == baseVersion && this.upstreamVersion == upstreamVersion
      ensures scanDate == "2025-11-21T23:55:00Z"
      ensures messageTypeDrifts == [] && uuidDrifts == [] && featureDrifts == []
      ensures totalChanges == 0 && breakingChanges == 0 && !hasDrift
      ensures driftSeverity == DriftSeverity.None && recommendations == []
    {
      scanDate := "2025-11-21T23:55:00Z";
      this.baseVersion := baseVersion;
      this.upstreamVersion := upstreamVersion;
      messageTypeDrifts, uuidDrifts, featureDrifts := [], [], [];
      totalChanges, breakingChanges := 0, 0;
      hasDrift := false;
      driftSeverity := DriftSeverity.None;
      recommendations := [];
    }

    method AddMessageTypeDrift(d: MessageTypeDrift)
      requires Valid()
      modifies this`messageTypeDrifts, this`totalChanges, this`breakingChanges, this`hasDrift, this`driftSeverity
      ensures Valid()
      ensures messageTypeDrifts == old(messageTypeDrifts) + [d]
      ensures totalChanges == old(totalChanges) + 1
      ensures breakingChanges == old(breakingChanges) + (if d.breakingChange then 1 else 0)
      ensures hasDrift
      ensures Rank(old(driftSeverity)) <= Rank(driftSeverity)
    {
      FilterSnoc(messageTypeDrifts, d, MessageBreaking);
      if d.breakingChange {
        breakingChanges := breakingChanges + 1;
      }
      totalChanges := totalChanges + 1;
      messageTypeDrifts := messageTypeDrifts + [d];
      hasDrift := true;
      SeverityMonotone(old(breakingChanges), old(totalChanges), breakingChanges, totalChanges);
      driftSeverity := Severity(breakingChanges, totalChanges);
    }

    method AddUuidDrift(d: UuidDrift)
      requires Valid()
      modifies this`uuidDrifts, this`totalChanges, this`breakingChanges, this`hasDrift, this`driftSeverity
      ensures Valid()
      ensures uuidDrifts == old(uuidDrifts) + [d]
      ensures totalChanges == old(totalChanges) + 1
      ensures breakingChanges == old(breakingChanges) + (if d.breakingChange then 1 else 0)
      ensures hasDrift
      ensures Rank(old(driftSeverity)) <= Rank(driftSeverity)
    {
      FilterSnoc(uuidDrifts, d, UuidBreaking);
      if d.breakingChange {
        breakingChanges := breakingChanges + 1;
      }
      totalChanges := totalChanges + 1;
      uuidDrifts := uuidDrifts + [d];
      hasDrift := true;
      SeverityMonotone(old(breakingChanges), old(totalChanges), breakingChanges, totalChanges);
      driftSeverity := Severity(breakingChanges, totalChanges);
    }

    method AddFeatureDrift(d: FeatureDrift)
      requires Valid()
      modifies this`featureDrifts, this`totalChanges, this`breakingChanges, this`hasDrift, this`driftSeverity
      ensures Valid()
      ensures featureDrifts == old(featureDrifts) + [d]
      ensures totalChanges == old(totalChanges) + 1
      ensures breakingChanges == old(breakingChanges) + (if d.breakingChange then 1 else 0)
      ensures hasDrift
      ensures Rank(old(driftSeverity)) <= Rank(driftSeverity)
    {
      FilterSnoc(featureDrifts, d, FeatureBreaking);
      if d.breakingChange {
        breakingChanges := breakingChanges + 1;
      }
      totalChanges := totalChanges + 1;
      featureDrifts := featureDrifts + [d];
      hasDrift := true;
      SeverityMonotone(old(breakingChanges), old(totalChanges), breakingChanges, totalChanges);
      driftSeverity := Severity(breakingChanges, totalChanges);
    }

    method AddRecommendation(r: string)
      requires Valid()
      modifies this`recommendations
      ensures Valid()
      ensures recommendations == old(recommendations) + [r]
    {
      recommendations := recommendations + [r];
    }
  }

  /** The inline severity test adds five non-breaking drifts and expects
      `Moderate`; the rule gives `Minor`, since Moderate needs more than five. */
  method FiveNonBreakingScenario() returns (total: nat, severity: DriftSeverity)
    ensures total == 5 && severity == Minor
  {
    var report := new ProtocolDriftReport("1.0.0", "1.0.1");
    var i := 0;
    while i < 5
      invariant 0 <= i <= 5
      invariant report.Valid()
      invariant report.totalChanges == i && report.breakingChanges == 0
    {
      report.AddMessageTypeDrift(MessageTypeDrift(i, "Type", Added, Option.None, "1.0.1", false));
      i := i + 1;
    }
    total, severity := report.totalChanges, report.driftSeverity;
  }

  /** The other inline tests: a new report has no drift; one added drift
      makes one change; one breaking drift counts as breaking. */
  method ReportScenario() returns (fresh0: bool, total: nat, breaking: nat)
    ensures !fresh0 && total == 1 && breaking == 1
  {
    var report := new ProtocolDriftReport("1.0.0", "1.0.1");
    fresh0 := report.hasDrift;
    report.AddMessageTypeDrift(MessageTypeDrift(0x10, "RemovedType", Removed, Some("1.0.0"), "1.0.1", true));
    total, breaking := report.totalChanges, report.breakingChanges;
  }
}
