// The legal scan result of crates/core/src/legal_scan.rs: the records a
// scan collects (DMCA notices, GPL violations, license headers, trademark
// usages, the firmware analysis) and the overall risk and distribution
// verdict that adding them moves.

module LegalScan {
  import opened Wrappers
  import opened Seqs
  import opened Text

  datatype LegalRisk = None | Low | Medium | High | Critical

  /** The rank `Ord for LegalRisk` compares. */
  function Rank(r: LegalRisk): (n: nat)
    ensures n <= 4
  {
    match r
    case None => 0
    case Low => 1
    case Medium => 2
    case High => 3
    case Critical => 4
  }

  predicate RiskLt(a: LegalRisk, b: LegalRisk)
  {
    Rank(a) < Rank(b)
  }

  predicate RiskLe(a: LegalRisk, b: LegalRisk)
  {
    Rank(a) <= Rank(b)
  }

  /** The order is total and strict on different levels, None < Low <
      Medium < High < Critical; Critical is the top and None the bottom. */
  lemma RiskOrderTotal(a: LegalRisk, b: LegalRisk)
    ensures a == b || RiskLt(a, b) || RiskLt(b, a)
    ensures !(RiskLt(a, b) && RiskLt(b, a))
    ensures RiskLe(a, Critical) && RiskLe(LegalRisk.None, a)
    ensures RiskLt(LegalRisk.None, Low) && RiskLt(Low, Medium) && RiskLt(Medium, High) && RiskLt(High, Critical)
  {
  }

  /** The greater of two levels, which `add_gpl_violation` keeps. */
  function MaxRisk(a: LegalRisk, b: LegalRisk): (r: LegalRisk)
    ensures RiskLe(a, r) && RiskLe(b, r)
    ensures r == a || r == b
  {
    if RiskLt(a, b) then b else a
  }

  datatype LicenseType = GPL3 | MIT | Apache2 | BSD | Proprietary | Unknown

  datatype LicenseHeader = LicenseHeader(
    filePath: string, hasHeader: bool, licenseType: LicenseType,
    year: Option<string>, author: Option<string>)

  datatype DmcaNotice = DmcaNotice(date: string, repository: string, reason: string, status: string)

  datatype GplViolation = GplViolation(file: string, violationType: string, description: string, severity: LegalRisk)

  datatype TrademarkUsage = TrademarkUsage(term: string, context: string, compliant: bool, reason: string)

  datatype FirmwareAnalysis = FirmwareAnalysis(
    isProprietary: bool, isNdaProtected: bool, isAppleFirmware: bool, riskLevel: LegalRisk)

  const CleanFirmware := FirmwareAnalysis(false, false, false, LegalRisk.None)

  /** The finding `add_trademark_usage` records for a non-compliant usage. */
  function TrademarkFinding(term: string): string
  {
    "Non-compliant trademark usage: " + term
  }

  /** A header that carries the project's GPL-3.0 notice. */
  predicate IsConsistent(h: LicenseHeader)
  {
    h.hasHeader && h.licenseType == GPL3
  }

  /** `get_license_consistency` in exact arithmetic: the percentage of
      consistent headers, 0 for no headers. */
  function LicenseConsistency(headers: seq<LicenseHeader>): (r: real)
    ensures 0.0 <= r <= 100.0
    ensures headers == [] ==> r == 0.0
  {
    if headers == [] then 0.0
    else
      var consistent := |Filter(headers, IsConsistent)|;
      ShareIsPercent(consistent as real, |headers| as real);
      (consistent as real / |headers| as real) * 100.0
  }

  lemma ShareIsPercent(part: real, whole: real)
    requires 0.0 <= part <= whole && whole > 0.0
    ensures 0.0 <= (part / whole) * 100.0 <= 100.0
  {
    assert part / whole <= 1.0;
  }

  /** All headers consistent gives 100%. */
  lemma AllConsistentIsFull(headers: seq<LicenseHeader>)
    requires headers != [] && forall i | 0 <= i < |headers| :: IsConsistent(headers[i])
    ensures LicenseConsistency(headers) == 100.0
  {
    FilterAll(headers, IsConsistent);
    WholeIsFull(|headers| as real);
  }

  lemma WholeIsFull(n: real)
    requires n > 0.0
    ensures (n / n) * 100.0 == 100.0
  {
    assert n / n == 1.0;
  }

  /** No consistent header gives 0%. */
  lemma NoneConsistentIsZero(headers: seq<LicenseHeader>)
    requires forall i | 0 <= i < |headers| :: !IsConsistent(headers[i])
    ensures LicenseConsistency(headers) == 0.0
  {
    FilterNone(headers, IsConsistent);
  }

  /** The result of a legal scan. No mutator lowers the overall risk or makes
      an unsafe result safe again: each one that touches them says so. */
  class LegalScanResult {
    var scanDate: string
    var dmcaNotices: seq<DmcaNotice>
    var gplViolations: seq<GplViolation>
    var licenseHeaders: seq<LicenseHeader>
    var trademarkUsage: seq<TrademarkUsage>
    var firmwareAnalysis: FirmwareAnalysis
    var overallRisk: LegalRisk
    var isSafeToDistribute: bool
    var findings: seq<string>
    var recommendations: seq<string>

    /** What the mutators keep: the result is unsafe exactly when the risk
        is Critical, and a critical issue always makes it unsafe. */
    ghost predicate Valid()
      reads this
    {
      && (isSafeToDistribute <==> overallRisk != Critical)
      && (HasCriticalIssues() ==> !isSafeToDistribute)
    }

    constructor ()
      ensures Valid()
      ensures scanDate == "2025-11-21T23:55:00Z"
      ensures dmcaNotices == [] && gplViolations == [] && licenseHeaders == [] && trademarkUsage == []
      ensures firmwareAnalysis == CleanFirmware && findings == [] && recommendations == []
      ensures overallRisk == LegalRisk.None && isSafeToDistribute
    {
      scanDate := "2025-11-21T23:55:00Z";
      dmcaNotices, gplViolations, licenseHeaders, trademarkUsage := [], [], [], [];
      firmwareAnalysis := CleanFirmware;
      overallRisk := LegalRisk.None;
      isSafeToDistribute := true;
      findings, recommendations := [], [];
    }

    /** `has_critical_issues`: a DMCA notice, a Critical GPL violation, or
        NDA-protected firmware. */
    predicate HasCriticalIssues()
      reads this
    {
      || |dmcaNotices| > 0
      || (exists i | 0 <= i < |gplViolations| :: gplViolations[i].severity == Critical)
      || firmwareAnalysis.isNdaProtected
    }

    method AddDmcaNotice(notice: DmcaNotice)
      requires Valid()
      modifies this
      ensures Valid()
      ensures dmcaNotices == old(dmcaNotices) + [notice]
      ensures overallRisk == Critical && !isSafeToDistribute && HasCriticalIssues()
      ensures RiskLe(old(overallRisk), overallRisk) && (old(!isSafeToDistribute) ==> !isSafeToDistribute)
      ensures unchanged(this`scanDate, this`gplViolations, this`licenseHeaders, this`trademarkUsage)
      ensures unchanged(this`firmwareAnalysis, this`findings, this`recommendations)
    {
      dmcaNotices := dmcaNotices + [notice];
      overallRisk := Critical;
      isSafeToDistribute := false;
    }

    method AddGplViolation(violation: GplViolation)
      requires Valid()
      modifies this
      ensures Valid()
      ensures gplViolations == old(gplViolations) + [violation]
      ensures overallRisk == MaxRisk(old(overallRisk), violation.severity)
      ensures isSafeToDistribute == (old(isSafeToDistribute) && violation.severity != Critical)
      ensures RiskLe(old(overallRisk), overallRisk) && (old(!isSafeToDistribute) ==> !isSafeToDistribute)
      ensures unchanged(this`scanDate, this`dmcaNotices, this`licenseHeaders, this`trademarkUsage)
      ensures unchanged(this`firmwareAnalysis, this`findings, this`recommendations)
    {
      var severity := violation.severity;
      if severity == Critical {
        isSafeToDistribute := false;
      }
      gplViolations := gplViolations + [violation];
      if RiskLt(overallRisk, severity) {
        overallRisk := severity;
      }
      assert gplViolations[|gplViolations| - 1] == violation;
      assert forall i | 0 <= i < |old(gplViolations)| :: gplViolations[i] == old(gplViolations)[i];
    }

    method AddLicenseHeader(header: LicenseHeader)
      modifies this
      ensures licenseHeaders == old(licenseHeaders) + [header]
      ensures unchanged(this`scanDate, this`dmcaNotices, this`gplViolations, this`trademarkUsage, this`firmwareAnalysis)
      ensures unchanged(this`overallRisk, this`isSafeToDistribute, this`findings, this`recommendations)
    {
      licenseHeaders := licenseHeaders + [header];
    }

    method AddTrademarkUsage(usage: TrademarkUsage)
      modifies this
      ensures trademarkUsage == old(trademarkUsage) + [usage]
      ensures findings == old(findings) + (if usage.compliant then [] else [TrademarkFinding(usage.term)])
      ensures unchanged(this`scanDate, this`dmcaNotices, this`gplViolations, this`licenseHeaders, this`firmwareAnalysis)
      ensures unchanged(this`overallRisk, this`isSafeToDistribute, this`recommendations)
    {
      if !usage.compliant {
        findings := findings + [TrademarkFinding(usage.term)];
      }
      trademarkUsage := trademarkUsage + [usage];
    }

    method SetFirmwareAnalysis(analysis: FirmwareAnalysis)
      requires Valid()
      modifies this
      ensures Valid()
      ensures firmwareAnalysis == analysis
      ensures analysis.isNdaProtected || analysis.isProprietary ==> overallRisk == Critical && !isSafeToDistribute
      ensures !(analysis.isNdaProtected || analysis.isProprietary) ==>
        overallRisk == old(overallRisk) && isSafeToDistribute == old(isSafeToDistribute)
      ensures RiskLe(old(overallRisk), overallRisk) && (old(!isSafeToDistribute) ==> !isSafeToDistribute)
      ensures unchanged(this`scanDate, this`dmcaNotices, this`gplViolations, this`licenseHeaders)
      ensures unchanged(this`trademarkUsage, this`findings, this`recommendations)
    {
      if analysis.isNdaProtected || analysis.isProprietary {
        isSafeToDistribute := false;
        overallRisk := Critical;
      }
      firmwareAnalysis := analysis;
    }

    method AddFinding(finding: string)
      modifies this
      ensures findings == old(findings) + [finding]
      ensures unchanged(this`scanDate, this`dmcaNotices, this`gplViolations, this`licenseHeaders, this`trademarkUsage)
      ensures unchanged(this`firmwareAnalysis, this`overallRisk, this`isSafeToDistribute, this`recommendations)
    {
      findings := findings + [finding];
    }

    method AddRecommendation(recommendation: string)
      modifies this
      ensures recommendations == old(recommendations) + [recommendation]
      ensures unchanged(this`scanDate, this`dmcaNotices, this`gplViolations, this`licenseHeaders, this`trademarkUsage)
      ensures unchanged(this`firmwareAnalysis, this`overallRisk, this`isSafeToDistribute, this`findings)
    {
      recommendations := recommendations + [recommendation];
    }

    function GetLicenseConsistency(): (r: real)
      reads this
      ensures 0.0 <= r <= 100.0
    {
      LicenseConsistency(licenseHeaders)
    }
  }

  // ---------------------------------------------------------------------
  // The unit tests of the module, as scenarios.

  /** A new result has risk None and is safe. */
  method CreationScenario() returns (risk: LegalRisk, safe: bool)
    ensures risk == LegalRisk.None && safe
  {
    var scan := new LegalScanResult();
    risk, safe := scan.overallRisk, scan.isSafeToDistribute;
  }

  /** A DMCA notice is recorded and makes the result Critical and unsafe. */
  method DmcaScenario() returns (notices: nat, risk: LegalRisk, safe: bool)
    ensures notices == 1 && risk == Critical && !safe
  {
    var scan := new LegalScanResult();
    scan.AddDmcaNotice(DmcaNotice("2025-11-21", "test/repo", "Copyright claim", "Active"));
    notices, risk, safe := |scan.dmcaNotices|, scan.overallRisk, scan.isSafeToDistribute;
  }

  /** Two GPL-3.0 headers are 100% consistent. */
  method LicenseConsistencyScenario() returns (consistency: real)
    ensures consistency == 100.0
  {
    var scan := new LegalScanResult();
    scan.AddLicenseHeader(LicenseHeader("file1.rs", true, GPL3, Some("2025"), Some("Test")));
    scan.AddLicenseHeader(LicenseHeader("file2.rs", true, GPL3, Some("2025"), Some("Test")));
    AllConsistentIsFull(scan.licenseHeaders);
    consistency := scan.GetLicenseConsistency();
  }

  /** A compliant trademark usage is recorded without a finding. */
  method TrademarkScenario() returns (usages: nat, findings: nat)
    ensures usages == 1 && findings == 0
  {
    var scan := new LegalScanResult();
    scan.AddTrademarkUsage(TrademarkUsage("AirPods", "Descriptive use", true, "Used descriptively only"));
    usages, findings := |scan.trademarkUsage|, |scan.findings|;
  }

  /** Clean firmware keeps the result safe; proprietary NDA firmware makes
      it Critical and unsafe. */
  method FirmwareScenario() returns (cleanSafe: bool, ndaRisk: LegalRisk, ndaSafe: bool)
    ensures cleanSafe && ndaRisk == Critical && !ndaSafe
  {
    var clean := new LegalScanResult();
    clean.SetFirmwareAnalysis(CleanFirmware);
    cleanSafe := clean.isSafeToDistribute;

    var nda := new LegalScanResult();
    nda.SetFirmwareAnalysis(FirmwareAnalysis(true, true, true, Critical));
    ndaRisk, ndaSafe := nda.overallRisk, nda.isSafeToDistribute;
  }

  /** A High violation is recorded, raises the risk to High and keeps the
      result safe. */
  method GplScenario() returns (violations: nat, risk: LegalRisk, safe: bool)
    ensures violations == 1 && risk == High && safe
  {
    var scan := new LegalScanResult();
    scan.AddGplViolation(GplViolation("test.rs", "Missing header", "GPL-3.0 header missing", High));
    violations, risk, safe := |scan.gplViolations|, scan.overallRisk, scan.isSafeToDistribute;
  }
}
