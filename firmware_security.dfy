// The firmware security analyzer of crates/core/src/firmware_security.rs:
// keyword lists that mark firmware as Apple's, NDA-protected or
// proprietary, the analysis and risk level they give, the file-extension
// rule for binary images, and the distribution verdict and assessment.

module FirmwareSecurity {
  import opened Text
  import opened LegalScan

  /** The three keyword lists; `new` fills them and nothing changes them. */
  datatype FirmwareSecurityAnalyzer = FirmwareSecurityAnalyzer(
    appleFirmwareSignatures: seq<string>, ndaKeywords: seq<string>, proprietaryIndicators: seq<string>)

  const NewAnalyzer := FirmwareSecurityAnalyzer(
    ["Apple", "Copyright Apple", "Apple Inc.", "Proprietary", "Confidential"],
    ["NDA", "Non-Disclosure", "Confidential", "Trade Secret", "Restricted"],
    ["Proprietary", "Closed Source", "License Required", "Commercial"])

  /** The risk an analysis with these flags is given: NDA or proprietary
      firmware is Critical, other Apple firmware High, the rest None. */
  function RiskOf(isNda: bool, isProprietary: bool, isApple: bool): (r: LegalRisk)
    ensures r == Critical <==> isNda || isProprietary
    ensures r == High <==> !isNda && !isProprietary && isApple
    ensures r == LegalRisk.None <==> !isNda && !isProprietary && !isApple
  {
    if isNda || isProprietary then Critical
    else if isApple then High
    else LegalRisk.None
  }

  /** `analyze_firmware`: each flag is set when the data contains one of
      its keywords (case-sensitively). */
  function AnalyzeFirmware(a: FirmwareSecurityAnalyzer, data: string): (r: FirmwareAnalysis)
    ensures r.isAppleFirmware <==> exists k | 0 <= k < |a.appleFirmwareSignatures| :: Contains(data, a.appleFirmwareSignatures[k])
    ensures r.isNdaProtected <==> exists k | 0 <= k < |a.ndaKeywords| :: Contains(data, a.ndaKeywords[k])
    ensures r.isProprietary <==> exists k | 0 <= k < |a.proprietaryIndicators| :: Contains(data, a.proprietaryIndicators[k])
    ensures r.riskLevel == RiskOf(r.isNdaProtected, r.isProprietary, r.isAppleFirmware)
  {
    var isApple := ContainsAny(data, a.appleFirmwareSignatures);
    var isNda := ContainsAny(data, a.ndaKeywords);
    var isProprietary := ContainsAny(data, a.proprietaryIndicators);
    FirmwareAnalysis(isProprietary, isNda, isApple, RiskOf(isNda, isProprietary, isApple))
  }

  /** `is_safe_to_distribute`: none of the three flags is set. */
  predicate IsSafeToDistribute(analysis: FirmwareAnalysis)
  {
    !analysis.isNdaProtected && !analysis.isProprietary && !analysis.isAppleFirmware
  }

  /** `get_risk_assessment`. */
  function GetRiskAssessment(analysis: FirmwareAnalysis): (s: string)
    ensures StartsWith(s, "CRITICAL") <==> analysis.isNdaProtected || analysis.isProprietary
    ensures StartsWith(s, "HIGH") <==> !analysis.isNdaProtected && !analysis.isProprietary && analysis.isAppleFirmware
    ensures StartsWith(s, "SAFE") <==> IsSafeToDistribute(analysis)
    ensures analysis.isNdaProtected ==> s == "CRITICAL" + ": NDA-protected firmware detected"
  {
    if analysis.isNdaProtected then Tagged("CRITICAL", ": NDA-protected firmware detected", "HIGH", "SAFE")
    else if analysis.isProprietary then Tagged("CRITICAL", ": Proprietary firmware detected", "HIGH", "SAFE")
    else if analysis.isAppleFirmware then Tagged("HIGH", ": Apple firmware detected", "CRITICAL", "SAFE")
    else Tagged("SAFE", ": No proprietary firmware detected", "CRITICAL", "HIGH")
  }

  /** A tag and its message, which starts with the tag and with neither of
      two tags that begin with other letters. */
  function Tagged(tag: string, message: string, other1: string, other2: string): (r: string)
    requires tag != [] && other1 != [] && other2 != []
    requires tag[0] != other1[0] && tag[0] != other2[0]
    ensures r == tag + message
    ensures StartsWith(r, tag) && !StartsWith(r, other1) && !StartsWith(r, other2)
  {
    var r := tag + message;
    assert r[..|tag|] == tag;
    assert |other1| <= |r| ==> r[..|other1|][0] == tag[0];
    assert |other2| <= |r| ==> r[..|other2|][0] == tag[0];
    r
  }

  /** For an analysis of content, the risk level, the distribution verdict
      and the assessment agree: safe exactly at risk None, and the
      assessment names the risk level. */
  lemma AnalysisIsConsistent(a: FirmwareSecurityAnalyzer, data: string)
    ensures var r := AnalyzeFirmware(a, data);
      (IsSafeToDistribute(r) <==> r.riskLevel == LegalRisk.None) &&
      (StartsWith(GetRiskAssessment(r), "CRITICAL") <==> r.riskLevel == Critical) &&
      (StartsWith(GetRiskAssessment(r), "HIGH") <==> r.riskLevel == High) &&
      (StartsWith(GetRiskAssessment(r), "SAFE") <==> r.riskLevel == LegalRisk.None)
  {
  }

  /** "Proprietary" is both an Apple signature and a proprietary indicator,
      and "Confidential" both an Apple signature and an NDA keyword, so data
      with either is also flagged as Apple firmware. */
  lemma SharedKeywords(data: string)
    ensures Contains(data, "Proprietary") ==>
      AnalyzeFirmware(NewAnalyzer, data).isProprietary && AnalyzeFirmware(NewAnalyzer, data).isAppleFirmware
    ensures Contains(data, "Confidential") ==>
      AnalyzeFirmware(NewAnalyzer, data).isNdaProtected && AnalyzeFirmware(NewAnalyzer, data).isAppleFirmware
  {
    assert NewAnalyzer.appleFirmwareSignatures[3] == "Proprietary";
    assert NewAnalyzer.proprietaryIndicators[0] == "Proprietary";
    assert NewAnalyzer.appleFirmwareSignatures[4] == "Confidential";
    assert NewAnalyzer.ndaKeywords[2] == "Confidential";
  }

  predicate IsFirmwareImagePath(path: string)
  {
    EndsWith(path, ".bin") || EndsWith(path, ".hex")
  }

  /** `check_firmware_file`: the content's analysis, with the proprietary
      flag forced on for ".bin" and ".hex" paths; the risk level stays the
      one the content gave. */
  function CheckFirmwareFile(a: FirmwareSecurityAnalyzer, filePath: string, content: string): (r: FirmwareAnalysis)
    ensures var c := AnalyzeFirmware(a, content);
      r.isProprietary == (c.isProprietary || IsFirmwareImagePath(filePath)) &&
      r.isNdaProtected == c.isNdaProtected && r.isAppleFirmware == c.isAppleFirmware &&
      r.riskLevel == c.riskLevel
  {
    var analysis := AnalyzeFirmware(a, content);
    if IsFirmwareImagePath(filePath) then analysis.(isProprietary := true) else analysis
  }

  /** A ".bin" image with clean content is proprietary, unsafe and
      assessed CRITICAL while its risk level stays None. */
  lemma ImageKeepsContentRisk(a: FirmwareSecurityAnalyzer, filePath: string, content: string)
    requires IsFirmwareImagePath(filePath)
    requires IsSafeToDistribute(AnalyzeFirmware(a, content))
    ensures var r := CheckFirmwareFile(a, filePath, content);
      r.isProprietary && !IsSafeToDistribute(r) && r.riskLevel == LegalRisk.None &&
      StartsWith(GetRiskAssessment(r), "CRITICAL")
  {
  }

  /** `scan_firmware_bundle`: `check_firmware_file` on each (path, content)
      pair, in order. */
  function ScanFirmwareBundle(a: FirmwareSecurityAnalyzer, files: seq<(string, string)>): (r: seq<FirmwareAnalysis>)
    ensures |r| == |files|
    ensures forall i | 0 <= i < |files| :: r[i] == CheckFirmwareFile(a, files[i].0, files[i].1)
    decreases |files|
  {
    if files == [] then []
    else
      var last := files[|files| - 1];
      ScanFirmwareBundle(a, files[..|files| - 1]) + [CheckFirmwareFile(a, last.0, last.1)]
  }

  /** Scanning two bundles one after the other is scanning them joined. */
  lemma {:induction false} ScanBundleAppend(a: FirmwareSecurityAnalyzer, xs: seq<(string, string)>, ys: seq<(string, string)>)
    ensures ScanFirmwareBundle(a, xs + ys) == ScanFirmwareBundle(a, xs) + ScanFirmwareBundle(a, ys)
  {
    var l := ScanFirmwareBundle(a, xs + ys);
    var r := ScanFirmwareBundle(a, xs) + ScanFirmwareBundle(a, ys);
    assert |l| == |r|;
    forall i | 0 <= i < |l|
      ensures l[i] == r[i]
    {
      if i >= |xs| {
        assert (xs + ys)[i] == ys[i - |xs|];
      } else {
        assert (xs + ys)[i] == xs[i];
      }
    }
  }

  // ---------------------------------------------------------------------
  // The unit tests of the module, as scenarios.

  lemma AppleDataDetected(data: string)
    requires data == "Copyright Apple Inc. 2025"
    ensures AnalyzeFirmware(NewAnalyzer, data).isAppleFirmware
  {
    assert StartsWith(data, NewAnalyzer.appleFirmwareSignatures[1]);
  }

  lemma NdaDataDetected(data: string)
    requires data == "This is NDA protected material"
    ensures AnalyzeFirmware(NewAnalyzer, data).isNdaProtected
  {
    assert NewAnalyzer.ndaKeywords[0] == "NDA";
    ContainsByChars(data, "NDA", 8);
  }

  lemma ProprietaryDataDetected(data: string)
    requires data == "Proprietary firmware code"
    ensures AnalyzeFirmware(NewAnalyzer, data).isProprietary
  {
    assert StartsWith(data, NewAnalyzer.proprietaryIndicators[0]);
  }

  /** "Normal firmware data" has none of the keywords: each misses a
      letter the data lacks. */
  lemma NormalDataIsNotApple(data: string)
    requires data == "Normal firmware data"
    ensures !ContainsAny(data, NewAnalyzer.appleFirmwareSignatures)
  {
    NoneContainedByMissingChars(data, NewAnalyzer.appleFirmwareSignatures, "ACAPC");
  }

  lemma NormalDataIsNotNda(data: string)
    requires data == "Normal firmware data"
    ensures !ContainsAny(data, NewAnalyzer.ndaKeywords)
  {
    NoneContainedByMissingChars(data, NewAnalyzer.ndaKeywords, "DDCTR");
  }

  lemma NormalDataIsNotProprietary(data: string)
    requires data == "Normal firmware data"
    ensures !ContainsAny(data, NewAnalyzer.proprietaryIndicators)
  {
    NoneContainedByMissingChars(data, NewAnalyzer.proprietaryIndicators, "PCLC");
  }

  /** The analysis of "Normal firmware data" has no flag set. */
  lemma NormalDataIsClean()
    ensures IsSafeToDistribute(AnalyzeFirmware(NewAnalyzer, "Normal firmware data"))
    ensures AnalyzeFirmware(NewAnalyzer, "Normal firmware data").riskLevel == LegalRisk.None
  {
    NormalDataIsNotApple("Normal firmware data");
    NormalDataIsNotNda("Normal firmware data");
    NormalDataIsNotProprietary("Normal firmware data");
  }

  /** A proprietary indicator that is no Apple signature: "Closed Source"
      is proprietary without being Apple firmware. */
  lemma ClosedSourceIsNotApple(data: string)
    requires data == "Closed Source"
    ensures AnalyzeFirmware(NewAnalyzer, data).isProprietary
    ensures !AnalyzeFirmware(NewAnalyzer, data).isAppleFirmware
  {
    assert StartsWith(data, NewAnalyzer.proprietaryIndicators[1]);
    assert !ContainsAny(data, NewAnalyzer.appleFirmwareSignatures) by {
      NoneContainedByMissingChars(data, NewAnalyzer.appleFirmwareSignatures, "AAAPf");
    }
  }

  /** The module's tests: clean analyses are safe, proprietary ones are
      not, and NDA firmware is assessed CRITICAL. */
  lemma VerdictScenario()
    ensures IsSafeToDistribute(FirmwareAnalysis(false, false, false, LegalRisk.None))
    ensures !IsSafeToDistribute(FirmwareAnalysis(true, false, false, Critical))
    ensures Contains(GetRiskAssessment(FirmwareAnalysis(false, true, false, Critical)), "CRITICAL")
  {
    var s := GetRiskAssessment(FirmwareAnalysis(false, true, false, Critical));
    assert StartsWith(s, "CRITICAL");
  }
}
