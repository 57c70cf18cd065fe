// The coverage analysis of crates/core/src/coverage_analyzer.rs: per-file
// line, branch and function counts, reports that add them up, and an
// analyzer that keeps reports by id.

module CoverageAnalyzer {
  import opened Wrappers
  import opened Seqs

  datatype CoverageMetrics = CoverageMetrics(
    filePath: string, linesTotal: nat, linesCovered: nat, branchesTotal: nat,
    branchesCovered: nat, functionsTotal: nat, functionsCovered: nat)

  datatype CoverageReport = CoverageReport(
    reportId: string, timestamp: string, metrics: seq<CoverageMetrics>,
    totalLines: nat, totalLinesCovered: nat, totalBranches: nat,
    totalBranchesCovered: nat, totalFunctions: nat, totalFunctionsCovered: nat)

  const Timestamp: string := "2025-11-21T00:00:00Z"

  /** covered over total in percent, 0 when there is nothing to cover. */
  function Percent(covered: nat, total: nat): (r: real)
    ensures total == 0 || covered == 0 ==> r == 0.0
    ensures total > 0 && covered == total ==> r == 100.0
    ensures covered <= total ==> 0.0 <= r <= 100.0
    ensures r >= 0.0
  {
    if total == 0 then 0.0 else covered as real / total as real * 100.0
  }

  /** The mean of the three coverage figures, as `get_overall_coverage`
      takes it: an unweighted mean, so a kind with nothing to cover counts
      as 0. */
  function Mean(line: real, branch: real, func: real): (r: real)
    ensures 0.0 <= line <= 100.0 && 0.0 <= branch <= 100.0 && 0.0 <= func <= 100.0 ==> 0.0 <= r <= 100.0
    ensures line == branch == func ==> r == line
  {
    (line + branch + func) / 3.0
  }

  function LineCoverage(m: CoverageMetrics): real { Percent(m.linesCovered, m.linesTotal) }
  function BranchCoverage(m: CoverageMetrics): real { Percent(m.branchesCovered, m.branchesTotal) }
  function FunctionCoverage(m: CoverageMetrics): real { Percent(m.functionsCovered, m.functionsTotal) }

  /** `CoverageMetrics::get_overall_coverage`. */
  function OverallCoverage(m: CoverageMetrics): (r: real)
    ensures Sane(m) ==> 0.0 <= r <= 100.0
    ensures m.linesTotal == 0 && m.branchesTotal == 0 && m.functionsTotal == 0 ==> r == 0.0
    ensures r >= 0.0
  {
    Mean(LineCoverage(m), BranchCoverage(m), FunctionCoverage(m))
  }

  function LinesOf(m: CoverageMetrics): nat { m.linesTotal }
  function LinesCoveredOf(m: CoverageMetrics): nat { m.linesCovered }
  function BranchesOf(m: CoverageMetrics): nat { m.branchesTotal }
  function BranchesCoveredOf(m: CoverageMetrics): nat { m.branchesCovered }
  function FunctionsOf(m: CoverageMetrics): nat { m.functionsTotal }
  function FunctionsCoveredOf(m: CoverageMetrics): nat { m.functionsCovered }

  /** Each total of a report is the sum of its field over the metrics. */
  predicate Consistent(report: CoverageReport)
  {
    report.totalLines == SumOf(report.metrics, LinesOf) &&
    report.totalLinesCovered == SumOf(report.metrics, LinesCoveredOf) &&
    report.totalBranches == SumOf(report.metrics, BranchesOf) &&
    report.totalBranchesCovered == SumOf(report.metrics, BranchesCoveredOf) &&
    report.totalFunctions == SumOf(report.metrics, FunctionsOf) &&
    report.totalFunctionsCovered == SumOf(report.metrics, FunctionsCoveredOf)
  }

  /** `CoverageReport::new`: no metrics and all six totals zero. */
  function NewReport(reportId: string): (r: CoverageReport)
    ensures Consistent(r) && r.metrics == [] && r.reportId == reportId && r.timestamp == Timestamp
    ensures r.totalLines == 0 && r.totalLinesCovered == 0 && r.totalBranches == 0
    ensures r.totalBranchesCovered == 0 && r.totalFunctions == 0 && r.totalFunctionsCovered == 0
  {
    CoverageReport(reportId, Timestamp, [], 0, 0, 0, 0, 0, 0)
  }

  /** `CoverageReport::add_metrics`: appends the metrics and adds each of
      its six counts to the matching total. */
  function AddMetrics(report: CoverageReport, m: CoverageMetrics): (r: CoverageReport)
    ensures Consistent(report) ==> Consistent(r)
    ensures r.metrics == report.metrics + [m] && r.reportId == report.reportId && r.timestamp == report.timestamp
    ensures r.totalLines == report.totalLines + m.linesTotal
    ensures r.totalLinesCovered == report.totalLinesCovered + m.linesCovered
    ensures r.totalBranches == report.totalBranches + m.branchesTotal
    ensures r.totalBranchesCovered == report.totalBranchesCovered + m.branchesCovered
    ensures r.totalFunctions == report.totalFunctions + m.functionsTotal
    ensures r.totalFunctionsCovered == report.totalFunctionsCovered + m.functionsCovered
  {
    SumOfSnoc(report.metrics, m, LinesOf);
    SumOfSnoc(report.metrics, m, LinesCoveredOf);
    SumOfSnoc(report.metrics, m, BranchesOf);
    SumOfSnoc(report.metrics, m, BranchesCoveredOf);
    SumOfSnoc(report.metrics, m, FunctionsOf);
    SumOfSnoc(report.metrics, m, FunctionsCoveredOf);
    report.(totalLines := report.totalLines + m.linesTotal,
            totalLinesCovered := report.totalLinesCovered + m.linesCovered,
            totalBranches := report.totalBranches + m.branchesTotal,
            totalBranchesCovered := report.totalBranchesCovered + m.branchesCovered,
            totalFunctions := report.totalFunctions + m.functionsTotal,
            totalFunctionsCovered := report.totalFunctionsCovered + m.functionsCovered,
            metrics := report.metrics + [m])
  }

  /** Metrics that never cover more than they count. */
  predicate Sane(m: CoverageMetrics)
  {
    m.linesCovered <= m.linesTotal && m.branchesCovered <= m.branchesTotal && m.functionsCovered <= m.functionsTotal
  }

  /** Summing sane metrics keeps every covered total within its total. */
  lemma {:induction false} CoveredWithinTotals(ms: seq<CoverageMetrics>)
    requires forall i | 0 <= i < |ms| :: Sane(ms[i])
    ensures SumOf(ms, LinesCoveredOf) <= SumOf(ms, LinesOf)
    ensures SumOf(ms, BranchesCoveredOf) <= SumOf(ms, BranchesOf)
    ensures SumOf(ms, FunctionsCoveredOf) <= SumOf(ms, FunctionsOf)
    decreases |ms|
  {
    if ms != [] {
      var front := ms[..|ms| - 1];
      assert forall i | 0 <= i < |front| :: front[i] == ms[i];
      CoveredWithinTotals(front);
      assert Sane(ms[|ms| - 1]);
    }
  }

  function ReportLineCoverage(r: CoverageReport): real { Percent(r.totalLinesCovered, r.totalLines) }
  function ReportBranchCoverage(r: CoverageReport): real { Percent(r.totalBranchesCovered, r.totalBranches) }
  function ReportFunctionCoverage(r: CoverageReport): real { Percent(r.totalFunctionsCovered, r.totalFunctions) }

  /** `CoverageReport::get_overall_coverage`: the mean of the report's
      three figures, each over the summed counts. */
  function ReportOverallCoverage(r: CoverageReport): (c: real)
    ensures c >= 0.0
  {
    Mean(ReportLineCoverage(r), ReportBranchCoverage(r), ReportFunctionCoverage(r))
  }

  /** A consistent report of sane metrics has an overall coverage between
      0 and 100. */
  lemma ReportCoverageBounded(r: CoverageReport)
    requires Consistent(r) && forall i | 0 <= i < |r.metrics| :: Sane(r.metrics[i])
    ensures 0.0 <= ReportOverallCoverage(r) <= 100.0
  {
    CoveredWithinTotals(r.metrics);
  }

  function Below(threshold: real): CoverageMetrics -> bool
  {
    (m: CoverageMetrics) => OverallCoverage(m) < threshold
  }

  /** `get_files_below_threshold`: the metrics whose own overall coverage
      is under the threshold, in order. */
  function FilesBelowThreshold(r: CoverageReport, threshold: real): (files: seq<CoverageMetrics>)
    ensures forall m :: m in files <==> m in r.metrics && OverallCoverage(m) < threshold
    ensures threshold <= 0.0 ==> files == []
  {
    FilterMembersAll(r.metrics, Below(threshold));
    FilterKeepsAll(r.metrics, Below(threshold));
    Filter(r.metrics, Below(threshold))
  }

  class Analyzer {
    var reports: map<string, CoverageReport>

    /** Every report is stored under its own id with consistent totals. */
    predicate Valid()
      reads this
    {
      forall id | id in reports :: reports[id].reportId == id && Consistent(reports[id])
    }

    constructor ()
      ensures Valid() && reports == map[]
    {
      reports := map[];
    }

    /** `create_report`: a new report under the id, replacing any report
        already there. */
    method CreateReport(reportId: string) returns (report: CoverageReport)
      modifies this
      ensures report == NewReport(reportId)
      ensures reports == old(reports)[reportId := report]
      ensures old(Valid()) ==> Valid()
    {
      report := NewReport(reportId);
      reports := reports[reportId := report];
    }

    /** `get_report`. */
    function GetReport(reportId: string): (r: Option<CoverageReport>)
      reads this
      ensures r.Some? <==> reportId in reports
      ensures r.Some? ==> r.value == reports[reportId]
    {
      if reportId in reports then Some(reports[reportId]) else None
    }

    /** `CoverageAnalyzer::add_metrics`: adds the metrics to an existing
        report, nothing for an unknown id. */
    method AddMetricsTo(reportId: string, m: CoverageMetrics)
      modifies this
      ensures reportId !in old(reports) ==> reports == old(reports)
      ensures reportId in old(reports) ==> reports == old(reports)[reportId := AddMetrics(old(reports)[reportId], m)]
      ensures old(Valid()) ==> Valid()
    {
      if reportId in reports {
        reports := reports[reportId := AddMetrics(reports[reportId], m)];
      }
    }

    /** `is_coverage_sufficient`: the report's overall coverage reaches the
        threshold; false for an unknown id. */
    function IsCoverageSufficient(reportId: string, threshold: real): (ok: bool)
      reads this
      ensures ok <==> reportId in reports && ReportOverallCoverage(reports[reportId]) >= threshold
      ensures reportId in reports && threshold <= 0.0 ==> ok
    {
      match GetReport(reportId)
      case None => false
      case Some(report) => ReportOverallCoverage(report) >= threshold
    }
  }

  // ---------------------------------------------------------------------
  // The unit tests of the module, as scenarios.

  /** 80 of 100 lines, 40 of 50 branches and 9 of 10 functions: 80, 80
      and 90 percent. */
  lemma MetricsScenario()
    ensures var m := CoverageMetrics("test.rs", 100, 80, 50, 40, 10, 9);
            LineCoverage(m) == 80.0 && BranchCoverage(m) == 80.0 && FunctionCoverage(m) == 90.0
  {
  }

  const Covered85: CoverageMetrics := CoverageMetrics("test.rs", 100, 85, 50, 40, 10, 9)

  /** 85, 80 and 90 percent give 85 percent overall. */
  lemma Covered85Overall()
    ensures ReportOverallCoverage(AddMetrics(NewReport("report-1"), Covered85)) == 85.0
  {
    var r := AddMetrics(NewReport("report-1"), Covered85);
    assert ReportLineCoverage(r) == 85.0;
    assert ReportBranchCoverage(r) == 80.0;
    assert ReportFunctionCoverage(r) == 90.0;
  }

  /** With 85 of 100 lines covered the report reaches 85 percent overall,
      enough for a threshold of 80; an unknown report is never enough. */
  method AnalyzerScenario() returns (sufficient: bool, unknown: bool)
    ensures sufficient && !unknown
  {
    var analyzer := new Analyzer();
    var created := analyzer.CreateReport("report-1");
    analyzer.AddMetricsTo("report-1", Covered85);
    assert analyzer.reports == map["report-1" := AddMetrics(created, Covered85)];
    Covered85Overall();
    sufficient := analyzer.IsCoverageSufficient("report-1", 80.0);
    unknown := analyzer.IsCoverageSufficient("report-2", 0.0);
  }
}
