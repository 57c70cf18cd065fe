// The verification reports of crates/core/src/verification.rs: a report
// collects test results with pass and fail counters, a build status and a
// coverage figure; the verifier keeps reports by id.

module Verification {
  import opened Wrappers
  import opened Seqs

  datatype TestType = Unit | Integration | Build | Lint | Coverage | Security

  datatype BuildStatus = Success | Warning | Failure

  datatype VerificationResult = VerificationResult(
    testName: string, testType: TestType, passed: bool, durationMs: nat,
    errorMessage: Option<string>, timestamp: string)

  datatype VerificationReport = VerificationReport(
    reportId: string, sprintId: string, results: seq<VerificationResult>,
    totalTests: nat, passedTests: nat, failedTests: nat,
    buildStatus: BuildStatus, coveragePercentage: real, securityIssues: nat)

  const Timestamp: string := "2025-11-21T00:00:00Z"

  function Passed(): VerificationResult -> bool
  {
    (r: VerificationResult) => r.passed
  }

  function OfType(t: TestType): VerificationResult -> bool
  {
    (r: VerificationResult) => r.testType == t
  }

  /** The counters of a report are those of its result list. */
  predicate Consistent(report: VerificationReport)
  {
    report.totalTests == |report.results| &&
    report.passedTests == |Filter(report.results, Passed())| &&
    report.failedTests == |Filter(report.results, Not(Passed()))|
  }

  /** `VerificationReport::new`: no results, a successful build, no
      coverage and no security issues; such a report counts as all
      passed. */
  function NewReport(reportId: string, sprintId: string): (r: VerificationReport)
    ensures Consistent(r) && IsAllPassed(r)
    ensures r.reportId == reportId && r.sprintId == sprintId && r.results == []
    ensures r.buildStatus == Success && r.coveragePercentage == 0.0 && r.securityIssues == 0
  {
    VerificationReport(reportId, sprintId, [], 0, 0, 0, Success, 0.0, 0)
  }

  /** `add_result`: appends the result and counts it in the total and in
      exactly one of the passed and failed counters. */
  function AddResult(report: VerificationReport, result: VerificationResult): (r: VerificationReport)
    ensures Consistent(report) ==> Consistent(r)
    ensures r.results == report.results + [result] && r.totalTests == report.totalTests + 1
    ensures r.passedTests + r.failedTests == report.passedTests + report.failedTests + 1
    ensures result.passed ==> r.passedTests == report.passedTests + 1 && r.failedTests == report.failedTests
    ensures !result.passed ==> r.failedTests == report.failedTests + 1 && r.passedTests == report.passedTests
    ensures r.reportId == report.reportId && r.sprintId == report.sprintId && r.buildStatus == report.buildStatus
    ensures r.coveragePercentage == report.coveragePercentage && r.securityIssues == report.securityIssues
  {
    FilterSnoc(report.results, result, Passed());
    FilterSnoc(report.results, result, Not(Passed()));
    report.(totalTests := report.totalTests + 1,
            passedTests := if result.passed then report.passedTests + 1 else report.passedTests,
            failedTests := if result.passed then report.failedTests else report.failedTests + 1,
            results := report.results + [result])
  }

  /** In a consistent report every result has passed or failed. */
  lemma TotalIsPassedPlusFailed(report: VerificationReport)
    requires Consistent(report)
    ensures report.totalTests == report.passedTests + report.failedTests
  {
    FilterPartition(report.results, Passed());
  }

  /** `get_pass_rate`: 0 for no tests, else the passed share in percent. */
  function PassRate(report: VerificationReport): (r: real)
    ensures report.totalTests == 0 || report.passedTests == 0 ==> r == 0.0
    ensures report.totalTests > 0 && report.passedTests == report.totalTests ==> r == 100.0
    ensures report.passedTests <= report.totalTests ==> 0.0 <= r <= 100.0
  {
    if report.totalTests == 0 then 0.0
    else report.passedTests as real / report.totalTests as real * 100.0
  }

  /** `get_results_by_type`: the results of that type, in order. */
  function ResultsByType(report: VerificationReport, t: TestType): (r: seq<VerificationResult>)
    ensures forall x :: x in r <==> x in report.results && x.testType == t
  {
    FilterMembersAll(report.results, OfType(t));
    Filter(report.results, OfType(t))
  }

  /** `get_failed_results`: the failed results, in order. */
  function FailedResults(report: VerificationReport): (r: seq<VerificationResult>)
    ensures forall x :: x in r <==> x in report.results && !x.passed
    ensures Consistent(report) ==> |r| == report.failedTests
  {
    FilterMembersAll(report.results, Not(Passed()));
    Filter(report.results, Not(Passed()))
  }

  /** `is_all_passed`: no failed test and a successful build. */
  predicate IsAllPassed(report: VerificationReport)
  {
    report.failedTests == 0 && report.buildStatus == Success
  }

  /** In a consistent report, all passed means every result passed and the
      build succeeded. */
  lemma AllPassedMeansEveryResult(report: VerificationReport)
    requires Consistent(report)
    ensures IsAllPassed(report) <==> report.buildStatus == Success && forall x | x in report.results :: x.passed
  {
    FilterMembersAll(report.results, Not(Passed()));
    if report.failedTests != 0 {
      var x := Filter(report.results, Not(Passed()))[0];
      assert x in report.results && !x.passed;
    }
    assert report.failedTests == 0 <==> Filter(report.results, Not(Passed())) == [];
  }

  /** `percentage.min(100.0)`. */
  function CapCoverage(percentage: real): (r: real)
    ensures r <= 100.0 && r <= percentage
    ensures percentage <= 100.0 ==> r == percentage
  {
    if percentage < 100.0 then percentage else 100.0
  }

  function TestResult(testName: string, t: TestType, passed: bool, durationMs: nat): VerificationResult
  {
    VerificationResult(testName, t, passed, durationMs, None, Timestamp)
  }

  class Verifier {
    var reports: map<string, VerificationReport>

    /** Every report is stored under its own id with consistent counters. */
    predicate Valid()
      reads this
    {
      forall id | id in reports :: reports[id].reportId == id && Consistent(reports[id])
    }

    constructor ()
      ensures Valid() && reports == map[]
    {
      reports := map[];
    }

    /** `create_report`: a new report under the id, replacing any report
        already there; the new report is returned. */
    method CreateReport(reportId: string, sprintId: string) returns (report: VerificationReport)
      modifies this
      ensures report == NewReport(reportId, sprintId)
      ensures reports == old(reports)[reportId := report]
      ensures old(Valid()) ==> Valid()
    {
      report := NewReport(reportId, sprintId);
      reports := reports[reportId := report];
    }

    /** `get_report`. */
    function GetReport(reportId: string): (r: Option<VerificationReport>)
      reads this
      ensures r.Some? <==> reportId in reports
      ensures r.Some? ==> r.value == reports[reportId]
    {
      if reportId in reports then Some(reports[reportId]) else None
    }

    /** Adds one result of the given type to an existing report; nothing
        for an unknown id. */
    method AddTest(reportId: string, t: TestType, testName: string, passed: bool, durationMs: nat)
      modifies this
      ensures reportId !in old(reports) ==> reports == old(reports)
      ensures reportId in old(reports) ==>
        reports == old(reports)[reportId := AddResult(old(reports)[reportId], TestResult(testName, t, passed, durationMs))]
      ensures old(Valid()) ==> Valid()
    {
      if reportId in reports {
        reports := reports[reportId := AddResult(reports[reportId], TestResult(testName, t, passed, durationMs))];
      }
    }

    /** `add_unit_test`. */
    method AddUnitTest(reportId: string, testName: string, passed: bool, durationMs: nat)
      modifies this
      ensures reportId !in old(reports) ==> reports == old(reports)
      ensures reportId in old(reports) ==>
        reports == old(reports)[reportId := AddResult(old(reports)[reportId], TestResult(testName, Unit, passed, durationMs))]
      ensures old(Valid()) ==> Valid()
    {
      AddTest(reportId, Unit, testName, passed, durationMs);
    }

    /** `add_integration_test`. */
    method AddIntegrationTest(reportId: string, testName: string, passed: bool, durationMs: nat)
      modifies this
      ensures reportId !in old(reports) ==> reports == old(reports)
      ensures reportId in old(reports) ==>
        reports == old(reports)[reportId := AddResult(old(reports)[reportId], TestResult(testName, Integration, passed, durationMs))]
      ensures old(Valid()) ==> Valid()
    {
      AddTest(reportId, Integration, testName, passed, durationMs);
    }

    /** `set_build_status`: changes only the status of an existing report. */
    method SetBuildStatus(reportId: string, status: BuildStatus)
      modifies this
      ensures reportId !in old(reports) ==> reports == old(reports)
      ensures reportId in old(reports) ==> reports == old(reports)[reportId := old(reports)[reportId].(buildStatus := status)]
      ensures old(Valid()) ==> Valid()
    {
      if reportId in reports {
        reports := reports[reportId := reports[reportId].(buildStatus := status)];
      }
    }

    /** `set_coverage`: stores the percentage, capped at 100, in an
        existing report. */
    method SetCoverage(reportId: string, percentage: real)
      modifies this
      ensures reportId !in old(reports) ==> reports == old(reports)
      ensures reportId in old(reports) ==>
        reports == old(reports)[reportId := old(reports)[reportId].(coveragePercentage := CapCoverage(percentage))]
      ensures old(Valid()) ==> Valid()
    {
      if reportId in reports {
        reports := reports[reportId := reports[reportId].(coveragePercentage := CapCoverage(percentage))];
      }
    }
  }

  // ---------------------------------------------------------------------
  // The unit tests of the module, as scenarios.

  /** Ten results of which the first seven pass: a pass rate of 70. */
  method PassRateScenario() returns (rate: real, failed: nat)
    ensures rate == 70.0 && failed == 3
  {
    var report := NewReport("report-1", "sprint-1");
    var i := 0;
    while i < 10
      invariant 0 <= i <= 10 && Consistent(report)
      invariant report.totalTests == i && report.passedTests == (if i < 7 then i else 7)
      invariant report.failedTests == (if i < 7 then 0 else i - 7)
    {
      report := AddResult(report, TestResult("test", Unit, i < 7, 100));
      i := i + 1;
    }
    rate, failed := PassRate(report), report.failedTests;
  }

  /** A unit test added to a created report counts once; one added to an
      unknown report changes nothing; a build warning stops the report
      from counting as all passed. */
  method VerifierScenario() returns (total: nat, unknownAbsent: bool, allPassed: bool, coverage: real)
    ensures total == 1 && unknownAbsent && !allPassed && coverage == 100.0
  {
    var verifier := new Verifier();
    var _ := verifier.CreateReport("report-1", "sprint-1");
    verifier.AddUnitTest("report-1", "test-1", true, 100);
    verifier.AddUnitTest("report-2", "test-2", true, 100);
    verifier.SetBuildStatus("report-1", Warning);
    verifier.SetCoverage("report-1", 120.0);
    var report := verifier.reports["report-1"];
    total, unknownAbsent := report.totalTests, "report-2" !in verifier.reports;
    allPassed, coverage := IsAllPassed(report), report.coveragePercentage;
  }
}
