// The test runner of crates/core/src/test_runner.rs: a test suite counts its
// test cases by outcome and adds up their durations; the runner keeps suites
// by id and sums their counters.

module TestRunner {
  import opened Wrappers
  import opened Seqs

  datatype TestSuiteType = Unit | Integration | E2E | Performance | Security

  datatype TestStatus = Passed | Failed | Skipped | Timeout

  datatype TestCase = TestCase(
    testId: string, testName: string, status: TestStatus, durationMs: nat,
    errorMessage: Option<string>, stackTrace: Option<string>)

  datatype TestSuite = TestSuite(
    suiteId: string, suiteName: string, testType: TestSuiteType, tests: seq<TestCase>,
    totalTests: nat, passedTests: nat, failedTests: nat, skippedTests: nat, totalDurationMs: nat)

  /** 1 for a passed test. */
  function Passes(t: TestCase): nat
  {
    if t.status == Passed then 1 else 0
  }

  /** 1 for a failed test; a timeout counts as a failure. */
  function Fails(t: TestCase): nat
  {
    if t.status == Failed || t.status == Timeout then 1 else 0
  }

  /** 1 for a skipped test. */
  function Skips(t: TestCase): nat
  {
    if t.status == Skipped then 1 else 0
  }

  function Duration(t: TestCase): nat
  {
    t.durationMs
  }

  /** The counters of a suite are those of its test list. */
  predicate Consistent(suite: TestSuite)
  {
    suite.totalTests == |suite.tests| &&
    suite.passedTests == SumOf(suite.tests, Passes) &&
    suite.failedTests == SumOf(suite.tests, Fails) &&
    suite.skippedTests == SumOf(suite.tests, Skips) &&
    suite.totalDurationMs == SumOf(suite.tests, Duration)
  }

  /** `TestSuite::new`: no tests and every counter zero. */
  function NewSuite(suiteId: string, suiteName: string, testType: TestSuiteType): (r: TestSuite)
    ensures Consistent(r) && IsAllPassed(r)
    ensures r.suiteId == suiteId && r.suiteName == suiteName && r.testType == testType && r.tests == []
  {
    TestSuite(suiteId, suiteName, testType, [], 0, 0, 0, 0, 0)
  }

  /** `TestSuite::add_test`: appends the test, adds its duration and
      counts it once: as passed, as failed (also for a timeout) or as
      skipped. */
  function AddTest(suite: TestSuite, test: TestCase): (r: TestSuite)
    ensures Consistent(suite) ==> Consistent(r)
    ensures r.tests == suite.tests + [test] && r.totalTests == suite.totalTests + 1
    ensures r.totalDurationMs == suite.totalDurationMs + test.durationMs
    ensures r.passedTests + r.failedTests + r.skippedTests == suite.passedTests + suite.failedTests + suite.skippedTests + 1
    ensures r.passedTests == suite.passedTests + (if test.status == Passed then 1 else 0)
    ensures r.failedTests == suite.failedTests + (if test.status == Failed || test.status == Timeout then 1 else 0)
    ensures r.skippedTests == suite.skippedTests + (if test.status == Skipped then 1 else 0)
    ensures r.suiteId == suite.suiteId && r.suiteName == suite.suiteName && r.testType == suite.testType
  {
    SumOfSnoc(suite.tests, test, Passes);
    SumOfSnoc(suite.tests, test, Fails);
    SumOfSnoc(suite.tests, test, Skips);
    SumOfSnoc(suite.tests, test, Duration);
    var counted := match test.status
      case Passed => suite.(passedTests := suite.passedTests + 1)
      case Failed => suite.(failedTests := suite.failedTests + 1)
      case Skipped => suite.(skippedTests := suite.skippedTests + 1)
      case Timeout => suite.(failedTests := suite.failedTests + 1);
    counted.(totalTests := suite.totalTests + 1,
             totalDurationMs := suite.totalDurationMs + test.durationMs,
             tests := suite.tests + [test])
  }

  /** Every test has exactly one of the three counted outcomes. */
  lemma {:induction false} OutcomesPartition(tests: seq<TestCase>)
    ensures SumOf(tests, Passes) + SumOf(tests, Fails) +
            SumOf(tests, Skips) == |tests|
    decreases |tests|
  {
    if tests != [] {
      var front, t := tests[..|tests| - 1], tests[|tests| - 1];
      OutcomesPartition(front);
      assert SumOf(tests, Passes) == SumOf(front, Passes) + Passes(t);
      assert SumOf(tests, Fails) == SumOf(front, Fails) + Fails(t);
      assert SumOf(tests, Skips) == SumOf(front, Skips) + Skips(t);
      assert Passes(t) + Fails(t) + Skips(t) == 1;
    }
  }

  /** In a consistent suite the three counters add up to the total. */
  lemma TotalIsSumOfOutcomes(suite: TestSuite)
    requires Consistent(suite)
    ensures suite.totalTests == suite.passedTests + suite.failedTests + suite.skippedTests
  {
    OutcomesPartition(suite.tests);
  }

  /** `TestSuite::get_pass_rate`: 0 without tests, else the passed share in
      percent. */
  function PassRate(suite: TestSuite): (r: real)
    ensures suite.totalTests == 0 || suite.passedTests == 0 ==> r == 0.0
    ensures suite.totalTests > 0 && suite.passedTests == suite.totalTests ==> r == 100.0
    ensures suite.passedTests <= suite.totalTests ==> 0.0 <= r <= 100.0
  {
    if suite.totalTests == 0 then 0.0
    else suite.passedTests as real / suite.totalTests as real * 100.0
  }

  /** `TestSuite::is_all_passed`: nothing failed and nothing skipped. */
  predicate IsAllPassed(suite: TestSuite)
  {
    suite.failedTests == 0 && suite.skippedTests == 0
  }

  /** In a consistent suite, all passed means that every test passed. */
  lemma AllPassedMeansEveryTest(suite: TestSuite)
    requires Consistent(suite)
    ensures IsAllPassed(suite) <==> forall i | 0 <= i < |suite.tests| :: suite.tests[i].status == Passed
  {
    SumOfZero(suite.tests, Fails);
    SumOfZero(suite.tests, Skips);
  }

  function HasStatus(status: TestStatus): TestCase -> bool
  {
    (t: TestCase) => t.status == status
  }

  /** `get_tests_by_status`: the tests with that status, in order. */
  function TestsByStatus(suite: TestSuite, status: TestStatus): (r: seq<TestCase>)
    ensures forall t :: t in r <==> t in suite.tests && t.status == status
  {
    FilterMembersAll(suite.tests, HasStatus(status));
    Filter(suite.tests, HasStatus(status))
  }

  function Total(s: TestSuite): nat { s.totalTests }
  function PassedOf(s: TestSuite): nat { s.passedTests }
  function FailedOf(s: TestSuite): nat { s.failedTests }

  class Runner {
    var suites: map<string, TestSuite>

    /** Every suite is stored under its own id with consistent counters. */
    predicate Valid()
      reads this
    {
      forall id | id in suites :: suites[id].suiteId == id && Consistent(suites[id])
    }

    constructor ()
      ensures Valid() && suites == map[]
    {
      suites := map[];
    }

    /** `create_suite`: a new suite under the id, replacing any suite
        already there. */
    method CreateSuite(suiteId: string, suiteName: string, testType: TestSuiteType) returns (suite: TestSuite)
      modifies this
      ensures suite == NewSuite(suiteId, suiteName, testType)
      ensures suites == old(suites)[suiteId := suite]
      ensures old(Valid()) ==> Valid()
    {
      suite := NewSuite(suiteId, suiteName, testType);
      suites := suites[suiteId := suite];
    }

    /** `get_suite`. */
    function GetSuite(suiteId: string): (r: Option<TestSuite>)
      reads this
      ensures r.Some? <==> suiteId in suites
      ensures r.Some? ==> r.value == suites[suiteId]
    {
      if suiteId in suites then Some(suites[suiteId]) else None
    }

    /** `TestRunner::add_test`: adds the test to an existing suite, nothing
        for an unknown id. */
    method AddTestTo(suiteId: string, test: TestCase)
      modifies this
      ensures suiteId !in old(suites) ==> suites == old(suites)
      ensures suiteId in old(suites) ==> suites == old(suites)[suiteId := AddTest(old(suites)[suiteId], test)]
      ensures old(Valid()) ==> Valid()
    {
      if suiteId in suites {
        suites := suites[suiteId := AddTest(suites[suiteId], test)];
      }
    }

    /** `get_total_tests`: the sum over all suites. */
    method GetTotalTests() returns (total: nat)
      ensures total == MapSum(suites, Total)
    {
      total := SumValues(suites, Total);
    }

    /** `get_total_passed`: the sum over all suites. */
    method GetTotalPassed() returns (total: nat)
      ensures total == MapSum(suites, PassedOf)
    {
      total := SumValues(suites, PassedOf);
    }

    /** `get_total_failed`: the sum over all suites. */
    method GetTotalFailed() returns (total: nat)
      ensures total == MapSum(suites, FailedOf)
    {
      total := SumValues(suites, FailedOf);
    }

    /** `get_overall_pass_rate`: 0 without tests, else all passed tests
        over all tests in percent. */
    method GetOverallPassRate() returns (rate: real)
      ensures MapSum(suites, Total) == 0 ==> rate == 0.0
      ensures MapSum(suites, Total) > 0 ==> rate == MapSum(suites, PassedOf) as real / MapSum(suites, Total) as real * 100.0
    {
      var total := GetTotalTests();
      if total == 0 {
        return 0.0;
      }
      var passed := GetTotalPassed();
      rate := passed as real / total as real * 100.0;
    }

    /** `TestRunner::is_all_passed`: no suite has a failed test; unlike a
        suite's own check, skipped tests do not matter. */
    method IsAllPassed() returns (allPassed: bool)
      ensures allPassed <==> forall id | id in suites :: suites[id].failedTests == 0
    {
      var failed := GetTotalFailed();
      MapSumZero(suites, FailedOf);
      allPassed := failed == 0;
    }
  }

  // ---------------------------------------------------------------------
  // The unit tests of the module, as scenarios.

  function Case(status: TestStatus): TestCase
  {
    TestCase("test-1", "Test 1", status, 100, None, None)
  }

  /** Ten tests of which the first eight pass: a pass rate of 80 and a
      duration of one second. */
  method PassRateScenario() returns (rate: real, duration: nat)
    ensures rate == 80.0 && duration == 1000
  {
    var suite := NewSuite("suite-1", "Suite 1", Unit);
    var i := 0;
    while i < 10
      invariant 0 <= i <= 10 && Consistent(suite)
      invariant suite.totalTests == i && suite.passedTests == (if i < 8 then i else 8)
      invariant suite.totalDurationMs == 100 * i
    {
      suite := AddTest(suite, Case(if i < 8 then Passed else Failed));
      i := i + 1;
    }
    rate, duration := PassRate(suite), suite.totalDurationMs;
  }

  /** The total of a runner with a single suite is that suite's total. */
  lemma SingletonSum(suites: map<string, TestSuite>, id: string)
    requires suites.Keys == {id}
    ensures MapSum(suites, Total) == suites[id].totalTests
  {
    MapSumPick(suites, Total, id);
    assert suites - {id} == map[];
  }

  /** A new runner with one suite holding a passed and a skipped test. */
  method PassedAndSkipped(id: string) returns (runner: Runner)
    ensures fresh(runner) && runner.suites.Keys == {id}
    ensures runner.suites[id].totalTests == 2 && runner.suites[id].failedTests == 0 && runner.suites[id].skippedTests == 1
  {
    runner := new Runner();
    var _ := runner.CreateSuite(id, "Suite 1", Unit);
    runner.AddTestTo(id, Case(Passed));
    runner.AddTestTo(id, Case(Skipped));
  }

  /** A runner whose only suite has one passed and one skipped test is all
      passed, while the suite itself is not; a test for an unknown suite is
      dropped. */
  method SkippedScenarioWith(id: string, other: string) returns (runnerPassed: bool, suitePassed: bool, total: nat)
    requires id != other
    ensures runnerPassed && !suitePassed && total == 2
  {
    var runner := PassedAndSkipped(id);
    runner.AddTestTo(other, Case(Failed));
    assert runner.suites.Keys == {id};
    runnerPassed := runner.IsAllPassed();
    suitePassed := IsAllPassed(runner.suites[id]);
    total := runner.GetTotalTests();
    SingletonSum(runner.suites, id);
  }

  /** A scenario of the runner's `is_all_passed`, with the suites
      "suite-1" and "suite-2": skipped tests do not stop a runner counting
      as all passed. */
  method SkippedScenario() returns (runnerPassed: bool, suitePassed: bool, total: nat)
    ensures runnerPassed && !suitePassed && total == 2
  {
    var id, other := "suite-1", "suite-2";
    assert id[6] != other[6];
    runnerPassed, suitePassed, total := SkippedScenarioWith(id, other);
  }
}
