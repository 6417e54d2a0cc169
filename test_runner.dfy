/** The permission-test tally (tests/hasura/utils/test-runner.js): a log of
    named pass/fail results with running pass and fail counters, and the
    summary printed from them. */
module TestRunner {
  datatype TestResult = TestResult(testName: string, passed: bool, message: string)

  function CountPassed(tests: seq<TestResult>): (n: nat)
    ensures n <= |tests|
  {
    if tests == [] then 0
    else CountPassed(tests[..|tests| - 1]) + (if tests[|tests| - 1].passed then 1 else 0)
  }

  /** `tests.filter(t => !t.passed)`, in logging order. */
  function FailedTests(tests: seq<TestResult>): (r: seq<TestResult>)
    ensures forall t :: t in r <==> t in tests && !t.passed
  {
    if tests == [] then []
    else (if tests[0].passed then [] else [tests[0]]) + FailedTests(tests[1..])
  }

  lemma {:induction false} CountPassedAppend(a: seq<TestResult>, b: seq<TestResult>)
    ensures CountPassed(a + b) == CountPassed(a) + CountPassed(b)
    decreases |b|
  {
    if b == [] {
      assert a + b == a;
    } else {
      CountPassedAppend(a, b[..|b| - 1]);
      assert (a + b)[..|a + b| - 1] == a + b[..|b| - 1];
    }
  }

  /** The failed list printed in the summary has exactly as many entries as
      tests that did not pass. */
  lemma {:induction false} FailedTestsCount(tests: seq<TestResult>)
    ensures |FailedTests(tests)| == |tests| - CountPassed(tests)
  {
    if tests != [] {
      FailedTestsCount(tests[1..]);
      CountPassedAppend([tests[0]], tests[1..]);
      assert [tests[0]] + tests[1..] == tests;
      assert [tests[0]][..0] == [];
    }
  }

  /** Filtering a log that was recorded in two parts lists the first
      part's failures, then the second part's. */
  lemma {:induction false} FailedTestsAppend(a: seq<TestResult>, b: seq<TestResult>)
    ensures FailedTests(a + b) == FailedTests(a) + FailedTests(b)
  {
    if a == [] {
      assert a + b == b;
    } else {
      assert (a + b)[1..] == a[1..] + b;
      FailedTestsAppend(a[1..], b);
    }
  }

  /** Each failed record is listed as often as it was logged, and a passed
      one never: the listing is exactly the sub-multiset of failures. */
  lemma {:induction false} FailedTestsMultiplicity(tests: seq<TestResult>, t: TestResult)
    ensures multiset(FailedTests(tests))[t] == if t.passed then 0 else multiset(tests)[t]
  {
    if tests != [] {
      FailedTestsMultiplicity(tests[1..], t);
      var head := if tests[0].passed then [] else [tests[0]];
      var rest := FailedTests(tests[1..]);
      assert FailedTests(tests) == head + rest;
      assert multiset(head + rest)[t] == multiset(head)[t] + multiset(rest)[t];
      assert tests == [tests[0]] + tests[1..];
      assert multiset(tests)[t] == multiset([tests[0]])[t] + multiset(tests[1..])[t];
    }
  }

  /** `successRate` before formatting: the passed share of all logged tests
      in percent, zero for an empty run. */
  function SuccessRate(passed: nat, failed: nat): (rate: real)
    ensures 0.0 <= rate <= 100.0
    ensures passed + failed == 0 ==> rate == 0.0
    ensures passed > 0 && failed == 0 ==> rate == 100.0
    ensures passed == 0 ==> rate == 0.0
  {
    var total := passed + failed;
    if total > 0 then (passed as real / total as real) * 100.0 else 0.0
  }

  datatype Summary = Totals(total: nat, passed: nat, failed: nat, successRate: real, failedList: seq<TestResult>)

  class Runner {
    var passed: nat
    var failed: nat
    var tests: seq<TestResult>

    /** The counters always agree with the log. */
    predicate Valid()
      reads this
    {
      passed == CountPassed(tests) && passed + failed == |tests|
    }

    constructor ()
      ensures Valid() && tests == [] && passed == 0 && failed == 0
    {
      passed, failed, tests := 0, 0, [];
    }

    /** `logTest`: appends the result and bumps the matching counter. */
    method LogTest(testName: string, ok: bool, message: string)
      requires Valid()
      modifies this
      ensures Valid()
      ensures tests == old(tests) + [TestResult(testName, ok, message)]
      ensures passed == old(passed) + (if ok then 1 else 0)
      ensures failed == old(failed) + (if ok then 0 else 1)
    {
      tests := tests + [TestResult(testName, ok, message)];
      assert tests[..|tests| - 1] == old(tests);
      if ok {
        passed := passed + 1;
      } else {
        failed := failed + 1;
      }
    }

    /** What `printSummary` prints; the failed list only when some test
        failed. */
    function Summary(): (s: Summary)
      requires Valid()
      reads this
      ensures s.total == |tests| && s.passed == passed && s.failed == failed
      ensures s.failedList == (if failed > 0 then FailedTests(tests) else [])
      ensures |s.failedList| == failed
      ensures s.successRate == SuccessRate(passed, failed)
      ensures 0.0 <= s.successRate <= 100.0
    {
      FailedTestsCount(tests);
      Totals(passed + failed, passed, failed, SuccessRate(passed, failed),
              if failed > 0 then FailedTests(tests) else [])
    }

    /** `reset`: back to the empty log. */
    method Reset()
      modifies this
      ensures Valid() && tests == [] && passed == 0 && failed == 0
    {
      passed, failed, tests := 0, 0, [];
    }
  }

  /** Logging one pass and one fail gives a two-test summary listing the
      failure only. */
  method OnePassOneFail(r: Runner)
    requires r.Valid() && r.tests == []
    modifies r
    ensures r.Valid()
    ensures r.Summary() == Totals(2, 1, 1, 50.0, [TestResult("b", false, "denied")])
  {
    r.LogTest("a", true, "");
    r.LogTest("b", false, "denied");
    FailedTestsCount(r.tests);
    assert r.tests[1..] == [TestResult("b", false, "denied")];
    assert r.tests[1..][1..] == [];
  }
}
