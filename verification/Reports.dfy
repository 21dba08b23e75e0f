/** JUnit report accounting of the conformance tester: `appendReport`, `junitReporterWrapper`
    and the accumulation in `collectReports` update one suite in place, nested in any way.
 */
module Reports {
  import opened Options

  datatype TestCase = TestCase(name: string, failure: Option<string>)
  datatype Suite = Suite(tests: int, errors: int, failures: int, cases: seq<TestCase>)

  const EMPTY := Suite(0, 0, 0, [])

  /** What runs against a suite: a report is appended, or a step is wrapped, whose body may do
      the same again before it returns its error.
   */
  datatype Action =
    | Append(suite: Suite)
    | Wrap(name: string, body: seq<Action>, err: Option<string>, extras: seq<string>)

  function Failing(cases: seq<TestCase>): nat {
    if cases == [] then 0 else (if cases[0].failure.Some? then 1 else 0) + Failing(cases[1..])
  }

  /** Tests counted beyond the test cases listed. */
  function TestSurplus(s: Suite): int {
    s.tests - |s.cases|
  }

  /** Failures counted beyond the failing test cases listed. */
  function FailureSurplus(s: Suite): int {
    s.failures - Failing(s.cases)
  }

  datatype Quantity = TestsBeyond | FailuresBeyond | Errors

  function Amount(q: Quantity, s: Suite): int {
    match q
    case TestsBeyond => TestSurplus(s)
    case FailuresBeyond => FailureSurplus(s)
    case Errors => s.errors
  }

  function Joined(a: Suite, b: Suite): Suite {
    Suite(a.tests + b.tests, a.errors + b.errors, a.failures + b.failures, a.cases + b.cases)
  }

  /** The message of a failed step: its error, then each extra output on a line of its own. */
  function Message(err: string, extras: seq<string>): string {
    if extras == [] then err else Message(err, extras[..|extras| - 1]) + "\n" + extras[|extras| - 1]
  }

  class JUnitTestSuite {
    var tests: int
    var errors: int
    var failures: int
    var testCases: seq<TestCase>

    constructor ()
      ensures tests == errors == failures == |testCases| == 0
    {
      tests, errors, failures, testCases := 0, 0, 0, [];
    }

    function Value(): Suite
      reads this
    {
      Suite(tests, errors, failures, testCases)
    }

    method AppendReport(toAppend: Suite)
      modifies this
      ensures Value() == Joined(old(Value()), toAppend)
      ensures TestSurplus(Value()) == old(TestSurplus(Value())) + TestSurplus(toAppend)
      ensures FailureSurplus(Value()) == old(FailureSurplus(Value())) + FailureSurplus(toAppend)
    {
      FailingJoined(testCases, toAppend.cases);
      tests := tests + toAppend.tests;
      errors := errors + toAppend.errors;
      failures := failures + toAppend.failures;
      testCases := testCases + toAppend.cases;
    }

    /** Runs the body, counts the step, and lists it as failed exactly when the body erred. */
    method JunitReporterWrapper(name: string, body: seq<Action>, err: Option<string>, extras: seq<string>)
      returns (result: Option<string>)
      modifies this
      ensures TestSurplus(Value()) == old(TestSurplus(Value())) + Brought(body, TestsBeyond)
      ensures FailureSurplus(Value()) == old(FailureSurplus(Value())) + Brought(body, FailuresBeyond)
      ensures errors == old(errors) + Brought(body, Errors)
      ensures |testCases| > 0 && testCases[|testCases| - 1] == TestCase(name, result)
      ensures result == if err.None? then None else Some(Message(err.value, extras))
      decreases body, 1
    {
      Execute(body);
      result := err;
      if err.Some? {
        failures := failures + 1;
        var message := err.value;
        for i := 0 to |extras|
          invariant message == Message(err.value, extras[..i])
        {
          assert extras[..i + 1][..i] == extras[..i];
          message := message + "\n" + extras[i];
        }
        assert extras[..|extras|] == extras;
        result := Some(message);
      }
      FailingJoined(testCases, [TestCase(name, result)]);
      testCases := testCases + [TestCase(name, result)];
      tests := tests + 1;
    }

    /** Any sequence of such actions shifts the two surpluses by what the appended reports bring. */
    method Execute(actions: seq<Action>)
      modifies this
      ensures TestSurplus(Value()) == old(TestSurplus(Value())) + Brought(actions, TestsBeyond)
      ensures FailureSurplus(Value()) == old(FailureSurplus(Value())) + Brought(actions, FailuresBeyond)
      ensures errors == old(errors) + Brought(actions, Errors)
      decreases actions, 0
    {
      if actions == [] {
        return;
      }
      match actions[0] {
        case Append(suite) => AppendReport(suite);
        case Wrap(name, body, err, extras) =>
          var result := JunitReporterWrapper(name, body, err, extras);
      }
      Execute(actions[1..]);
    }
  }

  /** The sum of a quantity over all reports appended anywhere inside. */
  function Brought(actions: seq<Action>, q: Quantity): int
    decreases actions
  {
    if actions == [] then 0
    else (match actions[0]
          case Append(suite) => Amount(q, suite)
          case Wrap(_, body, _, _) => Brought(body, q)) + Brought(actions[1..], q)
  }

  lemma {:induction false} FailingJoined(a: seq<TestCase>, b: seq<TestCase>)
    ensures Failing(a + b) == Failing(a) + Failing(b)
  {
    if a == [] {
      assert a + b == b;
    } else {
      assert (a + b)[1..] == a[1..] + b;
      FailingJoined(a[1..], b);
    }
  }

  // ----- self-consistent reports

  /** The counters are what they count. */
  predicate Consistent(s: Suite) {
    TestSurplus(s) == 0 && FailureSurplus(s) == 0
  }

  predicate AllConsistent(actions: seq<Action>) {
    actions == [] ||
    (AllConsistent(actions[1..]) &&
     match actions[0]
     case Append(suite) => Consistent(suite)
     case Wrap(_, body, _, _) => AllConsistent(body))
  }

  /** If all reports appended are consistent, nothing is brought in. */
  lemma {:induction false} ConsistentBringNothing(actions: seq<Action>)
    requires AllConsistent(actions)
    ensures Brought(actions, TestsBeyond) == 0 && Brought(actions, FailuresBeyond) == 0
  {
    if actions != [] {
      if actions[0].Wrap? {
        ConsistentBringNothing(actions[0].body);
      }
      ConsistentBringNothing(actions[1..]);
    }
  }

  /** A scenario's report is off by exactly what the reports appended on the way were off, so
      with `ConsistentBringNothing` it is consistent when they are, and the numbers printed at
      the end are the numbers of passed and failed test cases.
   */
  method ScenarioReport(actions: seq<Action>) returns (report: Suite)
    ensures Consistent(report) <==> Brought(actions, TestsBeyond) == 0 && Brought(actions, FailuresBeyond) == 0
    ensures report.errors == Brought(actions, Errors)
  {
    var suite := new JUnitTestSuite();
    suite.Execute(actions);
    report := suite.Value();
  }

  // ----- collectReports

  /** A directory entry; `suite` is None when the file cannot be read or parsed. */
  datatype File = File(name: string, isDir: bool, suite: Option<Suite>, removable: bool)

  predicate IsReport(f: File) {
    !f.isDir && "junit_" <= f.name && |f.name| >= 4 && f.name[|f.name| - 4..] == ".xml"
  }

  function Selected(files: seq<File>): (selected: seq<File>) {
    if files == [] then []
    else
      var rest := Selected(files[..|files| - 1]);
      if IsReport(files[|files| - 1]) then rest + [files[|files| - 1]] else rest
  }

  function JoinedAll(files: seq<File>): Suite {
    if files == [] then EMPTY
    else
      var f := files[|files| - 1];
      Joined(JoinedAll(files[..|files| - 1]), if f.suite.Some? then f.suite.value else EMPTY)
  }

  /** Succeeds exactly when every report file can be read and removed, and then joins them all,
      in order, and nothing else.
   */
  method CollectReports(files: seq<File>) returns (r: Option<Suite>)
    ensures r.Some? <==> forall f :: f in Selected(files) ==> f.suite.Some? && f.removable
    ensures r.Some? ==> r.value == JoinedAll(Selected(files))
  {
    var result := new JUnitTestSuite();
    assert result.testCases == [];
    var individual: seq<File> := [];
    for i := 0 to |files|
      invariant individual == Selected(files[..i])
      invariant forall f :: f in individual ==> f.suite.Some?
      invariant result.Value() == JoinedAll(individual)
      invariant fresh(result)
    {
      var f := files[i];
      assert files[..i + 1][..i] == files[..i];
      if f.isDir {
        continue;
      }
      if !("junit_" <= f.name) || !(|f.name| >= 4 && f.name[|f.name| - 4..] == ".xml") {
        continue;
      }
      if f.suite.None? {
        SelectedGrows(files, i);
        return None;
      }
      assert (individual + [f])[..|individual|] == individual;
      individual := individual + [f];
      result.AppendReport(f.suite.value);
    }
    assert files[..|files|] == files;
    for i := 0 to |individual|
      invariant forall j :: 0 <= j < i ==> individual[j].removable
      invariant result.Value() == JoinedAll(individual)
    {
      if !individual[i].removable {
        return None;
      }
    }
    r := Some(result.Value());
  }

  lemma {:induction false} SelectedGrows(files: seq<File>, i: nat)
    requires i < |files| && IsReport(files[i])
    ensures files[i] in Selected(files)
  {
    if i < |files| - 1 {
      SelectedGrows(files[..|files| - 1], i);
    }
  }

  /** Joining consistent reports gives a consistent one. */
  lemma {:induction false} JoinedAllIsConsistent(files: seq<File>)
    requires forall f :: f in files && f.suite.Some? ==> Consistent(f.suite.value)
    ensures Consistent(JoinedAll(files))
  {
    if files != [] {
      var last := files[|files| - 1];
      JoinedAllIsConsistent(files[..|files| - 1]);
      assert last in files;
      FailingJoined(JoinedAll(files[..|files| - 1]).cases, (if last.suite.Some? then last.suite.value else EMPTY).cases);
    }
  }
}
