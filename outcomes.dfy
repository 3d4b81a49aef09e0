/**
 * What the pytest plugin reports about a test: the TestOutcome record,
 * the mapping of report phases and exceptions to outcomes, and the
 * messages attached to pytest's exit codes.
 */
module Outcomes {

  import opened Wrappers

  /** The `outcome` literal of a TestOutcome. */
  datatype OutcomeKind = Success | Failure | Skipped | Error

  datatype TestOutcome = TestOutcome(
    test: string,
    outcome: OutcomeKind,
    message: Option<string>,
    traceback: Option<string>,
    subtest: Option<string>)

  /** The phase of a pytest report (`report.when`). */
  datatype Phase = Setup | Call | Teardown

  /** `report.passed` / `report.failed` / otherwise. */
  datatype ReportStatus = Passed | Failed | SkippedStatus

  datatype TestReport = TestReport(nodeid: string, when: Phase, status: ReportStatus, longReprText: string)

  /** The text appended to every error message the plugin collects. */
  const LogHint := "\n Check Python Test Logs for more details."

  /** create_test_outcome: the subtest argument is ignored and the field is always None. */
  function CreateTestOutcome(
    testId: string,
    outcome: OutcomeKind,
    message: Option<string>,
    traceback: Option<string>,
    subtype: Option<string>): (r: TestOutcome)
    ensures r.subtest == None
    ensures r.test == testId && r.outcome == outcome
    ensures r.message == message && r.traceback == traceback
  {
    TestOutcome(testId, outcome, message, traceback, None)
  }

  /**
   * The outcome and message pytest_report_teststatus derives from a
   * call-phase report: a passed test is a success, a failed one a failure
   * whose message is the long report text, anything else skipped.
   */
  function CallOutcome(report: TestReport): (r: (OutcomeKind, Option<string>))
    ensures r.0 == Success <==> report.status == Passed
    ensures r.0 == Failure <==> report.status == Failed
    ensures r.0 == Skipped <==> report.status == SkippedStatus
    ensures r.1.Some? <==> r.0 == Failure
    ensures r.1.Some? ==> r.1.value == report.longReprText
  {
    match report.status
    case Passed => (Success, None)
    case Failed => (Failure, Some(report.longReprText))
    case SkippedStatus => (Skipped, None)
  }

  /**
   * The outcome pytest_exception_interact reports for an exception raised
   * while running a test: an AssertionError is a failure, any other
   * exception an error.
   */
  function ExceptionOutcome(typeName: string): (r: OutcomeKind)
    ensures r == Failure || r == Error
    ensures r == Failure <==> typeName == "AssertionError"
  {
    if typeName == "AssertionError" then Failure else Error
  }

  /** ERROR_MESSAGE_CONST, entry by entry. */
  const CollectionFailedMessage := "Pytest was unable to start or run any tests due to issues with test discovery or test collection."
  const InterruptedMessage := "Pytest was interrupted by the user, for example by pressing Ctrl+C during test execution."
  const InternalErrorMessage := "Pytest encountered an internal error or exception during test execution."
  const NoTestsMessage := "Pytest was unable to find any tests to run."

  /** ERROR_MESSAGE_CONST: defined for the exit codes 2 to 5 only. */
  function ExitCodeMessage(code: int): (r: Option<string>)
    ensures r.Some? <==> 2 <= code <= 5
  {
    if code == 2 then Some(CollectionFailedMessage)
    else if code == 3 then Some(InterruptedMessage)
    else if code == 4 then Some(InternalErrorMessage)
    else if code == 5 then Some(NoTestsMessage)
    else None
  }

  /**
   * The error pytest_sessionfinish records for an execution run that ended
   * with `code`; None where the message lookup raises.
   */
  function ExitStatusError(code: int): (r: Option<string>)
    ensures r.Some? <==> 2 <= code <= 5
  {
    match ExitCodeMessage(code)
    case None => None
    case Some(msg) =>
      Some("Pytest exited with error status: " + [('0' as int + code) as char] + ", " + msg)
  }

  /** In a discovery run only the exit codes 0, 1 and 5 are free of an error node. */
  predicate DiscoveryExitIsClean(code: int)
  {
    code == 0 || code == 1 || code == 5
  }

  /** In an execution run only the exit codes 0 and 1 count as success. */
  predicate ExecutionExitIsSuccess(code: int)
  {
    code == 0 || code == 1
  }
}
