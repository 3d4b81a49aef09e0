/**
 * The reporting hooks of the pytest plugin: the errors it collects, the
 * once-only reporting of test outcomes through collected_tests_so_far,
 * and what pytest_sessionfinish sends at the end of a run.
 *
 * The pipe the plugin writes to is modelled as the log `sent` of the
 * payloads handed to send_post_request, in order.
 */
module Reporting {

  import opened Wrappers
  import opened Paths
  import opened Items
  import opened Outcomes
  import opened TestIds
  import opened Skips
  import opened TestTree

  /** The `status` field of a payload. */
  datatype Status = SuccessStatus | ErrorStatus

  datatype CommandType = Discovery | Execution

  /** What a discovery payload carries as `tests`: the error node, or the session node. */
  datatype DiscoveryTests = ErrorNode(path: Path) | SessionNode(tree: Tree)

  datatype Payload =
    | ExecutionPayload(cwd: string, status: Status, result: Option<TestOutcome>, error: Option<seq<string>>)
    | DiscoveryPayload(cwd: string, status: Status, tests: DiscoveryTests, errorList: seq<string>)
    | EotPayload(commandType: CommandType)

  /** What pytest_exception_interact reads of `call.excinfo`. */
  datatype ExcInfo = ExcInfo(typeName: string, exconly: string)

  /** post_response: the discovery status is success exactly when no error was collected. */
  function StatusOf(errors: seq<string>): (s: Status)
    ensures s == SuccessStatus <==> errors == []
  {
    if errors == [] then SuccessStatus else ErrorStatus
  }

  /** execution_post: the `error` field is set only when some error was collected. */
  function ErrorField(errors: seq<string>): (e: Option<seq<string>>)
    ensures e.None? <==> errors == []
    ensures e.Some? ==> e.value == errors
  {
    if errors == [] then None else Some(errors)
  }

  /**
   * The ids that survive the collected_tests_so_far check when reports are
   * attempted for `attempts` in turn: each id at its first attempt.
   */
  function Dedup(attempts: seq<string>): seq<string>
  {
    if attempts == [] then []
    else
      var d := Dedup(attempts[..|attempts| - 1]);
      var id := attempts[|attempts| - 1];
      if id in d then d else d + [id]
  }

  /** No id survives twice. */
  lemma {:induction false} DedupNoDup(attempts: seq<string>)
    ensures NoDup(Dedup(attempts))
  {
    if attempts != [] {
      var d := Dedup(attempts[..|attempts| - 1]);
      DedupNoDup(attempts[..|attempts| - 1]);
      var id := attempts[|attempts| - 1];
      if id !in d {
        NoDupSnoc(d, id);
      }
    }
  }

  /** Every attempted id is reported, and only attempted ids are. */
  lemma {:induction false} DedupElements(attempts: seq<string>)
    ensures forall x :: x in Dedup(attempts) <==> x in attempts
  {
    if attempts != [] {
      var init := attempts[..|attempts| - 1];
      DedupElements(init);
      assert attempts == init + [attempts[|attempts| - 1]];
    }
  }

  /** Attempts that are already distinct are all reported, in order. */
  lemma {:induction false} DedupOfDistinct(attempts: seq<string>)
    requires NoDup(attempts)
    ensures Dedup(attempts) == attempts
  {
    if attempts != [] {
      var init := attempts[..|attempts| - 1];
      DedupOfDistinct(init);
      assert attempts == init + [attempts[|attempts| - 1]];
    }
  }

  /** Repeating an attempt already made reports nothing new. */
  lemma DedupRepeat(attempts: seq<string>, id: string)
    requires id in attempts
    ensures Dedup(attempts + [id]) == Dedup(attempts)
  {
    DedupElements(attempts);
    assert (attempts + [id])[..|attempts|] == attempts;
  }

  /** The ids of the test results carried by `sent`, in order. */
  function ReportedIds(sent: seq<Payload>): seq<string>
  {
    if sent == [] then []
    else
      var p := sent[|sent| - 1];
      ReportedIds(sent[..|sent| - 1]) +
        (if p.ExecutionPayload? && p.result.Some? then [p.result.value.test] else [])
  }

  lemma ReportedIdsSnoc(sent: seq<Payload>, p: Payload)
    ensures ReportedIds(sent + [p]) ==
      ReportedIds(sent) + (if p.ExecutionPayload? && p.result.Some? then [p.result.value.test] else [])
  {
    assert (sent + [p])[..|sent|] == sent;
  }

  /**
   * Where the results sent are the attempted ids at their first attempt,
   * no absolute id is reported twice, and every id attempted is reported.
   */
  lemma ReportedAtMostOnce(sent: seq<Payload>, attempts: seq<string>)
    requires ReportedIds(sent) == Dedup(attempts)
    ensures NoDup(ReportedIds(sent))
    ensures forall x :: x in ReportedIds(sent) <==> x in attempts
  {
    DedupNoDup(attempts);
    DedupElements(attempts);
  }

  /** The global state of the plugin and the payloads it has sent. */
  class Plugin {
    /** IS_DISCOVERY, SYMLINK_PATH and the working directory, fixed once pytest has started. */
    const isDiscovery: bool
    const symlink: Option<Path>
    const cwd: Path

    /** ERRORS */
    var errors: seq<string>
    /** map_id_to_path */
    var mapIdToPath: map<string, Path>
    /** collected_tests_so_far */
    var collected: seq<string>
    /** Every payload sent, in order. */
    var sent: seq<Payload>
    /** Every absolute id for which a report was attempted, in order. */
    ghost var attempts: seq<string>

    /**
     * The reporting discipline: the collected ids are the attempted ids at
     * their first attempt, and they are exactly the ids of the results
     * sent, in the same order.
     */
    ghost predicate Valid()
      reads this
    {
      collected == Dedup(attempts) && ReportedIds(sent) == collected
    }

    constructor(isDiscovery: bool, symlink: Option<Path>, cwd: Path)
      ensures Valid()
      ensures this.isDiscovery == isDiscovery && this.symlink == symlink && this.cwd == cwd
      ensures errors == [] && mapIdToPath == map[] && collected == [] && sent == [] && attempts == []
    {
      this.isDiscovery := isDiscovery;
      this.symlink := symlink;
      this.cwd := cwd;
      errors := [];
      mapIdToPath := map[];
      collected := [];
      sent := [];
      attempts := [];
    }

    /** The working directory reported at session end and by pytest_report_teststatus: the symlink root when set. */
    function ReportCwd(): (r: Path)
      ensures symlink.Some? ==> r == symlink.value
      ensures symlink.None? ==> r == cwd
    {
      if symlink.Some? then symlink.value else cwd
    }

    /**
     * The block the three reporting hooks share: the outcome for `id` is
     * sent only if `id` is not yet in collected_tests_so_far, and `id` is
     * then added to it.
     */
    method Report(id: string, outcome: TestOutcome, postCwd: Path)
      requires Valid() && outcome.test == id
      modifies this
      ensures Valid()
      ensures attempts == old(attempts) + [id]
      ensures id in old(collected) ==> collected == old(collected) && sent == old(sent)
      ensures id !in old(collected) ==>
        && collected == old(collected) + [id]
        && sent == old(sent) + [ExecutionPayload(PathStr(postCwd), SuccessStatus, Some(outcome), ErrorField(errors))]
      ensures errors == old(errors) && mapIdToPath == old(mapIdToPath)
    {
      attempts := attempts + [id];
      if id !in collected {
        collected := collected + [id];
        var p := ExecutionPayload(PathStr(postCwd), SuccessStatus, Some(outcome), ErrorField(errors));
        ReportedIdsSnoc(sent, p);
        sent := sent + [p];
      }
    }

    /** pytest_internalerror: the exception text is kept, with the hint to look in the logs. */
    method InternalError(excinfo: ExcInfo)
      requires Valid()
      modifies this
      ensures Valid()
      ensures errors == old(errors) + [excinfo.exconly + LogHint]
      ensures sent == old(sent) && collected == old(collected) && mapIdToPath == old(mapIdToPath)
      ensures attempts == old(attempts)
    {
      errors := errors + [excinfo.exconly + LogHint];
    }

    /** pytest_keyboard_interrupt: as pytest_internalerror. */
    method KeyboardInterrupt(excinfo: ExcInfo)
      requires Valid()
      modifies this
      ensures Valid()
      ensures errors == old(errors) + [excinfo.exconly + LogHint]
      ensures sent == old(sent) && collected == old(collected) && mapIdToPath == old(mapIdToPath)
      ensures attempts == old(attempts)
    {
      errors := errors + [excinfo.exconly + LogHint];
    }

    /**
     * pytest_exception_interact. During discovery the error is recorded:
     * the exception text unless it is an AssertionError (and nothing at all
     * for a SkipTest behind a skipped report), otherwise the report's long
     * text. During execution the node is reported, at most once, as a
     * failure for an AssertionError and an error for anything else.
     * `nodePath` is what get_node_path gives for the node.
     */
    method ExceptionInteract(
      nodeid: string, nodePath: Path, excinfo: Option<ExcInfo>,
      reportSkipped: bool, callMentionsSkipTest: bool, longReprText: string)
      requires Valid()
      requires !isDiscovery ==> excinfo.Some?
      modifies this
      ensures Valid()
      ensures mapIdToPath == old(mapIdToPath)
      ensures isDiscovery ==> sent == old(sent) && collected == old(collected) && attempts == old(attempts)
      ensures isDiscovery && excinfo.Some? && excinfo.value.typeName != "AssertionError" ==>
        errors == old(errors) + (if reportSkipped && callMentionsSkipTest then [] else [excinfo.value.exconly + LogHint])
      ensures isDiscovery && (excinfo.None? || excinfo.value.typeName == "AssertionError") ==>
        errors == old(errors) + [longReprText + LogHint]
      ensures !isDiscovery ==>
        var id := AbsoluteTestId(nodeid, nodePath);
        && errors == old(errors)
        && attempts == old(attempts) + [id]
        && (id in old(collected) ==> sent == old(sent))
        && (id !in old(collected) ==> sent == old(sent) + [ExecutionPayload(PathStr(cwd), SuccessStatus,
              Some(TestOutcome(id, ExceptionOutcome(excinfo.value.typeName), Some("Test failed with exception"), Some(longReprText), None)),
              ErrorField(errors))])
    {
      if isDiscovery {
        if excinfo.Some? && excinfo.value.typeName != "AssertionError" {
          if reportSkipped && callMentionsSkipTest {
            return;
          }
          errors := errors + [excinfo.value.exconly + LogHint];
        } else {
          errors := errors + [longReprText + LogHint];
        }
      } else {
        var reportValue := ExceptionOutcome(excinfo.value.typeName);
        var id := AbsoluteTestId(nodeid, nodePath);
        var outcome := CreateTestOutcome(id, reportValue, Some("Test failed with exception"), Some(longReprText), None);
        Report(id, outcome, cwd);
      }
    }

    /**
     * pytest_report_teststatus: only the call phase is reported, at most
     * once per absolute id; the test's file is looked up by its pytest id,
     * defaulting to the reporting directory.
     */
    method ReportTestStatus(report: TestReport)
      requires Valid()
      modifies this
      ensures Valid()
      ensures errors == old(errors) && mapIdToPath == old(mapIdToPath)
      ensures report.when != Call ==> sent == old(sent) && collected == old(collected) && attempts == old(attempts)
      ensures report.when == Call ==>
        var nodePath := if report.nodeid in mapIdToPath then mapIdToPath[report.nodeid] else ReportCwd();
        var id := AbsoluteTestId(report.nodeid, nodePath);
        var (kind, message) := CallOutcome(report);
        && attempts == old(attempts) + [id]
        && (id in old(collected) ==> sent == old(sent))
        && (id !in old(collected) ==> sent == old(sent) + [ExecutionPayload(PathStr(ReportCwd()), SuccessStatus,
              Some(TestOutcome(id, kind, message, None, None)), ErrorField(errors))])
    {
      var reportCwd := ReportCwd();
      if report.when == Call {
        var (reportValue, message) := CallOutcome(report);
        var nodePath := if report.nodeid in mapIdToPath then mapIdToPath[report.nodeid] else reportCwd;
        var id := AbsoluteTestId(report.nodeid, nodePath);
        var outcome := CreateTestOutcome(id, reportValue, message, None, None);
        Report(id, outcome, reportCwd);
      }
    }

    /**
     * pytest_runtest_protocol: records the item's file under its pytest id
     * and reports a skipped item, at most once, before it runs.
     */
    method RuntestProtocol(item: TestItem)
      requires Valid()
      modifies this
      ensures Valid()
      ensures errors == old(errors)
      ensures mapIdToPath == old(mapIdToPath)[item.nodeid := item.path]
      ensures !SkippedAtAnyLevel(item) ==> sent == old(sent) && collected == old(collected) && attempts == old(attempts)
      ensures SkippedAtAnyLevel(item) ==>
        var id := AbsoluteTestId(item.nodeid, item.path);
        && attempts == old(attempts) + [id]
        && (id in old(collected) ==> sent == old(sent))
        && (id !in old(collected) ==> sent == old(sent) + [ExecutionPayload(PathStr(cwd), SuccessStatus,
              Some(TestOutcome(id, Skipped, None, None, None)), ErrorField(errors))])
    {
      mapIdToPath := mapIdToPath[item.nodeid := item.path];
      var skipped := CheckSkippedWrapper(item);
      if skipped {
        var id := AbsoluteTestId(item.nodeid, item.path);
        var outcome := CreateTestOutcome(id, Skipped, None, None, None);
        Report(id, outcome, cwd);
      }
    }

    /** Sends one payload. */
    method Send(p: Payload)
      requires Valid()
      requires !(p.ExecutionPayload? && p.result.Some?)
      modifies this
      ensures Valid()
      ensures sent == old(sent) + [p]
      ensures errors == old(errors) && collected == old(collected) && mapIdToPath == old(mapIdToPath)
      ensures attempts == old(attempts)
    {
      ReportedIdsSnoc(sent, p);
      sent := sent + [p];
    }

    /** collected_tests_so_far, map_id_to_path and the attempted reports are as given. */
    ghost predicate KeepsReports(collected0: seq<string>, mapIdToPath0: map<string, Path>, attempts0: seq<string>)
      reads this
    {
      collected == collected0 && mapIdToPath == mapIdToPath0 && attempts == attempts0
    }

    /**
     * pytest_sessionfinish. A discovery run posts what FinishDiscovery
     * says; an execution run what FinishExecution says. The
     * end-of-transmission payload closes every run that does not raise.
     * `traceback` is the text traceback.format_exc gives.
     */
    method SessionFinish(exitStatus: int, session: Path, items: seq<TestItem>, traceback: string) returns (raised: bool)
      requires Valid()
      requires isDiscovery ==> FilesBelowSession(session, items)
      modifies this
      ensures Valid()
      ensures KeepsReports(old(collected), old(mapIdToPath), old(attempts))
      ensures raised <==> !isDiscovery && !(0 <= exitStatus <= 5)
      ensures raised ==> errors == old(errors) && sent == old(sent)
      ensures !raised ==> |sent| > |old(sent)| && sent[|sent| - 1] == EotPayload(if isDiscovery then Discovery else Execution)
      ensures isDiscovery ==> DiscoveryOutcome(old(errors), old(sent), errors, sent, exitStatus, session, items, traceback)
      ensures isDiscovery ==> |sent| == |old(sent)| + (if DiscoveryExitIsClean(exitStatus) then 2 else 3)
      ensures !raised && !isDiscovery ==> ExecutionOutcome(old(errors), old(sent), errors, sent, exitStatus)
    {
      if isDiscovery {
        FinishDiscovery(exitStatus, session, items, traceback);
        return false;
      }
      raised := FinishExecution(exitStatus);
    }

    /**
     * The payload post_response sends with the outcome of build_test_tree:
     * the tree it makes of `session`, or, when it raises, an error node
     * carrying the reporting directory; its status and errors are `errs`.
     */
    ghost predicate TreePosted(p: Payload, errs: seq<string>, session: Path, items: seq<TestItem>)
    {
      && p.DiscoveryPayload? && p.cwd == PathStr(ReportCwd())
      && p.status == StatusOf(errs) && p.errorList == errs
      && (p.tests.ErrorNode? <==> Raises(items))
      && (p.tests.ErrorNode? ==> p.tests.path == ReportCwd() && p.status == ErrorStatus)
      && (p.tests.SessionNode? ==> TreeOk(p.tests.tree, session, symlink, items))
    }

    /** The errors a discovery run has once build_test_tree has run, starting from `errors0`. */
    function ErrorsAfterBuild(errors0: seq<string>, items: seq<TestItem>, traceback: string): (r: seq<string>)
      ensures Raises(items) ==> r != []
    {
      errors0 + HaltNotes(items) + (if Raises(items) then ["Error Occurred, traceback: " + traceback] else [])
    }

    /**
     * What a discovery run has recorded and sent at session end, before
     * the end-of-transmission payload, starting from `errors0` and `sent0`
     * and ending with `errs` and `snt`: an error node first when pytest's
     * exit code is not 0, 1 or 5, then what TreePosted describes.
     */
    ghost predicate DiscoveryOutcome(errors0: seq<string>, sent0: seq<Payload>, errs: seq<string>, snt: seq<Payload>,
                                      exitStatus: int, session: Path, items: seq<TestItem>, traceback: string)
    {
      var first := if DiscoveryExitIsClean(exitStatus) then []
                   else [DiscoveryPayload(PathStr(ReportCwd()), StatusOf(errors0), ErrorNode(ReportCwd()), errors0)];
      && errs == ErrorsAfterBuild(errors0, items, traceback)
      && |snt| > |sent0| + |first|
      && snt[..|sent0| + |first|] == sent0 + first
      && TreePosted(snt[|sent0| + |first|], errs, session, items)
    }

    /**
     * What an execution run has recorded and sent at session end, before
     * the end-of-transmission payload: nothing for the exit codes 0 and 1,
     * the exit error, recorded and posted, for the codes 2 to 5.
     */
    predicate ExecutionOutcome(errors0: seq<string>, sent0: seq<Payload>, errs: seq<string>, snt: seq<Payload>, exitStatus: int)
    {
      if ExecutionExitIsSuccess(exitStatus) then
        errs == errors0 && snt == sent0 + [EotPayload(Execution)]
      else
        && 2 <= exitStatus <= 5
        && errs == errors0 + [ExitStatusError(exitStatus).value]
        && snt == sent0 + [ExecutionPayload(PathStr(ReportCwd()), ErrorStatus, None, Some(errs)), EotPayload(Execution)]
    }

    /** The discovery half of pytest_sessionfinish, with its end-of-transmission payload. */
    method FinishDiscovery(exitStatus: int, session: Path, items: seq<TestItem>, traceback: string)
      requires Valid() && isDiscovery && FilesBelowSession(session, items)
      modifies this
      ensures Valid()
      ensures KeepsReports(old(collected), old(mapIdToPath), old(attempts))
      ensures |sent| == |old(sent)| + (if DiscoveryExitIsClean(exitStatus) then 2 else 3)
      ensures sent[|sent| - 1] == EotPayload(Discovery)
      ensures DiscoveryOutcome(old(errors), old(sent), errors, sent, exitStatus, session, items, traceback)
    {
      var reportCwd := ReportCwd();
      if !DiscoveryExitIsClean(exitStatus) {
        Send(DiscoveryPayload(PathStr(reportCwd), StatusOf(errors), ErrorNode(reportCwd), errors));
      }
      ghost var sent1 := sent;
      PostTree(session, items, traceback);
      ghost var sent2 := sent;
      Send(EotPayload(Discovery));
      assert sent[..|sent1|] == sent1 && sent[..|sent2|] == sent2;
    }

    /**
     * The try block of pytest_sessionfinish in a discovery run:
     * build_test_tree's notes are recorded, then its tree is posted, or,
     * when it raises, the traceback is recorded and an error node posted.
     */
    method PostTree(session: Path, items: seq<TestItem>, traceback: string)
      requires Valid() && FilesBelowSession(session, items)
      modifies this
      ensures Valid()
      ensures KeepsReports(old(collected), old(mapIdToPath), old(attempts))
      ensures errors == ErrorsAfterBuild(old(errors), items, traceback)
      ensures |sent| == |old(sent)| + 1 && sent[..|old(sent)|] == old(sent)
      ensures TreePosted(sent[|old(sent)|], errors, session, items)
    {
      var reportCwd := ReportCwd();
      var r, notes := BuildTestTree(session, symlink, items);
      errors := errors + notes;
      if r.None? {
        errors := errors + ["Error Occurred, traceback: " + traceback];
        Send(DiscoveryPayload(PathStr(reportCwd), StatusOf(errors), ErrorNode(reportCwd), errors));
      } else {
        Send(DiscoveryPayload(PathStr(reportCwd), StatusOf(errors), SessionNode(r.value), errors));
      }
    }

    /**
     * The execution half of pytest_sessionfinish: exit codes 0 and 1 are a
     * success and post nothing, 2 to 5 record and post their error, and
     * any other code has no message, so the hook raises (`raised`) before
     * recording or sending anything; a run that does not raise ends with
     * the end-of-transmission payload.
     */
    method FinishExecution(exitStatus: int) returns (raised: bool)
      requires Valid() && !isDiscovery
      modifies this
      ensures Valid()
      ensures KeepsReports(old(collected), old(mapIdToPath), old(attempts))
      ensures raised <==> !(0 <= exitStatus <= 5)
      ensures raised ==> errors == old(errors) && sent == old(sent)
      ensures !raised ==> ExecutionOutcome(old(errors), old(sent), errors, sent, exitStatus)
    {
      raised := false;
      if !ExecutionExitIsSuccess(exitStatus) {
        var message := ExitStatusError(exitStatus);
        if message.None? {
          return true;
        }
        errors := errors + [message.value];
        Send(ExecutionPayload(PathStr(ReportCwd()), ErrorStatus, None, Some(errors)));
      }
      Send(EotPayload(Execution));
    }
  }
}
