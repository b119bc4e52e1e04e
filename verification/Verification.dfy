/** The deterministic verdict rules of a repair run. */
module Verification {
  import opened Prelude

  datatype FailureKind = NoKind | Infrastructure | SkippedRun | TestFailure | OtherKind

  /** A non-empty test result; a missing or empty one is `None`. */
  datatype TestResult = TestResult(
    failureKind: FailureKind, timedOut: bool, skippedReason: string, testsRan: bool, passed: bool,
    exitCode: Option<int>)

  datatype Outcome = Passed | Failed | Skipped | InfraError | NotRun

  predicate InfrastructureExit(exitCode: Option<int>) {
    exitCode.Some? && exitCode.value in {124, 125, 126, 127}
  }

  function Classify(result: Option<TestResult>): Outcome {
    if result.None? then NotRun
    else
      var r := result.value;
      if r.failureKind == Infrastructure || r.timedOut then InfraError
      else if r.failureKind == SkippedRun || r.skippedReason != "" then Skipped
      else if r.failureKind == TestFailure then Failed
      else if !r.testsRan then InfraError
      else if r.passed && r.exitCode == Some(0) then Passed
      else if InfrastructureExit(r.exitCode) then InfraError
      else Failed
  }

  /** A result counts as passed only when tests ran and exited with 0; the producer's flag alone is not enough. */
  lemma PassedIff(result: Option<TestResult>)
    ensures Classify(result) == Passed <==>
              && result.Some?
              && result.value.testsRan && result.value.passed && result.value.exitCode == Some(0)
              && !result.value.timedOut && result.value.skippedReason == ""
              && result.value.failureKind in {NoKind, OtherKind}
  {
  }

  /** The other outcomes. A time-out or a broken sandbox comes before anything the tests say, and a skipped run before
      a failure; tests that never ran, or ended with an exit code of the shell, say nothing about the code. */
  lemma OutcomeIff(result: Option<TestResult>)
    ensures Classify(result) == NotRun <==> result.None?
    ensures Classify(result) == InfraError <==>
              && result.Some?
              && (|| result.value.timedOut || result.value.failureKind == Infrastructure
                  || (&& result.value.failureKind in {NoKind, OtherKind} && result.value.skippedReason == ""
                      && (!result.value.testsRan
                          || result.value.exitCode in {Some(124), Some(125), Some(126), Some(127)})))
    ensures Classify(result) == Skipped <==>
              && result.Some? && !result.value.timedOut && result.value.failureKind != Infrastructure
              && (result.value.failureKind == SkippedRun || result.value.skippedReason != "")
    ensures Classify(result) == Failed <==>
              && result.Some? && !result.value.timedOut && result.value.skippedReason == ""
              && (|| result.value.failureKind == TestFailure
                  || (&& result.value.failureKind in {NoKind, OtherKind} && result.value.testsRan
                      && !(result.value.passed && result.value.exitCode == Some(0))
                      && result.value.exitCode !in {Some(124), Some(125), Some(126), Some(127)}))
  {
  }

  datatype Status = VerifiedSuccess | UnverifiedPatch | NotReproduced | FailedStatus | InfraErrorStatus

  /** The raw phase results a verdict is computed from; `applied` is `None` for an empty apply result. */
  datatype Evidence = Evidence(
    baseline: Option<TestResult>, applied: Option<bool>, targeted: Option<TestResult>, regression: Option<TestResult>)

  function DetermineStatus(e: Evidence): (Status, string) {
    var baseline, targeted, regression := Classify(e.baseline), Classify(e.targeted), Classify(e.regression);
    if baseline == InfraError then (InfraErrorStatus, "baseline_infrastructure_error")
    else if baseline == Passed then (NotReproduced, "baseline_already_passed")
    else if e.applied != Some(true) then (FailedStatus, "patch_not_applied")
    else if targeted == InfraError then (InfraErrorStatus, "targeted_test_infrastructure_error")
    else if targeted == Skipped || targeted == NotRun then (UnverifiedPatch, "targeted_tests_not_run")
    else if targeted == Failed then (FailedStatus, "targeted_tests_failed")
    else if regression == InfraError then (InfraErrorStatus, "regression_test_infrastructure_error")
    else if regression == Skipped || regression == NotRun then (UnverifiedPatch, "regression_tests_not_run")
    else if regression == Failed then (FailedStatus, "regression_tests_failed")
    else if baseline != Failed then (UnverifiedPatch, "baseline_failure_not_reproduced")
    else (VerifiedSuccess, "baseline_failed_and_post_patch_suites_passed")
  }

  /** The verdict is success exactly on complete evidence. */
  lemma VerifiedIff(e: Evidence)
    ensures DetermineStatus(e).0 == VerifiedSuccess <==>
              && Classify(e.baseline) == Failed
              && e.applied == Some(true)
              && Classify(e.targeted) == Passed
              && Classify(e.regression) == Passed
  {
  }

  datatype Phase = BaselinePhase | PatchPhase | TargetedPhase | RegressionPhase

  /** The phase leaves the verdict to the next one. */
  predicate Proceeds(e: Evidence, phase: Phase) {
    match phase
    case BaselinePhase => Classify(e.baseline) in {Failed, Skipped, NotRun}
    case PatchPhase => e.applied == Some(true)
    case TargetedPhase => Classify(e.targeted) == Passed
    case RegressionPhase => Classify(e.regression) == Passed
  }

  predicate Precedes(a: Phase, b: Phase) {
    match b
    case BaselinePhase => false
    case PatchPhase => a == BaselinePhase
    case TargetedPhase => a == BaselinePhase || a == PatchPhase
    case RegressionPhase => a != RegressionPhase
  }

  /** The first phase that does not proceed. */
  ghost predicate Decides(e: Evidence, phase: Phase) {
    !Proceeds(e, phase) && forall earlier: Phase :: Precedes(earlier, phase) ==> Proceeds(e, earlier)
  }

  /** Every phase went well, except perhaps that the baseline was not seen to fail. */
  ghost predicate NoneDecides(e: Evidence) {
    forall phase: Phase :: Proceeds(e, phase)
  }

  lemma DecidesIff(e: Evidence)
    ensures Decides(e, BaselinePhase) <==> Classify(e.baseline) in {Passed, InfraError}
    ensures Decides(e, PatchPhase) <==> Proceeds(e, BaselinePhase) && e.applied != Some(true)
    ensures Decides(e, TargetedPhase) <==>
              Proceeds(e, BaselinePhase) && e.applied == Some(true) && Classify(e.targeted) != Passed
    ensures Decides(e, RegressionPhase) <==>
              && Proceeds(e, BaselinePhase) && e.applied == Some(true) && Classify(e.targeted) == Passed
              && Classify(e.regression) != Passed
  {
    assert Precedes(BaselinePhase, PatchPhase);
    assert Precedes(BaselinePhase, TargetedPhase) && Precedes(PatchPhase, TargetedPhase);
    assert Precedes(BaselinePhase, RegressionPhase) && Precedes(PatchPhase, RegressionPhase);
    assert Precedes(TargetedPhase, RegressionPhase);
  }

  /** The result a phase is judged by; an unapplied patch has none. */
  function ResultOf(e: Evidence, phase: Phase): Option<TestResult> {
    match phase
    case BaselinePhase => e.baseline
    case PatchPhase => None
    case TargetedPhase => e.targeted
    case RegressionPhase => e.regression
  }

  /** Exactly which evidence gives each verdict: what the first phase that decides came to. */
  lemma StatusIff(e: Evidence)
    ensures var status := DetermineStatus(e).0;
            && (status == NotReproduced <==>
                  && e.baseline.Some? && e.baseline.value.testsRan && e.baseline.value.passed
                  && e.baseline.value.exitCode == Some(0) && !e.baseline.value.timedOut
                  && e.baseline.value.skippedReason == "" && e.baseline.value.failureKind in {NoKind, OtherKind})
            && (status == InfraErrorStatus <==>
                  exists phase: Phase :: Decides(e, phase) && Classify(ResultOf(e, phase)) == InfraError)
            && (status == FailedStatus <==>
                  || Decides(e, PatchPhase)
                  || exists phase: Phase :: Decides(e, phase) && Classify(ResultOf(e, phase)) == Failed)
            && (status == UnverifiedPatch <==>
                  || (NoneDecides(e) && Classify(e.baseline) != Failed)
                  || exists phase: Phase ::
                       phase != PatchPhase && Decides(e, phase) && Classify(ResultOf(e, phase)) in {Skipped, NotRun})
            && (status == VerifiedSuccess <==> NoneDecides(e) && Classify(e.baseline) == Failed)
  {
    DecidesIff(e);
    PassedIff(e.baseline);
    if !NoneDecides(e) {
      var phase: Phase :| !Proceeds(e, phase);
    }
  }

  /** The reason of a verdict names the phase that decides and what it came to; one of these is always the case. */
  lemma ReasonNamesThePhase(e: Evidence)
    ensures var reason := DetermineStatus(e).1;
            && (Classify(e.baseline) == InfraError ==> reason == "baseline_infrastructure_error")
            && (Classify(e.baseline) == Passed ==> reason == "baseline_already_passed")
            && (Decides(e, PatchPhase) ==> reason == "patch_not_applied")
            && (Decides(e, TargetedPhase) ==>
                  && (Classify(e.targeted) == InfraError ==> reason == "targeted_test_infrastructure_error")
                  && (Classify(e.targeted) in {Skipped, NotRun} ==> reason == "targeted_tests_not_run")
                  && (Classify(e.targeted) == Failed ==> reason == "targeted_tests_failed"))
            && (Decides(e, RegressionPhase) ==>
                  && (Classify(e.regression) == InfraError ==> reason == "regression_test_infrastructure_error")
                  && (Classify(e.regression) in {Skipped, NotRun} ==> reason == "regression_tests_not_run")
                  && (Classify(e.regression) == Failed ==> reason == "regression_tests_failed"))
            && (NoneDecides(e) ==>
                  reason == if Classify(e.baseline) == Failed then "baseline_failed_and_post_patch_suites_passed"
                            else "baseline_failure_not_reproduced")
    ensures NoneDecides(e) || exists phase: Phase :: Decides(e, phase)
  {
    DecidesIff(e);
    if !NoneDecides(e) {
      var phase: Phase :| !Proceeds(e, phase);
    }
  }

  datatype VerificationResult = VerificationResult(
    status: Status, reason: string, verified: bool, passed: bool, testsRan: bool, exitCode: Option<int>,
    baselineReproduced: bool, patchApplied: bool, targetedPassed: bool, regressionPassed: bool,
    baseline: Option<TestResult>, targeted: Option<TestResult>, regression: Option<TestResult>)

  function BuildVerificationResult(e: Evidence): VerificationResult {
    var (status, reason) := DetermineStatus(e);
    var last := if e.regression.Some? then e.regression else if e.targeted.Some? then e.targeted else e.baseline;
    var targetedPassed, regressionPassed := Classify(e.targeted) == Passed, Classify(e.regression) == Passed;
    VerificationResult(
      status, reason, status == VerifiedSuccess, status == VerifiedSuccess, targetedPassed && regressionPassed,
      if last.Some? then last.value.exitCode else None,
      Classify(e.baseline) == Failed, e.applied == Some(true), targetedPassed, regressionPassed,
      e.baseline, e.targeted, e.regression)
  }

  predicate EvidenceIsComplete(result: Option<VerificationResult>) {
    && result.Some? && result.value.status == VerifiedSuccess
    && Classify(result.value.baseline) == Failed
    && Classify(result.value.targeted) == Passed
    && Classify(result.value.regression) == Passed
    && result.value.patchApplied
  }

  /** The independent audit of a stored verdict accepts it exactly when it says verified,
      and a verified verdict reports a zero exit code and every phase as done. */
  lemma VerdictPassesAudit(e: Evidence)
    ensures var r := BuildVerificationResult(e);
            && (EvidenceIsComplete(Some(r)) <==> r.verified)
            && (r.verified <==> r.passed)
            && (r.verified ==> r.testsRan && r.baselineReproduced && r.patchApplied && r.exitCode == Some(0))
  {
    VerifiedIff(e);
    PassedIff(e.regression);
  }

  /** What the report says beside the verdict: each phase for itself, and the exit code of the last one with a
      result. */
  lemma VerdictReports(e: Evidence)
    ensures var r := BuildVerificationResult(e);
            && r.status == DetermineStatus(e).0 && r.reason == DetermineStatus(e).1
            && (r.baselineReproduced <==> Classify(e.baseline) == Failed)
            && (r.patchApplied <==> e.applied == Some(true))
            && (r.targetedPassed <==> Classify(e.targeted) == Passed)
            && (r.regressionPassed <==> Classify(e.regression) == Passed)
            && r.baseline == e.baseline && r.targeted == e.targeted && r.regression == e.regression
            && (e.regression.Some? ==> r.exitCode == e.regression.value.exitCode)
            && (e.regression.None? && e.targeted.Some? ==> r.exitCode == e.targeted.value.exitCode)
            && (e.regression.None? && e.targeted.None? && e.baseline.Some? ==>
                  r.exitCode == e.baseline.value.exitCode)
            && (e.regression.None? && e.targeted.None? && e.baseline.None? ==> r.exitCode == None)
  {
  }

  /** A hand-altered status does not pass the audit without the evidence. */
  lemma AuditNeedsEvidence(e: Evidence, status: Status)
    requires EvidenceIsComplete(Some(BuildVerificationResult(e).(status := status)))
    ensures DetermineStatus(e).0 == VerifiedSuccess
  {
    VerifiedIff(e);
  }

  // ----- Routing on test outcomes -----

  datatype Route = Continue | Final | Regression | Reflect

  function RetryOrFinish(iterations: int, maxIterations: int): Route {
    if iterations >= maxIterations then Final else Reflect
  }

  function RouteAfterReproduction(baseline: Option<TestResult>): Route {
    if Classify(baseline) in {Passed, InfraError} then Final else Continue
  }

  function RouteAfterTargetedTests(e: Evidence, iterations: int, maxIterations: int): Route {
    if e.applied != Some(true) then RetryOrFinish(iterations, maxIterations)
    else
      match Classify(e.targeted)
      case Passed => Regression
      case Failed => RetryOrFinish(iterations, maxIterations)
      case _ => Final
  }

  function RouteAfterRegressionChecks(e: Evidence, iterations: int, maxIterations: int): Route {
    if Classify(e.regression) == Failed then RetryOrFinish(iterations, maxIterations) else Final
  }

  /** A run stops after reproduction exactly when the baseline alone already decides the verdict. */
  lemma ReproductionDecides(baseline: Option<TestResult>)
    ensures RouteAfterReproduction(baseline) == Final <==>
              forall e: Evidence, f: Evidence ::
                e.baseline == baseline == f.baseline ==> DetermineStatus(e) == DetermineStatus(f)
  {
    if RouteAfterReproduction(baseline) != Final {
      var unapplied, untested := Evidence(baseline, None, None, None), Evidence(baseline, Some(true), None, None);
      assert DetermineStatus(unapplied) != DetermineStatus(untested);
    }
  }

  /** After a patch the run goes back to the planner exactly when the verdict so far is a failure of the patch itself
      and an iteration is left; it never retries a skipped phase or broken infrastructure. */
  lemma RetriesIffFailed(e: Evidence, iterations: int, maxIterations: int)
    requires RouteAfterReproduction(e.baseline) == Continue
    ensures RouteAfterTargetedTests(e, iterations, maxIterations) == Reflect <==>
              DetermineStatus(e.(regression := None)).0 == FailedStatus && iterations < maxIterations
    ensures RouteAfterTargetedTests(e, iterations, maxIterations) == Regression ==>
              (RouteAfterRegressionChecks(e, iterations, maxIterations) == Reflect <==>
                 DetermineStatus(e).0 == FailedStatus && iterations < maxIterations)
  {
  }

  /** The regression suite is reached exactly when its result can still make the verdict a success, the baseline
      having failed. */
  lemma RegressionIsReachedIff(e: Evidence, iterations: int, maxIterations: int)
    requires Classify(e.baseline) == Failed
    ensures RouteAfterTargetedTests(e, iterations, maxIterations) == Regression <==>
              exists result :: DetermineStatus(e.(regression := result)).0 == VerifiedSuccess
  {
    var passing := Some(TestResult(NoKind, false, "", true, true, Some(0)));
    PassedIff(passing);
    VerifiedIff(e.(regression := passing));
    forall result | DetermineStatus(e.(regression := result)).0 == VerifiedSuccess
      ensures RouteAfterTargetedTests(e, iterations, maxIterations) == Regression
    {
      VerifiedIff(e.(regression := result));
    }
  }
}
