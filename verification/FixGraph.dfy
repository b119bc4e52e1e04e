/** The repair lifecycle: its nodes, its edges, its pauses, and what every run of it keeps.

    A node changes only the channels it owns. What tools, planner and model contribute to a visit
    is an arbitrary input. */
module FixGraph {
  import opened Prelude
  import opened Verification
  import opened LocalLoop

  datatype Node =
    | InspectRepository | ReproduceFailure | InitializeAgentLoop
    | PlanNextAction | ExecuteLocalAction
    | PlanMCPTools | CallMCPTools | ObserveMCP | PauseForApproval | PauseForReconciliation
    | GenerateDiff | ApplyPatch | TargetedTests | RegressionChecks | ReflectOnFailure
    | FinalAnswer | End

  datatype ResumeFrom = NoResume | McpCall | McpObserve

  datatype RunStatus = Working | WaitingApproval | WaitingReconciliation | Concluded(verdict: VerificationResult)

  /** The channels that decide routes and verdict. The three epochs are history only: how many patches
      had been applied when each result was produced. */
  datatype State = State(
    evidence: Evidence,
    loop: LoopState,
    action: RawAction,
    route: LocalLoop.Route,
    plannerCalls: nat,
    plannerTokens: nat,
    patchIsDuplicate: bool,
    mcpRound: nat,
    mcpMaxRounds: nat,
    mcpCalls: nat,
    mcpMaxCalls: nat,
    mcpPlanHasCalls: bool,
    pendingApproval: bool,
    pendingExecution: bool,
    resumeFrom: ResumeFrom,
    iterations: nat,
    maxIterations: nat,
    status: RunStatus,
    epoch: nat,
    baselineEpoch: nat,
    targetedEpoch: nat,
    regressionEpoch: nat)

  datatype Settings = Settings(limits: Limits, routerAvailable: bool)

  datatype Configuration = Configuration(node: Node, state: State)

  /** What the world contributes to one visit of a node. */
  datatype World = World(
    test: TestResult, ok: bool, duplicate: bool, raw: RawAction, tokens: nat, deadlineReached: bool,
    observation: Observation, planHasCalls: bool, needsApproval: bool, unresolved: bool, calls: nat)

  // ----- Node bodies -----

  const FINISH := Wellformed(Finish("budget", "budget"))

  function PlannerBudgetViolation(limits: Limits, s: State, deadlineReached: bool): bool {
    || deadlineReached
    || s.plannerCalls >= limits.maxPlannerCalls
    || s.plannerTokens >= limits.maxPlannerTokens
    || s.loop.noProgress >= limits.maxNoProgress
  }

  const PATCH_ERROR := TestResult(OtherKind, false, "", false, false, Some(1))

  function Reflected(limits: Limits, loop: LoopState, o: Observation): LoopState {
    if o.digest in loop.evidenceFingerprints then loop
    else loop.(evidence := LastN(loop.evidence + [EvidenceItem(o.summary, o.digest)], limits.maxEvidence),
               evidenceFingerprints := LastN(loop.evidenceFingerprints + [o.digest], limits.maxEvidence))
  }

  function Visit(settings: Settings, node: Node, s: State, w: World): State {
    match node
    case InspectRepository => s
    case ReproduceFailure => s.(evidence := s.evidence.(baseline := Some(w.test)), baselineEpoch := s.epoch)
    case InitializeAgentLoop => s
    case PlanNextAction =>
      var violation := PlannerBudgetViolation(settings.limits, s, w.deadlineReached);
      var tokens := s.plannerTokens + if violation then 0 else w.tokens;
      s.(action := if violation || tokens > settings.limits.maxPlannerTokens then FINISH else w.raw,
         plannerCalls := s.plannerCalls + 1, plannerTokens := tokens)
    case ExecuteLocalAction =>
      var (loop, route) := Execute(settings.limits, s.loop, Input(s.action, w.deadlineReached, w.observation));
      s.(loop := loop, route := route)
    case PlanMCPTools =>
      if !settings.routerAvailable || s.mcpRound >= s.mcpMaxRounds then s.(mcpPlanHasCalls := false)
      else s.(mcpPlanHasCalls := w.planHasCalls && !w.needsApproval, pendingApproval := w.needsApproval)
    case CallMCPTools =>
      if !settings.routerAvailable then s
      else if w.unresolved then s.(pendingExecution := true, status := WaitingReconciliation)
      else s.(mcpRound := s.mcpRound + 1, mcpCalls := s.mcpCalls + w.calls, pendingExecution := false)
    case ObserveMCP =>
      s.(mcpPlanHasCalls := false, pendingApproval := false, pendingExecution := false, resumeFrom := NoResume)
    case PauseForApproval => s.(status := WaitingApproval)
    case PauseForReconciliation => s.(status := WaitingReconciliation)
    case GenerateDiff =>
      s.(patchIsDuplicate := w.duplicate,
         loop := s.loop.(noProgress := if w.duplicate then s.loop.noProgress + 1 else 0))
    case ApplyPatch => s.(evidence := s.evidence.(applied := Some(w.ok)), epoch := s.epoch + 1)
    case TargetedTests =>
      var result := if s.evidence.applied == Some(true) then w.test else PATCH_ERROR;
      s.(evidence := s.evidence.(targeted := Some(result), regression := None),
         targetedEpoch := s.epoch, iterations := s.iterations + 1)
    case RegressionChecks =>
      s.(evidence := s.evidence.(regression := Some(w.test)), regressionEpoch := s.epoch)
    case ReflectOnFailure =>
      s.(evidence := s.evidence.(applied := None), patchIsDuplicate := false, route := Plan,
         loop := Reflected(settings.limits, s.loop, w.observation))
    case FinalAnswer => s.(status := Concluded(BuildVerificationResult(s.evidence)))
    case End => s
  }

  // ----- Edges -----

  function AfterReflect(s: State): Node {
    if s.loop.finishReason.Some? then FinalAnswer else PlanNextAction
  }

  function AfterLocalAction(s: State): Node {
    match s.route
    case Generate => PlanMCPTools
    case Final => FinalAnswer
    case Plan => PlanNextAction
  }

  function AfterPatchGeneration(s: State): Node {
    if s.patchIsDuplicate then PlanNextAction else ApplyPatch
  }

  function AfterMcpPlan(s: State): Node {
    if s.pendingApproval then PauseForApproval else if s.mcpPlanHasCalls then CallMCPTools else GenerateDiff
  }

  function AfterMcpObserve(s: State): Node {
    if s.mcpRound >= s.mcpMaxRounds then GenerateDiff
    else if s.mcpCalls >= s.mcpMaxCalls then GenerateDiff
    else PlanMCPTools
  }

  function AfterMcpCall(s: State): Node {
    if s.pendingExecution then PauseForReconciliation else ObserveMCP
  }

  function GraphEntry(s: State): Node {
    match s.resumeFrom
    case McpCall => CallMCPTools
    case McpObserve => ObserveMCP
    case NoResume => InspectRepository
  }

  function Verdict(route: Verification.Route): Node {
    match route
    case Final => FinalAnswer
    case Continue => InitializeAgentLoop
    case Regression => RegressionChecks
    case Reflect => ReflectOnFailure
  }

  /** The edge taken after `node` has left the channels as `s`. */
  function Successor(node: Node, s: State): Node {
    match node
    case InspectRepository => ReproduceFailure
    case ReproduceFailure => Verdict(RouteAfterReproduction(s.evidence.baseline))
    case InitializeAgentLoop => PlanNextAction
    case PlanNextAction => ExecuteLocalAction
    case ExecuteLocalAction => AfterLocalAction(s)
    case PlanMCPTools => AfterMcpPlan(s)
    case CallMCPTools => AfterMcpCall(s)
    case ObserveMCP => AfterMcpObserve(s)
    case PauseForApproval => End
    case PauseForReconciliation => End
    case GenerateDiff => AfterPatchGeneration(s)
    case ApplyPatch => TargetedTests
    case TargetedTests => Verdict(RouteAfterTargetedTests(s.evidence, s.iterations, s.maxIterations))
    case RegressionChecks => Verdict(RouteAfterRegressionChecks(s.evidence, s.iterations, s.maxIterations))
    case ReflectOnFailure => AfterReflect(s)
    case FinalAnswer => End
    case End => End
  }

  // ----- Runs -----

  /** A visit of the current node, or the resumption of a paused run by a later job. */
  datatype Move = Visiting(world: World) | ResumeApproval(approved: bool) | ResumeExecution

  function Step(settings: Settings, c: Configuration, move: Move): Configuration {
    match move
    case Visiting(w) =>
      var s := Visit(settings, c.node, c.state, w);
      Configuration(Successor(c.node, s), s)
    case ResumeApproval(approved) =>
      if c.node == End && c.state.status == WaitingApproval then
        var s := c.state.(pendingApproval := false, mcpPlanHasCalls := false, mcpRound := c.state.mcpRound + 1,
                          mcpCalls := c.state.mcpCalls + (if approved then 1 else 0),
                          resumeFrom := McpObserve, status := Working);
        Configuration(GraphEntry(s), s)
      else c
    case ResumeExecution =>
      if c.node == End && c.state.status == WaitingReconciliation then
        var s := c.state.(pendingExecution := false, resumeFrom := McpCall, status := Working);
        Configuration(GraphEntry(s), s)
      else c
  }

  function Run(settings: Settings, c: Configuration, moves: seq<Move>): Configuration
    decreases |moves|
  {
    if moves == [] then c else Run(settings, Step(settings, c, moves[0]), moves[1..])
  }

  function Start(maxRounds: nat, maxCalls: nat, maxIterations: nat): Configuration {
    Configuration(InspectRepository,
      State(Evidence(None, None, None, None), FRESH, Malformed, Plan, 0, 0, false, 0, maxRounds, 0, maxCalls,
            false, false, false, NoResume, 0, maxIterations, Working, 0, 0, 0, 0))
  }

  // ----- No stale evidence -----

  predicate RegressionPassed(s: State) {
    Classify(s.evidence.regression) == Passed
  }

  /** A passing regression result exists only on the edge into the final answer, and then belongs to the
      same patch as the targeted result; the baseline was taken before any patch. */
  ghost predicate EvidenceIsFresh(c: Configuration) {
    var s := c.state;
    && s.baselineEpoch == 0
    && (c.node == InspectRepository || c.node == ReproduceFailure ==> s.epoch == 0)
    && (s.evidence.applied.Some? ==> s.epoch >= 1)
    && (c.node == RegressionChecks ==> s.targetedEpoch == s.epoch)
    && (RegressionPassed(s) ==>
          && (c.node == FinalAnswer || (c.node == End && s.status.Concluded?))
          && s.targetedEpoch == s.regressionEpoch == s.epoch)
    && (s.status.Concluded? ==> c.node == End && s.status.verdict == BuildVerificationResult(s.evidence))
    && (c.node == End ==> s.status != Working)
  }

  lemma VisitKeepsFresh(settings: Settings, c: Configuration, w: World)
    requires EvidenceIsFresh(c)
    ensures EvidenceIsFresh(Step(settings, c, Visiting(w)))
  {
    if ChangesEvidence(c.node) {
      EvidenceVisitKeepsFresh(settings, c, w);
    } else if ConcernsTools(c.node) {
      ToolVisitKeepsFresh(settings, c, w);
    } else {
      OtherVisitKeepsFresh(settings, c, w);
    }
  }

  /** The nodes that own the results, and the one that judges them. */
  predicate ChangesEvidence(node: Node) {
    node in {ReproduceFailure, ApplyPatch, TargetedTests, RegressionChecks, ReflectOnFailure, FinalAnswer}
  }

  lemma EvidenceVisitKeepsFresh(settings: Settings, c: Configuration, w: World)
    requires EvidenceIsFresh(c) && ChangesEvidence(c.node)
    ensures EvidenceIsFresh(Step(settings, c, Visiting(w)))
  {
  }

  /** The nodes of an MCP round, and the two pauses. */
  predicate ConcernsTools(node: Node) {
    node in {PlanMCPTools, CallMCPTools, ObserveMCP, PauseForApproval, PauseForReconciliation}
  }

  /** What a node that owns no result leaves alone. */
  ghost predicate LeavesEvidence(c: Configuration, next: Configuration) {
    && next.state.evidence == c.state.evidence && next.state.epoch == c.state.epoch
    && next.state.baselineEpoch == c.state.baselineEpoch && next.state.targetedEpoch == c.state.targetedEpoch
    && next.state.regressionEpoch == c.state.regressionEpoch
    && (next.state.status == c.state.status || next.state.status == WaitingApproval
        || next.state.status == WaitingReconciliation)
    && (next.node == End ==> next.state.status != Working)
    && next.node !in {InspectRepository, RegressionChecks}
    && (next.node == ReproduceFailure ==> c.node == InspectRepository)
  }

  lemma LeavingEvidenceKeepsFresh(c: Configuration, next: Configuration)
    requires EvidenceIsFresh(c) && LeavesEvidence(c, next) && c.node !in {FinalAnswer, End}
    ensures EvidenceIsFresh(next)
  {
  }

  lemma ToolVisitKeepsFresh(settings: Settings, c: Configuration, w: World)
    requires EvidenceIsFresh(c) && ConcernsTools(c.node)
    ensures EvidenceIsFresh(Step(settings, c, Visiting(w)))
  {
    LeavingEvidenceKeepsFresh(c, Step(settings, c, Visiting(w)));
  }

  lemma OtherVisitKeepsFresh(settings: Settings, c: Configuration, w: World)
    requires EvidenceIsFresh(c) && !ChangesEvidence(c.node) && !ConcernsTools(c.node)
    ensures EvidenceIsFresh(Step(settings, c, Visiting(w)))
  {
    if c.node != End {
      LeavingEvidenceKeepsFresh(c, Step(settings, c, Visiting(w)));
    }
  }

  lemma StepKeepsFresh(settings: Settings, c: Configuration, move: Move)
    requires EvidenceIsFresh(c)
    ensures EvidenceIsFresh(Step(settings, c, move))
  {
    if move.Visiting? {
      VisitKeepsFresh(settings, c, move.world);
    }
  }

  lemma {:induction false} RunKeepsFresh(settings: Settings, c: Configuration, moves: seq<Move>)
    requires EvidenceIsFresh(c)
    ensures EvidenceIsFresh(Run(settings, c, moves))
    decreases |moves|
  {
    if moves != [] {
      StepKeepsFresh(settings, c, moves[0]);
      RunKeepsFresh(settings, Step(settings, c, moves[0]), moves[1..]);
    }
  }

  /** On every run, resumed ones included, a verified verdict means the baseline was observed failing before any
      patch, and the passing targeted and regression results both belong to the last applied patch. */
  lemma NoStaleEvidence(settings: Settings, maxRounds: nat, maxCalls: nat, maxIterations: nat, moves: seq<Move>)
    ensures var s := Run(settings, Start(maxRounds, maxCalls, maxIterations), moves).state;
            s.status.Concluded? && s.status.verdict.verified ==>
              && Classify(s.evidence.baseline) == Failed && s.baselineEpoch == 0
              && s.evidence.applied == Some(true) && s.epoch >= 1
              && Classify(s.evidence.targeted) == Passed && s.targetedEpoch == s.epoch
              && Classify(s.evidence.regression) == Passed && s.regressionEpoch == s.epoch
              && s.status.verdict.baseline == s.evidence.baseline
              && s.status.verdict.targeted == s.evidence.targeted
              && s.status.verdict.regression == s.evidence.regression
  {
    RunKeepsFresh(settings, Start(maxRounds, maxCalls, maxIterations), moves);
    VerifiedIff(Run(settings, Start(maxRounds, maxCalls, maxIterations), moves).state.evidence);
  }

  // ----- No patch without a trustworthy baseline, and only so many attempts -----

  predicate PreparesOnly(node: Node) {
    node in {InspectRepository, ReproduceFailure, FinalAnswer, End}
  }

  predicate BaselineAllowsPatch(s: State) {
    Classify(s.evidence.baseline) in {Failed, Skipped}
  }

  /** Patching starts only from a baseline that neither passed nor broke down. */
  ghost predicate BaselineInv(c: Configuration) {
    var s := c.state;
    && (c.node == ReproduceFailure || c.node == InspectRepository ==> s.epoch == 0 && s.status == Working)
    && (s.epoch > 0 || !PreparesOnly(c.node) || s.status == WaitingApproval || s.status == WaitingReconciliation ==>
          BaselineAllowsPatch(s))
    && (c.node == End ==> s.status != Working)
  }

  /** Each attempt is tested once, and a further one needs an iteration left. */
  ghost predicate AttemptsInv(c: Configuration) {
    var s := c.state;
    && s.epoch == s.iterations + (if c.node == TargetedTests then 1 else 0)
    && s.epoch <= Max(1, s.maxIterations)
    && (c.node !in {TargetedTests, RegressionChecks, FinalAnswer, End} ==> s.epoch == 0 || s.epoch < s.maxIterations)
    && (c.node == End && !s.status.Concluded? ==> s.epoch == 0 || s.epoch < s.maxIterations)
    && (s.status.Concluded? ==> c.node == End)
    && (c.node == End ==> s.status != Working)
  }

  lemma StepKeepsBaseline(settings: Settings, c: Configuration, move: Move)
    requires BaselineInv(c)
    ensures BaselineInv(Step(settings, c, move))
  {
  }

  lemma StepKeepsAttempts(settings: Settings, c: Configuration, move: Move)
    requires AttemptsInv(c)
    ensures AttemptsInv(Step(settings, c, move))
    ensures Step(settings, c, move).state.maxIterations == c.state.maxIterations
  {
    if move.Visiting? {
      if ChangesEvidence(c.node) {
        EvidenceVisitKeepsAttempts(settings, c, move.world);
      } else if ConcernsTools(c.node) {
        ToolVisitKeepsAttempts(settings, c, move.world);
      } else {
        OtherVisitKeepsAttempts(settings, c, move.world);
      }
    }
  }

  lemma EvidenceVisitKeepsAttempts(settings: Settings, c: Configuration, w: World)
    requires AttemptsInv(c) && ChangesEvidence(c.node)
    ensures var next := Step(settings, c, Visiting(w));
            AttemptsInv(next) && next.state.maxIterations == c.state.maxIterations
  {
  }

  lemma ToolVisitKeepsAttempts(settings: Settings, c: Configuration, w: World)
    requires AttemptsInv(c) && ConcernsTools(c.node)
    ensures var next := Step(settings, c, Visiting(w));
            AttemptsInv(next) && next.state.maxIterations == c.state.maxIterations
  {
  }

  lemma OtherVisitKeepsAttempts(settings: Settings, c: Configuration, w: World)
    requires AttemptsInv(c) && !ChangesEvidence(c.node) && !ConcernsTools(c.node)
    ensures var next := Step(settings, c, Visiting(w));
            AttemptsInv(next) && next.state.maxIterations == c.state.maxIterations
  {
  }

  lemma {:induction false} RunKeepsAttempts(settings: Settings, c: Configuration, moves: seq<Move>)
    requires BaselineInv(c) && AttemptsInv(c)
    ensures BaselineInv(Run(settings, c, moves)) && AttemptsInv(Run(settings, c, moves))
    ensures Run(settings, c, moves).state.maxIterations == c.state.maxIterations
    decreases |moves|
  {
    if moves != [] {
      StepKeepsBaseline(settings, c, moves[0]);
      StepKeepsAttempts(settings, c, moves[0]);
      RunKeepsAttempts(settings, Step(settings, c, moves[0]), moves[1..]);
    }
  }

  /** No run patches after a passing or broken baseline, and no run applies more patches than its iterations allow. */
  lemma PatchAttemptsBounded(settings: Settings, maxRounds: nat, maxCalls: nat, maxIterations: nat, moves: seq<Move>)
    ensures var s := Run(settings, Start(maxRounds, maxCalls, maxIterations), moves).state;
            && s.epoch <= Max(1, maxIterations)
            && (s.epoch > 0 ==> Classify(s.evidence.baseline) in {Failed, Skipped})
  {
    RunKeepsAttempts(settings, Start(maxRounds, maxCalls, maxIterations), moves);
  }

  // ----- Termination -----

  /** How many more times the planner can be visited. */
  function PlannerVisits(settings: Settings, c: Configuration): nat {
    if c.node in {FinalAnswer, PauseForApproval, PauseForReconciliation, End} then 0
    else if c.node == ExecuteLocalAction && c.state.action.Wellformed? && c.state.action.action.Finish? then 0
    else Max(1, settings.limits.maxPlannerCalls + 1 - c.state.plannerCalls)
  }

  function RoundsLeft(s: State): nat {
    Max(0, s.mcpMaxRounds - s.mcpRound)
  }

  /** The longest way from a node to the next planner visit, inside one MCP round. */
  function Distance(settings: Settings, c: Configuration): nat {
    match c.node
    case End => 0
    case FinalAnswer => 1
    case PauseForApproval => 1
    case PauseForReconciliation => 1
    case PlanNextAction => 2
    case ReflectOnFailure => 3
    case RegressionChecks => 4
    case TargetedTests => 5
    case ApplyPatch => 6
    case GenerateDiff => 7
    case CallMCPTools => if settings.routerAvailable && RoundsLeft(c.state) > 0 then 8 else 11
    case PlanMCPTools => 9
    case ObserveMCP => 10
    case ExecuteLocalAction => 12
    case InitializeAgentLoop => 13
    case ReproduceFailure => 14
    case InspectRepository => 15
  }

  function Remaining(settings: Settings, c: Configuration): nat {
    11 * PlannerVisits(settings, c) + 3 * RoundsLeft(c.state) + Distance(settings, c)
  }

  /** Every visit brings the run closer to its end. */
  lemma VisitDecreases(settings: Settings, c: Configuration, w: World)
    requires c.node != End
    ensures Remaining(settings, Step(settings, c, Visiting(w))) < Remaining(settings, c)
  {
    match c.node
    case ExecuteLocalAction => LocalActionDecreases(settings, c, w);
    case PlanMCPTools => McpVisitDecreases(settings, c, w);
    case CallMCPTools => McpVisitDecreases(settings, c, w);
    case ObserveMCP => McpVisitDecreases(settings, c, w);
    case InspectRepository => PreparationDecreases(settings, c, w);
    case ReproduceFailure => PreparationDecreases(settings, c, w);
    case InitializeAgentLoop => PreparationDecreases(settings, c, w);
    case PlanNextAction => PreparationDecreases(settings, c, w);
    case _ => PatchVisitDecreases(settings, c, w);
  }

  lemma LocalActionDecreases(settings: Settings, c: Configuration, w: World)
    requires c.node == ExecuteLocalAction
    ensures Remaining(settings, Step(settings, c, Visiting(w))) < Remaining(settings, c)
  {
    var s := Visit(settings, ExecuteLocalAction, c.state, w);
    assert s.plannerCalls == c.state.plannerCalls && RoundsLeft(s) == RoundsLeft(c.state);
    if c.state.action.Wellformed? && c.state.action.action.Finish? {
      assert Step(settings, c, Visiting(w)).node == FinalAnswer;
    } else {
      assert AfterLocalAction(s) in {PlanMCPTools, FinalAnswer, PlanNextAction};
    }
  }

  lemma McpVisitDecreases(settings: Settings, c: Configuration, w: World)
    requires c.node in {PlanMCPTools, CallMCPTools, ObserveMCP}
    ensures Remaining(settings, Step(settings, c, Visiting(w))) < Remaining(settings, c)
  {
  }

  lemma PreparationDecreases(settings: Settings, c: Configuration, w: World)
    requires c.node in {InspectRepository, ReproduceFailure, InitializeAgentLoop, PlanNextAction}
    ensures Remaining(settings, Step(settings, c, Visiting(w))) < Remaining(settings, c)
  {
  }

  lemma PatchVisitDecreases(settings: Settings, c: Configuration, w: World)
    requires c.node in {PauseForApproval, PauseForReconciliation, GenerateDiff, ApplyPatch, TargetedTests,
                        RegressionChecks, ReflectOnFailure, FinalAnswer}
    ensures Remaining(settings, Step(settings, c, Visiting(w))) < Remaining(settings, c)
  {
  }

  lemma {:induction false} EndsWithinRemaining(settings: Settings, c: Configuration, worlds: seq<World>)
    requires |worlds| >= Remaining(settings, c)
    ensures Run(settings, c, seq(|worlds|, i requires 0 <= i < |worlds| => Visiting(worlds[i]))).node == End
    decreases |worlds|
  {
    var moves := seq(|worlds|, i requires 0 <= i < |worlds| => Visiting(worlds[i]));
    if c.node == End {
      StaysEnded(settings, c, moves);
    } else {
      VisitDecreases(settings, c, worlds[0]);
      EndsWithinRemaining(settings, Step(settings, c, moves[0]), worlds[1..]);
      assert moves[1..] == seq(|worlds[1..]|, i requires 0 <= i < |worlds[1..]| => Visiting(worlds[1..][i]));
    }
  }

  lemma {:induction false} StaysEnded(settings: Settings, c: Configuration, moves: seq<Move>)
    requires c.node == End
    requires forall i :: 0 <= i < |moves| ==> moves[i].Visiting?
    ensures Run(settings, c, moves) == c
    decreases |moves|
  {
    if moves != [] {
      StaysEnded(settings, Step(settings, c, moves[0]), moves[1..]);
    }
  }

  /** Every uninterrupted run from the start ends, concluded or paused, within a bound set by the planner
      budget and the MCP rounds alone. */
  lemma EveryRunEnds(settings: Settings, maxRounds: nat, maxCalls: nat, maxIterations: nat, worlds: seq<World>)
    requires |worlds| >= 11 * (settings.limits.maxPlannerCalls + 1) + 3 * maxRounds + 15
    ensures var c := Run(settings, Start(maxRounds, maxCalls, maxIterations),
                         seq(|worlds|, i requires 0 <= i < |worlds| => Visiting(worlds[i])));
            c.node == End && c.state.status != Working
  {
    var c := Start(maxRounds, maxCalls, maxIterations);
    EndsWithinRemaining(settings, c, worlds);
    RunKeepsFresh(settings, c, seq(|worlds|, i requires 0 <= i < |worlds| => Visiting(worlds[i])));
  }

  /** So does every resumed run, from wherever it was paused. */
  lemma EveryResumedRunEnds(settings: Settings, c: Configuration, resume: Move, worlds: seq<World>)
    requires EvidenceIsFresh(c) && !resume.Visiting?
    requires |worlds| >= 11 * (settings.limits.maxPlannerCalls + 1) + 3 * c.state.mcpMaxRounds + 15
    ensures var moves := seq(|worlds|, i requires 0 <= i < |worlds| => Visiting(worlds[i]));
            var ended := Run(settings, Step(settings, c, resume), moves);
            ended.node == End && ended.state.status != Working
  {
    var next := Step(settings, c, resume);
    StepKeepsFresh(settings, c, resume);
    EndsWithinRemaining(settings, next, worlds);
    RunKeepsFresh(settings, next, seq(|worlds|, i requires 0 <= i < |worlds| => Visiting(worlds[i])));
  }

  // ----- Success is reachable -----

  lemma {:induction false} RunMore(settings: Settings, c: Configuration, moves: seq<Move>, move: Move)
    ensures Run(settings, c, moves + [move]) == Step(settings, Run(settings, c, moves), move)
    decreases |moves|
  {
    if moves == [] {
      assert moves + [move] == [move];
    } else {
      assert (moves + [move])[1..] == moves[1..] + [move];
      RunMore(settings, Step(settings, c, moves[0]), moves[1..], move);
    }
  }

  /** A failing baseline, then a patch after which both suites pass. */
  lemma VerifiedRunExists(settings: Settings, world: World) returns (moves: seq<Move>)
    requires settings.limits.Valid() && !settings.routerAvailable
    requires !world.deadlineReached && world.tokens == 0 && world.raw == Wellformed(GeneratePatch("h")) && world.ok
    requires !world.duplicate
    ensures var s := Run(settings, Start(0, 0, 1), moves).state; s.status.Concluded? && s.status.verdict.verified
  {
    var failing := world.(test := TestResult(TestFailure, false, "", true, false, Some(1)));
    var passing := world.(test := TestResult(NoKind, false, "", true, true, Some(0)));
    moves := ReachesPlanner(settings, failing);
    moves := ReachesPatch(settings, moves, passing);
    moves := PassesSuites(settings, moves, passing);
    moves := Concludes(settings, moves, passing);
  }

  lemma Concludes(settings: Settings, before: seq<Move>, w: World) returns (moves: seq<Move>)
    requires var c := Run(settings, Start(0, 0, 1), before);
             c.node == FinalAnswer && DetermineStatus(c.state.evidence).0 == VerifiedSuccess
    ensures var s := Run(settings, Start(0, 0, 1), moves).state; s.status.Concluded? && s.status.verdict.verified
  {
    moves := before + [Visiting(w)];
    RunMore(settings, Start(0, 0, 1), before, Visiting(w));
  }

  lemma PassesSuites(settings: Settings, before: seq<Move>, w: World) returns (moves: seq<Move>)
    requires w.ok && Classify(Some(w.test)) == Passed
    requires var c := Run(settings, Start(0, 0, 1), before);
             c.node == ApplyPatch && Classify(c.state.evidence.baseline) == Failed
    ensures var c := Run(settings, Start(0, 0, 1), moves);
            c.node == FinalAnswer && DetermineStatus(c.state.evidence).0 == VerifiedSuccess
  {
    var start := Start(0, 0, 1);
    moves := before;
    RunMore(settings, start, moves, Visiting(w));
    moves := moves + [Visiting(w)];
    RunMore(settings, start, moves, Visiting(w));
    moves := moves + [Visiting(w)];
    RunMore(settings, start, moves, Visiting(w));
    moves := moves + [Visiting(w)];
    VerifiedIff(Run(settings, start, moves).state.evidence);
  }

  lemma ReachesPlanner(settings: Settings, w: World) returns (moves: seq<Move>)
    requires settings.limits.Valid() && Classify(Some(w.test)) == Failed
    ensures var c := Run(settings, Start(0, 0, 1), moves);
            && c.node == PlanNextAction && Classify(c.state.evidence.baseline) == Failed
            && c.state == Start(0, 0, 1).state.(evidence := c.state.evidence)
  {
    var start := Start(0, 0, 1);
    moves := [];
    RunMore(settings, start, moves, Visiting(w));
    moves := moves + [Visiting(w)];
    RunMore(settings, start, moves, Visiting(w));
    moves := moves + [Visiting(w)];
    RunMore(settings, start, moves, Visiting(w));
    moves := moves + [Visiting(w)];
  }

  lemma ReachesPatch(settings: Settings, before: seq<Move>, w: World) returns (moves: seq<Move>)
    requires settings.limits.Valid() && !settings.routerAvailable
    requires !w.deadlineReached && w.tokens == 0 && w.raw == Wellformed(GeneratePatch("h")) && !w.duplicate
    requires var c := Run(settings, Start(0, 0, 1), before);
             && c.node == PlanNextAction && Classify(c.state.evidence.baseline) == Failed
             && c.state == Start(0, 0, 1).state.(evidence := c.state.evidence)
    ensures var c := Run(settings, Start(0, 0, 1), moves);
            && c.node == ApplyPatch && Classify(c.state.evidence.baseline) == Failed
            && c.state.iterations == 0 && c.state.maxIterations == 1
  {
    var start := Start(0, 0, 1);
    moves := before;
    RunMore(settings, start, moves, Visiting(w));
    moves := moves + [Visiting(w)];
    RunMore(settings, start, moves, Visiting(w));
    moves := moves + [Visiting(w)];
    RunMore(settings, start, moves, Visiting(w));
    moves := moves + [Visiting(w)];
    RunMore(settings, start, moves, Visiting(w));
    moves := moves + [Visiting(w)];
  }
}
