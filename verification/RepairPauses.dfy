/** Where a repair run pauses for people and where it goes on: which visits halt it, what a resumption leads to, and how
    many rounds of remote calls there can be. Runs are those of the whole graph, resumptions included. */
module RepairPauses {
  import opened Prelude
  import opened Verification
  import opened LocalLoop
  import opened FixGraph

  datatype Pause = ForApproval | ForReconciliation

  function Waiting(pause: Pause): RunStatus {
    if pause == ForApproval then WaitingApproval else WaitingReconciliation
  }

  function PauseNode(pause: Pause): Node {
    if pause == ForApproval then PauseForApproval else PauseForReconciliation
  }

  /** The visit finds that someone must approve a call, or that the outcome of one is unknown. */
  predicate Asks(settings: Settings, c: Configuration, move: Move, pause: Pause) {
    && move.Visiting? && settings.routerAvailable
    && match pause
       case ForApproval =>
         c.node == PlanMCPTools && c.state.mcpRound < c.state.mcpMaxRounds && move.world.needsApproval
       case ForReconciliation => c.node == CallMCPTools && move.world.unresolved
  }

  /** Someone has decided. */
  predicate Resumes(c: Configuration, move: Move, pause: Pause) {
    && c.node == End && c.state.status == Waiting(pause)
    && if pause == ForApproval then move.ResumeApproval? else move.ResumeExecution?
  }

  /** On the way to the pause, or there. */
  predicate Halted(c: Configuration, pause: Pause) {
    c.node == PauseNode(pause) || (c.node == End && c.state.status == Waiting(pause))
  }

  /** No move is the decision the run waits for. */
  predicate Unresumed(settings: Settings, c: Configuration, moves: seq<Move>, pause: Pause)
    decreases |moves|
  {
    moves == [] || (!Resumes(c, moves[0], pause) && Unresumed(settings, Step(settings, c, moves[0]), moves[1..], pause))
  }

  // ----- A run halts when it should -----

  lemma AskHalts(settings: Settings, c: Configuration, move: Move, pause: Pause)
    requires Asks(settings, c, move, pause)
    ensures var next := Step(settings, c, move);
            && next.node == PauseNode(pause)
            && SameWork(c, next)
  {
  }

  /** No patch, no tool call, no planner call, no round. */
  predicate SameWork(c: Configuration, next: Configuration) {
    && next.state.epoch == c.state.epoch && next.state.evidence == c.state.evidence
    && next.state.iterations == c.state.iterations && next.state.loop == c.state.loop
    && next.state.plannerCalls == c.state.plannerCalls
    && next.state.mcpRound == c.state.mcpRound && next.state.mcpCalls == c.state.mcpCalls
  }

  lemma HaltStays(settings: Settings, c: Configuration, move: Move, pause: Pause)
    requires Halted(c, pause) && !Resumes(c, move, pause)
    ensures var next := Step(settings, c, move);
            && Halted(next, pause) && SameWork(c, next)
            && (next.node == End <==> c.node == End || move.Visiting?)
  {
  }

  ghost predicate AnyVisit(moves: seq<Move>) {
    exists i :: 0 <= i < |moves| && moves[i].Visiting?
  }

  lemma {:induction false} HaltedRun(settings: Settings, c: Configuration, moves: seq<Move>, pause: Pause)
    requires Halted(c, pause) && Unresumed(settings, c, moves, pause)
    ensures var d := Run(settings, c, moves);
            && Halted(d, pause) && SameWork(c, d)
            && (d.node == End <==> c.node == End || AnyVisit(moves))
    decreases |moves|
  {
    if moves != [] {
      HaltStays(settings, c, moves[0], pause);
      HaltedRun(settings, Step(settings, c, moves[0]), moves[1..], pause);
      VisitFirstOrLater(moves);
    }
  }

  lemma VisitFirstOrLater(moves: seq<Move>)
    requires moves != []
    ensures AnyVisit(moves) <==> moves[0].Visiting? || AnyVisit(moves[1..])
  {
    if i :| 0 <= i < |moves[1..]| && moves[1..][i].Visiting? {
      assert moves[i + 1].Visiting?;
    }
    if i :| 0 < i < |moves| && moves[i].Visiting? {
      assert moves[1..][i - 1].Visiting?;
    }
  }

  lemma {:induction false} RunBoth(settings: Settings, c: Configuration, a: seq<Move>, b: seq<Move>)
    ensures Run(settings, c, a + b) == Run(settings, Run(settings, c, a), b)
    decreases |a|
  {
    if a == [] {
      assert a + b == b;
    } else {
      assert (a + b)[0] == a[0] && (a + b)[1..] == a[1..] + b;
      RunBoth(settings, Step(settings, c, a[0]), a[1..], b);
    }
  }

  /** A run that has asked stays at its pause until someone decides: whatever else happens, nothing is patched, called
      or planned, and with the next visit it is over, waiting. */
  lemma PausesWhenAsked(
    settings: Settings, maxRounds: nat, maxCalls: nat, maxIterations: nat, before: seq<Move>, ask: Move,
    after: seq<Move>, pause: Pause)
    requires var c := Run(settings, Start(maxRounds, maxCalls, maxIterations), before);
             Asks(settings, c, ask, pause) && Unresumed(settings, Step(settings, c, ask), after, pause)
    ensures var start := Start(maxRounds, maxCalls, maxIterations);
            var c, d := Run(settings, start, before), Run(settings, start, before + ([ask] + after));
            && d.node in {PauseNode(pause), End} && SameWork(c, d)
            && (AnyVisit(after) ==> d.node == End && d.state.status == Waiting(pause))
  {
    var start := Start(maxRounds, maxCalls, maxIterations);
    var c := Run(settings, start, before);
    RunBoth(settings, start, before, [ask] + after);
    assert ([ask] + after)[1..] == after;
    AskHalts(settings, c, ask, pause);
    HaltedRun(settings, Step(settings, c, ask), after, pause);
  }

  // ----- ... and only then -----

  /** What is pending, and what a run waits for, says where it is; a run with a finish reason is about to end. */
  ghost predicate PauseInv(c: Configuration) {
    var s := c.state;
    && (s.pendingApproval ==> Halted(c, ForApproval))
    && (s.pendingExecution ==> Halted(c, ForReconciliation))
    && (s.status == WaitingApproval ==> c.node == End)
    && (s.status == WaitingReconciliation ==> c.node in {PauseForReconciliation, End})
    && (s.status.Concluded? ==> c.node == End)
    && (c.node == End ==> s.status != Working)
    && (s.loop.finishReason.Some? ==> c.node == FinalAnswer || s.status.Concluded?)
  }

  lemma ToolStepKeepsPauseInv(settings: Settings, c: Configuration, w: World)
    requires PauseInv(c) && ConcernsTools(c.node)
    ensures PauseInv(Step(settings, c, Visiting(w)))
  {
  }

  lemma LoopStepKeepsPauseInv(settings: Settings, c: Configuration, w: World)
    requires settings.limits.Valid() && PauseInv(c) && c.node == ExecuteLocalAction
    ensures PauseInv(Step(settings, c, Visiting(w)))
  {
    RouteIff(settings.limits, c.state.loop, Input(c.state.action, w.deadlineReached, w.observation));
  }

  lemma OtherStepKeepsPauseInv(settings: Settings, c: Configuration, w: World)
    requires PauseInv(c) && !ConcernsTools(c.node) && c.node != ExecuteLocalAction
    ensures PauseInv(Step(settings, c, Visiting(w)))
  {
  }

  lemma StepKeepsPauseInv(settings: Settings, c: Configuration, move: Move)
    requires settings.limits.Valid() && PauseInv(c)
    ensures PauseInv(Step(settings, c, move))
  {
    if move.Visiting? {
      if ConcernsTools(c.node) {
        ToolStepKeepsPauseInv(settings, c, move.world);
      } else if c.node == ExecuteLocalAction {
        LoopStepKeepsPauseInv(settings, c, move.world);
      } else {
        OtherStepKeepsPauseInv(settings, c, move.world);
      }
    }
  }

  lemma {:induction false} RunKeepsPauseInv(settings: Settings, c: Configuration, moves: seq<Move>)
    requires settings.limits.Valid() && PauseInv(c)
    ensures PauseInv(Run(settings, c, moves))
    decreases |moves|
  {
    if moves != [] {
      StepKeepsPauseInv(settings, c, moves[0]);
      RunKeepsPauseInv(settings, Step(settings, c, moves[0]), moves[1..]);
    }
  }

  lemma HaltedOnlyBy(settings: Settings, c: Configuration, move: Move, pause: Pause)
    requires PauseInv(c) && Halted(Step(settings, c, move), pause)
    ensures Asks(settings, c, move, pause) || (Halted(c, pause) && !Resumes(c, move, pause))
  {
  }

  lemma {:induction false} UnresumedMore(
    settings: Settings, c: Configuration, moves: seq<Move>, move: Move, pause: Pause)
    requires Unresumed(settings, c, moves, pause) && !Resumes(Run(settings, c, moves), move, pause)
    ensures Unresumed(settings, c, moves + [move], pause)
    decreases |moves|
  {
    if moves == [] {
      assert moves + [move] == [move];
    } else {
      assert (moves + [move])[0] == moves[0] && (moves + [move])[1..] == moves[1..] + [move];
      UnresumedMore(settings, Step(settings, c, moves[0]), moves[1..], move, pause);
    }
  }

  /** Move `p` asked, and nobody has decided since. */
  ghost predicate AskedAt(settings: Settings, start: Configuration, moves: seq<Move>, pause: Pause, p: nat) {
    && p < |moves|
    && Asks(settings, Run(settings, start, moves[..p]), moves[p], pause)
    && Unresumed(settings, Run(settings, start, moves[..p + 1]), moves[p + 1..], pause)
  }

  lemma AskedAtMore(
    settings: Settings, start: Configuration, moves: seq<Move>, move: Move, pause: Pause, p: nat)
    requires AskedAt(settings, start, moves, pause, p)
    requires !Resumes(Run(settings, start, moves), move, pause)
    ensures AskedAt(settings, start, moves + [move], pause, p)
  {
    var since := Run(settings, start, moves[..p + 1]);
    SlicesOfMore(moves, move, p);
    RunBoth(settings, start, moves[..p + 1], moves[p + 1..]);
    UnresumedMore(settings, since, moves[p + 1..], move, pause);
  }

  lemma SlicesOfMore(moves: seq<Move>, move: Move, p: nat)
    requires p < |moves|
    ensures var more := moves + [move];
            && more[p] == moves[p] && more[..p] == moves[..p] && more[..p + 1] == moves[..p + 1]
            && more[p + 1..] == moves[p + 1..] + [move]
    ensures moves[..p + 1] + moves[p + 1..] == moves
  {
  }

  lemma AskedLast(settings: Settings, start: Configuration, moves: seq<Move>, move: Move, pause: Pause)
    requires Asks(settings, Run(settings, start, moves), move, pause)
    ensures AskedAt(settings, start, moves + [move], pause, |moves|)
  {
    assert (moves + [move])[..|moves|] == moves && (moves + [move])[|moves| + 1..] == [];
  }

  lemma {:induction false} HaltedWasAsked(settings: Settings, start: Configuration, moves: seq<Move>, pause: Pause)
    returns (p: nat)
    requires settings.limits.Valid() && PauseInv(start) && !Halted(start, pause)
    requires Halted(Run(settings, start, moves), pause)
    ensures AskedAt(settings, start, moves, pause, p)
    decreases |moves|
  {
    var front, last := moves[..|moves| - 1], moves[|moves| - 1];
    assert moves == front + [last];
    RunMore(settings, start, front, last);
    RunKeepsPauseInv(settings, start, front);
    HaltedOnlyBy(settings, Run(settings, start, front), last, pause);
    if Asks(settings, Run(settings, start, front), last, pause) {
      AskedLast(settings, start, front, last, pause);
      p := |front|;
    } else {
      p := HaltedWasAsked(settings, start, front, pause);
      AskedAtMore(settings, start, front, last, pause, p);
    }
  }

  lemma AskedIsHalted(settings: Settings, start: Configuration, moves: seq<Move>, pause: Pause, p: nat)
    requires AskedAt(settings, start, moves, pause, p)
    ensures var d := Run(settings, start, moves);
            Halted(d, pause) && (d.node == End <==> AnyVisit(moves[p + 1..]))
  {
    var c := Run(settings, start, moves[..p]);
    assert moves[..p + 1] == moves[..p] + [moves[p]];
    RunMore(settings, start, moves[..p], moves[p]);
    AskHalts(settings, c, moves[p], pause);
    HaltedRun(settings, Step(settings, c, moves[p]), moves[p + 1..], pause);
    RunBoth(settings, start, moves[..p + 1], moves[p + 1..]);
    assert moves[..p + 1] + moves[p + 1..] == moves;
  }

  /** Exactly when a run is over and waiting for people: some visit asked for it, another followed, and nobody has
      decided since. */
  lemma WaitsIff(
    settings: Settings, maxRounds: nat, maxCalls: nat, maxIterations: nat, moves: seq<Move>, pause: Pause)
    requires settings.limits.Valid()
    ensures var start := Start(maxRounds, maxCalls, maxIterations);
            var d := Run(settings, start, moves);
            d.node == End && d.state.status == Waiting(pause) <==>
              exists p: nat :: AskedAt(settings, start, moves, pause, p) && AnyVisit(moves[p + 1..])
  {
    var start := Start(maxRounds, maxCalls, maxIterations);
    var d := Run(settings, start, moves);
    if d.node == End && d.state.status == Waiting(pause) {
      var p := HaltedWasAsked(settings, start, moves, pause);
      AskedIsHalted(settings, start, moves, pause, p);
    }
    forall p: nat | AskedAt(settings, start, moves, pause, p) && AnyVisit(moves[p + 1..])
      ensures d.node == End && d.state.status == Waiting(pause)
    {
      AskedIsHalted(settings, start, moves, pause, p);
    }
  }

  /** An approval, given or not, completes its round and is observed; only one that was given counts as a call. A
      reconciled call is made once more. */
  lemma ResumptionLeads(settings: Settings, c: Configuration, move: Move, pause: Pause)
    requires PauseInv(c) && Resumes(c, move, pause)
    ensures var next := Step(settings, c, move);
            && next.state.status == Working && !next.state.pendingApproval && !next.state.pendingExecution
            && (pause == ForApproval ==>
                  && next.node == ObserveMCP && next.state.mcpRound == c.state.mcpRound + 1
                  && next.state.mcpCalls == c.state.mcpCalls + if move.approved then 1 else 0)
            && (pause == ForReconciliation ==>
                  && next.node == CallMCPTools && next.state.mcpRound == c.state.mcpRound
                  && next.state.mcpCalls == c.state.mcpCalls)
  {
  }

  // ----- Where every visit leads, from what it finds -----

  /** The nodes around remote calls. A round is planned only while rounds are left, and its calls are made unless one of
      them needs approval; another round follows only while rounds and calls are left. */
  lemma ToolEdgesIff(settings: Settings, c: Configuration, w: World)
    requires PauseInv(c)
    ensures var next, s := Step(settings, c, Visiting(w)).node, c.state;
            && (c.node == PlanMCPTools ==>
                  var open := settings.routerAvailable && s.mcpRound < s.mcpMaxRounds;
                  && (next == PauseForApproval <==> open && w.needsApproval)
                  && (next == CallMCPTools <==> open && !w.needsApproval && w.planHasCalls)
                  && (next == GenerateDiff <==> !open || (!w.needsApproval && !w.planHasCalls)))
            && (c.node == CallMCPTools ==>
                  && (next == PauseForReconciliation <==> settings.routerAvailable && w.unresolved)
                  && (next == ObserveMCP <==> !(settings.routerAvailable && w.unresolved)))
            && (c.node == ObserveMCP ==>
                  && (next == PlanMCPTools <==> s.mcpRound < s.mcpMaxRounds && s.mcpCalls < s.mcpMaxCalls)
                  && (next == GenerateDiff <==> s.mcpRound >= s.mcpMaxRounds || s.mcpCalls >= s.mcpMaxCalls))
            && (c.node in {PauseForApproval, PauseForReconciliation} ==> next == End)
  {
  }

  /** The nodes around a patch. A patch generated before is never applied; one that was applied is tested; a failure, of
      the patch or of its tests, is reflected on while iterations are left, and a reflection always leads back to the
      planner. */
  lemma PatchEdgesIff(settings: Settings, c: Configuration, w: World)
    requires PauseInv(c)
    ensures var next, s := Step(settings, c, Visiting(w)).node, c.state;
            && (c.node == GenerateDiff ==> next == if w.duplicate then PlanNextAction else ApplyPatch)
            && (c.node == ApplyPatch ==> next == TargetedTests)
            && (c.node == TargetedTests ==>
                  var applied := s.evidence.applied == Some(true);
                  && (next == RegressionChecks <==> applied && Classify(Some(w.test)) == Passed)
                  && (next == ReflectOnFailure <==>
                        (!applied || Classify(Some(w.test)) == Failed) && s.iterations + 1 < s.maxIterations)
                  && next in {RegressionChecks, ReflectOnFailure, FinalAnswer})
            && (c.node == RegressionChecks ==>
                  && (next == ReflectOnFailure <==> Classify(Some(w.test)) == Failed && s.iterations < s.maxIterations)
                  && next in {ReflectOnFailure, FinalAnswer})
            && (c.node == ReflectOnFailure ==> next == PlanNextAction)
  {
    if c.node == TargetedTests {
      OutcomeIff(Some(PATCH_ERROR));
    }
  }

  /** The nodes before a patch. Only a baseline that passed or broke down ends the run at once. */
  lemma FirstEdgesIff(settings: Settings, c: Configuration, w: World)
    requires settings.limits.Valid() && PauseInv(c)
    ensures var next, s := Step(settings, c, Visiting(w)).node, c.state;
            && (c.node == InspectRepository ==> next == ReproduceFailure)
            && (c.node == ReproduceFailure ==>
                  next == if Classify(Some(w.test)) in {Passed, InfraError} then FinalAnswer else InitializeAgentLoop)
            && (c.node == InitializeAgentLoop ==> next == PlanNextAction)
            && (c.node == PlanNextAction ==> next == ExecuteLocalAction)
            && (c.node == ExecuteLocalAction ==>
                  && (next == PlanMCPTools <==> s.action.Wellformed? && s.action.action.GeneratePatch?)
                  && (next == FinalAnswer <==> Step(settings, c, Visiting(w)).state.loop.finishReason.Some?)
                  && next in {PlanMCPTools, FinalAnswer, PlanNextAction})
            && (c.node == FinalAnswer ==> next == End)
  {
    if c.node == ExecuteLocalAction {
      RouteIff(settings.limits, c.state.loop, Input(c.state.action, w.deadlineReached, w.observation));
    }
  }

  // ----- What a verdict can rest on -----

  /** A patch counts as applied only from its application to the end of its tests. */
  ghost predicate PatchInv(c: Configuration) {
    && (c.state.evidence.applied.Some? ==>
          || c.node in {TargetedTests, RegressionChecks, ReflectOnFailure, FinalAnswer}
          || c.state.status.Concluded?)
    && (c.state.status.Concluded? ==> c.node == End)
  }

  lemma StepKeepsPatchInv(settings: Settings, c: Configuration, move: Move)
    requires PauseInv(c) && PatchInv(c)
    ensures PatchInv(Step(settings, c, move))
  {
    if move.Visiting? {
      if ChangesEvidence(c.node) {
        EvidenceVisitKeepsPatchInv(settings, c, move.world);
      } else {
        OtherVisitKeepsPatchInv(settings, c, move.world);
      }
    }
  }

  lemma EvidenceVisitKeepsPatchInv(settings: Settings, c: Configuration, w: World)
    requires PauseInv(c) && PatchInv(c) && ChangesEvidence(c.node)
    ensures PatchInv(Step(settings, c, Visiting(w)))
  {
  }

  lemma OtherVisitKeepsPatchInv(settings: Settings, c: Configuration, w: World)
    requires PauseInv(c) && PatchInv(c) && !ChangesEvidence(c.node)
    ensures PatchInv(Step(settings, c, Visiting(w)))
  {
  }

  lemma {:induction false} RunKeepsPatchInv(settings: Settings, c: Configuration, moves: seq<Move>)
    requires settings.limits.Valid() && PauseInv(c) && PatchInv(c)
    ensures PatchInv(Run(settings, c, moves))
    decreases |moves|
  {
    if moves != [] {
      StepKeepsPauseInv(settings, c, moves[0]);
      StepKeepsPatchInv(settings, c, moves[0]);
      RunKeepsPatchInv(settings, Step(settings, c, moves[0]), moves[1..]);
    }
  }

  /** A run that its planner or its budgets end has no patch to show for it, however many were tried before: the verdict
      is that none was applied. */
  lemma EndedByPlannerFails(
    settings: Settings, maxRounds: nat, maxCalls: nat, maxIterations: nat, moves: seq<Move>, w: World, w': World)
    requires settings.limits.Valid()
    requires var c := Run(settings, Start(maxRounds, maxCalls, maxIterations), moves);
             c.node == ExecuteLocalAction && Step(settings, c, Visiting(w)).node == FinalAnswer
    ensures var c := Run(settings, Start(maxRounds, maxCalls, maxIterations), moves);
            var d := Step(settings, Step(settings, c, Visiting(w)), Visiting(w'));
            && d.node == End && d.state.status.Concluded?
            && d.state.status.verdict.status == FailedStatus
            && d.state.status.verdict.reason == "patch_not_applied" && !d.state.status.verdict.patchApplied
  {
    var start := Start(maxRounds, maxCalls, maxIterations);
    var c := Run(settings, start, moves);
    RunKeepsPauseInv(settings, start, moves);
    RunKeepsPatchInv(settings, start, moves);
    RunKeepsAttempts(settings, start, moves);
    assert BaselineAllowsPatch(c.state) && c.state.evidence.applied.None?;
    var e := c.state.evidence;
    DecidesIff(e);
    ReasonNamesThePhase(e);
    StatusIff(e);
    assert Step(settings, c, Visiting(w)).state.evidence == e;
  }

  /** Every result recorded is that of the phase just run; a patch that did not apply fails its targeted phase, and a
      failure reflected on leaves no patch applied. */
  lemma ResultsAreRecorded(settings: Settings, c: Configuration, w: World)
    requires ChangesEvidence(c.node)
    ensures var s, e := c.state.evidence, Step(settings, c, Visiting(w)).state.evidence;
            && e.baseline == (if c.node == ReproduceFailure then Some(w.test) else s.baseline)
            && e.applied == (if c.node == ApplyPatch then Some(w.ok) else if c.node == ReflectOnFailure then None
                             else s.applied)
            && (c.node == TargetedTests ==>
                  && e.regression == None && e.targeted.Some?
                  && (s.applied == Some(true) ==> e.targeted == Some(w.test))
                  && (s.applied != Some(true) ==>
                        !e.targeted.value.passed && !e.targeted.value.testsRan && !e.targeted.value.timedOut))
            && (c.node == RegressionChecks ==> e.regression == Some(w.test) && e.targeted == s.targeted)
            && (c.node !in {TargetedTests, RegressionChecks} ==>
                  e.targeted == s.targeted && e.regression == s.regression)
  {
  }

  /** No other visit touches a result. */
  lemma OthersLeaveResults(settings: Settings, c: Configuration, w: World)
    requires !ChangesEvidence(c.node)
    ensures Step(settings, c, Visiting(w)).state.evidence == c.state.evidence
  {
  }

  // ----- Rounds of remote calls -----

  /** The move completes a round: its calls were made, or someone has decided on the one that needed approval. */
  predicate CompletesRound(settings: Settings, c: Configuration, move: Move) {
    || (c.node == CallMCPTools && move.Visiting? && settings.routerAvailable && !move.world.unresolved)
    || Resumes(c, move, ForApproval)
  }

  /** The calls counted by the move. */
  function CallsCounted(settings: Settings, c: Configuration, move: Move): nat {
    if !CompletesRound(settings, c, move) then 0
    else if move.Visiting? then move.world.calls
    else if move.ResumeApproval? && move.approved then 1 else 0
  }

  function RoundsCompleted(settings: Settings, c: Configuration, moves: seq<Move>): nat
    decreases |moves|
  {
    if moves == [] then 0
    else
      (if CompletesRound(settings, c, moves[0]) then 1 else 0)
      + RoundsCompleted(settings, Step(settings, c, moves[0]), moves[1..])
  }

  function CallsCountedIn(settings: Settings, c: Configuration, moves: seq<Move>): nat
    decreases |moves|
  {
    if moves == [] then 0
    else CallsCounted(settings, c, moves[0]) + CallsCountedIn(settings, Step(settings, c, moves[0]), moves[1..])
  }

  /** A round under way is one of those allowed. */
  ghost predicate RoundsInv(c: Configuration) {
    && c.state.mcpRound <= c.state.mcpMaxRounds
    && (c.node == CallMCPTools || Halted(c, ForApproval) || Halted(c, ForReconciliation) ==>
          c.state.mcpRound < c.state.mcpMaxRounds)
  }

  lemma ToolVisitKeepsRounds(settings: Settings, c: Configuration, w: World)
    requires PauseInv(c) && RoundsInv(c) && ConcernsTools(c.node)
    ensures var next, move := Step(settings, c, Visiting(w)), Visiting(w);
            && RoundsInv(next) && next.state.mcpMaxRounds == c.state.mcpMaxRounds
            && next.state.mcpRound == c.state.mcpRound + (if CompletesRound(settings, c, move) then 1 else 0)
            && next.state.mcpCalls == c.state.mcpCalls + CallsCounted(settings, c, move)
  {
  }

  lemma OtherVisitKeepsRounds(settings: Settings, c: Configuration, w: World)
    requires PauseInv(c) && RoundsInv(c) && !ConcernsTools(c.node)
    ensures var next, move := Step(settings, c, Visiting(w)), Visiting(w);
            && RoundsInv(next) && next.state.mcpMaxRounds == c.state.mcpMaxRounds
            && next.state.mcpRound == c.state.mcpRound && next.state.mcpCalls == c.state.mcpCalls
            && !CompletesRound(settings, c, move)
  {
  }

  lemma StepKeepsRounds(settings: Settings, c: Configuration, move: Move)
    requires PauseInv(c) && RoundsInv(c)
    ensures var next := Step(settings, c, move);
            && RoundsInv(next) && next.state.mcpMaxRounds == c.state.mcpMaxRounds
            && next.state.mcpRound == c.state.mcpRound + (if CompletesRound(settings, c, move) then 1 else 0)
            && next.state.mcpCalls == c.state.mcpCalls + CallsCounted(settings, c, move)
  {
    if move.Visiting? {
      if ConcernsTools(c.node) {
        ToolVisitKeepsRounds(settings, c, move.world);
      } else {
        OtherVisitKeepsRounds(settings, c, move.world);
      }
    }
  }

  lemma {:induction false} RunKeepsRounds(settings: Settings, c: Configuration, moves: seq<Move>)
    requires settings.limits.Valid() && PauseInv(c) && RoundsInv(c)
    ensures var d := Run(settings, c, moves);
            && RoundsInv(d) && d.state.mcpMaxRounds == c.state.mcpMaxRounds
            && d.state.mcpRound == c.state.mcpRound + RoundsCompleted(settings, c, moves)
            && d.state.mcpCalls == c.state.mcpCalls + CallsCountedIn(settings, c, moves)
    decreases |moves|
  {
    if moves != [] {
      StepKeepsPauseInv(settings, c, moves[0]);
      StepKeepsRounds(settings, c, moves[0]);
      RunKeepsRounds(settings, Step(settings, c, moves[0]), moves[1..]);
    }
  }

  /** However often it is resumed, a run completes no more rounds than it may, and both counters are exact. */
  lemma RoundsBounded(settings: Settings, maxRounds: nat, maxCalls: nat, maxIterations: nat, moves: seq<Move>)
    requires settings.limits.Valid()
    ensures var start := Start(maxRounds, maxCalls, maxIterations);
            && RoundsCompleted(settings, start, moves) <= maxRounds
            && Run(settings, start, moves).state.mcpRound == RoundsCompleted(settings, start, moves)
            && Run(settings, start, moves).state.mcpCalls == CallsCountedIn(settings, start, moves)
  {
    RunKeepsRounds(settings, Start(maxRounds, maxCalls, maxIterations), moves);
  }

  /** All of this holds wherever a run can be. */
  lemma ReachedIsPauseInv(settings: Settings, maxRounds: nat, maxCalls: nat, maxIterations: nat, moves: seq<Move>)
    requires settings.limits.Valid()
    ensures PauseInv(Run(settings, Start(maxRounds, maxCalls, maxIterations), moves))
  {
    RunKeepsPauseInv(settings, Start(maxRounds, maxCalls, maxIterations), moves);
  }
}
