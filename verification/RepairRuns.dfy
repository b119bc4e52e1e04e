/** What the budgets of a repair run allow: how often it goes back to its planner, how often it reflects on a failed
    patch, and which tool calls it can make twice. Runs are those of the whole graph, resumptions included. */
module RepairRuns {
  import opened Prelude
  import opened Verification
  import opened LocalLoop
  import opened FixGraph

  // ----- What is counted -----

  predicate Finishes(raw: RawAction) {
    raw.Wellformed? && raw.action.Finish?
  }

  /** The executor hands its result back to the planner. */
  predicate GoesBack(settings: Settings, c: Configuration, move: Move) {
    c.node == ExecuteLocalAction && Step(settings, c, move).node == PlanNextAction
  }

  /** A failed patch is reflected on. */
  predicate Reflects(c: Configuration, move: Move) {
    c.node == ReflectOnFailure && move.Visiting?
  }

  function One(b: bool): nat {
    if b then 1 else 0
  }

  /** How many results of the executor go back to the planner in a run. */
  function PlanRoutes(settings: Settings, c: Configuration, moves: seq<Move>): nat
    decreases |moves|
  {
    if moves == [] then 0
    else One(GoesBack(settings, c, moves[0])) + PlanRoutes(settings, Step(settings, c, moves[0]), moves[1..])
  }

  function Reflections(settings: Settings, c: Configuration, moves: seq<Move>): nat
    decreases |moves|
  {
    if moves == [] then 0
    else One(Reflects(c, moves[0])) + Reflections(settings, Step(settings, c, moves[0]), moves[1..])
  }

  // ----- What is left of each budget -----

  /** The counters stay within their limits, and an action that is carried out was within all of them. */
  ghost predicate CountersInv(settings: Settings, c: Configuration) {
    var limits, s := settings.limits, c.state;
    && s.loop.toolCalls <= limits.maxToolCalls && s.loop.toolCalls <= limits.maxPlannerCalls
    && s.loop.toolCalls + One(c.node == ExecuteLocalAction) <= s.plannerCalls
    && (c.node == ExecuteLocalAction && !Finishes(s.action) ==>
          s.loop.noProgress < limits.maxNoProgress && s.plannerCalls <= limits.maxPlannerCalls)
    && (c.node == ReflectOnFailure ==> s.iterations < s.maxIterations)
  }

  /** Steps without progress left before the next patch. */
  function SlackLeft(limits: Limits, c: Configuration): nat {
    if c.node in {ApplyPatch, TargetedTests, RegressionChecks, ReflectOnFailure, FinalAnswer} then 0
    else if c.node == End && c.state.status.Concluded? then 0
    else Max(0, limits.maxNoProgress - 1 - c.state.loop.noProgress)
  }

  /** Results that can still go back to the planner before the next reflection. */
  function RoutesLeft(limits: Limits, c: Configuration): int {
    (limits.maxToolCalls - c.state.loop.toolCalls) * limits.maxNoProgress + SlackLeft(limits, c)
  }

  /** The planner's last answer may still lead back to it. */
  predicate Pending(c: Configuration) {
    if c.node == ExecuteLocalAction then !Finishes(c.state.action)
    else if c.node == End then c.state.status == WaitingApproval || c.state.status == WaitingReconciliation
    else c.node in {PlanMCPTools, CallMCPTools, ObserveMCP, PauseForApproval, PauseForReconciliation, GenerateDiff,
                    ApplyPatch, TargetedTests, RegressionChecks, ReflectOnFailure}
  }

  function AnswersLeft(limits: Limits, c: Configuration): nat {
    Max(0, limits.maxPlannerCalls - c.state.plannerCalls) + One(Pending(c))
  }

  function ReflectionsLeft(c: Configuration): nat {
    var tested := c.node == RegressionChecks || c.node == ReflectOnFailure;
    Max(0, c.state.maxIterations - c.state.iterations - One(!tested))
  }

  /** Between `c` and `next` there were so many results that went back and so many reflections; each is paid for. */
  ghost predicate Pays(limits: Limits, c: Configuration, next: Configuration, routes: nat, reflections: nat) {
    && routes + RoutesLeft(limits, next) <= RoutesLeft(limits, c) + reflections * (limits.maxNoProgress - 1)
    && routes + reflections + AnswersLeft(limits, next) <= AnswersLeft(limits, c)
    && reflections + ReflectionsLeft(next) <= ReflectionsLeft(c)
  }

  lemma PlannerPays(settings: Settings, c: Configuration, w: World)
    requires settings.limits.Valid() && CountersInv(settings, c) && c.node == PlanNextAction
    ensures var next := Step(settings, c, Visiting(w));
            CountersInv(settings, next) && Pays(settings.limits, c, next, 0, 0)
  {
  }

  function InputOf(c: Configuration, w: World): Input {
    Input(c.state.action, w.deadlineReached, w.observation)
  }

  lemma ExecutorPays(settings: Settings, c: Configuration, w: World)
    requires settings.limits.Valid() && CountersInv(settings, c) && c.node == ExecuteLocalAction
    ensures var next := Step(settings, c, Visiting(w));
            && CountersInv(settings, next)
            && Pays(settings.limits, c, next, One(GoesBack(settings, c, Visiting(w))), 0)
  {
    if Execute(settings.limits, c.state.loop, InputOf(c, w)).1 == LocalLoop.Final {
      FinalResultPays(settings, c, w);
    } else {
      GoingOnPays(settings, c, w);
    }
  }

  lemma GoingOnPays(settings: Settings, c: Configuration, w: World)
    requires settings.limits.Valid() && CountersInv(settings, c) && c.node == ExecuteLocalAction
    requires Execute(settings.limits, c.state.loop, InputOf(c, w)).1 != LocalLoop.Final
    ensures var next := Step(settings, c, Visiting(w));
            && CountersInv(settings, next)
            && Pays(settings.limits, c, next, One(GoesBack(settings, c, Visiting(w))), 0)
  {
    var next := Step(settings, c, Visiting(w));
    assert !Finishes(c.state.action);
    PotentialDrops(settings.limits, c.state.loop, InputOf(c, w));
    ContinuingPays(settings.limits, c, next, GoesBack(settings, c, Visiting(w)));
  }

  lemma ContinuingPays(limits: Limits, c: Configuration, next: Configuration, back: bool)
    requires c.node == ExecuteLocalAction && !Finishes(c.state.action)
    requires WithinBudget(limits, c.state.loop) && WithinBudget(limits, next.state.loop)
    requires next.node == if back then PlanNextAction else PlanMCPTools
    requires Potential(limits, next.state.loop) + One(back) <= Potential(limits, c.state.loop)
    requires next.state.plannerCalls == c.state.plannerCalls
    requires next.state.iterations == c.state.iterations && next.state.maxIterations == c.state.maxIterations
    ensures Pays(limits, c, next, One(back), 0)
  {
    assert RoutesLeft(limits, c) == Potential(limits, c.state.loop);
    assert RoutesLeft(limits, next) == Potential(limits, next.state.loop);
  }

  lemma FinalResultPays(settings: Settings, c: Configuration, w: World)
    requires settings.limits.Valid() && CountersInv(settings, c) && c.node == ExecuteLocalAction
    requires Execute(settings.limits, c.state.loop, InputOf(c, w)).1 == LocalLoop.Final
    ensures var next := Step(settings, c, Visiting(w));
            next.node == FinalAnswer && CountersInv(settings, next) && Pays(settings.limits, c, next, 0, 0)
  {
    var next := Step(settings, c, Visiting(w));
    assert c.state.loop.toolCalls <= next.state.loop.toolCalls;
    ConcludingPays(settings.limits, c, next);
  }

  lemma ConcludingPays(limits: Limits, c: Configuration, next: Configuration)
    requires c.node == ExecuteLocalAction && next.node == FinalAnswer
    requires c.state.loop.toolCalls <= next.state.loop.toolCalls && next.state.plannerCalls == c.state.plannerCalls
    requires next.state.iterations == c.state.iterations && next.state.maxIterations == c.state.maxIterations
    ensures Pays(limits, c, next, 0, 0)
  {
    FewerTools(limits.maxToolCalls - c.state.loop.toolCalls, limits.maxToolCalls - next.state.loop.toolCalls,
               limits.maxNoProgress);
  }

  lemma FewerTools(a: int, b: int, n: nat)
    requires b <= a
    ensures b * n <= a * n
  {
  }

  lemma TestsPay(settings: Settings, c: Configuration, w: World)
    requires settings.limits.Valid() && CountersInv(settings, c)
    requires c.node in {TargetedTests, RegressionChecks, ReflectOnFailure}
    ensures var next := Step(settings, c, Visiting(w));
            && CountersInv(settings, next)
            && Pays(settings.limits, c, next, 0, One(c.node == ReflectOnFailure))
  {
  }

  lemma PatchingPays(settings: Settings, c: Configuration, w: World)
    requires settings.limits.Valid() && CountersInv(settings, c)
    requires c.node in {GenerateDiff, ApplyPatch}
    ensures var next := Step(settings, c, Visiting(w));
            CountersInv(settings, next) && Pays(settings.limits, c, next, 0, 0)
  {
  }

  lemma EndingPays(settings: Settings, c: Configuration, w: World)
    requires settings.limits.Valid() && CountersInv(settings, c)
    requires c.node in {FinalAnswer, End}
    ensures var next := Step(settings, c, Visiting(w));
            CountersInv(settings, next) && Pays(settings.limits, c, next, 0, 0)
  {
  }

  lemma OthersPay(settings: Settings, c: Configuration, w: World)
    requires settings.limits.Valid() && CountersInv(settings, c)
    requires c.node in {InspectRepository, ReproduceFailure, InitializeAgentLoop, PlanMCPTools, CallMCPTools,
                        ObserveMCP, PauseForApproval, PauseForReconciliation}
    ensures var next := Step(settings, c, Visiting(w));
            CountersInv(settings, next) && Pays(settings.limits, c, next, 0, 0)
  {
  }

  lemma StepPays(settings: Settings, c: Configuration, move: Move)
    requires settings.limits.Valid() && CountersInv(settings, c)
    ensures var next := Step(settings, c, move);
            && CountersInv(settings, next)
            && Pays(settings.limits, c, next, One(GoesBack(settings, c, move)), One(Reflects(c, move)))
  {
    if move.Visiting? {
      match c.node
      case PlanNextAction => PlannerPays(settings, c, move.world);
      case ExecuteLocalAction => ExecutorPays(settings, c, move.world);
      case TargetedTests => TestsPay(settings, c, move.world);
      case RegressionChecks => TestsPay(settings, c, move.world);
      case ReflectOnFailure => TestsPay(settings, c, move.world);
      case GenerateDiff => PatchingPays(settings, c, move.world);
      case ApplyPatch => PatchingPays(settings, c, move.world);
      case FinalAnswer => EndingPays(settings, c, move.world);
      case End => EndingPays(settings, c, move.world);
      case _ => OthersPay(settings, c, move.world);
    }
  }

  lemma OneMore(k: int, m: int)
    ensures (1 + k) * m == m + k * m
  {
  }

  lemma PaysOn(
    limits: Limits, c: Configuration, middle: Configuration, next: Configuration, routes: nat, route: nat,
    reflections: nat, reflection: nat)
    requires reflection <= 1
    requires Pays(limits, c, middle, route, reflection) && Pays(limits, middle, next, routes, reflections)
    ensures Pays(limits, c, next, route + routes, reflection + reflections)
  {
    OneMore(reflections, limits.maxNoProgress - 1);
  }

  lemma {:induction false} RunPays(settings: Settings, c: Configuration, moves: seq<Move>)
    requires settings.limits.Valid() && CountersInv(settings, c)
    ensures var next := Run(settings, c, moves);
            && CountersInv(settings, next)
            && Pays(settings.limits, c, next, PlanRoutes(settings, c, moves), Reflections(settings, c, moves))
    decreases |moves|
  {
    if moves != [] {
      StepPays(settings, c, moves[0]);
      RunPays(settings, Step(settings, c, moves[0]), moves[1..]);
      PaysOn(settings.limits, c, Step(settings, c, moves[0]), Run(settings, c, moves),
             PlanRoutes(settings, Step(settings, c, moves[0]), moves[1..]), One(GoesBack(settings, c, moves[0])),
             Reflections(settings, Step(settings, c, moves[0]), moves[1..]), One(Reflects(c, moves[0])));
    }
  }

  // ----- How often the planner gets a result back -----

  /** `n` results that go back and `q` reflections: as many planner calls, and each reflection renews all but one of
      the steps without progress. */
  predicate Affordable(limits: Limits, n: nat, q: nat) {
    && n + q <= limits.maxPlannerCalls
    && n <= (limits.maxToolCalls + 1) * limits.maxNoProgress - 1 + q * (limits.maxNoProgress - 1)
  }

  lemma PlanRoutesAreAffordable(
    settings: Settings, maxRounds: nat, maxCalls: nat, maxIterations: nat, moves: seq<Move>)
    requires settings.limits.Valid()
    ensures var start := Start(maxRounds, maxCalls, maxIterations);
            && Affordable(settings.limits, PlanRoutes(settings, start, moves), Reflections(settings, start, moves))
            && Reflections(settings, start, moves) < Max(1, maxIterations)
  {
    var start := Start(maxRounds, maxCalls, maxIterations);
    RunPays(settings, start, moves);
    PaidIsAffordable(settings.limits, start, Run(settings, start, moves),
                     PlanRoutes(settings, start, moves), Reflections(settings, start, moves));
  }

  lemma PaidIsAffordable(limits: Limits, c: Configuration, next: Configuration, n: nat, q: nat)
    requires limits.Valid() && next.state.loop.toolCalls <= limits.maxToolCalls && Pays(limits, c, next, n, q)
    requires c.node == InspectRepository && c.state.loop == FRESH && c.state.plannerCalls == 0
    ensures Affordable(limits, n, q)
  {
    FewerTools(limits.maxToolCalls, 0, limits.maxNoProgress);
    FewerTools(limits.maxToolCalls - next.state.loop.toolCalls, 0, limits.maxNoProgress);
    OneFewerTool(limits.maxToolCalls + 1, limits.maxNoProgress);
  }

  // ----- Runs that use all of it -----

  const FAILING := TestResult(TestFailure, false, "", true, false, Some(1))

  function NthRead(n: nat): ToolCall {
    ReadFile("f", n, Some(n))
  }

  function NthInput(n: nat): Input {
    Input(Wellformed(Tool("h", NthRead(n))), false, Observation(Digest(n), "s", true))
  }

  const MALFORMED := Input(Malformed, false, Observation(Digest(0), "", false))

  ghost predicate OnlyReadsBelow(s: LoopState, n: nat) {
    && (forall c :: c in s.actionFingerprints ==> c.ReadFile? && c.startLine < n)
    && (forall d :: d in s.evidenceFingerprints ==> d.id < n)
  }

  lemma LastNElements<T>(items: seq<T>, limit: nat)
    ensures forall x :: x in LastN(items, limit) ==> x in items
  {
  }

  /** A read not made before costs a tool call and leaves all the steps without progress there are. */
  lemma NewReadGoesOn(limits: Limits, s: LoopState)
    requires limits.Valid() && OnlyReadsBelow(s, s.toolCalls) && s.toolCalls < limits.maxToolCalls
    ensures Dispatches(limits, s, NthInput(s.toolCalls))
    ensures var (next, route) := Execute(limits, s, NthInput(s.toolCalls));
            && route == Plan && next.toolCalls == s.toolCalls + 1 && next.noProgress == 0
            && OnlyReadsBelow(next, next.toolCalls)
  {
    LastNElements(s.actionFingerprints + [NthRead(s.toolCalls)], limits.maxHistory);
    LastNElements(s.evidenceFingerprints + [Digest(s.toolCalls)], limits.maxEvidence);
  }

  /** An action that is not one costs a step without progress and nothing else. */
  lemma MalformedGoesOn(limits: Limits, s: LoopState)
    requires s.noProgress + 1 < limits.maxNoProgress
    ensures var (next, route) := Execute(limits, s, MALFORMED);
            && route == Plan && next.toolCalls == s.toolCalls && next.noProgress == s.noProgress + 1
            && next.actionFingerprints == s.actionFingerprints && next.evidenceFingerprints == s.evidenceFingerprints
  {
  }

  /** Tests fail, patches apply, nothing is a duplicate, and the planner's answer costs no tokens. */
  function Turn(input: Input): Move {
    Visiting(World(FAILING, true, false, input.raw, 0, false, input.observation, false, false, false, 0))
  }

  /** A run about to ask its planner, with everything but the counters in its favour. */
  ghost predicate Asking(settings: Settings, c: Configuration) {
    && settings.limits.Valid() && c.node == PlanNextAction
    && c.state.plannerTokens == 0 && !c.state.pendingApproval
    && WithinBudget(settings.limits, c.state.loop)
    && OnlyReadsBelow(c.state.loop, c.state.loop.toolCalls)
  }

  /** The planner is asked and its answer carried out. */
  function Asked(settings: Settings, c: Configuration, move: Move): Configuration {
    Step(settings, Step(settings, c, move), move)
  }

  lemma AskedIs(settings: Settings, c: Configuration, input: Input)
    requires Asking(settings, c) && c.state.plannerCalls < settings.limits.maxPlannerCalls && !input.deadlineReached
    ensures Step(settings, c, Turn(input)).node == ExecuteLocalAction
    ensures var (loop, route) := Execute(settings.limits, c.state.loop, input);
            var s := c.state.(action := input.raw, plannerCalls := c.state.plannerCalls + 1, loop := loop,
                              route := route);
            Asked(settings, c, Turn(input)) == Configuration(AfterLocalAction(s), s)
  {
    assert Input(input.raw, false, input.observation) == input;
  }

  /** `next` asks the planner again, with these counters, one planner call after `c`. */
  ghost predicate AsksAgain(settings: Settings, c: Configuration, next: Configuration, tools: nat, wasted: nat) {
    && Asking(settings, next)
    && next.state.loop.toolCalls == tools && next.state.loop.noProgress == wasted
    && next.state.plannerCalls == c.state.plannerCalls + 1
    && next.state.maxIterations == c.state.maxIterations
  }

  lemma WastedTurn(settings: Settings, c: Configuration)
    requires Asking(settings, c) && c.state.plannerCalls < settings.limits.maxPlannerCalls
    requires c.state.loop.noProgress + 1 < settings.limits.maxNoProgress
    ensures var next := Asked(settings, c, Turn(MALFORMED));
            && AsksAgain(settings, c, next, c.state.loop.toolCalls, c.state.loop.noProgress + 1)
            && next.state.iterations == c.state.iterations
  {
    AskedIs(settings, c, MALFORMED);
    MalformedGoesOn(settings.limits, c.state.loop);
  }

  lemma ReadTurn(settings: Settings, c: Configuration)
    requires Asking(settings, c) && c.state.plannerCalls < settings.limits.maxPlannerCalls
    requires c.state.loop.toolCalls < settings.limits.maxToolCalls
    ensures var next := Asked(settings, c, Turn(NthInput(c.state.loop.toolCalls)));
            && AsksAgain(settings, c, next, c.state.loop.toolCalls + 1, 0)
            && next.state.iterations == c.state.iterations
  {
    AskedIs(settings, c, NthInput(c.state.loop.toolCalls));
    NewReadGoesOn(settings.limits, c.state.loop);
  }

  const PATCH := Input(Wellformed(GeneratePatch("h")), false, Observation(Digest(0), "s", true))

  /** A patch is generated, applied, tested and reflected on. */
  function Patched(settings: Settings, c: Configuration, move: Move): Configuration {
    var tried := Step(settings, Step(settings, Step(settings, c, move), move), move);
    Step(settings, Step(settings, tried, move), move)
  }

  /** The nodes on that way. */
  predicate Tries(settings: Settings, c: Configuration, move: Move) {
    var planned := Step(settings, c, move);
    var generated := Step(settings, planned, move);
    var tested := Step(settings, Step(settings, generated, move), move);
    planned.node == GenerateDiff && generated.node == ApplyPatch && tested.node == ReflectOnFailure
  }

  lemma PatchedIs(settings: Settings, c: Configuration)
    requires c.node == PlanMCPTools && !c.state.pendingApproval && c.state.loop.finishReason.None?
    requires c.state.iterations + 1 < c.state.maxIterations
    ensures var next := Patched(settings, c, Turn(PATCH));
            && Tries(settings, c, Turn(PATCH)) && next.node == PlanNextAction && !next.state.pendingApproval
            && next.state.loop == Reflected(settings.limits, c.state.loop.(noProgress := 0), PATCH.observation)
            && next.state.plannerTokens == c.state.plannerTokens && next.state.plannerCalls == c.state.plannerCalls
            && next.state.maxIterations == c.state.maxIterations && next.state.iterations == c.state.iterations + 1
  {
    var move := Turn(PATCH);
    var planned := Step(settings, c, move);
    assert planned.node == GenerateDiff && planned.state.loop == c.state.loop;
    var generated := Step(settings, planned, move);
    assert generated.node == ApplyPatch;
    var applied := Step(settings, generated, move);
    assert applied.node == TargetedTests && applied.state.evidence.applied == Some(true);
    var tested := Step(settings, applied, move);
    assert Classify(tested.state.evidence.targeted) == Failed;
    assert tested.node == ReflectOnFailure;
  }

  lemma PatchTurn(settings: Settings, c: Configuration)
    requires Asking(settings, c) && c.state.plannerCalls < settings.limits.maxPlannerCalls
    requires c.state.loop.toolCalls >= 1 && c.state.iterations + 1 < c.state.maxIterations
    ensures var next := Patched(settings, Asked(settings, c, Turn(PATCH)), Turn(PATCH));
            && AsksAgain(settings, c, next, c.state.loop.toolCalls, 0)
            && next.state.iterations == c.state.iterations + 1
  {
    AskedIs(settings, c, PATCH);
    var accepted := Asked(settings, c, Turn(PATCH));
    PatchedIs(settings, accepted);
    LastNElements(accepted.state.loop.evidenceFingerprints + [Digest(0)], settings.limits.maxEvidence);
  }

  lemma RoutesMore(settings: Settings, c: Configuration, move: Move, rest: seq<Move>)
    ensures PlanRoutes(settings, c, [move] + rest) ==
            One(GoesBack(settings, c, move)) + PlanRoutes(settings, Step(settings, c, move), rest)
  {
    assert ([move] + rest)[1..] == rest;
  }

  lemma AskedRoutes(settings: Settings, c: Configuration, move: Move, rest: seq<Move>)
    requires c.node == PlanNextAction && move.Visiting?
    ensures var next := Asked(settings, c, move);
            PlanRoutes(settings, c, [move, move] + rest) ==
            One(next.node == PlanNextAction) + PlanRoutes(settings, next, rest)
  {
    assert [move, move] + rest == [move] + ([move] + rest);
    RoutesMore(settings, c, move, [move] + rest);
    RoutesMore(settings, Step(settings, c, move), move, rest);
  }

  lemma QuietMore(settings: Settings, c: Configuration, move: Move, rest: seq<Move>)
    requires c.node != ExecuteLocalAction
    ensures PlanRoutes(settings, c, [move] + rest) == PlanRoutes(settings, Step(settings, c, move), rest)
  {
    RoutesMore(settings, c, move, rest);
  }

  lemma PatchedRoutes(settings: Settings, c: Configuration, rest: seq<Move>)
    requires c.node == PlanMCPTools && !c.state.pendingApproval && c.state.loop.finishReason.None?
    requires c.state.iterations + 1 < c.state.maxIterations
    ensures var move := Turn(PATCH);
            PlanRoutes(settings, c, [move, move, move, move, move] + rest) ==
            PlanRoutes(settings, Patched(settings, c, move), rest)
  {
    var move := Turn(PATCH);
    PatchedIs(settings, c);
    var planned := Step(settings, c, move);
    var generated := Step(settings, planned, move);
    QuietFive(settings, c, planned, generated, move, rest);
  }

  lemma QuietFive(
    settings: Settings, c: Configuration, c1: Configuration, c2: Configuration, move: Move, rest: seq<Move>)
    requires c1 == Step(settings, c, move) && c2 == Step(settings, c1, move)
    requires c.node == PlanMCPTools && c1.node == GenerateDiff && c2.node == ApplyPatch && move.Visiting?
    requires Step(settings, Step(settings, c2, move), move).node == ReflectOnFailure
    ensures PlanRoutes(settings, c, [move, move, move, move, move] + rest) ==
            PlanRoutes(settings, Patched(settings, c, move), rest)
  {
    var one := [move] + rest;
    var two := [move] + one;
    var three := [move] + two;
    var four := [move] + three;
    assert [move, move, move, move, move] + rest == [move] + four;
    QuietMore(settings, c, move, four);
    QuietMore(settings, c1, move, three);
    QuietMore(settings, c2, move, two);
    var c3 := Step(settings, c2, move);
    assert c3.node == TargetedTests;
    QuietMore(settings, c3, move, one);
    QuietMore(settings, Step(settings, c3, move), move, rest);
  }

  lemma PatchTurnRoutes(settings: Settings, c: Configuration, rest: seq<Move>)
    requires Asking(settings, c) && c.state.plannerCalls < settings.limits.maxPlannerCalls
    requires c.state.iterations + 1 < c.state.maxIterations
    ensures var move := Turn(PATCH);
            PlanRoutes(settings, c, [move, move] + ([move, move, move, move, move] + rest)) ==
            PlanRoutes(settings, Patched(settings, Asked(settings, c, move), move), rest)
  {
    var move := Turn(PATCH);
    AskedIs(settings, c, PATCH);
    AskedRoutes(settings, c, move, [move, move, move, move, move] + rest);
    PatchedRoutes(settings, Asked(settings, c, move), rest);
  }

  /** From `c` on, `n` results can still go back with `q` reflections. */
  predicate StillAffordable(limits: Limits, c: Configuration, n: nat, q: nat) {
    && c.state.plannerCalls + n + q <= limits.maxPlannerCalls
    && n <= Potential(limits, c.state.loop) + q * (limits.maxNoProgress - 1)
    && (q > 0 ==> c.state.iterations + q < c.state.maxIterations)
  }

  /** A step without progress while one is left, and otherwise a new read. */
  function BackTurn(limits: Limits, loop: LoopState): Move {
    Turn(if loop.noProgress + 1 < limits.maxNoProgress then MALFORMED else NthInput(loop.toolCalls))
  }

  lemma GoesBackOnce(settings: Settings, c: Configuration, n: nat, q: nat)
    requires Asking(settings, c) && StillAffordable(settings.limits, c, n, q) && n > 0
    requires c.state.loop.noProgress + 1 < settings.limits.maxNoProgress
             || c.state.loop.toolCalls < settings.limits.maxToolCalls
    ensures var next := Asked(settings, c, BackTurn(settings.limits, c.state.loop));
            Asking(settings, next) && StillAffordable(settings.limits, next, n - 1, q)
  {
    if c.state.loop.noProgress + 1 < settings.limits.maxNoProgress {
      WastedTurn(settings, c);
    } else {
      ReadTurn(settings, c);
      OneFewerTool(settings.limits.maxToolCalls - c.state.loop.toolCalls, settings.limits.maxNoProgress);
    }
  }

  lemma ReflectsOnce(settings: Settings, c: Configuration, n: nat, q: nat)
    requires Asking(settings, c) && StillAffordable(settings.limits, c, n, q) && n > 0
    requires c.state.loop.noProgress + 1 >= settings.limits.maxNoProgress
    requires c.state.loop.toolCalls >= settings.limits.maxToolCalls
    ensures q > 0
    ensures var next := Patched(settings, Asked(settings, c, Turn(PATCH)), Turn(PATCH));
            Asking(settings, next) && StillAffordable(settings.limits, next, n, q - 1)
  {
    UsedUp(settings.limits, c, n, q);
    PatchTurn(settings, c);
    RenewedSlack(settings.limits, c, Patched(settings, Asked(settings, c, Turn(PATCH)), Turn(PATCH)), n, q);
  }

  lemma UsedUp(limits: Limits, c: Configuration, n: nat, q: nat)
    requires WithinBudget(limits, c.state.loop) && StillAffordable(limits, c, n, q) && n > 0
    requires c.state.loop.noProgress + 1 >= limits.maxNoProgress && c.state.loop.toolCalls >= limits.maxToolCalls
    ensures Potential(limits, c.state.loop) == 0 && q > 0
  {
  }

  lemma RenewedSlack(limits: Limits, c: Configuration, next: Configuration, n: nat, q: nat)
    requires StillAffordable(limits, c, n, q) && q > 0 && Potential(limits, c.state.loop) == 0
    requires next.state.loop.toolCalls == c.state.loop.toolCalls == limits.maxToolCalls
    requires next.state.loop.noProgress == 0
    requires next.state.plannerCalls == c.state.plannerCalls + 1
    requires next.state.iterations == c.state.iterations + 1 && next.state.maxIterations == c.state.maxIterations
    ensures StillAffordable(limits, next, n, q - 1)
  {
    OneMore(q - 1, limits.maxNoProgress - 1);
  }

  lemma {:induction false} RoutesAttained(settings: Settings, c: Configuration, n: nat, q: nat)
    returns (moves: seq<Move>)
    requires Asking(settings, c) && StillAffordable(settings.limits, c, n, q)
    ensures PlanRoutes(settings, c, moves) == n
    decreases n + q
  {
    var limits, loop := settings.limits, c.state.loop;
    if n == 0 {
      moves := [];
    } else if loop.noProgress + 1 < limits.maxNoProgress || loop.toolCalls < limits.maxToolCalls {
      var move := BackTurn(limits, loop);
      GoesBackOnce(settings, c, n, q);
      moves := RoutesAttained(settings, Asked(settings, c, move), n - 1, q);
      AskedRoutes(settings, c, move, moves);
      moves := [move, move] + moves;
    } else {
      var move := Turn(PATCH);
      ReflectsOnce(settings, c, n, q);
      moves := RoutesAttained(settings, Patched(settings, Asked(settings, c, move), move), n, q - 1);
      PatchTurnRoutes(settings, c, moves);
      moves := [move, move] + ([move, move, move, move, move] + moves);
    }
  }

  /** The first three nodes, with a failing baseline. */
  lemma StartAsks(settings: Settings, maxRounds: nat, maxCalls: nat, maxIterations: nat) returns (c: Configuration)
    requires settings.limits.Valid()
    ensures Asking(settings, c)
    ensures c.state == Start(maxRounds, maxCalls, maxIterations).state.(evidence := c.state.evidence)
    ensures var start, move := Start(maxRounds, maxCalls, maxIterations), Turn(PATCH);
            c == Step(settings, Step(settings, Step(settings, start, move), move), move)
  {
    var start, move := Start(maxRounds, maxCalls, maxIterations), Turn(PATCH);
    assert Classify(Some(FAILING)) == Failed;
    c := Step(settings, Step(settings, Step(settings, start, move), move), move);
  }

  lemma StartRoutes(settings: Settings, start: Configuration, move: Move, rest: seq<Move>)
    requires start.node == InspectRepository && move.Visiting?
    ensures PlanRoutes(settings, start, [move, move, move] + rest) ==
            PlanRoutes(settings, Step(settings, Step(settings, Step(settings, start, move), move), move), rest)
  {
    var one := [move] + rest;
    var two := [move] + one;
    assert [move, move, move] + rest == [move] + two;
    RoutesMore(settings, start, move, two);
    RoutesMore(settings, Step(settings, start, move), move, one);
    RoutesMore(settings, Step(settings, Step(settings, start, move), move), move, rest);
  }

  lemma AffordableIsAttained(
    settings: Settings, maxRounds: nat, maxCalls: nat, maxIterations: nat, n: nat, q: nat)
    returns (moves: seq<Move>)
    requires settings.limits.Valid() && q < Max(1, maxIterations) && Affordable(settings.limits, n, q)
    ensures PlanRoutes(settings, Start(maxRounds, maxCalls, maxIterations), moves) == n
  {
    var start, move := Start(maxRounds, maxCalls, maxIterations), Turn(PATCH);
    var c := StartAsks(settings, maxRounds, maxCalls, maxIterations);
    OneFewerTool(settings.limits.maxToolCalls + 1, settings.limits.maxNoProgress);
    moves := RoutesAttained(settings, c, n, q);
    StartRoutes(settings, start, move, moves);
    moves := [move, move, move] + moves;
  }

  /** The planner can get `n` results back in one run. */
  ghost predicate CanGoBack(settings: Settings, start: Configuration, n: nat) {
    exists moves :: PlanRoutes(settings, start, moves) == n
  }

  /** Exactly how many results of the executor can go back to the planner in one run: as many as the tool budget, the
      steps without progress, the planner's calls and the reflections the iterations allow can pay for. */
  lemma PlanRoutesPossibleIff(settings: Settings, maxRounds: nat, maxCalls: nat, maxIterations: nat, n: nat)
    requires settings.limits.Valid()
    ensures CanGoBack(settings, Start(maxRounds, maxCalls, maxIterations), n) <==>
            exists q: nat :: q < Max(1, maxIterations) && Affordable(settings.limits, n, q)
  {
    var start := Start(maxRounds, maxCalls, maxIterations);
    if CanGoBack(settings, start, n) {
      var moves :| PlanRoutes(settings, start, moves) == n;
      PlanRoutesAreAffordable(settings, maxRounds, maxCalls, maxIterations, moves);
      var q := Reflections(settings, start, moves);
      assert q < Max(1, maxIterations) && Affordable(settings.limits, n, q);
    }
    if q: nat :| q < Max(1, maxIterations) && Affordable(settings.limits, n, q) {
      var moves := AffordableIsAttained(settings, maxRounds, maxCalls, maxIterations, n, q);
    }
  }

  /** The most there can be when planner calls do not run out. */
  function MostPlanRoutes(limits: Limits, maxIterations: nat): (most: nat)
    requires limits.Valid()
  {
    var renewed := (Max(1, maxIterations) - 1) * (limits.maxNoProgress - 1);
    assert renewed >= 0 && (limits.maxToolCalls + 1) * limits.maxNoProgress >= 1;
    (limits.maxToolCalls + 1) * limits.maxNoProgress - 1 + renewed
  }

  /** The reflections a run with the most results needs. */
  function ReflectionsForMost(limits: Limits, maxIterations: nat): nat {
    if limits.maxNoProgress == 1 then 0 else Max(1, maxIterations) - 1
  }

  lemma MoreReflections(q: nat, most: nat, m: nat)
    requires q <= most
    ensures q * m <= most * m
    ensures q < most && m > 0 ==> q * m < most * m
  {
  }

  lemma AffordableIsAtMost(limits: Limits, maxIterations: nat, n: nat, q: nat)
    requires limits.Valid() && q < Max(1, maxIterations) && Affordable(limits, n, q)
    ensures n <= MostPlanRoutes(limits, maxIterations)
    ensures n == MostPlanRoutes(limits, maxIterations) ==>
              n + ReflectionsForMost(limits, maxIterations) <= limits.maxPlannerCalls
  {
    MoreReflections(q, Max(1, maxIterations) - 1, limits.maxNoProgress - 1);
  }

  lemma MostIsAffordable(limits: Limits, maxIterations: nat)
    requires limits.Valid()
    requires MostPlanRoutes(limits, maxIterations) + ReflectionsForMost(limits, maxIterations)
             <= limits.maxPlannerCalls
    ensures Affordable(limits, MostPlanRoutes(limits, maxIterations), ReflectionsForMost(limits, maxIterations))
  {
    if limits.maxNoProgress == 1 {
      assert (Max(1, maxIterations) - 1) * (limits.maxNoProgress - 1) == 0;
    }
  }

  /** No run has more than that, and one has as many exactly when the planner may be called for each of them and, if
      reflecting renews anything at all, for each patch but the last. */
  lemma MostIsReachedIff(settings: Settings, maxRounds: nat, maxCalls: nat, maxIterations: nat)
    requires settings.limits.Valid()
    ensures var start := Start(maxRounds, maxCalls, maxIterations);
            var most := MostPlanRoutes(settings.limits, maxIterations);
            && (forall moves :: PlanRoutes(settings, start, moves) <= most)
            && (CanGoBack(settings, start, most) <==>
                  most + ReflectionsForMost(settings.limits, maxIterations) <= settings.limits.maxPlannerCalls)
  {
    var limits, start := settings.limits, Start(maxRounds, maxCalls, maxIterations);
    var most := MostPlanRoutes(limits, maxIterations);
    forall moves ensures PlanRoutes(settings, start, moves) <= most {
      PlanRoutesAreAffordable(settings, maxRounds, maxCalls, maxIterations, moves);
      AffordableIsAtMost(
        limits, maxIterations, PlanRoutes(settings, start, moves), Reflections(settings, start, moves));
    }
    PlanRoutesPossibleIff(settings, maxRounds, maxCalls, maxIterations, most);
    if CanGoBack(settings, start, most) {
      var q: nat :| q < Max(1, maxIterations) && Affordable(limits, most, q);
      AffordableIsAtMost(limits, maxIterations, most, q);
    }
    if most + ReflectionsForMost(limits, maxIterations) <= limits.maxPlannerCalls {
      MostIsAffordable(limits, maxIterations);
    }
  }

  // ----- What a run remembers -----

  /** What a move adds to the action log. */
  function EntriesOf(settings: Settings, c: Configuration, move: Move): seq<Entry> {
    if c.node == ExecuteLocalAction && move.Visiting? then
      [EntryOf(settings.limits, c.state.loop, InputOf(c, move.world))]
    else []
  }

  /** The call a move hands to a tool, if any. */
  function CallsMade(settings: Settings, c: Configuration, move: Move): seq<ToolCall> {
    if c.node == ExecuteLocalAction && move.Visiting? then
      CallsOf(settings.limits, c.state.loop, InputOf(c, move.world))
    else []
  }

  /** Everything a run has ever logged, in order. */
  function FullLog(settings: Settings, c: Configuration, moves: seq<Move>): seq<Entry>
    decreases |moves|
  {
    if moves == [] then []
    else EntriesOf(settings, c, moves[0]) + FullLog(settings, Step(settings, c, moves[0]), moves[1..])
  }

  /** The calls a run has handed to a tool, in order. */
  function CallLog(settings: Settings, c: Configuration, moves: seq<Move>): seq<ToolCall>
    decreases |moves|
  {
    if moves == [] then []
    else CallsMade(settings, c, moves[0]) + CallLog(settings, Step(settings, c, moves[0]), moves[1..])
  }

  /** The counters of `c` are within bounds, and it remembers the end of what was `logged` and of all `calls`. */
  ghost predicate RunInv(settings: Settings, c: Configuration, logged: seq<Entry>, calls: seq<ToolCall>) {
    CountersInv(settings, c) && Remembers(settings.limits, c.state.loop, logged, calls)
  }

  lemma StepKeepsRunInv(settings: Settings, c: Configuration, move: Move, logged: seq<Entry>, calls: seq<ToolCall>)
    requires settings.limits.Valid() && RunInv(settings, c, logged, calls)
    ensures RunInv(settings, Step(settings, c, move), logged + EntriesOf(settings, c, move),
                   calls + CallsMade(settings, c, move))
  {
    StepPays(settings, c, move);
    if c.node == ExecuteLocalAction && move.Visiting? {
      ExecuteRemembers(settings.limits, c.state.loop, InputOf(c, move.world), logged, calls);
    } else {
      assert logged + [] == logged && calls + [] == calls;
      if c.node == ReflectOnFailure && move.Visiting? {
        ReflectionRemembers(settings.limits, c.state.loop, move.world.observation, logged, calls);
      } else {
        LoopUntouched(settings, c, move);
      }
    }
  }

  /** Reflecting records its observation as the executor does. */
  lemma ReflectionRemembers(
    limits: Limits, loop: LoopState, o: Observation, logged: seq<Entry>, calls: seq<ToolCall>)
    requires limits.Valid() && Remembers(limits, loop, logged, calls)
    ensures Remembers(limits, Reflected(limits, loop, o), logged, calls)
  {
    if o.digest !in loop.evidenceFingerprints {
      RecordingKeepsEvidence(limits, loop.evidence, loop.evidenceFingerprints, o.summary, o.digest);
    }
  }

  /** A failure reflected on is evidence from then on: the newest, unless it was known. */
  lemma ReflectionIsLearned(settings: Settings, c: Configuration, w: World)
    requires settings.limits.Valid() && c.node == ReflectOnFailure
    requires EvidenceInv(settings.limits, c.state.loop.evidence, c.state.loop.evidenceFingerprints)
    ensures var before, after := c.state.loop, Step(settings, c, Visiting(w)).state.loop;
            var n := |after.evidence|;
            && w.observation.digest in after.evidenceFingerprints
            && (w.observation.digest !in before.evidenceFingerprints ==>
                  && n > 0 && after.evidence[n - 1] == EvidenceItem(w.observation.summary, w.observation.digest)
                  && after.evidenceFingerprints[n - 1] == w.observation.digest)
  {
    var before := c.state.loop;
    if w.observation.digest !in before.evidenceFingerprints {
      NewestIsKept(before.evidence, EvidenceItem(w.observation.summary, w.observation.digest),
                   settings.limits.maxEvidence);
      NewestIsKept(before.evidenceFingerprints, w.observation.digest, settings.limits.maxEvidence);
    }
  }

  lemma NewestIsKept<T>(items: seq<T>, x: T, limit: nat)
    requires 1 <= limit && |items| <= limit
    ensures var more := LastN(items + [x], limit);
            && |more| == Min(|items| + 1, limit) && more[|more| - 1] == x && x in more
  {
    assert LastN(items + [x], limit)[|LastN(items + [x], limit)| - 1] == x;
  }

  lemma LoopUntouched(settings: Settings, c: Configuration, move: Move)
    requires c.node !in {ExecuteLocalAction, ReflectOnFailure} || !move.Visiting?
    ensures var next := Step(settings, c, move).state.loop;
            next == c.state.loop.(noProgress := next.noProgress)
  {
  }

  lemma Associative<T>(a: seq<T>, b: seq<T>, c: seq<T>)
    ensures a + b + c == a + (b + c)
  {
  }

  lemma {:induction false} RunKeepsRunInv(
    settings: Settings, c: Configuration, moves: seq<Move>, logged: seq<Entry>, calls: seq<ToolCall>)
    requires settings.limits.Valid() && RunInv(settings, c, logged, calls)
    ensures RunInv(settings, Run(settings, c, moves), logged + FullLog(settings, c, moves),
                   calls + CallLog(settings, c, moves))
    decreases |moves|
  {
    if moves == [] {
      assert logged + [] == logged && calls + [] == calls;
    } else {
      var next, rest := Step(settings, c, moves[0]), moves[1..];
      var entries, made := EntriesOf(settings, c, moves[0]), CallsMade(settings, c, moves[0]);
      StepKeepsRunInv(settings, c, moves[0], logged, calls);
      RunKeepsRunInv(settings, next, rest, logged + entries, calls + made);
      Associative(logged, entries, FullLog(settings, next, rest));
      Associative(calls, made, CallLog(settings, next, rest));
    }
  }

  /** On every run: evidence stays aligned, unique and capped, whether the executor or a reflection recorded it; the
      history is the last entries of the full log; the remembered fingerprints are the last calls made, of which there
      are never more than the tool budget or the planner's calls. */
  lemma DataInvariant(settings: Settings, maxRounds: nat, maxCalls: nat, maxIterations: nat, moves: seq<Move>)
    requires settings.limits.Valid()
    ensures var limits, start := settings.limits, Start(maxRounds, maxCalls, maxIterations);
            var loop, calls := Run(settings, start, moves).state.loop, CallLog(settings, start, moves);
            && EvidenceInv(limits, loop.evidence, loop.evidenceFingerprints)
            && loop.history == LastN(FullLog(settings, start, moves), limits.maxHistory)
            && loop.actionFingerprints == LastN(calls, limits.maxHistory)
            && loop.toolCalls == |calls| <= Min(limits.maxToolCalls, limits.maxPlannerCalls)
  {
    var start := Start(maxRounds, maxCalls, maxIterations);
    RunKeepsRunInv(settings, start, moves, [], []);
    assert [] + FullLog(settings, start, moves) == FullLog(settings, start, moves);
    assert [] + CallLog(settings, start, moves) == CallLog(settings, start, moves);
  }

  // ----- Which calls are made at all -----

  /** No run ever hands on a test command that is not allowed, or a read of more lines than the limit. */
  lemma {:induction false} CallsAreLegal(settings: Settings, c: Configuration, moves: seq<Move>, call: ToolCall)
    requires call in CallLog(settings, c, moves)
    ensures Legal(settings.limits, call)
    decreases |moves|
  {
    var next := Step(settings, c, moves[0]);
    if call in CallLog(settings, next, moves[1..]) {
      CallsAreLegal(settings, next, moves[1..], call);
    } else {
      assert call in CallsMade(settings, c, moves[0]);
      DispatchesIff(settings.limits, c.state.loop, InputOf(c, moves[0].world));
    }
  }

  /** The planner may be called: there is time, and each of its budgets has something left. */
  predicate MayPlan(limits: Limits, s: State, w: World) {
    && !w.deadlineReached
    && s.plannerCalls < limits.maxPlannerCalls
    && s.plannerTokens < limits.maxPlannerTokens && s.plannerTokens + w.tokens <= limits.maxPlannerTokens
    && s.loop.noProgress < limits.maxNoProgress
  }

  /** Its answer is what the executor is given exactly then; otherwise the run is over two visits later, whatever the
      planner answered. */
  lemma PlannerAnswerIff(settings: Settings, c: Configuration, w: World, w': World)
    requires settings.limits.Valid() && c.node == PlanNextAction
    ensures var asked := Step(settings, c, Visiting(w));
            && asked.node == ExecuteLocalAction && asked.state.plannerCalls == c.state.plannerCalls + 1
            && (MayPlan(settings.limits, c.state, w) ==>
                  && asked.state.action == w.raw
                  && asked.state.plannerTokens == c.state.plannerTokens + w.tokens)
            && (!MayPlan(settings.limits, c.state, w) ==> Step(settings, asked, Visiting(w')).node == FinalAnswer)
  {
    var asked := Step(settings, c, Visiting(w));
    if !MayPlan(settings.limits, c.state, w) {
      RouteIff(settings.limits, asked.state.loop, InputOf(asked, w'));
    }
  }

  // ----- Which calls are made twice -----

  lemma NewCallIsNew(settings: Settings, c: Configuration, move: Move, calls: seq<ToolCall>)
    requires settings.limits.Valid() && NoDuplicates(calls)
    requires exists logged :: RunInv(settings, c, logged, calls)
    requires Min(settings.limits.maxToolCalls, settings.limits.maxPlannerCalls) <= settings.limits.maxHistory + 1
    ensures NoDuplicates(calls + CallsMade(settings, c, move))
  {
    if CallsMade(settings, c, move) == [] {
      assert calls + CallsMade(settings, c, move) == calls;
    } else {
      assert |calls| <= settings.limits.maxHistory;
      assert CallsMade(settings, c, move)[0] !in calls;
    }
  }

  lemma {:induction false} CallsStayDistinct(
    settings: Settings, c: Configuration, moves: seq<Move>, logged: seq<Entry>, calls: seq<ToolCall>)
    requires settings.limits.Valid() && RunInv(settings, c, logged, calls) && NoDuplicates(calls)
    requires Min(settings.limits.maxToolCalls, settings.limits.maxPlannerCalls) <= settings.limits.maxHistory + 1
    ensures NoDuplicates(calls + CallLog(settings, c, moves))
    decreases |moves|
  {
    if moves == [] {
      assert calls + [] == calls;
    } else {
      var next, rest, made := Step(settings, c, moves[0]), moves[1..], CallsMade(settings, c, moves[0]);
      StepKeepsRunInv(settings, c, moves[0], logged, calls);
      NewCallIsNew(settings, c, moves[0], calls);
      CallsStayDistinct(settings, next, rest, logged + EntriesOf(settings, c, moves[0]), calls + made);
      Associative(calls, made, CallLog(settings, next, rest));
    }
  }

  function ReadsFrom(k: nat, n: nat): seq<ToolCall>
    requires k <= n
  {
    seq(n - k, i requires 0 <= i < n - k => NthRead(k + i))
  }

  lemma CallsMore(settings: Settings, c: Configuration, move: Move, rest: seq<Move>)
    ensures CallLog(settings, c, [move] + rest) ==
            CallsMade(settings, c, move) + CallLog(settings, Step(settings, c, move), rest)
  {
    assert ([move] + rest)[1..] == rest;
  }

  /** An answer that is dispatched is the first call of what follows. */
  lemma AskedCalls(settings: Settings, c: Configuration, input: Input, rest: seq<Move>)
    requires Asking(settings, c) && c.state.plannerCalls < settings.limits.maxPlannerCalls && !input.deadlineReached
    requires Dispatches(settings.limits, c.state.loop, input)
    ensures var move := Turn(input);
            CallLog(settings, c, [move, move] + rest) ==
            [input.raw.action.call] + CallLog(settings, Asked(settings, c, move), rest)
  {
    var move := Turn(input);
    var asked := Step(settings, c, move);
    AskedIs(settings, c, input);
    assert asked.state.loop == c.state.loop && InputOf(asked, move.world) == input;
    assert [move, move] + rest == [move] + ([move] + rest);
    CallsMore(settings, c, move, [move] + rest);
    CallsMore(settings, asked, move, rest);
  }

  /** The first read has been forgotten once there are more than the history holds. */
  lemma ForgottenReadIsDispatched(limits: Limits, s: LoopState)
    requires limits.Valid() && s.toolCalls == limits.maxHistory + 1 < limits.maxToolCalls
    requires s.actionFingerprints == LastN(ReadsFrom(0, limits.maxHistory + 1), limits.maxHistory)
    ensures Dispatches(limits, s, NthInput(0))
  {
    var remembered := ReadsFrom(1, limits.maxHistory + 1);
    assert s.actionFingerprints == remembered;
    assert forall i :: 0 <= i < |remembered| ==> remembered[i].startLine == i + 1;
  }

  /** A run whose planner has asked for the first `k` reads and nothing else. */
  ghost predicate HasRead(settings: Settings, c: Configuration, k: nat) {
    && Asking(settings, c) && c.state.loop.toolCalls == c.state.plannerCalls == k
    && c.state.loop.actionFingerprints == LastN(ReadsFrom(0, k), settings.limits.maxHistory)
  }

  lemma ReadIsRemembered(settings: Settings, c: Configuration, k: nat)
    requires HasRead(settings, c, k) && k < Min(settings.limits.maxToolCalls, settings.limits.maxPlannerCalls)
    ensures Dispatches(settings.limits, c.state.loop, NthInput(k))
    ensures HasRead(settings, Asked(settings, c, Turn(NthInput(k))), k + 1)
  {
    ReadTurn(settings, c);
    ReadAppends(settings.limits, c.state.loop, k);
    AskedIs(settings, c, NthInput(k));
  }

  lemma ReadAppends(limits: Limits, s: LoopState, k: nat)
    requires limits.Valid() && OnlyReadsBelow(s, s.toolCalls) && s.toolCalls == k < limits.maxToolCalls
    requires s.actionFingerprints == LastN(ReadsFrom(0, k), limits.maxHistory)
    ensures Dispatches(limits, s, NthInput(k))
    ensures Execute(limits, s, NthInput(k)).0.actionFingerprints == LastN(ReadsFrom(0, k + 1), limits.maxHistory)
  {
    NewReadGoesOn(limits, s);
    LastNAppend(ReadsFrom(0, k), NthRead(k), limits.maxHistory);
    assert ReadsFrom(0, k + 1) == ReadsFrom(0, k) + [NthRead(k)];
  }

  lemma ReadIsLogged(settings: Settings, c: Configuration, k: nat, n: nat, moves: seq<Move>)
    requires HasRead(settings, c, k) && Dispatches(settings.limits, c.state.loop, NthInput(k))
    requires k < settings.limits.maxPlannerCalls && k < n
    requires CallLog(settings, Asked(settings, c, Turn(NthInput(k))), moves) == ReadsFrom(k + 1, n) + [NthRead(0)]
    ensures CallLog(settings, c, [Turn(NthInput(k)), Turn(NthInput(k))] + moves) == ReadsFrom(k, n) + [NthRead(0)]
  {
    AskedCalls(settings, c, NthInput(k), moves);
    FirstOfReads(k, n);
    Associative([NthRead(k)], ReadsFrom(k + 1, n), [NthRead(0)]);
  }

  lemma FirstOfReads(k: nat, n: nat)
    requires k < n
    ensures ReadsFrom(k, n) == [NthRead(k)] + ReadsFrom(k + 1, n)
  {
  }

  lemma FirstReadAgain(settings: Settings, c: Configuration)
    requires HasRead(settings, c, settings.limits.maxHistory + 1)
    requires settings.limits.maxHistory + 2 <= Min(settings.limits.maxToolCalls, settings.limits.maxPlannerCalls)
    ensures CallLog(settings, c, [Turn(NthInput(0)), Turn(NthInput(0))]) == [NthRead(0)]
  {
    ForgottenReadIsDispatched(settings.limits, c.state.loop);
    AskedCalls(settings, c, NthInput(0), []);
    assert [Turn(NthInput(0)), Turn(NthInput(0))] + [] == [Turn(NthInput(0)), Turn(NthInput(0))];
  }

  /** All reads from the `k`-th on, and then the first one again. */
  lemma {:induction false} ReadsThenRepeat(settings: Settings, c: Configuration, k: nat) returns (moves: seq<Move>)
    requires HasRead(settings, c, k) && k <= settings.limits.maxHistory + 1
    requires settings.limits.maxHistory + 2 <= Min(settings.limits.maxToolCalls, settings.limits.maxPlannerCalls)
    ensures CallLog(settings, c, moves) == ReadsFrom(k, settings.limits.maxHistory + 1) + [NthRead(0)]
    decreases settings.limits.maxHistory + 1 - k
  {
    if k == settings.limits.maxHistory + 1 {
      FirstReadAgain(settings, c);
      moves := [Turn(NthInput(0)), Turn(NthInput(0))];
    } else {
      ReadIsRemembered(settings, c, k);
      var rest := ReadsThenRepeat(settings, Asked(settings, c, Turn(NthInput(k))), k + 1);
      ReadIsLogged(settings, c, k, settings.limits.maxHistory + 1, rest);
      moves := [Turn(NthInput(k)), Turn(NthInput(k))] + rest;
    }
  }

  /** With budgets that allow it, the first call is made again once it has been forgotten. */
  lemma RepeatsWithLargerBudgets(settings: Settings, maxRounds: nat, maxCalls: nat, maxIterations: nat)
    returns (moves: seq<Move>)
    requires settings.limits.Valid()
    requires settings.limits.maxHistory + 2 <= Min(settings.limits.maxToolCalls, settings.limits.maxPlannerCalls)
    ensures !NoDuplicates(CallLog(settings, Start(maxRounds, maxCalls, maxIterations), moves))
  {
    var start, move := Start(maxRounds, maxCalls, maxIterations), Turn(PATCH);
    var c := StartAsks(settings, maxRounds, maxCalls, maxIterations);
    var rest := ReadsThenRepeat(settings, c, 0);
    var calls := CallLog(settings, c, rest);
    assert calls[0] == calls[settings.limits.maxHistory + 1];
    StartCalls(settings, start, move, rest);
    moves := [move, move, move] + rest;
  }

  lemma StartCalls(settings: Settings, start: Configuration, move: Move, rest: seq<Move>)
    requires start.node == InspectRepository && move == Turn(PATCH)
    ensures CallLog(settings, start, [move, move, move] + rest) ==
            CallLog(settings, Step(settings, Step(settings, Step(settings, start, move), move), move), rest)
  {
    var one := [move] + rest;
    var two := [move] + one;
    assert [move, move, move] + rest == [move] + two;
    CallsMore(settings, start, move, two);
    CallsMore(settings, Step(settings, start, move), move, one);
    CallsMore(settings, Step(settings, Step(settings, start, move), move), move, rest);
  }

  /** Exactly which budgets rule out that a run makes a call twice: the tool budget or the planner's calls allow one
      more than is remembered, at most. */
  lemma NoRepeatedDispatchIff(settings: Settings, maxRounds: nat, maxCalls: nat, maxIterations: nat)
    requires settings.limits.Valid()
    ensures (forall moves :: NoDuplicates(CallLog(settings, Start(maxRounds, maxCalls, maxIterations), moves))) <==>
            Min(settings.limits.maxToolCalls, settings.limits.maxPlannerCalls) <= settings.limits.maxHistory + 1
  {
    var start := Start(maxRounds, maxCalls, maxIterations);
    if Min(settings.limits.maxToolCalls, settings.limits.maxPlannerCalls) <= settings.limits.maxHistory + 1 {
      forall moves
        ensures NoDuplicates(CallLog(settings, start, moves))
      {
        CallsStayDistinct(settings, start, moves, [], []);
        assert [] + CallLog(settings, start, moves) == CallLog(settings, start, moves);
      }
    } else {
      var moves := RepeatsWithLargerBudgets(settings, maxRounds, maxCalls, maxIterations);
    }
  }
}
