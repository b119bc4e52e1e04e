/** The deterministic policy boundary of the local action loop: budgets, guardrails, evidence and history.

    The planner's actions and the tools' observations are arbitrary inputs. */
module LocalLoop {
  import opened Prelude

  datatype Limits = Limits(
    maxToolCalls: nat, maxPlannerCalls: nat, maxPlannerTokens: nat, maxNoProgress: nat,
    maxReadLines: nat, maxEvidence: nat, maxHistory: nat, allowedCommands: set<string>)
  {
    /** Settings are validated to be positive. */
    predicate Valid() {
      && maxToolCalls >= 1 && maxPlannerCalls >= 1 && maxPlannerTokens >= 1 && maxNoProgress >= 1
      && maxReadLines >= 1 && maxEvidence >= 1 && maxHistory >= 1
    }
  }

  const MAX_HYPOTHESES := 20

  /** The executable part of a tool action. Its SHA-256 is taken as injective, so it is its own fingerprint. */
  datatype ToolCall =
    | ReadFile(path: string, startLine: nat, endLine: Option<nat>)
    | RunTests(command: string)
    | Query(tool: string, arguments: string)

  datatype Action =
    | Finish(hypothesis: string, reason: string)
    | GeneratePatch(hypothesis: string)
    | Tool(hypothesis: string, call: ToolCall)

  /** What the executor is given: text that fails the action schema, or an action. */
  datatype RawAction = Malformed | Wellformed(action: Action)

  datatype Digest = Digest(id: nat)

  /** What a dispatched tool returns: its digest, its summary and whether it holds anything. */
  datatype Observation = Observation(digest: Digest, summary: string, informative: bool)

  datatype Input = Input(raw: RawAction, deadlineReached: bool, observation: Observation)

  datatype EvidenceItem = EvidenceItem(summary: string, resultFingerprint: Digest)

  datatype EntryStatus = Rejected | Finished | Accepted | Completed

  datatype Entry = Entry(status: EntryStatus, raw: RawAction, observation: string)

  datatype LoopState = LoopState(
    hypotheses: seq<string>,
    evidence: seq<EvidenceItem>,
    evidenceFingerprints: seq<Digest>,
    actionFingerprints: seq<ToolCall>,
    history: seq<Entry>,
    toolCalls: nat,
    noProgress: nat,
    finishReason: Option<string>)

  const FRESH := LoopState([], [], [], [], [], 0, 0, None)

  datatype Route = Plan | Generate | Final

  // ----- The executor -----

  function AppendBoundedUnique<T(==)>(items: seq<T>, value: T, limit: nat): seq<T> {
    LastN(if value in items then items else items + [value], limit)
  }

  function Logged(limits: Limits, s: LoopState, entry: Entry): seq<Entry> {
    LastN(s.history + [entry], limits.maxHistory)
  }

  function GuardrailRejection(
    limits: Limits, s: LoopState, raw: RawAction, reason: string, hypotheses: seq<string>): (LoopState, Route)
  {
    var route := if s.noProgress + 1 >= limits.maxNoProgress then Final else Plan;
    (s.(hypotheses := hypotheses, history := Logged(limits, s, Entry(Rejected, raw, reason)),
        noProgress := s.noProgress + 1, finishReason := if route == Final then Some(reason) else None),
     route)
  }

  function ForcedFinish(
    limits: Limits, s: LoopState, raw: RawAction, reason: string, hypotheses: seq<string>): (LoopState, Route)
  {
    (s.(hypotheses := hypotheses, history := Logged(limits, s, Entry(Rejected, raw, reason)),
        finishReason := Some(reason)),
     Final)
  }

  function ToolBudgetViolation(limits: Limits, s: LoopState, deadlineReached: bool): Option<string> {
    if deadlineReached then Some("agent_loop_time_budget_exhausted")
    else if s.toolCalls >= limits.maxToolCalls then Some("agent_local_tool_call_budget_exhausted")
    else None
  }

  /** Why a tool call is refused before it is dispatched. */
  function Refusal(limits: Limits, s: LoopState, call: ToolCall): Option<string> {
    if call in s.actionFingerprints then Some("duplicate_local_action")
    else if call.ReadFile? && call.endLine.Some? && call.endLine.value - call.startLine + 1 > limits.maxReadLines then
      Some("read_line_budget_exceeded")
    else if call.RunTests? && call.command !in limits.allowedCommands then Some("test_command_not_allowlisted")
    else None
  }

  predicate Dispatches(limits: Limits, s: LoopState, input: Input) {
    && input.raw.Wellformed? && input.raw.action.Tool?
    && ToolBudgetViolation(limits, s, input.deadlineReached).None?
    && Refusal(limits, s, input.raw.action.call).None?
  }

  function Dispatched(
    limits: Limits, s: LoopState, raw: RawAction, call: ToolCall, o: Observation,
    hypotheses: seq<string>): (LoopState, Route)
  {
    var novel := o.digest !in s.evidenceFingerprints;
    var noProgress := if novel && o.informative then 0 else s.noProgress + 1;
    var route := if noProgress >= limits.maxNoProgress then Final else Plan;
    (LoopState(
       hypotheses,
       if novel then LastN(s.evidence + [EvidenceItem(o.summary, o.digest)], limits.maxEvidence) else s.evidence,
       if novel then LastN(s.evidenceFingerprints + [o.digest], limits.maxEvidence) else s.evidenceFingerprints,
       LastN(s.actionFingerprints + [call], limits.maxHistory),
       Logged(limits, s, Entry(Completed, raw, o.summary)),
       s.toolCalls + 1,
       noProgress,
       if route == Final then Some("agent_no_progress_limit_reached") else None),
     route)
  }

  function Execute(limits: Limits, s: LoopState, input: Input): (LoopState, Route) {
    match input.raw
    case Malformed => GuardrailRejection(limits, s, input.raw, "invalid_action_schema", s.hypotheses)
    case Wellformed(action) =>
      var hypotheses := AppendBoundedUnique(s.hypotheses, action.hypothesis, MAX_HYPOTHESES);
      match action
      case Finish(_, reason) =>
        (s.(hypotheses := hypotheses, history := Logged(limits, s, Entry(Finished, input.raw, reason)),
            finishReason := Some(reason)),
         Final)
      case GeneratePatch(_) =>
        (s.(hypotheses := hypotheses, finishReason := None,
            history := Logged(limits, s, Entry(Accepted, input.raw, "Patch generation authorized by the planner."))),
         Generate)
      case Tool(_, call) =>
        var violation := ToolBudgetViolation(limits, s, input.deadlineReached);
        if violation.Some? then ForcedFinish(limits, s, input.raw, violation.value, hypotheses)
        else
          var refusal := Refusal(limits, s, call);
          if refusal.Some? then GuardrailRejection(limits, s, input.raw, refusal.value, hypotheses)
          else Dispatched(limits, s, input.raw, call, input.observation, hypotheses)
  }

  // ----- What is handed on, and what every result leads to -----

  /** A call the operator allows: a read of a range no longer than the limit, a listed test command, or a query. */
  predicate Legal(limits: Limits, call: ToolCall) {
    && (call.ReadFile? && call.endLine.Some? ==> call.endLine.value - call.startLine < limits.maxReadLines)
    && (call.RunTests? ==> call.command in limits.allowedCommands)
  }

  /** A tool action within the time and the tool budget, for a legal call that is not remembered. */
  predicate Permitted(limits: Limits, s: LoopState, input: Input) {
    && input.raw.Wellformed? && input.raw.action.Tool?
    && !input.deadlineReached && s.toolCalls < limits.maxToolCalls
    && input.raw.action.call !in s.actionFingerprints && Legal(limits, input.raw.action.call)
  }

  /** A permitted action, and no other, is handed to its tool, counted, remembered and logged as completed. */
  ghost predicate HandsOn(limits: Limits, s: LoopState, input: Input, next: LoopState) {
    && next.toolCalls == s.toolCalls + (if Permitted(limits, s, input) then 1 else 0)
    && 0 < |next.history|
    && next.history[|next.history| - 1].raw == input.raw
    && (next.history[|next.history| - 1].status == Completed <==> Permitted(limits, s, input))
    && (if Permitted(limits, s, input)
        then && 0 < |next.actionFingerprints|
             && next.actionFingerprints[|next.actionFingerprints| - 1] == input.raw.action.call
             && next.history[|next.history| - 1].observation == input.observation.summary
        else && next.actionFingerprints == s.actionFingerprints && next.evidence == s.evidence
             && next.evidenceFingerprints == s.evidenceFingerprints)
  }

  /** Why any other action is turned down: the first of these that applies is logged. */
  ghost predicate GivesReason(limits: Limits, s: LoopState, input: Input, next: LoopState) {
    && 0 < |next.history|
    && var entry := next.history[|next.history| - 1];
    && (entry.status == Rejected <==>
          input.raw.Malformed? || (input.raw.action.Tool? && !Permitted(limits, s, input)))
    && (input.raw.Malformed? ==> entry.observation == "invalid_action_schema")
    && (input.raw.Wellformed? && input.raw.action.Tool? && !Permitted(limits, s, input) ==>
          var call := input.raw.action.call;
          && (input.deadlineReached ==> entry.observation == "agent_loop_time_budget_exhausted")
          && (!input.deadlineReached && s.toolCalls >= limits.maxToolCalls ==>
                entry.observation == "agent_local_tool_call_budget_exhausted")
          && (!input.deadlineReached && s.toolCalls < limits.maxToolCalls ==>
                && (call in s.actionFingerprints ==> entry.observation == "duplicate_local_action")
                && (call !in s.actionFingerprints && call.ReadFile? ==>
                      entry.observation == "read_line_budget_exceeded")
                && (call !in s.actionFingerprints && call.RunTests? ==>
                      entry.observation == "test_command_not_allowlisted")))
  }

  /** What a call that was handed on teaches: its observation is kept if it is new, and counts as progress if it also
      holds anything. */
  ghost predicate Learns(limits: Limits, s: LoopState, input: Input, next: LoopState) {
    var o, isNew := input.observation, input.observation.digest !in s.evidenceFingerprints;
    && (isNew ==>
          && 0 < |next.evidence| == |next.evidenceFingerprints|
          && next.evidence[|next.evidence| - 1] == EvidenceItem(o.summary, o.digest)
          && next.evidenceFingerprints[|next.evidence| - 1] == o.digest)
    && (!isNew ==> next.evidence == s.evidence && next.evidenceFingerprints == s.evidenceFingerprints)
    && next.noProgress == if isNew && o.informative then 0 else s.noProgress + 1
  }

  lemma ExecuteHandsOn(limits: Limits, s: LoopState, input: Input)
    requires limits.Valid()
    ensures HandsOn(limits, s, input, Execute(limits, s, input).0)
  {
    if Permitted(limits, s, input) {
      PermittedHandsOn(limits, s, input);
    } else {
      OthersHandOnNothing(limits, s, input);
    }
  }

  lemma PermittedHandsOn(limits: Limits, s: LoopState, input: Input)
    requires limits.Valid() && Permitted(limits, s, input)
    ensures HandsOn(limits, s, input, Execute(limits, s, input).0)
  {
    DispatchesIff(limits, s, input);
    LogsItsEntry(limits, s, input);
  }

  lemma OthersHandOnNothing(limits: Limits, s: LoopState, input: Input)
    requires limits.Valid() && !Permitted(limits, s, input)
    ensures HandsOn(limits, s, input, Execute(limits, s, input).0)
  {
    DispatchesIff(limits, s, input);
    LogsItsEntry(limits, s, input);
  }

  lemma LoggedIsLast(limits: Limits, s: LoopState, entry: Entry)
    requires limits.Valid()
    ensures var history := Logged(limits, s, entry); 0 < |history| && history[|history| - 1] == entry
  {
  }

  lemma LogsItsEntry(limits: Limits, s: LoopState, input: Input)
    requires limits.Valid()
    ensures var history := Execute(limits, s, input).0.history;
            0 < |history| && history[|history| - 1] == EntryOf(limits, s, input)
  {
    LoggedIsLast(limits, s, EntryOf(limits, s, input));
  }

  /** The two forms of the test agree. */
  lemma DispatchesIff(limits: Limits, s: LoopState, input: Input)
    ensures Dispatches(limits, s, input) <==> Permitted(limits, s, input)
  {
  }

  lemma ExecuteGivesReason(limits: Limits, s: LoopState, input: Input)
    requires limits.Valid()
    ensures GivesReason(limits, s, input, Execute(limits, s, input).0)
  {
    DispatchesIff(limits, s, input);
    LogsItsEntry(limits, s, input);
  }

  lemma ExecuteLearns(limits: Limits, s: LoopState, input: Input)
    requires limits.Valid() && Permitted(limits, s, input) && |s.evidence| == |s.evidenceFingerprints|
    ensures Learns(limits, s, input, Execute(limits, s, input).0)
  {
    DispatchesIff(limits, s, input);
  }

  /** Where each result leads. The run ends when the planner says so, when a tool action comes after the time or the
      tool budget is used up, or when a result leaves too many steps without progress; only then is there a finish
      reason. */
  lemma RouteIff(limits: Limits, s: LoopState, input: Input)
    requires limits.Valid()
    ensures var (next, route) := Execute(limits, s, input);
            && (route == Generate <==> input.raw.Wellformed? && input.raw.action.GeneratePatch?)
            && (route == Final <==>
                  || (input.raw.Wellformed? && input.raw.action.Finish?)
                  || (&& input.raw.Wellformed? && input.raw.action.Tool?
                      && (input.deadlineReached || s.toolCalls >= limits.maxToolCalls))
                  || (route != Generate && next.noProgress != s.noProgress && next.noProgress >= limits.maxNoProgress))
            && (next.finishReason.Some? <==> route == Final)
  {
    DispatchesIff(limits, s, input);
  }

  /** The last hypotheses are kept once each, the newest among them. */
  lemma HypothesesKept(limits: Limits, s: LoopState, input: Input)
    requires |s.hypotheses| <= 20 && NoDuplicates(s.hypotheses)
    ensures var next := Execute(limits, s, input).0;
            && |next.hypotheses| <= 20 && NoDuplicates(next.hypotheses)
            && (input.raw.Malformed? ==> next.hypotheses == s.hypotheses)
            && (input.raw.Wellformed? ==> input.raw.action.hypothesis in next.hypotheses)
            && (forall h :: h in next.hypotheses ==>
                  h in s.hypotheses || (input.raw.Wellformed? && h == input.raw.action.hypothesis))
  {
    if input.raw.Wellformed? {
      AppendKeeps(s.hypotheses, input.raw.action.hypothesis, MAX_HYPOTHESES);
    }
  }

  lemma AppendKeeps<T(!new)>(items: seq<T>, value: T, limit: nat)
    requires 1 <= limit && |items| <= limit && NoDuplicates(items)
    ensures var more := AppendBoundedUnique(items, value, limit);
            && |more| <= limit && NoDuplicates(more) && value in more
            && (forall x :: x in more ==> x in items || x == value)
  {
    var more := AppendBoundedUnique(items, value, limit);
    if value !in items {
      LastNKeepsDistinct(items + [value], limit);
      assert more[|more| - 1] == value;
    }
  }

  /** The executor as it is written: lists copied, appended to and trimmed. */
  method ExecuteAction(limits: Limits, s: LoopState, input: Input) returns (next: LoopState, route: Route)
    ensures (next, route) == Execute(limits, s, input)
    ensures limits.Valid() ==> HandsOn(limits, s, input, next) && GivesReason(limits, s, input, next)
  {
    if limits.Valid() {
      ExecuteHandsOn(limits, s, input);
      ExecuteGivesReason(limits, s, input);
    }
    if input.raw.Malformed? {
      next, route := RejectAction(limits, s, input.raw, "invalid_action_schema", s.hypotheses);
      return;
    }
    var action := input.raw.action;
    var hypotheses := s.hypotheses;
    if action.hypothesis !in hypotheses {
      hypotheses := hypotheses + [action.hypothesis];
    }
    hypotheses := LastN(hypotheses, MAX_HYPOTHESES);
    if action.Finish? {
      next := s.(hypotheses := hypotheses, history := Logged(limits, s, Entry(Finished, input.raw, action.reason)),
                 finishReason := Some(action.reason));
      return next, Final;
    }
    if action.GeneratePatch? {
      var history := Logged(limits, s, Entry(Accepted, input.raw, "Patch generation authorized by the planner."));
      return s.(hypotheses := hypotheses, history := history, finishReason := None), Generate;
    }
    var violation := ToolBudgetViolation(limits, s, input.deadlineReached);
    if violation.Some? {
      var history := Logged(limits, s, Entry(Rejected, input.raw, violation.value));
      return s.(hypotheses := hypotheses, history := history, finishReason := violation), Final;
    }
    var refusal := Refusal(limits, s, action.call);
    if refusal.Some? {
      next, route := RejectAction(limits, s, input.raw, refusal.value, hypotheses);
      return;
    }
    var evidence, evidenceFingerprints := s.evidence, s.evidenceFingerprints;
    var madeProgress := input.observation.informative;
    if input.observation.digest !in evidenceFingerprints {
      evidence := evidence + [EvidenceItem(input.observation.summary, input.observation.digest)];
      evidence := LastN(evidence, limits.maxEvidence);
      evidenceFingerprints := evidenceFingerprints + [input.observation.digest];
      evidenceFingerprints := LastN(evidenceFingerprints, limits.maxEvidence);
    } else {
      madeProgress := false;
    }
    var noProgress := if madeProgress then 0 else s.noProgress + 1;
    route := if noProgress >= limits.maxNoProgress then Final else Plan;
    next := LoopState(
      hypotheses, evidence, evidenceFingerprints,
      LastN(s.actionFingerprints + [action.call], limits.maxHistory),
      Logged(limits, s, Entry(Completed, input.raw, input.observation.summary)),
      s.toolCalls + 1, noProgress,
      if route == Final then Some("agent_no_progress_limit_reached") else None);
  }

  method RejectAction(limits: Limits, s: LoopState, raw: RawAction, reason: string, hypotheses: seq<string>)
    returns (next: LoopState, route: Route)
    ensures (next, route) == GuardrailRejection(limits, s, raw, reason, hypotheses)
  {
    var noProgress := s.noProgress + 1;
    route := if noProgress >= limits.maxNoProgress then Final else Plan;
    var history := s.history + [Entry(Rejected, raw, reason)];
    next := s.(hypotheses := hypotheses, history := LastN(history, limits.maxHistory), noProgress := noProgress,
               finishReason := if route == Final then Some(reason) else None);
  }

  // ----- How often the executor alone can go round -----

  /** How many results of consecutive executor calls route back to the planner, up to the first final one. Between
      two of them nothing else touches the counters; a repair run may also reset them. */
  function PlanResults(limits: Limits, s: LoopState, inputs: seq<Input>): nat
    decreases |inputs|
  {
    if inputs == [] then 0
    else
      var (next, route) := Execute(limits, s, inputs[0]);
      (if route == Plan then 1 else 0) + if route == Final then 0 else PlanResults(limits, next, inputs[1..])
  }

  /** (T - tools) * N + (N - 1 - noProgress) */
  function Potential(limits: Limits, s: LoopState): int {
    (limits.maxToolCalls - s.toolCalls) * limits.maxNoProgress + (limits.maxNoProgress - 1 - s.noProgress)
  }

  predicate WithinBudget(limits: Limits, s: LoopState) {
    s.toolCalls <= limits.maxToolCalls && s.noProgress < limits.maxNoProgress
  }

  lemma OneFewerTool(t: int, n: int)
    ensures (t - 1) * n == t * n - n
  {
  }

  /** Every result that goes back to the planner lowers the potential, and none that continues raises it. */
  lemma PotentialDrops(limits: Limits, s: LoopState, input: Input)
    requires limits.Valid() && WithinBudget(limits, s)
    ensures var (next, route) := Execute(limits, s, input);
            && (route != Final ==> WithinBudget(limits, next) && Potential(limits, next) <= Potential(limits, s))
            && (route == Plan ==> Potential(limits, next) < Potential(limits, s))
  {
    var (next, route) := Execute(limits, s, input);
    if Dispatches(limits, s, input) {
      assert next.toolCalls == s.toolCalls + 1;
      OneFewerTool(limits.maxToolCalls - s.toolCalls, limits.maxNoProgress);
    } else {
      assert next.toolCalls == s.toolCalls;
      assert route == Plan ==> next.noProgress == s.noProgress + 1;
    }
  }

  // ----- Evidence and history -----

  ghost predicate NoDuplicates<T(!new)>(items: seq<T>) {
    forall i, j :: 0 <= i < j < |items| ==> items[i] != items[j]
  }

  /** Evidence and fingerprints are index-aligned, without duplicates and capped. */
  ghost predicate EvidenceInv(limits: Limits, evidence: seq<EvidenceItem>, fingerprints: seq<Digest>) {
    && |evidence| == |fingerprints| <= limits.maxEvidence
    && (forall i :: 0 <= i < |evidence| ==> evidence[i].resultFingerprint == fingerprints[i])
    && NoDuplicates(fingerprints)
  }

  /** Recording one observation, as the executor and the reflection node both do it. */
  lemma RecordingKeepsEvidence(
    limits: Limits, evidence: seq<EvidenceItem>, fingerprints: seq<Digest>, summary: string, d: Digest)
    requires limits.Valid() && EvidenceInv(limits, evidence, fingerprints)
    requires d !in fingerprints
    ensures EvidenceInv(limits, LastN(evidence + [EvidenceItem(summary, d)], limits.maxEvidence),
                        LastN(fingerprints + [d], limits.maxEvidence))
  {
    LastNKeepsDistinct(fingerprints + [d], limits.maxEvidence);
  }

  lemma LastNKeepsDistinct<T(!new)>(items: seq<T>, limit: nat)
    requires NoDuplicates(items)
    ensures NoDuplicates(LastN(items, limit))
  {
  }

  lemma ExecuteKeepsEvidence(limits: Limits, s: LoopState, input: Input)
    requires limits.Valid() && EvidenceInv(limits, s.evidence, s.evidenceFingerprints)
    ensures var next := Execute(limits, s, input).0; EvidenceInv(limits, next.evidence, next.evidenceFingerprints)
  {
    if Dispatches(limits, s, input) && input.observation.digest !in s.evidenceFingerprints {
      RecordingKeepsEvidence(
        limits, s.evidence, s.evidenceFingerprints, input.observation.summary, input.observation.digest);
    }
  }

  /** The one entry every result adds to the action log. */
  function EntryOf(limits: Limits, s: LoopState, input: Input): Entry {
    if input.raw.Malformed? then Entry(Rejected, input.raw, "invalid_action_schema")
    else
      match input.raw.action
      case Finish(_, reason) => Entry(Finished, input.raw, reason)
      case GeneratePatch(_) => Entry(Accepted, input.raw, "Patch generation authorized by the planner.")
      case Tool(_, call) =>
        var violation, refusal := ToolBudgetViolation(limits, s, input.deadlineReached), Refusal(limits, s, call);
        if violation.Some? then Entry(Rejected, input.raw, violation.value)
        else if refusal.Some? then Entry(Rejected, input.raw, refusal.value)
        else Entry(Completed, input.raw, input.observation.summary)
  }

  lemma LastNAppend<T>(items: seq<T>, x: T, limit: nat)
    requires limit >= 1
    ensures LastN(LastN(items, limit) + [x], limit) == LastN(items + [x], limit)
  {
  }

  /** Evidence is aligned, unique and capped; the history is the end of all that was `logged`; and the remembered
      fingerprints are the end of all `calls` ever dispatched, of which there are as many as the counter says. */
  ghost predicate Remembers(limits: Limits, s: LoopState, logged: seq<Entry>, calls: seq<ToolCall>) {
    && EvidenceInv(limits, s.evidence, s.evidenceFingerprints)
    && s.history == LastN(logged, limits.maxHistory)
    && s.actionFingerprints == LastN(calls, limits.maxHistory)
    && s.toolCalls == |calls|
  }

  /** The call a result has handed to a tool, if any. */
  function CallsOf(limits: Limits, s: LoopState, input: Input): seq<ToolCall> {
    if Dispatches(limits, s, input) then [input.raw.action.call] else []
  }

  lemma ExecuteRemembers(limits: Limits, s: LoopState, input: Input, logged: seq<Entry>, calls: seq<ToolCall>)
    requires limits.Valid() && Remembers(limits, s, logged, calls)
    ensures Remembers(limits, Execute(limits, s, input).0, logged + [EntryOf(limits, s, input)],
                      calls + CallsOf(limits, s, input))
  {
    ExecuteKeepsEvidence(limits, s, input);
    LastNAppend(logged, EntryOf(limits, s, input), limits.maxHistory);
    if Dispatches(limits, s, input) {
      LastNAppend(calls, input.raw.action.call, limits.maxHistory);
    } else {
      assert calls + CallsOf(limits, s, input) == calls;
    }
  }

  /** What a rejection costs, whatever was rejected and why: no tool runs and nothing is learnt or forgotten but the
      oldest log entry; the reason is the last thing logged; and the run goes on only if this was not the last step
      without progress it is allowed, unless its budget is used up. */
  lemma RejectionOnlyCosts(limits: Limits, s: LoopState, input: Input)
    requires limits.Valid() && EntryOf(limits, s, input).status == Rejected
    ensures var (next, route) := Execute(limits, s, input);
            && !Dispatches(limits, s, input) && route != Generate
            && next.evidence == s.evidence && next.evidenceFingerprints == s.evidenceFingerprints
            && next.actionFingerprints == s.actionFingerprints && next.toolCalls == s.toolCalls
            && 0 < |next.history| <= limits.maxHistory
            && next.history[|next.history| - 1] == EntryOf(limits, s, input)
            && (route == Final <==> next.finishReason == Some(EntryOf(limits, s, input).observation))
            && (route == Plan ==> next.noProgress == s.noProgress + 1 < limits.maxNoProgress && next.finishReason.None?)
            && (route == Final ==> OutOfBudget(limits, s, input) || s.noProgress + 1 >= limits.maxNoProgress)
  {
  }

  /** A tool action that comes when the time or the tool budget is used up. */
  predicate OutOfBudget(limits: Limits, s: LoopState, input: Input) {
    input.raw.Wellformed? && input.raw.action.Tool? && ToolBudgetViolation(limits, s, input.deadlineReached).Some?
  }

  /** Of malformed actions in a row the executor hands back as many as there are, or as the steps without progress
      left allow. */
  lemma {:induction false} OnlyRejectionsEnd(limits: Limits, s: LoopState, inputs: seq<Input>)
    requires limits.Valid() && s.noProgress < limits.maxNoProgress
    requires forall i :: 0 <= i < |inputs| ==> inputs[i].raw.Malformed?
    ensures PlanResults(limits, s, inputs) == Min(|inputs|, limits.maxNoProgress - 1 - s.noProgress)
    decreases |inputs|
  {
    if inputs != [] {
      var (next, route) := Execute(limits, s, inputs[0]);
      if route == Plan {
        OnlyRejectionsEnd(limits, next, inputs[1..]);
      }
    }
  }
}
