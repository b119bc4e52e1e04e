/** Planning of remote tool calls, and the two ways a planned call is executed. */
module McpRouter {
  import opened Prelude

  const MAX_PROPOSALS := 20

  datatype ToolName = ToolName(text: string)

  /** Arguments as a JSON object with sorted keys. */
  datatype Arguments = Arguments(json: string)

  datatype Schema = Schema(json: string)

  datatype Policy = Auto | ApprovalRequired | Deny | UnknownPolicy(text: string)

  datatype Tool = Tool(qualifiedName: ToolName, server: string, name: ToolName, schema: Schema, policy: Policy)

  /** What a planner proposes; a tool that is not a string or arguments that are not an object are absent. */
  datatype Proposal = Proposal(tool: Option<ToolName>, arguments: Option<Arguments>)

  datatype Fingerprint = Fingerprint(tool: ToolName, arguments: Arguments)

  datatype Call = Call(qualifiedName: ToolName, server: string, tool: ToolName, arguments: Arguments)
  {
    function Mark(): Fingerprint {
      Fingerprint(qualifiedName, arguments)
    }
  }

  datatype Reason = InvalidPlanShape | ToolNotInCatalog | Denied | DuplicateCall | SchemaValidationFailed(
    detail: string)
                  | CallBudgetExhausted | InvalidPolicy | NeedsApproval

  datatype Rejection = Rejection(tool: Option<ToolName>, reason: Reason)

  datatype Plan = Plan(calls: seq<Call>, approvals: seq<Call>, rejected: seq<Rejection>)

  /** The schema check: the first error, if any. */
  type Validator = (Schema, Arguments) -> Option<string>

  // ----- The catalog -----

  /** The catalog by name; a later entry replaces an earlier one. */
  function ByName(catalog: seq<Tool>): map<ToolName, Tool> {
    if catalog == [] then map[]
    else ByName(catalog[..|catalog| - 1])[catalog[|catalog| - 1].qualifiedName := catalog[|catalog| - 1]]
  }

  function FirstEntry(catalog: seq<Tool>, name: ToolName): Option<Tool> {
    if catalog == [] then None
    else if catalog[0].qualifiedName == name then Some(catalog[0])
    else FirstEntry(catalog[1..], name)
  }

  ghost predicate LastAt(catalog: seq<Tool>, i: nat, name: ToolName) {
    && i < |catalog| && catalog[i].qualifiedName == name
    && (forall j :: i < j < |catalog| ==> catalog[j].qualifiedName != name)
  }

  ghost predicate FirstAt(catalog: seq<Tool>, i: nat, name: ToolName) {
    && i < |catalog| && catalog[i].qualifiedName == name
    && (forall j :: 0 <= j < i ==> catalog[j].qualifiedName != name)
  }

  ghost predicate Listed(catalog: seq<Tool>, name: ToolName) {
    exists tool :: tool in catalog && tool.qualifiedName == name
  }

  lemma {:induction false} ByNameIsListed(catalog: seq<Tool>, name: ToolName)
    ensures name in ByName(catalog) <==> Listed(catalog, name)
    ensures name in ByName(catalog) ==> ByName(catalog)[name].qualifiedName == name && ByName(catalog)[name] in catalog
  {
    if catalog != [] {
      var front, last := catalog[..|catalog| - 1], catalog[|catalog| - 1];
      assert catalog == front + [last];
      ByNameIsListed(front, name);
    }
  }

  /** A later entry replaces an earlier one of the same name. */
  lemma {:induction false} LastEntryWins(catalog: seq<Tool>, i: nat, name: ToolName)
    requires LastAt(catalog, i, name)
    ensures name in ByName(catalog) && ByName(catalog)[name] == catalog[i]
  {
    var front := catalog[..|catalog| - 1];
    if i < |front| {
      assert catalog[|front|].qualifiedName != name;
      LastEntryWins(front, i, name);
    }
  }

  lemma {:induction false} FirstEntryIsListed(catalog: seq<Tool>, name: ToolName)
    ensures FirstEntry(catalog, name).Some? <==> Listed(catalog, name)
    ensures FirstEntry(catalog, name).Some? ==>
      FirstEntry(catalog, name).value.qualifiedName == name && FirstEntry(catalog, name).value in catalog
  {
    if catalog != [] {
      assert catalog == [catalog[0]] + catalog[1..];
      FirstEntryIsListed(catalog[1..], name);
    }
  }

  lemma {:induction false} FirstEntryWins(catalog: seq<Tool>, i: nat, name: ToolName)
    requires FirstAt(catalog, i, name)
    ensures FirstEntry(catalog, name) == Some(catalog[i])
    decreases i
  {
    if i > 0 {
      assert catalog[0].qualifiedName != name;
      FirstEntryWins(catalog[1..], i - 1, name);
    }
  }

  // ----- What should become of each proposal -----

  datatype Verdict = Accept(call: Call) | Ask(call: Call) | Barred(mark: Fingerprint) | Reject(rejection: Rejection)

  datatype Rules = Rules(byName: map<ToolName, Tool>, prior: set<Fingerprint>, remaining: int, check: Validator)
  {
    /** A call that would be made or asked for if there were budget and it had not been proposed before. */
    predicate Eligible(p: Proposal) {
      && p.tool.Some? && p.arguments.Some?
      && p.tool.value in byName
      && byName[p.tool.value].policy in {Auto, ApprovalRequired}
      && Fingerprint(p.tool.value, p.arguments.value) !in prior
      && check(byName[p.tool.value].schema, p.arguments.value).None?
    }
  }

  /** The calls of a list of verdicts, made or asked for. */
  function Admitted(vs: seq<Verdict>): seq<Fingerprint> {
    if vs == [] then []
    else
      var last := vs[|vs| - 1];
      Admitted(vs[..|vs| - 1]) + if last.Accept? || last.Ask? then [last.call.Mark()] else []
  }

  function Accepted(vs: seq<Verdict>): seq<Call> {
    if vs == [] then []
    else Accepted(vs[..|vs| - 1]) + if vs[|vs| - 1].Accept? then [vs[|vs| - 1].call] else []
  }

  function Asked(vs: seq<Verdict>): seq<Call> {
    if vs == [] then []
    else Asked(vs[..|vs| - 1]) + if vs[|vs| - 1].Ask? then [vs[|vs| - 1].call] else []
  }

  function Rejected(vs: seq<Verdict>): seq<Rejection> {
    if vs == [] then []
    else
      var last := vs[|vs| - 1];
      Rejected(vs[..|vs| - 1]) +
      match last
      case Barred(mark) => [Rejection(Some(mark.tool), InvalidPolicy)]
      case Reject(rejection) => [rejection]
      case _ => []
  }

  /** The fingerprints a later proposal may not repeat. */
  function Taken(vs: seq<Verdict>): set<Fingerprint> {
    if vs == [] then {}
    else
      var last := vs[|vs| - 1];
      Taken(vs[..|vs| - 1]) +
      match last
      case Accept(call) => {call.Mark()}
      case Ask(call) => {call.Mark()}
      case Barred(mark) => {mark}
      case Reject(_) => {}
  }

  function Decide(rules: Rules, earlier: seq<Verdict>, p: Proposal): Verdict {
    if p.tool.None? || p.arguments.None? then Reject(Rejection(p.tool, InvalidPlanShape))
    else if p.tool.value !in rules.byName then Reject(Rejection(p.tool, ToolNotInCatalog))
    else
      var tool := rules.byName[p.tool.value];
      var mark := Fingerprint(p.tool.value, p.arguments.value);
      var call := Call(p.tool.value, tool.server, tool.name, p.arguments.value);
      if tool.policy == Deny then Reject(Rejection(p.tool, Denied))
      else if mark in rules.prior + Taken(earlier) then Reject(Rejection(p.tool, DuplicateCall))
      else
        var problem := rules.check(tool.schema, p.arguments.value);
        if problem.Some? then Reject(Rejection(p.tool, SchemaValidationFailed(problem.value)))
        else if |Admitted(earlier)| >= rules.remaining then Reject(Rejection(p.tool, CallBudgetExhausted))
        else if tool.policy == ApprovalRequired then Ask(call)
        else if tool.policy == Auto then Accept(call)
        else Barred(mark)
  }

  function Verdicts(rules: Rules, ps: seq<Proposal>): (vs: seq<Verdict>)
    ensures |vs| == |ps|
  {
    if ps == [] then []
    else
      var earlier := Verdicts(rules, ps[..|ps| - 1]);
      earlier + [Decide(rules, earlier, ps[|ps| - 1])]
  }

  // ----- The planner's filter -----

  function Considered(ps: seq<Proposal>): seq<Proposal> {
    if |ps| <= MAX_PROPOSALS then ps else ps[..MAX_PROPOSALS]
  }

  lemma VerdictsStep(rules: Rules, ps: seq<Proposal>, i: nat)
    requires i < |ps|
    ensures var earlier := Verdicts(rules, ps[..i]);
            Verdicts(rules, ps[..i + 1]) == earlier + [Decide(rules, earlier, ps[i])]
  {
    assert ps[..i + 1][..i] == ps[..i];
  }

  lemma ListsStep(earlier: seq<Verdict>, v: Verdict)
    ensures Accepted(earlier + [v]) == Accepted(earlier) + if v.Accept? then [v.call] else []
    ensures Asked(earlier + [v]) == Asked(earlier) + if v.Ask? then [v.call] else []
    ensures Rejected(earlier + [v]) == Rejected(earlier) +
      match v
      case Barred(mark) => [Rejection(Some(mark.tool), InvalidPolicy)]
      case Reject(rejection) => [rejection]
      case _ => []
    ensures Admitted(earlier + [v]) == Admitted(earlier) + if v.Accept? || v.Ask? then [v.call.Mark()] else []
    ensures Taken(earlier + [v]) == Taken(earlier) +
      match v
      case Accept(call) => {call.Mark()}
      case Ask(call) => {call.Mark()}
      case Barred(mark) => {mark}
      case Reject(_) => {}
  {
    assert (earlier + [v])[..|earlier|] == earlier;
  }

  lemma {:induction false} AdmittedCount(vs: seq<Verdict>)
    ensures |Admitted(vs)| == |Accepted(vs)| + |Asked(vs)|
  {
    if vs != [] {
      AdmittedCount(vs[..|vs| - 1]);
    }
  }

  /** The lists while the filter works: what has been made, asked for and turned down, and what may not come again. */
  datatype Lists = Lists(calls: seq<Call>, approvals: seq<Call>, rejected: seq<Rejection>, seen: set<Fingerprint>)
  {
    function Reject(tool: Option<ToolName>, reason: Reason): Lists {
      this.(rejected := rejected + [Rejection(tool, reason)])
    }
  }

  function ListsOf(rules: Rules, vs: seq<Verdict>): Lists {
    Lists(Accepted(vs), Asked(vs), Rejected(vs), rules.prior + Taken(vs))
  }

  /** One turn of the filter's loop. */
  method Consider(rules: Rules, before: Lists, p: Proposal, ghost earlier: seq<Verdict>) returns (after: Lists)
    requires before == ListsOf(rules, earlier)
    ensures after == ListsOf(rules, earlier + [Decide(rules, earlier, p)])
  {
    ListsStep(earlier, Decide(rules, earlier, p));
    AdmittedCount(earlier);
    if p.tool.None? || p.arguments.None? {
      return before.Reject(p.tool, InvalidPlanShape);
    }
    if p.tool.value !in rules.byName {
      return before.Reject(p.tool, ToolNotInCatalog);
    }
    var tool := rules.byName[p.tool.value];
    if tool.policy == Deny {
      return before.Reject(p.tool, Denied);
    }
    var mark := Fingerprint(p.tool.value, p.arguments.value);
    if mark in before.seen {
      return before.Reject(p.tool, DuplicateCall);
    }
    var problem := rules.check(tool.schema, p.arguments.value);
    if problem.Some? {
      return before.Reject(p.tool, SchemaValidationFailed(problem.value));
    }
    if |before.calls| + |before.approvals| >= rules.remaining {
      return before.Reject(p.tool, CallBudgetExhausted);
    }
    after := before.(seen := before.seen + {mark});
    var call := Call(p.tool.value, tool.server, tool.name, p.arguments.value);
    if tool.policy == ApprovalRequired {
      after := after.(approvals := after.approvals + [call]);
    } else if tool.policy == Auto {
      after := after.(calls := after.calls + [call]);
    } else {
      after := after.Reject(p.tool, InvalidPolicy);
    }
  }

  method ValidatePlan(
    proposed: seq<Proposal>, catalog: seq<Tool>, remaining: int, prior: set<Fingerprint>, check: Validator)
    returns (plan: Plan)
    ensures var vs := Verdicts(Rules(ByName(catalog), prior, remaining, check), Considered(proposed));
            plan == Plan(Accepted(vs), Asked(vs), Rejected(vs))
  {
    var rules := Rules(ByName(catalog), prior, remaining, check);
    var considered := Considered(proposed);
    var lists := Lists([], [], [], prior);
    for i := 0 to |considered|
      invariant lists == ListsOf(rules, Verdicts(rules, considered[..i]))
    {
      VerdictsStep(rules, considered, i);
      lists := Consider(rules, lists, considered[i], Verdicts(rules, considered[..i]));
    }
    assert considered[..|considered|] == considered;
    plan := Plan(lists.calls, lists.approvals, lists.rejected);
  }

  // ----- What the filter keeps -----

  /** Where a verdict sends its proposal, and that it is about that proposal. */
  ghost predicate About(v: Verdict, p: Proposal) {
    match v
    case Accept(call) => p == Proposal(Some(call.qualifiedName), Some(call.arguments))
    case Ask(call) => p == Proposal(Some(call.qualifiedName), Some(call.arguments))
    case Barred(mark) => p == Proposal(Some(mark.tool), Some(mark.arguments))
    case Reject(rejection) => rejection.tool == p.tool
  }

  /** A verdict depends on the proposals up to its own. */
  lemma {:induction false} VerdictAt(rules: Rules, ps: seq<Proposal>, i: nat)
    requires i < |ps|
    ensures Verdicts(rules, ps)[i] == Decide(rules, Verdicts(rules, ps[..i]), ps[i])
    ensures Verdicts(rules, ps)[..i] == Verdicts(rules, ps[..i])
    decreases |ps|
  {
    var front := ps[..|ps| - 1];
    if i < |ps| - 1 {
      VerdictAt(rules, front, i);
      assert front[..i] == ps[..i];
    }
  }

  lemma {:induction false} ListsCount(vs: seq<Verdict>)
    ensures |Accepted(vs)| + |Asked(vs)| + |Rejected(vs)| == |vs|
  {
    if vs != [] {
      ListsCount(vs[..|vs| - 1]);
    }
  }

  lemma DecideIsAbout(rules: Rules, earlier: seq<Verdict>, p: Proposal)
    ensures About(Decide(rules, earlier, p), p)
  {
  }

  lemma VerdictIsAbout(rules: Rules, ps: seq<Proposal>, i: nat)
    requires i < |ps|
    ensures About(Verdicts(rules, ps)[i], ps[i])
  {
    VerdictAt(rules, ps, i);
    DecideIsAbout(rules, Verdicts(rules, ps[..i]), ps[i]);
  }

  /** Each proposal considered gets one verdict, in order, and lands in one of the three lists. */
  lemma EachProposalOnce(rules: Rules, ps: seq<Proposal>)
    ensures var vs := Verdicts(rules, ps);
            && |vs| == |ps|
            && (forall i :: 0 <= i < |ps| ==> About(vs[i], ps[i]))
            && |Accepted(vs)| + |Asked(vs)| + |Rejected(vs)| == |ps|
  {
    ListsCount(Verdicts(rules, ps));
    forall i | 0 <= i < |ps| ensures About(Verdicts(rules, ps)[i], ps[i]) {
      VerdictIsAbout(rules, ps, i);
    }
  }

  /** The distinct eligible fingerprints, in order of first appearance. */
  function Firsts(rules: Rules, ps: seq<Proposal>): seq<Fingerprint> {
    if ps == [] then [] else WithFirst(rules, Firsts(rules, ps[..|ps| - 1]), ps[|ps| - 1])
  }

  function WithFirst(rules: Rules, marks: seq<Fingerprint>, p: Proposal): seq<Fingerprint> {
    if rules.Eligible(p) && Fingerprint(p.tool.value, p.arguments.value) !in marks
    then marks + [Fingerprint(p.tool.value, p.arguments.value)]
    else marks
  }

  function Budget(rules: Rules): nat {
    Max(0, rules.remaining)
  }

  /** Every fingerprint taken is admitted or of a tool with a policy the filter does not know. */
  lemma {:induction false} TakenAreAdmitted(rules: Rules, ps: seq<Proposal>, mark: Fingerprint)
    requires mark.tool in rules.byName && rules.byName[mark.tool].policy in {Auto, ApprovalRequired}
    ensures mark in Taken(Verdicts(rules, ps)) <==> mark in Admitted(Verdicts(rules, ps))
  {
    if ps != [] {
      var front := ps[..|ps| - 1];
      var earlier := Verdicts(rules, front);
      TakenAreAdmitted(rules, front, mark);
      ListsStep(earlier, Decide(rules, earlier, ps[|ps| - 1]));
    }
  }

  function Take<T>(items: seq<T>, n: nat): seq<T> {
    if |items| <= n then items else items[..n]
  }

  lemma IneligibleIsNotAdmitted(rules: Rules, earlier: seq<Verdict>, p: Proposal)
    requires !rules.Eligible(p)
    ensures !Decide(rules, earlier, p).Accept? && !Decide(rules, earlier, p).Ask?
  {
  }

  /** An eligible proposal is admitted exactly when it is new and there is budget. */
  lemma EligibleIsAdmitted(rules: Rules, earlier: seq<Verdict>, p: Proposal)
    requires rules.Eligible(p)
    ensures var v, mark := Decide(rules, earlier, p), Fingerprint(p.tool.value, p.arguments.value);
            && (v.Accept? || v.Ask? <==> mark !in Taken(earlier) && |Admitted(earlier)| < rules.remaining)
            && (v.Accept? || v.Ask? ==> v.call.Mark() == mark)
  {
  }

  lemma AdmitsStep(rules: Rules, earlier: seq<Verdict>, p: Proposal, before: seq<Fingerprint>)
    requires Admitted(earlier) == Take(before, Budget(rules))
    requires rules.Eligible(p) ==>
      var mark := Fingerprint(p.tool.value, p.arguments.value); mark in Taken(earlier) <==> mark in Admitted(earlier)
    ensures Admitted(earlier + [Decide(rules, earlier, p)]) == Take(WithFirst(rules, before, p), Budget(rules))
  {
    ListsStep(earlier, Decide(rules, earlier, p));
    if rules.Eligible(p) {
      EligibleIsAdmitted(rules, earlier, p);
    } else {
      IneligibleIsNotAdmitted(rules, earlier, p);
    }
  }

  /**
   * The filter is greedy and nothing else: what it makes or asks for are the first distinct eligible calls, as many
   * as the budget allows.
   */
  lemma {:induction false} AdmitsTheFirst(rules: Rules, ps: seq<Proposal>)
    ensures Admitted(Verdicts(rules, ps)) == Take(Firsts(rules, ps), Budget(rules))
  {
    if ps != [] {
      var front, p := ps[..|ps| - 1], ps[|ps| - 1];
      AdmitsTheFirst(rules, front);
      if rules.Eligible(p) {
        TakenAreAdmitted(rules, front, Fingerprint(p.tool.value, p.arguments.value));
      }
      AdmitsStep(rules, Verdicts(rules, front), p, Firsts(rules, front));
    }
  }

  ghost predicate Distinct(marks: seq<Fingerprint>) {
    forall i, j :: 0 <= i < j < |marks| ==> marks[i] != marks[j]
  }

  lemma WithFirstDistinct(rules: Rules, marks: seq<Fingerprint>, p: Proposal)
    requires Distinct(marks)
    ensures Distinct(WithFirst(rules, marks, p))
  {
    var next := WithFirst(rules, marks, p);
    forall i, j | 0 <= i < j < |next| ensures next[i] != next[j] {
      if j == |marks| {
        assert next[i] == marks[i] && marks[i] in marks;
      }
    }
  }

  /** `Firsts` lists the eligible fingerprints, each once and none of them observed before. */
  lemma {:induction false} FirstsAreDistinct(rules: Rules, ps: seq<Proposal>)
    ensures Distinct(Firsts(rules, ps))
    ensures forall mark :: mark in Firsts(rules, ps) <==>
      var p := Proposal(Some(mark.tool), Some(mark.arguments)); p in ps && rules.Eligible(p)
    ensures forall mark :: mark in Firsts(rules, ps) ==> mark !in rules.prior
  {
    if ps != [] {
      var front, last := ps[..|ps| - 1], ps[|ps| - 1];
      assert ps == front + [last];
      FirstsAreDistinct(rules, front);
      WithFirstDistinct(rules, Firsts(rules, front), last);
      forall mark ensures mark in Firsts(rules, ps) <==>
          var p := Proposal(Some(mark.tool), Some(mark.arguments)); p in ps && rules.Eligible(p) {
        assert Proposal(Some(mark.tool), Some(mark.arguments)) == last <==>
          last.tool.Some? && last.arguments.Some? && mark == Fingerprint(last.tool.value, last.arguments.value);
      }
    }
  }

  /** Calls and requests stay within the budget, are all different, and repeat no earlier observation. */
  lemma PlanWithinBudget(rules: Rules, ps: seq<Proposal>)
    ensures var marks := Admitted(Verdicts(rules, ps));
            && |Accepted(Verdicts(rules, ps))| + |Asked(Verdicts(rules, ps))| == |marks| <= Budget(rules)
            && |marks| == Min(Budget(rules), |Firsts(rules, ps)|)
            && Distinct(marks)
            && (forall mark :: mark in marks ==> mark !in rules.prior)
  {
    AdmittedCount(Verdicts(rules, ps));
    AdmitsTheFirst(rules, ps);
    FirstsAreDistinct(rules, ps);
  }

  /** The call a fingerprint stands for. */
  function CallFor(rules: Rules, mark: Fingerprint): Call
    requires mark.tool in rules.byName
  {
    Call(mark.tool, rules.byName[mark.tool].server, rules.byName[mark.tool].name, mark.arguments)
  }

  /** The calls of one policy among some fingerprints, in order. */
  function CallsUnder(rules: Rules, policy: Policy, marks: seq<Fingerprint>): seq<Call> {
    if marks == [] then []
    else
      var last := marks[|marks| - 1];
      CallsUnder(rules, policy, marks[..|marks| - 1]) +
      if last.tool in rules.byName && rules.byName[last.tool].policy == policy then [CallFor(rules, last)] else []
  }

  lemma CallsUnderStep(rules: Rules, policy: Policy, marks: seq<Fingerprint>, mark: Fingerprint)
    ensures CallsUnder(rules, policy, marks + [mark]) == CallsUnder(rules, policy, marks) +
            if mark.tool in rules.byName && rules.byName[mark.tool].policy == policy then [CallFor(rules, mark)] else []
  {
    assert (marks + [mark])[..|marks|] == marks;
  }

  lemma DecidedCall(rules: Rules, earlier: seq<Verdict>, p: Proposal)
    ensures var v := Decide(rules, earlier, p);
            v.Accept? || v.Ask? ==>
              && v.call.qualifiedName in rules.byName && v.call == CallFor(rules, v.call.Mark())
              && rules.byName[v.call.qualifiedName].policy == if v.Accept? then Auto else ApprovalRequired
  {
  }

  ghost predicate SplitByPolicy(rules: Rules, vs: seq<Verdict>) {
    && Accepted(vs) == CallsUnder(rules, Auto, Admitted(vs))
    && Asked(vs) == CallsUnder(rules, ApprovalRequired, Admitted(vs))
  }

  lemma SplitStep(rules: Rules, earlier: seq<Verdict>, p: Proposal)
    requires SplitByPolicy(rules, earlier)
    ensures SplitByPolicy(rules, earlier + [Decide(rules, earlier, p)])
  {
    var v := Decide(rules, earlier, p);
    ListsStep(earlier, v);
    DecidedCall(rules, earlier, p);
    if v.Accept? || v.Ask? {
      var mark := v.call.Mark();
      CallsUnderStep(rules, Auto, Admitted(earlier), mark);
      CallsUnderStep(rules, ApprovalRequired, Admitted(earlier), mark);
      assert Admitted(earlier + [v]) == Admitted(earlier) + [mark];
      assert CallFor(rules, mark) == v.call;
    } else {
      assert Admitted(earlier + [v]) == Admitted(earlier);
    }
  }

  lemma {:induction false} ListsAreCallsUnder(rules: Rules, ps: seq<Proposal>)
    ensures SplitByPolicy(rules, Verdicts(rules, ps))
  {
    if ps != [] {
      ListsAreCallsUnder(rules, ps[..|ps| - 1]);
      SplitStep(rules, Verdicts(rules, ps[..|ps| - 1]), ps[|ps| - 1]);
    }
  }

  /** Both lists, from the proposals alone: the first eligible ones in order, split by policy. */
  lemma PlanIsGreedy(rules: Rules, ps: seq<Proposal>)
    ensures var vs := Verdicts(rules, ps);
            var admitted := Take(Firsts(rules, ps), Budget(rules));
            && Accepted(vs) == CallsUnder(rules, Auto, admitted)
            && Asked(vs) == CallsUnder(rules, ApprovalRequired, admitted)
  {
    AdmitsTheFirst(rules, ps);
    ListsAreCallsUnder(rules, ps);
  }

  lemma DecideEligible(rules: Rules, earlier: seq<Verdict>, p: Proposal)
    requires rules.Eligible(p)
    ensures var mark := Fingerprint(p.tool.value, p.arguments.value);
            Decide(rules, earlier, p) ==
              if mark in Taken(earlier) then Reject(Rejection(p.tool, DuplicateCall))
              else if |Admitted(earlier)| >= rules.remaining then Reject(Rejection(p.tool, CallBudgetExhausted))
              else if rules.byName[mark.tool].policy == Auto then Accept(CallFor(rules, mark))
              else Ask(CallFor(rules, mark))
  {
  }

  /** The fate of an eligible proposal, from the distinct eligible ones before it. */
  lemma EligibleFate(rules: Rules, ps: seq<Proposal>, i: nat)
    requires i < |ps| && rules.Eligible(ps[i])
    ensures var mark := Fingerprint(ps[i].tool.value, ps[i].arguments.value);
            var before := Firsts(rules, ps[..i]);
            Verdicts(rules, ps)[i] ==
              if mark in Take(before, Budget(rules)) then Reject(Rejection(ps[i].tool, DuplicateCall))
              else if |before| >= Budget(rules) then Reject(Rejection(ps[i].tool, CallBudgetExhausted))
              else if rules.byName[mark.tool].policy == Auto then Accept(CallFor(rules, mark))
              else Ask(CallFor(rules, mark))
  {
    VerdictAt(rules, ps, i);
    DecideEligible(rules, Verdicts(rules, ps[..i]), ps[i]);
    AdmitsTheFirst(rules, ps[..i]);
    TakenAreAdmitted(rules, ps[..i], Fingerprint(ps[i].tool.value, ps[i].arguments.value));
  }

  /** A proposal that is not eligible is never made or asked for. */
  lemma IneligibleFate(rules: Rules, ps: seq<Proposal>, i: nat)
    requires i < |ps| && !rules.Eligible(ps[i])
    ensures !Verdicts(rules, ps)[i].Accept? && !Verdicts(rules, ps)[i].Ask?
  {
    VerdictAt(rules, ps, i);
    IneligibleIsNotAdmitted(rules, Verdicts(rules, ps[..i]), ps[i]);
  }

  lemma {:induction false} AdmittedGrows(vs: seq<Verdict>, i: nat)
    requires i <= |vs|
    ensures |Admitted(vs[..i])| <= |Admitted(vs)|
    decreases |vs|
  {
    if i < |vs| {
      var front := vs[..|vs| - 1];
      assert front[..i] == vs[..i];
      AdmittedGrows(front, i);
    } else {
      assert vs[..i] == vs;
    }
  }

  /** Whatever the filter finds no room for, it has admitted as much as the budget by then. */
  lemma FullWhenRejected(rules: Rules, earlier: seq<Verdict>, p: Proposal)
    requires Decide(rules, earlier, p) == Reject(Rejection(p.tool, CallBudgetExhausted))
    ensures |Admitted(earlier)| >= rules.remaining
  {
  }

  lemma FullBefore(rules: Rules, ps: seq<Proposal>, i: nat)
    requires i < |ps|
    requires Verdicts(rules, ps)[i] == Reject(Rejection(ps[i].tool, CallBudgetExhausted))
    ensures |Admitted(Verdicts(rules, ps)[..i])| >= rules.remaining
  {
    VerdictAt(rules, ps, i);
    FullWhenRejected(rules, Verdicts(rules, ps[..i]), ps[i]);
  }

  /** A proposal is turned down for the budget only when the plan uses all of it. */
  lemma BudgetRejectionMeansFull(rules: Rules, ps: seq<Proposal>, i: nat)
    requires i < |ps|
    requires Verdicts(rules, ps)[i] == Reject(Rejection(ps[i].tool, CallBudgetExhausted))
    ensures |Accepted(Verdicts(rules, ps))| + |Asked(Verdicts(rules, ps))| == Budget(rules)
  {
    FullBefore(rules, ps, i);
    AdmittedGrows(Verdicts(rules, ps), i);
    AdmittedCount(Verdicts(rules, ps));
    AdmitsTheFirst(rules, ps);
  }

  // ----- Every verdict, and its reason -----

  /** A verdict that is not a rejection has taken the fingerprint of its proposal. */
  ghost predicate Takes(v: Verdict, p: Proposal, mark: Fingerprint) {
    !v.Reject? && p == Proposal(Some(mark.tool), Some(mark.arguments))
  }

  lemma {:induction false} TakenIff(rules: Rules, ps: seq<Proposal>, mark: Fingerprint)
    ensures mark in Taken(Verdicts(rules, ps)) <==>
            exists j :: 0 <= j < |ps| && Takes(Verdicts(rules, ps)[j], ps[j], mark)
  {
    if ps != [] {
      var n := |ps| - 1;
      var front, vs := ps[..n], Verdicts(rules, ps);
      TakenIff(rules, front, mark);
      VerdictIsAbout(rules, ps, n);
      assert vs[..n] == Verdicts(rules, front);
      assert mark in Taken(vs) <==> mark in Taken(vs[..n]) || Takes(vs[n], ps[n], mark);
      forall j | 0 <= j < n ensures Takes(vs[j], ps[j], mark) <==> Takes(vs[..n][j], front[j], mark) {
      }
    }
  }

  /** The call of proposal `i` was observed before, or proposed before it and not turned down. */
  ghost predicate Repeats(rules: Rules, ps: seq<Proposal>, i: nat)
    requires i < |ps| && ps[i].tool.Some? && ps[i].arguments.Some?
  {
    var mark := Fingerprint(ps[i].tool.value, ps[i].arguments.value);
    || mark in rules.prior
    || exists j :: 0 <= j < i && Takes(Verdicts(rules, ps)[j], ps[j], mark)
  }

  /** The proposals before `i` have used up the budget. */
  ghost predicate SpentBefore(rules: Rules, ps: seq<Proposal>, i: nat)
    requires i < |ps|
  {
    var earlier := Verdicts(rules, ps)[..i];
    |Accepted(earlier)| + |Asked(earlier)| >= rules.remaining
  }

  lemma RepeatsIff(rules: Rules, ps: seq<Proposal>, i: nat)
    requires i < |ps| && ps[i].tool.Some? && ps[i].arguments.Some?
    ensures var mark := Fingerprint(ps[i].tool.value, ps[i].arguments.value);
            Repeats(rules, ps, i) <==> mark in rules.prior + Taken(Verdicts(rules, ps[..i]))
  {
    var mark := Fingerprint(ps[i].tool.value, ps[i].arguments.value);
    VerdictAt(rules, ps, i);
    TakenIff(rules, ps[..i], mark);
    forall j | 0 <= j < i
      ensures Takes(Verdicts(rules, ps)[j], ps[j], mark) <==>
              Takes(Verdicts(rules, ps[..i])[j], ps[..i][j], mark)
    {
      assert Verdicts(rules, ps)[..i][j] == Verdicts(rules, ps)[j];
    }
  }

  /** A proposal is not a call at all, or not one of a tool that may be called. */
  lemma BarredIff(rules: Rules, ps: seq<Proposal>, i: nat)
    requires i < |ps|
    ensures var p, v := ps[i], Verdicts(rules, ps)[i];
            var whole := p.tool.Some? && p.arguments.Some?;
            && (v == Reject(Rejection(p.tool, InvalidPlanShape)) <==> !whole)
            && (v == Reject(Rejection(p.tool, ToolNotInCatalog)) <==> whole && p.tool.value !in rules.byName)
            && (v == Reject(Rejection(p.tool, Denied)) <==>
                  whole && p.tool.value in rules.byName && rules.byName[p.tool.value].policy == Deny)
  {
    VerdictAt(rules, ps, i);
  }

  /** Of a tool that may be called: what is wrong with this call, first of all that it repeats another. */
  lemma RefusedIff(rules: Rules, ps: seq<Proposal>, i: nat)
    requires i < |ps| && ps[i].tool.Some? && ps[i].arguments.Some?
    requires ps[i].tool.value in rules.byName && rules.byName[ps[i].tool.value].policy != Deny
    ensures var p, v := ps[i], Verdicts(rules, ps)[i];
            var tool, repeats := rules.byName[p.tool.value], Repeats(rules, ps, i);
            var problem, spent := rules.check(tool.schema, p.arguments.value), SpentBefore(rules, ps, i);
            && (v == Reject(Rejection(p.tool, DuplicateCall)) <==> repeats)
            && (forall detail :: v == Reject(Rejection(p.tool, SchemaValidationFailed(detail))) <==>
                  !repeats && problem == Some(detail))
            && (v == Reject(Rejection(p.tool, CallBudgetExhausted)) <==> !repeats && problem.None? && spent)
            && (v.Barred? <==> !repeats && problem.None? && !spent && tool.policy.UnknownPolicy?)
            && (v.Ask? <==> !repeats && problem.None? && !spent && tool.policy == ApprovalRequired)
            && (v.Accept? <==> !repeats && problem.None? && !spent && tool.policy == Auto)
  {
    VerdictAt(rules, ps, i);
    RepeatsIff(rules, ps, i);
    AdmittedCount(Verdicts(rules, ps[..i]));
  }

  /** The rejections listed are those of the verdicts; one for a policy the filter does not know says so. */
  lemma {:induction false} RejectedIff(vs: seq<Verdict>, rejection: Rejection)
    ensures rejection in Rejected(vs) <==>
            exists i :: 0 <= i < |vs| &&
              (|| vs[i] == Reject(rejection)
               || (vs[i].Barred? && rejection == Rejection(Some(vs[i].mark.tool), InvalidPolicy)))
  {
    if vs != [] {
      var n := |vs| - 1;
      RejectedIff(vs[..n], rejection);
      assert forall i :: 0 <= i < n ==> vs[..n][i] == vs[i];
      if rejection in Rejected(vs) && rejection !in Rejected(vs[..n]) {
        assert vs[n] == Reject(rejection)
               || (vs[n].Barred? && rejection == Rejection(Some(vs[n].mark.tool), InvalidPolicy));
      }
    }
  }

  /** No more than twenty proposals are looked at, and each of these is called, asked for or turned down. */
  lemma PlanCounts(rules: Rules, proposed: seq<Proposal>)
    ensures var vs := Verdicts(rules, Considered(proposed));
            && |Accepted(vs)| + |Asked(vs)| + |Rejected(vs)| == Min(20, |proposed|)
            && (forall i :: 0 <= i < |vs| ==> About(vs[i], proposed[i]))
  {
    EachProposalOnce(rules, Considered(proposed));
  }

  // ----- Planning -----

  predicate Callable(tool: Tool) {
    tool.policy in {Auto, ApprovalRequired}
  }

  /** `proposed` is what the planner answers when it is asked. */
  method MakePlan(
    proposed: seq<Proposal>, catalog: seq<Tool>, remaining: int, prior: set<Fingerprint>, check: Validator)
    returns (plan: Plan)
    ensures (remaining <= 0 || forall tool :: tool in catalog ==> !Callable(tool)) ==> plan == Plan([], [], [])
    ensures remaining > 0 && (exists tool :: tool in catalog && Callable(tool)) ==>
      var vs := Verdicts(Rules(ByName(catalog), prior, remaining, check), Considered(proposed));
      plan == Plan(Accepted(vs), Asked(vs), Rejected(vs))
  {
    if remaining <= 0 || forall tool :: tool in catalog ==> !Callable(tool) {
      return Plan([], [], []);
    }
    plan := ValidatePlan(proposed, catalog, remaining, prior, check);
  }

  /** Not asking the planner loses nothing: the filter would have let nothing through. */
  lemma SkippingIsHarmless(
    proposed: seq<Proposal>, catalog: seq<Tool>, remaining: int, prior: set<Fingerprint>, check: Validator)
    requires remaining <= 0 || forall tool :: tool in catalog ==> !Callable(tool)
    ensures var vs := Verdicts(Rules(ByName(catalog), prior, remaining, check), proposed);
            Accepted(vs) == [] && Asked(vs) == []
  {
    var rules := Rules(ByName(catalog), prior, remaining, check);
    PlanWithinBudget(rules, proposed);
    if remaining > 0 {
      NothingEligible(catalog, rules, proposed);
    }
  }

  lemma {:induction false} NothingEligible(catalog: seq<Tool>, rules: Rules, ps: seq<Proposal>)
    requires rules.byName == ByName(catalog) && forall tool :: tool in catalog ==> !Callable(tool)
    ensures Firsts(rules, ps) == []
  {
    if ps != [] {
      NothingEligible(catalog, rules, ps[..|ps| - 1]);
      var p := ps[|ps| - 1];
      if p.tool.Some? {
        ByNameIsListed(catalog, p.tool.value);
      }
    }
  }

  // ----- Execution -----

  /** A tool call that left for a server. */
  datatype Sent = Sent(server: string, tool: ToolName, arguments: Arguments)

  datatype Outcome =
    | PolicyRejected(rejection: Rejection)
    | NotAuthorized
    | ToolNotInCurrentCatalog
    | PolicyChanged
    | ArgumentsHashMismatch
    | ArgumentsNoLongerValid(detail: string)
    | Answered(qualifiedName: ToolName, ok: bool)

  datatype Order = NoCall(outcome: Outcome) | MakeCall(call: Call)

  /** What `execute` should do with one planned call. */
  ghost function Ordered(call: Proposal, catalog: seq<Tool>, check: Validator): Order {
    if call.tool.None? || call.arguments.None? then NoCall(PolicyRejected(Rejection(call.tool, InvalidPlanShape)))
    else if !Listed(catalog, call.tool.value) then NoCall(PolicyRejected(Rejection(call.tool, ToolNotInCatalog)))
    else
      ByNameIsListed(catalog, call.tool.value);
      var tool := ByName(catalog)[call.tool.value];
      var problem := check(tool.schema, call.arguments.value);
      if tool.policy == Deny then NoCall(PolicyRejected(Rejection(call.tool, Denied)))
      else if problem.Some? then NoCall(PolicyRejected(Rejection(call.tool, SchemaValidationFailed(problem.value))))
      else if tool.policy == ApprovalRequired then NoCall(PolicyRejected(Rejection(call.tool, NeedsApproval)))
      else if tool.policy == Auto then MakeCall(Call(call.tool.value, tool.server, tool.name, call.arguments.value))
      else NoCall(PolicyRejected(Rejection(call.tool, InvalidPolicy)))
  }

  /** The call an approval leads to when the hash matches. */
  function ApprovedCall(catalog: seq<Tool>, name: ToolName, arguments: Arguments, check: Validator): Option<Call> {
    var entry := FirstEntry(catalog, name);
    if entry.Some? && entry.value.policy == ApprovalRequired && check(entry.value.schema, arguments).None?
    then Some(Call(name, entry.value.server, entry.value.name, arguments))
    else None
  }

  class Client {
    var sent: seq<Sent>

    constructor ()
      ensures sent == []
    {
      sent := [];
    }

    /** `isError` is what the server answers. */
    method CallTool(server: string, tool: ToolName, arguments: Arguments, isError: bool) returns (ok: bool)
      modifies this
      ensures sent == old(sent) + [Sent(server, tool, arguments)] && ok == !isError
    {
      sent := sent + [Sent(server, tool, arguments)];
      ok := !isError;
    }
  }

  class ToolRouter {
    const client: Client
    const check: Validator
    const hash: Arguments -> string
    const authorized: (string, ToolName) -> bool

    constructor (client: Client, check: Validator, hash: Arguments -> string, authorized: (string, ToolName) -> bool)
      ensures this.client == client && this.check == check && this.hash == hash && this.authorized == authorized
    {
      this.client := client;
      this.check := check;
      this.hash := hash;
      this.authorized := authorized;
    }

    /** Execute a planned call, checking it again against the catalog. */
    method Execute(call: Proposal, catalog: seq<Tool>, isError: bool) returns (outcome: Outcome)
      modifies client
      ensures match Ordered(call, catalog, check)
              case NoCall(why) => outcome == why && client.sent == old(client.sent)
              case MakeCall(c) =>
                if authorized(c.server, c.tool)
                then && outcome == Answered(c.qualifiedName, !isError)
                     && client.sent == old(client.sent) + [Sent(c.server, c.tool, c.arguments)]
                else outcome == NotAuthorized && client.sent == old(client.sent)
    {
      var plan := ValidatePlan([call], catalog, 1, {}, check);
      RevalidatedAlone(call, catalog, check);
      if plan.calls == [] {
        if plan.approvals != [] {
          return PolicyRejected(Rejection(call.tool, NeedsApproval));
        }
        return PolicyRejected(plan.rejected[0]);
      }
      var validated := plan.calls[0];
      if !authorized(validated.server, validated.tool) {
        return NotAuthorized;
      }
      var ok := client.CallTool(validated.server, validated.tool, validated.arguments, isError);
      outcome := Answered(validated.qualifiedName, ok);
    }

    /** Execute a call someone approved, with the hash of the arguments they approved. */
    method ExecuteApproved(
      name: ToolName, arguments: Arguments, expectedHash: string, catalog: seq<Tool>, isError: bool)
      returns (outcome: Outcome)
      modifies client
      ensures var approved := ApprovedCall(catalog, name, arguments, check);
              if && approved.Some? && hash(arguments) == expectedHash
                 && authorized(approved.value.server, approved.value.tool)
              then outcome == Answered(name, !isError)
                && client.sent == old(client.sent) + [Sent(approved.value.server, approved.value.tool, arguments)]
              else !outcome.Answered? && client.sent == old(client.sent)
      ensures outcome == ToolNotInCurrentCatalog <==> !Listed(catalog, name)
      ensures outcome == PolicyChanged <==>
              FirstEntry(catalog, name).Some? && FirstEntry(catalog, name).value.policy != ApprovalRequired
      ensures var entry := FirstEntry(catalog, name);
              var approvable := entry.Some? && entry.value.policy == ApprovalRequired;
              && (outcome == ArgumentsHashMismatch <==> approvable && hash(arguments) != expectedHash)
              && (forall detail :: outcome == ArgumentsNoLongerValid(detail) <==>
                    && approvable && hash(arguments) == expectedHash
                    && check(entry.value.schema, arguments) == Some(detail))
              && (outcome == NotAuthorized <==>
                    && approvable && hash(arguments) == expectedHash && check(entry.value.schema, arguments).None?
                    && !authorized(entry.value.server, entry.value.name))
    {
      var entry := FirstEntry(catalog, name);
      FirstEntryIsListed(catalog, name);
      if entry.None? {
        return ToolNotInCurrentCatalog;
      }
      if entry.value.policy != ApprovalRequired {
        return PolicyChanged;
      }
      if hash(arguments) != expectedHash {
        return ArgumentsHashMismatch;
      }
      var problem := check(entry.value.schema, arguments);
      if problem.Some? {
        return ArgumentsNoLongerValid(problem.value);
      }
      if !authorized(entry.value.server, entry.value.name) {
        return NotAuthorized;
      }
      var ok := client.CallTool(entry.value.server, entry.value.name, arguments, isError);
      outcome := Answered(name, ok);
    }
  }

  lemma OneVerdict(rules: Rules, p: Proposal)
    ensures Verdicts(rules, Considered([p])) == [Decide(rules, [], p)]
    ensures var vs, v := Verdicts(rules, Considered([p])), Decide(rules, [], p);
            && Accepted(vs) == (if v.Accept? then [v.call] else [])
            && Asked(vs) == (if v.Ask? then [v.call] else [])
            && Rejected(vs) == match v
                               case Barred(mark) => [Rejection(Some(mark.tool), InvalidPolicy)]
                               case Reject(rejection) => [rejection]
                               case _ => []
  {
    var v := Decide(rules, [], p);
    assert Verdicts(rules, [p]) == [] + [v];
    ListsStep([], v);
  }

  lemma DecideAlone(call: Proposal, catalog: seq<Tool>, check: Validator)
    ensures var v := Decide(Rules(ByName(catalog), {}, 1, check), [], call);
            Ordered(call, catalog, check) ==
              match v
              case Accept(c) => MakeCall(c)
              case Ask(_) => NoCall(PolicyRejected(Rejection(call.tool, NeedsApproval)))
              case Barred(mark) => NoCall(PolicyRejected(Rejection(Some(mark.tool), InvalidPolicy)))
              case Reject(rejection) => NoCall(PolicyRejected(rejection))
  {
    if call.tool.Some? {
      ByNameIsListed(catalog, call.tool.value);
    }
  }

  /** One proposal validated on its own gets the verdict `Ordered` describes. */
  lemma RevalidatedAlone(call: Proposal, catalog: seq<Tool>, check: Validator)
    ensures var rules := Rules(ByName(catalog), {}, 1, check);
            var vs := Verdicts(rules, Considered([call]));
            && |Accepted(vs)| + |Asked(vs)| + |Rejected(vs)| == 1
            && match Ordered(call, catalog, check)
               case MakeCall(c) => Accepted(vs) == [c]
               case NoCall(why) =>
                 && Accepted(vs) == []
                 && if Asked(vs) != [] then why == PolicyRejected(Rejection(call.tool, NeedsApproval))
                    else Rejected(vs) != [] && why == PolicyRejected(Rejected(vs)[0])
  {
    OneVerdict(Rules(ByName(catalog), {}, 1, check), call);
    DecideAlone(call, catalog, check);
  }

  // ----- What was planned and what is executed -----

  lemma {:induction false} CallsUnderAre(rules: Rules, policy: Policy, marks: seq<Fingerprint>, c: Call)
    ensures c in CallsUnder(rules, policy, marks) ==>
      && c.Mark() in marks && c.qualifiedName in rules.byName && rules.byName[c.qualifiedName].policy == policy
      && c == CallFor(rules, c.Mark())
  {
    if marks != [] {
      CallsUnderAre(rules, policy, marks[..|marks| - 1], c);
    }
  }

  /** A planned call was eligible, and carries the server and tool its name stands for. */
  lemma PlannedAreEligible(rules: Rules, ps: seq<Proposal>, c: Call)
    requires c in Accepted(Verdicts(rules, ps)) || c in Asked(Verdicts(rules, ps))
    ensures rules.Eligible(Proposal(Some(c.qualifiedName), Some(c.arguments))) && c == CallFor(rules, c.Mark())
    ensures c in Accepted(Verdicts(rules, ps)) <==> rules.byName[c.qualifiedName].policy == Auto
    ensures c in Asked(Verdicts(rules, ps)) <==> rules.byName[c.qualifiedName].policy == ApprovalRequired
  {
    ListsAreCallsUnder(rules, ps);
    AdmitsTheFirst(rules, ps);
    FirstsAreDistinct(rules, ps);
    CallsUnderAre(rules, Auto, Admitted(Verdicts(rules, ps)), c);
    CallsUnderAre(rules, ApprovalRequired, Admitted(Verdicts(rules, ps)), c);
    assert c.Mark() in Firsts(rules, ps);
  }

  /**
   * A call the filter accepted is made unchanged when it is validated again alone, whatever names the catalog repeats;
   * one that needs approval is not made.
   */
  lemma PlannedIsExecuted(
    catalog: seq<Tool>, prior: set<Fingerprint>, remaining: int, check: Validator, ps: seq<Proposal>, c: Call)
    requires var vs := Verdicts(Rules(ByName(catalog), prior, remaining, check), ps);
             c in Accepted(vs) || c in Asked(vs)
    ensures var vs := Verdicts(Rules(ByName(catalog), prior, remaining, check), ps);
            var call := Proposal(Some(c.qualifiedName), Some(c.arguments));
            Ordered(call, catalog, check) ==
              if c in Accepted(vs) then MakeCall(c)
              else NoCall(PolicyRejected(Rejection(Some(c.qualifiedName), NeedsApproval)))
  {
    PlannedAreEligible(Rules(ByName(catalog), prior, remaining, check), ps, c);
    ByNameIsListed(catalog, c.qualifiedName);
  }

  /** Only a tool whose policy is `Auto` is ever called without approval. */
  lemma OnlyAutoIsExecuted(call: Proposal, catalog: seq<Tool>, check: Validator)
    ensures Ordered(call, catalog, check).MakeCall? ==>
      exists i :: 0 <= i < |catalog| && catalog[i].policy == Auto && Some(catalog[i].qualifiedName) == call.tool
                  && check(catalog[i].schema, call.arguments.value).None?
                  && Ordered(call, catalog, check).call ==
                     Call(call.tool.value, catalog[i].server, catalog[i].name, call.arguments.value)
  {
    if Ordered(call, catalog, check).MakeCall? {
      ByNameIsListed(catalog, call.tool.value);
      var i :| 0 <= i < |catalog| && catalog[i] == ByName(catalog)[call.tool.value];
    }
  }

  /** An approval resolved against `tool` leads to the call that was planned. */
  predicate Offers(tool: Tool, c: Call, check: Validator) {
    && tool.qualifiedName == c.qualifiedName && tool.policy == ApprovalRequired
    && tool.server == c.server && tool.name == c.tool && check(tool.schema, c.arguments).None?
  }

  /**
   * An approval is resolved against a catalog of its own. Where names are unique, an approved request goes through as
   * it was planned exactly when that catalog still offers it, as it does when the tool is listed unchanged; where they
   * are not, the first entry of the name decides, although planning took the last.
   */
  lemma ApprovedGoesThroughIff(
    catalog: seq<Tool>, later: seq<Tool>, prior: set<Fingerprint>, remaining: int, check: Validator,
    ps: seq<Proposal>, c: Call)
    requires c in Asked(Verdicts(Rules(ByName(catalog), prior, remaining, check), ps))
    ensures UniqueNames(later) ==>
      (ApprovedCall(later, c.qualifiedName, c.arguments, check) == Some(c) <==>
         exists tool :: tool in later && Offers(tool, c, check))
    ensures c.qualifiedName in ByName(catalog) && Offers(ByName(catalog)[c.qualifiedName], c, check)
    ensures ApprovedCall(later, c.qualifiedName, c.arguments, check) == Some(c) <==>
            exists i: nat :: FirstAt(later, i, c.qualifiedName) && Offers(later[i], c, check)
  {
    PlannedAreEligible(Rules(ByName(catalog), prior, remaining, check), ps, c);
    ByNameIsListed(catalog, c.qualifiedName);
    FirstOfferDecides(later, c, check);
    if UniqueNames(later) {
      forall tool | tool in later && Offers(tool, c, check)
        ensures ApprovedCall(later, c.qualifiedName, c.arguments, check) == Some(c)
      {
        var i :| 0 <= i < |later| && later[i] == tool;
        assert FirstAt(later, i, c.qualifiedName);
      }
      if i: nat :| FirstAt(later, i, c.qualifiedName) && Offers(later[i], c, check) {
        assert later[i] in later;
      }
    }
  }

  lemma FirstOfferDecides(later: seq<Tool>, c: Call, check: Validator)
    ensures ApprovedCall(later, c.qualifiedName, c.arguments, check) == Some(c) <==>
            exists i: nat :: FirstAt(later, i, c.qualifiedName) && Offers(later[i], c, check)
  {
    forall i: nat | FirstAt(later, i, c.qualifiedName)
      ensures FirstEntry(later, c.qualifiedName) == Some(later[i])
    {
      FirstEntryWins(later, i, c.qualifiedName);
    }
    if FirstEntry(later, c.qualifiedName).Some? {
      var i := FirstEntryAt(later, c.qualifiedName);
    }
  }

  lemma {:induction false} FirstEntryAt(catalog: seq<Tool>, name: ToolName) returns (i: nat)
    requires FirstEntry(catalog, name).Some?
    ensures FirstAt(catalog, i, name) && FirstEntry(catalog, name) == Some(catalog[i])
  {
    i := 0;
    if catalog[0].qualifiedName != name {
      i := FirstEntryAt(catalog[1..], name);
      i := i + 1;
    }
  }

  ghost predicate UniqueNames(catalog: seq<Tool>) {
    forall i, j :: 0 <= i < j < |catalog| ==> catalog[i].qualifiedName != catalog[j].qualifiedName
  }
}
