/**
 The governed tool registry (src/aotp/tool_registry.py) and the request budget it charges
 (src/aotp/request_budget.py).
 */
module GovernedTools {
  import opened Basics

  datatype Tier =
    | PassiveMetadata | PassiveBrowser | PassiveScanner | ServiceFingerprint
    | AuthenticatedSafe | IntrusiveValidation | ExploitationValidation

  predicate NeedsApproval(t: Tier) {
    t in {ServiceFingerprint, AuthenticatedSafe, IntrusiveValidation, ExploitationValidation}
  }

  /** The ranks of the tier table. */
  function Rank(t: Tier): nat {
    match t
    case PassiveMetadata => 10
    case PassiveBrowser => 20
    case PassiveScanner => 30
    case ServiceFingerprint => 40
    case AuthenticatedSafe => 50
    case IntrusiveValidation => 60
    case ExploitationValidation => 70
  }

  /** Human approval is needed from one rank on: no riskier tier does without it. */
  lemma ApprovalByRank(t: Tier, riskier: Tier)
    ensures NeedsApproval(t) <==> Rank(t) >= 40
    ensures NeedsApproval(t) && Rank(t) <= Rank(riskier) ==> NeedsApproval(riskier)
  {
  }

  // ----- The budget -----

  datatype Limits = Limits(maxRequests: nat, perTool: map<string, nat>, perTier: map<Tier, nat>)

  datatype Usage = Usage(total: int, byTool: map<string, int>, byTier: map<Tier, int>)

  const UNUSED := Usage(0, map[], map[])

  datatype Reason =
    | MalformedCount | CampaignBudget | ToolBudget | TierBudget
    | NotRegistered | WrongCampaign | WrongTarget | ToolNotAllowed | TierNotAllowed | ApprovalMissing
    | ClassificationNotAllowed | ArgumentProblem(text: string) | ScopeProblem(text: string) | InvalidCost

  /** No limit is passed by the counters. */
  ghost predicate Within(l: Limits, u: Usage) {
    && u.total <= l.maxRequests
    && (forall t :: t in l.perTool ==> Get(u.byTool, t) <= l.perTool[t])
    && (forall r :: r in l.perTier ==> Get(u.byTier, r) <= l.perTier[r])
  }

  function Charged(u: Usage, tool: string, tier: Tier, count: int): Usage {
    Usage(u.total + count, u.byTool[tool := Get(u.byTool, tool) + count], u.byTier[tier := Get(u.byTier, tier) + count])
  }

  function Denials(l: Limits, u: Usage, tool: string, tier: Tier, count: int): (r: seq<Reason>)
    ensures r == [] && Within(l, u) ==> count >= 0 && Within(l, Charged(u, tool, tier, count))
    ensures r != [] && count >= 0 ==> !Within(l, Charged(u, tool, tier, count))
  {
    if count < 0 then [MalformedCount]
    else
      (if u.total + count > l.maxRequests then [CampaignBudget] else [])
      + (if tool in l.perTool && Get(u.byTool, tool) + count > l.perTool[tool] then [ToolBudget] else [])
      + (if tier in l.perTier && Get(u.byTier, tier) + count > l.perTier[tier] then [TierBudget] else [])
  }

  class RequestBudget {
    const limits: Limits
    var usedRequests: int
    var usedByTool: map<string, int>
    var usedByRiskTier: map<Tier, int>

    constructor (limits: Limits)
      ensures this.limits == limits && View() == UNUSED
    {
      this.limits := limits;
      usedRequests, usedByTool, usedByRiskTier := 0, map[], map[];
    }

    function View(): Usage
      reads this
    {
      Usage(usedRequests, usedByTool, usedByRiskTier)
    }

    method Check(tool: string, tier: Tier, count: int) returns (reasons: seq<Reason>)
      ensures reasons == Denials(limits, View(), tool, tier, count)
    {
      if count < 0 {
        return [MalformedCount];
      }
      reasons := [];
      if usedRequests + count > limits.maxRequests {
        reasons := reasons + [CampaignBudget];
      }
      if tool in limits.perTool && Get(usedByTool, tool) + count > limits.perTool[tool] {
        reasons := reasons + [ToolBudget];
      }
      if tier in limits.perTier && Get(usedByRiskTier, tier) + count > limits.perTier[tier] {
        reasons := reasons + [TierBudget];
      }
    }

    method Consume(tool: string, tier: Tier, count: int) returns (reasons: seq<Reason>)
      modifies this
      ensures reasons == Denials(limits, old(View()), tool, tier, count)
      ensures View() == if reasons == [] then Charged(old(View()), tool, tier, count) else old(View())
    {
      reasons := Check(tool, tier, count);
      if reasons != [] {
        return;
      }
      usedRequests := usedRequests + count;
      usedByTool := usedByTool[tool := Get(usedByTool, tool) + count];
      usedByRiskTier := usedByRiskTier[tier := Get(usedByRiskTier, tier) + count];
    }
  }

  // ----- Tools, rules of engagement, calls -----

  type Arguments = string
  type Output = string

  datatype Roe = Roe(
    campaign: string, target: string, tools: set<string>, tiers: set<Tier>,
    approvals: set<string>, classifications: set<string>)

  /** The validators, the cost and the executor are the tool's own; an executor that raises yields None. */
  datatype Tool = Tool(
    name: string, tier: Tier, cost: Arguments -> int, classification: string,
    executor: Option<Arguments -> Option<Output>>,
    argumentProblems: Arguments -> seq<string>, scopeProblems: (Arguments, Roe) -> seq<string>,
    approvalKey: Option<string>)

  datatype Call = Call(campaign: string, target: string, tool: string, arguments: Arguments)

  function When(c: bool, r: Reason): seq<Reason> {
    if c then [r] else []
  }

  function ArgumentReasons(texts: seq<string>): (r: seq<Reason>)
    ensures |r| == |texts| && forall x :: x in r ==> x.ArgumentProblem? && x.text in texts
    ensures forall t :: t in texts ==> ArgumentProblem(t) in r
  {
    if texts == [] then [] else [ArgumentProblem(texts[0])] + ArgumentReasons(texts[1..])
  }

  function ScopeReasons(texts: seq<string>): (r: seq<Reason>)
    ensures |r| == |texts| && forall x :: x in r ==> x.ScopeProblem? && x.text in texts
    ensures forall t :: t in texts ==> ScopeProblem(t) in r
  {
    if texts == [] then [] else [ScopeProblem(texts[0])] + ScopeReasons(texts[1..])
  }

  /** Every reason that does not concern the budget, in the order they are collected. */
  function Objections(spec: Tool, call: Call, roe: Roe): seq<Reason> {
    When(call.campaign != roe.campaign, WrongCampaign)
    + When(call.target != roe.target, WrongTarget)
    + When(spec.name !in roe.tools, ToolNotAllowed)
    + When(spec.tier !in roe.tiers, TierNotAllowed)
    + When(NeedsApproval(spec.tier) && spec.approvalKey.Some? && spec.approvalKey.value !in roe.approvals,
           ApprovalMissing)
    + When(spec.classification !in roe.classifications, ClassificationNotAllowed)
    + ArgumentReasons(spec.argumentProblems(call.arguments))
    + ScopeReasons(spec.scopeProblems(call.arguments, roe))
    + When(spec.cost(call.arguments) < 0, InvalidCost)
  }

  type Registered = tools: map<string, Tool> | forall n :: n in tools ==> tools[n].name == n

  /** The reasons evaluate gives: the budget is asked only if nothing else objects. */
  function Reasons(tools: Registered, l: Limits, u: Usage, call: Call, roe: Roe): seq<Reason> {
    if call.tool !in tools then [NotRegistered]
    else
      var spec := tools[call.tool];
      var objections := Objections(spec, call, roe);
      if objections != [] then objections
      else Denials(l, u, spec.name, spec.tier, spec.cost(call.arguments))
  }

  datatype Outcome = Denied(reasons: seq<Reason>) | NoExecutor | Raised | Returned(output: Output)
  {
    predicate ReachedExecutor() { Raised? || Returned? }
  }

  function Answer(tools: Registered, l: Limits, u: Usage, call: Call, roe: Roe): Outcome {
    var reasons := Reasons(tools, l, u, call, roe);
    if reasons != [] then Denied(reasons)
    else if call.tool !in tools || tools[call.tool].executor.None? then NoExecutor
    else
      var output := tools[call.tool].executor.value(call.arguments);
      if output.None? then Raised else Returned(output.value)
  }

  class NativeToolRegistry {
    var specs: Registered

    constructor ()
      ensures specs == map[]
    {
      specs := map[];
    }

    /** A name is registered once; a second registration raises. */
    method Register(spec: Tool) returns (ok: bool)
      modifies this
      ensures ok <==> spec.name !in old(specs)
      ensures specs == if ok then old(specs)[spec.name := spec] else old(specs)
    {
      ok := spec.name !in specs;
      if ok {
        specs := specs[spec.name := spec];
      }
    }

    method Evaluate(call: Call, roe: Roe, budget: RequestBudget) returns (reasons: seq<Reason>, count: int)
      ensures reasons == Reasons(specs, budget.limits, budget.View(), call, roe)
      ensures reasons == [] ==> call.tool in specs && count == specs[call.tool].cost(call.arguments)
    {
      if call.tool !in specs {
        return [NotRegistered], 0;
      }
      var spec := specs[call.tool];
      count := spec.cost(call.arguments);
      reasons := Objections(spec, call, roe);
      if reasons == [] {
        reasons := budget.Check(spec.name, spec.tier, count);
      }
    }

    /** The budget is charged exactly when the executor is reached, even if the executor then raises. */
    method Execute(call: Call, roe: Roe, budget: RequestBudget) returns (outcome: Outcome)
      modifies budget
      ensures outcome == Answer(specs, budget.limits, old(budget.View()), call, roe)
      ensures !outcome.ReachedExecutor() ==> budget.View() == old(budget.View())
      ensures outcome.ReachedExecutor() ==> call.tool in specs
      ensures outcome.ReachedExecutor() ==>
        budget.View() == Charged(old(budget.View()), call.tool, specs[call.tool].tier,
                                 specs[call.tool].cost(call.arguments))
      ensures outcome.NoExecutor? ==> call.tool in specs && specs[call.tool].executor.None?
      ensures outcome.ReachedExecutor() ==>
        var executor := specs[call.tool].executor;
        && executor.Some?
        && executor.value(call.arguments) == if outcome.Returned? then Some(outcome.output) else None
    {
      var reasons, count := Evaluate(call, roe, budget);
      if reasons != [] {
        return Denied(reasons);
      }
      var spec := specs[call.tool];
      if spec.executor.None? {
        return NoExecutor;
      }
      var again := budget.Consume(spec.name, spec.tier, count);
      assert again == [];  // the budget cannot have changed before it is consumed
      var output := spec.executor.value(call.arguments);
      outcome := if output.None? then Raised else Returned(output.value);
    }
  }

  // ----- Any sequence of registrations and calls -----

  datatype Operation = Register(spec: Tool) | Execute(call: Call, roe: Roe)

  /** A call that reached its executor: the tool as registered then, and what the call cost. */
  datatype Charge = Charge(tool: string, tier: Tier, cost: int)

  datatype Session = Session(tools: Registered, usage: Usage, charges: seq<Charge>)

  function Next(l: Limits, s: Session, op: Operation): Session {
    match op
    case Register(spec) => if spec.name in s.tools then s else s.(tools := s.tools[spec.name := spec])
    case Execute(call, roe) =>
      if Answer(s.tools, l, s.usage, call, roe).ReachedExecutor() then
        var spec := s.tools[call.tool];
        var cost := spec.cost(call.arguments);
        Session(s.tools, Charged(s.usage, spec.name, spec.tier, cost), s.charges + [Charge(spec.name, spec.tier, cost)])
      else s
  }

  function After(l: Limits, ops: seq<Operation>): Session {
    if ops == [] then Session(map[], UNUSED, [])
    else Next(l, After(l, ops[..|ops| - 1]), ops[|ops| - 1])
  }

  /** The cost of the charges for one tool (None: of any), and of one tier (None: of any). */
  function Cost(charges: seq<Charge>, tool: Option<string>, tier: Option<Tier>): int {
    if charges == [] then 0
    else
      var last := charges[|charges| - 1];
      Cost(charges[..|charges| - 1], tool, tier)
      + if (tool.None? || tool.value == last.tool) && (tier.None? || tier.value == last.tier) then last.cost else 0
  }

  lemma {:induction false} CostSnoc(charges: seq<Charge>, c: Charge, tool: Option<string>, tier: Option<Tier>)
    ensures Cost(charges + [c], tool, tier) == Cost(charges, tool, tier)
      + if (tool.None? || tool.value == c.tool) && (tier.None? || tier.value == c.tier) then c.cost else 0
  {
    assert (charges + [c])[..|charges|] == charges;
  }

  ghost predicate Balanced(u: Usage, charges: seq<Charge>) {
    && u.total == Cost(charges, None, None) == MapSum(u.byTool) == MapSum(u.byTier)
    && (forall t :: Get(u.byTool, t) == Cost(charges, Some(t), None))
    && (forall r :: Get(u.byTier, r) == Cost(charges, None, Some(r)))
  }

  lemma ChargeBalances(u: Usage, charges: seq<Charge>, c: Charge)
    requires Balanced(u, charges)
    ensures Balanced(Charged(u, c.tool, c.tier, c.cost), charges + [c])
  {
    var v := Charged(u, c.tool, c.tier, c.cost);
    CostSnoc(charges, c, None, None);
    MapSumUpdate(u.byTool, c.tool, Get(u.byTool, c.tool) + c.cost);
    MapSumUpdate(u.byTier, c.tier, Get(u.byTier, c.tier) + c.cost);
    forall t ensures Get(v.byTool, t) == Cost(charges + [c], Some(t), None) {
      CostSnoc(charges, c, Some(t), None);
    }
    forall r ensures Get(v.byTier, r) == Cost(charges + [c], None, Some(r)) {
      CostSnoc(charges, c, None, Some(r));
    }
  }

  /**
   After any sequence of registrations and calls, under whatever rules of engagement: the requests
   used are the cost of exactly the calls that reached an executor, in total, per tool and per
   tier; the three views agree; and no limit is passed.
   */
  lemma {:induction false} BudgetConserved(l: Limits, ops: seq<Operation>)
    ensures Balanced(After(l, ops).usage, After(l, ops).charges)
    ensures Within(l, After(l, ops).usage)
  {
    hide Answer, Balanced, Within;
    if ops == [] {
      NothingCharged(l);
    } else {
      BudgetConserved(l, ops[..|ops| - 1]);
      NextConserves(l, After(l, ops[..|ops| - 1]), ops[|ops| - 1]);
    }
  }

  lemma NothingCharged(l: Limits)
    ensures Balanced(UNUSED, []) && Within(l, UNUSED)
  {
  }

  lemma NextConserves(l: Limits, s: Session, op: Operation)
    requires Balanced(s.usage, s.charges) && Within(l, s.usage)
    ensures Balanced(Next(l, s, op).usage, Next(l, s, op).charges) && Within(l, Next(l, s, op).usage)
  {
    hide Objections, Balanced, Within, Denials;
    if op.Execute? && Answer(s.tools, l, s.usage, op.call, op.roe).ReachedExecutor() {
      var spec := s.tools[op.call.tool];
      ChargeBalances(s.usage, s.charges, Charge(spec.name, spec.tier, spec.cost(op.call.arguments)));
    }
  }

  /** A registered tool is never replaced, so one name is charged at one tier throughout. */
  lemma {:induction false} OneTierPerTool(l: Limits, ops: seq<Operation>, i: nat)
    requires i < |After(l, ops).charges|
    ensures var c := After(l, ops).charges[i];
      c.tool in After(l, ops).tools && After(l, ops).tools[c.tool].tier == c.tier
  {
    hide Next;
    var init := ops[..|ops| - 1];
    NextRegisters(l, After(l, init), ops[|ops| - 1]);
    if i < |After(l, init).charges| {
      OneTierPerTool(l, init, i);
    }
  }

  lemma NextRegisters(l: Limits, s: Session, op: Operation)
    ensures var t := Next(l, s, op);
      && (forall n :: n in s.tools ==> n in t.tools && t.tools[n] == s.tools[n])
      && |s.charges| <= |t.charges| <= |s.charges| + 1 && t.charges[..|s.charges|] == s.charges
      && (|t.charges| > |s.charges| ==>
            var c := t.charges[|s.charges|]; c.tool in t.tools && t.tools[c.tool].tier == c.tier)
  {
    hide Objections, Denials, Charged;
  }

  /** A call is let through exactly when it is inside the rules and the charged budget stays within its limits. */
  lemma AllowedExactlyWithin(tools: Registered, l: Limits, u: Usage, call: Call, roe: Roe)
    requires Within(l, u) && call.tool in tools
    ensures var spec := tools[call.tool]; var cost := spec.cost(call.arguments);
      Reasons(tools, l, u, call, roe) == [] <==>
        InsideRoe(spec, call, roe) && Within(l, Charged(u, spec.name, spec.tier, cost))
  {
    hide Objections, Within, Charged;
    ObjectionsExactly(tools[call.tool], call, roe);
  }

  /** Each reason about the budget is given exactly when that limit would be passed. */
  lemma DenialsNamed(l: Limits, u: Usage, tool: string, tier: Tier, count: int)
    ensures var r := Denials(l, u, tool, tier, count);
      && (MalformedCount in r <==> count < 0)
      && (CampaignBudget in r <==> count >= 0 && u.total + count > l.maxRequests)
      && (ToolBudget in r <==>
            count >= 0 && tool in l.perTool && Get(u.byTool, tool) + count > l.perTool[tool])
      && (TierBudget in r <==>
            count >= 0 && tier in l.perTier && Get(u.byTier, tier) + count > l.perTier[tier])
  {
    hide Within, Charged;
  }

  /** Each other reason is given exactly when what it says is so. */
  lemma ObjectionsNamed(spec: Tool, call: Call, roe: Roe, r: Reason)
    ensures r in Objections(spec, call, roe) <==>
      match r
      case WrongCampaign => call.campaign != roe.campaign
      case WrongTarget => call.target != roe.target
      case ToolNotAllowed => spec.name !in roe.tools
      case TierNotAllowed => spec.tier !in roe.tiers
      case ApprovalMissing =>
        Rank(spec.tier) >= 40 && spec.approvalKey.Some? && spec.approvalKey.value !in roe.approvals
      case ClassificationNotAllowed => spec.classification !in roe.classifications
      case ArgumentProblem(p) => p in spec.argumentProblems(call.arguments)
      case ScopeProblem(p) => p in spec.scopeProblems(call.arguments, roe)
      case InvalidCost => spec.cost(call.arguments) < 0
      case _ => false
  {
    hide ArgumentReasons, ScopeReasons;
  }

  /** What a call must satisfy apart from the budget. */
  predicate InsideRoe(spec: Tool, call: Call, roe: Roe) {
    && call.campaign == roe.campaign && call.target == roe.target
    && spec.name in roe.tools && spec.tier in roe.tiers && spec.classification in roe.classifications
    && (NeedsApproval(spec.tier) && spec.approvalKey.Some? ==> spec.approvalKey.value in roe.approvals)
    && spec.argumentProblems(call.arguments) == [] && spec.scopeProblems(call.arguments, roe) == []
    && spec.cost(call.arguments) >= 0
  }

  lemma ObjectionsExactly(spec: Tool, call: Call, roe: Roe)
    ensures Objections(spec, call, roe) == [] <==> InsideRoe(spec, call, roe)
  {
    hide ArgumentReasons, ScopeReasons;
  }
}
