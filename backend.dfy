/** The backend's decision rules (backend/main.py): the per-agent
    configuration table, the agent decisions derived from a parsed intent and
    the uploaded company data, the conflicts picked by objective, the
    week-by-week projections, and the totals and targets of the calculate
    endpoint. */
module Backend {
  import opened Common
  import opened Intent
  import opened DataUpload

  // ------------------------------------------------------------ configuration

  /** The numeric part of one AGENT_CONFIGS entry: the base budget when
      cutting costs (positive) and when investing (negative), the base
      headcount change, the base confidence and the risk factor. */
  datatype AgentConfig = AgentConfig(
    budgetPositive: int,
    budgetNegative: int,
    baseHeadcount: int,
    baseConfidence: int,
    riskFactor: real)

  function Config(a: AgentName): AgentConfig
  {
    match a
    case Sales => AgentConfig(85000, -120000, -3, 89, 0.2)
    case Marketing => AgentConfig(-120000, 180000, 0, 82, 0.4)
    case Finance => AgentConfig(195000, 80000, 0, 94, 0.1)
    case Operations => AgentConfig(220000, 150000, -5, 87, 0.35)
    case Support => AgentConfig(95000, 60000, -2, 91, 0.15)
    case HR => AgentConfig(145000, 50000, -4, 85, 0.3)
  }

  function Icon(a: AgentName): string
  {
    match a
    case Sales => "Briefcase"
    case Marketing => "Megaphone"
    case Finance => "Wallet"
    case Operations => "Settings2"
    case Support => "Headphones"
    case HR => "Users"
  }

  function Accent(a: AgentName): string
  {
    match a
    case Sales => "orange"
    case Marketing => "red"
    case Finance => "green"
    case Operations => "blue"
    case Support => "purple"
    case HR => "teal"
  }

  // ------------------------------------------------------------ agent decisions

  /** The three branches of the decision loop: cut_costs, invest, and the
      rest (reallocate, maintain or anything else). */
  datatype Branch = CutBranch | InvestBranch | ReallocateBranch

  function BranchOf(b: BudgetImplication): Branch
  {
    if b == CutCosts then CutBranch else if b == Invest then InvestBranch else ReallocateBranch
  }

  datatype Action = Freeze | Accelerate | Optimize

  /** The reverse action named in a trigger, already lower-cased. */
  datatype ReverseAction = TwoSdrHires | FreezeHiring | CurrentPace

  function ActionText(a: Action): string
  {
    match a
    case Freeze => "Freeze"
    case Accelerate => "Accelerate"
    case Optimize => "Optimize"
  }

  function ReverseActionText(r: ReverseAction): string
  {
    match r
    case TwoSdrHires => "2 sdr hires"
    case FreezeHiring => "freeze"
    case CurrentPace => "current pace"
  }

  /** The values a branch substitutes into the decision and trigger
      templates of every agent. */
  datatype Wording = Wording(action: Action, reverseAction: ReverseAction, percentage: int, number: int, margin: real)

  function MaxInt(a: int, b: int): int
  {
    if a >= b then a else b
  }

  function WordingFor(branch: Branch, target: real): Wording
  {
    match branch
    case CutBranch =>
      Wording(Freeze, TwoSdrHires, Trunc(target * 0.8), MaxInt(2, Trunc(target / 5.0)), PyRound1(target * 0.15))
    case InvestBranch =>
      Wording(Accelerate, FreezeHiring, Trunc(target * 1.2), MaxInt(1, Trunc(target / 10.0)), PyRound1(target * 0.2))
    case ReallocateBranch =>
      Wording(Optimize, CurrentPace, Trunc(target), MaxInt(2, Trunc(target / 7.0)), PyRound1(target * 0.17))
  }

  /** One AgentDecision record; the name, icon, accent and the two sentences
      follow from the agent and the substituted values. */
  datatype AgentDecision = AgentDecision(
    agent: AgentName,
    wording: Wording,
    budgetImpact: int,
    headcountImpact: int,
    confidence: int,
    risk: Risk)
  {
    function Name(): string { NameText(agent) }
    function IconName(): string { Icon(agent) }
    function AccentName(): string { Accent(agent) }
  }

  /** `min(1.0, max(0.6, timeline / 12))`. */
  function TimelineFactor(timeline: int): (r: real)
    ensures 0.6 <= r <= 1.0
  {
    Min(1.0, Max(0.6, timeline as real / 12.0))
  }

  function UrgencyMultiplier(u: Urgency): real
  {
    match u
    case HighUrgency => 1.2
    case MediumUrgency => 1.0
    case LowUrgency => 0.9
  }

  /** 6.2% of the uploaded revenue, or 620000 without uploaded revenue. */
  function BaseInvestment(isLoaded: bool, metrics: Metrics): real
  {
    if isLoaded && metrics.totalRevenue.Some? then metrics.totalRevenue.value * 0.062 else 620000.0
  }

  /** The base budget an agent starts from in a branch. */
  function BaseBudget(a: AgentName, branch: Branch): int
  {
    match branch
    case CutBranch => Config(a).budgetPositive
    case InvestBranch => Config(a).budgetNegative
    case ReallocateBranch =>
      if a == Sales || a == HR || a == Operations then Config(a).budgetPositive else Config(a).budgetNegative
  }

  /** The base budget times the investment factor. */
  function InvestedBudget(a: AgentName, branch: Branch, factor: real): real
  {
    BaseBudget(a, branch) as real * factor
  }

  /** The base budget scaled by the investment factor and the urgency. */
  function ScaledBudget(a: AgentName, branch: Branch, factor: real, urgency: real): int
  {
    RoundedProduct(InvestedBudget(a, branch, factor), urgency)
  }

  /** The uploaded revenue against a reference of 10M. */
  function RevenueScale(revenue: real): (r: real)
    ensures 0.0 <= revenue <==> 0.0 <= r
  {
    revenue / 10000000.0
  }

  /** The scaled budget, rescaled by the uploaded revenue. */
  function BudgetImpact(a: AgentName, branch: Branch, factor: real, urgency: real, isLoaded: bool, metrics: Metrics): int
  {
    if isLoaded && metrics.totalRevenue.Some? then
      RoundedProduct(ScaledBudget(a, branch, factor, urgency) as real, RevenueScale(metrics.totalRevenue.value))
    else ScaledBudget(a, branch, factor, urgency)
  }

  /** The base headcount scaled by the timeline factor. */
  function ScaledHeadcount(a: AgentName, tf: real): int
  {
    RoundedProduct(Config(a).baseHeadcount as real, tf)
  }

  /** The uploaded headcount against a reference of 620 employees. */
  function HeadcountScale(headcount: int): (r: real)
    ensures 0 <= headcount <==> 0.0 <= r
  {
    headcount as real / 620.0
  }

  /** The scaled headcount, rescaled by the uploaded headcount. */
  function HeadcountImpact(a: AgentName, tf: real, isLoaded: bool, metrics: Metrics): int
  {
    if isLoaded && metrics.currentHeadcount.Some? then
      RoundedProduct(ScaledHeadcount(a, tf) as real, HeadcountScale(metrics.currentHeadcount.value))
    else ScaledHeadcount(a, tf)
  }

  function AgentConfidence(a: AgentName, tf: real): int
  {
    Trunc(Min(99.0, Max(50.0, Config(a).baseConfidence as real * tf * (1.0 - Config(a).riskFactor * 0.3))))
  }

  /** The decision of one agent, given the investment factor. */
  function Decide(a: AgentName, parsed: ParsedIntent, factor: real, timeline: int, isLoaded: bool, metrics: Metrics): AgentDecision
  {
    var branch := BranchOf(parsed.budgetImplication);
    var tf := TimelineFactor(timeline);
    var confidence := AgentConfidence(a, tf);
    AgentDecision(
      a,
      WordingFor(branch, parsed.targetPercentage),
      BudgetImpact(a, branch, factor, UrgencyMultiplier(parsed.urgencyLevel), isLoaded, metrics),
      HeadcountImpact(a, tf, isLoaded, metrics),
      confidence,
      RiskLevel(confidence))
  }

  /** What `round` raises on the complex number `(negative) ** 0.8`. */
  function ComplexRoundError(): string
  {
    "type complex doesn't define __round__ method"
  }

  /** `(investment / base_investment) ** 0.8`: a zero base raises, and a
      negative ratio gives a complex number that the first `round` rejects. */
  function InvestmentFactor(investment: real, isLoaded: bool, metrics: Metrics, pow: real -> NonNegReal): Result<real>
  {
    var base := BaseInvestment(isLoaded, metrics);
    if base == 0.0 then Failure(DivisionError(false))
    else if investment / base < 0.0 then Failure(ComplexRoundError())
    else Success(pow(investment / base))
  }

  /** The decision list: one decision per agent, in configuration order. */
  function AgentDecisions(parsed: ParsedIntent, investment: real, timeline: int, isLoaded: bool, metrics: Metrics,
                          pow: real -> NonNegReal): (r: Result<seq<AgentDecision>>)
    ensures r.Success? ==> |r.value| == |AllAgents|
  {
    match InvestmentFactor(investment, isLoaded, metrics, pow)
    case Failure(e) => Failure(e)
    case Success(factor) =>
      Success(seq(|AllAgents|, i requires 0 <= i < |AllAgents| => Decide(AllAgents[i], parsed, factor, timeline, isLoaded, metrics)))
  }

  /** `calculate_agent_decisions`, with the company profile passed in: one
      pass over the configuration table appending each agent's decision. */
  method CalculateAgentDecisions(parsed: ParsedIntent, investment: real, timeline: int, profile: CompanyDataProfile,
                                 pow: real -> NonNegReal) returns (r: Result<seq<AgentDecision>>)
    ensures r == AgentDecisions(parsed, investment, timeline, profile.isLoaded, profile.metrics, pow)
  {
    var isLoaded := profile.isLoaded;
    var metrics := profile.metrics;
    var branch := BranchOf(parsed.budgetImplication);
    var tf := TimelineFactor(timeline);
    var baseInvestment := if isLoaded && metrics.totalRevenue.Some? then metrics.totalRevenue.value * 0.062 else 620000.0;
    if baseInvestment == 0.0 {
      return Failure(DivisionError(false));
    }
    var ratio := investment / baseInvestment;
    if ratio < 0.0 {
      return Failure(ComplexRoundError());
    }
    var investmentFactor := pow(ratio);
    var urgency := UrgencyMultiplier(parsed.urgencyLevel);
    var target := parsed.targetPercentage;

    var agents: seq<AgentDecision> := [];
    for i := 0 to |AllAgents|
      invariant |agents| == i
      invariant forall k :: 0 <= k < i ==> agents[k] == Decide(AllAgents[k], parsed, investmentFactor, timeline, isLoaded, metrics)
    {
      var name := AllAgents[i];
      var config := Config(name);
      var baseBudget: int;
      var wording: Wording;
      if branch == CutBranch {
        baseBudget := config.budgetPositive;
        wording := Wording(Freeze, TwoSdrHires, Trunc(target * 0.8), MaxInt(2, Trunc(target / 5.0)), PyRound1(target * 0.15));
      } else if branch == InvestBranch {
        baseBudget := config.budgetNegative;
        wording := Wording(Accelerate, FreezeHiring, Trunc(target * 1.2), MaxInt(1, Trunc(target / 10.0)), PyRound1(target * 0.2));
      } else {
        baseBudget := if name == Sales || name == HR || name == Operations then config.budgetPositive else config.budgetNegative;
        wording := Wording(Optimize, CurrentPace, Trunc(target), MaxInt(2, Trunc(target / 7.0)), PyRound1(target * 0.17));
      }

      assert baseBudget == BaseBudget(name, branch);
      assert wording == WordingFor(branch, target);
      var budgetImpact := ComputeBudgetImpact(name, branch, baseBudget, investmentFactor, urgency, isLoaded, metrics);
      var headcountImpact := ComputeHeadcountImpact(name, tf, isLoaded, metrics);
      var confidence := AgentConfidence(name, tf);
      var risk := RiskLevel(confidence);
      var decision := AgentDecision(name, wording, budgetImpact, headcountImpact, confidence, risk);
      assert decision == Decide(name, parsed, investmentFactor, timeline, isLoaded, metrics);
      agents := agents + [decision];
    }
    r := Success(agents);
    assert agents == seq(|AllAgents|, k requires 0 <= k < |AllAgents| => Decide(AllAgents[k], parsed, investmentFactor, timeline, isLoaded, metrics));
  }

  /** One agent's budget impact, as main.py computes it: the base budget
      times the investment factor and the urgency, rounded, then rescaled
      by an uploaded revenue against 10M and rounded again. */
  method ComputeBudgetImpact(a: AgentName, branch: Branch, baseBudget: int, factor: real, urgency: real,
                             isLoaded: bool, metrics: Metrics) returns (budgetImpact: int)
    requires baseBudget == BaseBudget(a, branch)
    ensures budgetImpact == BudgetImpact(a, branch, factor, urgency, isLoaded, metrics)
  {
    var invested := baseBudget as real * factor;
    assert invested == InvestedBudget(a, branch, factor);
    budgetImpact := RoundedProduct(invested, urgency);
    if isLoaded && metrics.totalRevenue.Some? {
      var revenueScale := metrics.totalRevenue.value / 10000000.0;
      budgetImpact := RoundedProduct(budgetImpact as real, revenueScale);
    }
  }

  /** One agent's headcount impact, as main.py computes it: the base
      headcount times the timeline factor, rounded, then rescaled by an
      uploaded headcount against 620 and rounded again. */
  method ComputeHeadcountImpact(a: AgentName, tf: real, isLoaded: bool, metrics: Metrics) returns (headcountImpact: int)
    ensures headcountImpact == HeadcountImpact(a, tf, isLoaded, metrics)
  {
    headcountImpact := RoundedProduct(Config(a).baseHeadcount as real, tf);
    if isLoaded && metrics.currentHeadcount.Some? {
      var headcountScale := metrics.currentHeadcount.value as real / 620.0;
      headcountImpact := RoundedProduct(headcountImpact as real, headcountScale);
    }
  }

  // ------------------------------------------------------------ decision properties

  /** The decision list fails exactly when the base investment is zero or the
      investment ratio is negative; otherwise it has one decision per agent,
      in order, each with a confidence in [50, 99] that depends only on the
      agent and the timeline, and the risk class of that confidence. */
  lemma AgentDecisionsShape(parsed: ParsedIntent, investment: real, timeline: int, isLoaded: bool, metrics: Metrics,
                            pow: real -> NonNegReal)
    ensures var r := AgentDecisions(parsed, investment, timeline, isLoaded, metrics, pow);
      var base := BaseInvestment(isLoaded, metrics);
      (r.Failure? <==> base == 0.0 || investment / base < 0.0) &&
      (r.Success? ==>
         |r.value| == 6 &&
         forall i :: 0 <= i < 6 ==>
           r.value[i].agent == AllAgents[i] &&
           50 <= r.value[i].confidence <= 99 &&
           r.value[i].confidence == AgentConfidence(AllAgents[i], TimelineFactor(timeline)) &&
           r.value[i].risk == RiskLevel(r.value[i].confidence))
  {
    forall a: AgentName ensures 50 <= AgentConfidence(a, TimelineFactor(timeline)) <= 99 {
      ConfidenceBounds(a, TimelineFactor(timeline));
    }
  }

  /** The confidence is the integer part of a value clamped to [50, 99]. */
  lemma ConfidenceBounds(a: AgentName, tf: real)
    ensures 50 <= AgentConfidence(a, tf) <= 99
  {
    var v := Min(99.0, Max(50.0, Config(a).baseConfidence as real * tf * (1.0 - Config(a).riskFactor * 0.3)));
    assert 50.0 <= v <= 99.0;
  }

  /** A larger timeline factor never lowers an agent's confidence. */
  lemma ConfidenceMonotone(a: AgentName, f1: real, f2: real)
    requires 0.0 <= f1 <= f2
    ensures AgentConfidence(a, f1) <= AgentConfidence(a, f2)
  {
    calc {
      AgentConfidence(a, f1);
    ==
      Trunc(Min(99.0, Max(50.0, Config(a).baseConfidence as real * f1 * (1.0 - Config(a).riskFactor * 0.3))));
    <= { RawConfidenceMonotone(Config(a).baseConfidence as real, Config(a).riskFactor, f1, f2);
         ClampedTruncMonotone(Config(a).baseConfidence as real * f1 * (1.0 - Config(a).riskFactor * 0.3),
                              Config(a).baseConfidence as real * f2 * (1.0 - Config(a).riskFactor * 0.3)); }
      Trunc(Min(99.0, Max(50.0, Config(a).baseConfidence as real * f2 * (1.0 - Config(a).riskFactor * 0.3))));
    ==
      AgentConfidence(a, f2);
    }
  }

  /** The unclamped confidence grows with the timeline factor. */
  lemma RawConfidenceMonotone(c: real, rf: real, f1: real, f2: real)
    requires 0.0 <= c && rf * 0.3 <= 1.0 && f1 <= f2
    ensures c * f1 * (1.0 - rf * 0.3) <= c * f2 * (1.0 - rf * 0.3)
  {
    ScaleMonotoneLeft(f1, f2, c);
    ScaleMonotone(c * f1, c * f2, 1.0 - rf * 0.3);
  }

  /** A longer timeline never lowers an agent's confidence. */
  lemma ConfidenceMonotoneInTimeline(a: AgentName, t1: int, t2: int)
    requires t1 <= t2
    ensures AgentConfidence(a, TimelineFactor(t1)) <= AgentConfidence(a, TimelineFactor(t2))
  {
    ConfidenceMonotone(a, TimelineFactor(t1), TimelineFactor(t2));
  }

  /** Clamping to [50, 99] and truncating keeps an order. */
  lemma ClampedTruncMonotone(x: real, y: real)
    requires x <= y
    ensures Trunc(Min(99.0, Max(50.0, x))) <= Trunc(Min(99.0, Max(50.0, y)))
  {
    var u, v := Min(99.0, Max(50.0, x)), Min(99.0, Max(50.0, y));
    assert 0.0 <= u <= v;
  }

  /** Cutting costs starts from the positive base, investing from the
      negative one, and the remaining branches give the positive base to
      Sales, HR and Operations only. */
  lemma BaseBudgetChoice(a: AgentName, b: BudgetImplication)
    ensures b == CutCosts ==> BaseBudget(a, BranchOf(b)) == Config(a).budgetPositive
    ensures b == Invest ==> BaseBudget(a, BranchOf(b)) == Config(a).budgetNegative
    ensures b != CutCosts && b != Invest ==>
      (BaseBudget(a, BranchOf(b)) == Config(a).budgetPositive <==> a == Sales || a == HR || a == Operations)
  {
  }

  /** The vendor and office count is at least 2 when cutting or
      reallocating and at least 1 when investing; the action words follow
      the branch. */
  lemma WordingBounds(branch: Branch, target: real)
    ensures var w := WordingFor(branch, target);
      (branch == InvestBranch ==> w.number >= 1 && w.action == Accelerate && w.reverseAction == FreezeHiring) &&
      (branch == CutBranch ==> w.number >= 2 && w.action == Freeze && w.reverseAction == TwoSdrHires) &&
      (branch == ReallocateBranch ==> w.number >= 2 && w.action == Optimize && w.reverseAction == CurrentPace)
  {
  }

  /** With no negative revenue uploaded, each budget impact has the sign of
      its base budget, since the investment factor and the urgency are
      never negative and rounding keeps the sign. */
  lemma BudgetFollowsBaseSign(a: AgentName, branch: Branch, factor: real, u: Urgency, isLoaded: bool, metrics: Metrics)
    requires factor >= 0.0
    requires isLoaded && metrics.totalRevenue.Some? ==> metrics.totalRevenue.value >= 0.0
    ensures var b := BudgetImpact(a, branch, factor, UrgencyMultiplier(u), isLoaded, metrics);
      (BaseBudget(a, branch) >= 0 ==> b >= 0) && (BaseBudget(a, branch) <= 0 ==> b <= 0)
  {
    ScaledBudgetSign(a, branch, factor, UrgencyMultiplier(u));
    if isLoaded && metrics.totalRevenue.Some? {
      RoundedProductSign(ScaledBudget(a, branch, factor, UrgencyMultiplier(u)) as real, RevenueScale(metrics.totalRevenue.value));
    }
  }

  /** The profile's `adjust_calculations`, given a decision's unscaled
      budget and headcount impacts, yields the impacts the decision loop
      computes inline: both rescales agree. */
  lemma AdjustMatchesDecision(p: CompanyDataProfile, a: AgentName, branch: Branch, factor: real, urgency: real, tf: real,
                              baseValues: map<string, real>, agentName: string)
    ensures var values := baseValues["budgetImpact" := ScaledBudget(a, branch, factor, urgency) as real]
                                    ["headcountImpact" := ScaledHeadcount(a, tf) as real];
      var r := p.AdjustCalculations(values, agentName);
      "budgetImpact" in r && r["budgetImpact"] == BudgetImpact(a, branch, factor, urgency, p.isLoaded, p.metrics) as real &&
      "headcountImpact" in r && r["headcountImpact"] == HeadcountImpact(a, tf, p.isLoaded, p.metrics) as real
  {
    var values := baseValues["budgetImpact" := ScaledBudget(a, branch, factor, urgency) as real]
                            ["headcountImpact" := ScaledHeadcount(a, tf) as real];
    AdjustBudgetAsDecided(p, values, agentName, ScaledBudget(a, branch, factor, urgency));
    AdjustHeadcountAsDecided(p, values, agentName, ScaledHeadcount(a, tf));
  }

  /** `adjust_calculations` rescales a whole-number budget impact exactly as
      the decision loop's revenue step does. */
  lemma AdjustBudgetAsDecided(p: CompanyDataProfile, values: map<string, real>, agentName: string, budget: int)
    requires "budgetImpact" in values && values["budgetImpact"] == budget as real
    ensures var r := p.AdjustCalculations(values, agentName);
      "budgetImpact" in r &&
      r["budgetImpact"] == (if p.isLoaded && p.metrics.totalRevenue.Some?
                            then RoundedProduct(budget as real, RevenueScale(p.metrics.totalRevenue.value)) else budget) as real
  {
    if p.isLoaded {
      AdjustRescalesBudget(p, values, agentName);
      assert GetOr(values, "budgetImpact", 0.0) == budget as real;
    }
  }

  /** `adjust_calculations` rescales a whole-number headcount impact exactly
      as the decision loop's headcount step does. */
  lemma AdjustHeadcountAsDecided(p: CompanyDataProfile, values: map<string, real>, agentName: string, headcount: int)
    requires "headcountImpact" in values && values["headcountImpact"] == headcount as real
    ensures var r := p.AdjustCalculations(values, agentName);
      "headcountImpact" in r &&
      r["headcountImpact"] == (if p.isLoaded && p.metrics.currentHeadcount.Some?
                               then RoundedProduct(headcount as real, HeadcountScale(p.metrics.currentHeadcount.value)) else headcount) as real
  {
    if p.isLoaded {
      AdjustRescalesHeadcount(p, values, agentName);
      assert GetOr(values, "headcountImpact", 0.0) == headcount as real;
    }
  }

  /** The scaled budget has the sign of the base budget. */
  lemma ScaledBudgetSign(a: AgentName, branch: Branch, factor: real, u: real)
    requires factor >= 0.0 && u >= 0.0
    ensures BaseBudget(a, branch) >= 0 ==> ScaledBudget(a, branch, factor, u) >= 0
    ensures BaseBudget(a, branch) <= 0 ==> ScaledBudget(a, branch, factor, u) <= 0
  {
    ScaleSign(BaseBudget(a, branch) as real, factor);
    RoundedProductSign(InvestedBudget(a, branch, factor), u);
  }

  /** Without uploaded data, a larger multiplier never shrinks a
      non-negative base budget. */
  lemma BudgetMonotoneInMultiplier(a: AgentName, branch: Branch, factor: real, u1: real, u2: real, metrics: Metrics)
    requires factor >= 0.0 && BaseBudget(a, branch) >= 0 && u1 <= u2
    ensures BudgetImpact(a, branch, factor, u1, false, metrics) <= BudgetImpact(a, branch, factor, u2, false, metrics)
  {
    ScaleSign(BaseBudget(a, branch) as real, factor);
    RoundedProductMonotone(InvestedBudget(a, branch, factor), u1, u2);
  }

  /** Without uploaded data, a higher urgency never shrinks a non-negative
      base budget: low <= medium <= high. */
  lemma UrgencyOrdersBudget(a: AgentName, branch: Branch, factor: real, metrics: Metrics)
    requires factor >= 0.0 && BaseBudget(a, branch) >= 0
    ensures BudgetImpact(a, branch, factor, UrgencyMultiplier(LowUrgency), false, metrics)
         <= BudgetImpact(a, branch, factor, UrgencyMultiplier(MediumUrgency), false, metrics)
         <= BudgetImpact(a, branch, factor, UrgencyMultiplier(HighUrgency), false, metrics)
  {
    BudgetMonotoneInMultiplier(a, branch, factor, UrgencyMultiplier(LowUrgency), UrgencyMultiplier(MediumUrgency), metrics);
    BudgetMonotoneInMultiplier(a, branch, factor, UrgencyMultiplier(MediumUrgency), UrgencyMultiplier(HighUrgency), metrics);
  }

  /** Headcount changes are never increases. */
  lemma HeadcountNeverIncreases(a: AgentName, timeline: int, isLoaded: bool, metrics: Metrics)
    requires isLoaded && metrics.currentHeadcount.Some? ==> metrics.currentHeadcount.value >= 0
    ensures HeadcountImpact(a, TimelineFactor(timeline), isLoaded, metrics) <= 0
  {
    RoundedProductShrinks(Config(a).baseHeadcount, TimelineFactor(timeline));
    if isLoaded && metrics.currentHeadcount.Some? {
      RoundedProductSign(ScaledHeadcount(a, TimelineFactor(timeline)) as real, HeadcountScale(metrics.currentHeadcount.value));
    }
  }

  /** Without uploaded headcount the change never goes beyond the base
      reduction, as the timeline factor is at most 1. */
  lemma HeadcountWithinBase(a: AgentName, timeline: int, isLoaded: bool, metrics: Metrics)
    requires !(isLoaded && metrics.currentHeadcount.Some?)
    ensures Config(a).baseHeadcount <= HeadcountImpact(a, TimelineFactor(timeline), isLoaded, metrics) <= 0
  {
    RoundedProductShrinks(Config(a).baseHeadcount, TimelineFactor(timeline));
  }

  /** The base budgets of the six agents in a branch, in table order. */
  function BaseBudgets(branch: Branch): (r: seq<int>)
    ensures |r| == |AllAgents| && forall i :: 0 <= i < |AllAgents| ==> r[i] == BaseBudget(AllAgents[i], branch)
  {
    seq(|AllAgents|, i requires 0 <= i < |AllAgents| => BaseBudget(AllAgents[i], branch))
  }

  /** The base budgets add up to 620000 when cutting costs, 400000 when
      investing and 770000 when reallocating. */
  lemma BaseBudgetTotals(branch: Branch)
    ensures SumInts(BaseBudgets(branch)) ==
      (match branch case CutBranch => 620000 case InvestBranch => 400000 case ReallocateBranch => 770000)
  {
    SumIntsSix(BaseBudgets(branch));
  }

  /** At the base investment without uploaded revenue the investment
      factor is 1 ** 0.8 = 1. */
  lemma BaselineFactor(metrics: Metrics, pow: real -> NonNegReal)
    requires PowLaw(pow)
    ensures InvestmentFactor(620000.0, false, metrics, pow) == Success(1.0)
  {
    assert 620000.0 / 620000.0 == 1.0;
  }

  /** At the base investment (620000 without uploaded revenue) and a
      medium urgency, every budget impact is the base budget of its
      branch, whatever the timeline. */
  lemma BaselineBudgets(parsed: ParsedIntent, timeline: int, metrics: Metrics, pow: real -> NonNegReal)
    requires PowLaw(pow) && parsed.urgencyLevel == MediumUrgency
    ensures var r := AgentDecisions(parsed, 620000.0, timeline, false, metrics, pow);
      r.Success? && Budgets(r.value) == BaseBudgets(BranchOf(parsed.budgetImplication))
  {
    var branch := BranchOf(parsed.budgetImplication);
    BaselineFactor(metrics, pow);
    var r := AgentDecisions(parsed, 620000.0, timeline, false, metrics, pow);
    forall i | 0 <= i < |AllAgents| ensures Budgets(r.value)[i] == BaseBudgets(branch)[i] {
      UnitBudget(AllAgents[i], branch, metrics);
    }
  }

  /** With unit factors and no uploaded data the budget is the base budget. */
  lemma UnitBudget(a: AgentName, branch: Branch, metrics: Metrics)
    ensures BudgetImpact(a, branch, 1.0, 1.0, false, metrics) == BaseBudget(a, branch)
  {
    assert InvestedBudget(a, branch, 1.0) == BaseBudget(a, branch) as real;
  }

  // ------------------------------------------------------------ conflicts

  datatype ConflictKind = GrowthVsEfficiency | MarketingSpend | DeepCostCutting | AggressiveGrowth | EfficiencyOptimization
  {
    function Title(): string
    {
      match this
      case GrowthVsEfficiency => "Growth vs Efficiency"
      case MarketingSpend => "Marketing Spend"
      case DeepCostCutting => "Deep Cost Cutting"
      case AggressiveGrowth => "Aggressive Growth"
      case EfficiencyOptimization => "Efficiency Optimization"
    }

    function Versus(): string
    {
      match this
      case GrowthVsEfficiency => "Cost Reduction Pressure"
      case MarketingSpend => "CAC Targets"
      case DeepCostCutting => "Service Quality Maintenance"
      case AggressiveGrowth => "Resource Constraints"
      case EfficiencyOptimization => "Business Continuity"
    }
  }

  /** The values each resolution template is filled with. */
  datatype Resolution =
    | PrioritizeAutomation(targetPct: real, secondaryPct: real)
    | ShiftToPerformance(autoPct: int, cac: real)
    | PhasedCuts(cutPct: real, phaseWeeks: int)
    | ReallocateReserves(amount: real, growthPct: real)
    | ZeroDisruption(gainPct: real, weeks: real)
  {
    /** The quality checkpoints of a phased cut. */
    function Checkpoints(): seq<int>
      requires PhasedCuts?
    {
      [phaseWeeks, phaseWeeks * 2, phaseWeeks * 3]
    }
  }

  datatype Conflict = Conflict(id: int, kind: ConflictKind, resolution: Resolution, agents: seq<AgentName>, savingsImpact: int)
  {
    function Status(): string { "resolved" }
  }

  /** The profit objective with a secondary objective: growth against cost
      reduction. */
  predicate IsDual(p: ParsedIntent)
  {
    p.objectiveType == Profit && p.secondaryObjective.Some?
  }

  /** `parsed.get('investment_limit', 620000)`; the request's own investment
      limit never reaches this point. */
  function ConflictInvestment(p: ParsedIntent): real
  {
    p.investmentLimit.GetOr(620000.0)
  }

  /** The conflicts for an intent, with an absent secondary percentage
      standing for 15% of the target, as the lookup default intends. */
  function GenerateConflicts(p: ParsedIntent): (r: seq<Conflict>)
    ensures IsDual(p) ==>
      |r| == 2 && r[0].id == 1 && r[1].id == 2 && r[0].kind == GrowthVsEfficiency && r[1].kind == MarketingSpend
    ensures !IsDual(p) ==>
      |r| == 1 && r[0].id == 1 &&
      r[0].kind == (if p.objectiveType == CostReduction then DeepCostCutting
                    else if p.objectiveType == RevenueObjective then AggressiveGrowth
                    else EfficiencyOptimization)
  {
    var t := p.targetPercentage;
    var investment := ConflictInvestment(p);
    if IsDual(p) then
      DualConflicts(p, p.secondaryPercentage.GetOr(t * 0.15))
    else if p.objectiveType == CostReduction then
      var phaseWeeks := Trunc(p.timelineWeeks.GetOr(12.0) / 4.0);
      [Conflict(1, DeepCostCutting, PhasedCuts(t, phaseWeeks), [Operations, Support, Finance], Trunc(investment * 0.35))]
    else if p.objectiveType == RevenueObjective then
      [Conflict(1, AggressiveGrowth, ReallocateReserves(investment * 0.25, t), [Sales, Marketing, Finance], -Trunc(investment * 0.25))]
    else
      [Conflict(1, EfficiencyOptimization, ZeroDisruption(t, p.timelineWeeks.GetOr(12.0)), [Operations, Finance], Trunc(investment * 0.19))]
  }

  /** The two conflicts of the dual objective, given the secondary
      percentage shown in the first resolution. */
  function DualConflicts(p: ParsedIntent, secondary: real): seq<Conflict>
  {
    var t := p.targetPercentage;
    var investment := ConflictInvestment(p);
    [Conflict(1, GrowthVsEfficiency, PrioritizeAutomation(t, secondary), [HR, Operations], Trunc(investment * 0.12)),
     Conflict(2, MarketingSpend, ShiftToPerformance(Trunc(t * 0.6), p.avgCac.GetOr(385.0)), [Marketing, Finance], Trunc(investment * 0.17))]
  }

  /** What `format(None, '.1f')` raises. */
  function NoneFormatError(): string
  {
    "unsupported format string passed to NoneType.__format__"
  }

  /** `generate_conflicts` as written: the secondary percentage is looked up
      with a default, but the parsed intent always holds that key, so a
      missing second percentage arrives as None and formatting it fails. */
  function ConflictsAsWritten(p: ParsedIntent): (r: Result<seq<Conflict>>)
    ensures r.Failure? <==> IsDual(p) && p.secondaryPercentage.None?
    ensures r.Failure? ==> r.error == NoneFormatError()
    ensures r.Success? ==> r.value == GenerateConflicts(p)
  {
    if IsDual(p) then
      match p.secondaryPercentage
      case None => Failure(NoneFormatError())
      case Some(secondary) => Success(DualConflicts(p, secondary))
    else Success(GenerateConflicts(p))
  }

  /** A prompt that speaks of profit and of costs, of neither revenue nor
      efficiency, and carries fewer than two percentages makes the
      conflicts fail as written. */
  lemma FallbackDualFails(prompt: string)
    requires KeywordsOf(prompt).profit && KeywordsOf(prompt).cost
    requires !KeywordsOf(prompt).revenue && !KeywordsOf(prompt).efficiency
    requires |FindPercentages(prompt)| < 2
    ensures ConflictsAsWritten(FallbackIntent(prompt)).Failure?
    ensures GenerateConflicts(FallbackIntent(prompt))[0].resolution ==
      PrioritizeAutomation(FallbackIntent(prompt).targetPercentage, FallbackIntent(prompt).targetPercentage * 0.15)
  {
  }

  /** One such prompt: "increase profit by 15% and cut costs". */
  lemma ProfitAndCostWithOnePercentageFails()
    ensures ConflictsAsWritten(FallbackIntent(ProfitAndCostPrompt)) == Failure(NoneFormatError())
  {
    ProfitAndCostPromptIntent();
  }

  /** The savings follow the investment's sign, except that reallocating
      reserves for revenue spends them. */
  lemma ConflictSavingsSign(p: ParsedIntent)
    requires ConflictInvestment(p) >= 0.0
    ensures forall c :: c in GenerateConflicts(p) ==>
      (c.kind == AggressiveGrowth ==> c.savingsImpact <= 0) &&
      (c.kind != AggressiveGrowth ==> c.savingsImpact >= 0)
  {
  }

  /** With the default investment of 620000 the savings are fixed amounts. */
  lemma DefaultInvestmentSavings(p: ParsedIntent)
    requires p.investmentLimit.None?
    ensures var r := GenerateConflicts(p);
      (IsDual(p) ==> r[0].savingsImpact == 74400 && r[1].savingsImpact == 105400) &&
      (!IsDual(p) && p.objectiveType == CostReduction ==> r[0].savingsImpact == 217000) &&
      (!IsDual(p) && p.objectiveType == RevenueObjective ==> r[0].savingsImpact == -155000) &&
      (!IsDual(p) && p.objectiveType != CostReduction && p.objectiveType != RevenueObjective ==> r[0].savingsImpact == 117800)
  {
  }

  // ------------------------------------------------------------ projections

  /** One chart point: the week number shown as "W<n>", the actual value
      (absent for later weeks, and when it is zero) and the projection. */
  datatype Point = Point(week: int, actual: Option<real>, projected: real)
  {
    function Label(): string { "W" + IntToString(week) }
  }

  /** The five week numbers on the chart's axis; the last is the timeline. */
  function WeekNumbers(timeline: int): (r: seq<int>)
    ensures |r| == 5 && r[0] == 1 && r[4] == timeline
  {
    if timeline <= 8 then [1, 2, 4, 6, timeline]
    else if timeline <= 12 then [1, 3, 6, 9, timeline]
    else [1, 4, 8, 12, timeline]
  }

  /** `(i + 1) / len(weeks)`; the series always have five weeks, and the
      series below pass that length as the literal 5. */
  function Progress(i: int, n: int): real
    requires n > 0
  {
    (i + 1) as real / n as real
  }

  /** Only the first half of the weeks shows actual values. */
  predicate FirstHalf(i: int, n: int)
  {
    (i as real) < n as real / 2.0
  }

  /** A value that is zero shows as absent. */
  function Shown(v: real): Option<real>
  {
    if v != 0.0 then Some(PyRound1(v)) else None
  }

  /** The profit point: 90% of the target reached in proportion to the
      weeks, with actuals at 85% of that. */
  function ProfitPoint(week: int, i: int, n: int, p: real): Point
    requires n > 0
  {
    var projected := p * Progress(i, n) * 0.9;
    Point(week, if FirstHalf(i, n) then Shown(projected * 0.85) else None, PyRound1(projected))
  }

  /** The cost-to-company point: 100 less 15% of the target in proportion to
      the weeks, with actuals half a point above. */
  function CtcPoint(week: int, i: int, n: int, p: real): Point
    requires n > 0
  {
    var projected := 100.0 - p * 0.15 * Progress(i, n);
    Point(week, if FirstHalf(i, n) then Shown(projected + 0.5) else None, PyRound1(projected))
  }

  function ProfitSeries(p: real, timeline: int): (r: seq<Point>)
    ensures |r| == 5
  {
    var weeks := WeekNumbers(timeline);
    seq(|weeks|, i requires 0 <= i < |weeks| => ProfitPoint(weeks[i], i, 5, p))
  }

  function CtcSeries(p: real, timeline: int): (r: seq<Point>)
    ensures |r| == 5
  {
    var weeks := WeekNumbers(timeline);
    seq(|weeks|, i requires 0 <= i < |weeks| => CtcPoint(weeks[i], i, 5, p))
  }

  /** The body of the projection loop for the profit series: the projected
      value, the actual value in the first half, and their rounding. */
  method ComputeProfitPoint(week: int, i: int, n: int, targetPct: real) returns (point: Point)
    requires n > 0
    ensures point == ProfitPoint(week, i, n, targetPct)
  {
    var progress := Progress(i, n);
    var projected := targetPct * progress * 0.9;
    var shown: Option<real> := None;
    if FirstHalf(i, n) {
      var actual := projected * 0.85;
      if actual != 0.0 {
        shown := Some(PyRound1(actual));
      }
    }
    assert projected == targetPct * Progress(i, n) * 0.9;
    assert shown == (if FirstHalf(i, n) then Shown(projected * 0.85) else None);
    point := Point(week, shown, PyRound1(projected));
  }

  /** The body of the projection loop for the cost-to-company series. */
  method ComputeCtcPoint(week: int, i: int, n: int, targetPct: real) returns (point: Point)
    requires n > 0
    ensures point == CtcPoint(week, i, n, targetPct)
  {
    var progress := Progress(i, n);
    var projected := 100.0 - targetPct * 0.15 * progress;
    var shown: Option<real> := None;
    if FirstHalf(i, n) {
      var actual := projected + 0.5;
      if actual != 0.0 {
        shown := Some(PyRound1(actual));
      }
    }
    assert projected == 100.0 - targetPct * 0.15 * Progress(i, n);
    assert shown == (if FirstHalf(i, n) then Shown(projected + 0.5) else None);
    point := Point(week, shown, PyRound1(projected));
  }

  /** `generate_projections`: one pass over the week labels building both
      series. */
  method GenerateProjections(parsed: ParsedIntent, timeline: int) returns (profitData: seq<Point>, ctcData: seq<Point>)
    ensures profitData == ProfitSeries(parsed.targetPercentage, timeline)
    ensures ctcData == CtcSeries(parsed.targetPercentage, timeline)
  {
    var targetPct := parsed.targetPercentage;
    var weeks: seq<int>;
    if timeline <= 8 {
      weeks := [1, 2, 4, 6, timeline];
    } else if timeline <= 12 {
      weeks := [1, 3, 6, 9, timeline];
    } else {
      weeks := [1, 4, 8, 12, timeline];
    }
    assert weeks == WeekNumbers(timeline);

    profitData := [];
    ctcData := [];
    for i := 0 to |weeks|
      invariant profitData == ProfitSeries(targetPct, timeline)[..i]
      invariant ctcData == CtcSeries(targetPct, timeline)[..i]
    {
      var profitPoint := ComputeProfitPoint(weeks[i], i, |weeks|, targetPct);
      var ctcPoint := ComputeCtcPoint(weeks[i], i, |weeks|, targetPct);
      profitData := profitData + [profitPoint];
      ctcData := ctcData + [ctcPoint];
    }
  }

  /** Both series have five points on the same weeks, ending at the
      timeline; only the first three carry actual values, and of those the
      profit actuals exactly for a non-zero target and the cost actuals
      exactly where the actual value is not zero; the profit
      projection ends within rounding of 90% of the target and the cost
      projection within rounding of 100 less 15% of it. */
  lemma ProjectionShape(p: real, timeline: int)
    ensures var profit, ctc := ProfitSeries(p, timeline), CtcSeries(p, timeline);
      (forall i :: 0 <= i < 5 ==> profit[i].week == ctc[i].week == WeekNumbers(timeline)[i]) &&
      profit[4].week == timeline &&
      (forall i :: 3 <= i < 5 ==> profit[i].actual.None? && ctc[i].actual.None?) &&
      (forall i :: 0 <= i < 3 ==> (profit[i].actual.Some? <==> p != 0.0)) &&
      (forall i :: 0 <= i < 3 ==> (ctc[i].actual.Some? <==> 100.5 - p * 0.15 * Progress(i, 5) != 0.0)) &&
      p * 0.9 - 0.05 <= profit[4].projected <= p * 0.9 + 0.05 &&
      100.0 - p * 0.15 - 0.05 <= ctc[4].projected <= 100.0 - p * 0.15 + 0.05
  {
    var profit, ctc := ProfitSeries(p, timeline), CtcSeries(p, timeline);
    forall i | 0 <= i < 5 ensures (i < 3 <==> FirstHalf(i, 5)) {
    }
    forall i | 0 <= i < 3 ensures profit[i].actual.Some? <==> p != 0.0 {
      NonZeroProduct(p, Progress(i, 5) * 0.9 * 0.85);
      assert p * Progress(i, 5) * 0.9 * 0.85 == p * (Progress(i, 5) * 0.9 * 0.85);
    }
    assert Progress(4, 5) == 1.0;
  }

  /** A product of non-zero reals is non-zero. */
  lemma NonZeroProduct(x: real, y: real)
    requires y != 0.0
    ensures x * y != 0.0 <==> x != 0.0
  {
  }

  /** Rounding to one decimal keeps an order. */
  lemma PyRound1Monotone(x: real, y: real)
    requires x <= y
    ensures PyRound1(x) <= PyRound1(y)
  {
    PyRoundMonotone(x * 10.0, y * 10.0);
  }

  /** For a non-negative target the profit projection never falls from
      week to week. */
  lemma ProfitProjectionMonotone(p: real, timeline: int, i: int)
    requires 0.0 <= p && 0 <= i < 4
    ensures ProfitSeries(p, timeline)[i].projected <= ProfitSeries(p, timeline)[i + 1].projected
  {
    calc {
      ProfitSeries(p, timeline)[i].projected;
    == { ProfitProjectedAt(p, timeline, i); }
      PyRound1(p * Progress(i, 5) * 0.9);
    <= { ProfitPointMonotone(p, i); }
      PyRound1(p * Progress(i + 1, 5) * 0.9);
    == { ProfitProjectedAt(p, timeline, i + 1); }
      ProfitSeries(p, timeline)[i + 1].projected;
    }
  }

  /** The projected profit at point i, before rounding. */
  lemma ProfitProjectedAt(p: real, timeline: int, i: int)
    requires 0 <= i < 5
    ensures ProfitSeries(p, timeline)[i].projected == PyRound1(p * Progress(i, 5) * 0.9)
  {
  }

  lemma ProfitPointMonotone(p: real, i: int)
    requires 0.0 <= p && 0 <= i < 4
    ensures PyRound1(p * Progress(i, 5) * 0.9) <= PyRound1(p * Progress(i + 1, 5) * 0.9)
  {
    ScaleMonotoneLeft(Progress(i, 5), Progress(i + 1, 5), p);
    ScaleMonotone(p * Progress(i, 5), p * Progress(i + 1, 5), 0.9);
    PyRound1Monotone(p * Progress(i, 5) * 0.9, p * Progress(i + 1, 5) * 0.9);
  }

  /** For a non-negative target the cost-to-company projection never rises
      from week to week. */
  lemma CtcProjectionMonotone(p: real, timeline: int, i: int)
    requires 0.0 <= p && 0 <= i < 4
    ensures CtcSeries(p, timeline)[i + 1].projected <= CtcSeries(p, timeline)[i].projected
  {
    calc {
      CtcSeries(p, timeline)[i + 1].projected;
    == { CtcProjectedAt(p, timeline, i + 1); }
      PyRound1(100.0 - p * 0.15 * Progress(i + 1, 5));
    <= { CtcPointMonotone(p, i); }
      PyRound1(100.0 - p * 0.15 * Progress(i, 5));
    == { CtcProjectedAt(p, timeline, i); }
      CtcSeries(p, timeline)[i].projected;
    }
  }

  /** The projected cost to company at point i, before rounding. */
  lemma CtcProjectedAt(p: real, timeline: int, i: int)
    requires 0 <= i < 5
    ensures CtcSeries(p, timeline)[i].projected == PyRound1(100.0 - p * 0.15 * Progress(i, 5))
  {
  }

  lemma CtcPointMonotone(p: real, i: int)
    requires 0.0 <= p && 0 <= i < 4
    ensures PyRound1(100.0 - p * 0.15 * Progress(i + 1, 5)) <= PyRound1(100.0 - p * 0.15 * Progress(i, 5))
  {
    ScaleMonotoneLeft(Progress(i, 5), Progress(i + 1, 5), p);
    PyRound1Monotone(100.0 - p * 0.15 * Progress(i + 1, 5), 100.0 - p * 0.15 * Progress(i, 5));
  }

  /** The week numbers strictly increase exactly for timelines of 7 or 8,
      10 to 12, and above 12; shorter timelines repeat or reorder weeks. */
  lemma WeeksIncreasingIff(timeline: int)
    ensures (forall i :: 0 <= i < 4 ==> WeekNumbers(timeline)[i] < WeekNumbers(timeline)[i + 1]) <==>
      (7 <= timeline <= 8 || 10 <= timeline)
  {
    var w := WeekNumbers(timeline);
    if !(7 <= timeline <= 8 || 10 <= timeline) {
      assert w[3] >= w[4];
    }
  }

  // ------------------------------------------------------------ endpoint

  /** The response of the calculate endpoint. */
  datatype CalculatedMetrics = CalculatedMetrics(
    profitGrowth: real,
    ctcReduction: real,
    overallConfidence: int,
    totalSavings: int,
    totalHeadcountChange: int,
    agents: seq<AgentDecision>,
    profitProjection: seq<Point>,
    ctcProjection: seq<Point>,
    conflicts: seq<Conflict>)

  /** `data.investment_limit or 620000`: absent or zero means the default. */
  function RequestInvestment(limit: Option<real>): (r: real)
    ensures limit.Some? && limit.value != 0.0 ==> r == limit.value
    ensures !(limit.Some? && limit.value != 0.0) ==> r == 620000.0
  {
    if limit.Some? && limit.value != 0.0 then limit.value else 620000.0
  }

  /** `data.timeline_weeks or 12`. */
  function RequestTimeline(weeks: Option<int>): (r: int)
    ensures weeks.Some? && weeks.value != 0 ==> r == weeks.value
    ensures !(weeks.Some? && weeks.value != 0) ==> r == 12
  {
    if weeks.Some? && weeks.value != 0 then weeks.value else 12
  }

  /** The headline profit growth and cost reduction, before rounding. */
  function Targets(p: ParsedIntent): (real, real)
  {
    var t := p.targetPercentage;
    match p.objectiveType
    case Profit =>
      (t, if p.secondaryPercentage.Some? && p.secondaryPercentage.value != 0.0 then p.secondaryPercentage.value else t * 0.15)
    case CostReduction => (t * 0.3, t)
    case RevenueObjective => (t * 0.6, 0.0)
    case _ => (t * 0.8, t * 0.1)
  }

  function Budgets(agents: seq<AgentDecision>): (r: seq<int>)
    ensures |r| == |agents| && forall i :: 0 <= i < |agents| ==> r[i] == agents[i].budgetImpact
  {
    seq(|agents|, i requires 0 <= i < |agents| => agents[i].budgetImpact)
  }

  function Headcounts(agents: seq<AgentDecision>): (r: seq<int>)
    ensures |r| == |agents| && forall i :: 0 <= i < |agents| ==> r[i] == agents[i].headcountImpact
  {
    seq(|agents|, i requires 0 <= i < |agents| => agents[i].headcountImpact)
  }

  function Confidences(agents: seq<AgentDecision>): (r: seq<int>)
    ensures |r| == |agents| && forall i :: 0 <= i < |agents| ==> r[i] == agents[i].confidence
  {
    seq(|agents|, i requires 0 <= i < |agents| => agents[i].confidence)
  }

  /** The response built from the parsed intent, the request and the
      company profile, or the error that ends the request. */
  function Endpoint(parsed: ParsedIntent, investmentLimit: Option<real>, timelineWeeks: Option<int>,
                    isLoaded: bool, metrics: Metrics, pow: real -> NonNegReal): Result<CalculatedMetrics>
  {
    var timeline := RequestTimeline(timelineWeeks);
    match AgentDecisions(parsed, RequestInvestment(investmentLimit), timeline, isLoaded, metrics, pow)
    case Failure(e) => Failure(e)
    case Success(agents) =>
      match ConflictsAsWritten(parsed)
      case Failure(e) => Failure(e)
      case Success(conflicts) =>
      var targets := Targets(parsed);
      Success(CalculatedMetrics(
        PyRound1(targets.0),
        PyRound1(targets.1),
        Trunc(SumInts(Confidences(agents)) as real / |agents| as real),
        SumInts(Budgets(agents)),
        SumInts(Headcounts(agents)),
        agents,
        ProfitSeries(parsed.targetPercentage, timeline),
        CtcSeries(parsed.targetPercentage, timeline),
        conflicts))
  }

  /** For a non-negative target (and secondary percentage) the headline
      profit growth lies between 0 and the target, and the cost reduction is
      non-negative and at most the target unless the objective is profit;
      for profit without a non-zero secondary percentage it is 15% of the
      target. */
  lemma TargetsBounds(p: ParsedIntent)
    requires p.targetPercentage >= 0.0
    requires p.secondaryPercentage.Some? ==> p.secondaryPercentage.value >= 0.0
    ensures var t := p.targetPercentage; var r := Targets(p);
      0.0 <= r.0 <= t && 0.0 <= r.1 &&
      (p.objectiveType != Profit ==> r.1 <= t) &&
      (p.objectiveType == Profit ==> r.0 == t) &&
      (p.objectiveType == Profit && (p.secondaryPercentage.None? || p.secondaryPercentage.value == 0.0) ==> r.1 == t * 0.15) &&
      (p.objectiveType == RevenueObjective ==> r.1 == 0.0)
  {
  }

  /** A fallback parse of a prompt with a profit keyword, no revenue or
      efficiency keyword and fewer than two percentages reports a cost
      reduction of 15% of the target: the `or` of the endpoint supplies the
      default the parser's own lookup never does. */
  lemma FallbackProfitTargets(prompt: string)
    requires KeywordsOf(prompt).profit && !KeywordsOf(prompt).revenue && !KeywordsOf(prompt).efficiency
    requires |FindPercentages(prompt)| < 2
    ensures var p := FallbackIntent(prompt);
      Targets(p) == (p.targetPercentage, p.targetPercentage * 0.15)
  {
  }

  /** Step 6 of the endpoint: the headline profit growth and cost reduction
      chosen by objective, before rounding. */
  method HeadlineTargets(parsed: ParsedIntent) returns (profitGrowth: real, ctcReduction: real)
    ensures (profitGrowth, ctcReduction) == Targets(parsed)
  {
    var targetPct := parsed.targetPercentage;
    if parsed.objectiveType == Profit {
      profitGrowth := targetPct;
      ctcReduction := if parsed.secondaryPercentage.Some? && parsed.secondaryPercentage.value != 0.0
        then parsed.secondaryPercentage.value else targetPct * 0.15;
    } else if parsed.objectiveType == CostReduction {
      profitGrowth := targetPct * 0.3;
      ctcReduction := targetPct;
    } else if parsed.objectiveType == RevenueObjective {
      profitGrowth := targetPct * 0.6;
      ctcReduction := 0.0;
    } else {
      profitGrowth := targetPct * 0.8;
      ctcReduction := targetPct * 0.1;
    }
  }

  /** `calculate_endpoint` after parsing: the decisions, the totals, the
      conflicts, the projections and the headline figures. */
  method CalculateEndpoint(parsed: ParsedIntent, investmentLimit: Option<real>, timelineWeeks: Option<int>,
                           profile: CompanyDataProfile, pow: real -> NonNegReal) returns (r: Result<CalculatedMetrics>)
    ensures r == Endpoint(parsed, investmentLimit, timelineWeeks, profile.isLoaded, profile.metrics, pow)
  {
    var investment := if investmentLimit.Some? && investmentLimit.value != 0.0 then investmentLimit.value else 620000.0;
    var timeline := if timelineWeeks.Some? && timelineWeeks.value != 0 then timelineWeeks.value else 12;
    var decided := CalculateAgentDecisions(parsed, investment, timeline, profile, pow);
    if decided.Failure? {
      return Failure(decided.error);
    }
    var agents := decided.value;

    var totalSavings := SumInts(Budgets(agents));
    var totalHeadcount := SumInts(Headcounts(agents));
    var avgConfidence := Trunc(SumInts(Confidences(agents)) as real / |agents| as real);

    var conflicted := ConflictsAsWritten(parsed);
    if conflicted.Failure? {
      return Failure(conflicted.error);
    }
    var conflicts := conflicted.value;
    var profitProjection, ctcProjection := GenerateProjections(parsed, timeline);

    var profitGrowth, ctcReduction := HeadlineTargets(parsed);

    r := Success(CalculatedMetrics(PyRound1(profitGrowth), PyRound1(ctcReduction), avgConfidence, totalSavings,
                                   totalHeadcount, agents, profitProjection, ctcProjection, conflicts));
  }

  /** The endpoint fails exactly when the decisions do, with their error, or
      when the conflicts do (the dual objective without a secondary
      percentage), with the formatting error; otherwise the overall
      confidence is in [50, 99], the totals add up the six agents and the
      conflicts are the corrected ones. */
  lemma EndpointShape(parsed: ParsedIntent, investmentLimit: Option<real>, timelineWeeks: Option<int>,
                      isLoaded: bool, metrics: Metrics, pow: real -> NonNegReal)
    ensures var r := Endpoint(parsed, investmentLimit, timelineWeeks, isLoaded, metrics, pow);
      var d := AgentDecisions(parsed, RequestInvestment(investmentLimit), RequestTimeline(timelineWeeks), isLoaded, metrics, pow);
      (r.Failure? <==> d.Failure? || (IsDual(parsed) && parsed.secondaryPercentage.None?)) &&
      (d.Failure? ==> r == Failure(d.error)) &&
      (d.Success? && r.Failure? ==> r.error == NoneFormatError()) &&
      (r.Success? ==>
         r.value.agents == d.value &&
         50 <= r.value.overallConfidence <= 99 &&
         r.value.totalSavings == SumInts(Budgets(d.value)) &&
         r.value.totalHeadcountChange == SumInts(Headcounts(d.value)) &&
         r.value.profitGrowth == PyRound1(Targets(parsed).0) &&
         r.value.ctcReduction == PyRound1(Targets(parsed).1) &&
         r.value.profitProjection == ProfitSeries(parsed.targetPercentage, RequestTimeline(timelineWeeks)) &&
         r.value.conflicts == GenerateConflicts(parsed))
  {
    var d := AgentDecisions(parsed, RequestInvestment(investmentLimit), RequestTimeline(timelineWeeks), isLoaded, metrics, pow);
    if d.Success? {
      AgentDecisionsShape(parsed, RequestInvestment(investmentLimit), RequestTimeline(timelineWeeks), isLoaded, metrics, pow);
      AverageConfidenceBounds(d.value);
    }
  }

  /** The average of six confidences in [50, 99], truncated, is in [50, 99]. */
  lemma AverageConfidenceBounds(agents: seq<AgentDecision>)
    requires |agents| == 6
    requires forall i :: 0 <= i < 6 ==> 50 <= agents[i].confidence <= 99
    ensures 50 <= Trunc(SumInts(Confidences(agents)) as real / |agents| as real) <= 99
  {
    var cs := Confidences(agents);
    SumIntsBounds(cs, 50, 99);
    var total := SumInts(cs);
    assert 300 <= total <= 594;
    assert 50.0 <= total as real / 6.0 <= 99.0;
  }

  /** Without an uploaded profile, at the default investment and with a
      medium urgency, the request fails only for the dual objective without
      a secondary percentage, and otherwise the total savings are 620000
      when cutting costs, 400000 when investing and 770000 otherwise. */
  lemma DefaultRequestSavings(parsed: ParsedIntent, timelineWeeks: Option<int>, metrics: Metrics, pow: real -> NonNegReal)
    requires PowLaw(pow) && parsed.urgencyLevel == MediumUrgency
    ensures var r := Endpoint(parsed, None, timelineWeeks, false, metrics, pow);
      (r.Success? <==> !(IsDual(parsed) && parsed.secondaryPercentage.None?)) &&
      (r.Success? ==>
         r.value.totalSavings ==
           (match BranchOf(parsed.budgetImplication) case CutBranch => 620000 case InvestBranch => 400000 case ReallocateBranch => 770000))
  {
    BaselineBudgets(parsed, RequestTimeline(timelineWeeks), metrics, pow);
    BaseBudgetTotals(BranchOf(parsed.budgetImplication));
  }
}
