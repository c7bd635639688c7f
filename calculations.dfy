/** The dashboard's metrics engine (frontend/src/lib/calculations.ts): two
    inputs, an investment and a timeline in weeks, mapped to six per-agent
    results, aggregate targets, two seven-point projection series and a fixed
    conflict list. Every member is a pure function, as in the source. */
module Calculations {
  import opened Common

  datatype AgentData = AgentData(
    name: AgentName,
    baseAllocation: real,
    baseSavings: int,
    baseHeadcount: int,
    baseConfidence: int,
    riskFactor: real)

  const BaseAgents: seq<AgentData> := [
    AgentData(Sales, 0.14, 85000, -3, 89, 0.2),
    AgentData(Marketing, 0.19, -120000, 0, 82, 0.4),
    AgentData(Finance, 0.15, 195000, 0, 94, 0.1),
    AgentData(Operations, 0.22, 220000, -5, 87, 0.35),
    AgentData(Support, 0.15, 95000, -2, 91, 0.15),
    AgentData(HR, 0.15, 145000, -4, 85, 0.3)
  ]

  /** The investment at which budget impacts equal the base savings. */
  const BaseInvestment: real := 620000.0

  datatype Narrative = Narrative(decision: string, trigger: string)

  /** The fixed decision and trigger text per agent; the match is exhaustive,
      so no agent can lack a narrative. */
  function AgentNarrative(a: AgentName): Narrative
  {
    match a
    case Sales => Narrative(
      "Implement AI-powered lead scoring and automate outreach sequences. Freeze new SDR hiring.",
      "If Q2 pipeline drops below $2.5M, recommend 2 SDR hires")
    case Marketing => Narrative(
      "Shift 60% budget to performance channels. Deploy AI content generation for 4x output.",
      "If CAC exceeds $180, revert to brand awareness mix")
    case Finance => Narrative(
      "Consolidate 3 vendor contracts. Implement dynamic pricing with 2.5% margin optimization.",
      "If customer churn exceeds 8%, pause pricing changes")
    case Operations => Narrative(
      "Automate 40% of manual workflows. Consolidate 2 regional offices into hybrid model.",
      "If SLA breaches exceed 2%, restore on-site capacity")
    case Support => Narrative(
      "Deploy AI chatbot for L1 queries (60% deflection). Upskill team for complex cases.",
      "If CSAT drops below 4.2, increase human agent ratio")
    case HR => Narrative(
      "Freeze non-critical hiring. Implement performance-based variable compensation (+15%).",
      "If voluntary attrition exceeds 12%, review freeze policy")
  }

  /** One agent's result. The three text fields of the source's record
      (name, decision, trigger) are fixed per agent, so the record keeps the
      agent's identity and derives them. */
  datatype CalculatedAgent = CalculatedAgent(
    agent: AgentName,
    budgetImpact: int,
    headcountImpact: int,
    confidence: int,
    risk: Risk)
  {
    function Name(): string { NameText(agent) }
    function Decision(): string { AgentNarrative(agent).decision }
    function Trigger(): string { AgentNarrative(agent).trigger }
  }

  /** One chart point; `actual` is absent (JavaScript null) after the observed prefix. */
  datatype ProjectionPoint = ProjectionPoint(week: string, actual: Option<real>, projected: real)

  datatype Status = Resolved | InProgress

  datatype ConflictData = ConflictData(
    id: int,
    conflict: string,
    versus: string,
    resolution: string,
    status: Status,
    agents: seq<string>,
    savingsImpact: int)

  datatype CalculatedMetrics = CalculatedMetrics(
    profitGrowth: real,
    ctcReduction: real,
    overallConfidence: int,
    totalSavings: int,
    totalHeadcountChange: int,
    agents: seq<CalculatedAgent>,
    profitProjection: seq<ProjectionPoint>,
    ctcProjection: seq<ProjectionPoint>,
    conflicts: seq<ConflictData>)

  // ---------------------------------------------------------------- scaling

  /** A ramp from 0.5 at 200000 up to 1.0 at 800000, flat outside. */
  function InvestmentAdequacy(investment: real): (r: real)
    ensures 0.5 <= r <= 1.0
    ensures investment >= 800000.0 ==> r == 1.0
    ensures investment <= 200000.0 ==> r == 0.5
  {
    if investment >= 800000.0 then 1.0
    else if investment <= 200000.0 then 0.5
    else 0.5 + 0.5 * ((investment - 200000.0) / (800000.0 - 200000.0))
  }

  /** More investment never lowers the adequacy factor. */
  lemma InvestmentAdequacyMonotone(a: real, b: real)
    requires a <= b
    ensures InvestmentAdequacy(a) <= InvestmentAdequacy(b)
  {
  }

  /** A ramp from 0.6 at 6 weeks up to 1.0 at 16 weeks, flat outside. */
  function TimelineFactor(timeline: real): (r: real)
    ensures 0.6 <= r <= 1.0
    ensures timeline >= 16.0 ==> r == 1.0
    ensures timeline <= 6.0 ==> r == 0.6
  {
    if timeline >= 16.0 then 1.0
    else if timeline <= 6.0 then 0.6
    else 0.6 + 0.4 * ((timeline - 6.0) / (16.0 - 6.0))
  }

  /** A longer timeline never lowers the timeline factor. */
  lemma TimelineFactorMonotone(a: real, b: real)
    requires a <= b
    ensures TimelineFactor(a) <= TimelineFactor(b)
  {
  }

  /** Headcount reductions take time: below 12 weeks the base delta is
      attenuated linearly, from 12 weeks on it is reached in full. */
  function ScaleHeadcount(baseHeadcount: int, timeline: real): (r: int)
    ensures timeline >= 12.0 ==> r == baseHeadcount
    ensures timeline == 0.0 ==> r == 0
    ensures 0.0 <= timeline && baseHeadcount <= 0 ==> baseHeadcount <= r <= 0
  {
    JsRound(baseHeadcount as real * Min(1.0, timeline / 12.0))
  }

  /** For a reduction (negative base), a longer timeline never yields a
      smaller reduction. */
  lemma {:induction false} ScaleHeadcountMonotone(baseHeadcount: int, t1: real, t2: real)
    requires baseHeadcount <= 0 && t1 <= t2
    ensures ScaleHeadcount(baseHeadcount, t2) <= ScaleHeadcount(baseHeadcount, t1)
  {
    var f1, f2 := Min(1.0, t1 / 12.0), Min(1.0, t2 / 12.0);
    assert f1 <= f2;
    assert baseHeadcount as real * f2 <= baseHeadcount as real * f1 by {
      var d := f2 - f1;
      assert baseHeadcount as real * f2 == baseHeadcount as real * f1 + baseHeadcount as real * d;
    }
    JsRoundMonotone(baseHeadcount as real * f2, baseHeadcount as real * f1);
  }

  /** Costs (negative base) scale linearly with investment, savings by the
      `pow` model of `ratio ** 0.8`; at the base investment every base
      figure comes back unchanged. */
  function ScaleBudget(baseSavings: int, investment: real, pow: real -> NonNegReal): (r: int)
    requires PowLaw(pow)
    ensures baseSavings < 0 ==> r == JsRound(baseSavings as real * (investment / BaseInvestment))
    ensures investment == BaseInvestment ==> r == baseSavings
    ensures baseSavings >= 0 && investment >= 0.0 ==> r >= 0
    ensures baseSavings < 0 && investment >= 0.0 ==> r <= 0
  {
    var ratio := investment / BaseInvestment;
    if baseSavings < 0 then JsRound(baseSavings as real * ratio)
    else JsRound(baseSavings as real * pow(ratio))
  }

  // ---------------------------------------------------------------- engine

  /** The confidence before clamping; risk is classified from this value. */
  function AdjustedConfidence(agent: AgentData, adequacy: real, tFactor: real): int
  {
    JsRound(agent.baseConfidence as real * adequacy * tFactor * (1.0 - agent.riskFactor * 0.3))
  }

  function ClampConfidence(c: int): (r: int)
    ensures 50 <= r <= 99
    ensures 50 <= c <= 99 ==> r == c
  {
    if c > 99 then 99 else if c < 50 then 50 else c
  }

  /** Classifying the unclamped confidence gives the same risk as classifying
      the clamped one, because both thresholds lie inside [50, 99]. */
  lemma RiskOfClampedConfidence(c: int)
    ensures RiskLevel(ClampConfidence(c)) == RiskLevel(c)
  {
  }

  function CalculateAgent(agent: AgentData, investment: real, timeline: real,
                          adequacy: real, tFactor: real, pow: real -> NonNegReal): (r: CalculatedAgent)
    requires PowLaw(pow)
    ensures r.agent == agent.name
    ensures 50 <= r.confidence <= 99
    ensures r.risk == RiskLevel(r.confidence)
  {
    var adjusted := AdjustedConfidence(agent, adequacy, tFactor);
    RiskOfClampedConfidence(adjusted);
    CalculatedAgent(
      agent.name,
      ScaleBudget(agent.baseSavings, investment, pow),
      ScaleHeadcount(agent.baseHeadcount, timeline),
      ClampConfidence(adjusted),
      RiskLevel(adjusted))
  }

  function BudgetImpacts(agents: seq<CalculatedAgent>): seq<int>
  {
    seq(|agents|, i requires 0 <= i < |agents| => agents[i].budgetImpact)
  }

  function HeadcountImpacts(agents: seq<CalculatedAgent>): seq<int>
  {
    seq(|agents|, i requires 0 <= i < |agents| => agents[i].headcountImpact)
  }

  function Confidences(agents: seq<CalculatedAgent>): seq<int>
  {
    seq(|agents|, i requires 0 <= i < |agents| => agents[i].confidence)
  }

  /** The rounded mean of the six confidences. */
  function OverallConfidence(agents: seq<CalculatedAgent>): int
  {
    JsRound(SumInts(Confidences(agents)) as real / 6.0)
  }

  /** The raw profit-growth target, clamped to [8, 18] before any rounding. */
  function ProfitGrowthTarget(investment: real, timeline: real): (r: real)
    ensures 8.0 <= r <= 18.0
  {
    Min(18.0, Max(8.0, 8.0 + (investment / 100000.0) * 0.8 + (timeline / 20.0) * 2.0))
  }

  /** The raw cost-to-company reduction target, clamped to [1, 4]. */
  function CtcReductionTarget(investment: real): (r: real)
    ensures 1.0 <= r <= 4.0
    ensures investment >= 0.0 ==> r >= 1.5
  {
    Min(4.0, Max(1.0, 1.5 + (investment / 200000.0) * 0.4))
  }

  const Weeks: seq<string> := ["W1", "W2", "W4", "W6", "W8", "W10", "W12"]

  /** Profit series: the first three points carry an observed value at
      0.15 per step, every point a projected value at 0.14 per step. */
  function ProfitProjection(profitGrowth: real): (r: seq<ProjectionPoint>)
    ensures |r| == 7
    ensures forall i :: 0 <= i < 7 ==> r[i].week == Weeks[i] && (r[i].actual.Some? <==> i < 3)
  {
    seq(7, i requires 0 <= i < 7 =>
      ProjectionPoint(Weeks[i],
        if i < 3 then Some(profitGrowth * (i + 1) as real * 0.15) else None,
        profitGrowth * (i + 1) as real * 0.14))
  }

  /** Cost-to-company series, an index starting at 100 and falling. */
  function CtcProjection(ctcReduction: real): (r: seq<ProjectionPoint>)
    ensures |r| == 7
    ensures forall i :: 0 <= i < 7 ==> r[i].week == Weeks[i] && (r[i].actual.Some? <==> i < 3)
  {
    seq(7, i requires 0 <= i < 7 =>
      ProjectionPoint(Weeks[i],
        if i < 3 then Some(100.0 - ctcReduction * (i + 1) as real * 0.15) else None,
        100.0 - ctcReduction * (i + 1) as real * 0.14))
  }

  const Conflicts: seq<ConflictData> := [
    ConflictData(1, "Growth vs Efficiency", "Cost Reduction Pressure",
      "Prioritize automation over headcount reduction", Resolved, ["HR", "Operations"], 85000),
    ConflictData(2, "Marketing Spend", "CAC Targets",
      "Shift 60% to performance channels", Resolved, ["Marketing", "Finance"], 120000)
  ]

  /** `BASE_AGENTS.map(...)`: one calculated agent per table row, in table order. */
  function CalculateAgents(investment: real, timeline: real, pow: real -> NonNegReal): (r: seq<CalculatedAgent>)
    requires PowLaw(pow)
    ensures |r| == 6
    ensures forall i :: 0 <= i < 6 ==>
      r[i] == CalculateAgent(BaseAgents[i], investment, timeline,
                             InvestmentAdequacy(investment), TimelineFactor(timeline), pow)
  {
    var adequacy := InvestmentAdequacy(investment);
    var tFactor := TimelineFactor(timeline);
    seq(6, i requires 0 <= i < 6 => CalculateAgent(BaseAgents[i], investment, timeline, adequacy, tFactor, pow))
  }

  /** `calculateMetrics`: the whole result record for one (investment, timeline). */
  function CalculateMetrics(investment: real, timeline: real, pow: real -> NonNegReal): (m: CalculatedMetrics)
    requires PowLaw(pow)
    ensures m.agents == CalculateAgents(investment, timeline, pow)
    ensures m.totalSavings == SumInts(BudgetImpacts(m.agents))
    ensures m.totalHeadcountChange == SumInts(HeadcountImpacts(m.agents))
    ensures m.overallConfidence == OverallConfidence(m.agents)
    ensures m.profitProjection == ProfitProjection(ProfitGrowthTarget(investment, timeline))
    ensures m.ctcProjection == CtcProjection(CtcReductionTarget(investment))
    ensures m.conflicts == Conflicts
  {
    var agents := CalculateAgents(investment, timeline, pow);
    var profitGrowth := ProfitGrowthTarget(investment, timeline);
    var ctcReduction := CtcReductionTarget(investment);
    CalculatedMetrics(
      JsRound(profitGrowth * 10.0) as real / 10.0,
      JsRound(ctcReduction * 10.0) as real / 10.0,
      OverallConfidence(agents),
      SumInts(BudgetImpacts(agents)),
      SumInts(HeadcountImpacts(agents)),
      agents,
      ProfitProjection(profitGrowth),
      CtcProjection(ctcReduction),
      Conflicts)
  }

  // ---------------------------------------------------------------- formatting

  /** The unit an amount is printed in: millions with one decimal,
      thousands with none, or the plain number. */
  datatype Magnitude = Millions | Thousands | Units

  /** The threshold choice shared by both formatters. */
  function MagnitudeOf(num: real): Magnitude
  {
    if num >= 1000000.0 then Millions else if num >= 1000.0 then Thousands else Units
  }

  /** `formatCurrency(value, abs)`: the unit, chosen on the absolute value
      when `abs` is set. */
  function CurrencyMagnitude(value: real, abs: bool): (m: Magnitude)
    ensures abs && (value >= 1000000.0 || value <= -1000000.0) ==> m == Millions
    ensures !abs && value < 1000.0 ==> m == Units
  {
    MagnitudeOf(if abs && value < 0.0 then -value else value)
  }

  /** `formatBudgetImpact(value)`: the unit, chosen on the signed value. */
  function BudgetImpactMagnitude(value: real): (m: Magnitude)
    ensures value < 1000.0 ==> m == Units
  {
    MagnitudeOf(value)
  }

  /** `formatBudgetImpact` is `formatCurrency` without `abs`. */
  lemma BudgetImpactIsSignedCurrency(value: real)
    ensures BudgetImpactMagnitude(value) == CurrencyMagnitude(value, false)
  {
  }

  /** With `abs` an amount and its negation print in the same unit; without
      it every cost (a negative amount, such as Marketing's -120000) prints
      as a plain number. */
  lemma MagnitudeSignRules(value: real)
    ensures CurrencyMagnitude(value, true) == CurrencyMagnitude(-value, true)
    ensures value < 0.0 ==> CurrencyMagnitude(value, false) == Units && BudgetImpactMagnitude(value) == Units
  {
  }

  /** A larger amount never prints in a smaller unit. */
  lemma MagnitudeMonotone(a: real, b: real)
    requires a <= b
    ensures MagnitudeOf(a) == Millions ==> MagnitudeOf(b) == Millions
    ensures MagnitudeOf(a) == Thousands ==> MagnitudeOf(b) != Units
  {
  }

  // ---------------------------------------------------------------- properties

  /** Six agents in table order, each with a clamped confidence whose risk
      class agrees with the thresholds. */
  lemma MetricsAgents(investment: real, timeline: real, pow: real -> NonNegReal)
    requires PowLaw(pow)
    ensures var m := CalculateMetrics(investment, timeline, pow);
      |m.agents| == 6 &&
      forall i :: 0 <= i < 6 ==>
        m.agents[i].Name() == AgentNames[i] &&
        50 <= m.agents[i].confidence <= 99 &&
        m.agents[i].risk == RiskLevel(m.agents[i].confidence)
  {
    var m := CalculateMetrics(investment, timeline, pow);
    var agents := CalculateAgents(investment, timeline, pow);
    assert m.agents == agents;
    forall i | 0 <= i < 6
      ensures agents[i].Name() == AgentNames[i] && 50 <= agents[i].confidence <= 99
      ensures agents[i].risk == RiskLevel(agents[i].confidence)
    {
    }
  }

  /** The overall confidence, a rounded mean of six values in [50, 99],
      is itself in [50, 99]. */
  lemma OverallConfidenceBounds(investment: real, timeline: real, pow: real -> NonNegReal)
    requires PowLaw(pow)
    ensures 50 <= CalculateMetrics(investment, timeline, pow).overallConfidence <= 99
  {
    var agents := CalculateAgents(investment, timeline, pow);
    var cs := Confidences(agents);
    SumIntsBounds(cs, 50, 99);
    var mean := SumInts(cs) as real / 6.0;
    assert 50.0 <= mean <= 99.0;
    JsRoundMonotone(50.0, mean);
    JsRoundMonotone(mean, 99.0);
  }

  /** The published targets, rounded to one decimal, stay inside the clamps. */
  lemma TargetBounds(investment: real, timeline: real, pow: real -> NonNegReal)
    requires PowLaw(pow)
    ensures var m := CalculateMetrics(investment, timeline, pow);
      8.0 <= m.profitGrowth <= 18.0 && 1.0 <= m.ctcReduction <= 4.0
  {
    var pg := ProfitGrowthTarget(investment, timeline);
    var ctc := CtcReductionTarget(investment);
    JsRoundMonotone(80.0, pg * 10.0);
    JsRoundMonotone(pg * 10.0, 180.0);
    JsRoundMonotone(10.0, ctc * 10.0);
    JsRoundMonotone(ctc * 10.0, 40.0);
  }

  /** Profit series from a positive target: the observed prefix runs ahead of
      the projection and the projection rises week by week, ending at 0.98
      times the target. */
  lemma ProfitProjectionShape(pg: real)
    requires pg > 0.0
    ensures var p := ProfitProjection(pg);
      (forall i :: 0 <= i < 3 ==> p[i].actual.value > p[i].projected) &&
      (forall i :: 0 < i < 7 ==> p[i - 1].projected < p[i].projected) &&
      p[6].projected == pg * 0.98
  {
    var p := ProfitProjection(pg);
    forall i | 0 < i < 7 ensures p[i - 1].projected < p[i].projected {
      assert p[i].projected - p[i - 1].projected == pg * 0.14;
    }
    forall i | 0 <= i < 3 ensures p[i].actual.value > p[i].projected {
      assert p[i].actual.value - p[i].projected == pg * (i + 1) as real * 0.01;
    }
  }

  /** Cost series from a positive target: the observed prefix runs below the
      projection and the projection falls week by week from 100. */
  lemma CtcProjectionShape(ctc: real)
    requires ctc > 0.0
    ensures var p := CtcProjection(ctc);
      (forall i :: 0 <= i < 3 ==> p[i].actual.value < p[i].projected) &&
      (forall i :: 0 < i < 7 ==> p[i - 1].projected > p[i].projected) &&
      p[0].projected < 100.0
  {
    var p := CtcProjection(ctc);
    forall i | 0 < i < 7 ensures p[i - 1].projected > p[i].projected {
      assert p[i - 1].projected - p[i].projected == ctc * 0.14;
    }
    forall i | 0 <= i < 3 ensures p[i].actual.value < p[i].projected {
      assert p[i].projected - p[i].actual.value == ctc * (i + 1) as real * 0.01;
    }
  }

  /** The result's profit series is built from the unrounded, clamped
      target, so for every input it rises week by week up to 0.98 times that
      target, with the observed prefix ahead of the projection. */
  lemma ProfitSeriesShape(investment: real, timeline: real, pow: real -> NonNegReal)
    requires PowLaw(pow)
    ensures var p := CalculateMetrics(investment, timeline, pow).profitProjection;
      (forall i :: 0 <= i < 3 ==> p[i].actual.value > p[i].projected) &&
      (forall i :: 0 < i < 7 ==> p[i - 1].projected < p[i].projected) &&
      p[6].projected == ProfitGrowthTarget(investment, timeline) * 0.98
  {
    ProfitProjectionShape(ProfitGrowthTarget(investment, timeline));
  }

  /** Likewise the cost series falls week by week from below 100, with the
      observed prefix under the projection. */
  lemma CtcSeriesShape(investment: real, timeline: real, pow: real -> NonNegReal)
    requires PowLaw(pow)
    ensures var p := CalculateMetrics(investment, timeline, pow).ctcProjection;
      (forall i :: 0 <= i < 3 ==> p[i].actual.value < p[i].projected) &&
      (forall i :: 0 < i < 7 ==> p[i - 1].projected > p[i].projected) &&
      p[0].projected < 100.0
  {
    CtcProjectionShape(CtcReductionTarget(investment));
  }

  /** At the base investment of 620000 and a 12-week timeline every agent's
      budget impact is its base savings (Finance: 195000), the savings add up
      to 620000 and every headcount target is reached in full (-14 in all). */
  lemma BaselineScenario(pow: real -> NonNegReal)
    requires PowLaw(pow)
    ensures var m := CalculateMetrics(620000.0, 12.0, pow);
      (forall i :: 0 <= i < 6 ==> m.agents[i].budgetImpact == BaseAgents[i].baseSavings &&
                                  m.agents[i].headcountImpact == BaseAgents[i].baseHeadcount) &&
      m.agents[2].budgetImpact == 195000 &&
      m.totalSavings == 620000 &&
      m.totalHeadcountChange == -14
  {
    var m := CalculateMetrics(620000.0, 12.0, pow);
    var agents := CalculateAgents(620000.0, 12.0, pow);
    assert m.agents == agents;
    forall i | 0 <= i < 6
      ensures agents[i].budgetImpact == BaseAgents[i].baseSavings
      ensures agents[i].headcountImpact == BaseAgents[i].baseHeadcount
    {
    }
    SumIntsSix(BudgetImpacts(agents));
    SumIntsSix(HeadcountImpacts(agents));
  }

  /** With nothing invested and no time, no headcount changes at all, the
      profit target sits at its floor of 8 and the cost target at 1.5. */
  lemma ZeroScenario(pow: real -> NonNegReal)
    requires PowLaw(pow)
    ensures var m := CalculateMetrics(0.0, 0.0, pow);
      (forall i :: 0 <= i < 6 ==> m.agents[i].headcountImpact == 0) &&
      m.totalHeadcountChange == 0 &&
      m.profitGrowth == 8.0 && m.ctcReduction == 1.5
  {
    var m := CalculateMetrics(0.0, 0.0, pow);
    var agents := CalculateAgents(0.0, 0.0, pow);
    assert m.agents == agents;
    forall i | 0 <= i < 6 ensures agents[i].headcountImpact == 0 {
    }
    SumIntsSix(HeadcountImpacts(agents));
  }

  /** For any non-negative timeline the total headcount change lies between
      the full reduction (-14) and none. */
  lemma HeadcountChangeBounds(investment: real, timeline: real, pow: real -> NonNegReal)
    requires PowLaw(pow) && 0.0 <= timeline
    ensures -14 <= CalculateMetrics(investment, timeline, pow).totalHeadcountChange <= 0
  {
    var agents := CalculateAgents(investment, timeline, pow);
    var hs := HeadcountImpacts(agents);
    forall i | 0 <= i < 6 ensures BaseAgents[i].baseHeadcount <= hs[i] <= 0 {
    }
    assert -3 <= hs[0] <= 0 && -5 <= hs[3] <= 0 && -2 <= hs[4] <= 0 && -4 <= hs[5] <= 0;
    assert hs[1] == 0 && hs[2] == 0;
    SumIntsSix(hs);
    assert -14 <= SumInts(hs) <= 0;
    assert CalculateMetrics(investment, timeline, pow).totalHeadcountChange == SumInts(hs);
  }

}
