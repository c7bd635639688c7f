/** The backend's keyword-and-percentage reading of a CEO prompt
    (`parse_ceo_intent_fallback` in backend/main.py): the numbers written as
    `N%` or `N.M%`, six keyword groups, and the intent record the rules build
    from them by overwriting fields one after another. */
module Intent {
  import opened Common

  datatype ObjectiveType = Profit | CostReduction | Growth | Efficiency | RevenueObjective
  datatype TimeHorizon = ShortTerm | MediumTerm | LongTerm
  datatype Urgency = LowUrgency | MediumUrgency | HighUrgency
  datatype BudgetImplication = CutCosts | Invest | Reallocate | Maintain

  /** The primary-objective sentence, recorded as its template and the
      number filled into it. */
  datatype PrimaryObjective =
    | ImprovePerformance
    | IncreaseProfitBy(pct: real)
    | ReduceCostsBy(pct: real)
    | IncreaseRevenueBy(pct: real)
    | ImproveEfficiencyBy(pct: real)

  /** "Reduce costs by {x}%", where x is the stored secondary percentage,
      which is None when the prompt held fewer than two percentages. */
  datatype SecondaryObjective = ReduceCostsSecondary(pct: Option<real>)

  /** The parsed-intent dictionary. The last three fields are keys that a
      language-model parser may supply; the keyword parser never sets them. */
  datatype ParsedIntent = ParsedIntent(
    primaryObjective: PrimaryObjective,
    secondaryObjective: Option<SecondaryObjective>,
    targetPercentage: real,
    secondaryPercentage: Option<real>,
    objectiveType: ObjectiveType,
    timeHorizon: TimeHorizon,
    urgencyLevel: Urgency,
    budgetImplication: BudgetImplication,
    inherentTension: Option<string>,
    affectedDepartments: seq<AgentName>,
    investmentLimit: Option<real>,
    timelineWeeks: Option<real>,
    avgCac: Option<real>)

  const GrowthCostTension: string := "Growth requires investment but costs must decrease"

  /** The record the parser starts from before any rule fires. */
  const DefaultIntent: ParsedIntent := ParsedIntent(
    ImprovePerformance, None, 15.0, None, Efficiency, MediumTerm, MediumUrgency,
    Reallocate, None, AllAgents, None, None, None)

  // ------------------------------------------------------------ percentages

  predicate IsDigit(c: char)
  {
    '0' <= c <= '9'
  }

  predicate AllDigits(d: string)
  {
    forall k :: 0 <= k < |d| ==> IsDigit(d[k])
  }

  /** The length of the run of ASCII digits that starts at position i. */
  function DigitRun(s: string, i: nat): (n: nat)
    requires i <= |s|
    ensures i + n <= |s|
    ensures AllDigits(s[i..i + n])
    ensures i + n < |s| ==> !IsDigit(s[i + n])
    decreases |s| - i
  {
    if i < |s| && IsDigit(s[i]) then
      var n := 1 + DigitRun(s, i + 1);
      assert s[i..i + n] == [s[i]] + s[i + 1..i + n];
      n
    else 0
  }

  function Pow10(n: nat): (r: nat)
    ensures r >= 1
  {
    if n == 0 then 1 else 10 * Pow10(n - 1)
  }

  /** The value of a string of decimal digits. */
  function DigitsValue(d: string): nat
    requires AllDigits(d)
  {
    if d == [] then 0
    else DigitsValue(d[..|d| - 1]) * 10 + (d[|d| - 1] as int - '0' as int)
  }

  /** Python `float` of `intPart.fracPart`, on exact reals. */
  function DecimalValue(intPart: string, fracPart: string): (v: real)
    requires AllDigits(intPart) && AllDigits(fracPart)
    ensures v >= 0.0
  {
    DigitsValue(intPart) as real + DigitsValue(fracPart) as real / Pow10(|fracPart|) as real
  }

  /** A match of `(\d+(?:\.\d+)?)%` that starts exactly at i: the captured
      number and the position after the `%`. Shortening a digit run never
      helps the pattern (the character after it would be a digit, which is
      neither `.` nor `%`), so only the maximal runs are tried. */
  function MatchAt(s: string, i: nat): (r: Option<(real, nat)>)
    requires i <= |s|
    ensures r.Some? ==> i < r.value.1 <= |s| && r.value.0 >= 0.0 && s[r.value.1 - 1] == '%'
  {
    var j := i + DigitRun(s, i);
    if j == i then None
    else if j + 1 < |s| && s[j] == '.' && DigitRun(s, j + 1) > 0
            && j + 1 + DigitRun(s, j + 1) < |s| && s[j + 1 + DigitRun(s, j + 1)] == '%' then
      var e := j + 1 + DigitRun(s, j + 1);
      Some((DecimalValue(s[i..j], s[j + 1..e]), e + 1))
    else if j < |s| && s[j] == '%' then
      Some((DigitsValue(s[i..j]) as real, j + 1))
    else None
  }

  /** `re.findall` from position i: take the match starting here and go on
      after it, or move one character on. */
  function FindPercentagesFrom(s: string, i: nat): seq<real>
    requires i <= |s|
    decreases |s| - i
  {
    if i == |s| then []
    else match MatchAt(s, i)
      case Some(m) => [m.0] + FindPercentagesFrom(s, m.1)
      case None => FindPercentagesFrom(s, i + 1)
  }

  /** `re.findall(r'(\d+(?:\.\d+)?)%', prompt)`, each result passed through `float`. */
  function FindPercentages(s: string): seq<real>
  {
    FindPercentagesFrom(s, 0)
  }

  /** Every percentage found is non-negative: the pattern has no sign. */
  lemma {:induction false} PercentagesNonNegative(s: string, i: nat)
    requires i <= |s|
    ensures forall k :: 0 <= k < |FindPercentagesFrom(s, i)| ==> FindPercentagesFrom(s, i)[k] >= 0.0
    decreases |s| - i
  {
    if i < |s| {
      match MatchAt(s, i)
      case Some(m) => PercentagesNonNegative(s, m.1);
      case None => PercentagesNonNegative(s, i + 1);
    }
  }

  /** Without a `%` sign after position i nothing more is found. */
  lemma {:induction false} PercentagesNeedPercentSigns(s: string, i: nat)
    requires i <= |s|
    requires forall k :: i <= k < |s| ==> s[k] != '%'
    ensures FindPercentagesFrom(s, i) == []
    decreases |s| - i
  {
    if i < |s| {
      var m := MatchAt(s, i);
      if m.Some? {
        assert false;
      }
      PercentagesNeedPercentSigns(s, i + 1);
    }
  }

  /** A run of digits ended by a non-digit (or the end) is the digit run. */
  lemma {:induction false} DigitRunIs(s: string, i: nat, j: nat)
    requires i <= j <= |s|
    requires forall k :: i <= k < j ==> IsDigit(s[k])
    requires j < |s| ==> !IsDigit(s[j])
    ensures DigitRun(s, i) == j - i
    decreases j - i
  {
    if i < j {
      DigitRunIs(s, i + 1, j);
    }
  }

  /** A prompt that is a number followed by `%` yields exactly that number. */
  lemma SinglePercentage(s: string, d: string)
    requires d != [] && AllDigits(d) && s == d + "%"
    ensures FindPercentages(s) == [DigitsValue(d) as real]
  {
    assert s[0..|d|] == d;
    DigitRunIs(s, 0, |d|);
    assert MatchAt(s, 0) == Some((DigitsValue(d) as real, |d| + 1));
    assert FindPercentagesFrom(s, |d| + 1) == [];
  }

  /** A run of digits ended by a non-digit is the maximal run. */
  lemma RunEndsAt(s: string, i: nat, k: nat)
    requires i <= k < |s| && AllDigits(s[i..k]) && !IsDigit(s[k])
    ensures DigitRun(s, i) == k - i
  {
    forall m | i <= m < k ensures IsDigit(s[m]) {
      assert s[m] == s[i..k][m - i];
    }
    DigitRunIs(s, i, k);
  }

  /** The decimal form of the pattern: digits from i, a point at d, digits
      up to the `%` just before e. */
  predicate DecimalAt(s: string, i: int, d: int, e: int)
  {
    0 <= i < d && d + 1 < e - 1 && e <= |s| && s[d] == '.' && AllDigits(s[i..d]) && AllDigits(s[d + 1..e - 1])
  }

  /** The pattern `(\d+(?:\.\d+)?)%` matches the text from i up to e (just
      after the `%`), and v is the number written there. */
  ghost predicate PercentAt(s: string, i: int, e: int, v: real)
  {
    0 <= i < e - 1 && e <= |s| && s[e - 1] == '%' &&
    ((AllDigits(s[i..e - 1]) && v == DigitsValue(s[i..e - 1]) as real) ||
     (exists d :: DecimalAt(s, i, d, e) && v == DecimalValue(s[i..d], s[d + 1..e - 1])))
  }

  /** A whole number followed by `%` is matched as such. */
  lemma IntegerPercentMatches(s: string, i: nat, e: nat)
    requires i < e - 1 && e <= |s| && s[e - 1] == '%' && AllDigits(s[i..e - 1])
    ensures MatchAt(s, i) == Some((DigitsValue(s[i..e - 1]) as real, e))
  {
    RunEndsAt(s, i, e - 1);
  }

  /** A decimal number followed by `%` is matched as such. */
  lemma DecimalPercentMatches(s: string, i: nat, d: nat, e: nat)
    requires DecimalAt(s, i, d, e) && s[e - 1] == '%'
    ensures MatchAt(s, i) == Some((DecimalValue(s[i..d], s[d + 1..e - 1]), e))
  {
    RunEndsAt(s, i, d);
    RunEndsAt(s, d + 1, e - 1);
  }

  /** What the scan finds at a position is a match of the pattern there. */
  lemma MatchIsPercent(s: string, i: nat)
    requires i <= |s| && MatchAt(s, i).Some?
    ensures PercentAt(s, i, MatchAt(s, i).value.1, MatchAt(s, i).value.0)
  {
    var j := i + DigitRun(s, i);
    if j + 1 < |s| && s[j] == '.' && DigitRun(s, j + 1) > 0
       && j + 1 + DigitRun(s, j + 1) < |s| && s[j + 1 + DigitRun(s, j + 1)] == '%' {
      assert DecimalAt(s, i, j, MatchAt(s, i).value.1);
    }
  }

  /** The scan at one position finds exactly the match the pattern allows
      there, with the number written there. */
  lemma MatchAtIff(s: string, i: nat, e: nat, v: real)
    requires i <= |s|
    ensures MatchAt(s, i) == Some((v, e)) <==> PercentAt(s, i, e, v)
  {
    if PercentAt(s, i, e, v) {
      if AllDigits(s[i..e - 1]) && v == DigitsValue(s[i..e - 1]) as real {
        IntegerPercentMatches(s, i, e);
      } else {
        var d :| DecimalAt(s, i, d, e) && v == DecimalValue(s[i..d], s[d + 1..e - 1]);
        DecimalPercentMatches(s, i, d, e);
      }
    }
    if MatchAt(s, i).Some? {
      MatchIsPercent(s, i);
    }
  }

  /** Positions where the pattern does not match are skipped one by one. */
  lemma {:induction false} SkipUnmatched(s: string, i: nat, j: nat)
    requires i <= j <= |s|
    requires forall k :: i <= k < j ==> MatchAt(s, k).None?
    ensures FindPercentagesFrom(s, i) == FindPercentagesFrom(s, j)
    decreases j - i
  {
    if i < j {
      SkipUnmatched(s, i + 1, j);
    }
  }

  /** A match at or after position j leaves something to find from j. */
  lemma {:induction false} FoundFrom(s: string, j: nat, k: nat, e: nat, v: real)
    requires j <= k && PercentAt(s, k, e, v)
    ensures FindPercentagesFrom(s, j) != []
    decreases k - j
  {
    MatchAtIff(s, k, e, v);
    if MatchAt(s, j).None? {
      FoundFrom(s, j + 1, k, e, v);
    }
  }

  /** Scanning from j, the first percentage found is the number written at
      the leftmost position from j where the pattern matches, and the scan
      goes on right after that match's `%`. */
  lemma FirstPercentageFrom(s: string, j: nat, i: nat, e: nat, v: real)
    requires j <= i && PercentAt(s, i, e, v)
    requires forall k: nat, e': nat, v': real :: j <= k < i ==> !PercentAt(s, k, e', v')
    ensures FindPercentagesFrom(s, j) == [v] + FindPercentagesFrom(s, e)
  {
    forall k | j <= k < i ensures MatchAt(s, k).None? {
      if MatchAt(s, k).Some? {
        MatchAtIff(s, k, MatchAt(s, k).value.1, MatchAt(s, k).value.0);
      }
    }
    SkipUnmatched(s, j, i);
    MatchAtIff(s, i, e, v);
  }

  /** The first percentage found is the number written at the leftmost
      position where the pattern matches. */
  lemma FirstPercentage(s: string, i: nat, e: nat, v: real)
    requires PercentAt(s, i, e, v)
    requires forall k: nat, e': nat, v': real :: k < i ==> !PercentAt(s, k, e', v')
    ensures FindPercentages(s) == [v] + FindPercentagesFrom(s, e)
  {
    FirstPercentageFrom(s, 0, i, e, v);
  }

  /** The second percentage found is the number written at the leftmost
      position, from the end of the first match, where the pattern matches
      again. */
  lemma SecondPercentage(s: string, i: nat, e: nat, v: real, i2: nat, e2: nat, v2: real)
    requires PercentAt(s, i, e, v)
    requires forall k: nat, e': nat, v': real :: k < i ==> !PercentAt(s, k, e', v')
    requires e <= i2 && PercentAt(s, i2, e2, v2)
    requires forall k: nat, e': nat, v': real :: e <= k < i2 ==> !PercentAt(s, k, e', v')
    ensures |FindPercentages(s)| >= 2 && FindPercentages(s)[0] == v && FindPercentages(s)[1] == v2
  {
    FirstPercentage(s, i, e, v);
    FirstPercentageFrom(s, e, i2, e2, v2);
  }

  /** Nothing is found exactly when the pattern matches nowhere. */
  lemma NoPercentageIff(s: string)
    ensures FindPercentages(s) == [] <==> forall k: nat, e: nat, v: real :: !PercentAt(s, k, e, v)
  {
    if exists k: nat, e: nat, v: real :: PercentAt(s, k, e, v) {
      var k: nat, e: nat, v: real :| PercentAt(s, k, e, v);
      FoundFrom(s, 0, k, e, v);
    } else {
      forall k | 0 <= k < |s| ensures MatchAt(s, k).None? {
        if MatchAt(s, k).Some? {
          MatchAtIff(s, k, MatchAt(s, k).value.1, MatchAt(s, k).value.0);
        }
      }
      SkipUnmatched(s, 0, |s|);
    }
  }

  // ------------------------------------------------------------ keywords

  /** Which keyword groups occur in the lower-cased prompt. */
  datatype Keywords = Keywords(
    profit: bool, cost: bool, revenue: bool, efficiency: bool, urgent: bool, gradual: bool)

  function KeywordsOf(prompt: string): Keywords
  {
    var p := Lower(prompt);
    Keywords(
      Contains(p, "profit") || Contains(p, "margin"),
      Contains(p, "cost") || Contains(p, "ctc") || Contains(p, "expense"),
      Contains(p, "revenue") || Contains(p, "sales"),
      Contains(p, "efficiency") || Contains(p, "productivity"),
      Contains(p, "urgent") || Contains(p, "immediately") || Contains(p, "asap"),
      Contains(p, "gradual") || Contains(p, "over time"))
  }

  /** The intent the rules leave behind, stated by which rule has the last
      word on each field rather than by the order the rules run in. */
  function IntentFrom(k: Keywords, ps: seq<real>): (r: ParsedIntent)
    ensures r.targetPercentage == (if |ps| > 0 then ps[0] else 15.0)
    ensures r.secondaryPercentage == (if |ps| > 1 then Some(ps[1]) else None)
  {
    var target := if |ps| > 0 then ps[0] else 15.0;
    var secondary := if |ps| > 1 then Some(ps[1]) else None;
    var objective :=
      if k.efficiency then Efficiency
      else if k.revenue then RevenueObjective
      else if k.profit then Profit
      else if k.cost then CostReduction
      else Efficiency;
    var primary :=
      if k.efficiency then ImproveEfficiencyBy(target)
      else if k.revenue then IncreaseRevenueBy(target)
      else if k.profit then IncreaseProfitBy(target)
      else if k.cost then ReduceCostsBy(target)
      else ImprovePerformance;
    var budget := if k.revenue then Invest else if k.cost then CutCosts else Reallocate;
    var dual := k.profit && k.cost;
    ParsedIntent(
      primary,
      if dual then Some(ReduceCostsSecondary(secondary)) else None,
      target,
      secondary,
      objective,
      if k.urgent then ShortTerm else if k.gradual then LongTerm else MediumTerm,
      if k.urgent then HighUrgency else if k.gradual then LowUrgency else MediumUrgency,
      budget,
      if dual then Some(GrowthCostTension) else None,
      AllAgents,
      None, None, None)
  }

  /** The whole fallback parse of one prompt. */
  function FallbackIntent(prompt: string): ParsedIntent
  {
    IntentFrom(KeywordsOf(prompt), FindPercentages(prompt))
  }

  /** `parse_ceo_intent_fallback`: start from the default record, then let
      each rule overwrite the fields it owns, in source order. The keyword
      tests are read from `KeywordsOf`, which makes the same substring tests
      on the lower-cased prompt. */
  method ParseIntentFallback(prompt: string) returns (result: ParsedIntent)
    ensures result == FallbackIntent(prompt)
  {
    var k := KeywordsOf(prompt);
    result := DefaultIntent;

    var percentages := FindPercentages(prompt);
    if |percentages| > 0 {
      result := result.(targetPercentage := percentages[0]);
      if |percentages| > 1 {
        result := result.(secondaryPercentage := Some(percentages[1]));
      }
    }

    if k.profit {
      result := result.(objectiveType := Profit,
                        primaryObjective := IncreaseProfitBy(result.targetPercentage));
    }

    if k.cost {
      if result.objectiveType == Profit {
        result := result.(secondaryObjective := Some(ReduceCostsSecondary(result.secondaryPercentage)),
                          inherentTension := Some(GrowthCostTension),
                          budgetImplication := CutCosts);
      } else {
        result := result.(objectiveType := CostReduction,
                          primaryObjective := ReduceCostsBy(result.targetPercentage),
                          budgetImplication := CutCosts);
      }
    }

    if k.revenue {
      result := result.(objectiveType := RevenueObjective,
                        primaryObjective := IncreaseRevenueBy(result.targetPercentage),
                        budgetImplication := Invest);
    }

    if k.efficiency {
      result := result.(objectiveType := Efficiency,
                        primaryObjective := ImproveEfficiencyBy(result.targetPercentage));
    }

    if k.urgent {
      result := result.(urgencyLevel := HighUrgency, timeHorizon := ShortTerm);
    } else if k.gradual {
      result := result.(urgencyLevel := LowUrgency, timeHorizon := LongTerm);
    }
  }

  // ------------------------------------------------------------ properties

  /** A revenue or sales keyword always means investing, and the objective
      is revenue unless an efficiency keyword overrides it. */
  lemma RevenueForcesInvest(prompt: string)
    requires KeywordsOf(prompt).revenue
    ensures var r := FallbackIntent(prompt);
      r.budgetImplication == Invest &&
      r.objectiveType == (if KeywordsOf(prompt).efficiency then Efficiency else RevenueObjective)
  {
  }

  /** An efficiency or productivity keyword decides the final objective. */
  lemma EfficiencyHasLastWord(prompt: string)
    requires KeywordsOf(prompt).efficiency
    ensures var r := FallbackIntent(prompt);
      r.objectiveType == Efficiency && r.primaryObjective == ImproveEfficiencyBy(r.targetPercentage)
  {
  }

  /** A cost keyword together with a profit keyword adds the secondary
      objective and the tension and keeps profit as the objective when no
      later rule fires; the secondary objective carries the stored secondary
      percentage, never the `target * 0.15` default of the lookup. */
  lemma ProfitAndCostIsDual(prompt: string)
    requires KeywordsOf(prompt).profit && KeywordsOf(prompt).cost
    ensures var r := FallbackIntent(prompt);
      r.secondaryObjective == Some(ReduceCostsSecondary(r.secondaryPercentage)) &&
      r.inherentTension.Some? &&
      (!KeywordsOf(prompt).revenue ==> r.budgetImplication == CutCosts) &&
      (!KeywordsOf(prompt).revenue && !KeywordsOf(prompt).efficiency ==>
         r.objectiveType == Profit && r.primaryObjective == IncreaseProfitBy(r.targetPercentage))
  {
  }

  /** A secondary objective exists exactly for prompts with both a profit and
      a cost keyword. */
  lemma SecondaryObjectiveIff(prompt: string)
    ensures FallbackIntent(prompt).secondaryObjective.Some? <==>
      KeywordsOf(prompt).profit && KeywordsOf(prompt).cost
  {
  }

  /** Urgency keywords win over gradual ones. */
  lemma UrgencyPrecedence(prompt: string)
    ensures var r := FallbackIntent(prompt); var k := KeywordsOf(prompt);
      (k.urgent ==> r.urgencyLevel == HighUrgency && r.timeHorizon == ShortTerm) &&
      (!k.urgent && k.gradual ==> r.urgencyLevel == LowUrgency && r.timeHorizon == LongTerm) &&
      (!k.urgent && !k.gradual ==> r.urgencyLevel == MediumUrgency && r.timeHorizon == MediumTerm)
  {
  }

  /** The budget implication is cut_costs exactly when a cost keyword occurs
      and no revenue keyword does, and maintain is never chosen. */
  lemma BudgetImplicationIff(prompt: string)
    ensures var r := FallbackIntent(prompt); var k := KeywordsOf(prompt);
      (r.budgetImplication == CutCosts <==> k.cost && !k.revenue) &&
      (r.budgetImplication == Invest <==> k.revenue) &&
      r.budgetImplication != Maintain
  {
  }

  /** The first two percentages fill the target and secondary slots; with
      none the target stays 15, and all are non-negative. */
  lemma PercentageSlots(prompt: string)
    ensures var r := FallbackIntent(prompt); var ps := FindPercentages(prompt);
      r.targetPercentage >= 0.0 &&
      (ps == [] ==> r.targetPercentage == 15.0 && r.secondaryPercentage == None) &&
      (|ps| >= 2 ==> r.secondaryPercentage == Some(ps[1]) && r.secondaryPercentage.value >= 0.0)
  {
    PercentagesNonNegative(prompt, 0);
  }
  // ------------------------------------------------------------ one prompt

  /** A prompt about profit and cost cutting that carries one percentage. */
  const ProfitAndCostPrompt: string := "increase profit by 15% and cut costs"

  /** On a prompt without capitals the keyword groups are substring tests on
      the prompt itself. */
  lemma KeywordsOfLowerCase(s: string)
    requires Lower(s) == s
    ensures KeywordsOf(s) == Keywords(
      Contains(s, "profit") || Contains(s, "margin"),
      Contains(s, "cost") || Contains(s, "ctc") || Contains(s, "expense"),
      Contains(s, "revenue") || Contains(s, "sales"),
      Contains(s, "efficiency") || Contains(s, "productivity"),
      Contains(s, "urgent") || Contains(s, "immediately") || Contains(s, "asap"),
      Contains(s, "gradual") || Contains(s, "over time"))
  {
  }

  lemma NoRevenueWords(s: string)
    requires 'v' !in s && 'l' !in s
    ensures !Contains(s, "revenue") && !Contains(s, "sales")
  {
    AbsentByChar(s, "revenue", 2);
    AbsentByChar(s, "sales", 2);
  }

  lemma NoEfficiencyWord(s: string)
    requires forall k :: 0 <= k < |s| - 1 ==> !(s[k] == 'f' && s[k + 1] == 'f')
    ensures !Contains(s, "efficiency")
  {
    AbsentByPair(s, "efficiency", 1, 'f', 'f');
  }

  lemma NoAsapWord(s: string)
    requires forall k :: 0 <= k < |s| - 1 ==> !(s[k] == 'a' && s[k + 1] == 'p')
    ensures !Contains(s, "asap")
  {
    AbsentByPair(s, "asap", 2, 'a', 'p');
  }

  lemma NoOtherWords(s: string)
    requires 'v' !in s && 'g' !in s && 'm' !in s
    ensures !Contains(s, "productivity") && !Contains(s, "urgent") && !Contains(s, "immediately")
    ensures !Contains(s, "gradual") && !Contains(s, "over time")
  {
    AbsentByChar(s, "productivity", 8);
    AbsentByChar(s, "urgent", 2);
    AbsentByChar(s, "immediately", 1);
    AbsentByChar(s, "gradual", 0);
    AbsentByChar(s, "over time", 1);
  }

  /** A lower-case prompt that contains "profit" and "cost" and lacks the
      letters and letter pairs that every other keyword needs has only the
      profit and cost keywords. */
  lemma ProfitAndCostKeywords(s: string)
    requires forall k :: 0 <= k < |s| ==> !('A' <= s[k] <= 'Z')
    requires 'v' !in s && 'l' !in s && 'g' !in s && 'm' !in s
    requires forall k :: 0 <= k < |s| - 1 ==> !(s[k] == 'f' && s[k + 1] == 'f')
    requires forall k :: 0 <= k < |s| - 1 ==> !(s[k] == 'a' && s[k + 1] == 'p')
    requires Contains(s, "profit") && Contains(s, "cost")
    ensures KeywordsOf(s) == Keywords(true, true, false, false, false, false)
  {
    LowerOfLowerCase(s);
    KeywordsOfLowerCase(s);
    NoRevenueWords(s);
    NoEfficiencyWord(s);
    NoAsapWord(s);
    NoOtherWords(s);
  }

  /** A prompt whose only `%` follows "15", with no digit before it, yields
      the single percentage 15. */
  lemma OnlyFifteenPercent(s: string, i: nat)
    requires i + 3 <= |s|
    requires forall k :: 0 <= k < i ==> !IsDigit(s[k])
    requires s[i] == '1' && s[i + 1] == '5' && s[i + 2] == '%'
    requires forall k :: i + 3 <= k < |s| ==> s[k] != '%'
    ensures FindPercentages(s) == [15.0]
  {
    forall k | 0 <= k < i ensures MatchAt(s, k).None? {
      assert DigitRun(s, k) == 0;
    }
    SkipUnmatched(s, 0, i);
    DigitRunIs(s, i, i + 2);
    assert s[i..i + 2] == "15";
    assert DigitsValue("15") == 15;
    assert MatchAt(s, i) == Some((15.0, i + 3));
    PercentagesNeedPercentSigns(s, i + 3);
  }

  lemma PromptHasNoCapitals()
    ensures forall k :: 0 <= k < |ProfitAndCostPrompt| ==> !('A' <= ProfitAndCostPrompt[k] <= 'Z')
  {
  }

  lemma PromptLacksV()
    ensures 'v' !in ProfitAndCostPrompt
  {
  }

  lemma PromptLacksL()
    ensures 'l' !in ProfitAndCostPrompt
  {
  }

  lemma PromptLacksG()
    ensures 'g' !in ProfitAndCostPrompt
  {
  }

  lemma PromptLacksM()
    ensures 'm' !in ProfitAndCostPrompt
  {
  }

  lemma PromptLacksFF()
    ensures forall k :: 0 <= k < |ProfitAndCostPrompt| - 1 ==>
      !(ProfitAndCostPrompt[k] == 'f' && ProfitAndCostPrompt[k + 1] == 'f')
  {
  }

  lemma PromptLacksAP()
    ensures forall k :: 0 <= k < |ProfitAndCostPrompt| - 1 ==>
      !(ProfitAndCostPrompt[k] == 'a' && ProfitAndCostPrompt[k + 1] == 'p')
  {
  }

  /** "profit" at position 9 and "cost" at 31 of a 36-character string. */
  lemma ProfitAndCostWordsAt(s: string)
    requires |s| == 36
    requires s[9] == 'p' && s[10] == 'r' && s[11] == 'o' && s[12] == 'f' && s[13] == 'i' && s[14] == 't'
    requires s[31] == 'c' && s[32] == 'o' && s[33] == 's' && s[34] == 't'
    ensures Contains(s, "profit") && Contains(s, "cost")
  {
    assert OccursAt(s, "profit", 9);
    assert OccursAt(s, "cost", 31);
    ContainsAt(s, "profit");
    ContainsAt(s, "cost");
  }

  lemma PromptKeywords()
    ensures KeywordsOf(ProfitAndCostPrompt) == Keywords(true, true, false, false, false, false)
  {
    PromptHasNoCapitals();
    PromptLacksV();
    PromptLacksL();
    PromptLacksG();
    PromptLacksM();
    PromptLacksFF();
    PromptLacksAP();
    ProfitAndCostWordsAt(ProfitAndCostPrompt);
    ProfitAndCostKeywords(ProfitAndCostPrompt);
  }

  lemma PromptLeadsWithoutDigits()
    ensures forall k :: 0 <= k < 19 ==> !IsDigit(ProfitAndCostPrompt[k])
  {
  }

  lemma PromptEndsWithoutPercent()
    ensures forall k :: 22 <= k < |ProfitAndCostPrompt| ==> ProfitAndCostPrompt[k] != '%'
  {
  }

  lemma PromptPercentages()
    ensures FindPercentages(ProfitAndCostPrompt) == [15.0]
  {
    PromptLeadsWithoutDigits();
    PromptEndsWithoutPercent();
    OnlyFifteenPercent(ProfitAndCostPrompt, 19);
  }

  /** The prompt parses to the profit objective with a cost secondary
      objective, target 15 and no secondary percentage. */
  lemma ProfitAndCostPromptIntent()
    ensures FallbackIntent(ProfitAndCostPrompt) == IntentFrom(Keywords(true, true, false, false, false, false), [15.0])
  {
    PromptKeywords();
    PromptPercentages();
  }
}
