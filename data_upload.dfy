/** The uploaded company profile (backend/data_upload.py): a spreadsheet,
    already parsed into named columns of optional numbers, is reduced to
    standard fields, summary metrics and trends, which then rescale the
    per-agent figures. */
module DataUpload {
  import opened Common

  /** One spreadsheet column; None is a missing (NaN) cell. */
  type Column = seq<Option<real>>

  /** A parsed sheet: its columns in sheet order and its number of rows. */
  datatype Table = Table(columns: seq<(string, Column)>, rowCount: nat)

  /** A Python dictionary of columns: keys in insertion order and the values. */
  datatype Columns = Columns(keys: seq<string>, data: map<string, Column>)

  const EmptyColumns: Columns := Columns([], map[])

  predicate Distinct(s: seq<string>)
  {
    forall i, j :: 0 <= i < j < |s| ==> s[i] != s[j]
  }

  /** The keys list the dictionary's domain, each once. */
  predicate ValidColumns(c: Columns)
  {
    Distinct(c.keys) &&
    (forall k :: k in c.data ==> k in c.keys) &&
    (forall k :: k in c.keys ==> k in c.data)
  }

  /** `d[key] = col`: a new key goes to the end, an existing key keeps its
      place and takes the new value. */
  function Put(c: Columns, key: string, col: Column): (r: Columns)
    ensures r.data == c.data[key := col]
    ensures key in c.data ==> r.keys == c.keys
  {
    if key in c.data then Columns(c.keys, c.data[key := col])
    else Columns(c.keys + [key], c.data[key := col])
  }

  /** Putting a key keeps the keys and the dictionary in step, each key once. */
  lemma PutKeepsValid(c: Columns, key: string, col: Column)
    requires ValidColumns(c)
    ensures ValidColumns(Put(c, key, col))
  {
  }

  /** A dictionary without keys is the empty dictionary. */
  lemma NoKeysIsEmpty(c: Columns)
    requires ValidColumns(c) && c.keys == []
    ensures c == EmptyColumns
  {
    assert forall k :: k !in c.data;
  }

  // ------------------------------------------------------------ column names

  /** `name.lower().replace(' ', '_')`, on ASCII letters. */
  function Normalize(name: string): string
  {
    var lower := Lower(name);
    seq(|lower|, i requires 0 <= i < |lower| => if lower[i] == ' ' then '_' else lower[i])
  }

  /** A normalised name keeps the length, has no spaces and no upper-case
      ASCII letters, and differs from the name only where it lower-cases a
      letter or turns a space into `_`. */
  lemma NormalizedNameIsCanonical(name: string)
    ensures |Normalize(name)| == |name|
    ensures forall i :: 0 <= i < |name| ==>
      Normalize(name)[i] != ' ' && !('A' <= Normalize(name)[i] <= 'Z') &&
      Normalize(name)[i] == (if name[i] == ' ' then '_' else LowerChar(name[i]))
  {
  }

  /** The dictionary `df_lower`: each normalised name mapped to the position
      of a column carrying it (the last one, see `LowerIndexLastWins`). */
  function LowerIndex(cols: seq<(string, Column)>): (r: map<string, nat>)
    ensures forall k :: k in r ==> r[k] < |cols|
  {
    if cols == [] then map[]
    else LowerIndex(cols[..|cols| - 1])[Normalize(cols[|cols| - 1].0) := |cols| - 1]
  }

  /** Every normalised column name is a key of `df_lower`, and it points to
      the last column with that normalised name, since later entries of the
      comprehension win. */
  lemma {:induction false} LowerIndexLastWins(cols: seq<(string, Column)>)
    ensures forall k :: k in LowerIndex(cols) ==> Normalize(cols[LowerIndex(cols)[k]].0) == k
    ensures forall i :: 0 <= i < |cols| ==>
      Normalize(cols[i].0) in LowerIndex(cols) && i <= LowerIndex(cols)[Normalize(cols[i].0)]
  {
    if cols != [] {
      var prefix := cols[..|cols| - 1];
      LowerIndexLastWins(prefix);
      assert forall i :: 0 <= i < |prefix| ==> prefix[i] == cols[i];
    }
  }

  /** The standard fields, in the order the mapping table lists them. */
  datatype StandardField =
    | RevenueField | ProfitField | CostsField | HeadcountField
    | CacField | NewCustomersField | MarketingSpendField
    | ChurnRateField | RetentionRateField | NpsField | CsatField
    | PipelineField | DealsClosedField | AvgDealSizeField
    | QuarterField | YearField | MonthField

  /** The number of standard fields. */
  const FieldCount: nat := 17

  /** A field's position in the mapping table. */
  function FieldIndex(f: StandardField): (r: nat)
    ensures r < FieldCount
  {
    match f
    case RevenueField => 0
    case ProfitField => 1
    case CostsField => 2
    case HeadcountField => 3
    case CacField => 4
    case NewCustomersField => 5
    case MarketingSpendField => 6
    case ChurnRateField => 7
    case RetentionRateField => 8
    case NpsField => 9
    case CsatField => 10
    case PipelineField => 11
    case DealsClosedField => 12
    case AvgDealSizeField => 13
    case QuarterField => 14
    case YearField => 15
    case MonthField => 16
  }

  /** The field at a position of the mapping table. */
  function FieldAt(i: nat): (f: StandardField)
    requires i < FieldCount
    ensures FieldIndex(f) == i
  {
    match i
    case 0 => RevenueField
    case 1 => ProfitField
    case 2 => CostsField
    case 3 => HeadcountField
    case 4 => CacField
    case 5 => NewCustomersField
    case 6 => MarketingSpendField
    case 7 => ChurnRateField
    case 8 => RetentionRateField
    case 9 => NpsField
    case 10 => CsatField
    case 11 => PipelineField
    case 12 => DealsClosedField
    case 13 => AvgDealSizeField
    case 14 => QuarterField
    case 15 => YearField
    case _ => MonthField
  }

  /** Each field sits at exactly one position. */
  lemma FieldAtIndex(f: StandardField)
    ensures FieldAt(FieldIndex(f)) == f
  {
  }

  function FieldName(f: StandardField): string
  {
    match f
    case RevenueField => "revenue"
    case ProfitField => "profit"
    case CostsField => "costs"
    case HeadcountField => "headcount"
    case CacField => "cac"
    case NewCustomersField => "new_customers"
    case MarketingSpendField => "marketing_spend"
    case ChurnRateField => "churn_rate"
    case RetentionRateField => "retention_rate"
    case NpsField => "nps"
    case CsatField => "csat"
    case PipelineField => "pipeline"
    case DealsClosedField => "deals_closed"
    case AvgDealSizeField => "avg_deal_size"
    case QuarterField => "quarter"
    case YearField => "year"
    case MonthField => "month"
  }

  /** The accepted column names per field, in table order and in the order
      they are tried; the first is the standard name itself. */
  const ColumnMappings: seq<seq<string>> := [
      ["revenue", "sales", "turnover", "gross_revenue", "total_revenue"],
      ["profit", "net_profit", "operating_profit", "ebitda", "ebit", "net_income"],
      ["costs", "expenses", "total_costs", "operating_costs", "opex"],
      ["headcount", "employees", "fte", "staff_count", "workforce"],
      ["cac", "customer_acquisition_cost", "acquisition_cost"],
      ["new_customers", "new_clients", "acquisitions", "customer_acquisitions"],
      ["marketing_spend", "marketing_budget", "ad_spend", "advertising"],
      ["churn_rate", "churn", "attrition_rate", "customer_churn"],
      ["retention_rate", "retention", "customer_retention"],
      ["nps", "net_promoter_score"],
      ["csat", "customer_satisfaction"],
      ["pipeline", "sales_pipeline", "opportunity_pipeline"],
      ["deals_closed", "closed_deals", "wins", "sales_wins"],
      ["avg_deal_size", "deal_size", "average_deal", "contract_value"],
      ["quarter", "q", "period", "quarter_period"],
      ["year", "yr", "fiscal_year"],
      ["month", "mo", "month_period"]]

  /** The aliases of one field. */
  function Aliases(f: StandardField): (r: seq<string>)
    ensures |r| > 0 && r[0] == FieldName(f)
  {
    ColumnMappings[FieldIndex(f)]
  }

  /** Distinct fields have distinct names, so no field overwrites another. */
  lemma FieldNamesDistinct(f: StandardField, g: StandardField)
    requires f != g
    ensures FieldName(f) != FieldName(g)
  {
  }

  /** The column the first present alias points to, if any alias is present. */
  function FirstAlias(aliases: seq<string>, index: map<string, nat>): Option<nat>
  {
    if aliases == [] then None
    else if aliases[0] in index then Some(index[aliases[0]])
    else FirstAlias(aliases[1..], index)
  }

  /** No alias before position j is present. */
  predicate AliasesAbsent(aliases: seq<string>, index: map<string, nat>, j: int)
  {
    forall j' :: 0 <= j' < j && j' < |aliases| ==> aliases[j'] !in index
  }

  /** `FirstAlias` picks the alias of lowest position among those present,
      and finds none exactly when none is present. */
  lemma {:induction false} FirstAliasIsFirst(aliases: seq<string>, index: map<string, nat>)
    ensures FirstAlias(aliases, index).None? <==> AliasesAbsent(aliases, index, |aliases|)
    ensures FirstAlias(aliases, index).Some? ==>
      exists j :: 0 <= j < |aliases| && aliases[j] in index &&
        FirstAlias(aliases, index).value == index[aliases[j]] && AliasesAbsent(aliases, index, j)
  {
    if aliases != [] {
      var tail := aliases[1..];
      FirstAliasIsFirst(tail, index);
      if aliases[0] in index {
        assert AliasesAbsent(aliases, index, 0);
      } else if FirstAlias(aliases, index).Some? {
        var j :| 0 <= j < |tail| && tail[j] in index &&
          FirstAlias(aliases, index).value == index[tail[j]] && AliasesAbsent(tail, index, j);
        assert aliases[j + 1] == tail[j];
        assert AliasesAbsent(aliases, index, j + 1) by {
          forall j' | 0 < j' < j + 1 ensures aliases[j'] !in index {
            assert aliases[j'] == tail[j' - 1];
          }
        }
      } else {
        forall j | 0 < j < |aliases| ensures aliases[j] !in index {
          assert aliases[j] == tail[j - 1];
        }
      }
    }
  }

  /** An alias present with none present before it is the one found. */
  lemma FirstAliasAt(aliases: seq<string>, index: map<string, nat>, j: nat)
    requires j < |aliases| && aliases[j] in index && AliasesAbsent(aliases, index, j)
    ensures FirstAlias(aliases, index) == Some(index[aliases[j]])
  {
    FirstAliasIsFirst(aliases, index);
    var j1 :| 0 <= j1 < |aliases| && aliases[j1] in index &&
      FirstAlias(aliases, index).value == index[aliases[j1]] && AliasesAbsent(aliases, index, j1);
    assert j1 == j;
  }

  /** One more absent alias extends the absent prefix. */
  lemma AliasesAbsentStep(aliases: seq<string>, index: map<string, nat>, j: nat)
    requires j < |aliases| && aliases[j] !in index && AliasesAbsent(aliases, index, j)
    ensures AliasesAbsent(aliases, index, j + 1)
  {
  }

  /** With no alias present, none is found. */
  lemma NoAliasFound(aliases: seq<string>, index: map<string, nat>)
    requires AliasesAbsent(aliases, index, |aliases|)
    ensures FirstAlias(aliases, index).None?
  {
    FirstAliasIsFirst(aliases, index);
  }

  /** One turn of the alias loop: bind `name` to the column of the first
      present alias, if there is one. */
  function BindFirstAlias(prev: Columns, t: Table, name: string, aliases: seq<string>): Columns
  {
    match FirstAlias(aliases, LowerIndex(t.columns))
    case Some(c) =>
      assert c < |t.columns| by { FirstAliasIsFirst(aliases, LowerIndex(t.columns)); }
      Put(prev, name, t.columns[c].1)
    case None => prev
  }

  /** A turn of the alias loop binds `name` to the column of the first
      present alias, and changes nothing when no alias is present. */
  lemma BindFirstAliasData(prev: Columns, t: Table, name: string, aliases: seq<string>)
    ensures var first := FirstAlias(aliases, LowerIndex(t.columns));
      (first.Some? ==>
         (first.value < |t.columns| &&
          BindFirstAlias(prev, t, name, aliases).data == prev.data[name := t.columns[first.value].1])) &&
      (first.None? ==> BindFirstAlias(prev, t, name, aliases).data == prev.data)
  {
    FirstAliasIsFirst(aliases, LowerIndex(t.columns));
  }

  /** The alias loop after the first n standard fields. */
  function BoundPrefix(t: Table, n: nat): Columns
    requires n <= FieldCount
  {
    if n == 0 then EmptyColumns
    else BindFirstAlias(BoundPrefix(t, n - 1), t, FieldName(FieldAt(n - 1)), Aliases(FieldAt(n - 1)))
  }

  /** A turn of the alias loop keeps the keys and the dictionary in step. */
  lemma BindFirstAliasValid(prev: Columns, t: Table, name: string, aliases: seq<string>)
    requires ValidColumns(prev)
    ensures ValidColumns(BindFirstAlias(prev, t, name, aliases))
  {
    match FirstAlias(aliases, LowerIndex(t.columns))
    case Some(c) =>
      FirstAliasIsFirst(aliases, LowerIndex(t.columns));
      PutKeepsValid(prev, name, t.columns[c].1);
    case None =>
  }

  /** The fallback loop after the first n columns: every column under its
      normalised name. */
  function AllPrefix(cols: seq<(string, Column)>, n: nat): Columns
    requires n <= |cols|
  {
    if n == 0 then EmptyColumns
    else Put(AllPrefix(cols, n - 1), Normalize(cols[n - 1].0), cols[n - 1].1)
  }

  lemma {:induction false} BoundPrefixValid(t: Table, n: nat)
    requires n <= FieldCount
    ensures ValidColumns(BoundPrefix(t, n))
  {
    if n > 0 {
      var f := FieldAt(n - 1);
      var prev := BoundPrefix(t, n - 1);
      BoundPrefixValid(t, n - 1);
      BindFirstAliasValid(prev, t, FieldName(f), Aliases(f));
      assert BoundPrefix(t, n) == BindFirstAlias(prev, t, FieldName(f), Aliases(f));
    }
  }

  lemma {:induction false} AllPrefixValid(cols: seq<(string, Column)>, n: nat)
    requires n <= |cols|
    ensures ValidColumns(AllPrefix(cols, n))
  {
    if n > 0 {
      AllPrefixValid(cols, n - 1);
      PutKeepsValid(AllPrefix(cols, n - 1), Normalize(cols[n - 1].0), cols[n - 1].1);
    }
  }

  /** The dictionary `_standardize_columns` returns. */
  function Standardize(t: Table): Columns
  {
    var bound := BoundPrefix(t, FieldCount);
    if bound.keys != [] then bound else AllPrefix(t.columns, |t.columns|)
  }

  /** After the first n fields, a field's name is bound exactly when one of
      its aliases is present, and then to the column of its first present
      alias; no other key is bound. */
  lemma {:induction false} BoundPrefixFields(t: Table, n: nat)
    requires n <= FieldCount
    ensures forall k :: k in BoundPrefix(t, n).data ==>
      exists g :: FieldIndex(g) < n && k == FieldName(g)
    ensures forall g :: FieldIndex(g) < n ==>
      var first := FirstAlias(Aliases(g), LowerIndex(t.columns));
      (FieldName(g) in BoundPrefix(t, n).data <==> first.Some?) &&
      (first.Some? ==>
         first.value < |t.columns| && BoundPrefix(t, n).data[FieldName(g)] == t.columns[first.value].1)
  {
    if n > 0 {
      BoundPrefixFields(t, n - 1);
      var f := FieldAt(n - 1);
      var prev := BoundPrefix(t, n - 1);
      BindFirstAliasData(prev, t, FieldName(f), Aliases(f));
      assert BoundPrefix(t, n) == BindFirstAlias(prev, t, FieldName(f), Aliases(f));
      forall g | FieldIndex(g) < n - 1 ensures FieldName(g) != FieldName(f) {
        FieldNamesDistinct(g, f);
      }
      forall g | FieldIndex(g) == n - 1 ensures g == f {
        FieldAtIndex(g);
      }
    }
  }

  /** Each standard field is bound at most once, to the column of the first
      alias, in list order, present among the normalised column names; the
      result holds standard field names only. */
  lemma StandardizeBindsFirstAlias(t: Table, f: StandardField)
    requires BoundPrefix(t, FieldCount).keys != []
    ensures var r := Standardize(t); var index := LowerIndex(t.columns);
      ValidColumns(r) &&
      (FieldName(f) in r.data <==> exists j :: 0 <= j < |Aliases(f)| && Aliases(f)[j] in index) &&
      (forall j :: 0 <= j < |Aliases(f)| && Aliases(f)[j] in index && AliasesAbsent(Aliases(f), index, j)
         ==> r.data[FieldName(f)] == t.columns[index[Aliases(f)[j]]].1) &&
      (forall k :: k in r.data ==> exists g :: k == FieldName(g))
  {
    BoundPrefixFields(t, FieldCount);
    BoundPrefixValid(t, FieldCount);
    FirstAliasIsFirst(Aliases(f), LowerIndex(t.columns));
    var index := LowerIndex(t.columns);
    forall j | 0 <= j < |Aliases(f)| && Aliases(f)[j] in index && AliasesAbsent(Aliases(f), index, j)
      ensures FirstAlias(Aliases(f), index) == Some(index[Aliases(f)[j]])
    {
      FirstAliasAt(Aliases(f), index, j);
    }
  }

  /** After the first n columns of the fallback, the keys are the normalised
      names seen so far, each holding the last such column. */
  lemma {:induction false} AllPrefixIsLowerIndex(cols: seq<(string, Column)>, n: nat)
    requires n <= |cols|
    ensures var r := AllPrefix(cols, n); var index := LowerIndex(cols[..n]);
      (forall k :: k in r.data <==> k in index) &&
      (forall k :: k in index ==> index[k] < n && r.data[k] == cols[index[k]].1)
  {
    if n > 0 {
      AllPrefixIsLowerIndex(cols, n - 1);
      var prefix := cols[..n];
      var key := Normalize(cols[n - 1].0);
      assert prefix[..n - 1] == cols[..n - 1];
      assert LowerIndex(prefix) == LowerIndex(cols[..n - 1])[key := n - 1];
      assert AllPrefix(cols, n).data == AllPrefix(cols, n - 1).data[key := cols[n - 1].1];
    }
  }

  /** With no standard field present, every column is kept under its
      normalised name, and a name shared by several columns holds the last. */
  lemma FallbackKeepsAllColumns(t: Table)
    requires BoundPrefix(t, FieldCount).keys == []
    ensures var r := Standardize(t); var index := LowerIndex(t.columns);
      (forall i :: 0 <= i < |t.columns| ==> Normalize(t.columns[i].0) in r.data) &&
      (forall k :: k in r.data ==> k in index && r.data[k] == t.columns[index[k]].1)
  {
    assert Standardize(t) == AllPrefix(t.columns, |t.columns|);
    assert t.columns[..|t.columns|] == t.columns;
    AllPrefixIsLowerIndex(t.columns, |t.columns|);
    LowerIndexLastWins(t.columns);
  }

  // ------------------------------------------------------------ trends

  datatype Trend = Increasing | Decreasing | Stable

  /** The mean of the first half; an odd element goes to the second half. */
  function FirstHalfMean(values: seq<real>): real
    requires |values| >= 2
  {
    SumReals(values[..|values| / 2]) / (|values| / 2) as real
  }

  function SecondHalfMean(values: seq<real>): real
    requires |values| >= 2
  {
    SumReals(values[|values| / 2..]) / (|values| - |values| / 2) as real
  }

  /** `_calculate_trend`: the percentage change from the first half's mean
      to the second's, against thresholds of +5 and -5. */
  function CalculateTrend(values: seq<real>): Trend
  {
    if |values| < 2 then Stable
    else
      var first := FirstHalfMean(values);
      var second := SecondHalfMean(values);
      var change := PercentChange(first, second);
      if change > 5.0 then Increasing
      else if change < -5.0 then Decreasing
      else Stable
  }

  /** The percentage change from `first` to `second`, 0 from a zero
      baseline. Against a positive baseline it exceeds +5 exactly when
      `second` is above 1.05 `first` and falls below -5 exactly when
      `second` is below 0.95 `first`; a negative baseline reverses both. */
  function PercentChange(first: real, second: real): (r: real)
    ensures first == 0.0 ==> r == 0.0
    ensures first > 0.0 ==> (r > 5.0 <==> second > 1.05 * first) && (r < -5.0 <==> second < 0.95 * first)
    ensures first < 0.0 ==> (r > 5.0 <==> second < 1.05 * first) && (r < -5.0 <==> second > 0.95 * first)
  {
    if first != 0.0 then (second - first) / first * 100.0 else 0.0
  }

  /** Fewer than two values, or a first half averaging zero, is stable. */
  lemma TrendStableCases(values: seq<real>)
    requires |values| < 2 || FirstHalfMean(values) == 0.0
    ensures CalculateTrend(values) == Stable
  {
  }

  /** From a positive first-half mean m1: increasing exactly when the
      second-half mean exceeds 1.05 m1, decreasing exactly when it is below
      0.95 m1. */
  lemma TrendFromPositiveBaseline(values: seq<real>)
    requires |values| >= 2 && FirstHalfMean(values) > 0.0
    ensures var m1, m2 := FirstHalfMean(values), SecondHalfMean(values);
      (CalculateTrend(values) == Increasing <==> m2 > 1.05 * m1) &&
      (CalculateTrend(values) == Decreasing <==> m2 < 0.95 * m1)
  {
  }

  /** From a negative first-half mean the comparison is reversed, as the
      change is divided by a negative number: a series of losses that
      deepens by more than 5% reads as increasing, and one whose losses
      shrink by more than 5% reads as decreasing. */
  lemma TrendFromNegativeBaseline(values: seq<real>)
    requires |values| >= 2 && FirstHalfMean(values) < 0.0
    ensures var m1, m2 := FirstHalfMean(values), SecondHalfMean(values);
      (CalculateTrend(values) == Increasing <==> m2 < 1.05 * m1) &&
      (CalculateTrend(values) == Decreasing <==> m2 > 0.95 * m1)
  {
  }

  /** A constant series of two or more values is stable. */
  lemma ConstantSeriesIsStable(values: seq<real>, c: real)
    requires |values| >= 2
    requires forall i :: 0 <= i < |values| ==> values[i] == c
    ensures CalculateTrend(values) == Stable
  {
    var h := |values| / 2;
    SumRealsConstant(values[..h], c);
    SumRealsConstant(values[h..], c);
    assert FirstHalfMean(values) == c;
    assert SecondHalfMean(values) == c;
  }

  // ------------------------------------------------------------ metrics

  /** The metrics dictionary; a None field is a key the calculation did not set. */
  datatype Metrics = Metrics(
    totalRevenue: Option<real>,
    avgQuarterlyRevenue: Option<real>,
    revenueTrend: Option<Trend>,
    totalProfit: Option<real>,
    profitMargin: Option<real>,
    profitTrend: Option<Trend>,
    avgCac: Option<real>,
    cacTrend: Option<Trend>,
    currentHeadcount: Option<int>,
    headcountChange: Option<int>,
    currentChurn: Option<real>,
    avgChurn: Option<real>,
    currentPipeline: Option<real>,
    quarterlyDeals: Option<int>,
    avgDealSize: Option<real>,
    currentNps: Option<real>,
    currentCsat: Option<real>,
    revenuePerEmployee: Option<real>)

  const NoMetrics: Metrics :=
    Metrics(None, None, None, None, None, None, None, None, None,
            None, None, None, None, None, None, None, None, None)

  /** The non-missing cells of a column, in order (`pd.notna` filter). */
  function Present(col: Column): (r: seq<real>)
    ensures |r| <= |col|
  {
    if col == [] then []
    else Present(col[..|col| - 1]) + (if col[|col| - 1].Some? then [col[|col| - 1].value] else [])
  }

  /** The filter keeps exactly the present cells: a value is kept iff some
      cell holds it. */
  lemma {:induction false} PresentKeepsValues(col: Column)
    ensures forall x :: x in Present(col) <==> Some(x) in col
  {
    if col != [] {
      var init := col[..|col| - 1];
      PresentKeepsValues(init);
      assert col == init + [col[|col| - 1]];
      forall x ensures Some(x) in col <==> Some(x) in init || Some(x) == col[|col| - 1] {
      }
    }
  }

  /** A column with no missing cell is kept whole, in order. */
  lemma {:induction false} PresentKeepsFullColumn(col: Column)
    requires forall i :: 0 <= i < |col| ==> col[i].Some?
    ensures |Present(col)| == |col| && forall i :: 0 <= i < |col| ==> Present(col)[i] == col[i].value
  {
    if col != [] {
      var init := col[..|col| - 1];
      PresentKeepsFullColumn(init);
      assert Present(col) == Present(init) + [col[|col| - 1].value];
    }
  }

  /** `int(x)` on each value. */
  function Truncated(xs: seq<real>): (r: seq<int>)
    ensures |r| == |xs| && forall i :: 0 <= i < |xs| ==> r[i] == Trunc(xs[i])
  {
    seq(|xs|, i requires 0 <= i < |xs| => Trunc(xs[i]))
  }

  function Mean(xs: seq<real>): real
    requires xs != []
  {
    SumReals(xs) / |xs| as real
  }

  /** The column behind a standard name, with missing cells dropped. */
  function Values(raw: map<string, Column>, key: string): seq<real>
    requires key in raw
  {
    Present(raw[key])
  }

  /** Last value or a default; mean or a default. */
  function LastOr(xs: seq<real>, d: real): real
  {
    if xs == [] then d else xs[|xs| - 1]
  }

  function MeanOr(xs: seq<real>, d: real): real
  {
    if xs == [] then d else Mean(xs)
  }

  /** The values of a column, or none when the column is absent. */
  function ValuesOrNone(raw: map<string, Column>, key: string): seq<real>
  {
    if key in raw then Values(raw, key) else []
  }

  /** Revenue block: total, mean (0 without values) and trend, set exactly
      when a revenue column is present. */
  function TotalRevenueOf(raw: map<string, Column>): Option<real>
  {
    if "revenue" in raw then Some(SumReals(Values(raw, "revenue"))) else None
  }

  function AvgQuarterlyRevenueOf(raw: map<string, Column>): Option<real>
  {
    if "revenue" in raw then Some(MeanOr(Values(raw, "revenue"), 0.0)) else None
  }

  function RevenueTrendOf(raw: map<string, Column>): Option<Trend>
  {
    if "revenue" in raw then Some(CalculateTrend(Values(raw, "revenue"))) else None
  }

  /** Profit block; the margin is against the total revenue, and 0 when that
      is absent or zero. */
  function TotalProfitOf(raw: map<string, Column>): Option<real>
  {
    if "profit" in raw then Some(SumReals(Values(raw, "profit"))) else None
  }

  function ProfitMarginOf(raw: map<string, Column>): Option<real>
  {
    if "profit" !in raw then None
    else
      var revenue := TotalRevenueOf(raw);
      if revenue.Some? && revenue.value != 0.0 then Some(SumReals(Values(raw, "profit")) / revenue.value * 100.0)
      else Some(0.0)
  }

  function ProfitTrendOf(raw: map<string, Column>): Option<Trend>
  {
    if "profit" in raw then Some(CalculateTrend(Values(raw, "profit"))) else None
  }

  /** Acquisition cost: the mean of its own column (385 without values), or
      else marketing spend over new customers (385 without customers). */
  function AvgCacOf(raw: map<string, Column>): Option<real>
  {
    if "cac" in raw then Some(MeanOr(Values(raw, "cac"), 385.0))
    else if "marketing_spend" in raw && "new_customers" in raw then
      var customers := SumReals(Values(raw, "new_customers"));
      Some(if customers > 0.0 then SumReals(Values(raw, "marketing_spend")) / customers else 385.0)
    else None
  }

  function CacTrendOf(raw: map<string, Column>): Option<Trend>
  {
    if "cac" in raw then Some(CalculateTrend(Values(raw, "cac"))) else None
  }

  /** `current_headcount`: the last truncated headcount, 620 without data. */
  function HeadcountOf(raw: map<string, Column>): int
  {
    var hs := Truncated(ValuesOrNone(raw, "headcount"));
    if hs != [] then hs[|hs| - 1] else 620
  }

  /** `headcount_change`: last minus first truncated headcount, 0 with fewer
      than two values; set only when the column is present. */
  function HeadcountChangeOf(raw: map<string, Column>): Option<int>
  {
    if "headcount" !in raw then None
    else
      var hs := Truncated(Values(raw, "headcount"));
      Some(if |hs| > 1 then hs[|hs| - 1] - hs[0] else 0)
  }

  /** Churn: the last churn rate, else 1 - last retention / 100, else 0.08. */
  function CurrentChurnOf(raw: map<string, Column>): real
  {
    if "churn_rate" in raw then LastOr(Values(raw, "churn_rate"), 0.08)
    else if "retention_rate" in raw && Values(raw, "retention_rate") != [] then
      1.0 - LastOr(Values(raw, "retention_rate"), 0.0) / 100.0
    else 0.08
  }

  function AvgChurnOf(raw: map<string, Column>): Option<real>
  {
    if "churn_rate" in raw then Some(MeanOr(Values(raw, "churn_rate"), 0.08)) else None
  }

  /** A last value of a present column, with the default when it holds none. */
  function LastOf(raw: map<string, Column>, key: string, default: real): Option<real>
  {
    if key in raw then Some(LastOr(Values(raw, key), default)) else None
  }

  function QuarterlyDealsOf(raw: map<string, Column>): Option<int>
  {
    if "deals_closed" !in raw then None
    else
      var deals := Truncated(Values(raw, "deals_closed"));
      Some(if deals != [] then deals[|deals| - 1] else 45)
  }

  function AvgDealSizeOf(raw: map<string, Column>): Option<real>
  {
    if "avg_deal_size" in raw then Some(MeanOr(Values(raw, "avg_deal_size"), 85000.0)) else None
  }

  /** Python's message for a division by zero: an integer zero numerator
      (the sum of no revenues) gives the plain message. */
  function DivisionError(integerNumerator: bool): string
  {
    if integerNumerator then "division by zero" else "float division by zero"
  }

  /** What `_calculate_metrics` produces: each field is set exactly when its
      source column is present (headcount and churn always), with the stated
      default when the column holds no values. The division for revenue per
      employee fails when a revenue column is present and the headcount is 0:
      with an integer zero numerator when the column holds no values. */
  function MetricsOf(raw: map<string, Column>): Result<Metrics>
  {
    var headcount := HeadcountOf(raw);
    var revenue := TotalRevenueOf(raw);
    if revenue.Some? && headcount == 0 then
      Failure(DivisionError(Values(raw, "revenue") == []))
    else
      Success(Metrics(
        totalRevenue := revenue,
        avgQuarterlyRevenue := AvgQuarterlyRevenueOf(raw),
        revenueTrend := RevenueTrendOf(raw),
        totalProfit := TotalProfitOf(raw),
        profitMargin := ProfitMarginOf(raw),
        profitTrend := ProfitTrendOf(raw),
        avgCac := AvgCacOf(raw),
        cacTrend := CacTrendOf(raw),
        currentHeadcount := Some(headcount),
        headcountChange := HeadcountChangeOf(raw),
        currentChurn := Some(CurrentChurnOf(raw)),
        avgChurn := AvgChurnOf(raw),
        currentPipeline := LastOf(raw, "pipeline", 2500000.0),
        quarterlyDeals := QuarterlyDealsOf(raw),
        avgDealSize := AvgDealSizeOf(raw),
        currentNps := LastOf(raw, "nps", 42.0),
        currentCsat := LastOf(raw, "csat", 4.2),
        revenuePerEmployee := if revenue.Some? then Some(revenue.value / headcount as real) else None))
  }

  /** The metrics record filled key by key, every key but the revenue per
      employee set as `MetricsOf` sets it. */
  predicate FieldsMatch(raw: map<string, Column>, m: Metrics)
  {
    m.totalRevenue == TotalRevenueOf(raw) && m.avgQuarterlyRevenue == AvgQuarterlyRevenueOf(raw) &&
    m.revenueTrend == RevenueTrendOf(raw) && m.totalProfit == TotalProfitOf(raw) &&
    m.profitMargin == ProfitMarginOf(raw) && m.profitTrend == ProfitTrendOf(raw) &&
    m.avgCac == AvgCacOf(raw) && m.cacTrend == CacTrendOf(raw) &&
    m.currentHeadcount == Some(HeadcountOf(raw)) && m.headcountChange == HeadcountChangeOf(raw) &&
    m.currentChurn == Some(CurrentChurnOf(raw)) && m.avgChurn == AvgChurnOf(raw) &&
    m.currentPipeline == LastOf(raw, "pipeline", 2500000.0) && m.quarterlyDeals == QuarterlyDealsOf(raw) &&
    m.avgDealSize == AvgDealSizeOf(raw) && m.currentNps == LastOf(raw, "nps", 42.0) &&
    m.currentCsat == LastOf(raw, "csat", 4.2) && m.revenuePerEmployee.None?
  }

  /** Once every other key is set, the last step decides between the
      division error and the record with the revenue per employee. */
  lemma MetricsFromFields(raw: map<string, Column>, m: Metrics)
    requires FieldsMatch(raw, m)
    ensures m.totalRevenue.Some? ==> "revenue" in raw
    ensures m.totalRevenue.Some? && m.currentHeadcount.value == 0 ==>
      MetricsOf(raw) == Failure(DivisionError(Values(raw, "revenue") == []))
    ensures m.totalRevenue.Some? && m.currentHeadcount.value != 0 ==>
      MetricsOf(raw) == Success(m.(revenuePerEmployee := Some(m.totalRevenue.value / m.currentHeadcount.value as real)))
    ensures m.totalRevenue.None? ==> MetricsOf(raw) == Success(m)
  {
  }

  /** Headcount and churn are always set, with 620 and 0.08 when the sheet
      has no such column. */
  lemma MetricsAlwaysSetHeadcountAndChurn(raw: map<string, Column>)
    requires MetricsOf(raw).Success?
    ensures var m := MetricsOf(raw).value;
      m.currentHeadcount.Some? && m.currentChurn.Some? &&
      ("headcount" !in raw ==> m.currentHeadcount == Some(620)) &&
      ("churn_rate" !in raw && "retention_rate" !in raw ==> m.currentChurn == Some(0.08))
  {
  }

  /** The headcount change is last minus first over at least two values,
      otherwise 0. */
  lemma HeadcountChangeRule(raw: map<string, Column>)
    requires "headcount" in raw && MetricsOf(raw).Success?
    ensures var hs := Values(raw, "headcount");
      MetricsOf(raw).value.headcountChange ==
        Some(if |hs| > 1 then Trunc(hs[|hs| - 1]) - Trunc(hs[0]) else 0)
  {
  }

  /** The acquisition cost falls back to 385 when its column has no values,
      or when derived from spend over customers and there are no customers. */
  lemma AvgCacFallback(raw: map<string, Column>)
    requires MetricsOf(raw).Success?
    ensures ("cac" in raw && Values(raw, "cac") == []) ==> MetricsOf(raw).value.avgCac == Some(385.0)
    ensures ("cac" !in raw && "marketing_spend" in raw && "new_customers" in raw &&
             SumReals(Values(raw, "new_customers")) <= 0.0) ==> MetricsOf(raw).value.avgCac == Some(385.0)
  {
  }

  /** Each revenue, profit and acquisition-cost key is set exactly when its
      column (or, for the cost, the spend and customer columns) is present;
      the margin is a share of a non-zero revenue total, else 0. */
  lemma MetricsKeysFollowColumns(raw: map<string, Column>)
    requires MetricsOf(raw).Success?
    ensures var m := MetricsOf(raw).value;
      (m.totalRevenue.Some? <==> "revenue" in raw) &&
      (m.revenuePerEmployee.Some? <==> "revenue" in raw) &&
      (m.totalProfit.Some? <==> "profit" in raw) &&
      (m.profitMargin.Some? <==> "profit" in raw) &&
      (m.avgCac.Some? <==> "cac" in raw || ("marketing_spend" in raw && "new_customers" in raw)) &&
      (m.cacTrend.Some? <==> "cac" in raw) &&
      (m.headcountChange.Some? <==> "headcount" in raw) &&
      ("profit" in raw && ("revenue" !in raw || SumReals(Values(raw, "revenue")) == 0.0) ==> m.profitMargin == Some(0.0))
  {
  }

  /** Churn from a retention percentage in [0, 100] is a rate in [0, 1]. */
  lemma ChurnFromRetentionIsRate(raw: map<string, Column>)
    requires "churn_rate" !in raw && "retention_rate" in raw
    requires forall x :: x in Values(raw, "retention_rate") ==> 0.0 <= x <= 100.0
    ensures 0.0 <= CurrentChurnOf(raw) <= 1.0
  {
    var rs := Values(raw, "retention_rate");
    if rs != [] {
      assert rs[|rs| - 1] in rs;
    }
  }

  /** The calculation fails exactly when revenue is present and the
      headcount it divides by is 0. */
  lemma MetricsFailureIff(raw: map<string, Column>)
    ensures MetricsOf(raw).Failure? <==> "revenue" in raw && HeadcountOf(raw) == 0
  {
  }

  // ------------------------------------------------------------ filling the metrics

  /** The revenue keys: total, mean (0 without values) and trend. */
  method FillRevenue(raw: map<string, Column>, m: Metrics) returns (r: Metrics)
    ensures r == m.(totalRevenue := TotalRevenueOf(raw), avgQuarterlyRevenue := AvgQuarterlyRevenueOf(raw),
                    revenueTrend := RevenueTrendOf(raw))
  {
    r := m.(totalRevenue := None, avgQuarterlyRevenue := None, revenueTrend := None);
    if "revenue" in raw {
      var revenues := Values(raw, "revenue");
      r := r.(totalRevenue := Some(SumReals(revenues)),
              avgQuarterlyRevenue := Some(if revenues != [] then SumReals(revenues) / |revenues| as real else 0.0),
              revenueTrend := Some(CalculateTrend(revenues)));
    }
  }

  /** The profit keys; the margin reads the revenue total set before it. */
  method FillProfit(raw: map<string, Column>, m: Metrics) returns (r: Metrics)
    requires m.totalRevenue == TotalRevenueOf(raw)
    ensures r == m.(totalProfit := TotalProfitOf(raw), profitMargin := ProfitMarginOf(raw),
                    profitTrend := ProfitTrendOf(raw))
  {
    r := m.(totalProfit := None, profitMargin := None, profitTrend := None);
    if "profit" in raw {
      var profits := Values(raw, "profit");
      r := r.(totalProfit := Some(SumReals(profits)),
              profitMargin := Some(if m.totalRevenue.Some? && m.totalRevenue.value != 0.0
                                   then SumReals(profits) / m.totalRevenue.value * 100.0 else 0.0),
              profitTrend := Some(CalculateTrend(profits)));
    }
  }

  /** The acquisition-cost keys: from its own column, or else from spend
      over new customers. */
  method FillCac(raw: map<string, Column>, m: Metrics) returns (r: Metrics)
    ensures r == m.(avgCac := AvgCacOf(raw), cacTrend := CacTrendOf(raw))
  {
    r := m.(avgCac := None, cacTrend := None);
    if "cac" in raw {
      var cacs := Values(raw, "cac");
      r := r.(avgCac := Some(if cacs != [] then SumReals(cacs) / |cacs| as real else 385.0),
              cacTrend := Some(CalculateTrend(cacs)));
    } else if "marketing_spend" in raw && "new_customers" in raw {
      var marketing := SumReals(Values(raw, "marketing_spend"));
      var customers := SumReals(Values(raw, "new_customers"));
      r := r.(avgCac := Some(if customers > 0.0 then marketing / customers else 385.0));
    }
  }

  /** The headcount keys; the current headcount is always set. */
  method FillHeadcount(raw: map<string, Column>, m: Metrics) returns (r: Metrics)
    ensures r == m.(currentHeadcount := Some(HeadcountOf(raw)), headcountChange := HeadcountChangeOf(raw))
  {
    if "headcount" in raw {
      var headcounts := Truncated(Values(raw, "headcount"));
      r := m.(currentHeadcount := Some(if headcounts != [] then headcounts[|headcounts| - 1] else 620),
              headcountChange := Some(if |headcounts| > 1 then headcounts[|headcounts| - 1] - headcounts[0] else 0));
    } else {
      r := m.(currentHeadcount := Some(620), headcountChange := None);
    }
  }

  /** The churn keys; the current churn is always set. */
  method FillChurn(raw: map<string, Column>, m: Metrics) returns (r: Metrics)
    ensures r == m.(currentChurn := Some(CurrentChurnOf(raw)), avgChurn := AvgChurnOf(raw))
  {
    if "churn_rate" in raw {
      var churns := Values(raw, "churn_rate");
      r := m.(currentChurn := Some(if churns != [] then churns[|churns| - 1] else 0.08),
              avgChurn := Some(if churns != [] then SumReals(churns) / |churns| as real else 0.08));
    } else if "retention_rate" in raw {
      var retentions := Values(raw, "retention_rate");
      r := m.(currentChurn := Some(if retentions != [] then 1.0 - retentions[|retentions| - 1] / 100.0 else 0.08),
              avgChurn := None);
    } else {
      r := m.(currentChurn := Some(0.08), avgChurn := None);
    }
  }

  /** The pipeline, deal, NPS and CSAT keys: each the latest (or mean)
      value of its column, with a default when it holds none. */
  method FillLatest(raw: map<string, Column>, m: Metrics) returns (r: Metrics)
    ensures r == m.(currentPipeline := LastOf(raw, "pipeline", 2500000.0), quarterlyDeals := QuarterlyDealsOf(raw),
                    avgDealSize := AvgDealSizeOf(raw), currentNps := LastOf(raw, "nps", 42.0),
                    currentCsat := LastOf(raw, "csat", 4.2))
  {
    r := m.(currentPipeline := None, quarterlyDeals := None, avgDealSize := None, currentNps := None, currentCsat := None);
    if "pipeline" in raw {
      var pipelines := Values(raw, "pipeline");
      r := r.(currentPipeline := Some(if pipelines != [] then pipelines[|pipelines| - 1] else 2500000.0));
    }
    if "deals_closed" in raw {
      var deals := Truncated(Values(raw, "deals_closed"));
      r := r.(quarterlyDeals := Some(if deals != [] then deals[|deals| - 1] else 45));
    }
    if "avg_deal_size" in raw {
      var sizes := Values(raw, "avg_deal_size");
      r := r.(avgDealSize := Some(if sizes != [] then SumReals(sizes) / |sizes| as real else 85000.0));
    }
    if "nps" in raw {
      var scores := Values(raw, "nps");
      r := r.(currentNps := Some(if scores != [] then scores[|scores| - 1] else 42.0));
    }
    if "csat" in raw {
      var scores := Values(raw, "csat");
      r := r.(currentCsat := Some(if scores != [] then scores[|scores| - 1] else 4.2));
    }
  }

  // ------------------------------------------------------------ the profile

  /** What `process_csv` returns: the success record, or the error message. */
  datatype UploadResult =
    | UploadSuccess(message: string, metrics: Metrics, detectedColumns: seq<string>)
    | UploadError(message: string)

  /** The uploaded data: the standardised columns, the metrics computed from
      them and whether an upload has succeeded. */
  class CompanyDataProfile {
    var rawData: Columns
    var metrics: Metrics
    var isLoaded: bool

    constructor ()
      ensures rawData == EmptyColumns && metrics == NoMetrics && !isLoaded
    {
      rawData := EmptyColumns;
      metrics := NoMetrics;
      isLoaded := false;
    }

    /** `_standardize_columns`: bind each standard field to the first alias
        present, stopping at the first hit; if nothing bound, keep every
        column under its normalised name. */
    method StandardizeColumns(t: Table) returns (standardized: Columns)
      ensures standardized == Standardize(t)
    {
      standardized := EmptyColumns;
      var dfLower := LowerIndex(t.columns);
      for n := 0 to FieldCount
        invariant standardized == BoundPrefix(t, n)
      {
        var f := FieldAt(n);
        var possibleNames := Aliases(f);
        var j := 0;
        while j < |possibleNames|
          invariant j <= |possibleNames|
          invariant standardized == BoundPrefix(t, n)
          invariant AliasesAbsent(possibleNames, dfLower, j)
        {
          if possibleNames[j] in dfLower {
            var originalCol := dfLower[possibleNames[j]];
            FirstAliasAt(possibleNames, dfLower, j);
            standardized := Put(standardized, FieldName(f), t.columns[originalCol].1);
            break;
          }
          AliasesAbsentStep(possibleNames, dfLower, j);
          j := j + 1;
        }
        if j == |possibleNames| {
          NoAliasFound(possibleNames, dfLower);
        }
      }
      assert standardized == BoundPrefix(t, FieldCount);
      if standardized.keys == [] {
        BoundPrefixValid(t, FieldCount);
        NoKeysIsEmpty(standardized);
        for i := 0 to |t.columns|
          invariant standardized == AllPrefix(t.columns, i)
        {
          standardized := Put(standardized, Normalize(t.columns[i].0), t.columns[i].1);
          assert standardized == AllPrefix(t.columns, i + 1);
        }
      }
    }

    /** `process_csv`: a sheet that could not be read leaves the profile as
        it was; otherwise the columns are replaced, and only if the metrics
        can be computed are the metrics replaced and the profile marked
        loaded. Nothing ever marks it unloaded. */
    method ProcessCsv(content: Result<Table>) returns (r: UploadResult)
      modifies this
      ensures old(isLoaded) ==> isLoaded
      ensures content.Failure? ==>
        r == UploadError(content.error) &&
        rawData == old(rawData) && metrics == old(metrics) && isLoaded == old(isLoaded)
      ensures content.Success? ==> rawData == Standardize(content.value)
      ensures content.Success? && MetricsOf(rawData.data).Success? ==>
        metrics == MetricsOf(rawData.data).value && isLoaded &&
        r == UploadSuccess("Processed " + IntToString(content.value.rowCount) + " records",
                           metrics, rawData.keys)
      ensures content.Success? && MetricsOf(rawData.data).Failure? ==>
        r == UploadError(MetricsOf(rawData.data).error) &&
        metrics == old(metrics) && isLoaded == old(isLoaded)
      ensures r.UploadSuccess? <==> content.Success? && MetricsOf(Standardize(content.value).data).Success?
    {
      if content.Failure? {
        return UploadError(content.error);
      }
      var df := content.value;
      var standardized := StandardizeColumns(df);
      rawData := standardized;
      var calculated := CalculateMetrics();
      if calculated.Failure? {
        return UploadError(calculated.error);
      }
      metrics := calculated.value;
      isLoaded := true;
      r := UploadSuccess("Processed " + IntToString(df.rowCount) + " records", metrics, rawData.keys);
    }

    /** `_calculate_metrics`: fill the metrics record key by key from the
        standardised columns, group by group; the final division by the
        headcount raises when that is 0. */
    method CalculateMetrics() returns (r: Result<Metrics>)
      ensures r == MetricsOf(rawData.data)
    {
      var raw := rawData.data;
      var m := NoMetrics;
      m := FillRevenue(raw, m);
      m := FillProfit(raw, m);
      m := FillCac(raw, m);
      m := FillHeadcount(raw, m);
      m := FillChurn(raw, m);
      m := FillLatest(raw, m);
      MetricsFromFields(raw, m);
      if m.totalRevenue.Some? && m.currentHeadcount.Some? {
        if m.currentHeadcount.value == 0 {
          return Failure(DivisionError(Values(raw, "revenue") == []));
        }
        m := m.(revenuePerEmployee := Some(m.totalRevenue.value / m.currentHeadcount.value as real));
      }
      r := Success(m);
    }

    /** `get_baseline_for_agent`: the figures an agent starts from, with a
        default for every metric the upload did not provide. */
    function GetBaselineForAgent(agentName: string): (r: map<string, real>)
      reads this
      ensures agentName !in AgentNames ==> r == map[]
    {
      var headcount := metrics.currentHeadcount.GetOr(620) as real;
      var revenue := metrics.totalRevenue.GetOr(10000000.0);
      var csat := metrics.currentCsat.GetOr(4.2);
      var deals := metrics.quarterlyDeals.GetOr(45) as real;
      if agentName == "Sales" then
        map["current_pipeline" := metrics.currentPipeline.GetOr(2500000.0),
            "quarterly_deals" := deals,
            "avg_deal_size" := metrics.avgDealSize.GetOr(85000.0),
            "headcount" := Trunc(headcount * 0.16) as real]
      else if agentName == "Marketing" then
        map["current_cac" := metrics.avgCac.GetOr(385.0),
            "marketing_spend" := revenue * 0.12,
            "lead_volume" := deals * 5.0]
      else if agentName == "Finance" then
        map["profit_margin" := metrics.profitMargin.GetOr(15.0),
            "total_revenue" := revenue,
            "operating_costs" := revenue - metrics.totalProfit.GetOr(1500000.0)]
      else if agentName == "Operations" then
        map["headcount" := Trunc(headcount * 0.25) as real,
            "csat" := csat]
      else if agentName == "Support" then
        map["headcount" := Trunc(headcount * 0.20) as real,
            "csat" := csat,
            "nps" := metrics.currentNps.GetOr(42.0)]
      else if agentName == "HR" then
        map["total_headcount" := headcount,
            "churn_rate" := metrics.currentChurn.GetOr(0.08),
            "revenue_per_employee" := metrics.revenuePerEmployee.GetOr(16000.0)]
      else map[]
    }

    /** `adjust_calculations`: on a copy of the agent's figures, rescale the
        budget impact by revenue against 10M and the headcount impact by
        headcount against 620, then move the confidence by the profit trend. */
    function AdjustCalculations(baseValues: map<string, real>, agentName: string): (r: map<string, real>)
      reads this
      ensures !isLoaded ==> r == baseValues
    {
      if !isLoaded then baseValues
      else
        var budget :=
          if metrics.totalRevenue.Some? then
            map["budgetImpact" := RoundedProduct(GetOr(baseValues, "budgetImpact", 0.0), metrics.totalRevenue.value / 10000000.0) as real]
          else map[];
        var headcount :=
          if metrics.currentHeadcount.Some? then
            map["headcountImpact" := RoundedProduct(GetOr(baseValues, "headcountImpact", 0.0), metrics.currentHeadcount.value as real / 620.0) as real]
          else map[];
        var confidence :=
          if metrics.profitTrend == Some(Decreasing) then
            map["confidence" := Max(50.0, GetOr(baseValues, "confidence", 85.0) - 10.0)]
          else if metrics.profitTrend == Some(Increasing) then
            map["confidence" := Min(99.0, GetOr(baseValues, "confidence", 85.0) + 5.0)]
          else map[];
        baseValues + budget + headcount + confidence
    }
  }

  /** `dict.get(key, default)`. */
  function GetOr(m: map<string, real>, key: string, default: real): real
  {
    if key in m then m[key] else default
  }

  // ------------------------------------------------------------ profile properties

  /** Every key other than the three adjusted figures is copied unchanged,
      and no key is dropped. */
  lemma AdjustChangesOnlyThreeFigures(p: CompanyDataProfile, baseValues: map<string, real>, agentName: string)
    ensures var r := p.AdjustCalculations(baseValues, agentName);
      (forall k :: k in baseValues ==> k in r) &&
      (forall k :: k in r && k != "budgetImpact" && k != "headcountImpact" && k != "confidence" ==>
         k in baseValues && r[k] == baseValues[k])
  {
  }

  /** A falling profit trend lowers the confidence by 10 but never below 50;
      a rising one raises it by 5 but never above 99; so a confidence in
      [50, 99] stays in [50, 99]. */
  lemma AdjustConfidenceBounded(p: CompanyDataProfile, baseValues: map<string, real>, agentName: string)
    requires p.isLoaded && p.metrics.profitTrend.Some? && p.metrics.profitTrend.value != Stable
    ensures var r := p.AdjustCalculations(baseValues, agentName);
      var c := GetOr(baseValues, "confidence", 85.0);
      "confidence" in r &&
      (p.metrics.profitTrend == Some(Decreasing) ==> r["confidence"] == Max(50.0, c - 10.0) && r["confidence"] >= 50.0) &&
      (p.metrics.profitTrend == Some(Increasing) ==> r["confidence"] == Min(99.0, c + 5.0) && r["confidence"] <= 99.0) &&
      (50.0 <= c <= 99.0 ==> 50.0 <= r["confidence"] <= 99.0)
  {
  }

  /** On a loaded profile, an uploaded revenue rescales the budget impact
      by revenue against 10M through Python's rounding, with 0 for a
      missing figure; without the upload the figure is copied as it was. */
  lemma AdjustRescalesBudget(p: CompanyDataProfile, baseValues: map<string, real>, agentName: string)
    requires p.isLoaded
    ensures var r := p.AdjustCalculations(baseValues, agentName);
      var b := GetOr(baseValues, "budgetImpact", 0.0);
      (p.metrics.totalRevenue.Some? ==>
         var k := p.metrics.totalRevenue.value / 10000000.0;
         "budgetImpact" in r && r["budgetImpact"].Floor as real == r["budgetImpact"] &&
         b * k - 0.5 <= r["budgetImpact"] <= b * k + 0.5 && r["budgetImpact"] == RoundedProduct(b, k) as real) &&
      (p.metrics.totalRevenue.None? ==>
         ("budgetImpact" in r <==> "budgetImpact" in baseValues) && GetOr(r, "budgetImpact", 0.0) == b)
  {
  }

  /** On a loaded profile, an uploaded headcount rescales the headcount
      impact by headcount against 620 through Python's rounding, with 0 for
      a missing figure; without the upload the figure is copied as it was. */
  lemma AdjustRescalesHeadcount(p: CompanyDataProfile, baseValues: map<string, real>, agentName: string)
    requires p.isLoaded
    ensures var r := p.AdjustCalculations(baseValues, agentName);
      var h := GetOr(baseValues, "headcountImpact", 0.0);
      (p.metrics.currentHeadcount.Some? ==>
         var k := p.metrics.currentHeadcount.value as real / 620.0;
         "headcountImpact" in r && r["headcountImpact"].Floor as real == r["headcountImpact"] &&
         h * k - 0.5 <= r["headcountImpact"] <= h * k + 0.5 && r["headcountImpact"] == RoundedProduct(h, k) as real) &&
      (p.metrics.currentHeadcount.None? ==>
         ("headcountImpact" in r <==> "headcountImpact" in baseValues) && GetOr(r, "headcountImpact", 0.0) == h)
  {
  }

  /** A company of the reference size (10M revenue, 620 employees) gets its
      whole-number impacts back unchanged, a missing one as 0. */
  lemma AdjustAtReferenceSize(p: CompanyDataProfile, baseValues: map<string, real>, agentName: string)
    requires p.isLoaded && p.metrics.totalRevenue == Some(10000000.0) && p.metrics.currentHeadcount == Some(620)
    requires "budgetImpact" in baseValues ==> baseValues["budgetImpact"].Floor as real == baseValues["budgetImpact"]
    requires "headcountImpact" in baseValues ==> baseValues["headcountImpact"].Floor as real == baseValues["headcountImpact"]
    ensures var r := p.AdjustCalculations(baseValues, agentName);
      "budgetImpact" in r && r["budgetImpact"] == GetOr(baseValues, "budgetImpact", 0.0) &&
      "headcountImpact" in r && r["headcountImpact"] == GetOr(baseValues, "headcountImpact", 0.0)
  {
    PyRoundOfWhole(GetOr(baseValues, "budgetImpact", 0.0).Floor);
    PyRoundOfWhole(GetOr(baseValues, "headcountImpact", 0.0).Floor);
  }

  /** The workforce shares handed to Sales, Operations and Support (16%, 25%
      and 20%) together never exceed the headcount they are taken from. */
  lemma BaselineHeadcountsWithinWorkforce(p: CompanyDataProfile)
    requires p.metrics.currentHeadcount.GetOr(620) >= 0
    ensures p.GetBaselineForAgent("Sales")["headcount"] + p.GetBaselineForAgent("Operations")["headcount"]
          + p.GetBaselineForAgent("Support")["headcount"]
        <= p.GetBaselineForAgent("HR")["total_headcount"]
  {
  }
}
