/**
 * The older single-page calculator: its own rate table, its own cost formula
 * (output words count 0.75 tokens each, INR at 83) and a comparison of every
 * model's cost against the mean.
 */
module Calculator {
  import opened Types
  import opened ListOps
  import ModelPricing
  import CostCalculator

  /** Rupees per dollar in this variant. */
  const ExchangeRate: real := 83.0

  /** Tokens per input word and per output word in this variant. */
  const InputWordRatio: real := 1.333
  const OutputWordRatio: real := 0.75

  /** A row of the older rate table: no id, context window or features. */
  datatype LegacyModel = LegacyModel(name: string, provider: Provider, inputCost: real, outputCost: real)

  const LegacyModels: seq<LegacyModel> := [
    LegacyModel("GPT-4 Turbo", OpenAI, 10.0, 30.0),
    LegacyModel("GPT-3.5 Turbo", OpenAI, 0.5, 1.5),
    LegacyModel("Claude 3 Opus", Anthropic, 15.0, 75.0),
    LegacyModel("Claude 3 Sonnet", Anthropic, 3.0, 15.0),
    LegacyModel("Mixtral 8x7B", Groq, 7.0, 24.0)
  ]

  /** The older table lists the catalog's models, in catalog order, at the catalog's rates. */
  lemma LegacyTableMatchesCatalog()
    ensures |LegacyModels| == |ModelPricing.Catalog|
    ensures forall i :: 0 <= i < |LegacyModels| ==>
      LegacyModels[i].name == ModelPricing.Catalog[i].name
      && LegacyModels[i].provider == ModelPricing.Catalog[i].provider
      && LegacyModels[i].inputCost == ModelPricing.Catalog[i].inputCost
      && LegacyModels[i].outputCost == ModelPricing.Catalog[i].outputCost
  {
  }

  datatype CalculatorInputs = CalculatorInputs(
    inputText: real,
    outputText: real,
    requests: real,
    currency: Currency,
    useTokens: bool)

  /**
   * A row of the comparison table. `comparisonPercentage` is `None` where the
   * original divides by a zero mean and shows NaN or an infinity.
   */
  datatype ModelCosts = ModelCosts(model: LegacyModel, totalCost: real, comparisonPercentage: Option<real>)

  /** The rows whose provider is selected, in table order. */
  function FilterBySelected(ms: seq<LegacyModel>, selected: seq<Provider>): (r: seq<LegacyModel>)
    ensures forall m :: m in r <==> m in ms && m.provider in selected
    ensures forall m :: multiset(r)[m] == if m.provider in selected then multiset(ms)[m] else 0
    ensures IsSubsequence(r, ms)
    decreases |ms|
  {
    if ms == [] then []
    else
      assert ms == [ms[0]] + ms[1..];
      if ms[0].provider in selected then [ms[0]] + FilterBySelected(ms[1..], selected)
      else FilterBySelected(ms[1..], selected)
  }

  /** Sizes and request count are not negative. */
  predicate NonNegativeWorkload(inputs: CalculatorInputs)
  {
    inputs.inputText >= 0.0 && inputs.outputText >= 0.0 && inputs.requests >= 0.0
  }

  /** This variant's cost of one model for the whole workload, in the chosen currency. */
  function TotalCost(inputs: CalculatorInputs, m: LegacyModel): (c: real)
    ensures inputs.requests == 0.0 ==> c == 0.0
    ensures NonNegativeWorkload(inputs) && m.inputCost >= 0.0 && m.outputCost >= 0.0 ==> c >= 0.0
  {
    var inputTokens := if inputs.useTokens then inputs.inputText else inputs.inputText * InputWordRatio;
    var outputTokens := if inputs.useTokens then inputs.outputText else inputs.outputText * OutputWordRatio;
    ((inputTokens * m.inputCost + outputTokens * m.outputCost) * inputs.requests / 1000000.0)
      * (if inputs.currency == INR then ExchangeRate else 1.0)
  }

  /**
   * Word mode is token mode at this variant's ratios: 1.333 tokens per input
   * word and 0.75 per output word.
   */
  lemma WordModeIsTokenModeAtRatios(inputs: CalculatorInputs, m: LegacyModel)
    requires !inputs.useTokens
    ensures TotalCost(inputs, m) ==
      TotalCost(inputs.(useTokens := true, inputText := inputs.inputText * 1.333, outputText := inputs.outputText * 0.75), m)
  {
  }

  /** The same workload costs exactly 83 times as much in rupees as in dollars. */
  lemma InrIsExchangeRateTimesUsd(inputs: CalculatorInputs, m: LegacyModel)
    ensures TotalCost(inputs.(currency := INR), m) == ExchangeRate * TotalCost(inputs.(currency := USD), m)
  {
  }

  /** The shared engine's parameters for this variant's inputs and one row's rates. */
  function EngineParams(inputs: CalculatorInputs, m: LegacyModel): CostCalculator.CostParams
  {
    CostCalculator.CostParams(inputs.inputText, inputs.outputText, inputs.requests, inputs.useTokens, m.inputCost, m.outputCost)
  }

  /** In token mode this variant's dollar cost is the shared engine's dollar total. */
  lemma TokenModeMatchesEngine(inputs: CalculatorInputs, m: LegacyModel)
    requires inputs.useTokens
    ensures TotalCost(inputs.(currency := USD), m) == CostCalculator.CalculateCosts(EngineParams(inputs, m)).costsUSD.total
  {
    CostCalculator.TotalFormula(EngineParams(inputs, m));
  }

  /**
   * In word mode an output word is 0.75 tokens here but 1.333 in the shared
   * engine, so any output makes this variant's dollar cost strictly lower.
   */
  lemma WordModeWeighsOutputLess(inputs: CalculatorInputs, m: LegacyModel)
    requires !inputs.useTokens
    requires inputs.outputText > 0.0 && inputs.requests > 0.0 && m.outputCost > 0.0
    ensures TotalCost(inputs.(currency := USD), m) < CostCalculator.CalculateCosts(EngineParams(inputs, m)).costsUSD.total
  {
    var p := EngineParams(inputs, m);
    CostCalculator.TotalFormula(p);
    var a := inputs.inputText * InputWordRatio * m.inputCost;
    OutputWeighsLess(inputs.outputText, m.outputCost);
    ScaledLess(a, inputs.outputText * OutputWordRatio * m.outputCost, inputs.outputText * CostCalculator.WordToTokenRatio * m.outputCost, inputs.requests);
  }

  lemma OutputWeighsLess(w: real, rate: real)
    requires w > 0.0 && rate > 0.0
    ensures w * OutputWordRatio * rate < w * CostCalculator.WordToTokenRatio * rate
  {
    assert w * rate > 0.0;
    assert w * OutputWordRatio * rate == 0.75 * (w * rate);
    assert w * CostCalculator.WordToTokenRatio * rate == 1.333 * (w * rate);
  }

  lemma ScaledLess(a: real, b1: real, b2: real, k: real)
    requires b1 < b2 && k > 0.0
    ensures (a + b1) * k / 1000000.0 < (a + b2) * k / 1000000.0
  {
    assert (a + b2) * k - (a + b1) * k == (b2 - b1) * k;
  }

  function CostList(inputs: CalculatorInputs, ms: seq<LegacyModel>): (cs: seq<real>)
    ensures |cs| == |ms| && forall i :: 0 <= i < |ms| ==> cs[i] == TotalCost(inputs, ms[i])
  {
    seq(|ms|, i requires 0 <= i < |ms| => TotalCost(inputs, ms[i]))
  }

  /** `((cost - avg) / avg) * 100`, or `None` where `avg` is zero. */
  function ComparisonPercentage(cost: real, avg: real): (p: Option<real>)
    ensures p.None? <==> avg == 0.0
    ensures avg > 0.0 ==> (p.value > 0.0 <==> cost > avg)
    ensures avg > 0.0 ==> (p.value == 0.0 <==> cost == avg)
  {
    if avg == 0.0 then None else Some(((cost - avg) / avg) * 100.0)
  }

  /** Each row of `ms` with its cost and its deviation from `avg`. */
  function Compare(inputs: CalculatorInputs, ms: seq<LegacyModel>, avg: real): (r: seq<ModelCosts>)
    ensures |r| == |ms|
    ensures forall i :: 0 <= i < |r| ==>
      r[i].model == ms[i] && r[i].totalCost == TotalCost(inputs, ms[i])
      && r[i].comparisonPercentage == ComparisonPercentage(r[i].totalCost, avg)
  {
    seq(|ms|, i requires 0 <= i < |ms| => ModelCosts(ms[i], TotalCost(inputs, ms[i]), ComparisonPercentage(TotalCost(inputs, ms[i]), avg)))
  }


  /**
   * The table: one row per selected model of the rate table (the component
   * passes `LegacyModels`), in table order, each with its cost and its
   * deviation from the mean cost of the selected models.
   */
  function CalculateCosts(inputs: CalculatorInputs, models: seq<LegacyModel>, selected: seq<Provider>): (r: seq<ModelCosts>)
    ensures |r| == |FilterBySelected(models, selected)|
    ensures forall i :: 0 <= i < |r| ==> r[i].model == FilterBySelected(models, selected)[i]
    ensures forall m :: (exists i :: 0 <= i < |r| && r[i].model == m) <==> m in models && m.provider in selected
    ensures forall i :: 0 <= i < |r| ==> r[i].totalCost == TotalCost(inputs, r[i].model)
    ensures r != [] ==> forall i :: 0 <= i < |r| ==>
      r[i].comparisonPercentage == ComparisonPercentage(r[i].totalCost, Mean(CostList(inputs, FilterBySelected(models, selected))))
  {
    var ms := FilterBySelected(models, selected);
    if ms == [] then []
    else
      var r := Compare(inputs, ms, Mean(CostList(inputs, ms)));
      assert forall m :: (exists i :: 0 <= i < |r| && r[i].model == m) <==> m in ms by {
        forall m | m in ms ensures exists i :: 0 <= i < |r| && r[i].model == m {
          var i :| 0 <= i < |ms| && ms[i] == m;
          assert r[i].model == m;
        }
      }
      r
  }

  /** `((x - c) / c) * 100` for every element, as the table computes it. */
  function Deviations(xs: seq<real>, c: real): (ds: seq<real>)
    requires c != 0.0
    ensures |ds| == |xs|
    decreases |xs|
  {
    if xs == [] then [] else [((xs[0] - c) / c) * 100.0] + Deviations(xs[1..], c)
  }

  /** Element `i` of the deviations is the deviation of `xs[i]`. */
  lemma {:induction false} DeviationsElements(xs: seq<real>, c: real)
    requires c != 0.0
    ensures forall i :: 0 <= i < |xs| ==> Deviations(xs, c)[i] == ((xs[i] - c) / c) * 100.0
    decreases |xs|
  {
    if xs != [] {
      DeviationsElements(xs[1..], c);
      var ds := Deviations(xs, c);
      forall i | 0 < i < |xs| ensures ds[i] == ((xs[i] - c) / c) * 100.0 {
        assert ds[i] == Deviations(xs[1..], c)[i - 1];
        assert xs[i] == xs[1..][i - 1];
      }
    }
  }

  /** The deviations from a non-zero mean, in percent, add up to zero. */
  lemma ComparisonsSumToZero(costs: seq<real>)
    requires costs != [] && Mean(costs) != 0.0
    ensures Sum(Deviations(costs, Mean(costs))) == 0.0
  {
    var avg := Mean(costs);
    ScaledDeviationsSum(costs, avg);
    MeanTimesCount(Sum(costs), |costs| as real);
  }

  /** The comparison column of a non-empty table around a non-zero mean adds up to zero. */
  lemma TableComparisonsSumToZero(inputs: CalculatorInputs, models: seq<LegacyModel>, selected: seq<Provider>)
    requires CalculateCosts(inputs, models, selected) != []
    requires Mean(CostList(inputs, FilterBySelected(models, selected))) != 0.0
    ensures var r := CalculateCosts(inputs, models, selected);
      Sum(seq(|r|, i requires 0 <= i < |r| => r[i].comparisonPercentage.value)) == 0.0
  {
    var r := CalculateCosts(inputs, models, selected);
    var costs := CostList(inputs, FilterBySelected(models, selected));
    var avg := Mean(costs);
    forall i | 0 <= i < |r|
      ensures r[i].comparisonPercentage == Some(((costs[i] - avg) / avg) * 100.0)
    {
      assert r[i].totalCost == costs[i];
    }
    ColumnIsDeviations(r, costs, avg);
    ComparisonsSumToZero(costs);
  }

  /** A table whose costs are `costs` and whose comparisons are taken against `avg` has the deviations as its column. */
  lemma ColumnIsDeviations(r: seq<ModelCosts>, costs: seq<real>, avg: real)
    requires avg != 0.0 && |r| == |costs|
    requires forall i :: 0 <= i < |r| ==>
      r[i].comparisonPercentage == Some(((costs[i] - avg) / avg) * 100.0)
    ensures seq(|r|, i requires 0 <= i < |r| => r[i].comparisonPercentage.value) == Deviations(costs, avg)
  {
    DeviationsElements(costs, avg);
  }

  lemma MeanTimesCount(s: real, n: real)
    requires n > 0.0
    ensures s - n * (s / n) == 0.0
  {
  }

  /** Sum of the deviations of `xs` from `c` is `((Sum(xs) - n c) / c) * 100`. */
  lemma {:induction false} ScaledDeviationsSum(xs: seq<real>, c: real)
    requires c != 0.0
    ensures Sum(Deviations(xs, c)) == ((Sum(xs) - |xs| as real * c) / c) * 100.0
    decreases |xs|, 1
  {
    if xs != [] {
      ScaledDeviationsSumCons(xs, c);
    } else {
      assert Deviations(xs, c) == [] && Sum(xs) == 0.0;
      ZeroDeviation(|xs| as real, c);
    }
  }

  /** The induction step of `ScaledDeviationsSum`. */
  lemma {:induction false} ScaledDeviationsSumCons(xs: seq<real>, c: real)
    requires xs != [] && c != 0.0
    ensures Sum(Deviations(xs, c)) == ((Sum(xs) - |xs| as real * c) / c) * 100.0
    decreases |xs|, 0
  {
    var tail := xs[1..];
    ScaledDeviationsSum(tail, c);
    DeviationsCons(xs, c);
    DeviationStep(Sum(Deviations(xs, c)), Sum(Deviations(tail, c)), xs[0], Sum(tail), |tail| as real, Sum(xs), |xs| as real, c);
  }

  /** With nothing to sum, the closed form is zero. */
  lemma ZeroDeviation(n: real, c: real)
    requires n == 0.0 && c != 0.0
    ensures ((0.0 - n * c) / c) * 100.0 == 0.0
  {
  }

  /** A non-empty list, its sum and its deviations split into the first element and the rest. */
  lemma DeviationsCons(xs: seq<real>, c: real)
    requires xs != [] && c != 0.0
    ensures Sum(Deviations(xs, c)) == ((xs[0] - c) / c) * 100.0 + Sum(Deviations(xs[1..], c))
    ensures Sum(xs) == xs[0] + Sum(xs[1..]) && |xs| as real == |xs[1..]| as real + 1.0
  {
    var ds := Deviations(xs, c);
    assert ds[1..] == Deviations(xs[1..], c);
  }

  /** One induction step of `ScaledDeviationsSum`, as arithmetic on plain numbers. */
  lemma DeviationStep(all: real, rest: real, x: real, s: real, n: real, total: real, m: real, c: real)
    requires c != 0.0
    requires all == ((x - c) / c) * 100.0 + rest
    requires rest == ((s - n * c) / c) * 100.0
    requires total == x + s && m == n + 1.0
    ensures all == ((total - m * c) / c) * 100.0
  {
    var k := 100.0 / c;
    assert ((x - c) / c) * 100.0 == (x - c) * k;
    assert ((s - n * c) / c) * 100.0 == (s - n * c) * k;
    assert ((total - m * c) / c) * 100.0 == (total - m * c) * k;
  }

  /** When every selected model costs the same, every comparison is 0%. */
  lemma EqualCostsCompareAtZero(costs: seq<real>, c: real)
    requires costs != [] && c != 0.0
    requires forall i :: 0 <= i < |costs| ==> costs[i] == c
    ensures Mean(costs) == c
    ensures forall i :: 0 <= i < |costs| ==> ComparisonPercentage(costs[i], Mean(costs)) == Some(0.0)
  {
    SumOfConstant(costs, c);
  }

  /** The component's state: the form inputs and the selected providers. */
  class CalculatorState {
    var inputs: CalculatorInputs
    var selectedProviders: seq<Provider>

    constructor ()
      ensures inputs == CalculatorInputs(20.0, 200.0, 100.0, USD, false)
      ensures selectedProviders == [OpenAI, Anthropic, Groq]
    {
      inputs := CalculatorInputs(20.0, 200.0, 100.0, USD, false);
      selectedProviders := [OpenAI, Anthropic, Groq];
    }

    /** A provider button: removes a selected provider, appends an unselected one. */
    method ToggleProvider(p: Provider)
      modifies this
      ensures selectedProviders == Toggle(old(selectedProviders), p)
      ensures p in selectedProviders <==> p !in old(selectedProviders)
      ensures forall q :: q != p ==> (q in selectedProviders <==> q in old(selectedProviders))
      ensures inputs == old(inputs)
    {
      selectedProviders := Toggle(selectedProviders, p);
    }

    method SetUseTokens(checked: bool)
      modifies this
      ensures inputs == old(inputs).(useTokens := checked)
      ensures selectedProviders == old(selectedProviders)
    {
      inputs := inputs.(useTokens := checked);
    }

    method SetInputText(v: real)
      modifies this
      ensures inputs == old(inputs).(inputText := v)
      ensures selectedProviders == old(selectedProviders)
    {
      inputs := inputs.(inputText := v);
    }

    method SetOutputText(v: real)
      modifies this
      ensures inputs == old(inputs).(outputText := v)
      ensures selectedProviders == old(selectedProviders)
    {
      inputs := inputs.(outputText := v);
    }

    method SetRequests(v: real)
      modifies this
      ensures inputs == old(inputs).(requests := v)
      ensures selectedProviders == old(selectedProviders)
    {
      inputs := inputs.(requests := v);
    }

    method SetCurrency(c: Currency)
      modifies this
      ensures inputs == old(inputs).(currency := c)
      ensures selectedProviders == old(selectedProviders)
    {
      inputs := inputs.(currency := c);
    }
  }
}
