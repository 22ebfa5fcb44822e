/**
 * The "Cost Analysis & Optimization" panel: the chosen models, their costs and
 * efficiency scores, the total and average cost, the best-value model and the
 * potential savings against the cheapest chosen model.
 */
module CostBreakdown {
  import opened Types
  import opened CostCalculator
  import opened ModelPricing
  import opened ListOps

  /** Weights and normalisers of the efficiency score. */
  const CostWeight: real := 0.4
  const FeatureWeight: real := 0.3
  const ContextWeight: real := 0.3
  const FeatureNormaliser: real := 6.0
  const ContextNormaliser: real := 200000.0

  /** One analysed model: its costs in the chosen currency and its rounded score. */
  datatype ModelCost = ModelCost(model: Model, costs: CostFigures, efficiencyScore: real)

  /** The seed and running value of a `Math.min` fold: +Infinity until a number arrives. */
  datatype Bound = PosInfinity | Finite(value: real)

  datatype Analysis = Analysis(
    modelCosts: seq<ModelCost>,
    totalCost: real,
    avgCost: real,
    bestValueModel: ModelCost,
    optimalCost: real,
    potentialSavings: real)

  /** The panel either shows the "no models selected" message or an analysis. */
  datatype Breakdown = NoSelection | Analysed(analysis: Analysis)

  /** The entries of `ms` whose id is selected, in their original order. */
  function FilterByIds(ms: seq<Model>, ids: seq<string>): (r: seq<Model>)
    ensures forall m :: m in r <==> m in ms && m.id in ids
    ensures forall m :: multiset(r)[m] == if m.id in ids then multiset(ms)[m] else 0
    ensures IsSubsequence(r, ms)
    decreases |ms|
  {
    if ms == [] then []
    else
      assert ms == [ms[0]] + ms[1..];
      if ms[0].id in ids then [ms[0]] + FilterByIds(ms[1..], ids)
      else FilterByIds(ms[1..], ids)
  }

  /** The analysed models: the selected providers' models, restricted to the ticked ids. */
  function SelectModels(providers: seq<Provider>, ids: seq<string>): (r: seq<Model>)
    ensures forall m :: m in r <==> m in Catalog && m.provider in providers && m.id in ids
    ensures IsSubsequence(r, ModelsOfProviders(providers))
  {
    FilterByIds(ModelsOfProviders(providers), ids)
  }

  function FeatureScore(m: Model): real
  {
    |m.features| as real / FeatureNormaliser
  }

  function ContextScore(m: Model): real
  {
    m.contextWindow as real / ContextNormaliser
  }

  /** The unrounded composite: weighted inverse mean rate, feature count and context window, as a percentage. */
  function RawEfficiencyScore(m: Model): (r: real)
    requires m.inputCost + m.outputCost > 0.0
    ensures m.contextWindow >= 0 ==> r > 0.0
  {
    var costPerToken := (m.inputCost + m.outputCost) / 2.0;
    assert 1.0 / costPerToken > 0.0;
    ((1.0 / costPerToken) * CostWeight + FeatureScore(m) * FeatureWeight + ContextScore(m) * ContextWeight) * 100.0
  }

  /** Of two models with the same feature count and context window, the cheaper one scores higher. */
  lemma CheaperScoresHigher(m1: Model, m2: Model)
    requires 0.0 < m1.inputCost + m1.outputCost < m2.inputCost + m2.outputCost
    requires |m1.features| == |m2.features| && m1.contextWindow == m2.contextWindow
    ensures RawEfficiencyScore(m1) > RawEfficiencyScore(m2)
  {
    InverseDecreases((m1.inputCost + m1.outputCost) / 2.0, (m2.inputCost + m2.outputCost) / 2.0);
  }

  lemma InverseDecreases(a: real, b: real)
    requires 0.0 < a < b
    ensures 1.0 / a > 1.0 / b
  {
    assert 1.0 / a - 1.0 / b == (b - a) / (a * b);
  }

  /** For every catalog entry the two normalised scores lie in [0, 1] and the composite is positive. */
  lemma CatalogScoresNormalised(m: Model)
    requires m in Catalog
    ensures 0.0 <= FeatureScore(m) <= 1.0
    ensures 0.0 < ContextScore(m) <= 1.0
    ensures m.inputCost + m.outputCost > 0.0 && RawEfficiencyScore(m) > 0.0
  {
    CatalogWellFormed();
    var cpt := (m.inputCost + m.outputCost) / 2.0;
    assert 1.0 / cpt > 0.0;
  }

  /**
   * `Math.round(x * 10) / 10`, where `Math.round` rounds halves upwards: the
   * only whole number of tenths in (x - 0.05, x + 0.05].
   */
  function RoundToTenth(x: real): (r: real)
    ensures (r * 10.0).Floor as real == r * 10.0
    ensures x - 0.05 < r <= x + 0.05
  {
    var tenths := (x * 10.0 + 0.5).Floor;
    assert (tenths as real / 10.0) * 10.0 == tenths as real;
    tenths as real / 10.0
  }

  /** One analysed model; the stored score is within 0.05 of the exact composite. */
  function CostOf(params: CalculationParams, m: Model): (mc: ModelCost)
    requires m.inputCost + m.outputCost > 0.0
    ensures mc.model == m
    ensures Additive(mc.costs)
    ensures params.currency == USD ==> mc.costs == CalculateCosts(ForModel(params, m)).costsUSD
    ensures params.currency == INR ==> mc.costs == CalculateCosts(ForModel(params, m)).costsINR
    ensures mc.efficiencyScore == RoundToTenth(RawEfficiencyScore(m))
    ensures RawEfficiencyScore(m) - 0.05 < mc.efficiencyScore <= RawEfficiencyScore(m) + 0.05
  {
    ModelCost(m, CostsIn(ForModel(params, m), params.currency), RoundToTenth(RawEfficiencyScore(m)))
  }

  function Totals(mcs: seq<ModelCost>): (xs: seq<real>)
    ensures |xs| == |mcs| && forall i :: 0 <= i < |mcs| ==> xs[i] == mcs[i].costs.total
  {
    seq(|mcs|, i requires 0 <= i < |mcs| => mcs[i].costs.total)
  }

  /** `Math.min` with +Infinity as the identity. */
  function MinWith(b: Bound, x: real): Bound
  {
    match b
    case PosInfinity => Finite(x)
    case Finite(v) => Finite(if v <= x then v else x)
  }

  /** `xs.reduce((min, x) => Math.min(min, x), acc)`. */
  function MinFrom(acc: Bound, xs: seq<real>): (b: Bound)
    ensures xs != [] ==> b.Finite?
    ensures b.Finite? ==> (b.value in xs || (acc.Finite? && b.value == acc.value))
    ensures b.Finite? ==> forall i :: 0 <= i < |xs| ==> b.value <= xs[i]
    ensures b.Finite? && acc.Finite? ==> b.value <= acc.value
    ensures xs == [] ==> b == acc
    decreases |xs|
  {
    if xs == [] then acc else MinFrom(MinWith(acc, xs[0]), xs[1..])
  }

  /** The cheapest total; the +Infinity seed never survives a non-empty list. */
  function OptimalCost(xs: seq<real>): (o: real)
    requires xs != []
    ensures o in xs
    ensures forall i :: 0 <= i < |xs| ==> o <= xs[i]
  {
    MinFrom(PosInfinity, xs).value
  }

  /** A largest element, used to bound the average from above. */
  function MaxOf(xs: seq<real>): (m: real)
    requires xs != []
    ensures m in xs
    ensures forall i :: 0 <= i < |xs| ==> xs[i] <= m
    decreases |xs|
  {
    if |xs| == 1 then xs[0]
    else
      var rest := MaxOf(xs[1..]);
      if xs[0] >= rest then xs[0] else rest
  }

  /** The average lies between the cheapest and the dearest total. */
  lemma AverageBetweenMinAndMax(xs: seq<real>)
    requires xs != []
    ensures OptimalCost(xs) <= Mean(xs) <= MaxOf(xs)
  {
    var n, o, m, s := |xs| as real, OptimalCost(xs), MaxOf(xs), Sum(xs);
    SumBounds(xs, o, m);
    DivideBounds(s, n, o, m);
    MeanUnfold(xs);
  }

  /** The mean in terms of the sum and the count. */
  lemma MeanUnfold(xs: seq<real>)
    requires xs != []
    ensures Mean(xs) == Sum(xs) / |xs| as real
  {
  }

  lemma DivideBounds(s: real, n: real, lo: real, hi: real)
    requires n > 0.0 && n * lo <= s <= n * hi
    ensures lo <= s / n <= hi
  {
  }

  /** `totalCost - optimalCost * n`: what choosing the cheapest model everywhere would save. */
  function PotentialSavings(xs: seq<real>): (s: real)
    requires xs != []
    ensures s >= 0.0
  {
    var n, o, sum := |xs| as real, OptimalCost(xs), Sum(xs);
    SumAtLeast(xs, o);
    SavingsNonNegative(sum, n, o);
    sum - o * n
  }

  /** Every total is the same. */
  predicate AllEqual(xs: seq<real>)
  {
    forall i, j :: 0 <= i < |xs| && 0 <= j < |xs| ==> xs[i] == xs[j]
  }

  /** Savings are never negative, and vanish exactly when every total is the same. */
  lemma SavingsCharacterised(xs: seq<real>)
    requires xs != []
    ensures PotentialSavings(xs) >= 0.0
    ensures PotentialSavings(xs) == 0.0 <==> AllEqual(xs)
  {
    var n, o, s := |xs| as real, OptimalCost(xs), Sum(xs);
    SumAtLeast(xs, o);
    SavingsNonNegative(s, n, o);
    SavingsUnfold(xs);
    if AllEqual(xs) {
      EqualTotalsSaveNothing(xs);
    } else {
      UnequalTotalsSaveSomething(xs);
    }
  }

  lemma EqualTotalsSaveNothing(xs: seq<real>)
    requires xs != [] && AllEqual(xs)
    ensures PotentialSavings(xs) == 0.0
  {
    var n, o, s := |xs| as real, OptimalCost(xs), Sum(xs);
    AllEqualToMinimum(xs);
    SumOfConstant(xs, o);
    SavingsZero(s, n, o);
    SavingsUnfold(xs);
  }

  lemma UnequalTotalsSaveSomething(xs: seq<real>)
    requires xs != [] && !AllEqual(xs)
    ensures PotentialSavings(xs) > 0.0
  {
    var n, o, s := |xs| as real, OptimalCost(xs), Sum(xs);
    var k := SomeAbove(xs, o);
    SumAboveStrict(xs, o, k);
    SavingsPositive(s, n, o);
    SavingsUnfold(xs);
  }

  /** When not all totals are equal, some total lies strictly above a common lower bound. */
  lemma SomeAbove(xs: seq<real>, lo: real) returns (k: nat)
    requires !AllEqual(xs)
    requires forall i :: 0 <= i < |xs| ==> lo <= xs[i]
    ensures k < |xs| && xs[k] > lo
  {
    var i, j :| 0 <= i < |xs| && 0 <= j < |xs| && xs[i] != xs[j];
    k := if xs[i] > lo then i else j;
  }

  /** The savings in terms of the sum, the optimal cost and the count. */
  lemma SavingsUnfold(xs: seq<real>)
    requires xs != []
    ensures PotentialSavings(xs) == Sum(xs) - OptimalCost(xs) * |xs| as real
  {
  }

  /** `s - o n` is non-negative when `s >= n o`. */
  lemma SavingsNonNegative(s: real, n: real, o: real)
    requires s >= n * o
    ensures s - o * n >= 0.0
  {
    assert o * n == n * o;
  }

  /** `s - o n` is zero when `s == n o`. */
  lemma SavingsZero(s: real, n: real, o: real)
    requires s == n * o
    ensures s - o * n == 0.0
  {
    assert o * n == n * o;
  }

  /** `s - o n` is positive when `s > n o`. */
  lemma SavingsPositive(s: real, n: real, o: real)
    requires s > n * o
    ensures s - o * n > 0.0
  {
    assert o * n == n * o;
  }

  lemma AllEqualToMinimum(xs: seq<real>)
    requires xs != []
    requires AllEqual(xs)
    ensures forall i :: 0 <= i < |xs| ==> xs[i] == OptimalCost(xs)
  {
    var o := OptimalCost(xs);
    var k :| 0 <= k < |xs| && xs[k] == o;
    assert forall i :: 0 <= i < |xs| ==> xs[i] == xs[k];
  }

  /**
   * `reduce((prev, curr) => curr.score > prev.score ? curr : prev)` from index `i` on,
   * with `k` the index of the current `prev`.
   */
  function BestValueFrom(mcs: seq<ModelCost>, k: nat, i: nat): (r: nat)
    requires k < i <= |mcs|
    requires forall j :: 0 <= j < i ==> mcs[j].efficiencyScore <= mcs[k].efficiencyScore
    requires forall j :: 0 <= j < k ==> mcs[j].efficiencyScore < mcs[k].efficiencyScore
    ensures r < |mcs|
    ensures forall j :: 0 <= j < |mcs| ==> mcs[j].efficiencyScore <= mcs[r].efficiencyScore
    ensures forall j :: 0 <= j < r ==> mcs[j].efficiencyScore < mcs[r].efficiencyScore
    decreases |mcs| - i
  {
    if i == |mcs| then k
    else if mcs[i].efficiencyScore > mcs[k].efficiencyScore then BestValueFrom(mcs, i, i + 1)
    else BestValueFrom(mcs, k, i + 1)
  }

  /** The best-value model: a highest score, the earliest one on ties. */
  function BestValueIndex(mcs: seq<ModelCost>): (r: nat)
    requires mcs != []
    ensures r < |mcs|
    ensures forall j :: 0 <= j < |mcs| ==> mcs[j].efficiencyScore <= mcs[r].efficiencyScore
    ensures forall j :: 0 <= j < r ==> mcs[j].efficiencyScore < mcs[r].efficiencyScore
  {
    BestValueFrom(mcs, 0, 1)
  }

  /** The per-model records, in the order of the chosen models. */
  function ModelCosts(params: CalculationParams, models: seq<Model>): (mcs: seq<ModelCost>)
    requires forall m :: m in models ==> m.inputCost + m.outputCost > 0.0
    ensures |mcs| == |models|
    ensures forall i :: 0 <= i < |models| ==> mcs[i] == CostOf(params, models[i])
  {
    seq(|models|, i requires 0 <= i < |models| => CostOf(params, models[i]))
  }

  /** The panel's computation, with its early return on an empty selection. */
  function Analyze(params: CalculationParams, providers: seq<Provider>, ids: seq<string>): (b: Breakdown)
    ensures b.NoSelection? <==> SelectModels(providers, ids) == []
    ensures b.Analysed? ==>
      var a := b.analysis;
      var models := SelectModels(providers, ids);
      && |a.modelCosts| == |models|
      && (forall i :: 0 <= i < |models| ==> a.modelCosts[i] == CostOf(params, models[i]))
      && a.totalCost == Sum(Totals(a.modelCosts))
      && a.avgCost == Mean(Totals(a.modelCosts))
      && a.bestValueModel == a.modelCosts[BestValueIndex(a.modelCosts)]
      && a.optimalCost == OptimalCost(Totals(a.modelCosts))
      && a.potentialSavings == PotentialSavings(Totals(a.modelCosts))
  {
    var models := SelectModels(providers, ids);
    if models == [] then NoSelection
    else
      CatalogWellFormed();
      Analysed(Summarise(ModelCosts(params, models)))
  }

  /** The panel's figures over a non-empty list of records. */
  function Summarise(modelCosts: seq<ModelCost>): (a: Analysis)
    requires modelCosts != []
    ensures a.modelCosts == modelCosts
    ensures a.totalCost == Sum(Totals(modelCosts)) && a.avgCost == Mean(Totals(modelCosts))
    ensures a.bestValueModel == modelCosts[BestValueIndex(modelCosts)]
    ensures a.optimalCost == OptimalCost(Totals(modelCosts))
    ensures a.potentialSavings == PotentialSavings(Totals(modelCosts))
  {
    var totals := Totals(modelCosts);
    Analysis(
      modelCosts,
      Sum(totals),
      Mean(totals),
      modelCosts[BestValueIndex(modelCosts)],
      OptimalCost(totals),
      PotentialSavings(totals))
  }

  /**
   * What the panel promises: the cheapest chosen model's cost is one of the
   * costs and at most the average, the savings are never negative and vanish
   * exactly when all chosen models cost the same, and no chosen model scores
   * above the best-value model.
   */
  predicate Consistent(a: Analysis)
  {
    && (exists i :: 0 <= i < |a.modelCosts| && a.optimalCost == a.modelCosts[i].costs.total)
    && a.optimalCost <= a.avgCost
    && a.potentialSavings >= 0.0
    && (a.potentialSavings == 0.0 <==>
          forall i, j :: 0 <= i < |a.modelCosts| && 0 <= j < |a.modelCosts| ==>
            a.modelCosts[i].costs.total == a.modelCosts[j].costs.total)
    && a.bestValueModel in a.modelCosts
    && forall i :: 0 <= i < |a.modelCosts| ==> a.modelCosts[i].efficiencyScore <= a.bestValueModel.efficiencyScore
  }

  /** Whatever the parameters and the selection, a shown analysis keeps the panel's promises. */
  lemma AnalysisGuarantees(params: CalculationParams, providers: seq<Provider>, ids: seq<string>)
    requires Analyze(params, providers, ids).Analysed?
    ensures Consistent(Analyze(params, providers, ids).analysis)
  {
    var a := Analyze(params, providers, ids).analysis;
    assert a == Summarise(a.modelCosts);
    SummaryGuarantees(a.modelCosts);
  }

  /** The summary of any non-empty list of records keeps the panel's promises. */
  lemma SummaryGuarantees(mcs: seq<ModelCost>)
    requires mcs != []
    ensures Consistent(Summarise(mcs))
  {
    var totals := Totals(mcs);
    var a := Summarise(mcs);
    AverageBetweenMinAndMax(totals);
    SavingsCharacterised(totals);
    var k :| 0 <= k < |totals| && totals[k] == OptimalCost(totals);
    assert a.optimalCost == mcs[k].costs.total;
    assert AllEqual(totals) <==>
      forall i, j :: 0 <= i < |mcs| && 0 <= j < |mcs| ==> mcs[i].costs.total == mcs[j].costs.total;
    assert a.bestValueModel == mcs[BestValueIndex(mcs)];
  }

  /** The rupee sign as the file stores it: the UTF-8 bytes of U+20B9 read back as Windows-1252. */
  function SymbolAsWritten(c: Currency): string
  {
    if c == USD then "$" else "\U{00E2}\U{201A}\U{00B9}"
  }

  /** The intended currency sign. */
  function CurrencySymbol(c: Currency): string
  {
    if c == USD then "$" else "\U{20B9}"
  }

  /** The stored INR sign is three characters of mojibake rather than the rupee sign. */
  lemma RupeeSignMisencoded()
    ensures SymbolAsWritten(INR) != CurrencySymbol(INR)
    ensures |SymbolAsWritten(INR)| == 3 && |CurrencySymbol(INR)| == 1
    ensures SymbolAsWritten(USD) == CurrencySymbol(USD)
  {
  }

  /** `formatCurrency`: millions from 1e6, thousands from 1e3, for either currency. */
  function FormatCurrency(c: Currency, v: real): (d: Display)
    ensures d.symbol == CurrencySymbol(c)
    ensures d.scaled * SuffixFactor(d.suffix) == v
    ensures d.suffix == "M" <==> v >= 1000000.0
    ensures d.suffix == "K" <==> 1000.0 <= v < 1000000.0
    ensures d.suffix == "" <==> v < 1000.0
    ensures d.suffix == "K" ==> 1.0 <= d.scaled < 1000.0
    ensures d.suffix == "M" ==> 1.0 <= d.scaled
  {
    var symbol := CurrencySymbol(c);
    if v >= 1000000.0 then Display(symbol, v / 1000000.0, "M")
    else if v >= 1000.0 then Display(symbol, v / 1000.0, "K")
    else Display(symbol, v, "")
  }
}
