/**
 * The horizontal stacked bar chart: one bar per model of the selected
 * providers, input and output cost stacked, most expensive first, with labels
 * "name (provider)", tooltips showing the name alone, and currency-aware tick
 * formatting.
 */
module CostVisualization {
  import opened Types
  import opened CostCalculator
  import opened ModelPricing
  import CostBreakdown

  /** A bar's data: the model's name and provider and its two stacked cost segments. */
  datatype BarData = BarData(name: string, provider: Provider, inputCost: real, outputCost: real)

  /** The bar's full length. */
  function Total(b: BarData): real
  {
    b.inputCost + b.outputCost
  }

  /** The bar for one model under the form's parameters, in the chosen currency. */
  function BarOf(params: CalculationParams, m: Model): (b: BarData)
    ensures b.name == m.name && b.provider == m.provider
    ensures Total(b) == CostsIn(ForModel(params, m), params.currency).total
    ensures params.currency == USD ==>
      b.inputCost == CalculateCosts(ForModel(params, m)).costsUSD.input
      && b.outputCost == CalculateCosts(ForModel(params, m)).costsUSD.output
    ensures params.currency == INR ==>
      b.inputCost == UsdToInr * CalculateCosts(ForModel(params, m)).costsUSD.input
      && b.outputCost == UsdToInr * CalculateCosts(ForModel(params, m)).costsUSD.output
  {
    var costs := CostsIn(ForModel(params, m), params.currency);
    BarData(m.name, m.provider, costs.input, costs.output)
  }

  /** The unsorted bars: the selected providers' models, provider by provider. */
  function ModelData(params: CalculationParams, providers: seq<Provider>): (bars: seq<BarData>)
    ensures |bars| == |ModelsOfProviders(providers)|
    ensures forall i :: 0 <= i < |bars| ==> bars[i] == BarOf(params, ModelsOfProviders(providers)[i])
  {
    var ms := ModelsOfProviders(providers);
    seq(|ms|, i requires 0 <= i < |ms| => BarOf(params, ms[i]))
  }

  predicate NonIncreasing(s: seq<BarData>)
  {
    forall i, j :: 0 <= i < j < |s| ==> Total(s[i]) >= Total(s[j])
  }

  /** Puts `b` in front of the first bar that is not longer, so equal bars keep their order. */
  function Insert(b: BarData, s: seq<BarData>): (r: seq<BarData>)
    ensures multiset(r) == multiset(s) + multiset{b}
    ensures r[0] == b || (s != [] && r[0] == s[0])
    decreases |s|
  {
    if s == [] || Total(s[0]) <= Total(b) then [b] + s
    else
      var rest := Insert(b, s[1..]);
      assert s == [s[0]] + s[1..];
      assert multiset(s) == multiset{s[0]} + multiset(s[1..]);
      [s[0]] + rest
  }

  lemma {:induction false} InsertKeepsOrder(b: BarData, s: seq<BarData>)
    requires NonIncreasing(s)
    ensures NonIncreasing(Insert(b, s))
    decreases |s|
  {
    if s != [] && Total(s[0]) > Total(b) {
      var rest := Insert(b, s[1..]);
      InsertKeepsOrder(b, s[1..]);
      if rest[0] != b {
        assert Total(s[0]) >= Total(s[1]);
      }
      ConsKeepsOrder(s[0], rest);
    } else if s != [] {
      ConsKeepsOrder(b, s);
    }
  }

  lemma ConsKeepsOrder(x: BarData, s: seq<BarData>)
    requires NonIncreasing(s) && s != [] && Total(x) >= Total(s[0])
    ensures NonIncreasing([x] + s)
  {
    var r := [x] + s;
    forall i, j | 0 <= i < j < |r|
      ensures Total(r[i]) >= Total(r[j])
    {
      if i == 0 && j > 1 {
        assert Total(s[0]) >= Total(s[j - 1]);
      }
    }
  }

  /** `[...modelData].sort((a, b) => total(b) - total(a))`: most expensive first (the order among equal totals is not stated). */
  function SortedData(s: seq<BarData>): (r: seq<BarData>)
    ensures multiset(r) == multiset(s)
    ensures NonIncreasing(r)
    decreases |s|
  {
    if s == [] then []
    else
      assert s == [s[0]] + s[1..];
      InsertKeepsOrder(s[0], SortedData(s[1..]));
      Insert(s[0], SortedData(s[1..]))
  }

  /** The most expensive bar comes first. */
  lemma MostExpensiveFirst(s: seq<BarData>)
    requires s != []
    ensures forall b :: b in s ==> Total(SortedData(s)[0]) >= Total(b)
  {
    var r := SortedData(s);
    forall b | b in s
      ensures Total(r[0]) >= Total(b)
    {
      assert b in multiset(s);
      assert b in multiset(r);
      var k :| 0 <= k < |r| && r[k] == b;
      if k > 0 {
        assert Total(r[0]) >= Total(r[k]);
      }
    }
  }

  /** The y-axis label: the name, then the provider in parentheses. */
  function Label(b: BarData): (l: string)
    ensures |l| == |b.name| + 3 + |ProviderName(b.provider)|
    ensures l[..|b.name|] == b.name
    ensures l[|b.name|..] == " (" + ProviderName(b.provider) + ")"
  {
    b.name + " (" + ProviderName(b.provider) + ")"
  }

  /** `s` has the separator `" ("` starting at position `k`. */
  predicate SeparatorAt(s: string, k: int)
  {
    0 <= k && k + 1 < |s| && s[k] == ' ' && s[k + 1] == '('
  }

  predicate NoSeparator(s: string)
  {
    forall k :: 0 <= k < |s| ==> !SeparatorAt(s, k)
  }

  /** `label.split(' (')[0]`: the text before the first `" ("`, or all of it. */
  function TooltipTitle(text: string): (t: string)
    ensures |t| <= |text| && t == text[..|t|]
    ensures NoSeparator(t) && forall k :: 0 <= k < |t| ==> !SeparatorAt(text, k)
    ensures t == text || SeparatorAt(text, |t|)
    decreases |text|
  {
    if |text| < 2 then text
    else if text[0] == ' ' && text[1] == '(' then ""
    else
      var rest := TooltipTitle(text[1..]);
      var t := [text[0]] + rest;
      assert text == [text[0]] + text[1..];
      assert forall k :: 1 <= k < |text| ==> (SeparatorAt(text, k) <==> SeparatorAt(text[1..], k - 1));
      assert forall k :: 1 <= k < |t| ==> (SeparatorAt(t, k) <==> SeparatorAt(rest, k - 1));
      assert !SeparatorAt(t, 0) by {
        if |t| > 1 {
          assert t[1] == text[1];
        }
      }
      t
  }

  /** A name without `" ("` comes back whole from its label's tooltip title. */
  lemma TooltipShowsName(b: BarData)
    requires NoSeparator(b.name)
    ensures TooltipTitle(Label(b)) == b.name
  {
    var l := Label(b);
    var t := TooltipTitle(l);
    assert SeparatorAt(l, |b.name|);
    assert forall k :: 0 <= k < |b.name| - 1 ==> (SeparatorAt(l, k) <==> SeparatorAt(b.name, k));
    assert !SeparatorAt(l, |b.name| - 1);
  }

  /** No catalog name contains `" ("`, so every catalog tooltip shows the full name. */
  lemma CatalogNamesHaveNoSeparator(m: Model)
    requires m in Catalog
    ensures NoSeparator(m.name)
  {
    CatalogEntries(m);
    NameHasNoSeparator(Gpt4Turbo);
    NameHasNoSeparator(Gpt35Turbo);
    NameHasNoSeparator(Claude3Opus);
    NameHasNoSeparator(Claude3Sonnet);
    NameHasNoSeparator(Mixtral8x7b);
  }

  lemma NameHasNoSeparator(m: Model)
    requires '(' !in m.name
    ensures NoSeparator(m.name)
  {
    NoParenNoSeparator(m.name);
  }

  lemma CatalogEntries(m: Model)
    requires m in Catalog
    ensures m == Gpt4Turbo || m == Gpt35Turbo || m == Claude3Opus || m == Claude3Sonnet || m == Mixtral8x7b
  {
  }

  /** A text without an opening parenthesis has no separator. */
  lemma NoParenNoSeparator(s: string)
    requires '(' !in s
    ensures NoSeparator(s)
  {
  }

  /** The chart's labels and its two datasets, index-aligned with the sorted bars. */
  datatype ChartData = ChartData(labels: seq<string>, inputData: seq<real>, outputData: seq<real>)

  function ChartDataOf(params: CalculationParams, providers: seq<Provider>): (c: ChartData)
    ensures var sorted := SortedData(ModelData(params, providers));
      && |c.labels| == |c.inputData| == |c.outputData| == |sorted|
      && forall i :: 0 <= i < |sorted| ==>
           c.labels[i] == Label(sorted[i])
           && c.inputData[i] == sorted[i].inputCost && c.outputData[i] == sorted[i].outputCost
           && c.inputData[i] + c.outputData[i] == Total(sorted[i])
           && TooltipTitle(c.labels[i]) == sorted[i].name
  {
    var bars := ModelData(params, providers);
    var sorted := SortedData(bars);
    ModelDataNamesHaveNoSeparator(params, providers);
    SortedTooltipsShowNames(bars);
    ChartData(
      seq(|sorted|, i requires 0 <= i < |sorted| => Label(sorted[i])),
      seq(|sorted|, i requires 0 <= i < |sorted| => sorted[i].inputCost),
      seq(|sorted|, i requires 0 <= i < |sorted| => sorted[i].outputCost))
  }

  lemma ModelDataNamesHaveNoSeparator(params: CalculationParams, providers: seq<Provider>)
    ensures forall b :: b in ModelData(params, providers) ==> NoSeparator(b.name)
  {
    var bars := ModelData(params, providers);
    var ms := ModelsOfProviders(providers);
    forall b | b in bars
      ensures NoSeparator(b.name)
    {
      var k :| 0 <= k < |bars| && bars[k] == b;
      CatalogNamesHaveNoSeparator(ms[k]);
    }
  }

  /** Sorting keeps the bars, so every sorted label's tooltip shows its bar's name. */
  lemma SortedTooltipsShowNames(s: seq<BarData>)
    requires forall b :: b in s ==> NoSeparator(b.name)
    ensures forall i :: 0 <= i < |SortedData(s)| ==> TooltipTitle(Label(SortedData(s)[i])) == SortedData(s)[i].name
  {
    var sorted := SortedData(s);
    forall i | 0 <= i < |sorted|
      ensures TooltipTitle(Label(sorted[i])) == sorted[i].name
    {
      assert sorted[i] in multiset(s);
      TooltipShowsName(sorted[i]);
    }
  }

  /** Chart height: 40 pixels a bar, never under 300. */
  function CalculatedHeight(bars: nat): (h: int)
    ensures h >= 300 && h >= 40 * bars
    ensures h == 300 || h == 40 * bars
    ensures bars <= 7 ==> h == 300
  {
    if 300 >= bars * 40 then 300 else bars * 40
  }

  /**
   * The chart's `formatCurrency`: M and K for dollars; the Indian crore, lakh
   * and thousand for rupees.
   */
  function FormatCurrency(c: Currency, v: real): (d: Display)
    ensures d.symbol == CostBreakdown.CurrencySymbol(c)
    ensures d.scaled * SuffixFactor(d.suffix) == v
    ensures c == USD ==> (d.suffix == "M" <==> v >= 1000000.0)
    ensures c == USD ==> (d.suffix == "K" <==> 1000.0 <= v < 1000000.0)
    ensures c == INR ==> (d.suffix == "Cr" <==> v >= 10000000.0)
    ensures c == INR ==> (d.suffix == "L" <==> 100000.0 <= v < 10000000.0)
    ensures c == INR ==> (d.suffix == "K" <==> 1000.0 <= v < 100000.0)
    ensures d.suffix == "" <==> v < 1000.0
    ensures c == USD ==> (d.suffix == "K" ==> 1.0 <= d.scaled < 1000.0)
    ensures c == INR ==> (d.suffix in {"K", "L"} ==> 1.0 <= d.scaled < 100.0)
    ensures d.suffix != "" ==> 1.0 <= d.scaled
  {
    var symbol := CostBreakdown.CurrencySymbol(c);
    if c == USD then
      if v >= 1000000.0 then Display(symbol, v / 1000000.0, "M")
      else if v >= 1000.0 then Display(symbol, v / 1000.0, "K")
      else Display(symbol, v, "")
    else
      if v >= 10000000.0 then Display(symbol, v / 10000000.0, "Cr")
      else if v >= 100000.0 then Display(symbol, v / 100000.0, "L")
      else if v >= 1000.0 then Display(symbol, v / 1000.0, "K")
      else Display(symbol, v, "")
  }

  /** For dollars the chart and the breakdown card format alike. */
  lemma DollarFormatsAgree(v: real)
    ensures FormatCurrency(USD, v) == CostBreakdown.FormatCurrency(USD, v)
  {
  }

  /** The two formatters part for rupees: ten lakh shows as "10.00L" here, "1.00M" in the card. */
  lemma RupeeFormatsDiffer()
    ensures FormatCurrency(INR, 1000000.0) == Display(CostBreakdown.CurrencySymbol(INR), 10.0, "L")
    ensures CostBreakdown.FormatCurrency(INR, 1000000.0) == Display(CostBreakdown.CurrencySymbol(INR), 1.0, "M")
  {
  }
}
