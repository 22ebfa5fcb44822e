/**
 * The cost engine: turns a workload (sizes, request count, unit) and one
 * model's per-million-token rates into token counts and costs in USD and INR.
 * Exact rational arithmetic stands for the JavaScript numbers of the original.
 */
module CostCalculator {
  import opened Types

  /** Tokens per word when sizes are given in words. */
  const WordToTokenRatio: real := 1.333

  /** Fixed USD to INR exchange rate of the engine. */
  const UsdToInr: real := 86.65

  /** Rates are quoted per this many tokens. */
  const TokensPerPricingUnit: real := 1000000.0

  /** The engine's input: workload plus one model's rates. */
  datatype CostParams = CostParams(
    inputSize: real,
    outputSize: real,
    requests: real,
    useTokens: bool,
    inputCostPerMillion: real,
    outputCostPerMillion: real)

  datatype TokenCounts = TokenCounts(input: real, output: real, totalInput: real, totalOutput: real)

  /** A cost breakdown in one currency. */
  datatype CostFigures = CostFigures(input: real, output: real, total: real)

  datatype CostResult = CostResult(tokens: TokenCounts, costsUSD: CostFigures, costsINR: CostFigures)

  /** Per-request token count of a size given either in tokens or in words. */
  function TokensOf(size: real, useTokens: bool): (t: real)
    ensures useTokens ==> t == size
    ensures !useTokens ==> t == size * WordToTokenRatio
    ensures size >= 0.0 ==> t >= 0.0
  {
    if useTokens then size else size * WordToTokenRatio
  }

  /** Price of a token count at a rate quoted per million tokens. */
  function PriceOf(tokens: real, ratePerMillion: real): real
  {
    (tokens / TokensPerPricingUnit) * ratePerMillion
  }

  /** A breakdown in which every figure is zero. */
  predicate Nothing(c: CostFigures)
  {
    c.input == 0.0 && c.output == 0.0 && c.total == 0.0
  }

  /** The breakdown is internally consistent: the total is the sum of its parts. */
  predicate Additive(c: CostFigures)
  {
    c.total == c.input + c.output
  }

  /** Every INR figure is the matching USD figure at the engine's exchange rate. */
  predicate ConvertedAt(usd: CostFigures, inr: CostFigures, rate: real)
  {
    inr.input == usd.input * rate && inr.output == usd.output * rate && inr.total == usd.total * rate
  }

  /** The documented formula: (per-request tokens x requests / one million) x rate. */
  function DocumentedCost(sizePerRequest: real, useTokens: bool, requests: real, rate: real): real
  {
    TokensOf(sizePerRequest, useTokens) * requests / TokensPerPricingUnit * rate
  }

  function CalculateCosts(p: CostParams): (r: CostResult)
    ensures r.tokens.input == TokensOf(p.inputSize, p.useTokens)
    ensures r.tokens.output == TokensOf(p.outputSize, p.useTokens)
    ensures r.tokens.totalInput == p.requests * r.tokens.input
    ensures r.tokens.totalOutput == p.requests * r.tokens.output
    ensures Additive(r.costsUSD) && Additive(r.costsINR)
    ensures ConvertedAt(r.costsUSD, r.costsINR, UsdToInr)
  {
    var inputTokens := TokensOf(p.inputSize, p.useTokens);
    var outputTokens := TokensOf(p.outputSize, p.useTokens);
    var totalInputTokens := p.requests * inputTokens;
    var totalOutputTokens := p.requests * outputTokens;
    var inputCostUSD := PriceOf(totalInputTokens, p.inputCostPerMillion);
    var outputCostUSD := PriceOf(totalOutputTokens, p.outputCostPerMillion);
    var totalCostUSD := inputCostUSD + outputCostUSD;
    var inputCostINR := inputCostUSD * UsdToInr;
    var outputCostINR := outputCostUSD * UsdToInr;
    var totalCostINR := totalCostUSD * UsdToInr;
    CostResult(
      TokenCounts(inputTokens, outputTokens, totalInputTokens, totalOutputTokens),
      CostFigures(inputCostUSD, outputCostUSD, totalCostUSD),
      CostFigures(inputCostINR, outputCostINR, totalCostINR))
  }

  /** The dollar total: the two token counts weighted by their rates, times the requests, per million. */
  lemma TotalFormula(p: CostParams)
    ensures CalculateCosts(p).costsUSD.total ==
      (TokensOf(p.inputSize, p.useTokens) * p.inputCostPerMillion + TokensOf(p.outputSize, p.useTokens) * p.outputCostPerMillion)
        * p.requests / TokensPerPricingUnit
  {
    var a, b := TokensOf(p.inputSize, p.useTokens), TokensOf(p.outputSize, p.useTokens);
    Regroup(a, b, p.inputCostPerMillion, p.outputCostPerMillion, p.requests);
  }

  /** `(k a / u) x + (k b / u) y == (a x + b y) k / u` for the pricing unit u. */
  lemma Regroup(a: real, b: real, x: real, y: real, k: real)
    ensures ((k * a) / TokensPerPricingUnit) * x + ((k * b) / TokensPerPricingUnit) * y ==
      (a * x + b * y) * k / TokensPerPricingUnit
  {
    assert (k * a) * x == (a * x) * k;
    assert (k * b) * y == (b * y) * k;
  }

  /** How the components call the engine: the form's workload with one model's rates. */
  function ForModel(params: CalculationParams, m: Model): CostParams
  {
    CostParams(params.inputSize, params.outputSize, params.requests, params.useTokens, m.inputCost, m.outputCost)
  }

  /** The breakdown a component shows: wholly the USD or wholly the INR figures of one result. */
  function CostsIn(p: CostParams, c: Currency): (f: CostFigures)
    ensures Additive(f)
    ensures c == USD ==> f == CalculateCosts(p).costsUSD
    ensures c == INR ==> ConvertedAt(CalculateCosts(p).costsUSD, f, UsdToInr)
  {
    var r := CalculateCosts(p);
    if c == USD then r.costsUSD else r.costsINR
  }

  /** Each USD component equals the documented (tokens / one million) x rate x requests. */
  lemma MatchesDocumentedFormula(p: CostParams)
    ensures CalculateCosts(p).costsUSD.input == DocumentedCost(p.inputSize, p.useTokens, p.requests, p.inputCostPerMillion)
    ensures CalculateCosts(p).costsUSD.output == DocumentedCost(p.outputSize, p.useTokens, p.requests, p.outputCostPerMillion)
  {
  }

  /** No request, or nothing to send and receive, costs nothing in either currency. */
  lemma ZeroWorkloadCostsNothing(p: CostParams)
    requires p.requests == 0.0 || (p.inputSize == 0.0 && p.outputSize == 0.0)
    ensures CalculateCosts(p).tokens.totalInput == 0.0 && CalculateCosts(p).tokens.totalOutput == 0.0
    ensures Nothing(CalculateCosts(p).costsUSD)
    ensures Nothing(CalculateCosts(p).costsINR)
  {
    ZeroWorkloadHasNoTokens(p);
    NoTokensCostNothing(p);
  }

  lemma ZeroWorkloadHasNoTokens(p: CostParams)
    requires p.requests == 0.0 || (p.inputSize == 0.0 && p.outputSize == 0.0)
    ensures CalculateCosts(p).tokens.totalInput == 0.0 && CalculateCosts(p).tokens.totalOutput == 0.0
  {
    var r := CalculateCosts(p);
    if p.requests == 0.0 {
      MulZero(p.requests, r.tokens.input);
      MulZero(p.requests, r.tokens.output);
    } else {
      MulZero(r.tokens.input, p.requests);
      MulZero(r.tokens.output, p.requests);
    }
  }

  lemma NoTokensCostNothing(p: CostParams)
    requires CalculateCosts(p).tokens.totalInput == 0.0 && CalculateCosts(p).tokens.totalOutput == 0.0
    ensures Nothing(CalculateCosts(p).costsUSD)
    ensures Nothing(CalculateCosts(p).costsINR)
  {
    NoTokensCostNothingInUSD(p);
    NoUsdCostNoInrCost(p);
  }

  lemma NoUsdCostNoInrCost(p: CostParams)
    requires Nothing(CalculateCosts(p).costsUSD)
    ensures Nothing(CalculateCosts(p).costsINR)
  {
    var r := CalculateCosts(p);
    ConvertingNothingGivesNothing(r.costsUSD, r.costsINR, UsdToInr);
  }

  lemma ConvertingNothingGivesNothing(usd: CostFigures, inr: CostFigures, rate: real)
    requires Nothing(usd) && ConvertedAt(usd, inr, rate)
    ensures Nothing(inr)
  {
  }

  lemma NoTokensCostNothingInUSD(p: CostParams)
    requires CalculateCosts(p).tokens.totalInput == 0.0 && CalculateCosts(p).tokens.totalOutput == 0.0
    ensures Nothing(CalculateCosts(p).costsUSD)
  {
    NoInputTokensNoInputCost(p);
    NoOutputTokensNoOutputCost(p);
  }

  lemma NoInputTokensNoInputCost(p: CostParams)
    requires CalculateCosts(p).tokens.totalInput == 0.0
    ensures CalculateCosts(p).costsUSD.input == 0.0
  {
    var r := CalculateCosts(p);
    DivZero(r.tokens.totalInput, TokensPerPricingUnit);
    MulZero(r.tokens.totalInput / TokensPerPricingUnit, p.inputCostPerMillion);
  }

  lemma NoOutputTokensNoOutputCost(p: CostParams)
    requires CalculateCosts(p).tokens.totalOutput == 0.0
    ensures CalculateCosts(p).costsUSD.output == 0.0
  {
    var r := CalculateCosts(p);
    DivZero(r.tokens.totalOutput, TokensPerPricingUnit);
    MulZero(r.tokens.totalOutput / TokensPerPricingUnit, p.outputCostPerMillion);
  }

  lemma DivZero(x: real, d: real)
    requires x == 0.0 && d != 0.0
    ensures x / d == 0.0
  {
  }

  lemma MulZero(x: real, y: real)
    requires x == 0.0
    ensures x * y == 0.0 && y * x == 0.0
  {
  }

  /** Non-negative sizes, requests and rates never produce a negative count or cost. */
  lemma NonNegativeInputsGiveNonNegativeCosts(p: CostParams)
    requires p.inputSize >= 0.0 && p.outputSize >= 0.0 && p.requests >= 0.0
    requires p.inputCostPerMillion >= 0.0 && p.outputCostPerMillion >= 0.0
    ensures var r := CalculateCosts(p);
      r.tokens.totalInput >= 0.0 && r.tokens.totalOutput >= 0.0 &&
      r.costsUSD.input >= 0.0 && r.costsUSD.output >= 0.0 && r.costsUSD.total >= 0.0 &&
      r.costsINR.input >= 0.0 && r.costsINR.output >= 0.0 && r.costsINR.total >= 0.0
  {
    var r := CalculateCosts(p);
    MulNonNegative(p.requests, r.tokens.input);
    MulNonNegative(p.requests, r.tokens.output);
    MulNonNegative(r.tokens.totalInput / TokensPerPricingUnit, p.inputCostPerMillion);
    MulNonNegative(r.tokens.totalOutput / TokensPerPricingUnit, p.outputCostPerMillion);
  }

  lemma MulNonNegative(x: real, y: real)
    requires x >= 0.0 && y >= 0.0
    ensures x * y >= 0.0
  {
  }

  /** Scaling the request count by k scales every total and every cost by k. */
  lemma LinearInRequests(p: CostParams, k: real)
    ensures var scaled := CalculateCosts(p.(requests := k * p.requests));
      var base := CalculateCosts(p);
      scaled.tokens.totalInput == k * base.tokens.totalInput &&
      scaled.tokens.totalOutput == k * base.tokens.totalOutput &&
      scaled.costsUSD == CostFigures(k * base.costsUSD.input, k * base.costsUSD.output, k * base.costsUSD.total) &&
      scaled.costsINR == CostFigures(k * base.costsINR.input, k * base.costsINR.output, k * base.costsINR.total)
  {
  }

  /** Costs of two workloads that differ only in request count add up. */
  lemma AdditiveInRequests(p: CostParams, n1: real, n2: real)
    ensures CalculateCosts(p.(requests := n1 + n2)).costsUSD.total ==
            CalculateCosts(p.(requests := n1)).costsUSD.total + CalculateCosts(p.(requests := n2)).costsUSD.total
  {
  }

  /** Words-mode example: 20 words in, 200 words out, 100 requests at $3 / $15 per million. */
  lemma WordsExample()
    ensures var r := CalculateCosts(CostParams(20.0, 200.0, 100.0, false, 3.0, 15.0));
      r.tokens.totalInput == 2666.0 && r.tokens.totalOutput == 26660.0 &&
      r.costsUSD.input == 0.007998 && r.costsUSD.output == 0.3999 && r.costsUSD.total == 0.407898 &&
      r.costsINR.total == 35.3443617
  {
  }

  /** Tokens-mode example: the same sizes taken as token counts. */
  lemma TokensExample()
    ensures var r := CalculateCosts(CostParams(20.0, 200.0, 100.0, true, 3.0, 15.0));
      r.tokens.totalInput == 2000.0 && r.tokens.totalOutput == 20000.0 &&
      r.costsUSD.input == 0.006 && r.costsUSD.output == 0.3 && r.costsUSD.total == 0.306
  {
  }
}
