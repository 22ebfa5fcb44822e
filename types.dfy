/** Closed enumerations and records shared by every part of the calculator. */
module Types {

  /** The three supported model vendors. */
  datatype Provider = OpenAI | Anthropic | Groq

  /** The two display currencies. */
  datatype Currency = USD | INR

  /** A value, or none where the original shows NaN or an infinity. */
  datatype Option<T> = None | Some(value: T)

  /** Capability tags a catalog entry may list. */
  datatype ModelFeature = JsonMode | FunctionCalling | Vision | Streaming | FineTuning | RagOptimized

  /** Display-only parameters that never enter the cost arithmetic. */
  datatype ChartType = Bar | Radar | Scatter
  datatype TimeFrame = Daily | Weekly | Monthly | Yearly

  /** A catalog entry; rates are per one million tokens. */
  datatype Model = Model(
    id: string,
    name: string,
    provider: Provider,
    inputCost: real,
    outputCost: real,
    contextWindow: int,
    features: seq<ModelFeature>,
    description: string)

  /** The workload a user describes in the form. */
  datatype CalculationParams = CalculationParams(
    inputSize: real,
    outputSize: real,
    requests: real,
    useTokens: bool,
    currency: Currency,
    chartType: ChartType,
    timeframe: TimeFrame)

  /** A currency amount as shown: symbol, scaled value and magnitude suffix. */
  datatype Display = Display(symbol: string, scaled: real, suffix: string)

  /** The factor a magnitude suffix stands for (K thousand, L lakh, M million, Cr crore). */
  function SuffixFactor(suffix: string): real
  {
    if suffix == "K" then 1000.0
    else if suffix == "L" then 100000.0
    else if suffix == "M" then 1000000.0
    else if suffix == "Cr" then 10000000.0
    else 1.0
  }

  /** The provider's display name, as used in chart labels. */
  function ProviderName(p: Provider): string
  {
    match p
    case OpenAI => "OpenAI"
    case Anthropic => "Anthropic"
    case Groq => "Groq"
  }

  /** The feature's display name, which is also its sort key. */
  function FeatureName(f: ModelFeature): string
  {
    match f
    case JsonMode => "JSON Mode"
    case FunctionCalling => "Function Calling"
    case Vision => "Vision"
    case Streaming => "Streaming"
    case FineTuning => "Fine-tuning"
    case RagOptimized => "RAG Optimized"
  }

  /** Distinct features have distinct names, so sorting by name orders features strictly. */
  lemma FeatureNameInjective(f: ModelFeature, g: ModelFeature)
    ensures FeatureName(f) == FeatureName(g) <==> f == g
  {
  }
}
