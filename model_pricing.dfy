/** The static pricing catalog and its provider filter. */
module ModelPricing {
  import opened Types
  import opened ListOps

  /** Largest feature count and context window the ranking normalises by. */
  const MaxFeatures: int := 6
  const MaxContextWindow: int := 200000

  const Gpt4Turbo: Model := Model("gpt4-turbo", "GPT-4 Turbo", OpenAI, 10.0, 30.0, 128000,
    [JsonMode, FunctionCalling, Vision, Streaming, FineTuning, RagOptimized],
    "Latest GPT-4 model optimized for better performance and lower latency")
  const Gpt35Turbo: Model := Model("gpt35-turbo", "GPT-3.5 Turbo", OpenAI, 0.5, 1.5, 16000,
    [JsonMode, FunctionCalling, Streaming, FineTuning, RagOptimized],
    "Fast and cost-effective model for most use cases")
  const Claude3Opus: Model := Model("claude3-opus", "Claude 3 Opus", Anthropic, 15.0, 75.0, 200000,
    [JsonMode, Vision, Streaming, RagOptimized],
    "Most capable Claude model with superior reasoning and analysis")
  const Claude3Sonnet: Model := Model("claude3-sonnet", "Claude 3 Sonnet", Anthropic, 3.0, 15.0, 200000,
    [JsonMode, Vision, Streaming, RagOptimized],
    "Balanced model offering high performance at lower cost")
  const Mixtral8x7b: Model := Model("mixtral-8x7b", "Mixtral 8x7B", Groq, 7.0, 24.0, 32000,
    [Streaming, RagOptimized],
    "High-performance open model with extremely low latency")

  /** The catalog, grouped by provider in the order OpenAI, Anthropic, Groq. */
  const Catalog: seq<Model> := [Gpt4Turbo, Gpt35Turbo, Claude3Opus, Claude3Sonnet, Mixtral8x7b]

  /** What every catalog entry satisfies and the ranking relies on. */
  predicate WellFormed(m: Model)
  {
    && m.inputCost > 0.0 && m.outputCost > 0.0
    && 0 < m.contextWindow <= MaxContextWindow
    && |m.features| <= MaxFeatures
    && (forall i, j :: 0 <= i < j < |m.features| ==> m.features[i] != m.features[j])
  }

  /** Ids are pairwise distinct. */
  predicate UniqueIds(ms: seq<Model>)
  {
    forall i, j :: 0 <= i < j < |ms| ==> ms[i].id != ms[j].id
  }

  /** The entries of `ms` that belong to provider `p`, in their original order. */
  function FilterByProvider(ms: seq<Model>, p: Provider): seq<Model>
    decreases |ms|
  {
    if ms == [] then []
    else if ms[0].provider == p then [ms[0]] + FilterByProvider(ms[1..], p)
    else FilterByProvider(ms[1..], p)
  }

  function GetModelsByProvider(p: Provider): (r: seq<Model>)
    ensures forall m :: m in r <==> m in Catalog && m.provider == p
  {
    FilterMembers(Catalog, p);
    FilterByProvider(Catalog, p)
  }

  /** An entry survives the filter exactly when it belongs to the provider. */
  lemma {:induction false} FilterMembers(ms: seq<Model>, p: Provider)
    ensures forall m :: m in FilterByProvider(ms, p) <==> m in ms && m.provider == p
    decreases |ms|
  {
    if ms != [] {
      FilterMembers(ms[1..], p);
      assert forall m :: m in ms <==> m == ms[0] || m in ms[1..];
    }
  }

  /** The filter keeps the entries in their original order. */
  lemma {:induction false} FilterKeepsOrder(ms: seq<Model>, p: Provider)
    ensures IsSubsequence(FilterByProvider(ms, p), ms)
    decreases |ms|
  {
    if ms != [] {
      FilterKeepsOrder(ms[1..], p);
      FilterMembers(ms[1..], p);
    }
  }

  /** The entries of `ms` of each provider in `ps`, one provider after another (a flatMap over a table). */
  function FlatFilter(ms: seq<Model>, ps: seq<Provider>): seq<Model>
    decreases |ps|
  {
    if ps == [] then [] else FilterByProvider(ms, ps[0]) + FlatFilter(ms, ps[1..])
  }

  /** An entry is in the flatMap exactly when it is in the table and its provider is listed. */
  lemma {:induction false} FlatFilterMembers(ms: seq<Model>, ps: seq<Provider>)
    ensures forall m :: m in FlatFilter(ms, ps) <==> m in ms && m.provider in ps
    decreases |ps|
  {
    if ps != [] {
      FilterMembers(ms, ps[0]);
      FlatFilterMembers(ms, ps[1..]);
      assert forall q :: q in ps <==> q == ps[0] || q in ps[1..];
    }
  }

  /** The models of several providers, one provider after another (a flatMap). */
  function ModelsOfProviders(ps: seq<Provider>): (r: seq<Model>)
    ensures forall m :: m in r <==> m in Catalog && m.provider in ps
  {
    FlatFilterMembers(Catalog, ps);
    FlatFilter(Catalog, ps)
  }

  function GetAllModels(): (r: seq<Model>)
    ensures r == GetModelsByProvider(OpenAI) + GetModelsByProvider(Anthropic) + GetModelsByProvider(Groq)
  {
    CatalogByProvider();
    Catalog
  }

  /** Filtering distributes over concatenation: the filter keeps order and multiplicity. */
  lemma {:induction false} FilterAppend(a: seq<Model>, b: seq<Model>, p: Provider)
    ensures FilterByProvider(a + b, p) == FilterByProvider(a, p) + FilterByProvider(b, p)
    decreases |a|
  {
    if a == [] {
      assert a + b == b;
    } else {
      assert (a + b)[1..] == a[1..] + b;
      FilterAppend(a[1..], b, p);
    }
  }

  /** flatMap over providers distributes over concatenation of the provider lists. */
  lemma {:induction false} FlatFilterAppend(ms: seq<Model>, ps: seq<Provider>, qs: seq<Provider>)
    ensures FlatFilter(ms, ps + qs) == FlatFilter(ms, ps) + FlatFilter(ms, qs)
    decreases |ps|
  {
    if ps == [] {
      assert ps + qs == qs;
    } else {
      var head := FilterByProvider(ms, ps[0]);
      assert (ps + qs)[0] == ps[0] && (ps + qs)[1..] == ps[1..] + qs;
      FlatFilterAppend(ms, ps[1..], qs);
      assert FlatFilter(ms, ps + qs) == head + (FlatFilter(ms, ps[1..]) + FlatFilter(ms, qs));
    }
  }

  /** The selected providers' models for two provider lists joined are the two lists' models joined. */
  lemma ModelsOfProvidersAppend(ps: seq<Provider>, qs: seq<Provider>)
    ensures ModelsOfProviders(ps + qs) == ModelsOfProviders(ps) + ModelsOfProviders(qs)
  {
    FlatFilterAppend(Catalog, ps, qs);
  }

  lemma CatalogIdsDistinct()
    ensures UniqueIds(Catalog)
  {
  }

  lemma CatalogWellFormed()
    ensures forall m :: m in Catalog ==> WellFormed(m)
  {
  }

  /** The catalog split by provider: two OpenAI, two Anthropic and one Groq model, in catalog order. */
  lemma CatalogByProvider()
    ensures GetModelsByProvider(OpenAI) == [Gpt4Turbo, Gpt35Turbo]
    ensures GetModelsByProvider(Anthropic) == [Claude3Opus, Claude3Sonnet]
    ensures GetModelsByProvider(Groq) == [Mixtral8x7b]
  {
    OpenAIModels();
    AnthropicModels();
    GroqModels();
  }

  lemma OpenAIModels()
    ensures GetModelsByProvider(OpenAI) == [Gpt4Turbo, Gpt35Turbo]
  {
    CatalogFilter(OpenAI);
    FilterOne(Gpt4Turbo, OpenAI);
    FilterOne(Gpt35Turbo, OpenAI);
    FilterOne(Claude3Opus, OpenAI);
    FilterOne(Claude3Sonnet, OpenAI);
    FilterOne(Mixtral8x7b, OpenAI);
  }

  lemma AnthropicModels()
    ensures GetModelsByProvider(Anthropic) == [Claude3Opus, Claude3Sonnet]
  {
    CatalogFilter(Anthropic);
    FilterOne(Gpt4Turbo, Anthropic);
    FilterOne(Gpt35Turbo, Anthropic);
    FilterOne(Claude3Opus, Anthropic);
    FilterOne(Claude3Sonnet, Anthropic);
    FilterOne(Mixtral8x7b, Anthropic);
  }

  lemma GroqModels()
    ensures GetModelsByProvider(Groq) == [Mixtral8x7b]
  {
    CatalogFilter(Groq);
    FilterOne(Gpt4Turbo, Groq);
    FilterOne(Gpt35Turbo, Groq);
    FilterOne(Claude3Opus, Groq);
    FilterOne(Claude3Sonnet, Groq);
    FilterOne(Mixtral8x7b, Groq);
  }

  /** Filtering the catalog filters its entries one by one. */
  lemma CatalogFilter(p: Provider)
    ensures FilterByProvider(Catalog, p) ==
      FilterByProvider([Gpt4Turbo], p) + FilterByProvider([Gpt35Turbo], p) + FilterByProvider([Claude3Opus], p)
      + FilterByProvider([Claude3Sonnet], p) + FilterByProvider([Mixtral8x7b], p)
  {
    var c1: seq<Model> := [Gpt4Turbo];
    var c2 := c1 + [Gpt35Turbo];
    var c3 := c2 + [Claude3Opus];
    var c4 := c3 + [Claude3Sonnet];
    assert Catalog == c4 + [Mixtral8x7b];
    FilterAppend(c4, [Mixtral8x7b], p);
    FilterAppend(c3, [Claude3Sonnet], p);
    FilterAppend(c2, [Claude3Opus], p);
    FilterAppend(c1, [Gpt35Turbo], p);
  }

  /** A one-entry table keeps its entry exactly when the provider matches. */
  lemma FilterOne(m: Model, p: Provider)
    ensures FilterByProvider([m], p) == if m.provider == p then [m] else []
  {
    assert [m][1..] == [];
  }

  /** Result sizes per provider; an entry of another provider is never returned. */
  lemma ProviderCounts()
    ensures |GetModelsByProvider(OpenAI)| == 2
    ensures |GetModelsByProvider(Anthropic)| == 2
    ensures |GetModelsByProvider(Groq)| == 1
  {
    CatalogByProvider();
  }

  /** Selecting every provider in catalog order yields the catalog itself. */
  lemma AllProvidersGiveCatalog()
    ensures ModelsOfProviders([OpenAI, Anthropic, Groq]) == GetAllModels()
  {
    FlatFilterOfThree(Catalog, OpenAI, Anthropic, Groq);
  }

  /** The flatMap over three providers is their three filtered lists joined. */
  lemma FlatFilterOfThree(ms: seq<Model>, a: Provider, b: Provider, c: Provider)
    ensures FlatFilter(ms, [a, b, c]) == FilterByProvider(ms, a) + FilterByProvider(ms, b) + FilterByProvider(ms, c)
  {
    var none: seq<Provider> := [];
    assert [a, b, c] == [a] + ([b] + ([c] + none));
    FlatFilterCons(ms, c, none);
    FlatFilterCons(ms, b, [c] + none);
    FlatFilterCons(ms, a, [b] + ([c] + none));
  }

  lemma FlatFilterCons(ms: seq<Model>, p: Provider, ps: seq<Provider>)
    ensures FlatFilter(ms, [p] + ps) == FilterByProvider(ms, p) + FlatFilter(ms, ps)
  {
    assert ([p] + ps)[0] == p && ([p] + ps)[1..] == ps;
  }
}
