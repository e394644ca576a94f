/** The Actor's entry point, `main.py`: read and validate the input,
    resolve API keys against the environment, stop early on a missing
    credential, scrape, analyse and charge per product, then push the
    records sorted by virality score and log a top-three summary. The
    platform calls (reading input, charging, pushing) are recorded as a
    trace of events instead of being performed. */
module Driver {
  import opened Wrappers
  import opened Values
  import opened Models
  import opened Analyzer
  import opened Scraper
  import opened Ranking

  /** The gateway model used when neither the input nor the environment
      names one (main.py:29). */
  const EnvDefaultModel := "nvidia/nemotron-nano-9b-v2:free"

  /** The name of the pay-per-event charge (main.py:77-80). */
  const ProductAnalyzed := "product-analyzed"

  /** `value or os.getenv(name)`: an input key that is missing or empty
      gives way to the environment variable. */
  function KeyOr(value: Option<string>, env: map<string, string>, name: string): (r: Option<string>)
    ensures HasKey(value) ==> r == value
    ensures !HasKey(value) && name in env ==> r == Some(env[name])
    ensures !HasKey(value) && name !in env ==> r == None
  {
    if HasKey(value) then value else if name in env then Some(env[name]) else None
  }

  /** The input with its keys and model resolved (main.py:26-29). */
  datatype Config = Config(
    input: ActorInput,
    anthropicKey: Option<string>,
    openaiKey: Option<string>,
    openrouterKey: Option<string>,
    openrouterModel: string)

  function Configure(input: ActorInput, env: map<string, string>): (r: Config)
    ensures r.input == input
    ensures HasKey(input.anthropicApiKey) ==> r.anthropicKey == input.anthropicApiKey
    ensures HasKey(input.openaiApiKey) ==> r.openaiKey == input.openaiApiKey
    ensures HasKey(input.openrouterApiKey) ==> r.openrouterKey == input.openrouterApiKey
    ensures HasKey(input.openrouterModel) ==> r.openrouterModel == input.openrouterModel.value
    ensures !HasKey(input.anthropicApiKey) ==>
              r.anthropicKey == if "ANTHROPIC_API_KEY" in env then Some(env["ANTHROPIC_API_KEY"]) else None
    ensures !HasKey(input.openaiApiKey) ==>
              r.openaiKey == if "OPENAI_API_KEY" in env then Some(env["OPENAI_API_KEY"]) else None
    ensures !HasKey(input.openrouterApiKey) ==>
              r.openrouterKey == if "ANTHROPIC_AUTH_TOKEN" in env then Some(env["ANTHROPIC_AUTH_TOKEN"]) else None
    ensures !HasKey(input.openrouterModel) ==>
              r.openrouterModel == if "ANTHROPIC_MODEL" in env then env["ANTHROPIC_MODEL"] else EnvDefaultModel
  {
    Config(
      input,
      KeyOr(input.anthropicApiKey, env, "ANTHROPIC_API_KEY"),
      KeyOr(input.openaiApiKey, env, "OPENAI_API_KEY"),
      KeyOr(input.openrouterApiKey, env, "ANTHROPIC_AUTH_TOKEN"),
      KeyOr(input.openrouterModel, env, "ANTHROPIC_MODEL").GetOr(EnvDefaultModel))
  }

  /** The credential check of main.py:36-41: the message raised when the
      selected provider is one of the three known ones and its key is
      missing. Other provider names pass. */
  function CredentialError(cfg: Config): (r: Option<string>)
    ensures r.Some? <==> ((cfg.input.aiProvider == "anthropic" && !HasKey(cfg.anthropicKey))
                          || (cfg.input.aiProvider == "openai" && !HasKey(cfg.openaiKey))
                          || (cfg.input.aiProvider == "openrouter" && !HasKey(cfg.openrouterKey)))
  {
    var provider := cfg.input.aiProvider;
    if provider == "anthropic" && !HasKey(cfg.anthropicKey) then
      Some("Anthropic API key is required when using Anthropic provider")
    else if provider == "openai" && !HasKey(cfg.openaiKey) then
      Some("OpenAI API key is required when using OpenAI provider")
    else if provider == "openrouter" && !HasKey(cfg.openrouterKey) then
      Some("OpenRouter API key is required when using OpenRouter provider")
    else None
  }

  /** The analyzer built at main.py:59-65. */
  function AnalyzerFor(cfg: Config): Result<Analyzer, string> {
    NewAnalyzer(cfg.input.aiProvider, cfg.anthropicKey, cfg.openaiKey, cfg.openrouterKey, cfg.openrouterModel)
  }

  /** After the credential check, building the analyzer fails exactly for
      a provider name other than the three known ones. */
  lemma AnalyzerAfterCheck(cfg: Config)
    requires CredentialError(cfg) == None
    ensures AnalyzerFor(cfg).Failure? <==> cfg.input.aiProvider !in {"anthropic", "openai", "openrouter"}
  {
  }

  /** The scraper configured from the input (main.py:45-49). */
  function ScraperFor(input: ActorInput): Scraper {
    Scraper(input.category, input.maxProducts, input.minSalesCount)
  }

  /** An effect of the run, in the order it happens. */
  datatype Event =
    | Scrape(scraper: Scraper)
    | Analyze(product: ProductData, analysis: ProductAnalysis)
    | Charge(eventName: string, count: int)
    | Push(record: AnalyzedProduct)

  /** How a run ends. */
  datatype Outcome =
    | InvalidInput(field: string)
    | MissingCredential(message: string)
    | NoProducts
    | AnalyzerFailed(message: string)
    | Completed(records: seq<AnalyzedProduct>, summary: seq<SummaryLine>)

  /** Input validation and the credential check (main.py:22-41): the
      resolved configuration, or the outcome of a run that stops before
      doing anything. `rawInput` is the Actor input; `None` and an empty
      input both mean "no fields". */
  function Prepare(c: Coercions, rawInput: Option<map<string, Json>>, env: map<string, string>): (r: Result<Config, Outcome>)
    ensures ParseActorInput(c, rawInput.GetOr(map[])).Failure? ==>
              r == Failure(InvalidInput(ParseActorInput(c, rawInput.GetOr(map[])).error))
    ensures r.Failure? ==> r.error.InvalidInput? || r.error.MissingCredential?
    ensures r.Success? ==> ParseActorInput(c, rawInput.GetOr(map[])) == Success(r.value.input)
    ensures r.Success? ==> r.value == Configure(r.value.input, env) && CredentialError(r.value) == None
    ensures (ParseActorInput(c, rawInput.GetOr(map[])).Success?
             && CredentialError(Configure(ParseActorInput(c, rawInput.GetOr(map[])).value, env)).Some?)
            ==> r.Failure? && r.error.MissingCredential?
  {
    var input :- ParseActorInput(c, rawInput.GetOr(map[])).MapFailure(field => InvalidInput(field));
    var cfg := Configure(input, env);
    match CredentialError(cfg)
    case Some(message) => Failure(MissingCredential(message))
    case None => Success(cfg)
  }

  /** The events of phase 2 (main.py:68-80): per product, in order, its
      analysis and then one "product-analyzed" charge. */
  function AnalysisEvents(analyze: ProductData -> ProductAnalysis, products: seq<ProductData>): (r: seq<Event>)
    ensures |r| == 2 * |products|
  {
    if |products| == 0 then []
    else [Analyze(products[0], analyze(products[0])), Charge(ProductAnalyzed, 1)] + AnalysisEvents(analyze, products[1..])
  }

  /** The events of phase 3 (main.py:86-87): one push per record, in order. */
  function Pushes(records: seq<AnalyzedProduct>): (r: seq<Event>)
    ensures |r| == |records|
  {
    if |records| == 0 then [] else [Push(records[0])] + Pushes(records[1..])
  }

  /** The merged records in product order (main.py:71-73). */
  function MergeAll(analyze: ProductData -> ProductAnalysis, products: seq<ProductData>): (r: seq<AnalyzedProduct>)
    ensures |r| == |products|
  {
    if |products| == 0 then []
    else [FromProductAndAnalysis(products[0], analyze(products[0]))] + MergeAll(analyze, products[1..])
  }

  /** `analyzer.analyze_product` as a function of the product. */
  function AnalyzeWith(a: Analyzer, c: Coercions, parse: string -> Option<Json>,
                       generate: Request -> Result<string, string>, showFloat: real -> string): (f: ProductData -> ProductAnalysis)
    ensures forall p :: ValidScore(f(p).viralityScore)
  {
    p => AnalyzeProduct(a, c, parse, generate, showFloat, p)
  }

  /** `main()` (main.py:16-98). `rawInput` is the Actor input, `env` the
      process environment, `live` the scraping Actor's dataset (`None` when
      the scraper falls back to its fixture); `generate` performs the
      request to the AI provider and `parse` decodes its JSON. */
  method RunActor(c: Coercions, rawInput: Option<map<string, Json>>, env: map<string, string>,
                  live: Option<seq<Json>>, parse: string -> Option<Json>,
                  generate: Request -> Result<string, string>, showFloat: real -> string)
    returns (outcome: Outcome, trace: seq<Event>)
    ensures Prepare(c, rawInput, env).Failure? ==> outcome == Prepare(c, rawInput, env).error && trace == []
    ensures Prepare(c, rawInput, env).Success? ==>
              var cfg := Prepare(c, rawInput, env).value;
              RunsAs(c, cfg, ScrapeWithActor(c, ScraperFor(cfg.input), live), parse, generate, showFloat, outcome, trace)
  {
    var prepared := Prepare(c, rawInput, env);
    if prepared.Failure? {
      return prepared.error, [];
    }
    var cfg := prepared.value;
    var products := ScrapeWithActor(c, ScraperFor(cfg.input), live);
    outcome, trace := Execute(c, cfg, products, parse, generate, showFloat);
  }

  /** How a run that passed validation goes on once the configured
      scraper has returned `products` (main.py:43-98): it stops when there
      are none; it fails when the analyzer cannot be built; otherwise it
      analyses and charges per product, pushes the records sorted by score
      and summarises the first three. */
  ghost predicate RunsAs(c: Coercions, cfg: Config, products: seq<ProductData>, parse: string -> Option<Json>,
                         generate: Request -> Result<string, string>, showFloat: real -> string,
                         outcome: Outcome, trace: seq<Event>)
  {
    var made := AnalyzerFor(cfg);
    if products == [] then
      outcome == NoProducts && trace == [Scrape(ScraperFor(cfg.input))]
    else if made.Failure? then
      outcome == AnalyzerFailed(made.error) && trace == [Scrape(ScraperFor(cfg.input))]
    else
      var analyze := AnalyzeWith(made.value, c, parse, generate, showFloat);
      && outcome.Completed?
      && outcome.records == SortByScore(MergeAll(analyze, products))
      && outcome.summary == TopSummary(outcome.records)
      && trace == [Scrape(ScraperFor(cfg.input))] + AnalysisEvents(analyze, products) + Pushes(outcome.records)
  }

  /** Phases 1 to 3 once validation has passed (main.py:43-98), given
      what the scraper returned. */
  method Execute(c: Coercions, cfg: Config, products: seq<ProductData>, parse: string -> Option<Json>,
                 generate: Request -> Result<string, string>, showFloat: real -> string)
    returns (outcome: Outcome, trace: seq<Event>)
    requires CredentialError(cfg) == None
    ensures RunsAs(c, cfg, products, parse, generate, showFloat, outcome, trace)
    ensures |trace| >= 1 && trace[0] == Scrape(ScraperFor(cfg.input))
    ensures outcome.NoProducts? <==> products == []
    ensures outcome.AnalyzerFailed? <==> products != [] && AnalyzerFor(cfg).Failure?
    ensures outcome.NoProducts? || outcome.AnalyzerFailed? || outcome.Completed?
    ensures outcome.AnalyzerFailed? ==> cfg.input.aiProvider !in {"anthropic", "openai", "openrouter"}
  {
    var scraper := ScraperFor(cfg.input);
    trace := [Scrape(scraper)];
    if |products| == 0 {
      return NoProducts, trace;
    }
    AnalyzerAfterCheck(cfg);
    var made := AnalyzerFor(cfg);
    if made.Failure? {
      return AnalyzerFailed(made.error), trace;
    }
    var records, events := AnalyzeAndRank(AnalyzeWith(made.value, c, parse, generate, showFloat), products);
    trace := trace + events;
    outcome := Completed(records, TopSummary(records));
  }

  /** Phases 2 and 3 (main.py:67-87): analyse and charge per product, sort
      the records by score, push them in that order. */
  method AnalyzeAndRank(analyze: ProductData -> ProductAnalysis, products: seq<ProductData>)
    returns (records: seq<AnalyzedProduct>, events: seq<Event>)
    ensures records == SortByScore(MergeAll(analyze, products))
    ensures events == AnalysisEvents(analyze, products) + Pushes(records)
  {
    var analyzed: seq<AnalyzedProduct> := [];
    var charged: seq<Event> := [];
    for i := 0 to |products|
      invariant analyzed == MergeAll(analyze, products[..i])
      invariant charged == AnalysisEvents(analyze, products[..i])
    {
      var analysis := analyze(products[i]);
      analyzed := analyzed + [FromProductAndAnalysis(products[i], analysis)];
      charged := charged + [Analyze(products[i], analysis), Charge(ProductAnalyzed, 1)];
      assert products[..i + 1] == products[..i] + [products[i]];
      MergeAllSnoc(analyze, products[..i], products[i]);
      AnalysisEventsSnoc(analyze, products[..i], products[i]);
    }
    assert products[..|products|] == products;
    records := SortByScore(analyzed);
    var pushes: seq<Event> := [];
    for i := 0 to |records|
      invariant pushes == Pushes(records[..i])
    {
      pushes := pushes + [Push(records[i])];
      assert records[..i + 1] == records[..i] + [records[i]];
      PushesSnoc(records[..i], records[i]);
    }
    assert records[..|records|] == records;
    events := charged + pushes;
  }

  lemma {:induction false} MergeAllSnoc(analyze: ProductData -> ProductAnalysis, ps: seq<ProductData>, p: ProductData)
    ensures MergeAll(analyze, ps + [p]) == MergeAll(analyze, ps) + [FromProductAndAnalysis(p, analyze(p))]
  {
    if |ps| > 0 {
      assert (ps + [p])[1..] == ps[1..] + [p];
      MergeAllSnoc(analyze, ps[1..], p);
    } else {
      assert ps + [p] == [p];
    }
  }

  lemma {:induction false} AnalysisEventsSnoc(analyze: ProductData -> ProductAnalysis, ps: seq<ProductData>, p: ProductData)
    ensures AnalysisEvents(analyze, ps + [p])
         == AnalysisEvents(analyze, ps) + [Analyze(p, analyze(p)), Charge(ProductAnalyzed, 1)]
  {
    if |ps| > 0 {
      assert (ps + [p])[1..] == ps[1..] + [p];
      AnalysisEventsSnoc(analyze, ps[1..], p);
    } else {
      assert ps + [p] == [p];
    }
  }

  lemma {:induction false} PushesSnoc(rs: seq<AnalyzedProduct>, r: AnalyzedProduct)
    ensures Pushes(rs + [r]) == Pushes(rs) + [Push(r)]
  {
    if |rs| > 0 {
      assert (rs + [r])[1..] == rs[1..] + [r];
      PushesSnoc(rs[1..], r);
    } else {
      assert rs + [r] == [r];
    }
  }

  /** The trace of phase 2 pairs every product, in order, with its
      analysis followed by one charge. */
  lemma {:induction false} AnalysisEventsAt(analyze: ProductData -> ProductAnalysis, products: seq<ProductData>, k: int)
    requires 0 <= k < |products|
    ensures AnalysisEvents(analyze, products)[2 * k] == Analyze(products[k], analyze(products[k]))
    ensures AnalysisEvents(analyze, products)[2 * k + 1] == Charge(ProductAnalyzed, 1)
  {
    if k > 0 {
      AnalysisEventsAt(analyze, products[1..], k - 1);
    }
  }

  /** The pushes follow the records' order. */
  lemma {:induction false} PushesAt(records: seq<AnalyzedProduct>, k: int)
    requires 0 <= k < |records|
    ensures Pushes(records)[k] == Push(records[k])
  {
    if k > 0 {
      PushesAt(records[1..], k - 1);
    }
  }

  /** What a completed run pushes: the merged records, highest score
      first, equal scores in product order, every score in range. */
  lemma CompletedRecords(analyze: ProductData -> ProductAnalysis, products: seq<ProductData>)
    requires forall p :: ValidScore(analyze(p).viralityScore)
    ensures SortedDesc(SortByScore(MergeAll(analyze, products)))
    ensures Stable(MergeAll(analyze, products), SortByScore(MergeAll(analyze, products)))
    ensures multiset(SortByScore(MergeAll(analyze, products))) == multiset(MergeAll(analyze, products))
    ensures forall r :: r in SortByScore(MergeAll(analyze, products)) ==> ValidScore(r.viralityScore)
  {
    var merged := MergeAll(analyze, products);
    SortSorted(merged);
    SortStable(merged);
    SortPermutes(merged);
    forall r | r in SortByScore(merged)
      ensures ValidScore(r.viralityScore)
    {
      assert r in multiset(merged);
      var k :| 0 <= k < |merged| && merged[k] == r;
    }
  }

  /** One analysis and one charge per product: the charges in a run's
      trace number exactly the products analysed. */
  lemma {:induction false} OneChargePerProduct(analyze: ProductData -> ProductAnalysis, products: seq<ProductData>)
    ensures Count(AnalysisEvents(analyze, products), Charge(ProductAnalyzed, 1)) == |products|
  {
    if |products| > 0 {
      OneChargePerProduct(analyze, products[1..]);
      CountAppend([Analyze(products[0], analyze(products[0])), Charge(ProductAnalyzed, 1)],
                  AnalysisEvents(analyze, products[1..]), Charge(ProductAnalyzed, 1));
    }
  }

  /** Number of occurrences of `e`. */
  function Count(events: seq<Event>, e: Event): nat {
    if |events| == 0 then 0 else (if events[0] == e then 1 else 0) + Count(events[1..], e)
  }

  lemma {:induction false} CountAppend(a: seq<Event>, b: seq<Event>, e: Event)
    ensures Count(a + b, e) == Count(a, e) + Count(b, e)
  {
    if |a| > 0 {
      assert (a + b)[1..] == a[1..] + b;
      CountAppend(a[1..], b, e);
    } else {
      assert a + b == b;
    }
  }

  /** Pushes are not charges. */
  lemma {:induction false} NoChargeInPushes(records: seq<AnalyzedProduct>)
    ensures Count(Pushes(records), Charge(ProductAnalyzed, 1)) == 0
  {
    if |records| > 0 {
      NoChargeInPushes(records[1..]);
    }
  }

  /** A completed run's trace holds exactly one "product-analyzed"
      charge per product: none for the scrape, one per analysis, none for
      the pushes. */
  lemma ChargesInRun(analyze: ProductData -> ProductAnalysis, scraper: Scraper, products: seq<ProductData>,
                     records: seq<AnalyzedProduct>)
    ensures Count([Scrape(scraper)] + AnalysisEvents(analyze, products) + Pushes(records),
                  Charge(ProductAnalyzed, 1)) == |products|
  {
    var events := AnalysisEvents(analyze, products);
    OneChargePerProduct(analyze, products);
    NoChargeInPushes(records);
    CountAppend([Scrape(scraper)] + events, Pushes(records), Charge(ProductAnalyzed, 1));
    CountAppend([Scrape(scraper)], events, Charge(ProductAnalyzed, 1));
  }
}
