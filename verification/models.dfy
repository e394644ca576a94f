/** The records of `models.py`: scraped product data, the generated
    analysis with its validated score, the merged record with its derived
    discount, and the Actor's input configuration. pydantic's validation of
    keyword arguments is modelled as a function from a keyword map to a
    `Result`; the error carries the name of the first offending field. */
module Models {
  import opened Wrappers
  import opened Values

  /** Raw product data scraped from the shop (models.py:6-20). */
  datatype ProductData = ProductData(
    productId: string,
    productTitle: string,
    productUrl: string,
    price: real,
    originalPrice: Option<real>,
    salesCount: int,
    rating: Option<real>,
    reviewCount: int,
    shopName: Option<string>,
    category: Option<string>,
    reviews: seq<string>,
    imageUrl: Option<string>)

  /** The generated analysis of one product (models.py:23-41). */
  datatype ProductAnalysis = ProductAnalysis(
    viralityScore: int,
    whyWinning: string,
    problemSolved: string,
    emotionalTriggers: seq<string>,
    marketingAngles: seq<string>,
    qualityFlags: seq<string>,
    targetAudience: string,
    adHooks: seq<string>)

  /** Product data merged with its analysis (models.py:44-66). */
  datatype AnalyzedProduct = AnalyzedProduct(
    productId: string,
    productTitle: string,
    productUrl: string,
    price: real,
    originalPrice: Option<real>,
    discountPercentage: Option<real>,
    salesCount: int,
    rating: Option<real>,
    reviewCount: int,
    shopName: Option<string>,
    category: Option<string>,
    imageUrl: Option<string>,
    viralityScore: int,
    whyWinning: string,
    problemSolved: string,
    emotionalTriggers: seq<string>,
    marketingAngles: seq<string>,
    qualityFlags: seq<string>,
    targetAudience: string,
    adHooks: seq<string>)

  predicate ValidScore(score: int) {
    0 <= score <= 100
  }

  // ---------------------------------------------------------------------
  // Keyword-argument validation
  // ---------------------------------------------------------------------

  /** A field that is absent or whose value passes `check`. */
  predicate Passes<T>(kw: map<string, Json>, name: string, check: Json -> Option<T>) {
    name in kw ==> check(kw[name]).Some?
  }

  /** A required string field: present and a string. */
  predicate IsText(kw: map<string, Json>, name: string) {
    name in kw && kw[name].JStr?
  }

  /** A required field: missing is an error. */
  function Required<T>(kw: map<string, Json>, name: string, check: Json -> Option<T>): (r: Result<T, string>)
    ensures name !in kw ==> r == Failure(name)
    ensures name in kw ==> (r.Success? <==> check(kw[name]).Some?)
    ensures r.Success? ==> name in kw && r.value == check(kw[name]).value
  {
    if name !in kw then Failure(name)
    else match check(kw[name])
      case Some(x) => Success(x)
      case None => Failure(name)
  }

  /** A field with a default used when it is missing. */
  function Defaulted<T>(kw: map<string, Json>, name: string, check: Json -> Option<T>, default: T): (r: Result<T, string>)
    ensures name !in kw ==> r == Success(default)
    ensures name in kw ==> (r.Success? <==> check(kw[name]).Some?)
    ensures name in kw && r.Success? ==> r.value == check(kw[name]).value
  {
    if name !in kw then Success(default)
    else match check(kw[name])
      case Some(x) => Success(x)
      case None => Failure(name)
  }

  /** `ProductData(**kw)` (models.py:6-20): five required fields; the rest
      default to `None`, `0` or the empty list. */
  function ValidateProductData(c: Coercions, kw: map<string, Json>): (r: Result<ProductData, string>)
    ensures r.Success? ==> "product_id" in kw && kw["product_id"] == JStr(r.value.productId)
    ensures r.Success? ==> "product_title" in kw && kw["product_title"] == JStr(r.value.productTitle)
    ensures r.Success? ==> "product_url" in kw && kw["product_url"] == JStr(r.value.productUrl)
    ensures r.Success? ==> "price" in kw && FieldFloat(c, kw["price"]) == Some(r.value.price)
    ensures r.Success? ==> "sales_count" in kw && FieldInt(c, kw["sales_count"]) == Some(r.value.salesCount)
    ensures r.Success? && "original_price" in kw ==> FieldOptFloat(c, kw["original_price"]) == Some(r.value.originalPrice)
    ensures r.Success? && "rating" in kw ==> FieldOptFloat(c, kw["rating"]) == Some(r.value.rating)
    ensures r.Success? && "review_count" in kw ==> FieldInt(c, kw["review_count"]) == Some(r.value.reviewCount)
    ensures r.Success? && "shop_name" in kw ==> FieldOptStr(kw["shop_name"]) == Some(r.value.shopName)
    ensures r.Success? && "category" in kw ==> FieldOptStr(kw["category"]) == Some(r.value.category)
    ensures r.Success? && "reviews" in kw ==> FieldStrList(kw["reviews"]) == Some(r.value.reviews)
    ensures r.Success? && "image_url" in kw ==> FieldOptStr(kw["image_url"]) == Some(r.value.imageUrl)
    ensures r.Success? && "reviews" !in kw ==> r.value.reviews == []
    ensures r.Success? && "review_count" !in kw ==> r.value.reviewCount == 0
    ensures r.Success? && "original_price" !in kw ==> r.value.originalPrice == None
    ensures r.Success? && "rating" !in kw ==> r.value.rating == None
    ensures ("product_id" !in kw || "product_title" !in kw || "product_url" !in kw
             || "price" !in kw || "sales_count" !in kw) ==> r.Failure?
    ensures r.Success? && "shop_name" !in kw ==> r.value.shopName == None
    ensures r.Success? && "category" !in kw ==> r.value.category == None
    ensures r.Success? && "image_url" !in kw ==> r.value.imageUrl == None
    ensures r.Success? <==>
              && IsText(kw, "product_id") && IsText(kw, "product_title") && IsText(kw, "product_url")
              && "price" in kw && FieldFloat(c, kw["price"]).Some?
              && "sales_count" in kw && FieldInt(c, kw["sales_count"]).Some?
              && Passes(kw, "original_price", v => FieldOptFloat(c, v))
              && Passes(kw, "rating", v => FieldOptFloat(c, v))
              && Passes(kw, "review_count", v => FieldInt(c, v))
              && Passes(kw, "shop_name", FieldOptStr) && Passes(kw, "category", FieldOptStr)
              && Passes(kw, "reviews", FieldStrList) && Passes(kw, "image_url", FieldOptStr)
  {
    var id :- Required(kw, "product_id", FieldStr);
    var title :- Required(kw, "product_title", FieldStr);
    var url :- Required(kw, "product_url", FieldStr);
    var price :- Required(kw, "price", v => FieldFloat(c, v));
    var original :- Defaulted(kw, "original_price", v => FieldOptFloat(c, v), None);
    var sales :- Required(kw, "sales_count", v => FieldInt(c, v));
    var rating :- Defaulted(kw, "rating", v => FieldOptFloat(c, v), None);
    var reviewCount :- Defaulted(kw, "review_count", v => FieldInt(c, v), 0);
    var shop :- Defaulted(kw, "shop_name", FieldOptStr, None);
    var category :- Defaulted(kw, "category", FieldOptStr, None);
    var reviews :- Defaulted(kw, "reviews", FieldStrList, []);
    var image :- Defaulted(kw, "image_url", FieldOptStr, None);
    Success(ProductData(id, title, url, price, original, sales, rating, reviewCount,
                        shop, category, reviews, image))
  }

  /** `ProductAnalysis(...)` with every field given (models.py:26): the
      score is range-checked, nothing else is. */
  function MakeAnalysis(score: int, why: string, problem: string, triggers: seq<string>,
                        angles: seq<string>, flags: seq<string>, audience: string,
                        hooks: seq<string>): (r: Result<ProductAnalysis, string>)
    ensures r.Success? <==> ValidScore(score)
    ensures r.Success? ==> (r.value.viralityScore == score && r.value.whyWinning == why
                            && r.value.problemSolved == problem && r.value.emotionalTriggers == triggers
                            && r.value.marketingAngles == angles && r.value.qualityFlags == flags
                            && r.value.targetAudience == audience && r.value.adHooks == hooks)
    ensures r.Failure? ==> r.error == "virality_score"
  {
    if 0 <= score <= 100 then
      Success(ProductAnalysis(score, why, problem, triggers, angles, flags, audience, hooks))
    else Failure("virality_score")
  }

  /** `ProductAnalysis(**kw)` (models.py:23-41): the score and three
      strings are required, the four lists default to empty. */
  function ValidateAnalysis(c: Coercions, kw: map<string, Json>): (r: Result<ProductAnalysis, string>)
    ensures r.Success? ==> ValidScore(r.value.viralityScore)
    ensures r.Success? ==> "virality_score" in kw && FieldInt(c, kw["virality_score"]) == Some(r.value.viralityScore)
    ensures ("virality_score" !in kw || "why_winning" !in kw || "problem_solved" !in kw
             || "target_audience" !in kw) ==> r.Failure?
    ensures r.Success? ==> (kw["why_winning"] == JStr(r.value.whyWinning)
                            && kw["problem_solved"] == JStr(r.value.problemSolved)
                            && kw["target_audience"] == JStr(r.value.targetAudience))
    ensures r.Success? && "emotional_triggers" !in kw ==> r.value.emotionalTriggers == []
    ensures r.Success? && "marketing_angles" !in kw ==> r.value.marketingAngles == []
    ensures r.Success? && "quality_flags" !in kw ==> r.value.qualityFlags == []
    ensures r.Success? && "ad_hooks" !in kw ==> r.value.adHooks == []
    ensures r.Success? && "emotional_triggers" in kw ==> FieldStrList(kw["emotional_triggers"]) == Some(r.value.emotionalTriggers)
    ensures r.Success? && "marketing_angles" in kw ==> FieldStrList(kw["marketing_angles"]) == Some(r.value.marketingAngles)
    ensures r.Success? && "quality_flags" in kw ==> FieldStrList(kw["quality_flags"]) == Some(r.value.qualityFlags)
    ensures r.Success? && "ad_hooks" in kw ==> FieldStrList(kw["ad_hooks"]) == Some(r.value.adHooks)
    ensures r.Success? <==>
              && "virality_score" in kw && FieldInt(c, kw["virality_score"]).Some?
              && ValidScore(FieldInt(c, kw["virality_score"]).value)
              && IsText(kw, "why_winning") && IsText(kw, "problem_solved") && IsText(kw, "target_audience")
              && Passes(kw, "emotional_triggers", FieldStrList) && Passes(kw, "marketing_angles", FieldStrList)
              && Passes(kw, "quality_flags", FieldStrList) && Passes(kw, "ad_hooks", FieldStrList)
  {
    var score :- Required(kw, "virality_score", v => FieldInt(c, v));
    var why :- Required(kw, "why_winning", FieldStr);
    var problem :- Required(kw, "problem_solved", FieldStr);
    var triggers :- Defaulted(kw, "emotional_triggers", FieldStrList, []);
    var angles :- Defaulted(kw, "marketing_angles", FieldStrList, []);
    var flags :- Defaulted(kw, "quality_flags", FieldStrList, []);
    var audience :- Required(kw, "target_audience", FieldStr);
    var hooks :- Defaulted(kw, "ad_hooks", FieldStrList, []);
    MakeAnalysis(score, why, problem, triggers, angles, flags, audience, hooks)
  }

  /** An integer score outside [0,100] is rejected, boundaries accepted. */
  lemma ScoreBounds(c: Coercions, score: int, kw: map<string, Json>)
    requires kw.Keys == {"virality_score", "why_winning", "problem_solved", "target_audience"}
    requires kw["virality_score"] == JInt(score)
    requires kw["why_winning"].JStr? && kw["problem_solved"].JStr? && kw["target_audience"].JStr?
    ensures ValidateAnalysis(c, kw).Success? <==> 0 <= score <= 100
    ensures ValidateAnalysis(c, kw).Success? ==> ValidateAnalysis(c, kw).value.emotionalTriggers == []
  {
  }

  // ---------------------------------------------------------------------
  // Merge and discount
  // ---------------------------------------------------------------------

  /** Python's `round(x, 1)` on an exact value: the nearest multiple of
      0.1, ties to the even multiple. */
  function RoundTenth(x: real): (r: real)
    ensures (r * 10.0).Floor as real == r * 10.0
    ensures -0.05 <= r - x <= 0.05
  {
    var y := x * 10.0;
    var n := y.Floor;
    var f := y - n as real;
    var k := if f > 0.5 then n + 1 else if f < 0.5 then n else if n % 2 == 0 then n else n + 1;
    k as real / 10.0
  }

  /** The discount of models.py:73-77 before rounding: present exactly when
      the original price is given, non-zero and above the price. */
  function RawDiscount(price: real, originalPrice: Option<real>): (r: Option<real>)
    ensures r.Some? <==> originalPrice.Some? && originalPrice.value != 0.0 && originalPrice.value > price
    ensures r.Some? ==> r.value * originalPrice.value == (originalPrice.value - price) * 100.0
  {
    match originalPrice
    case Some(o) =>
      if o != 0.0 && o > price then Some((1.0 - price / o) * 100.0) else None
    case None => None
  }

  /** With a non-negative price, a present discount lies in (0,100], and
      its rounding in [0,100]. */
  lemma DiscountInRange(price: real, originalPrice: Option<real>)
    requires price >= 0.0
    requires RawDiscount(price, originalPrice).Some?
    ensures 0.0 < RawDiscount(price, originalPrice).value <= 100.0
    ensures 0.0 <= RoundTenth(RawDiscount(price, originalPrice).value) <= 100.0
  {
    var o := originalPrice.value;
    var d := RawDiscount(price, originalPrice).value;
    assert o > 0.0;
    assert d * o == (o - price) * 100.0;
    assert d * o <= o * 100.0;
    assert d * o > 0.0;
    RoundBounds(d);
  }

  lemma RoundBounds(x: real)
    requires 0.0 < x <= 100.0
    ensures 0.0 <= RoundTenth(x) <= 100.0
  {
    var y := x * 10.0;
    assert 0.0 < y <= 1000.0;
    assert 0 <= y.Floor <= 1000;
  }

  /** `AnalyzedProduct.from_product_and_analysis` (models.py:68-100). */
  function FromProductAndAnalysis(p: ProductData, a: ProductAnalysis): (r: AnalyzedProduct)
    ensures r.discountPercentage.Some? <==> RawDiscount(p.price, p.originalPrice).Some?
    ensures r.discountPercentage.Some? ==> r.discountPercentage.value == RoundTenth(RawDiscount(p.price, p.originalPrice).value)
    ensures r.viralityScore == a.viralityScore
  {
    var discount := match RawDiscount(p.price, p.originalPrice)
      case Some(d) => Some(RoundTenth(d))
      case None => None;
    AnalyzedProduct(
      p.productId, p.productTitle, p.productUrl, p.price, p.originalPrice, discount,
      p.salesCount, p.rating, p.reviewCount, p.shopName, p.category, p.imageUrl,
      a.viralityScore, a.whyWinning, a.problemSolved, a.emotionalTriggers,
      a.marketingAngles, a.qualityFlags, a.targetAudience, a.adHooks)
  }

  /** A product at 19.99 whose original price was 29.99 shows a 33.3%
      discount. */
  lemma DiscountExample()
    ensures RawDiscount(19.99, Some(29.99)).Some?
    ensures RoundTenth(RawDiscount(19.99, Some(29.99)).value) == 33.3
  {
    var d := RawDiscount(19.99, Some(29.99)).value;
    assert d == 1000.0 / 29.99;
    assert 333.0 <= d * 10.0 < 333.5;
  }

  /** The product fields a merged record keeps (all but the reviews). */
  function ProductPart(r: AnalyzedProduct): ProductData {
    ProductData(r.productId, r.productTitle, r.productUrl, r.price, r.originalPrice,
                r.salesCount, r.rating, r.reviewCount, r.shopName, r.category, [], r.imageUrl)
  }

  /** The analysis fields of a merged record. */
  function AnalysisPart(r: AnalyzedProduct): ProductAnalysis {
    ProductAnalysis(r.viralityScore, r.whyWinning, r.problemSolved, r.emotionalTriggers,
                    r.marketingAngles, r.qualityFlags, r.targetAudience, r.adHooks)
  }

  /** The merge loses nothing but the reviews: both inputs can be read back
      from it, and the only computed field is the discount. */
  lemma MergeCopiesFields(p: ProductData, a: ProductAnalysis)
    ensures AnalysisPart(FromProductAndAnalysis(p, a)) == a
    ensures ProductPart(FromProductAndAnalysis(p, a)) == p.(reviews := [])
  {
  }

  // ---------------------------------------------------------------------
  // Actor input
  // ---------------------------------------------------------------------

  /** The Actor configuration (models.py:103-116). */
  datatype ActorInput = ActorInput(
    category: string,
    maxProducts: int,
    aiProvider: string,
    anthropicApiKey: Option<string>,
    openaiApiKey: Option<string>,
    openrouterApiKey: Option<string>,
    openrouterModel: Option<string>,
    includeReviewAnalysis: bool,
    minSalesCount: int)

  const DefaultInput := ActorInput("Kitchen Gadgets", 10, "openrouter", None, None, None, None, true, 100)

  /** The configuration fields, each known by a camelCase alias and a
      snake_case name (the same key for `category`). */
  datatype InputField =
    | Category | MaxProducts | AiProvider | AnthropicApiKey | OpenaiApiKey
    | OpenrouterApiKey | OpenrouterModel | IncludeReviewAnalysis | MinSalesCount

  function Alias(f: InputField): string {
    match f
    case Category => "category"
    case MaxProducts => "maxProducts"
    case AiProvider => "aiProvider"
    case AnthropicApiKey => "anthropicApiKey"
    case OpenaiApiKey => "openaiApiKey"
    case OpenrouterApiKey => "openrouterApiKey"
    case OpenrouterModel => "openrouterModel"
    case IncludeReviewAnalysis => "includeReviewAnalysis"
    case MinSalesCount => "minSalesCount"
  }

  function Name(f: InputField): string {
    match f
    case Category => "category"
    case MaxProducts => "max_products"
    case AiProvider => "ai_provider"
    case AnthropicApiKey => "anthropic_api_key"
    case OpenaiApiKey => "openai_api_key"
    case OpenrouterApiKey => "openrouter_api_key"
    case OpenrouterModel => "openrouter_model"
    case IncludeReviewAnalysis => "include_review_analysis"
    case MinSalesCount => "min_sales_count"
  }

  /** The value supplied for a field: under its alias, else under its name
      (`populate_by_name`). */
  function Lookup(raw: map<string, Json>, f: InputField): (r: Option<Json>)
    ensures Alias(f) !in raw && Name(f) !in raw <==> r == None
    ensures Alias(f) in raw ==> r == Some(raw[Alias(f)])
    ensures Alias(f) !in raw && Name(f) in raw ==> r == Some(raw[Name(f)])
  {
    if Alias(f) in raw then Some(raw[Alias(f)])
    else if Name(f) in raw then Some(raw[Name(f)])
    else None
  }

  /** The raw value supplied for each configuration field, if any. */
  datatype Supplied = Supplied(
    category: Option<Json>,
    maxProducts: Option<Json>,
    aiProvider: Option<Json>,
    anthropicApiKey: Option<Json>,
    openaiApiKey: Option<Json>,
    openrouterApiKey: Option<Json>,
    openrouterModel: Option<Json>,
    includeReviewAnalysis: Option<Json>,
    minSalesCount: Option<Json>)

  function SuppliedOf(raw: map<string, Json>): Supplied {
    Supplied(Lookup(raw, Category), Lookup(raw, MaxProducts), Lookup(raw, AiProvider),
             Lookup(raw, AnthropicApiKey), Lookup(raw, OpenaiApiKey), Lookup(raw, OpenrouterApiKey),
             Lookup(raw, OpenrouterModel), Lookup(raw, IncludeReviewAnalysis), Lookup(raw, MinSalesCount))
  }

  /** One field's value: its default when not supplied, else the validated
      value, else a validation error naming the field. */
  function InputValue<T>(supplied: Option<Json>, f: InputField, check: Json -> Option<T>, default: T): (r: Result<T, string>)
    ensures supplied == None ==> r == Success(default)
    ensures supplied.Some? ==> (r.Success? <==> check(supplied.value).Some?)
    ensures supplied.Some? && r.Success? ==> check(supplied.value) == Some(r.value)
    ensures r.Failure? ==> r.error == Name(f)
  {
    match supplied
    case None => Success(default)
    case Some(v) =>
      match check(v)
      case Some(x) => Success(x)
      case None => Failure(Name(f))
  }

  /** A configuration value that is not supplied, or that passes `check`. */
  predicate Accepted<T>(supplied: Option<Json>, check: Json -> Option<T>) {
    supplied.Some? ==> check(supplied.value).Some?
  }

  /** An optional integer value that, when supplied, is an integer in
      `[lo, hi]`. */
  predicate IntAccepted(c: Coercions, supplied: Option<Json>, lo: int, hi: int) {
    supplied.Some? ==> FieldInt(c, supplied.value).Some? && lo <= FieldInt(c, supplied.value).value <= hi
  }

  /** Every supplied configuration value validates. */
  predicate SuppliedValid(c: Coercions, s: Supplied) {
    && Accepted(s.category, FieldStr)
    && IntAccepted(c, s.maxProducts, 1, 50)
    && Accepted(s.aiProvider, FieldStr)
    && Accepted(s.anthropicApiKey, FieldOptStr)
    && Accepted(s.openaiApiKey, FieldOptStr)
    && Accepted(s.openrouterApiKey, FieldOptStr)
    && Accepted(s.openrouterModel, FieldOptStr)
    && Accepted(s.includeReviewAnalysis, v => FieldBool(c, v))
    && (s.minSalesCount.Some? ==> FieldInt(c, s.minSalesCount.value).Some? && FieldInt(c, s.minSalesCount.value).value >= 0)
  }

  function InRange(v: Option<int>, lo: int, hi: Option<int>): Option<int> {
    match v
    case Some(i) => if lo <= i && (hi.None? || i <= hi.value) then Some(i) else None
    case None => None
  }

  /** `ActorInput(**raw)` (models.py:103-116): defaults for missing fields,
      `max_products` in [1,50], `min_sales_count` at least 0. */
  function ParseActorInput(c: Coercions, raw: map<string, Json>): (r: Result<ActorInput, string>)
    ensures r.Success? <==> SuppliedValid(c, SuppliedOf(raw))
    ensures r.Success? ==> 1 <= r.value.maxProducts <= 50 && r.value.minSalesCount >= 0
    ensures (match Lookup(raw, MaxProducts)
             case Some(JInt(n)) => n < 1 || n > 50
             case _ => false) ==> r.Failure?
    ensures (match Lookup(raw, MinSalesCount)
             case Some(JInt(n)) => n < 0
             case _ => false) ==> r.Failure?
    ensures r.Success? && Lookup(raw, Category) == None ==> r.value.category == "Kitchen Gadgets"
    ensures r.Success? && Lookup(raw, MaxProducts) == None ==> r.value.maxProducts == 10
    ensures r.Success? && Lookup(raw, AiProvider) == None ==> r.value.aiProvider == "openrouter"
    ensures r.Success? && Lookup(raw, IncludeReviewAnalysis) == None ==> r.value.includeReviewAnalysis
    ensures r.Success? && Lookup(raw, MinSalesCount) == None ==> r.value.minSalesCount == 100
    ensures r.Success? && Lookup(raw, Category).Some? ==> Lookup(raw, Category) == Some(JStr(r.value.category))
    ensures r.Success? && Lookup(raw, MaxProducts).Some? ==> FieldInt(c, Lookup(raw, MaxProducts).value) == Some(r.value.maxProducts)
    ensures r.Success? && Lookup(raw, AiProvider).Some? ==> Lookup(raw, AiProvider) == Some(JStr(r.value.aiProvider))
    ensures r.Success? && Lookup(raw, AnthropicApiKey).Some? ==> FieldOptStr(Lookup(raw, AnthropicApiKey).value) == Some(r.value.anthropicApiKey)
    ensures r.Success? && Lookup(raw, OpenaiApiKey).Some? ==> FieldOptStr(Lookup(raw, OpenaiApiKey).value) == Some(r.value.openaiApiKey)
    ensures r.Success? && Lookup(raw, OpenrouterApiKey).Some? ==> FieldOptStr(Lookup(raw, OpenrouterApiKey).value) == Some(r.value.openrouterApiKey)
    ensures r.Success? && Lookup(raw, OpenrouterModel).Some? ==> FieldOptStr(Lookup(raw, OpenrouterModel).value) == Some(r.value.openrouterModel)
    ensures r.Success? && Lookup(raw, IncludeReviewAnalysis).Some? ==> FieldBool(c, Lookup(raw, IncludeReviewAnalysis).value) == Some(r.value.includeReviewAnalysis)
    ensures r.Success? && Lookup(raw, MinSalesCount).Some? ==> FieldInt(c, Lookup(raw, MinSalesCount).value) == Some(r.value.minSalesCount)
  {
    ValidateSupplied(c, SuppliedOf(raw))
  }

  function ValidateSupplied(c: Coercions, s: Supplied): (r: Result<ActorInput, string>)
    ensures r.Success? <==> SuppliedValid(c, s)
    ensures r.Success? ==> 1 <= r.value.maxProducts <= 50 && r.value.minSalesCount >= 0
    ensures (match s.maxProducts
             case Some(JInt(n)) => n < 1 || n > 50
             case _ => false) ==> r.Failure?
    ensures (match s.minSalesCount
             case Some(JInt(n)) => n < 0
             case _ => false) ==> r.Failure?
    ensures r.Success? && s.category == None ==> r.value.category == "Kitchen Gadgets"
    ensures r.Success? && s.maxProducts == None ==> r.value.maxProducts == 10
    ensures r.Success? && s.aiProvider == None ==> r.value.aiProvider == "openrouter"
    ensures r.Success? && s.includeReviewAnalysis == None ==> r.value.includeReviewAnalysis
    ensures r.Success? && s.minSalesCount == None ==> r.value.minSalesCount == 100
    ensures r.Success? && s.category.Some? ==> s.category == Some(JStr(r.value.category))
    ensures r.Success? && s.maxProducts.Some? ==> FieldInt(c, s.maxProducts.value) == Some(r.value.maxProducts)
    ensures r.Success? && s.aiProvider.Some? ==> s.aiProvider == Some(JStr(r.value.aiProvider))
    ensures r.Success? && s.anthropicApiKey.Some? ==> FieldOptStr(s.anthropicApiKey.value) == Some(r.value.anthropicApiKey)
    ensures r.Success? && s.openaiApiKey.Some? ==> FieldOptStr(s.openaiApiKey.value) == Some(r.value.openaiApiKey)
    ensures r.Success? && s.openrouterApiKey.Some? ==> FieldOptStr(s.openrouterApiKey.value) == Some(r.value.openrouterApiKey)
    ensures r.Success? && s.openrouterModel.Some? ==> FieldOptStr(s.openrouterModel.value) == Some(r.value.openrouterModel)
    ensures r.Success? && s.includeReviewAnalysis.Some? ==> FieldBool(c, s.includeReviewAnalysis.value) == Some(r.value.includeReviewAnalysis)
    ensures r.Success? && s.minSalesCount.Some? ==> FieldInt(c, s.minSalesCount.value) == Some(r.value.minSalesCount)
  {
    var category :- InputValue(s.category, Category, FieldStr, "Kitchen Gadgets");
    var maxProducts :- InputValue(s.maxProducts, MaxProducts, v => InRange(FieldInt(c, v), 1, Some(50)), 10);
    var provider :- InputValue(s.aiProvider, AiProvider, FieldStr, "openrouter");
    var anthropicKey :- InputValue(s.anthropicApiKey, AnthropicApiKey, FieldOptStr, None);
    var openaiKey :- InputValue(s.openaiApiKey, OpenaiApiKey, FieldOptStr, None);
    var openrouterKey :- InputValue(s.openrouterApiKey, OpenrouterApiKey, FieldOptStr, None);
    var model :- InputValue(s.openrouterModel, OpenrouterModel, FieldOptStr, None);
    var includeReviews :- InputValue(s.includeReviewAnalysis, IncludeReviewAnalysis, v => FieldBool(c, v), true);
    var minSales :- InputValue(s.minSalesCount, MinSalesCount, v => InRange(FieldInt(c, v), 0, None), 100);
    Success(ActorInput(category, maxProducts, provider, anthropicKey, openaiKey, openrouterKey,
                       model, includeReviews, minSales))
  }

  /** Integer bounds of `max_products` and `min_sales_count` are
      inclusive: both ends of [1,50] and 0 are accepted. */
  lemma IntBoundsAccepted(c: Coercions, n: int, m: int)
    ensures ParseActorInput(c, map["maxProducts" := JInt(n), "minSalesCount" := JInt(m)]).Success?
        <==> 1 <= n <= 50 && m >= 0
  {
    var raw := map["maxProducts" := JInt(n), "minSalesCount" := JInt(m)];
    assert SuppliedOf(raw) == Supplied(None, Some(JInt(n)), None, None, None, None, None, None, Some(JInt(m)));
  }

  /** An empty input yields the documented defaults. */
  lemma EmptyInputDefaults(c: Coercions)
    ensures ParseActorInput(c, map[]) == Success(DefaultInput)
  {
  }

  /** Values given under their camelCase aliases are taken over. */
  lemma CamelCaseInput(c: Coercions)
    ensures ParseActorInput(c, map["maxProducts" := JInt(25), "aiProvider" := JStr("openai"),
                                   "includeReviewAnalysis" := JBool(false)])
         == Success(DefaultInput.(maxProducts := 25, aiProvider := "openai", includeReviewAnalysis := false))
  {
    var raw := map["maxProducts" := JInt(25), "aiProvider" := JStr("openai"),
                   "includeReviewAnalysis" := JBool(false)];
    assert SuppliedOf(raw) == Supplied(None, Some(JInt(25)), Some(JStr("openai")), None, None, None, None,
                                       Some(JBool(false)), None);
  }

  /** Supplying a field under its alias or under its name gives the same
      configuration. */
  lemma AliasOrName(c: Coercions, raw: map<string, Json>, f: InputField, v: Json)
    requires Alias(f) !in raw && Name(f) !in raw
    ensures ParseActorInput(c, raw[Alias(f) := v]) == ParseActorInput(c, raw[Name(f) := v])
  {
    LookupSame(raw, f, v, Category);
    LookupSame(raw, f, v, MaxProducts);
    LookupSame(raw, f, v, AiProvider);
    LookupSame(raw, f, v, AnthropicApiKey);
    LookupSame(raw, f, v, OpenaiApiKey);
    LookupSame(raw, f, v, OpenrouterApiKey);
    LookupSame(raw, f, v, OpenrouterModel);
    LookupSame(raw, f, v, IncludeReviewAnalysis);
    LookupSame(raw, f, v, MinSalesCount);
    assert SuppliedOf(raw[Alias(f) := v]) == SuppliedOf(raw[Name(f) := v]);
  }

  /** Adding a value under a field's alias or under its name is seen the
      same way by every field's lookup. */
  lemma LookupSame(raw: map<string, Json>, f: InputField, v: Json, g: InputField)
    requires Alias(f) !in raw && Name(f) !in raw
    ensures Lookup(raw[Alias(f) := v], g) == Lookup(raw[Name(f) := v], g)
  {
  }
}
