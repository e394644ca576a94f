/** The analyzer of `analyzer.py`: provider selection, prompt construction,
    markdown-fence stripping, response parsing with its degraded defaults,
    and per-product analysis. The generation backend and the JSON parser are
    function parameters; a generation failure carries the exception's
    message. */
module Analyzer {
  import opened Wrappers
  import opened Values
  import opened Models
  import opened Text

  // ---------------------------------------------------------------------
  // Provider selection (analyzer.py:53-83)
  // ---------------------------------------------------------------------

  /** The selected backend; only the gateway carries a configurable model. */
  datatype Backend = Anthropic | OpenAI | OpenRouter(model: string)

  datatype Analyzer = Analyzer(backend: Backend)

  /** The constructor's default gateway model. */
  const DefaultOpenrouterModel := "nvidia/nemotron-nano-9b-v2:free"

  /** Python truthiness of an optional key: present and non-empty. */
  predicate HasKey(key: Option<string>) {
    key.Some? && key.value != ""
  }

  /** `ProductAnalyzer.__init__`: only the selected provider's key is
      checked; an unknown provider name is an error. */
  function NewAnalyzer(provider: string, anthropicKey: Option<string>, openaiKey: Option<string>,
                       openrouterKey: Option<string>, openrouterModel: string): (r: Result<Analyzer, string>)
    ensures r.Success? <==> ((provider == "anthropic" && HasKey(anthropicKey))
                             || (provider == "openai" && HasKey(openaiKey))
                             || (provider == "openrouter" && HasKey(openrouterKey)))
    ensures r.Success? && provider == "anthropic" ==> r.value.backend == Anthropic
    ensures r.Success? && provider == "openai" ==> r.value.backend == OpenAI
    ensures r.Success? && provider == "openrouter" ==> r.value.backend == OpenRouter(openrouterModel)
    ensures provider !in {"anthropic", "openai", "openrouter"} ==> r == Failure("Unknown AI provider: " + provider)
  {
    if provider == "anthropic" then
      if !HasKey(anthropicKey) then Failure("Anthropic API key is required") else Success(Analyzer(Anthropic))
    else if provider == "openai" then
      if !HasKey(openaiKey) then Failure("OpenAI API key is required") else Success(Analyzer(OpenAI))
    else if provider == "openrouter" then
      if !HasKey(openrouterKey) then Failure("OpenRouter API key is required")
      else Success(Analyzer(OpenRouter(openrouterModel)))
    else Failure("Unknown AI provider: " + provider)
  }

  /** The outcome of the constructor does not depend on the keys of the
      providers that are not selected. */
  lemma UnselectedKeysIgnored(provider: string, a1: Option<string>, o1: Option<string>, r1: Option<string>,
                              a2: Option<string>, o2: Option<string>, r2: Option<string>, model: string)
    requires provider == "anthropic" ==> a1 == a2
    requires provider == "openai" ==> o1 == o2
    requires provider == "openrouter" ==> r1 == r2
    ensures NewAnalyzer(provider, a1, o1, r1, model) == NewAnalyzer(provider, a2, o2, r2, model)
  {
  }

  // ---------------------------------------------------------------------
  // Requests (analyzer.py:133-156)
  // ---------------------------------------------------------------------

  datatype Api = AnthropicMessages | OpenAIChat | OpenRouterChat

  /** One generation request: a single user turn. */
  datatype Request = Request(api: Api, model: string, maxTokens: int, prompt: Prompt)

  const MaxTokens := 1024
  const FallbackOpenrouterModel := "meta-llama/llama-3.3-8b-instruct:free"

  /** The request `analyze_product` sends for a prompt: fixed models for the
      two direct backends, the configured model (or the fallback when it is
      empty) for the gateway, always 1024 tokens. */
  function BuildRequest(a: Analyzer, prompt: Prompt): (r: Request)
    ensures r.prompt == prompt && r.maxTokens == MaxTokens
    ensures r.model != ""
    ensures a.backend == Anthropic <==> r.api == AnthropicMessages
    ensures a.backend == OpenAI <==> r.api == OpenAIChat
    ensures a.backend == Anthropic ==> r.model == "claude-sonnet-4-20250514"
    ensures a.backend == OpenAI ==> r.model == "gpt-4o"
    ensures a.backend.OpenRouter? <==> r.api == OpenRouterChat
    ensures a.backend.OpenRouter? && a.backend.model != "" ==> r.model == a.backend.model
    ensures a.backend == OpenRouter("") ==> r.model == FallbackOpenrouterModel
  {
    match a.backend
    case Anthropic => Request(AnthropicMessages, "claude-sonnet-4-20250514", MaxTokens, prompt)
    case OpenAI => Request(OpenAIChat, "gpt-4o", MaxTokens, prompt)
    case OpenRouter(m) =>
      Request(OpenRouterChat, if m != "" then m else FallbackOpenrouterModel, MaxTokens, prompt)
  }

  // ---------------------------------------------------------------------
  // Prompt (analyzer.py:13-47, 85-99)
  // ---------------------------------------------------------------------

  /** A prompt: the fixed introduction of analyzer.py:13-15, then `body`,
      then the fixed JSON-format instructions of analyzer.py:26-47. The two
      fixed texts are constants of the program and are not reproduced here;
      `body` holds every slot the template fills. */
  datatype Prompt = Prompt(body: string)
  const NoReviews := "No reviews available"
  const MaxPromptReviews := 10

  /** One prompt line per review, for at most the first ten reviews. */
  function ReviewLines(reviews: seq<string>): (r: seq<string>)
    ensures |r| == if |reviews| < MaxPromptReviews then |reviews| else MaxPromptReviews
    ensures forall k :: 0 <= k < |r| ==> r[k] == "- " + reviews[k]
  {
    var shown := Take(reviews, MaxPromptReviews);
    seq(|shown|, k requires 0 <= k < |shown| => "- " + shown[k])
  }

  /** The reviews block: the review lines joined by newlines, or the
      sentinel text when there are no reviews. */
  function ReviewsBlock(reviews: seq<string>): (r: string)
    ensures r == NoReviews <==> |reviews| == 0
    ensures |reviews| > 0 ==> r == JoinLines(ReviewLines(reviews))
  {
    var joined := JoinLines(ReviewLines(reviews));
    if |reviews| > 0 then
      assert joined[0] == '-' by { JoinStartsWithDash(ReviewLines(reviews)); }
      assert NoReviews[0] == 'N';
      joined
    else NoReviews
  }

  lemma JoinStartsWithDash(lines: seq<string>)
    requires |lines| > 0 && StartsWith(lines[0], "- ")
    ensures StartsWith(JoinLines(lines), "- ")
  {
  }

  /** When no shown review contains a newline, the reviews block splits back
      into exactly one "- " line per shown review. */
  lemma ReviewsBlockLines(reviews: seq<string>)
    requires |reviews| > 0
    requires forall k :: 0 <= k < |reviews| ==> NoNewline(reviews[k])
    ensures SplitLines(ReviewsBlock(reviews)) == ReviewLines(reviews)
  {
    var lines := ReviewLines(reviews);
    forall k | 0 <= k < |lines|
      ensures NoNewline(lines[k])
    {
      assert lines[k] == "- " + reviews[k];
    }
    SplitJoinLines(lines);
  }

  /** The rating slot: "N/A" when the rating is absent or zero. */
  function RatingText(rating: Option<real>, showFloat: real -> string): (r: string)
    ensures rating.None? || rating.value == 0.0 ==> r == "N/A"
    ensures rating.Some? && rating.value != 0.0 ==> r == showFloat(rating.value)
  {
    if rating.Some? && rating.value != 0.0 then showFloat(rating.value) else "N/A"
  }

  /** The category slot: "Unknown" when the category is absent or empty. */
  function CategoryText(category: Option<string>): (r: string)
    ensures r == "Unknown" <==> category.None? || category.value == "" || category.value == "Unknown"
    ensures category.Some? && category.value != "" ==> r == category.value
  {
    if category.Some? && category.value != "" then category.value else "Unknown"
  }

  /** `_format_prompt`: the template with its seven slots filled, from the
      title to the reviews block. Python's rendering of floats (price,
      rating) is the parameter `showFloat`. Every slot lands between its
      label and the next one, the "N/A" and "Unknown" fallbacks included. */
  function FormatPrompt(p: ProductData, showFloat: real -> string): (r: Prompt)
    ensures p.rating.None? || p.rating.value == 0.0 ==> IsSlice("\nRating: " + "N/A" + "\nReview Count: ", r.body)
    ensures p.rating.Some? && p.rating.value != 0.0 ==>
              IsSlice("\nRating: " + showFloat(p.rating.value) + "\nReview Count: ", r.body)
    ensures p.category.None? || p.category.value == "" ==>
              IsSlice("\nCategory: " + "Unknown" + "\n\nRecent Reviews:\n", r.body)
    ensures p.category.Some? && p.category.value != "" ==>
              IsSlice("\nCategory: " + p.category.value + "\n\nRecent Reviews:\n", r.body)
    ensures StartsWith(r.body, "Product Title: " + p.productTitle + "\nPrice: $" + showFloat(p.price) + "\nSales Count: ")
    ensures IsSlice("\nSales Count: " + IntToDecimal(p.salesCount) + "\nRating: ", r.body)
    ensures IsSlice("\nReview Count: " + IntToDecimal(p.reviewCount) + "\nCategory: ", r.body)
    ensures EndsWith(r.body, "\n\nRecent Reviews:\n" + ReviewsBlock(p.reviews))
  {
    var title, price, sales, rating, count, category, block :=
      p.productTitle, showFloat(p.price), IntToDecimal(p.salesCount), RatingText(p.rating, showFloat),
      IntToDecimal(p.reviewCount), CategoryText(p.category), ReviewsBlock(p.reviews);
    PromptTextSlots(title, price, sales, rating, count, category, block);
    Prompt(PromptText(title, price, sales, rating, count, category, block))
  }

  /** The slot part of the template of analyzer.py:17-25, as text. */
  function PromptText(title: string, price: string, sales: string, rating: string, count: string,
                      category: string, block: string): string
  {
    "Product Title: " + title + "\nPrice: $" + price + "\nSales Count: " + sales
    + "\nRating: " + rating + "\nReview Count: " + count + "\nCategory: " + category
    + "\n\nRecent Reviews:\n" + block
  }

  /** Each slot sits between its own label and the next one: the title
      opens the text, the reviews block closes it. */
  lemma PromptTextSlots(title: string, price: string, sales: string, rating: string, count: string,
                        category: string, block: string)
    ensures var t := PromptText(title, price, sales, rating, count, category, block);
      && StartsWith(t, "Product Title: " + title + "\nPrice: $" + price)
      && StartsWith(t, "Product Title: " + title + "\nPrice: $" + price + "\nSales Count: ")
      && IsSlice("\nPrice: $" + price + "\nSales Count: ", t)
      && IsSlice("\nSales Count: " + sales + "\nRating: ", t)
      && IsSlice("\nRating: " + rating + "\nReview Count: ", t)
      && IsSlice("\nReview Count: " + count + "\nCategory: ", t)
      && IsSlice("\nCategory: " + category + "\n\nRecent Reviews:\n", t)
      && EndsWith(t, "\n\nRecent Reviews:\n" + block)
  {
    SliceEnd(("Product Title: " + title), "\nPrice: $", price, "\nSales Count: ");
    SliceExtend("\nPrice: $" + price + "\nSales Count: ", ("Product Title: " + title + "\nPrice: $" + price + "\nSales Count: "), sales);
    SliceExtend("\nPrice: $" + price + "\nSales Count: ", ("Product Title: " + title + "\nPrice: $" + price + "\nSales Count: " + sales), "\nRating: ");
    SliceExtend("\nPrice: $" + price + "\nSales Count: ", ("Product Title: " + title + "\nPrice: $" + price + "\nSales Count: " + sales + "\nRating: "), rating);
    SliceExtend("\nPrice: $" + price + "\nSales Count: ", ("Product Title: " + title + "\nPrice: $" + price + "\nSales Count: " + sales + "\nRating: " + rating), "\nReview Count: ");
    SliceExtend("\nPrice: $" + price + "\nSales Count: ", ("Product Title: " + title + "\nPrice: $" + price + "\nSales Count: " + sales + "\nRating: " + rating + "\nReview Count: "), count);
    SliceExtend("\nPrice: $" + price + "\nSales Count: ", ("Product Title: " + title + "\nPrice: $" + price + "\nSales Count: " + sales + "\nRating: " + rating + "\nReview Count: " + count), "\nCategory: ");
    SliceExtend("\nPrice: $" + price + "\nSales Count: ", ("Product Title: " + title + "\nPrice: $" + price + "\nSales Count: " + sales + "\nRating: " + rating + "\nReview Count: " + count + "\nCategory: "), category);
    SliceExtend("\nPrice: $" + price + "\nSales Count: ", ("Product Title: " + title + "\nPrice: $" + price + "\nSales Count: " + sales + "\nRating: " + rating + "\nReview Count: " + count + "\nCategory: " + category), "\n\nRecent Reviews:\n");
    SliceExtend("\nPrice: $" + price + "\nSales Count: ", ("Product Title: " + title + "\nPrice: $" + price + "\nSales Count: " + sales + "\nRating: " + rating + "\nReview Count: " + count + "\nCategory: " + category + "\n\nRecent Reviews:\n"), block);
    SliceEnd(("Product Title: " + title + "\nPrice: $" + price), "\nSales Count: ", sales, "\nRating: ");
    SliceExtend("\nSales Count: " + sales + "\nRating: ", ("Product Title: " + title + "\nPrice: $" + price + "\nSales Count: " + sales + "\nRating: "), rating);
    SliceExtend("\nSales Count: " + sales + "\nRating: ", ("Product Title: " + title + "\nPrice: $" + price + "\nSales Count: " + sales + "\nRating: " + rating), "\nReview Count: ");
    SliceExtend("\nSales Count: " + sales + "\nRating: ", ("Product Title: " + title + "\nPrice: $" + price + "\nSales Count: " + sales + "\nRating: " + rating + "\nReview Count: "), count);
    SliceExtend("\nSales Count: " + sales + "\nRating: ", ("Product Title: " + title + "\nPrice: $" + price + "\nSales Count: " + sales + "\nRating: " + rating + "\nReview Count: " + count), "\nCategory: ");
    SliceExtend("\nSales Count: " + sales + "\nRating: ", ("Product Title: " + title + "\nPrice: $" + price + "\nSales Count: " + sales + "\nRating: " + rating + "\nReview Count: " + count + "\nCategory: "), category);
    SliceExtend("\nSales Count: " + sales + "\nRating: ", ("Product Title: " + title + "\nPrice: $" + price + "\nSales Count: " + sales + "\nRating: " + rating + "\nReview Count: " + count + "\nCategory: " + category), "\n\nRecent Reviews:\n");
    SliceExtend("\nSales Count: " + sales + "\nRating: ", ("Product Title: " + title + "\nPrice: $" + price + "\nSales Count: " + sales + "\nRating: " + rating + "\nReview Count: " + count + "\nCategory: " + category + "\n\nRecent Reviews:\n"), block);
    SliceEnd(("Product Title: " + title + "\nPrice: $" + price + "\nSales Count: " + sales), "\nRating: ", rating, "\nReview Count: ");
    SliceExtend("\nRating: " + rating + "\nReview Count: ", ("Product Title: " + title + "\nPrice: $" + price + "\nSales Count: " + sales + "\nRating: " + rating + "\nReview Count: "), count);
    SliceExtend("\nRating: " + rating + "\nReview Count: ", ("Product Title: " + title + "\nPrice: $" + price + "\nSales Count: " + sales + "\nRating: " + rating + "\nReview Count: " + count), "\nCategory: ");
    SliceExtend("\nRating: " + rating + "\nReview Count: ", ("Product Title: " + title + "\nPrice: $" + price + "\nSales Count: " + sales + "\nRating: " + rating + "\nReview Count: " + count + "\nCategory: "), category);
    SliceExtend("\nRating: " + rating + "\nReview Count: ", ("Product Title: " + title + "\nPrice: $" + price + "\nSales Count: " + sales + "\nRating: " + rating + "\nReview Count: " + count + "\nCategory: " + category), "\n\nRecent Reviews:\n");
    SliceExtend("\nRating: " + rating + "\nReview Count: ", ("Product Title: " + title + "\nPrice: $" + price + "\nSales Count: " + sales + "\nRating: " + rating + "\nReview Count: " + count + "\nCategory: " + category + "\n\nRecent Reviews:\n"), block);
    SliceEnd(("Product Title: " + title + "\nPrice: $" + price + "\nSales Count: " + sales + "\nRating: " + rating), "\nReview Count: ", count, "\nCategory: ");
    SliceExtend("\nReview Count: " + count + "\nCategory: ", ("Product Title: " + title + "\nPrice: $" + price + "\nSales Count: " + sales + "\nRating: " + rating + "\nReview Count: " + count + "\nCategory: "), category);
    SliceExtend("\nReview Count: " + count + "\nCategory: ", ("Product Title: " + title + "\nPrice: $" + price + "\nSales Count: " + sales + "\nRating: " + rating + "\nReview Count: " + count + "\nCategory: " + category), "\n\nRecent Reviews:\n");
    SliceExtend("\nReview Count: " + count + "\nCategory: ", ("Product Title: " + title + "\nPrice: $" + price + "\nSales Count: " + sales + "\nRating: " + rating + "\nReview Count: " + count + "\nCategory: " + category + "\n\nRecent Reviews:\n"), block);
    SliceEnd(("Product Title: " + title + "\nPrice: $" + price + "\nSales Count: " + sales + "\nRating: " + rating + "\nReview Count: " + count), "\nCategory: ", category, "\n\nRecent Reviews:\n");
    SliceExtend("\nCategory: " + category + "\n\nRecent Reviews:\n", ("Product Title: " + title + "\nPrice: $" + price + "\nSales Count: " + sales + "\nRating: " + rating + "\nReview Count: " + count + "\nCategory: " + category + "\n\nRecent Reviews:\n"), block);
    StartsWithSelf(("Product Title: " + title + "\nPrice: $" + price));
    StartsExtend(("Product Title: " + title + "\nPrice: $" + price), ("Product Title: " + title + "\nPrice: $" + price), "\nSales Count: ");
    StartsExtend(("Product Title: " + title + "\nPrice: $" + price), ("Product Title: " + title + "\nPrice: $" + price + "\nSales Count: "), sales);
    StartsExtend(("Product Title: " + title + "\nPrice: $" + price), ("Product Title: " + title + "\nPrice: $" + price + "\nSales Count: " + sales), "\nRating: ");
    StartsExtend(("Product Title: " + title + "\nPrice: $" + price), ("Product Title: " + title + "\nPrice: $" + price + "\nSales Count: " + sales + "\nRating: "), rating);
    StartsExtend(("Product Title: " + title + "\nPrice: $" + price), ("Product Title: " + title + "\nPrice: $" + price + "\nSales Count: " + sales + "\nRating: " + rating), "\nReview Count: ");
    StartsExtend(("Product Title: " + title + "\nPrice: $" + price), ("Product Title: " + title + "\nPrice: $" + price + "\nSales Count: " + sales + "\nRating: " + rating + "\nReview Count: "), count);
    StartsExtend(("Product Title: " + title + "\nPrice: $" + price), ("Product Title: " + title + "\nPrice: $" + price + "\nSales Count: " + sales + "\nRating: " + rating + "\nReview Count: " + count), "\nCategory: ");
    StartsExtend(("Product Title: " + title + "\nPrice: $" + price), ("Product Title: " + title + "\nPrice: $" + price + "\nSales Count: " + sales + "\nRating: " + rating + "\nReview Count: " + count + "\nCategory: "), category);
    StartsExtend(("Product Title: " + title + "\nPrice: $" + price), ("Product Title: " + title + "\nPrice: $" + price + "\nSales Count: " + sales + "\nRating: " + rating + "\nReview Count: " + count + "\nCategory: " + category), "\n\nRecent Reviews:\n");
    StartsExtend(("Product Title: " + title + "\nPrice: $" + price), ("Product Title: " + title + "\nPrice: $" + price + "\nSales Count: " + sales + "\nRating: " + rating + "\nReview Count: " + count + "\nCategory: " + category + "\n\nRecent Reviews:\n"), block);
    StartsWithSelf(("Product Title: " + title + "\nPrice: $" + price + "\nSales Count: "));
    StartsExtend(("Product Title: " + title + "\nPrice: $" + price + "\nSales Count: "), ("Product Title: " + title + "\nPrice: $" + price + "\nSales Count: "), sales);
    StartsExtend(("Product Title: " + title + "\nPrice: $" + price + "\nSales Count: "), ("Product Title: " + title + "\nPrice: $" + price + "\nSales Count: " + sales), "\nRating: ");
    StartsExtend(("Product Title: " + title + "\nPrice: $" + price + "\nSales Count: "), ("Product Title: " + title + "\nPrice: $" + price + "\nSales Count: " + sales + "\nRating: "), rating);
    StartsExtend(("Product Title: " + title + "\nPrice: $" + price + "\nSales Count: "), ("Product Title: " + title + "\nPrice: $" + price + "\nSales Count: " + sales + "\nRating: " + rating), "\nReview Count: ");
    StartsExtend(("Product Title: " + title + "\nPrice: $" + price + "\nSales Count: "), ("Product Title: " + title + "\nPrice: $" + price + "\nSales Count: " + sales + "\nRating: " + rating + "\nReview Count: "), count);
    StartsExtend(("Product Title: " + title + "\nPrice: $" + price + "\nSales Count: "), ("Product Title: " + title + "\nPrice: $" + price + "\nSales Count: " + sales + "\nRating: " + rating + "\nReview Count: " + count), "\nCategory: ");
    StartsExtend(("Product Title: " + title + "\nPrice: $" + price + "\nSales Count: "), ("Product Title: " + title + "\nPrice: $" + price + "\nSales Count: " + sales + "\nRating: " + rating + "\nReview Count: " + count + "\nCategory: "), category);
    StartsExtend(("Product Title: " + title + "\nPrice: $" + price + "\nSales Count: "), ("Product Title: " + title + "\nPrice: $" + price + "\nSales Count: " + sales + "\nRating: " + rating + "\nReview Count: " + count + "\nCategory: " + category), "\n\nRecent Reviews:\n");
    StartsExtend(("Product Title: " + title + "\nPrice: $" + price + "\nSales Count: "), ("Product Title: " + title + "\nPrice: $" + price + "\nSales Count: " + sales + "\nRating: " + rating + "\nReview Count: " + count + "\nCategory: " + category + "\n\nRecent Reviews:\n"), block);
    EndsPair(("Product Title: " + title + "\nPrice: $" + price + "\nSales Count: " + sales + "\nRating: " + rating + "\nReview Count: " + count + "\nCategory: " + category), "\n\nRecent Reviews:\n", block);
  }

  lemma SliceEnd(a: string, b: string, c: string, d: string)
    ensures IsSlice(b + c + d, a + b + c + d)
  {
    assert (a + b + c + d)[|a|..|a + b + c + d|] == b + c + d;
  }

  lemma SliceExtend(x: string, y: string, z: string)
    requires IsSlice(x, y)
    ensures IsSlice(x, y + z)
  {
    var i, j :| 0 <= i <= j <= |y| && x == y[i..j];
    assert (y + z)[i..j] == y[i..j];
  }

  lemma StartsWithSelf(x: string)
    ensures StartsWith(x, x)
  {
  }

  lemma StartsExtend(x: string, y: string, z: string)
    requires StartsWith(y, x)
    ensures StartsWith(y + z, x)
  {
    assert (y + z)[..|x|] == y[..|x|];
  }

  lemma EndsPair(a: string, b: string, c: string)
    ensures EndsWith(a + b + c, b + c)
  {
    assert (a + b + c)[|a|..] == b + c;
  }

  /** The prompt opens with the title and price slots and closes with the
      reviews block. */
  lemma PromptShape(p: ProductData, showFloat: real -> string)
    ensures StartsWith(FormatPrompt(p, showFloat).body, "Product Title: " + p.productTitle + "\nPrice: $" + showFloat(p.price))
    ensures EndsWith(FormatPrompt(p, showFloat).body, "\n\nRecent Reviews:\n" + ReviewsBlock(p.reviews))
  {
    PromptTextSlots(p.productTitle, showFloat(p.price), IntToDecimal(p.salesCount), RatingText(p.rating, showFloat),
                    IntToDecimal(p.reviewCount), CategoryText(p.category), ReviewsBlock(p.reviews));
  }

  // ---------------------------------------------------------------------
  // Response parsing (analyzer.py:101-127)
  // ---------------------------------------------------------------------

  /** The markdown-fence stripping ahead of JSON parsing: trim, drop a
      leading "```json", then a leading "```", then a trailing "```",
      trim again. */
  function StripFences(text: string): (r: string)
    ensures IsStripped(r)
  {
    Strip(DropSuffix(DropPrefix(DropPrefix(Strip(text), "```json"), "```"), "```"))
  }

  /** The stripped text is one contiguous piece of the response. */
  lemma StripFencesIsSlice(text: string)
    ensures IsSlice(StripFences(text), text)
  {
    var s1 := Strip(text);
    var s2 := DropPrefix(s1, "```json");
    var s3 := DropPrefix(s2, "```");
    var s4 := DropSuffix(s3, "```");
    StripIsSlice(text);
    SliceTrans(s2, s1, text);
    SliceTrans(s3, s2, text);
    SliceTrans(s4, s3, text);
    StripIsSlice(s4);
    SliceTrans(Strip(s4), s4, text);
  }

  /** A body wrapped in a "```json" fence comes back unchanged. */
  lemma FencedRoundTrip(body: string)
    requires IsStripped(body)
    ensures StripFences("```json\n" + body + "\n```") == body
  {
    var text := "```json\n" + body + "\n```";
    assert text[0] == '`' && text[|text| - 1] == '`';
    StripStripped(text);
    assert text == "```json" + ("\n" + body + "\n```");
    assert StartsWith(text, "```json") by { assert text[..7] == "```json"; }
    var s2 := DropPrefix(text, "```json");
    assert s2 == "\n" + body + "\n```";
    assert !StartsWith(s2, "```") by { assert s2[0] == '\n'; }
    assert s2 == ("\n" + body + "\n") + "```";
    assert EndsWith(s2, "```") by { assert s2[|s2| - 3..] == "```"; }
    var s4 := DropSuffix(s2, "```");
    assert s4 == "\n" + body + "\n";
    StripWrapped("\n", body, "\n");
  }

  /** Text without fences is only trimmed. */
  lemma UnfencedPassesThrough(text: string)
    requires !StartsWith(Strip(text), "```") && !EndsWith(Strip(text), "```")
    ensures StripFences(text) == Strip(text)
  {
    StripStripped(Strip(text));
  }

  /** The default when the response is not valid JSON or fails validation. */
  const IncompleteAnalysis := ProductAnalysis(
    50, "Unable to analyze - AI response parsing failed", "Unknown",
    [], [], ["Analysis incomplete"], "General consumers", [])

  /** The default when generation (or anything the parser does not catch)
      raised; `message` is the exception's text. */
  function FailedAnalysis(message: string): (r: ProductAnalysis)
    ensures r.viralityScore == 0 && r.qualityFlags == ["Analysis failed"]
    ensures StartsWith(r.whyWinning, "Analysis failed: ")
    ensures r.whyWinning[|"Analysis failed: "|..] == message
    ensures r.targetAudience == "Unknown" && r.problemSolved == "Unknown"
    ensures r.emotionalTriggers == [] && r.marketingAngles == [] && r.adHooks == []
  {
    var why := "Analysis failed: " + message;
    assert why[..|"Analysis failed: "|] == "Analysis failed: ";
    ProductAnalysis(0, why, "Unknown", [], [], ["Analysis failed"], "Unknown", [])
  }

  /** Message of the `TypeError` raised when the parsed JSON is not an object. */
  const NotMappingMessage := "argument after ** must be a mapping"

  /** `_parse_response`: a decode error or a validation error gives the
      incomplete-analysis default; a JSON value that is not an object raises
      a `TypeError` the method does not catch (`Failure`). */
  function ParseResponse(c: Coercions, parse: string -> Option<Json>, text: string): (r: Result<ProductAnalysis, string>)
    ensures r.Success? ==> ValidScore(r.value.viralityScore)
  {
    match parse(StripFences(text))
    case None => Success(IncompleteAnalysis)
    case Some(JObj(kw)) =>
      (match ValidateAnalysis(c, kw)
       case Success(a) => Success(a)
       case Failure(_) => Success(IncompleteAnalysis))
    case Some(_) => Failure(NotMappingMessage)
  }

  /** The three outcomes of parsing: a decode error gives the incomplete
      default, an object gives its validated analysis (or the incomplete
      default when validation fails), any other JSON value raises. */
  lemma ParseResponseOutcomes(c: Coercions, parse: string -> Option<Json>, text: string)
    ensures parse(StripFences(text)).None? ==> ParseResponse(c, parse, text) == Success(IncompleteAnalysis)
    ensures ParseResponse(c, parse, text).Failure?
        <==> parse(StripFences(text)).Some? && !parse(StripFences(text)).value.JObj?
    ensures ParseResponse(c, parse, text).Failure? ==> ParseResponse(c, parse, text).error == NotMappingMessage
    ensures (match parse(StripFences(text))
             case Some(JObj(kw)) => ParseResponse(c, parse, text) == Success(ValidateAnalysis(c, kw).GetOr(IncompleteAnalysis))
             case _ => true)
  {
    var decoded := parse(StripFences(text));
    assert ParseResponse(c, parse, text) == match decoded
      case None => Success(IncompleteAnalysis)
      case Some(JObj(kw)) => Success(ValidateAnalysis(c, kw).GetOr(IncompleteAnalysis))
      case Some(_) => Failure(NotMappingMessage);
  }

  /** A fenced JSON object with valid fields is analysed as written; with a
      score of 85 there is no sentinel quality flag unless the model wrote
      one. */
  lemma FencedObjectParsed(c: Coercions, parse: string -> Option<Json>, body: string, kw: map<string, Json>)
    requires IsStripped(body)
    requires parse(body) == Some(JObj(kw))
    requires ValidateAnalysis(c, kw).Success?
    ensures ParseResponse(c, parse, "```json\n" + body + "\n```") == Success(ValidateAnalysis(c, kw).value)
  {
    FencedRoundTrip(body);
  }

  // ---------------------------------------------------------------------
  // Analysis (analyzer.py:129-185)
  // ---------------------------------------------------------------------

  /** What `analyze_product` makes of the generation outcome: the failed
      default for a raised exception, else the parsed response, else (when
      parsing raised) the failed default again. */
  function AnalyzeResponse(c: Coercions, parse: string -> Option<Json>,
                           response: Result<string, string>): (r: ProductAnalysis)
    ensures ValidScore(r.viralityScore)
    ensures response.Failure? ==> r == FailedAnalysis(response.error)
  {
    match response
    case Failure(e) => FailedAnalysis(e)
    case Success(text) =>
      match ParseResponse(c, parse, text)
      case Success(an) => an
      case Failure(e) => FailedAnalysis(e)
  }

  /** `analyze_product`: build the prompt and the request, generate, and
      interpret the outcome; never raises, and the score is always valid. */
  function AnalyzeProduct(a: Analyzer, c: Coercions, parse: string -> Option<Json>,
                          generate: Request -> Result<string, string>, showFloat: real -> string,
                          p: ProductData): (r: ProductAnalysis)
    ensures ValidScore(r.viralityScore)
  {
    AnalyzeResponse(c, parse, generate(BuildRequest(a, FormatPrompt(p, showFloat))))
  }

  /** The outcomes of `analyze_product`: a raised generation error gives the
      failed default carrying its message; a parsed response is returned as
      is; a response the parser raises on gives the failed default. */
  lemma AnalyzeProductOutcomes(a: Analyzer, c: Coercions, parse: string -> Option<Json>,
                               generate: Request -> Result<string, string>, showFloat: real -> string,
                               p: ProductData)
    ensures generate(BuildRequest(a, FormatPrompt(p, showFloat))).Failure? ==>
      AnalyzeProduct(a, c, parse, generate, showFloat, p)
        == FailedAnalysis(generate(BuildRequest(a, FormatPrompt(p, showFloat))).error)
    ensures generate(BuildRequest(a, FormatPrompt(p, showFloat))).Success? ==>
      AnalyzeProduct(a, c, parse, generate, showFloat, p)
        == ParseResponse(c, parse, generate(BuildRequest(a, FormatPrompt(p, showFloat))).value)
             .GetOr(FailedAnalysis(NotMappingMessage))
  {
    var response := generate(BuildRequest(a, FormatPrompt(p, showFloat)));
    if response.Success? {
      ParseResponseOutcomes(c, parse, response.value);
    }
  }

  /** `analyze_products`: one analysis per product, in input order. */
  method AnalyzeProducts(a: Analyzer, c: Coercions, parse: string -> Option<Json>,
                         generate: Request -> Result<string, string>, showFloat: real -> string,
                         products: seq<ProductData>) returns (results: seq<ProductAnalysis>)
    ensures |results| == |products|
    ensures forall k :: 0 <= k < |products| ==>
      results[k] == AnalyzeProduct(a, c, parse, generate, showFloat, products[k])
  {
    results := MapInOrder((p: ProductData) => AnalyzeProduct(a, c, parse, generate, showFloat, p), products);
  }

  /** Applies `f` to each element in turn, collecting the results. */
  method MapInOrder<A, B>(f: A -> B, xs: seq<A>) returns (ys: seq<B>)
    ensures |ys| == |xs|
    ensures forall k :: 0 <= k < |xs| ==> ys[k] == f(xs[k])
  {
    ys := [];
    var i := 0;
    while i < |xs|
      invariant 0 <= i <= |xs|
      invariant |ys| == i
      invariant forall k :: 0 <= k < i ==> ys[k] == f(xs[k])
    {
      ys := ys + [f(xs[i])];
      i := i + 1;
    }
  }
}
