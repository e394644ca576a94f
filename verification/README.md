# TikTok Trend Hunter, modelled in Dafny

TikTok Trend Hunter is an Apify Actor. It collects trending TikTok Shop
products, asks an AI provider (Anthropic, OpenAI or OpenRouter) to analyse
each one, and pushes the analysed products to the Actor's dataset,
highest virality score first. This project models the core of that Actor
and proves properties of the model:

- the records (`models.py`): product data, the analysis with its score
  bounded to [0,100], the merged record with its discount, and the Actor
  input with its defaults, bounds and camelCase aliases;
- the analyzer (`analyzer.py`):
  - provider selection;
  - the prompt's slots;
  - markdown-fence stripping and response parsing, with their two
    degraded defaults;
  - per-product analysis;
- the scraper (`scraper.py`): the built-in fixture with its sales
  threshold and size cut, and the transformation of a scraping Actor's
  dataset items into products;
- the entry point (`main.py`):
  - input validation;
  - API-key resolution against the environment;
  - the credential check before any scraping;
  - the early stop on an empty product list;
  - one analysis and one `product-analyzed` charge per product, in order;
  - the stable descending sort;
  - pushing in sorted order;
  - the top-three summary.

Modules, one per file:

| file | module | models |
|---|---|---|
| `wrappers.dfy` | `Wrappers` | `Option` and `Result`, with failure propagation |
| `text.dfy` | `Text` | Python's `strip`, `startswith`/`endswith`, slices, `"\n".join`, `str(int)` |
| `values.dfy` | `Values` | JSON values, `dict.get`, Python conversions, pydantic field validation |
| `models.dfy` | `Models` | `models.py` |
| `analyzer.dfy` | `Analyzer` | `analyzer.py` |
| `scraper.dfy` | `Scraper` | `scraper.py` |
| `ranking.dfy` | `Ranking` | the sort and summary of `main.py` |
| `driver.dfy` | `Driver` | `main()` of `main.py` |

Everything the Actor does outside the program is a parameter:

- the Actor input: `rawInput`;
- the process environment: `env`;
- the scraping Actor's dataset: `live`, where `None` means the source
  fell back to its fixture;
- the call to the AI provider: `generate`, which returns either the text
  or the raised exception's message;
- `json.loads`: `parse`;
- Python's rendering of a float: `showFloat`;
- the lax conversions of pydantic and of `int()`/`float()` on strings:
  the `Coercions` record.

The platform calls `Actor.charge` and `Actor.push_data` are recorded in an
event trace rather than performed.

## Model

| member | source | states |
|---|---|---|
| `Text.Strip` | src/tiktok_trend_hunter/analyzer.py:105 | `strip()` leaves no whitespace at either end and never lengthens the text |
| `Text.StripIsSlice` | src/tiktok_trend_hunter/analyzer.py:105 | the stripped text is one contiguous piece of the original, with only whitespace removed on both sides |
| `Text.StripStripped` | src/tiktok_trend_hunter/analyzer.py:113 | stripping text that is already stripped changes nothing, so `strip` is idempotent |
| `Text.StripWrapped` | src/tiktok_trend_hunter/analyzer.py:113 | stripping removes exactly the whitespace wrapped around a stripped text |
| `Text.Take` | src/tiktok_trend_hunter/scraper.py:217 | Python's `s[:n]` for every integer `n`: a prefix of `s`, of length `min(n, len(s))` for `n >= 0`, and with `-n` elements dropped from the end for negative `n` |
| `Text.SplitJoinLines` | src/tiktok_trend_hunter/analyzer.py:87-89 | joining newline-free lines with `"\n"` and splitting the result again gives the lines back |
| `Text.IntToDecimal` | src/tiktok_trend_hunter/analyzer.py:94 | `str(i)` is a minus sign exactly for negative `i`, followed by decimal digits without leading zeros that read back as the magnitude of `i` |
| `Text.DecimalRoundTrip` | src/tiktok_trend_hunter/analyzer.py:94 | the decimal digits written for a natural number read back as that number |
| `Text.DropPrefix` | src/tiktok_trend_hunter/analyzer.py:106-109 | removing a present prefix leaves the rest (`s == p + r`); an absent prefix leaves `s` unchanged |
| `Text.DropSuffix` | src/tiktok_trend_hunter/analyzer.py:110-111 | removing a present suffix leaves the front (`s == r + p`); an absent suffix leaves `s` unchanged |
| `Values.Get` | src/tiktok_trend_hunter/scraper.py:83-96 | `dict.get` returns the stored value when the key is present and the default otherwise |
| `Values.TruncateTowardZero` | src/tiktok_trend_hunter/scraper.py:88 | `int()` of a float truncates toward zero, for negative values too |
| `Values.PyStr` | src/tiktok_trend_hunter/scraper.py:83 | `str()` of a string is that string; of an integer (a numeric id) its decimal text; of a boolean "True"/"False"; of `None` "None" |
| `Values.PyInt` | src/tiktok_trend_hunter/scraper.py:88-90 | `int()` keeps an integer, maps booleans to 1/0, truncates a float toward zero, and raises on `None`, a list or a dict |
| `Values.PyFloat` | src/tiktok_trend_hunter/scraper.py:86 | `float()` keeps integers and floats and raises on `None`, a list or a dict |
| `Values.FieldInt` | src/tiktok_trend_hunter/models.py:14 | an `int` field accepts an integer as is and rejects null, lists and objects |
| `Values.FieldFloat` | src/tiktok_trend_hunter/models.py:12 | a `float` field accepts integers and floats as their value and rejects null, lists and objects |
| `Values.FieldOptFloat` | src/tiktok_trend_hunter/models.py:13 | a `float \| None` field maps null, and only null, to `None`, an integer or a float to its value, and rejects lists and objects |
| `Values.FieldStr` | src/tiktok_trend_hunter/models.py:9-11 | a `str` field accepts exactly the strings, each as itself |
| `Values.FieldOptStr` | src/tiktok_trend_hunter/models.py:17 | a `str \| None` field accepts exactly strings and null: a string as itself, null as `None` |
| `Values.FieldStrList` | src/tiktok_trend_hunter/models.py:19 | a `list[str]` field accepts exactly arrays of strings, keeping every element in order |
| `Values.StrList` | src/tiktok_trend_hunter/scraper.py:93 | a list validates as `list[str]` exactly when every element is a string, and keeps each one |
| `Values.FieldBool` | src/tiktok_trend_hunter/models.py:113 | a `bool` field accepts a boolean as is and rejects null, lists and objects |
| `Models.Required` | src/tiktok_trend_hunter/models.py:9-12 | a required field that is missing is an error naming it; a present one validates exactly when its check does, to the checked value |
| `Models.Defaulted` | src/tiktok_trend_hunter/models.py:13-20 | a missing field with a default takes the default; a present one validates exactly when its check does |
| `Models.ValidateProductData` | src/tiktok_trend_hunter/models.py:6-20 | a product is built exactly when the three id/title/URL fields are strings, price and sales validate, and every optional field given validates; id, title and URL are the given strings, price and sales their validated values; every optional field given is its validated value, and every missing one takes its default (`None`, `0` or `[]`) |
| `Models.MakeAnalysis` | src/tiktok_trend_hunter/models.py:23-41 | an analysis with every field given validates exactly when the score is in [0,100], and then keeps every field |
| `Models.ValidateAnalysis` | src/tiktok_trend_hunter/models.py:23-41 | an analysis validates exactly when `virality_score` is an integer in [0,100], the three text fields are strings and every list field given is a list of strings; the score and texts are the given values, each list field given is its validated list, and a missing one is empty |
| `Models.ScoreBounds` | src/tiktok_trend_hunter/models.py:26 | an integer score validates exactly when `0 <= score <= 100`, both bounds included |
| `Models.RoundTenth` | src/tiktok_trend_hunter/models.py:75-77 | `round(x, 1)` gives a multiple of 0.1 within 0.05 of `x` |
| `Models.RawDiscount` | src/tiktok_trend_hunter/models.py:73-77 | a discount exists exactly when the original price is given, non-zero and above the price; it is the percentage saved: `d * original == (original - price) * 100` |
| `Models.DiscountInRange` | src/tiktok_trend_hunter/models.py:73-77 | with a non-negative price, a present discount lies in (0,100] and its rounded value in [0,100] |
| `Models.DiscountExample` | src/tiktok_trend_hunter/models.py:73-77 | a product at 19.99 with an original price of 29.99 shows a discount of 33.3 |
| `Models.FromProductAndAnalysis` | src/tiktok_trend_hunter/models.py:68-100 | the merged record has a discount exactly when `RawDiscount` gives one, and then its rounding; the score is the analysis's score |
| `Models.MergeCopiesFields` | src/tiktok_trend_hunter/models.py:79-100 | the merge loses nothing but the reviews: the analysis and the rest of the product can both be read back from the record |
| `Models.Lookup` | src/tiktok_trend_hunter/models.py:107-116 | a field is supplied exactly when its alias or its name is a key; the value under the alias wins, the value under the name is used only when the alias is absent |
| `Models.InputValue` | src/tiktok_trend_hunter/models.py:106-114 | a field that is not supplied takes its default; a supplied one validates exactly when its check does, to the checked value, and otherwise fails naming the field |
| `Models.ParseActorInput` | src/tiktok_trend_hunter/models.py:103-116 | the input is accepted exactly when every supplied field validates, `max_products` an integer in [1,50] and `min_sales_count` one at least 0; each missing field takes its default, and each supplied field, under alias or name, is its validated value |
| `Models.IntBoundsAccepted` | src/tiktok_trend_hunter/models.py:107-114 | integer `maxProducts` and `minSalesCount` values are accepted exactly when `1 <= n <= 50` and `m >= 0`, bounds included |
| `Models.EmptyInputDefaults` | src/tiktok_trend_hunter/models.py:106-114 | an empty input parses to the documented defaults, every key absent |
| `Models.AliasOrName` | src/tiktok_trend_hunter/models.py:116 | supplying a value under a field's alias or under its field name parses to the same result |
| `Models.CamelCaseInput` | tests/test_models.py:91-99 | values given as `maxProducts=25`, `aiProvider="openai"`, `includeReviewAnalysis=False` are taken over, every other field at its default |
| `Analyzer.NewAnalyzer` | src/tiktok_trend_hunter/analyzer.py:53-83 | construction succeeds exactly when the provider is one of the three known names and its own key is non-empty; it selects that backend (the gateway with the given model); an unknown name fails with "Unknown AI provider: " and the name |
| `Analyzer.UnselectedKeysIgnored` | src/tiktok_trend_hunter/analyzer.py:66-83 | the keys of providers other than the selected one do not affect construction |
| `Analyzer.BuildRequest` | src/tiktok_trend_hunter/analyzer.py:133-156 | each backend calls its own API with 1024 tokens and the prompt; Anthropic uses claude-sonnet-4-20250514, OpenAI gpt-4o, and the gateway its configured model, or meta-llama/llama-3.3-8b-instruct:free when that is empty |
| `Analyzer.ReviewLines` | src/tiktok_trend_hunter/analyzer.py:87-88 | one line `"- " + review` per review, for the first ten reviews only |
| `Analyzer.ReviewsBlock` | src/tiktok_trend_hunter/analyzer.py:87-89 | the reviews block is "No reviews available" exactly when there are no reviews; otherwise it is the review lines joined by newlines |
| `Analyzer.ReviewsBlockLines` | src/tiktok_trend_hunter/analyzer.py:87-89 | splitting the reviews block of newline-free reviews on newlines gives back exactly one line per shown review |
| `Analyzer.RatingText` | src/tiktok_trend_hunter/analyzer.py:95 | a missing or zero rating shows "N/A"; any other rating shows its float rendering |
| `Analyzer.CategoryText` | src/tiktok_trend_hunter/analyzer.py:97 | the category slot reads "Unknown" exactly when the category is missing, empty or literally "Unknown"; otherwise it shows the category |
| `Analyzer.FormatPrompt` | src/tiktok_trend_hunter/analyzer.py:85-99 | the prompt opens with the title and price up to the sales label and closes with the reviews block; between their labels it holds the decimal sales count, "N/A" for a missing or zero rating and the rendered rating otherwise, the decimal review count, and "Unknown" for a missing or empty category and the category otherwise |
| `Analyzer.PromptTextSlots` | src/tiktok_trend_hunter/analyzer.py:17-25 | every slot of the template sits between its own label and the next one (price, sales, rating, review count, category); the title and price open the text and the reviews block closes it |
| `Analyzer.PromptShape` | src/tiktok_trend_hunter/analyzer.py:91-99 | the filled slots open with the title and price lines and close with the reviews block |
| `Analyzer.StripFences` | src/tiktok_trend_hunter/analyzer.py:105-113 | the text handed to the JSON parser is always stripped |
| `Analyzer.StripFencesIsSlice` | src/tiktok_trend_hunter/analyzer.py:105-113 | the text handed to the parser is one contiguous piece of the response |
| `Analyzer.FencedRoundTrip` | src/tiktok_trend_hunter/analyzer.py:105-113 | a stripped body wrapped as "```json\n" + body + "\n```" comes back exactly |
| `Analyzer.UnfencedPassesThrough` | src/tiktok_trend_hunter/analyzer.py:105-113 | a response with no fence at either end is only stripped |
| `Analyzer.FailedAnalysis` | src/tiktok_trend_hunter/analyzer.py:163-174 | the failure default has score 0, the flag "Analysis failed", "Unknown" problem and audience, empty lists, and an explanation of "Analysis failed: " followed by the error message |
| `Analyzer.ParseResponse` | src/tiktok_trend_hunter/analyzer.py:101-127 | every analysis that parsing returns has a score in [0,100] |
| `Analyzer.ParseResponseOutcomes` | src/tiktok_trend_hunter/analyzer.py:101-127 | undecodable text gives the incomplete default; an object gives its validated analysis, or the incomplete default when validation fails; parsing raises exactly when the JSON is not an object |
| `Analyzer.FencedObjectParsed` | src/tiktok_trend_hunter/analyzer.py:101-114 | a valid analysis object in a "```json" fence is parsed to exactly that analysis |
| `Analyzer.AnalyzeResponse` | src/tiktok_trend_hunter/analyzer.py:161-174 | the analysis of a response always has a valid score; a raised generation error gives the failure default carrying its message |
| `Analyzer.AnalyzeProduct` | src/tiktok_trend_hunter/analyzer.py:129-174 | `analyze_product` never raises and its score is always in [0,100] |
| `Analyzer.AnalyzeProductOutcomes` | src/tiktok_trend_hunter/analyzer.py:129-174 | a failed generation gives the failure default with its message; a generated response gives its parse, or the failure default when parsing raises |
| `Analyzer.AnalyzeProducts` | src/tiktok_trend_hunter/analyzer.py:176-185 | one analysis per product, in product order, each the product's own analysis |
| `Analyzer.MapInOrder` | src/tiktok_trend_hunter/analyzer.py:180-185 | the loop collects `f` of every element, position for position |
| `Scraper.FilterMinSales` | src/tiktok_trend_hunter/scraper.py:216 | the filter keeps exactly the products selling at least the threshold, and nothing else |
| `Scraper.FilterAppend` | src/tiktok_trend_hunter/scraper.py:216 | filtering a concatenation concatenates the filtered parts, so product order is kept |
| `Scraper.FilterKeepsAll` | src/tiktok_trend_hunter/scraper.py:216 | a list whose every product qualifies passes the filter unchanged |
| `Scraper.WithCategory` | src/tiktok_trend_hunter/scraper.py:123 | every fixture product is labelled with the scraper's category, and nothing else changes |
| `Scraper.MockProducts` | src/tiktok_trend_hunter/scraper.py:112-213 | every fixture product carries the requested category |
| `Scraper.MockFigures` | src/tiktok_trend_hunter/scraper.py:112-213 | the fixture holds mock_001 to mock_005, in that order, selling 15420, 8932, 25678, 6234 and 42156 units |
| `Scraper.SelectBySales` | src/tiktok_trend_hunter/scraper.py:216-217 | the selection is exactly the first `max_products` qualifying products, in order: a prefix of the filtered list of length `min(max_products, n)` (Python slice length for a negative bound) |
| `Scraper.SelectFirstQualifying` | src/tiktok_trend_hunter/scraper.py:99-106 | once the first products alone fill `max_products` qualifying places, products after them never reach the selection |
| `Scraper.SelectAllWhenFew` | src/tiktok_trend_hunter/scraper.py:99-106 | while no more than `max_products` products qualify, every one of them is selected, in order |
| `Scraper.GetMockData` | src/tiktok_trend_hunter/scraper.py:108-217 | the mock data are the selection from the fixture labelled with the category: fixture products at or above the sales threshold, no more than `maxProducts` |
| `Scraper.MockHighThreshold` | src/tiktok_trend_hunter/scraper.py:216-217 | with a threshold of 10000, exactly mock_001, mock_003 and mock_005 are returned, in that order |
| `Scraper.MockAllPass` | src/tiktok_trend_hunter/scraper.py:216-217 | with the default threshold of 100 and room for five, the whole fixture is returned |
| `Scraper.FirstComments` | src/tiktok_trend_hunter/scraper.py:93 | an item's reviews are its first ten comments, which must all be strings; a value that is not a list is rejected |
| `Scraper.FirstCover` | src/tiktok_trend_hunter/scraper.py:94-96 | a falsy cover value gives no image; a truthy scalar or object raises; a list whose first element is a string gives that image, one whose first element is null none, any other first element raises; a non-empty string gives its first character |
| `Scraper.AuthorName` | src/tiktok_trend_hunter/scraper.py:91 | the shop name is the author object's string "name", none when "name" is absent or null; any other "name", or an author value that is not an object, raises |
| `Scraper.ViewOf` | src/tiktok_trend_hunter/scraper.py:83-96 | each present key is read as given; each missing key falls back as the source's `get` calls do: the id to "", the title to "desc" and then "Unknown", the URL to "url" and then "", the price to 0, original price and rating to null, the sales to "salesCount" and then 0, the comment count to 0, the author to an empty object, comments to an empty list, covers to null |
| `Scraper.BuildProduct` | src/tiktok_trend_hunter/scraper.py:82-97 | a product is built exactly when every conversion succeeds; it carries the scraper's category, `str()` of the id, the title and URL strings, and the converted price, original price, sales, rating, review count, shop name, first ten comments and image |
| `Scraper.TransformItem` | src/tiktok_trend_hunter/scraper.py:79-104 | an item that is not an object fails; any product built carries the category and at most ten reviews |
| `Scraper.ItemRoundTrip` | src/tiktok_trend_hunter/scraper.py:82-97 | encoding a product with the scraper's category and at most ten reviews as a dataset item, then transforming that item, gives the product back |
| `Scraper.TransformAll` | src/tiktok_trend_hunter/scraper.py:79-104 | no more products than items, each carrying the category and at most ten reviews |
| `Scraper.NonObjectsSkipped` | src/tiktok_trend_hunter/scraper.py:102-104 | items that are not objects, placed before the others, are skipped without affecting the products built from the rest |
| `Scraper.TransformAllAppend` | src/tiktok_trend_hunter/scraper.py:79-104 | the products built from two runs of items are those of the first run followed by those of the second |
| `Scraper.FailedItemSkipped` | src/tiktok_trend_hunter/scraper.py:79-104 | an item whose product cannot be built is skipped wherever it stands, and the products built from the items around it are unaffected |
| `Scraper.BuiltItemKept` | src/tiktok_trend_hunter/scraper.py:82-101 | an item whose product is built contributes exactly that product, at its position |
| `Scraper.TransformAllRoundTrip` | src/tiktok_trend_hunter/scraper.py:79-104 | transforming the encodings of products gives back the same products in the same order |
| `Scraper.TransformActorOutput` | src/tiktok_trend_hunter/scraper.py:75-106 | the output is the selection of the products built from the items: they meet the sales threshold, carry the category and at most ten reviews, and number at most `maxProducts` |
| `Scraper.TransformActorOutputLoop` | src/tiktok_trend_hunter/scraper.py:75-106 | the loop as written (build, skip on failure, append when selling enough, cut) computes `TransformActorOutput` |
| `Scraper.SelectLoop` | src/tiktok_trend_hunter/scraper.py:79-106 | for any way of building products from items, the loop's result is the selection of the built products |
| `Scraper.MockThroughActor` | src/tiktok_trend_hunter/scraper.py:75-217 | the live path and the fixture agree: feeding the encoded fixture through the transformation selects exactly the mock data |
| `Scraper.ScrapeWithActor` | src/tiktok_trend_hunter/scraper.py:27-73 | without a dataset the result is the mock data; with one it is the transformation of its items, so an empty dataset gives no products; every product meets the threshold and carries the category |
| `Ranking.SortByScore` | src/tiktok_trend_hunter/main.py:83 | sorting keeps the number of records |
| `Ranking.SortPermutes` | src/tiktok_trend_hunter/main.py:83 | the sorted records are a permutation of the input |
| `Ranking.SortSorted` | src/tiktok_trend_hunter/main.py:83 | the sorted records are in non-increasing order of virality score |
| `Ranking.SortStable` | src/tiktok_trend_hunter/main.py:83 | records with equal scores keep their relative order |
| `Ranking.SortUnique` | src/tiktok_trend_hunter/main.py:83 | any stable descending arrangement of the records equals `SortByScore`, so the model is the one result Python's stable `sort(reverse=True)` can give |
| `Ranking.TopSummary` | src/tiktok_trend_hunter/main.py:90-96 | the summary has `min(3, n)` entries, ranked from 1, each naming the record's title and score; each explanation is its first 100 characters: the whole text when it is no longer, a prefix of exactly 100 characters otherwise |
| `Ranking.SummaryIsTop` | src/tiktok_trend_hunter/main.py:83-96 | after sorting, every summarised product scores at least as much as every product left out |
| `Driver.KeyOr` | src/tiktok_trend_hunter/main.py:26-28 | a missing or empty input key gives way to the environment variable, or to none when that is unset |
| `Driver.Configure` | src/tiktok_trend_hunter/main.py:26-29 | the three keys come from the input or else from ANTHROPIC_API_KEY, OPENAI_API_KEY and ANTHROPIC_AUTH_TOKEN; the gateway model comes from the input, else ANTHROPIC_MODEL, else nvidia/nemotron-nano-9b-v2:free |
| `Driver.CredentialError` | src/tiktok_trend_hunter/main.py:36-41 | a credential error is raised exactly when the selected provider is one of the three known ones and its resolved key is missing or empty |
| `Driver.AnalyzerAfterCheck` | src/tiktok_trend_hunter/main.py:36-65 | once the credential check has passed, building the analyzer fails exactly for a provider name other than the three known ones |
| `Driver.Prepare` | src/tiktok_trend_hunter/main.py:22-41 | invalid input stops the run naming the field; a missing credential stops it with the credential error; otherwise the run goes on with the resolved configuration |
| `Driver.AnalysisEvents` | src/tiktok_trend_hunter/main.py:68-80 | two events per product |
| `Driver.AnalysisEventsAt` | src/tiktok_trend_hunter/main.py:68-80 | event `2k` is product `k`'s analysis and event `2k+1` its "product-analyzed" charge of count 1 |
| `Driver.OneChargePerProduct` | src/tiktok_trend_hunter/main.py:77-80 | the analysis phase charges "product-analyzed" exactly once per product |
| `Driver.Pushes` | src/tiktok_trend_hunter/main.py:86-87 | one push per record |
| `Driver.PushesAt` | src/tiktok_trend_hunter/main.py:86-87 | push `k` carries record `k`, so records are pushed in sorted order |
| `Driver.MergeAll` | src/tiktok_trend_hunter/main.py:71-73 | one merged record per product |
| `Driver.AnalyzeWith` | src/tiktok_trend_hunter/main.py:71 | the analysis used by the run gives every product a score in [0,100] |
| `Driver.CompletedRecords` | src/tiktok_trend_hunter/main.py:67-87 | the pushed records are the merged records permuted, in descending score, stable for equal scores, each score in [0,100] |
| `Driver.ChargesInRun` | src/tiktok_trend_hunter/main.py:43-87 | a completed run's whole trace holds exactly one charge per product |
| `Driver.AnalyzeAndRank` | src/tiktok_trend_hunter/main.py:67-87 | the loop analyses and charges product by product, then pushes the records sorted by score |
| `Driver.Execute` | src/tiktok_trend_hunter/main.py:43-98 | after validation the run always scrapes first. It ends with no products exactly when the scraper returned none, and with an analyzer failure exactly when there were products and the analyzer could not be built, which happens only for an unknown provider. Otherwise it completes with the sorted records, the summary, and the trace of analyses, charges and pushes |
| `Driver.RunActor` | src/tiktok_trend_hunter/main.py:16-98 | invalid input or a missing credential ends the run before anything happens (empty trace); otherwise the run goes on as `Execute` describes, on the products the configured scraper returns |

## Left out

- Platform I/O: reading the input, `Actor.charge`, `Actor.push_data` and
  the call to the scraping Actor (`ApifyClient`, `Actor.config.token`) are
  not performed. Charges and pushes are events in a trace. The scraping
  Actor's dataset is the parameter `live`, and `None` stands for every
  path on which `scrape_with_actor` falls back to the fixture: no token, a
  failed run, or a raised exception.
- The run input sent to the scraping Actor (scraper.py:46-51) is not
  modelled, since it only configures the other Actor.
- Logging: every `logger` call and the exact text of the summary lines are
  left out. `TopSummary` keeps the content of each summary line: rank,
  title, score and the 100-character cut. It does not keep the format.
- Asynchrony (`async`/`await`) is left out: the awaited calls are
  sequential and the model keeps their order.
- The AI providers' SDKs are the parameter `generate`, which returns the
  response text or the raised exception's message. `Request` records the
  API, model, token limit and prompt of the call.
- `generate` is a function of the `Request`, so the model treats two
  identical requests as getting the same response. A real provider does
  not promise this. No property of the model depends on it.
- The fixed introduction (analyzer.py:13-15) and the fixed JSON-format
  instructions (analyzer.py:26-47) of the prompt template are constant
  text and are not reproduced. `Prompt` holds the part that depends on the
  product, from the title line to the reviews block.
- Floats are modelled as reals, including the fixture prices:
  - Python's `repr` of a float in the prompt is the parameter `showFloat`;
  - `Models.RoundTenth` is round-half-even on exact values, and
    binary-float rounding effects of `round(x, 1)` are not modelled.
- The lax conversions of pydantic (a numeric string for an `int` field,
  and so on) and of `int()`/`float()` on strings are the `Coercions`
  parameter. Only the exact-type cases are concrete.
- `Analyzer.ParseResponse`: when the decoded JSON is not an object,
  `ProductAnalysis(**data)` raises a `TypeError` that `_parse_response`
  does not catch. The model keeps that it raises, and so that
  `analyze_product` returns the failure default. The message is a
  constant: Python's exact wording names the type received.
- The "No AI client configured" branch of `analyze_product`
  (analyzer.py:158-159) cannot be reached after a successful constructor.
  `Analyzer` has no state that could reach it.
- `include_review_analysis` is parsed and validated but never used by the
  program, so it has no effect in the model either.
- Items that fail in `_transform_actor_output` are skipped. The text of
  their warnings is not modelled.
- A fence with a language tag other than `json` keeps its tag after
  stripping, because the code removes only a leading "```json" or "```".
  The model follows the code.
- The input's `ai_provider` defaults to "openrouter" (models.py:108).
  tests/test_models.py:89 expects "anthropic", and the model follows the
  code.
- An exception raised while building the analyzer (an unknown provider
  name) ends `main()` with that exception. The model returns it as the
  outcome `AnalyzerFailed`.
