/** The product source of `scraper.py`: the built-in fixture used when no
    live data is available, and the conversion of the items returned by a
    TikTok scraping Actor into `ProductData`. Calling the other Actor is not
    modelled: its dataset arrives as a parameter, `None` standing for every
    path on which the source falls back to the fixture. */
module Scraper {
  import opened Wrappers
  import opened Values
  import opened Models
  import opened Text

  /** The scraper's configuration (scraper.py:22-25). */
  datatype Scraper = Scraper(category: string, maxProducts: int, minSales: int)

  // ---------------------------------------------------------------------
  // Filtering by sales
  // ---------------------------------------------------------------------

  /** The products selling at least `minSales` units, in their original
      order. */
  function FilterMinSales(ps: seq<ProductData>, minSales: int): (r: seq<ProductData>)
    ensures |r| <= |ps|
    ensures forall p :: p in r ==> p in ps && p.salesCount >= minSales
    ensures forall p :: p in ps && p.salesCount >= minSales ==> p in r
  {
    if |ps| == 0 then []
    else if ps[0].salesCount >= minSales then [ps[0]] + FilterMinSales(ps[1..], minSales)
    else FilterMinSales(ps[1..], minSales)
  }

  /** Filtering distributes over concatenation, so it keeps the order of
      the products it retains. */
  lemma {:induction false} FilterAppend(a: seq<ProductData>, b: seq<ProductData>, minSales: int)
    ensures FilterMinSales(a + b, minSales) == FilterMinSales(a, minSales) + FilterMinSales(b, minSales)
  {
    if |a| > 0 {
      assert (a + b)[1..] == a[1..] + b;
      FilterAppend(a[1..], b, minSales);
    } else {
      assert a + b == b;
    }
  }

  /** A list every product of which qualifies passes unchanged. */
  lemma {:induction false} FilterKeepsAll(ps: seq<ProductData>, minSales: int)
    requires forall k :: 0 <= k < |ps| ==> ps[k].salesCount >= minSales
    ensures FilterMinSales(ps, minSales) == ps
  {
    if |ps| > 0 {
      FilterKeepsAll(ps[1..], minSales);
      assert [ps[0]] + ps[1..] == ps;
    }
  }

  // ---------------------------------------------------------------------
  // The fixture
  // ---------------------------------------------------------------------

  /** The five built-in kitchen products of the fixture
      (scraper.py:112-213), before they are labelled with the scraper's
      category. */
  const MockRows: seq<ProductData> := [MockBlender, MockChopper, MockLids, MockSpiceRack, MockLiners]

  const MockBlender := ProductData(
    "mock_001", "Portable Blender USB Rechargeable",
    "https://tiktokshop.com/product/mock_001",
    24.99, Some(39.99), 15420, Some(4.7), 2341,
    Some("KitchenGadgetsPro"), None,
    ["Perfect for my morning smoothies! So convenient for the office.",
     "Battery lasts all week, amazing quality for the price!",
     "Bought this for my gym bag, absolute game changer!",
     "My kids love making their own fruit drinks now.",
     "Wish I bought this sooner, makes healthy eating so easy!"],
    Some("https://example.com/blender.jpg"))

  const MockChopper := ProductData(
    "mock_002", "Electric Vegetable Chopper 3-in-1",
    "https://tiktokshop.com/product/mock_002",
    34.99, Some(49.99), 8932, Some(4.5), 1256,
    Some("HomeChefTools"), None,
    ["Saves me so much time meal prepping!",
     "Finally, no more crying while cutting onions!",
     "The cleanup is super easy, dishwasher safe.",
     "Bought for my mom and she absolutely loves it.",
     "Great for making salsa and guacamole quickly."],
    Some("https://example.com/chopper.jpg"))

  const MockLids := ProductData(
    "mock_003", "Silicone Stretch Lids Set of 12",
    "https://tiktokshop.com/product/mock_003",
    12.99, Some(19.99), 25678, Some(4.8), 4521,
    Some("EcoKitchenStore"), None,
    ["No more plastic wrap! These are incredible.",
     "Fit perfectly on all my bowls and containers.",
     "Such a simple solution, why didn't I buy these sooner?",
     "Great for keeping food fresh, very stretchy.",
     "Eco-friendly and actually works great!"],
    Some("https://example.com/lids.jpg"))

  const MockSpiceRack := ProductData(
    "mock_004", "Magnetic Spice Rack Organizer",
    "https://tiktokshop.com/product/mock_004",
    28.99, Some(44.99), 6234, Some(4.6), 892,
    Some("OrganizeMyHome"), None,
    ["Finally organized my tiny kitchen!",
     "The magnets are super strong, no falling jars.",
     "Looks so aesthetic on my fridge.",
     "Space saver for small apartments!",
     "Great gift idea for home cooks."],
    Some("https://example.com/spicerack.jpg"))

  const MockLiners := ProductData(
    "mock_005", "Air Fryer Liners Disposable 100pcs",
    "https://tiktokshop.com/product/mock_005",
    9.99, Some(14.99), 42156, Some(4.9), 7823,
    Some("AirFryerEssentials"), None,
    ["Makes cleanup a breeze, love these!",
     "No more scrubbing my air fryer basket.",
     "Great quality and perfect fit for my Ninja.",
     "Reordering for the third time, can't live without them.",
     "Food doesn't stick anymore, highly recommend!"],
    Some("https://example.com/liners.jpg"))

  /** Labels every product with `category`, as the fixture's constructor
      calls do with `category=self.category` (scraper.py:123). */
  function WithCategory(ps: seq<ProductData>, category: string): (r: seq<ProductData>)
    ensures |r| == |ps|
    ensures forall k :: 0 <= k < |ps| ==> r[k] == ps[k].(category := Some(category))
  {
    if |ps| == 0 then [] else [ps[0].(category := Some(category))] + WithCategory(ps[1..], category)
  }

  /** The fixture as `_get_mock_data` builds it for `category`. */
  function MockProducts(category: string): (r: seq<ProductData>)
    ensures forall p :: p in r ==> p.category == Some(category)
  {
    WithCategory(MockRows, category)
  }

  /** The products that pass the scraper's sales threshold, cut to
      `maxProducts` with Python slice semantics (scraper.py:216-217 and
      99-106). */
  function SelectBySales(s: Scraper, ps: seq<ProductData>): (r: seq<ProductData>)
    ensures forall p :: p in r ==> p in ps && p.salesCount >= s.minSales
    ensures 0 <= s.maxProducts ==> |r| <= s.maxProducts
    ensures r <= FilterMinSales(ps, s.minSales)
    ensures var n := |FilterMinSales(ps, s.minSales)|;
      |r| == if 0 <= s.maxProducts then (if s.maxProducts < n then s.maxProducts else n)
             else (if n + s.maxProducts < 0 then 0 else n + s.maxProducts)
  {
    Take(FilterMinSales(ps, s.minSales), s.maxProducts)
  }

  /** Products after the first `maxProducts` qualifying ones never reach
      the selection: once `a` alone fills it, appending `b` changes
      nothing. */
  lemma SelectFirstQualifying(s: Scraper, a: seq<ProductData>, b: seq<ProductData>)
    requires 0 <= s.maxProducts <= |FilterMinSales(a, s.minSales)|
    ensures SelectBySales(s, a + b) == SelectBySales(s, a)
  {
    FilterAppend(a, b, s.minSales);
    var fa := FilterMinSales(a, s.minSales);
    var fb := FilterMinSales(b, s.minSales);
    assert (fa + fb)[..s.maxProducts] == fa[..s.maxProducts];
  }

  /** While fewer than `maxProducts` products qualify, every one of them
      is selected, in order. */
  lemma SelectAllWhenFew(s: Scraper, ps: seq<ProductData>)
    requires |FilterMinSales(ps, s.minSales)| <= s.maxProducts
    ensures SelectBySales(s, ps) == FilterMinSales(ps, s.minSales)
  {
  }

  /** `_get_mock_data` (scraper.py:108-217). */
  function GetMockData(s: Scraper): (r: seq<ProductData>)
    ensures forall p :: p in r ==> p in MockProducts(s.category)
    ensures forall p :: p in r ==> p.salesCount >= s.minSales && p.category == Some(s.category)
    ensures 0 <= s.maxProducts ==> |r| <= s.maxProducts
    ensures r == SelectBySales(s, MockProducts(s.category))
  {
    SelectBySales(s, MockProducts(s.category))
  }

  /** The ids of a product list, in order. */
  function Ids(ps: seq<ProductData>): (r: seq<string>)
    ensures |r| == |ps|
    ensures forall k :: 0 <= k < |ps| ==> r[k] == ps[k].productId
  {
    if |ps| == 0 then [] else [ps[0].productId] + Ids(ps[1..])
  }

  /** The ids and sales figures of the fixture, in order. */
  lemma MockFigures(category: string)
    ensures Ids(MockProducts(category)) == ["mock_001", "mock_002", "mock_003", "mock_004", "mock_005"]
    ensures Sales(MockProducts(category)) == [15420, 8932, 25678, 6234, 42156]
  {
    FiguresIgnoreCategory(MockRows, category);
    var ids := Ids(MockRows);
    assert ids[0] == "mock_001" && ids[1] == "mock_002" && ids[2] == "mock_003";
    assert ids[3] == "mock_004" && ids[4] == "mock_005";
    var sales := Sales(MockRows);
    assert sales[0] == 15420 && sales[1] == 8932 && sales[2] == 25678;
    assert sales[3] == 6234 && sales[4] == 42156;
  }

  /** Labelling with a category changes neither ids nor sales figures. */
  lemma FiguresIgnoreCategory(ps: seq<ProductData>, category: string)
    ensures Ids(WithCategory(ps, category)) == Ids(ps)
    ensures Sales(WithCategory(ps, category)) == Sales(ps)
  {
    var labelled := WithCategory(ps, category);
    assert forall k :: 0 <= k < |ps| ==> Ids(labelled)[k] == Ids(ps)[k];
    assert forall k :: 0 <= k < |ps| ==> Sales(labelled)[k] == Sales(ps)[k];
  }

  /** The sales figures of a product list, in order. */
  function Sales(ps: seq<ProductData>): (r: seq<int>)
    ensures |r| == |ps|
    ensures forall k :: 0 <= k < |ps| ==> r[k] == ps[k].salesCount
  {
    if |ps| == 0 then [] else [ps[0].salesCount] + Sales(ps[1..])
  }

  /** Filtering five products of which the first, third and fifth qualify. */
  lemma FilterAlternate(ps: seq<ProductData>, minSales: int)
    requires |ps| == 5
    requires ps[0].salesCount >= minSales && ps[2].salesCount >= minSales && ps[4].salesCount >= minSales
    requires ps[1].salesCount < minSales && ps[3].salesCount < minSales
    ensures FilterMinSales(ps, minSales) == [ps[0], ps[2], ps[4]]
  {
    assert ps[4..][1..] == [];
    assert FilterMinSales(ps[4..], minSales) == [ps[4]];
    assert ps[3..][1..] == ps[4..];
    assert ps[2..][1..] == ps[3..];
    assert FilterMinSales(ps[2..], minSales) == [ps[2], ps[4]];
    assert ps[1..][1..] == ps[2..];
  }

  /** With a threshold of 10000 only the three best sellers remain, in
      fixture order. */
  lemma MockHighThreshold(category: string)
    ensures Ids(GetMockData(Scraper(category, 50, 10000))) == ["mock_001", "mock_003", "mock_005"]
  {
    MockFigures(category);
    HighThresholdOf(MockProducts(category), Scraper(category, 50, 10000));
  }

  /** Selection from any list with the fixture's ids and sales figures. */
  lemma HighThresholdOf(ps: seq<ProductData>, s: Scraper)
    requires Ids(ps) == ["mock_001", "mock_002", "mock_003", "mock_004", "mock_005"]
    requires Sales(ps) == [15420, 8932, 25678, 6234, 42156]
    requires s.minSales == 10000 && s.maxProducts == 50
    ensures Ids(SelectBySales(s, ps)) == ["mock_001", "mock_003", "mock_005"]
  {
    assert Sales(ps)[0] == ps[0].salesCount && Sales(ps)[1] == ps[1].salesCount;
    assert Sales(ps)[2] == ps[2].salesCount && Sales(ps)[3] == ps[3].salesCount;
    assert Sales(ps)[4] == ps[4].salesCount;
    FilterAlternate(ps, 10000);
    assert SelectBySales(s, ps) == [ps[0], ps[2], ps[4]];
    assert Ids(ps)[0] == "mock_001" && Ids(ps)[2] == "mock_003" && Ids(ps)[4] == "mock_005";
  }

  /** With the default threshold of 100 and room for five, the whole
      fixture is returned. */
  lemma MockAllPass(category: string)
    ensures GetMockData(Scraper(category, 5, 100)) == MockProducts(category)
  {
    var ps := MockProducts(category);
    FilterKeepsAll(ps, 100);
  }

  // ---------------------------------------------------------------------
  // Items returned by a scraping Actor
  // ---------------------------------------------------------------------

  /** `item.get("comments", [])[:10]` validated as `list[str]`: the first
      ten comments, which must all be strings. Any value other than a list
      makes the slice or the validation fail. */
  function FirstComments(v: Json): (r: Option<seq<string>>)
    ensures r.Some? ==> v.JArr? && |r.value| == if |v.elems| < 10 then |v.elems| else 10
    ensures r.Some? ==> forall k :: 0 <= k < |r.value| ==> v.elems[k] == JStr(r.value[k])
    ensures v.JArr? ==> (r.Some? <==> forall k :: 0 <= k < |v.elems| && k < 10 ==> v.elems[k].JStr?)
  {
    if v.JArr? then StrList(Take(v.elems, 10)) else None
  }

  /** `item.get("covers", [None])[0] if item.get("covers") else None`
      validated as `str | None`. A falsy or missing value gives `None`, a
      non-empty list its first element, a non-empty string its first
      character; indexing any other truthy value raises. */
  function FirstCover(v: Json): (r: Option<Option<string>>)
    ensures !Truthy(v) ==> r == Some(None)
    ensures (v.JInt? || v.JFloat? || v.JBool? || v.JObj?) && Truthy(v) ==> r == None
    ensures r.Some? && r.value.Some? ==>
              (v.JStr? && r.value.value == v.s[..1]) || (v.JArr? && v.elems[0] == JStr(r.value.value))
    ensures v.JArr? && |v.elems| > 0 && v.elems[0].JStr? ==> r == Some(Some(v.elems[0].s))
    ensures v.JArr? && |v.elems| > 0 && v.elems[0].JNull? ==> r == Some(None)
    ensures v.JArr? && |v.elems| > 0 && !v.elems[0].JStr? && !v.elems[0].JNull? ==> r == None
    ensures v.JStr? && v.s != "" ==> r == Some(Some(v.s[..1]))
  {
    if !Truthy(v) then Some(None)
    else match v
      case JArr(xs) => FieldOptStr(xs[0])
      case JStr(s) => Some(Some(s[..1]))
      case _ => None
  }

  /** `item.get("authorMeta", {}).get("name")` validated as `str | None`;
      `.get` on anything but a mapping raises. */
  function AuthorName(v: Json): (r: Option<Option<string>>)
    ensures !v.JObj? ==> r == None
    ensures v.JObj? && "name" !in v.fields ==> r == Some(None)
    ensures r.Some? && r.value.Some? ==> v.JObj? && "name" in v.fields && v.fields["name"] == JStr(r.value.value)
    ensures v.JObj? && "name" in v.fields && v.fields["name"].JStr? ==> r == Some(Some(v.fields["name"].s))
    ensures v.JObj? && "name" in v.fields && v.fields["name"].JNull? ==> r == Some(None)
    ensures v.JObj? && "name" in v.fields && !v.fields["name"].JStr? && !v.fields["name"].JNull? ==> r == None
  {
    if v.JObj? then FieldOptStr(Get(v.fields, "name", JNull)) else None
  }

  /** The values `_transform_actor_output` reads from one item, with the
      fallbacks of its `dict.get` calls applied (scraper.py:82-97). */
  datatype ItemView = ItemView(
    id: Json,
    title: Json,
    url: Json,
    price: Json,
    originalPrice: Json,
    sales: Json,
    rating: Json,
    commentCount: Json,
    authorMeta: Json,
    comments: Json,
    covers: Json)

  /** Reads an item's fields: each key, or its fallback key, or the default. */
  function ViewOf(m: map<string, Json>): (r: ItemView)
    ensures "id" in m ==> r.id == m["id"]
    ensures "id" !in m ==> r.id == JStr("")
    ensures "title" in m ==> r.title == m["title"]
    ensures "title" !in m && "desc" !in m ==> r.title == JStr("Unknown")
    ensures "title" !in m && "desc" in m ==> r.title == m["desc"]
    ensures "webVideoUrl" in m ==> r.url == m["webVideoUrl"]
    ensures "webVideoUrl" !in m && "url" !in m ==> r.url == JStr("")
    ensures "webVideoUrl" !in m && "url" in m ==> r.url == m["url"]
    ensures "price" in m ==> r.price == m["price"]
    ensures "price" !in m ==> r.price == JInt(0)
    ensures "originalPrice" in m ==> r.originalPrice == m["originalPrice"]
    ensures "originalPrice" !in m ==> r.originalPrice == JNull
    ensures "playCount" in m ==> r.sales == m["playCount"]
    ensures "playCount" !in m && "salesCount" !in m ==> r.sales == JInt(0)
    ensures "playCount" !in m && "salesCount" in m ==> r.sales == m["salesCount"]
    ensures "rating" in m ==> r.rating == m["rating"]
    ensures "rating" !in m ==> r.rating == JNull
    ensures "commentCount" in m ==> r.commentCount == m["commentCount"]
    ensures "commentCount" !in m ==> r.commentCount == JInt(0)
    ensures "authorMeta" in m ==> r.authorMeta == m["authorMeta"]
    ensures "authorMeta" !in m ==> r.authorMeta == JObj(map[])
    ensures "comments" in m ==> r.comments == m["comments"]
    ensures "comments" !in m ==> r.comments == JArr([])
    ensures "covers" in m ==> r.covers == m["covers"]
    ensures "covers" !in m ==> r.covers == JNull
  {
    ItemView(
      Get(m, "id", JStr("")),
      Get(m, "title", Get(m, "desc", JStr("Unknown"))),
      Get(m, "webVideoUrl", Get(m, "url", JStr(""))),
      Get(m, "price", JInt(0)),
      Get(m, "originalPrice", JNull),
      Get(m, "playCount", Get(m, "salesCount", JInt(0))),
      Get(m, "rating", JNull),
      Get(m, "commentCount", JInt(0)),
      Get(m, "authorMeta", JObj(map[])),
      Get(m, "comments", JArr([])),
      Get(m, "covers", JNull))
  }

  /** The `ProductData(...)` call of scraper.py:82-97 on the values read:
      the Python conversions, then pydantic's validation; `None` when
      either raises. */
  function BuildProduct(c: Coercions, category: string, v: ItemView): (r: Option<ProductData>)
    ensures r.Some? ==> r.value.category == Some(category) && |r.value.reviews| <= 10
    ensures r.Some? ==> v.title == JStr(r.value.productTitle) && v.url == JStr(r.value.productUrl)
    ensures v.id.JStr? ==> r.Some? ==> r.value.productId == v.id.s
    ensures v.price.JInt? ==> r.Some? ==> r.value.price == v.price.i as real
    ensures v.sales.JInt? ==> r.Some? ==> r.value.salesCount == v.sales.i
    ensures v.commentCount.JInt? ==> r.Some? ==> r.value.reviewCount == v.commentCount.i
    ensures v.authorMeta == JObj(map[]) ==> r.Some? ==> r.value.shopName == None
    ensures v.comments == JArr([]) ==> r.Some? ==> r.value.reviews == []
    ensures !Truthy(v.covers) ==> r.Some? ==> r.value.imageUrl == None
    ensures v.price.JNull? || !v.comments.JArr? || !v.authorMeta.JObj? ==> r == None
    ensures r.Some? <==> && v.title.JStr? && v.url.JStr? && PyFloat(c, v.price).Some?
                         && FieldOptFloat(c, v.originalPrice).Some? && PyInt(c, v.sales).Some?
                         && FieldOptFloat(c, v.rating).Some? && PyInt(c, v.commentCount).Some?
                         && AuthorName(v.authorMeta).Some? && FirstComments(v.comments).Some?
                         && FirstCover(v.covers).Some?
    ensures r.Some? ==> r.value.productId == PyStr(c, v.id)
    ensures v.price.JFloat? ==> r.Some? ==> r.value.price == v.price.r
    ensures r.Some? ==> PyFloat(c, v.price) == Some(r.value.price) && PyInt(c, v.sales) == Some(r.value.salesCount)
    ensures r.Some? ==> FieldOptFloat(c, v.originalPrice) == Some(r.value.originalPrice)
    ensures r.Some? ==> FieldOptFloat(c, v.rating) == Some(r.value.rating)
    ensures r.Some? ==> PyInt(c, v.commentCount) == Some(r.value.reviewCount)
    ensures r.Some? ==> AuthorName(v.authorMeta) == Some(r.value.shopName)
    ensures r.Some? ==> FirstComments(v.comments) == Some(r.value.reviews)
    ensures r.Some? ==> FirstCover(v.covers) == Some(r.value.imageUrl)
  {
    var title :- FieldStr(v.title);
    var url :- FieldStr(v.url);
    var price :- PyFloat(c, v.price);
    var original :- FieldOptFloat(c, v.originalPrice);
    var sales :- PyInt(c, v.sales);
    var rating :- FieldOptFloat(c, v.rating);
    var reviewCount :- PyInt(c, v.commentCount);
    var shop :- AuthorName(v.authorMeta);
    var reviews :- FirstComments(v.comments);
    var image :- FirstCover(v.covers);
    Some(ProductData(PyStr(c, v.id), title, url, price, original, sales,
                     rating, reviewCount, shop, Some(category), reviews, image))
  }

  /** One iteration of `_transform_actor_output` (scraper.py:79-104): the
      product built from one dataset item, or `None` when building it
      raises and the item is skipped. Only a mapping has `.get`. */
  function TransformItem(c: Coercions, category: string, item: Json): (r: Option<ProductData>)
    ensures r.Some? ==> item.JObj?
    ensures r.Some? ==> r.value.category == Some(category) && |r.value.reviews| <= 10
  {
    if item.JObj? then BuildProduct(c, category, ViewOf(item.fields)) else None
  }

  /** `TransformItem` for a fixed category, as a function value. */
  function Builder(c: Coercions, category: string): Json -> Option<ProductData> {
    (item: Json) => TransformItem(c, category, item)
  }

  /** JSON strings, one per element. */
  function Strs(xs: seq<string>): (r: seq<Json>)
    ensures |r| == |xs|
    ensures forall k :: 0 <= k < |xs| ==> r[k] == JStr(xs[k])
  {
    if |xs| == 0 then [] else [JStr(xs[0])] + Strs(xs[1..])
  }

  function OptFloat(x: Option<real>): Json {
    if x.Some? then JFloat(x.value) else JNull
  }

  function OptStr(x: Option<string>): Json {
    if x.Some? then JStr(x.value) else JNull
  }

  /** A dataset item in the shape `_transform_actor_output` reads,
      carrying every field of `p` except its category. */
  function ItemOf(p: ProductData): Json {
    JObj(map[
      "id" := JStr(p.productId),
      "title" := JStr(p.productTitle),
      "webVideoUrl" := JStr(p.productUrl),
      "price" := JFloat(p.price),
      "originalPrice" := OptFloat(p.originalPrice),
      "playCount" := JInt(p.salesCount),
      "rating" := OptFloat(p.rating),
      "commentCount" := JInt(p.reviewCount),
      "authorMeta" := JObj(map["name" := OptStr(p.shopName)]),
      "comments" := JArr(Strs(p.reviews)),
      "covers" := JArr([OptStr(p.imageUrl)])])
  }

  /** The values read from an encoded product. */
  lemma ViewOfItem(p: ProductData)
    ensures ViewOf(ItemOf(p).fields) == ItemView(
      JStr(p.productId), JStr(p.productTitle), JStr(p.productUrl), JFloat(p.price),
      OptFloat(p.originalPrice), JInt(p.salesCount), OptFloat(p.rating), JInt(p.reviewCount),
      JObj(map["name" := OptStr(p.shopName)]), JArr(Strs(p.reviews)), JArr([OptStr(p.imageUrl)]))
  {
    var m := ItemOf(p).fields;
    ItemOfHead(p);
    ItemOfTail(p);
    ViewOfPresent(m);
  }

  /** An item carrying every primary key is read key by key. */
  lemma ViewOfPresent(m: map<string, Json>)
    requires "id" in m && "title" in m && "webVideoUrl" in m && "price" in m && "originalPrice" in m
    requires "playCount" in m && "rating" in m && "commentCount" in m && "authorMeta" in m
    requires "comments" in m && "covers" in m
    ensures ViewOf(m) == ItemView(m["id"], m["title"], m["webVideoUrl"], m["price"], m["originalPrice"],
                                  m["playCount"], m["rating"], m["commentCount"], m["authorMeta"],
                                  m["comments"], m["covers"])
  {
  }

  lemma ItemOfHead(p: ProductData)
    ensures var m := ItemOf(p).fields;
      && "id" in m && m["id"] == JStr(p.productId)
      && "title" in m && m["title"] == JStr(p.productTitle)
      && "webVideoUrl" in m && m["webVideoUrl"] == JStr(p.productUrl)
      && "price" in m && m["price"] == JFloat(p.price)
      && "originalPrice" in m && m["originalPrice"] == OptFloat(p.originalPrice)
  {
  }

  lemma ItemOfTail(p: ProductData)
    ensures var m := ItemOf(p).fields;
      && "playCount" in m && m["playCount"] == JInt(p.salesCount)
      && "rating" in m && m["rating"] == OptFloat(p.rating)
      && "commentCount" in m && m["commentCount"] == JInt(p.reviewCount)
      && "authorMeta" in m && m["authorMeta"] == JObj(map["name" := OptStr(p.shopName)])
      && "comments" in m && m["comments"] == JArr(Strs(p.reviews))
      && "covers" in m && m["covers"] == JArr([OptStr(p.imageUrl)])
  {
  }

  /** Building a product from its own values gives it back. */
  lemma BuildRoundTrip(c: Coercions, category: string, p: ProductData)
    requires p.category == Some(category) && |p.reviews| <= 10
    ensures BuildProduct(c, category, ItemView(
      JStr(p.productId), JStr(p.productTitle), JStr(p.productUrl), JFloat(p.price),
      OptFloat(p.originalPrice), JInt(p.salesCount), OptFloat(p.rating), JInt(p.reviewCount),
      JObj(map["name" := OptStr(p.shopName)]), JArr(Strs(p.reviews)), JArr([OptStr(p.imageUrl)])))
      == Some(p)
  {
    var comments := Strs(p.reviews);
    assert Take(comments, 10) == comments;
    var reviews := FirstComments(JArr(comments));
    assert reviews.Some? && reviews.value == p.reviews;
  }

  /** Transforming an encoded product gives the product back, provided it
      carries the scraper's category and at most ten reviews. */
  lemma ItemRoundTrip(c: Coercions, category: string, p: ProductData)
    requires p.category == Some(category) && |p.reviews| <= 10
    ensures TransformItem(c, category, ItemOf(p)) == Some(p)
  {
    ViewOfItem(p);
    BuildRoundTrip(c, category, p);
  }

  /** The values `f` yields on `xs`, in order, skipping the elements on
      which it yields nothing. */
  function Collect<A, B>(f: A -> Option<B>, xs: seq<A>): (r: seq<B>)
    ensures |r| <= |xs|
    ensures forall y :: y in r ==> exists k :: 0 <= k < |xs| && f(xs[k]) == Some(y)
  {
    if |xs| == 0 then []
    else match f(xs[0])
      case Some(y) => [y] + Collect(f, xs[1..])
      case None => Collect(f, xs[1..])
  }

  /** Elements on which `f` yields nothing leave no trace. */
  lemma {:induction false} CollectSkips<A, B>(f: A -> Option<B>, junk: seq<A>, xs: seq<A>)
    requires forall k :: 0 <= k < |junk| ==> f(junk[k]) == None
    ensures Collect(f, junk + xs) == Collect(f, xs)
  {
    if |junk| > 0 {
      assert (junk + xs)[1..] == junk[1..] + xs;
      CollectSkips(f, junk[1..], xs);
    } else {
      assert junk + xs == xs;
    }
  }

  /** When `f` yields on every element, nothing is skipped and the order
      is kept. */
  lemma {:induction false} CollectExact<A, B>(f: A -> Option<B>, xs: seq<A>, ys: seq<B>)
    requires |xs| == |ys|
    requires forall k :: 0 <= k < |xs| ==> f(xs[k]) == Some(ys[k])
    ensures Collect(f, xs) == ys
  {
    if |xs| > 0 {
      assert f(xs[0]) == Some(ys[0]);
      CollectExact(f, xs[1..], ys[1..]);
      assert [ys[0]] + ys[1..] == ys;
    }
  }

  /** The loop of `_transform_actor_output` before its sales filter: the
      products built from `items`, skipping items that raise
      (scraper.py:79-104). */
  function TransformAll(c: Coercions, category: string, items: seq<Json>): (r: seq<ProductData>)
    ensures |r| <= |items|
    ensures forall p :: p in r ==> p.category == Some(category) && |p.reviews| <= 10
  {
    Collect(Builder(c, category), items)
  }

  /** Collecting distributes over concatenation. */
  lemma {:induction false} CollectAppend<A, B>(f: A -> Option<B>, a: seq<A>, b: seq<A>)
    ensures Collect(f, a + b) == Collect(f, a) + Collect(f, b)
  {
    if |a| > 0 {
      assert (a + b)[1..] == a[1..] + b;
      CollectAppend(f, a[1..], b);
    } else {
      assert a + b == b;
    }
  }

  /** One element in the middle contributes what `f` yields on it. */
  lemma CollectMiddle<A, B>(f: A -> Option<B>, a: seq<A>, x: A, b: seq<A>)
    ensures Collect(f, a + [x] + b)
         == Collect(f, a) + (if f(x).Some? then [f(x).value] else []) + Collect(f, b)
  {
    CollectAppend(f, a + [x], b);
    CollectAppend(f, a, [x]);
    assert [x][1..] == [];
  }

  /** The products built from `a + b` are those built from `a` followed by
      those built from `b`. */
  lemma TransformAllAppend(c: Coercions, category: string, a: seq<Json>, b: seq<Json>)
    ensures TransformAll(c, category, a + b) == TransformAll(c, category, a) + TransformAll(c, category, b)
  {
    CollectAppend(Builder(c, category), a, b);
  }

  /** An item whose product cannot be built is skipped wherever it stands,
      and the products built from the items around it are unaffected. */
  lemma FailedItemSkipped(c: Coercions, category: string, a: seq<Json>, x: Json, b: seq<Json>)
    requires TransformItem(c, category, x) == None
    ensures TransformAll(c, category, a + [x] + b) == TransformAll(c, category, a) + TransformAll(c, category, b)
  {
    CollectMiddle(Builder(c, category), a, x, b);
  }

  /** An item that builds a product contributes exactly that product, at
      its position. */
  lemma BuiltItemKept(c: Coercions, category: string, a: seq<Json>, x: Json, b: seq<Json>)
    requires TransformItem(c, category, x).Some?
    ensures TransformAll(c, category, a + [x] + b)
         == TransformAll(c, category, a) + [TransformItem(c, category, x).value] + TransformAll(c, category, b)
  {
    CollectMiddle(Builder(c, category), a, x, b);
  }

  /** Items that are not objects are skipped without affecting the rest. */
  lemma NonObjectsSkipped(c: Coercions, category: string, junk: seq<Json>, items: seq<Json>)
    requires forall k :: 0 <= k < |junk| ==> !junk[k].JObj?
    ensures TransformAll(c, category, junk + items) == TransformAll(c, category, items)
  {
    CollectSkips(Builder(c, category), junk, items);
  }

  /** The dataset items of a list of products. */
  function ItemsOf(ps: seq<ProductData>): (r: seq<Json>)
    ensures |r| == |ps|
    ensures forall k :: 0 <= k < |ps| ==> r[k] == ItemOf(ps[k])
  {
    if |ps| == 0 then [] else [ItemOf(ps[0])] + ItemsOf(ps[1..])
  }

  /** Transforming encoded products gives them back, in order. */
  lemma TransformAllRoundTrip(c: Coercions, category: string, ps: seq<ProductData>)
    requires forall k :: 0 <= k < |ps| ==> ps[k].category == Some(category) && |ps[k].reviews| <= 10
    ensures TransformAll(c, category, ItemsOf(ps)) == ps
  {
    forall k | 0 <= k < |ps|
      ensures TransformItem(c, category, ItemsOf(ps)[k]) == Some(ps[k])
    {
      ItemRoundTrip(c, category, ps[k]);
    }
    CollectExact(Builder(c, category), ItemsOf(ps), ps);
  }

  /** `_transform_actor_output` (scraper.py:75-106): the products built
      from the items, those below the sales threshold dropped, cut to
      `maxProducts`. */
  function TransformActorOutput(c: Coercions, s: Scraper, items: seq<Json>): (r: seq<ProductData>)
    ensures forall p :: p in r ==> p.salesCount >= s.minSales && p.category == Some(s.category)
    ensures forall p :: p in r ==> |p.reviews| <= 10
    ensures 0 <= s.maxProducts ==> |r| <= s.maxProducts
    ensures |r| <= |items|
    ensures r == SelectBySales(s, TransformAll(c, s.category, items))
  {
    SelectBySales(s, TransformAll(c, s.category, items))
  }

  /** The loop of scraper.py:79-106 as written: build each item's product,
      skip it on failure, append it when it sells enough, then cut the
      list to `maxProducts`. It computes `TransformActorOutput`. */
  method TransformActorOutputLoop(c: Coercions, s: Scraper, items: seq<Json>) returns (r: seq<ProductData>)
    ensures r == TransformActorOutput(c, s, items)
  {
    r := SelectLoop(Builder(c, s.category), s, items);
  }

  /** That loop for any way `build` of turning an item into a product. */
  method SelectLoop<A>(build: A -> Option<ProductData>, s: Scraper, items: seq<A>) returns (r: seq<ProductData>)
    ensures r == SelectBySales(s, Collect(build, items))
  {
    var products: seq<ProductData> := [];
    var i := 0;
    while i < |items|
      invariant 0 <= i <= |items|
      invariant products == FilterMinSales(Collect(build, items[..i]), s.minSales)
    {
      var built := build(items[i]);
      ghost var done := items[..i];
      FilterCollectSnoc(build, done, items[i], s.minSales);
      assert items[..i + 1] == done + [items[i]];
      if built.Some? && built.value.salesCount >= s.minSales {
        products := products + [built.value];
      }
      i := i + 1;
    }
    assert items[..i] == items;
    r := Take(products, s.maxProducts);
  }

  /** Filtering what `f` yields on `xs + [x]`. */
  lemma FilterCollectSnoc<A>(f: A -> Option<ProductData>, xs: seq<A>, x: A, minSales: int)
    ensures FilterMinSales(Collect(f, xs + [x]), minSales)
         == FilterMinSales(Collect(f, xs), minSales)
            + (if f(x).Some? && f(x).value.salesCount >= minSales then [f(x).value] else [])
  {
    var tail := if f(x).Some? then [f(x).value] else [];
    CollectMiddle(f, xs, x, []);
    assert xs + [x] + [] == xs + [x];
    assert Collect(f, xs + [x]) == Collect(f, xs) + tail;
    FilterAppend(Collect(f, xs), tail, minSales);
    if f(x).Some? {
      assert tail[1..] == [];
    }
  }

  /** The live path and the fixture agree: handing the fixture to the
      transformation as Actor output selects exactly the mock data. */
  lemma MockThroughActor(c: Coercions, s: Scraper)
    ensures TransformActorOutput(c, s, ItemsOf(MockProducts(s.category))) == GetMockData(s)
  {
    var ps := MockProducts(s.category);
    MockReviewCounts(s.category);
    TransformAllRoundTrip(c, s.category, ps);
  }

  /** Every fixture product has five reviews. */
  lemma MockReviewCounts(category: string)
    ensures forall p :: p in MockProducts(category) ==> |p.reviews| == 5
  {
  }

  /** `scrape_with_actor` (scraper.py:27-73) and `scrape` (219-223). `live`
      is the dataset of a successful run of the scraping Actor; `None`
      stands for a missing token, a failed run or a raised exception, all
      of which fall back to the fixture. An empty dataset does not. */
  function ScrapeWithActor(c: Coercions, s: Scraper, live: Option<seq<Json>>): (r: seq<ProductData>)
    ensures live == None ==> r == GetMockData(s)
    ensures live.Some? ==> |r| <= |live.value|
    ensures live == Some([]) ==> r == []
    ensures live.Some? ==> r == TransformActorOutput(c, s, live.value)
    ensures forall p :: p in r ==> p.salesCount >= s.minSales && p.category == Some(s.category)
    ensures 0 <= s.maxProducts ==> |r| <= s.maxProducts
  {
    match live
    case None => GetMockData(s)
    case Some(items) => TransformActorOutput(c, s, items)
  }
}
