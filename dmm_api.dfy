/**
 * The product side of the DMM affiliate client: normalising catalog records,
 * the dummy records used when the catalog cannot be asked, the product boxes
 * rendered as HTML and the splicing of those boxes into an article.
 *
 * The client's `apiId` (read from the environment once, never changed) is a
 * parameter, and each catalog request is represented by its answer.
 */
module DmmApi {
  import opened Strings

  /**
   * A product record. The catalog answers with `comment`, `prices.price`,
   * `imageURL.large/small`, `affiliateURL`, `category_name` and `maker_name`;
   * the normalised and dummy records use `description`, `price`, `image_url`,
   * `affiliate_url`, `category` and `maker`. A field that is absent (or falsy)
   * is the empty string; `features` is absent or a list (an empty list is
   * still present). The rating is not modelled.
   */
  datatype Product = Product(
    contentId: string,
    title: string,
    description: string,
    comment: string,
    price: string,
    pricesPrice: string,
    imageUrl: string,
    imageLarge: string,
    imageSmall: string,
    affiliateUrl: string,
    affiliateURL: string,
    category: string,
    categoryName: string,
    maker: string,
    makerName: string,
    features: Option<seq<string>>)

  /** The record `prepareReviewData` returns (its random rating aside). */
  datatype ReviewData = ReviewData(
    title: string,
    description: string,
    price: string,
    imageUrl: string,
    affiliateUrl: string,
    category: string,
    maker: string,
    features: seq<string>,
    pros: seq<string>,
    cons: seq<string>,
    reviewSummary: string)

  /** The answer to one catalog request: a failure (network error, a status
      that is not ok, a body that is not JSON) or the list of items. */
  datatype ApiAnswer = Failed | Answered(items: seq<Product>)

  /** JavaScript's `a || b` on strings: `a` unless it is empty (absent). */
  function Or(a: string, b: string): string {
    if a != "" then a else b
  }

  // ---------------------------------------------------------------- formatting

  /** One catalog item in the normalised shape. */
  function FormatItem(item: Product): (r: Product)
    ensures r.imageUrl == (if item.imageLarge != "" then item.imageLarge else item.imageSmall)
    ensures r.contentId == item.contentId && r.title == item.title
    ensures r.description == item.comment && r.price == item.pricesPrice
    ensures r.affiliateUrl == item.affiliateURL
    ensures r.category == item.categoryName && r.maker == item.makerName
    ensures r.features.None?
  {
    Product(item.contentId, item.title, item.comment, "", item.pricesPrice, "",
            Or(item.imageLarge, Or(item.imageSmall, "")), "", "",
            item.affiliateURL, "", item.categoryName, "", item.makerName, "", None)
  }

  /** `formatProducts`: the items, each normalised, in the same order. */
  function FormatProducts(items: seq<Product>): (r: seq<Product>)
    ensures |r| == |items|
    ensures forall i :: 0 <= i < |items| ==> r[i] == FormatItem(items[i])
  {
    seq(|items|, i requires 0 <= i < |items| => FormatItem(items[i]))
  }

  /** Formatting commutes with concatenation: the items of two answers are
      formatted as the two lists side by side. */
  lemma FormatProductsAppend(a: seq<Product>, b: seq<Product>)
    ensures FormatProducts(a + b) == FormatProducts(a) + FormatProducts(b)
  {
    var l, r := FormatProducts(a + b), FormatProducts(a) + FormatProducts(b);
    assert |l| == |r|;
    forall i | 0 <= i < |l| ensures l[i] == r[i] {
      if i < |a| {
        assert (a + b)[i] == a[i];
      } else {
        assert (a + b)[i] == b[i - |a|];
      }
    }
  }

  // ---------------------------------------------------------------- dummy data

  const SmallPlaceholder := "https://via.placeholder.com/300x400"
  const LargePlaceholder := "https://via.placeholder.com/500x500"
  const TestCategory := "テストカテゴリ"
  const TestMaker := "テストメーカー"

  /** `getDummyProducts(keyword)`: two records in the normalised shape. */
  function DummyProducts(keyword: string): (r: seq<Product>)
    ensures |r| == 2
    ensures r[0].contentId == "dummy-001" && r[1].contentId == "dummy-002"
    ensures forall i :: 0 <= i < 2 ==>
      r[i].affiliateUrl == "#" && r[i].imageUrl == SmallPlaceholder && r[i].features.None?
    ensures forall i :: 0 <= i < 2 ==> |keyword| <= |r[i].title| && r[i].title[..|keyword|] == keyword
  {
    [ Product("dummy-001", keyword + "関連商品1",
              keyword + "に関連する商品の説明文です。" + "優れた品質と機能性を兼ね備えています。",
              "", "1,980円", "", SmallPlaceholder, "", "", "#", "",
              TestCategory, "", TestMaker, "", None),
      Product("dummy-002", keyword + "関連商品2",
              keyword + "の別の商品説明です。" + "コストパフォーマンスに優れた人気商品。",
              "", "2,980円", "", SmallPlaceholder, "", "", "#", "",
              TestCategory, "", TestMaker, "", None) ]
  }

  /** `getDummyProductDetails(productId)`: one record carrying both the catalog
      and the normalised field names. */
  function DummyDetails(productId: string): (r: Product)
    ensures r.contentId == productId && r.title == "テスト商品 " + productId
    ensures r.price == r.pricesPrice == "2,980円"
    ensures r.affiliateUrl == r.affiliateURL == "#"
    ensures r.imageUrl == r.imageLarge == LargePlaceholder
    ensures r.features.None?
  {
    Product(productId, "テスト商品 " + productId,
            "これはテスト用の商品説明です。" + "実際の商品データはDMM APIから取得されます。",
            "優れた品質と機能性を兼ね備えた商品です。",
            "2,980円", "2,980円", LargePlaceholder, LargePlaceholder, "", "#", "#",
            TestCategory, TestCategory, TestMaker, TestMaker, None)
  }

  // ---------------------------------------------------------- catalog requests

  /** `searchProducts`: with no API id, or when the request fails, the dummy
      records for the keyword (or for "test"); otherwise the answer's items,
      normalised (an answer without items gives the empty list). */
  function SearchProducts(apiId: string, keyword: string, answer: ApiAnswer): (r: seq<Product>)
    ensures apiId == "" || answer.Failed? ==>
      r == DummyProducts(Or(keyword, "test"))
    ensures apiId != "" && answer.Answered? ==> r == FormatProducts(answer.items)
  {
    if apiId == "" then DummyProducts(Or(keyword, "test"))
    else match answer
      case Failed => DummyProducts(Or(keyword, "test"))
      case Answered(items) => FormatProducts(items)
  }

  /** The fallback of a search is exactly two records, neither of which links
      anywhere, and both titles start with the keyword (or "test"). */
  lemma SearchFallback(apiId: string, keyword: string, answer: ApiAnswer)
    requires apiId == "" || answer.Failed?
    ensures |SearchProducts(apiId, keyword, answer)| == 2
    ensures forall i :: 0 <= i < 2 ==> SearchProducts(apiId, keyword, answer)[i].affiliateUrl == "#"
    ensures keyword != "" ==> forall i :: 0 <= i < 2 ==>
      SearchProducts(apiId, keyword, answer)[i].title[..|keyword|] == keyword
    ensures keyword == "" ==> forall i :: 0 <= i < 2 ==>
      SearchProducts(apiId, keyword, answer)[i].title[..4] == "test"
  {
  }

  /** `getProductDetails`: the first item of a successful answer, else the
      dummy details for the id. */
  function GetProductDetails(apiId: string, productId: string, answer: ApiAnswer): (r: Product)
    ensures apiId != "" && answer.Answered? && answer.items != [] ==> r == answer.items[0]
    ensures apiId == "" || answer.Failed? || answer.items == [] ==> r == DummyDetails(productId)
  {
    if apiId != "" && answer.Answered? && answer.items != [] then answer.items[0]
    else DummyDetails(productId)
  }

  // ------------------------------------------------------------ review record

  const DefaultFeatures := ["高品質な仕上がり", "使いやすいデザイン"]
  const CheapFeature := "手頃な価格"
  const Pros := ["品質が高い", "価格が手頃", "デザインが優れている"]
  const Cons := ["在庫が限られている場合がある", "人気商品のため売り切れることがある"]

  /** The price test of `extractFeatures`: the price is present, mentions 円,
      and its digits, read by `parseInt`, are below 3000 (no digit is `NaN`). */
  predicate Cheap(price: string) {
    price != "" && Contains(price, "円") &&
    var n := ParseInt(DigitsOnly(price));
    n.Some? && n.value < 3000
  }

  /** A string of digits has no leading white space. */
  lemma TrimStartDigits(d: string)
    requires forall i :: 0 <= i < |d| ==> IsAsciiDigit(d[i])
    ensures TrimStart(d) == d
  {
  }

  /** A string of digits is its own leading run of digits. */
  lemma LeadingDigitsAll(d: string)
    requires forall i :: 0 <= i < |d| ==> IsAsciiDigit(d[i])
    ensures LeadingDigits(d) == d
  {
  }

  /** `parseInt` of a string of digits is the value of the digits. */
  lemma ParseDigits(d: string)
    requires forall i :: 0 <= i < |d| ==> IsAsciiDigit(d[i])
    ensures ParseInt(d) == (if d == [] then None else Some(DigitsValue(d) as int))
  {
    TrimStartDigits(d);
    assert SignFree(d) == d;
    LeadingDigitsAll(d);
  }

  /** The price test read without `parseInt`: 円 is mentioned and the price has
      at least one digit, whose value is below 3000. */
  lemma CheapByDigits(price: string)
    ensures Cheap(price) <==>
      (Contains(price, "円") && DigitsOnly(price) != [] && DigitsValue(DigitsOnly(price)) < 3000)
  {
    ParseDigits(DigitsOnly(price));
    if Contains(price, "円") {
      assert price != "";
    }
  }

  /** The feature list `extractFeatures` returns. */
  function FeaturesFor(p: Product): (r: seq<string>)
    ensures p.features.Some? ==> r == p.features.value
    ensures p.features.None? ==> |r| >= 2 && r[..2] == DefaultFeatures
    ensures p.features.None? ==> (|r| == 3 <==> Cheap(p.price)) && 2 <= |r| <= 3
    ensures p.features.None? && |r| == 3 ==> r[2] == CheapFeature
  {
    if p.features.Some? then p.features.value
    else DefaultFeatures + (if Cheap(p.price) then [CheapFeature] else [])
  }

  /** `extractFeatures`, pushing on a local list as the source does. */
  method ExtractFeatures(p: Product) returns (features: seq<string>)
    ensures features == FeaturesFor(p)
  {
    features := [];
    if p.features.Some? {
      return p.features.value;
    }
    features := features + ["高品質な仕上がり"];
    features := features + ["使いやすいデザイン"];
    assert features == DefaultFeatures;
    if p.price != "" && Contains(p.price, "円") {
      var n := ParseInt(DigitsOnly(p.price));
      if n.Some? && n.value < 3000 {
        features := features + [CheapFeature];
      }
    }
  }

  /** The digits of the dummy price 2,980円 are 2980. */
  lemma DummyPriceDigits()
    ensures DigitsOnly("2,980円") == "2980"
  {
  }

  /** The dummy price of 2,980円 counts as affordable. */
  lemma DummyPriceIsCheap()
    ensures Cheap("2,980円")
  {
    var price := "2,980円";
    DummyPriceDigits();
    assert "2980"[..3] == "298" && "298"[..2] == "29" && "29"[..1] == "2" && "2"[..0] == "";
    assert DigitsValue("2") == 2;
    assert DigitsValue("29") == 29;
    assert DigitsValue("298") == 298;
    assert DigitsValue("2980") == 2980;
    assert OccursAt(price, "円", 5);
    CheapByDigits(price);
  }

  /** The dummy details carry the two default features and the affordable one. */
  lemma DummyDetailsFeatures(productId: string)
    ensures FeaturesFor(DummyDetails(productId)) == DefaultFeatures + [CheapFeature]
  {
    DummyPriceIsCheap();
  }

  /** `generateReviewSummary`: reads the raw `title` and `category` fields. */
  function ReviewSummary(p: Product): string {
    Or(p.title, "この商品") + "は、" + Or(p.category, "カテゴリ") +
      "において優れた選択肢の一つです。"
  }

  /** The review record of a present product. */
  function ReviewOf(p: Product): (r: ReviewData)
    ensures r.title != "" && r.description != "" && r.price != "" && r.affiliateUrl != ""
    ensures r.category != "" && r.maker != ""
    ensures r.imageUrl == "" <==> p.imageUrl == "" && p.imageLarge == ""
    ensures r.pros == Pros && r.cons == Cons && r.features == FeaturesFor(p)
  {
    ReviewData(
      Or(p.title, "テスト商品"),
      Or(p.description, Or(p.comment, "商品の説明")),
      Or(p.price, Or(p.pricesPrice, "価格未定")),
      Or(p.imageUrl, Or(p.imageLarge, "")),
      Or(p.affiliateUrl, Or(p.affiliateURL, "#")),
      Or(p.category, Or(p.categoryName, "カテゴリ未設定")),
      Or(p.maker, Or(p.makerName, "メーカー未設定")),
      FeaturesFor(p), Pros, Cons, ReviewSummary(p))
  }

  /** `prepareReviewData`: a missing product is replaced by the dummy details
      of "test-001". */
  function PrepareReviewData(product: Option<Product>): (r: ReviewData)
    ensures product.None? ==> r == ReviewOf(DummyDetails("test-001"))
    ensures product.Some? ==> r == ReviewOf(product.value)
  {
    ReviewOf(if product.Some? then product.value else DummyDetails("test-001"))
  }

  /** Each review field comes from its first present source, in the source's
      order, else from its literal default. */
  lemma ReviewPrecedence(p: Product)
    ensures ReviewOf(p).description ==
      (if p.description != "" then p.description
       else if p.comment != "" then p.comment else "商品の説明")
    ensures ReviewOf(p).price ==
      (if p.price != "" then p.price else if p.pricesPrice != "" then p.pricesPrice else "価格未定")
    ensures ReviewOf(p).affiliateUrl ==
      (if p.affiliateUrl != "" then p.affiliateUrl
       else if p.affiliateURL != "" then p.affiliateURL else "#")
    ensures ReviewOf(p).category ==
      (if p.category != "" then p.category
       else if p.categoryName != "" then p.categoryName else "カテゴリ未設定")
    ensures ReviewOf(p).maker ==
      (if p.maker != "" then p.maker else if p.makerName != "" then p.makerName else "メーカー未設定")
    ensures ReviewOf(p).title == (if p.title != "" then p.title else "テスト商品")
  {
  }

  /** The record `prepareReviewData` returns, passed back in as a product. */
  function AsProduct(d: ReviewData): Product {
    Product("", d.title, d.description, "", d.price, "", d.imageUrl, "", "",
            d.affiliateUrl, "", d.category, "", d.maker, "", Some(d.features))
  }

  /** Preparing an already prepared record changes no field but the summary,
      which reads the raw title and category. */
  lemma ReviewIdempotent(p: Product)
    ensures ReviewOf(AsProduct(ReviewOf(p))).(reviewSummary := ReviewOf(p).reviewSummary) == ReviewOf(p)
  {
  }

  /** The summary is where it fails: a product with neither title nor category
      is summarised differently the second time. */
  lemma SummaryNotIdempotent(p: Product)
    requires p.title == "" && p.category == "" && p.categoryName == ""
    ensures ReviewOf(AsProduct(ReviewOf(p))).reviewSummary != ReviewOf(p).reviewSummary
  {
    var s1 := ReviewOf(p).reviewSummary;
    assert s1[..3] == "この商";
    var s2 := ReviewOf(AsProduct(ReviewOf(p))).reviewSummary;
    assert s2[..3] == "テスト";
  }

  // ------------------------------------------------------------ product boxes

  const ErrorBox := "<div class=\"dmm-product-box\">" + "<p>商品情報の表示エラー</p></div>"

  function BoxHead(title: string): string {
    "\n        <div class=\"dmm-product-box\">" + "\n          " + ("<h3>" + title + "</h3>") +
    "\n          \n          "
  }

  /** The image block: present exactly when the record has an image URL. */
  function ImageBlock(d: ReviewData): (r: string)
    ensures r == "" <==> d.imageUrl == ""
    ensures r != "" ==> Contains(r, "<img src=\"" + d.imageUrl + "\"")
  {
    if d.imageUrl == "" then ""
    else
      var pre := "\n          <div class=\"product-image\">" + "\n            ";
      var tag := "<img src=\"" + d.imageUrl + "\"";
      var post := " alt=\"" + d.title + "\" loading=\"lazy\" />" + "\n          </div>";
      ContainsMiddle(pre, tag, post);
      pre + tag + post
  }

  function BoxTable(d: ReviewData): string {
    "\n          \n          " + "<div class=\"product-info\">" +
    "\n            " + "<table class=\"product-table\">" +
    TableRow("価格", d.price) + TableRow("メーカー", d.maker) + TableRow("カテゴリ", d.category) +
    "\n              " + "\n            </table>" + "\n            \n            " +
    "<div class=\"product-description\">" +
    "\n              <p>" + d.description + "</p>" + "\n            </div>" + "\n            \n            "
  }

  /** One row of the product table. */
  function TableRow(heading: string, value: string): string {
    "\n              <tr>" + "\n                <th>" + heading + "</th>" +
    "\n                <td>" + value + "</td>" + "\n              </tr>"
  }

  function FeatureItem(i: nat, f: string): string {
    "<li>" + f + "</li>"
  }

  /** The feature list: present exactly when there is at least one feature,
      and then it lists every feature. */
  function FeatureBlock(d: ReviewData): (r: string)
    ensures r == "" <==> d.features == []
    ensures forall i :: 0 <= i < |d.features| ==> Contains(r, "<li>" + d.features[i] + "</li>")
  {
    if d.features == [] then ""
    else
      var items := ConcatMap(d.features, 0, FeatureItem);
      var pre := "\n            <div class=\"product-features\">" + "\n              <h4>特徴</h4>" +
        "\n              <ul>" + "\n                ";
      var post := "\n              </ul>" + "\n            </div>";
      assert forall i :: 0 <= i < |d.features| ==> Contains(pre + items + post, FeatureItem(i, d.features[i])) by {
        forall i | 0 <= i < |d.features| ensures Contains(pre + items + post, FeatureItem(i, d.features[i])) {
          ConcatMapContains(d.features, 0, FeatureItem, i);
          ContainsInside(pre, items, post, FeatureItem(i, d.features[i]));
        }
      }
      pre + items + post
  }

  /** The call to action: present exactly when the affiliate URL is present
      and is not the placeholder "#", and then it links to that URL. */
  function CtaBlock(d: ReviewData): (r: string)
    ensures r == "" <==> d.affiliateUrl == "" || d.affiliateUrl == "#"
    ensures r != "" ==> Contains(r, "<a href=\"" + d.affiliateUrl + "\"")
  {
    if d.affiliateUrl == "" || d.affiliateUrl == "#" then ""
    else
      var pre := "\n            <div class=\"product-cta\">" + "\n              ";
      var tag := "<a href=\"" + d.affiliateUrl + "\"";
      var post := " \n                 " + "class=\"dmm-button\" " + "\n                 " +
        "target=\"_blank\" " + "\n                 " + "rel=\"nofollow noopener\">" +
        "\n                詳細を見る" + "\n              </a>" + "\n            </div>";
      ContainsMiddle(pre, tag, post);
      pre + tag + post
  }

  const BoxTail := "\n          </div>" + "\n        </div>" + "\n        \n        "

  /** The box of a prepared record, in the template's order. */
  function BoxHtml(d: ReviewData): string {
    BoxHead(d.title) + ImageBlock(d) + BoxTable(d) + FeatureBlock(d) + "\n            \n            " +
    CtaBlock(d) + BoxTail
  }

  /** `generateProductHtml`: the box of the prepared record; a missing product
      makes the template throw, which yields the error box. */
  function ProductHtml(product: Option<Product>): (r: string)
    ensures product.None? ==> r == ErrorBox
    ensures product.Some? ==> r == BoxHtml(ReviewOf(product.value))
  {
    if product.None? then ErrorBox else BoxHtml(ReviewOf(product.value))
  }

  /** A box shows the product's title and each of its blocks. */
  lemma BoxShowsBlocks(d: ReviewData)
    ensures Contains(BoxHtml(d), "<h3>" + d.title + "</h3>")
    ensures Contains(BoxHtml(d), ImageBlock(d))
    ensures Contains(BoxHtml(d), FeatureBlock(d))
    ensures Contains(BoxHtml(d), CtaBlock(d))
  {
    var h, i, t, f, g, c := BoxHead(d.title), ImageBlock(d), BoxTable(d), FeatureBlock(d),
      "\n            \n            ", CtaBlock(d);
    var title := "<h3>" + d.title + "</h3>";
    ContainsMiddle("\n        <div class=\"dmm-product-box\">" + "\n          ", title, "\n          \n          ");
    ContainsBefore(h, i, title);
    ContainsBefore(h + i, t, title);
    ContainsBefore(h + i + t, f, title);
    ContainsBefore(h + i + t + f, g, title);
    ContainsBefore(h + i + t + f + g, c, title);
    ContainsBefore(h + i + t + f + g + c, BoxTail, title);
    ContainsMiddle(h, i, t);
    ContainsBefore(h + i + t, f, i);
    ContainsBefore(h + i + t + f, g, i);
    ContainsBefore(h + i + t + f + g, c, i);
    ContainsBefore(h + i + t + f + g + c, BoxTail, i);
    ContainsMiddle(h + i + t, f, g);
    ContainsBefore(h + i + t + f + g, c, f);
    ContainsBefore(h + i + t + f + g + c, BoxTail, f);
    ContainsMiddle(h + i + t + f + g, c, BoxTail);
  }

  /** The image block appears exactly when the product has `image_url` or
      `imageURL.large`. */
  lemma ImageShown(p: Product)
    ensures ImageBlock(ReviewOf(p)) != "" <==> p.imageUrl != "" || p.imageLarge != ""
  {
  }

  /** The call to action appears exactly when the first present affiliate URL
      is a real one. */
  lemma CtaShown(p: Product)
    ensures CtaBlock(ReviewOf(p)) != "" <==>
      (p.affiliateUrl != "" && p.affiliateUrl != "#") ||
      (p.affiliateUrl == "" && p.affiliateURL != "" && p.affiliateURL != "#")
  {
  }

  /** Dummy records never carry a call to action. */
  lemma DummyHasNoCta(keyword: string, productId: string)
    ensures forall i :: 0 <= i < 2 ==> CtaBlock(ReviewOf(DummyProducts(keyword)[i])) == ""
    ensures CtaBlock(PrepareReviewData(None)) == "" && CtaBlock(ReviewOf(DummyDetails(productId))) == ""
  {
  }

  // --------------------------------------------------------- product sections

  const NotFound := "<p>関連商品が見つかりませんでした。</p>"

  function SectionHead(title: string): (r: string)
    ensures |r| > 0 && r[0] == '\n'
  {
    var open := "\n        <div class=\"dmm-products-section\">";
    assert open[0] == '\n';
    open + ("\n          <h2>" + title + "</h2>" + "\n          <div class=\"products-grid\">" + "\n      ")
  }

  const SectionTail := "\n          </div>" + "\n        </div>" + "\n        \n        "

  /** The number of boxes a section shows: `options.limit || 3`, at most the
      number of products. */
  function Shown(count: nat, limit: nat): (r: nat)
    ensures r <= count
    ensures r == count || r == (if limit == 0 then 3 else limit)
    ensures r <= (if limit == 0 then 3 else limit)
  {
    var l := if limit == 0 then 3 else limit;
    if count < l then count else l
  }

  /** The box of the product at index `i` of a section. */
  function Box(i: nat, p: Product): string {
    ProductHtml(Some(p))
  }

  /** The section `generateMultipleProductsHtml` returns. */
  function ProductsSection(products: seq<Product>, title: string, limit: nat): string {
    if products == [] then NotFound
    else SectionHead(Or(title, "おすすめ商品")) + ConcatMap(products[..Shown(|products|, limit)], 0, Box) + SectionTail
  }

  /** The "not found" paragraph stands for the empty list, and only for it. */
  lemma SectionNotFound(products: seq<Product>, title: string, limit: nat)
    ensures ProductsSection(products, title, limit) == NotFound <==> products == []
  {
    if products != [] {
      var r := ProductsSection(products, title, limit);
      var head := SectionHead(Or(title, "おすすめ商品"));
      assert r[0] == head[0];
      assert NotFound[0] == '<';
    }
  }

  /** `generateMultipleProductsHtml`. */
  method GenerateMultipleProductsHtml(products: seq<Product>, title: string, limit: nat)
    returns (html: string)
    ensures html == ProductsSection(products, title, limit)
  {
    if products == [] {
      return NotFound;
    }
    var heading := Or(title, "おすすめ商品");
    html := SectionHead(heading);
    html := AppendBoxes(html, products, limit, Box);
    html := html + SectionTail;
  }

  /** The `forEach` of `generateMultipleProductsHtml`: `html += render(…)` for
      every product whose index is below `limit || 3`. The renderer is a
      parameter so that the proof does not unfold the box markup. */
  method AppendBoxes(html: string, products: seq<Product>, limit: nat, render: (nat, Product) -> string)
    returns (r: string)
    ensures r == html + ConcatMap(products[..Shown(|products|, limit)], 0, render)
  {
    var max := if limit == 0 then 3 else limit;
    r := html;
    var i := 0;
    while i < |products|
      invariant 0 <= i <= |products|
      invariant r == html + ConcatMap(products[..Shown(i, limit)], 0, render)
    {
      if i < max {
        ConcatMapSnoc(products, i, 0, render);
        AppendAssoc(html, ConcatMap(products[..i], 0, render), render(i, products[i]));
        r := r + render(i, products[i]);
      }
      i := i + 1;
    }
  }

  /** Products past the limit change nothing. */
  lemma SectionIgnoresRest(products: seq<Product>, rest: seq<Product>, title: string, limit: nat)
    requires |products| >= (if limit == 0 then 3 else limit)
    ensures ProductsSection(products + rest, title, limit) == ProductsSection(products, title, limit)
  {
    var k := Shown(|products|, limit);
    assert Shown(|products + rest|, limit) == k;
    assert (products + rest)[..k] == products[..k];
  }

  /** Each product within the limit is shown, the i-th box after the (i-1)-th. */
  lemma SectionShowsEach(products: seq<Product>, title: string, limit: nat, i: nat)
    requires i < Shown(|products|, limit)
    ensures Contains(ProductsSection(products, title, limit), ProductHtml(Some(products[i])))
  {
    var head := SectionHead(Or(title, "おすすめ商品"));
    SectionShowsRendered(products, head, SectionTail, limit, i, Box);
    assert ProductsSection(products, title, limit) ==
      head + ConcatMap(products[..Shown(|products|, limit)], 0, Box) + SectionTail;
    assert Box(i, products[i]) == ProductHtml(Some(products[i]));
  }

  /** The rendering of each element within the limit occurs between a head and a tail. */
  lemma SectionShowsRendered(products: seq<Product>, head: string, tail: string, limit: nat, i: nat,
                             render: (nat, Product) -> string)
    requires i < Shown(|products|, limit)
    ensures Contains(head + ConcatMap(products[..Shown(|products|, limit)], 0, render) + tail, render(i, products[i]))
  {
    var shown := products[..Shown(|products|, limit)];
    ConcatMapContains(shown, 0, render, i);
    assert shown[i] == products[i];
    ContainsInside(head, ConcatMap(shown, 0, render), tail, render(i, products[i]));
  }

  /** Around a rendered prefix, the i-th rendering is preceded by exactly the
      renderings of the elements before it. */
  lemma RenderedOrder(xs: seq<Product>, k: nat, i: nat, hd: string, tl: string, render: (nat, Product) -> string)
    requires i < k <= |xs|
    ensures hd + ConcatMap(xs[..k], 0, render) + tl ==
      (hd + ConcatMap(xs[..i], 0, render)) + render(i, xs[i]) + (ConcatMap(xs[i + 1..k], i + 1, render) + tl)
  {
    var shown := xs[..k];
    ConcatMapAt(shown, 0, render, i);
    assert shown[..i] == xs[..i];
    assert shown[i + 1..] == xs[i + 1..k];
    var pre, b, post := ConcatMap(xs[..i], 0, render), render(i, xs[i]), ConcatMap(xs[i + 1..k], i + 1, render);
    AppendAssoc(hd, pre + b, post);
    AppendAssoc(hd, pre, b);
    AppendAssoc(hd + pre + b, post, tl);
  }

  /** The boxes of a section come in the products' order: the i-th box is
      preceded by the heading and the boxes of the products before it. */
  lemma SectionOrder(products: seq<Product>, title: string, limit: nat, i: nat)
    requires i < Shown(|products|, limit)
    ensures ProductsSection(products, title, limit) ==
      (SectionHead(Or(title, "おすすめ商品")) + ConcatMap(products[..i], 0, Box)) +
      Box(i, products[i]) +
      (ConcatMap(products[i + 1..Shown(|products|, limit)], i + 1, Box) + SectionTail)
  {
    var hd, k := SectionHead(Or(title, "おすすめ商品")), Shown(|products|, limit);
    assert ProductsSection(products, title, limit) == hd + ConcatMap(products[..k], 0, Box) + SectionTail;
    RenderedOrder(products, k, i, hd, SectionTail, Box);
  }

  // ----------------------------------------------------------- splicing

  const SectionTitle := "この記事で紹介した商品"

  /** Where `insertProductsIntoArticle` puts the block, given the article. */
  function Spliced(article: string, block: string, position: string): string {
    if position == "middle" && |Split(article, "</p>")| > 3 then
      var paragraphs := Split(article, "</p>");
      var k := |paragraphs| / 2;
      Join(paragraphs[..k] + [block] + paragraphs[k..], "</p>")
    else if position == "end" && LastIndexOf(article, "</h2>") != -1 then
      var h := LastIndexOf(article, "</h2>");
      article[..h + 5] + block + article[h + 5..]
    else article + block
  }

  /** `insertProductsIntoArticle`: renders the section and splices it into the
      paragraph list in place. */
  method InsertProductsIntoArticle(article: string, products: seq<Product>, position: string)
    returns (r: string)
    ensures r == Spliced(article, ProductsSection(products, SectionTitle, 3), position)
  {
    var block := GenerateMultipleProductsHtml(products, SectionTitle, 3);
    if position == "middle" {
      var paragraphs := Split(article, "</p>");
      if |paragraphs| > 3 {
        var k := |paragraphs| / 2;
        paragraphs := paragraphs[..k] + [block] + paragraphs[k..];
        return Join(paragraphs, "</p>");
      }
    } else if position == "end" {
      var h := LastIndexOf(article, "</h2>");
      if h != -1 {
        return article[..h + 5] + block + article[h + 5..];
      }
    }
    r := article + block;
  }

  /** In the middle of an article of more than three paragraphs, the block is
      surrounded by the two halves of the article and one extra `</p>`. */
  lemma MiddleSplice(article: string, block: string)
    requires |Split(article, "</p>")| > 3
    ensures var ps := Split(article, "</p>");
      var k := |ps| / 2;
      Spliced(article, block, "middle") ==
        Join(ps[..k], "</p>") + "</p>" + block + "</p>" + Join(ps[k..], "</p>") &&
      article == Join(ps[..k], "</p>") + "</p>" + Join(ps[k..], "</p>")
    ensures |Spliced(article, block, "middle")| == |article| + |block| + 4
  {
    var ps := Split(article, "</p>");
    var k := |ps| / 2;
    var a, b := ps[..k], ps[k..];
    assert ps == a + b;
    JoinSplit(article, "</p>");
    JoinAppend(a, b, "</p>");
    JoinAppend(a, [block] + b, "</p>");
    JoinCons(block, b, "</p>");
    assert a + [block] + b == a + ([block] + b);
  }

  /** At the end, the block follows the last `</h2>`; the text before and after
      it is unchanged. */
  lemma EndSplice(article: string, block: string)
    requires LastIndexOf(article, "</h2>") != -1
    ensures var h := LastIndexOf(article, "</h2>");
      var r := Spliced(article, block, "end");
      |r| == |article| + |block| &&
      r[..h + 5] == article[..h + 5] &&
      r[h + 5..h + 5 + |block|] == block &&
      r[h + 5 + |block|..] == article[h + 5..] &&
      article[h..h + 5] == "</h2>" &&
      forall j :: h < j <= |article| ==> !OccursAt(article, "</h2>", j)
  {
  }

  /** With any other position, or when the chosen anchor is not there, the
      block is appended. */
  lemma OtherwiseAppended(article: string, block: string, position: string)
    requires (position != "middle" && position != "end") ||
             (position == "middle" && |Split(article, "</p>")| <= 3) ||
             (position == "end" && LastIndexOf(article, "</h2>") == -1)
    ensures Spliced(article, block, position) == article + block
  {
  }
}
