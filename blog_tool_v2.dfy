/**
 * The second-generation cloud blog tool (`functions/lib/blog-tool-v2.js`): it
 * takes its settings from the configuration manager, refuses to start without
 * a valid license, a WordPress site and an OpenAI key, gates article generation
 * on the daily limit and the license features, builds review articles with a
 * product gallery, and posts over XML-RPC.
 *
 * The OpenAI and XML-RPC calls are opaque: each is an outcome parameter. So is
 * the URL parser and the call-to-action rewriter, which are function
 * parameters. Logging is left out.
 */
module BlogToolV2 {
  import opened Strings
  import CM = ConfigManagement
  import DmmApi

  // ---------------------------------------------------------------------
  // Keywords and tags
  // ---------------------------------------------------------------------

  /** The fixed keyword of each known category. */
  const DefaultKeywords: map<string, string> := map[
    "entertainment" := "エンタメ最新",
    "anime" := "アニメ新作",
    "game" := "ゲーム攻略",
    "movie" := "映画レビュー",
    "music" := "音楽ランキング",
    "tech" := "IT最新技術",
    "beauty" := "美容トレンド",
    "food" := "グルメ情報"]

  /** `getDefaultKeyword(category)`: a known category is replaced by its keyword and any
      other is kept as it is. */
  function GetDefaultKeyword(category: string): (r: string)
    ensures r == category <==> category !in DefaultKeywords
    ensures category !in DefaultKeywords || r in DefaultKeywords.Values
  {
    if category in DefaultKeywords then DefaultKeywords[category] else category
  }

  /** The keyword of each of the eight known categories. */
  lemma DefaultKeywordsOfCategories()
    ensures GetDefaultKeyword("entertainment") == "エンタメ最新"
    ensures GetDefaultKeyword("anime") == "アニメ新作"
    ensures GetDefaultKeyword("game") == "ゲーム攻略"
    ensures GetDefaultKeyword("movie") == "映画レビュー"
    ensures GetDefaultKeyword("music") == "音楽ランキング"
    ensures GetDefaultKeyword("tech") == "IT最新技術"
    ensures GetDefaultKeyword("beauty") == "美容トレンド"
    ensures GetDefaultKeyword("food") == "グルメ情報"
    ensures |DefaultKeywords| == 8
  {
  }

  /** The entries of `xs` that are not empty, in their order. */
  function NonEmpty(xs: seq<string>): (r: seq<string>)
    ensures |r| <= |xs|
    ensures forall t :: t in r <==> t in xs && t != ""
  {
    if xs == [] then [] else Kept(xs[0]) + NonEmpty(xs[1..])
  }

  const TagYear := "2025年"
  const TagRecommended := "おすすめ"

  /** `[s]` unless `s` is empty. */
  function Kept(s: string): seq<string> {
    if s == "" then [] else [s]
  }

  /** `generateTags(keyword, category)`: the keyword, the category, the year and the
      recommendation tag, in that order, with the empty ones dropped. */
  function GenerateTags(keyword: string, category: string): (r: seq<string>)
    ensures r == Kept(keyword) + (Kept(category) + [TagYear, TagRecommended])
    ensures forall t :: t in r ==> t != ""
  {
    var last := [TagRecommended];
    assert last[1..] == [];
    var fixed := [TagYear, TagRecommended];
    assert fixed[1..] == last;
    var tail := [category, TagYear, TagRecommended];
    assert tail[1..] == fixed;
    var xs := [keyword, category, TagYear, TagRecommended];
    assert xs[1..] == tail;
    assert NonEmpty(last) == [TagRecommended];
    assert NonEmpty(fixed) == [TagYear] + [TagRecommended];
    assert NonEmpty(tail) == Kept(category) + fixed;
    NonEmpty(xs)
  }

  // ---------------------------------------------------------------------
  // Title extraction: /<h1[^>]*>(.*?)<\/h1>/i, then the tags removed
  // ---------------------------------------------------------------------

  predicate IsH(c: char) {
    c == 'h' || c == 'H'
  }

  /** An opening `<h1` (in either case) at `p` whose tag is closed by a later `>`. */
  predicate OpenTagAt(s: string, p: nat) {
    p + 3 <= |s| && s[p] == '<' && IsH(s[p + 1]) && s[p + 2] == '1' && IndexOf(s[p + 3..], ">") != -1
  }

  /** Where the text of the heading opened at `p` begins: just past the tag's first `>`. */
  function TextStart(s: string, p: nat): (r: nat)
    requires OpenTagAt(s, p)
    ensures p + 4 <= r <= |s| && s[r - 1] == '>'
    ensures forall j :: p + 3 <= j < r - 1 ==> s[j] != '>'
  {
    var i := IndexOf(s[p + 3..], ">");
    FirstOccurrenceOfChar(s[p + 3..], '>');
    p + 3 + i + 1
  }

  /** The first occurrence of a single character is that character, and none comes
      before it. */
  lemma FirstOccurrenceOfChar(t: string, c: char)
    requires IndexOf(t, [c]) != -1
    ensures t[IndexOf(t, [c])] == c
    ensures forall j :: 0 <= j < IndexOf(t, [c]) ==> t[j] != c
  {
    var i := IndexOf(t, [c]);
    assert t[i..i + 1] == [c];
    forall j | 0 <= j < i
      ensures t[j] != c
    {
      assert !OccursAt(t, [c], j);
      assert t[j..j + 1] == [t[j]];
    }
  }

  /** A closing `</h1>` (in either case) at `k`. */
  predicate CloseTagAt(s: string, k: nat) {
    k + 5 <= |s| && s[k] == '<' && s[k + 1] == '/' && IsH(s[k + 2]) && s[k + 3] == '1' && s[k + 4] == '>'
  }

  /** A line terminator lies in `s[from..to]`. */
  predicate BreakBetween(s: string, from: nat, to: nat) {
    exists m :: from <= m < to && m < |s| && IsLineTerminator(s[m])
  }

  /** The lazy `(.*?)<\/h1>` from `k`: the first closing tag at or after `k`, provided
      no line terminator comes before it. */
  function FindClose(s: string, k: nat): (r: Option<nat>)
    requires k <= |s|
    ensures r.Some? ==> k <= r.value && CloseTagAt(s, r.value) && !BreakBetween(s, k, r.value)
    ensures r.Some? ==> forall j :: k <= j < r.value ==> !CloseTagAt(s, j)
    ensures r.None? ==> forall j :: k <= j && CloseTagAt(s, j) ==> BreakBetween(s, k, j)
    decreases |s| - k
  {
    if k == |s| then None
    else if CloseTagAt(s, k) then Some(k)
    else if IsLineTerminator(s[k]) then None
    else FindClose(s, k + 1)
  }

  /** The captured text of a match that starts at `p`, if the pattern matches there. */
  function MatchAt(s: string, p: nat): Option<string> {
    if !OpenTagAt(s, p) then None
    else
      match FindClose(s, TextStart(s, p))
      case None => None
      case Some(k) => Some(s[TextStart(s, p)..k])
  }

  /** The captured text of the leftmost match at or after `p`. */
  function FindH1(s: string, p: nat): Option<string>
    decreases |s| - p
  {
    if p >= |s| then None
    else if MatchAt(s, p).Some? then MatchAt(s, p)
    else FindH1(s, p + 1)
  }

  /** `extractTitle(content)`: the text of the first `<h1>` heading with its tags
      removed, or nothing (`null`). */
  function ExtractTitle(content: string): Option<string> {
    match FindH1(content, 0)
    case None => None
    case Some(g) => Some(StripTags(g))
  }

  /** Scanning from `from` finds the first match at or after it. */
  lemma {:induction false} FindH1First(s: string, from: nat, p: nat)
    requires from <= p && MatchAt(s, p).Some?
    requires forall q :: from <= q < p ==> MatchAt(s, q).None?
    ensures FindH1(s, from) == MatchAt(s, p)
    decreases p - from
  {
    if from < p {
      FindH1First(s, from + 1, p);
    }
  }

  /** Scanning from `from` finds nothing exactly when nothing matches from there on. */
  lemma {:induction false} FindH1None(s: string, from: nat)
    ensures FindH1(s, from).None? <==> forall q :: from <= q < |s| ==> MatchAt(s, q).None?
    decreases |s| - from
  {
    if from < |s| {
      FindH1None(s, from + 1);
    }
  }

  /** The title comes from the leftmost match (the text, tags removed); there is none
      exactly when the pattern matches nowhere. */
  lemma TitleOfLeftmostMatch(s: string, p: nat)
    requires MatchAt(s, p).Some?
    requires forall q :: 0 <= q < p ==> MatchAt(s, q).None?
    ensures ExtractTitle(s) == Some(StripTags(MatchAt(s, p).value))
  {
    FindH1First(s, 0, p);
  }

  /** Without any match there is no title. */
  lemma NoTitleWithoutMatch(s: string)
    ensures ExtractTitle(s).None? <==> forall q :: 0 <= q < |s| ==> MatchAt(s, q).None?
  {
    FindH1None(s, 0);
  }

  /** The opening tag `<h1>` or `<H1>`. */
  function OpenTag(upper: bool): string {
    if upper then "<H1>" else "<h1>"
  }

  const CloseTag := "</h1>"

  /** Text without `<` before a one-line heading: the heading's text is the title, in
      either case of the tag name. */
  lemma TitleOfHeading(pre: string, upper: bool, t: string, rest: string)
    requires '<' !in pre && '<' !in t
    requires forall j :: 0 <= j < |t| ==> !IsLineTerminator(t[j])
    ensures ExtractTitle(pre + OpenTag(upper) + t + CloseTag + rest) == Some(t)
  {
    var s := pre + OpenTag(upper) + t + CloseTag + rest;
    var p := |pre|;
    var start := p + 4;
    var close := start + |t|;
    assert s[p + 3..][0..1] == ">";
    assert OpenTagAt(s, p);
    assert TextStart(s, p) == start;
    assert CloseTagAt(s, close);
    assert forall j :: start <= j < close ==> s[j] == t[j - start];
    FindCloseAcross(s, start, close);
    assert s[start..close] == t;
    forall q | 0 <= q < p
      ensures MatchAt(s, q).None?
    {
      assert s[q] == pre[q];
    }
    TitleOfLeftmostMatch(s, p);
  }

  /** A stretch without `<` or line terminators up to a closing tag is skipped. */
  lemma {:induction false} FindCloseAcross(s: string, k: nat, close: nat)
    requires k <= close && CloseTagAt(s, close)
    requires forall j :: k <= j < close ==> s[j] != '<' && !IsLineTerminator(s[j])
    ensures FindClose(s, k) == Some(close)
    decreases close - k
  {
    if k < close {
      FindCloseAcross(s, k + 1, close);
    }
  }

  const TitleSuffix := "の最新情報"

  /** The article title: the extracted title unless it is missing or empty, otherwise
      `{keyword}の最新情報`. */
  function ArticleTitle(content: string, keyword: string): string {
    match ExtractTitle(content)
    case Some(t) => DmmApi.Or(t, keyword + TitleSuffix)
    case None => keyword + TitleSuffix
  }

  /** A text with no `<` at all has no heading, so the title falls back to the keyword. */
  lemma TitleFallback(content: string, keyword: string)
    requires '<' !in content
    ensures ArticleTitle(content, keyword) == keyword + TitleSuffix
  {
    forall q | 0 <= q < |content|
      ensures MatchAt(content, q).None?
    {
      assert content[q] != '<';
    }
    NoTitleWithoutMatch(content);
  }

  /** A non-empty heading gives the title; an empty one falls back as a missing one would. */
  lemma TitleFromHeading(pre: string, upper: bool, t: string, rest: string, keyword: string)
    requires '<' !in pre && '<' !in t
    requires forall j :: 0 <= j < |t| ==> !IsLineTerminator(t[j])
    ensures ArticleTitle(pre + OpenTag(upper) + t + CloseTag + rest, keyword) ==
      if t == "" then keyword + TitleSuffix else t
  {
    TitleOfHeading(pre, upper, t, rest);
  }

  // ---------------------------------------------------------------------
  // Products, prompts and the product gallery
  // ---------------------------------------------------------------------

  /** A product as the caller passes it; every property may be absent. */
  datatype Item = Item(
    title: Option<string>, price: Option<string>, description: Option<string>,
    imageUrl: Option<string>, affiliateUrl: Option<string>)

  /** The value is there and truthy (not empty). */
  predicate Present(v: Option<string>) {
    v.Some? && v.value != ""
  }

  /** `v || d` on an optional string. */
  function Text(v: Option<string>, d: string): (r: string)
    ensures Present(v) ==> r == v.value
    ensures !Present(v) ==> r == d
  {
    if Present(v) then v.value else d
  }

  /** `${v}` in a template: an absent value prints as `undefined`. */
  function Shown(v: Option<string>): string {
    if v.Some? then v.value else "undefined"
  }

  /** `Array.isArray(products) ? products : [products]`. */
  datatype ProductInput = Many(items: seq<Item>) | One(item: Item)

  function ProductList(input: ProductInput): (r: seq<Item>)
    ensures input.One? ==> r == [input.item]
    ensures input.Many? ==> r == input.items
  {
    match input
    case Many(items) => items
    case One(item) => [item]
  }

  const ArticleRequest := "に関する魅力的なブログ記事を作成してください。\n\n要件：\n1. 文字数: 2000文字以上\n2. SEO最適化されたタイトル\n3. 読みやすい構成（見出しを使用）\n4. 最新の情報を含む\n5. HTML形式で出力\n\n"

  /** The category line. */
  function CategoryLine(category: string): string {
    "カテゴリ: " + category + "\n"
  }

  /** The tone line, present only when a tone is given. */
  function ToneLine(tone: string): (r: string)
    ensures r == "" <==> tone == ""
    ensures tone != "" ==> r == "トーン: " + tone
  {
    if tone != "" then "トーン: " + tone else ""
  }

  /** The pieces of `createPrompt(category, keyword, options)`, in order. */
  function PromptParts(category: string, keyword: string, tone: string): seq<string> {
    ["\n", keyword, ArticleRequest, CategoryLine(category), ToneLine(tone), "\n"]
  }

  /** `createPrompt(category, keyword, options)`. */
  function CreatePrompt(category: string, keyword: string, tone: string): string {
    Concat(PromptParts(category, keyword, tone))
  }

  /** The article prompt names the keyword and the category, and the tone when one is
      given. */
  lemma PromptMentions(category: string, keyword: string, tone: string)
    ensures Contains(CreatePrompt(category, keyword, tone), keyword)
    ensures Contains(CreatePrompt(category, keyword, tone), CategoryLine(category))
    ensures tone != "" ==> Contains(CreatePrompt(category, keyword, tone), "トーン: " + tone)
  {
    var parts := PromptParts(category, keyword, tone);
    ConcatContainsPart(parts, 1);
    ConcatContainsPart(parts, 3);
    ConcatContainsPart(parts, 4);
  }

  /** The prompt entry of the product numbered `i + 1`. */
  function PromptEntry(i: nat, p: Item): string {
    "\n商品" + NatToString(i + 1) + ":\n- 商品名: " + Text(p.title, "") +
    "\n- 価格: " + Text(p.price, "") + "\n- 説明: " + Text(p.description, "") + "\n"
  }

  /** The entries of all products, numbered from 1. */
  function PromptEntries(products: seq<Item>): (r: seq<string>)
    ensures |r| == |products|
    ensures forall i :: 0 <= i < |products| ==> r[i] == PromptEntry(i, products[i])
  {
    seq(|products|, i requires 0 <= i < |products| => PromptEntry(i, products[i]))
  }

  const ReviewRequest := "\n以下の商品についてのレビュー記事を作成してください。\n\n"
  const ReviewRules := "\n\n要件：\n1. 購買意欲を高める内容\n2. 各商品の特徴を詳しく説明\n3. 比較表を含む\n4. HTML形式で出力\n5. キーワード"

  /** The keyword as the prompt quotes it. */
  function Quoted(keyword: string): string {
    "「" + keyword + "」"
  }

  /** The pieces of `createProductReviewPrompt(products, keyword)`, in order. */
  function ReviewPromptParts(products: seq<Item>, keyword: string): seq<string> {
    [ReviewRequest, Join(PromptEntries(products), "\n"), ReviewRules, Quoted(keyword), "を自然に含める\n"]
  }

  /** `createProductReviewPrompt(products, keyword)`. */
  function CreateProductReviewPrompt(products: seq<Item>, keyword: string): string {
    Concat(ReviewPromptParts(products, keyword))
  }

  /** The review prompt quotes the keyword and lists every product: its number, title,
      price and description. */
  lemma ReviewPromptListsProducts(products: seq<Item>, keyword: string, i: nat)
    requires i < |products|
    ensures Contains(CreateProductReviewPrompt(products, keyword), Quoted(keyword))
    ensures Contains(CreateProductReviewPrompt(products, keyword), PromptEntry(i, products[i]))
  {
    var parts := ReviewPromptParts(products, keyword);
    ConcatContainsPart(parts, 3);
    ConcatContainsPart(parts, 1);
    JoinContains(PromptEntries(products), "\n", i);
    ContainsTrans(CreateProductReviewPrompt(products, keyword), parts[1], PromptEntry(i, products[i]));
  }

  const CardOpen := "\n  <div style=\"margin: 20px 0; padding: 20px; border: 1px solid #ddd; border-radius: 8px;\">\n    "
  const ButtonStyle := " target=\"_blank\" style=\"display: inline-block; padding: 10px 20px; background: #4CAF50; color: white; text-decoration: none; border-radius: 4px;\">詳細を見る</a>\n  </div>\n"

  /** The card's heading `<h3>【商品n】title</h3>`. */
  function CardHeading(i: nat, p: Item): string {
    "<h3>【商品" + NatToString(i + 1) + "】" + Text(p.title, "") + "</h3>"
  }

  /** The picture, present only when the product has an image. */
  function ImagePart(p: Item): (r: string)
    ensures r == "" <==> !Present(p.imageUrl)
    ensures Present(p.imageUrl) ==>
      Contains(r, "<img src=\"" + p.imageUrl.value + "\"") && Contains(r, " alt=\"" + Shown(p.title) + "\"")
  {
    if !Present(p.imageUrl) then ""
    else
      var src := "<img src=\"" + p.imageUrl.value + "\"";
      var alt := " alt=\"" + Shown(p.title) + "\"";
      var style := " style=\"max-width: 100%;\">";
      ContainsSelf(src);
      ContainsBefore(src, alt, src);
      ContainsBefore(src + alt, style, src);
      ContainsMiddle(src, alt, style);
      src + alt + style
  }

  /** The price line; a missing price reads `価格不明`. */
  function PriceLine(p: Item): string {
    "<p>価格: " + Text(p.price, "価格不明") + "</p>"
  }

  /** The description paragraph, present only when the product has one. */
  function DescriptionPart(p: Item): (r: string)
    ensures r == "" <==> !Present(p.description)
  {
    if Present(p.description) then "<p>" + p.description.value + "</p>" else ""
  }

  /** The link target: the affiliate URL, or `#` without one. */
  function LinkTarget(p: Item): string {
    "<a href=\"" + Text(p.affiliateUrl, "#") + "\""
  }

  const Indent := "\n    "

  /** The pieces of one gallery card, in order. */
  function CardParts(i: nat, p: Item): seq<string> {
    [CardOpen, CardHeading(i, p), Indent, ImagePart(p), Indent, PriceLine(p), Indent,
     DescriptionPart(p), Indent, LinkTarget(p), ButtonStyle]
  }

  /** One gallery card. */
  function Card(i: nat, p: Item): string {
    Concat(CardParts(i, p))
  }

  /** A card shows its numbered heading, its price (or `価格不明`), its link (or `#`),
      and the picture when the product has an image. */
  lemma CardShows(i: nat, p: Item)
    ensures Contains(Card(i, p), CardHeading(i, p))
    ensures Contains(Card(i, p), PriceLine(p))
    ensures Contains(Card(i, p), LinkTarget(p))
    ensures Present(p.imageUrl) ==> Contains(Card(i, p), "<img src=\"" + p.imageUrl.value + "\"")
  {
    var parts := CardParts(i, p);
    ConcatContainsPart(parts, 1);
    ConcatContainsPart(parts, 5);
    ConcatContainsPart(parts, 9);
    ConcatContainsPart(parts, 3);
    if Present(p.imageUrl) {
      ContainsTrans(Card(i, p), ImagePart(p), "<img src=\"" + p.imageUrl.value + "\"");
    }
  }

  const GalleryOpen := "\n<h2>紹介商品詳細</h2>\n<div class=\"products-gallery\">\n"
  const GalleryClose := "\n</div>\n"

  /** `createProductsSectionHTML(products)`: the gallery of all cards, in order. */
  function CreateProductsSectionHtml(products: seq<Item>): string
  {
    Concat([GalleryOpen, ConcatMap(products, 0, Card), GalleryClose])
  }

  /** The gallery holds the card of every product, numbered from 1. */
  lemma GalleryShowsCards(products: seq<Item>, i: nat)
    requires i < |products|
    ensures Contains(CreateProductsSectionHtml(products), Card(i, products[i]))
  {
    ConcatMapContains(products, 0, Card, i);
    ConcatContainsPart([GalleryOpen, ConcatMap(products, 0, Card), GalleryClose], 1);
    ContainsTrans(CreateProductsSectionHtml(products), ConcatMap(products, 0, Card), Card(i, products[i]));
  }

  /** `【keyword】おすすめ商品{n}選`. */
  function ReviewTitle(keyword: string, n: nat): string {
    "【" + keyword + "】おすすめ商品" + NatToString(n) + "選"
  }

  // ---------------------------------------------------------------------
  // Connection settings
  // ---------------------------------------------------------------------

  /** The parts of a parsed URL that the client uses; `port` is "" when the URL names none. */
  datatype Url = Url(protocol: string, hostname: string, port: string, pathname: string)

  /** The XML-RPC client's options, and whether it is the TLS client. */
  datatype ClientOptions = ClientOptions(host: string, port: string, path: string, secure: bool)

  const XmlRpcPath := "/xmlrpc.php"

  /** `initXmlRpcClient()` on the parsed URL: the URL's own port if it names one,
      otherwise 443 for https and 80 for anything else; the TLS client exactly for https. */
  function ClientFor(u: Url): (r: ClientOptions)
    ensures r.host == u.hostname && r.path == u.pathname
    ensures r.secure <==> u.protocol == "https:"
    ensures r.port != ""
    ensures u.port != "" ==> r.port == u.port
    ensures u.port == "" ==> (r.port == "443" <==> r.secure) && (r.port == "80" <==> !r.secure)
  {
    var secure := u.protocol == "https:";
    ClientOptions(u.hostname, if u.port != "" then u.port else if secure then "443" else "80", u.pathname, secure)
  }

  // ---------------------------------------------------------------------
  // Outcomes and records
  // ---------------------------------------------------------------------

  /** Why an operation raised. */
  datatype Failure =
    | LoadFailed(cause: CM.LoadError)  // `loadConfig()` raised
    | Refused(message: string)         // the tool raised an error with this message
    | InvalidUrl                       // the site URL did not parse
    | RequestFailed(message: string)   // the OpenAI or XML-RPC call failed

  const LicenseInvalidMessage := "ライセンスが無効です"
  const NoSiteMessage := "WordPressサイトが設定されていません"
  const NoOpenAiKeyMessage := "OpenAI APIキーが設定されていません"

  /** What the chat-completion request answered. */
  datatype Reply = Replied(content: string) | ReplyFailed(message: string)

  /** What the `wp.newPost` call answered. */
  datatype RpcAnswer = RpcPosted(postId: string) | RpcFailed(message: string)

  /** An article as the two generators return it; a plain article has no products and a
      review article names no site. */
  datatype Article = Article(
    title: string, content: string, category: string, tags: seq<string>, status: string,
    siteId: string, siteName: string, isProductReview: bool, products: seq<Item>)

  /** The `postData` payload of `wp.newPost`. */
  datatype PostData = PostData(
    postType: string, status: string, title: string, content: string, author: int,
    commentStatus: string, pingStatus: string, sticky: bool,
    tagNames: seq<string>, categoryNames: seq<string>, terms: Option<seq<int>>)

  /** The arguments of the `wp.newPost` call. */
  datatype NewPostCall = NewPostCall(blogId: int, username: string, password: string, post: PostData)

  /** What a successful post resolves to. */
  datatype Posted = Posted(postId: string, url: string, title: string, siteId: string, siteName: string)

  const ImageFeature := "hasImageGeneration"
  const DefaultStatus := "publish"
  const DefaultCategory := "その他"
  const ReviewCategory := "レビュー"
  const BlogId := 1

  /** The category id a site configures for `name`; 0 (falsy) when there is none. */
  function CategoryId(categories: map<string, int>, name: string): (r: int)
    ensures r != 0 ==> name in categories && categories[name] == r
  {
    if name in categories then categories[name] else 0
  }

  /** `${siteUrl}/?p=${postId}`. */
  function PostUrl(siteUrl: string, postId: string): string {
    siteUrl + "/?p=" + postId
  }

  /** The post id and the site URL can be read back from a post URL. */
  lemma PostUrlParts(siteUrl: string, postId: string)
    ensures PostUrl(siteUrl, postId)[..|siteUrl|] == siteUrl
    ensures PostUrl(siteUrl, postId)[|siteUrl| + 4..] == postId
  {
  }

  /** Different posts of one site have different URLs. */
  lemma PostUrlInjective(siteUrl: string, a: string, b: string)
    requires PostUrl(siteUrl, a) == PostUrl(siteUrl, b)
    ensures a == b
  {
    PostUrlParts(siteUrl, a);
    PostUrlParts(siteUrl, b);
  }

  /** The options object a caller passes; the generators change some of its flags. */
  class ArticleOptions {
    var keyword: string
    var generateImage: bool
    var useDmmApi: bool
    var status: string
    var tone: string

    constructor (keyword: string, generateImage: bool, useDmmApi: bool, status: string, tone: string)
      ensures this.keyword == keyword && this.generateImage == generateImage && this.useDmmApi == useDmmApi
      ensures this.status == status && this.tone == tone
    {
      this.keyword := keyword;
      this.generateImage := generateImage;
      this.useDmmApi := useDmmApi;
      this.status := status;
      this.tone := tone;
    }
  }

  /** Whether the catalog is enabled, as `getDMMConfig().enabled` says. */
  function DmmEnabled(d: CM.DmmAccess): bool {
    d.DmmGranted? && d.enabled
  }

  // ---------------------------------------------------------------------
  // The tool
  // ---------------------------------------------------------------------

  class BlogToolV2 {
    const manager: CM.ConfigManager
    const siteConfig: CM.Site
    const wordpressUrl: string
    const wordpressUser: string
    const wordpressPassword: string
    const siteName: string
    const siteUrl: string
    const siteId: string
    const openAiKey: string
    const aiModel: string
    const dmmEnabled: bool
    const dmmApiKey: string
    const dmmAffiliateId: string
    const client: ClientOptions

    /** The fields the constructor fills from the chosen site, the OpenAI and catalog
        settings and the parsed endpoint. */
    predicate Built(m: CM.ConfigManager, site: CM.Site, openAi: CM.OpenAiSettings, dmm: CM.DmmAccess, u: Url) {
      manager == m && siteConfig == site &&
      wordpressUrl == site.url + XmlRpcPath && wordpressUser == site.username &&
      wordpressPassword == site.password && siteName == site.name && siteUrl == site.url &&
      siteId == site.id && openAiKey == openAi.apiKey && aiModel == openAi.model &&
      dmmEnabled == DmmEnabled(dmm) &&
      dmmApiKey == (if dmm.DmmGranted? then dmm.apiId else "") &&
      dmmAffiliateId == (if dmm.DmmGranted? then dmm.affiliateId else "") &&
      client == ClientFor(u)
    }

    constructor Init(m: CM.ConfigManager, site: CM.Site, openAi: CM.OpenAiSettings, dmm: CM.DmmAccess, u: Url)
      ensures Built(m, site, openAi, dmm, u)
    {
      manager := m;
      siteConfig := site;
      wordpressUrl := site.url + XmlRpcPath;
      wordpressUser := site.username;
      wordpressPassword := site.password;
      siteName := site.name;
      siteUrl := site.url;
      siteId := site.id;
      openAiKey := openAi.apiKey;
      aiModel := openAi.model;
      dmmEnabled := DmmEnabled(dmm);
      dmmApiKey := if dmm.DmmGranted? then dmm.apiId else "";
      dmmAffiliateId := if dmm.DmmGranted? then dmm.affiliateId else "";
      client := ClientFor(u);
    }

    /** `generateArticle(category, options)`: refused before anything else when the daily
        limit is reached; otherwise the image flag is cleared unless the license has the
        feature, and the article is built from the reply. */
    method GenerateArticle(category: string, options: ArticleOptions, reply: Reply, addCta: string -> string)
      returns (r: Result<Article, Failure>, prompt: Option<string>)
      modifies options
      ensures options.keyword == old(options.keyword) && options.useDmmApi == old(options.useDmmApi)
      ensures options.status == old(options.status) && options.tone == old(options.tone)
      ensures !manager.CheckArticleLimit(1).allowed ==>
        r == Err(Refused(manager.CheckArticleLimit(1).message.value)) && prompt.None? &&
        options.generateImage == old(options.generateImage)
      ensures manager.CheckArticleLimit(1).allowed ==>
        options.generateImage == (old(options.generateImage) && CM.Truthy(manager.HasFeature(ImageFeature)))
      ensures manager.CheckArticleLimit(1).allowed ==>
        var keyword := DmmApi.Or(options.keyword, GetDefaultKeyword(category));
        prompt == Some(CreatePrompt(category, keyword, options.tone)) &&
        r == match reply
             case ReplyFailed(m) => Err(RequestFailed(m))
             case Replied(content) =>
               Ok(Article(ArticleTitle(content, keyword), addCta(content), category,
                          GenerateTags(keyword, category), DmmApi.Or(options.status, DefaultStatus),
                          siteId, siteName, false, []))
    {
      var limit := manager.CheckArticleLimit(1);
      if !limit.allowed {
        return Err(Refused(limit.message.value)), None;
      }
      var hasImageGeneration := manager.HasFeature(ImageFeature);
      if !CM.Truthy(hasImageGeneration) && options.generateImage {
        options.generateImage := false;
      }
      var keyword := DmmApi.Or(options.keyword, GetDefaultKeyword(category));
      prompt := Some(CreatePrompt(category, keyword, options.tone));
      match reply
      case ReplyFailed(m) =>
        r := Err(RequestFailed(m));
      case Replied(content) =>
        var article := Article(ArticleTitle(content, keyword), addCta(content), category,
          GenerateTags(keyword, category), DmmApi.Or(options.status, DefaultStatus),
          siteId, siteName, false, []);
        r := Ok(article);
    }

    /** `generateProductReview(products, keyword, options)`: the catalog flag is cleared
        when the catalog is disabled, even if the limit then refuses; the article lists
        the products after the reply and is titled by their number. */
    method GenerateProductReview(input: ProductInput, keyword: string, options: ArticleOptions, reply: Reply,
                                 addCta: string -> string)
      returns (r: Result<Article, Failure>, prompt: Option<string>)
      modifies options
      ensures options.useDmmApi == (old(options.useDmmApi) && dmmEnabled)
      ensures options.keyword == old(options.keyword) && options.generateImage == old(options.generateImage)
      ensures options.status == old(options.status) && options.tone == old(options.tone)
      ensures !manager.CheckArticleLimit(1).allowed ==>
        r == Err(Refused(manager.CheckArticleLimit(1).message.value)) && prompt.None?
      ensures manager.CheckArticleLimit(1).allowed ==>
        var products := ProductList(input);
        prompt == Some(CreateProductReviewPrompt(products, keyword)) &&
        r == match reply
             case ReplyFailed(m) => Err(RequestFailed(m))
             case Replied(content) =>
               Ok(Article(ReviewTitle(keyword, |products|),
                          addCta(content + "\n\n" + CreateProductsSectionHtml(products)),
                          ReviewCategory, [keyword, ReviewCategory, TagRecommended, TagYear],
                          DmmApi.Or(options.status, DefaultStatus), "", "", true, products))
    {
      if !dmmEnabled && options.useDmmApi {
        options.useDmmApi := false;
      }
      var limit := manager.CheckArticleLimit(1);
      if !limit.allowed {
        return Err(Refused(limit.message.value)), None;
      }
      var products := ProductList(input);
      prompt := Some(CreateProductReviewPrompt(products, keyword));
      match reply
      case ReplyFailed(m) =>
        r := Err(RequestFailed(m));
      case Replied(content) =>
        var fullContent := content + "\n\n" + CreateProductsSectionHtml(products);
        var article := Article(ReviewTitle(keyword, |products|), addCta(fullContent),
          ReviewCategory, [keyword, ReviewCategory, TagRecommended, TagYear],
          DmmApi.Or(options.status, DefaultStatus), "", "", true, products);
        r := Ok(article);
    }

    /** `postToWordPress(article)`: the payload defaults the status to `publish` and the
        category name to `その他`, carries the category id exactly when the site configures
        a non-zero one, and a successful post resolves to its URL under the site. */
    method PostToWordPress(article: Article, answer: RpcAnswer) returns (call: NewPostCall, r: Result<Posted, Failure>)
      ensures call.blogId == BlogId && call.username == wordpressUser && call.password == wordpressPassword
      ensures call.post.postType == "post" && call.post.author == 1 && !call.post.sticky
      ensures call.post.commentStatus == "open" && call.post.pingStatus == "open"
      ensures call.post.status == (if article.status != "" then article.status else DefaultStatus)
      ensures call.post.title == article.title && call.post.content == article.content
      ensures call.post.tagNames == article.tags
      ensures call.post.categoryNames == [if article.category != "" then article.category else DefaultCategory]
      ensures call.post.terms.Some? <==>
        article.category in siteConfig.categories && siteConfig.categories[article.category] != 0
      ensures call.post.terms.Some? ==> call.post.terms.value == [siteConfig.categories[article.category]]
      ensures answer.RpcFailed? ==> r == Err(RequestFailed(answer.message))
      ensures answer.RpcPosted? ==>
        r == Ok(Posted(answer.postId, PostUrl(siteUrl, answer.postId), article.title, siteId, siteName))
    {
      var data := PostData("post", DmmApi.Or(article.status, DefaultStatus), article.title, article.content, 1,
        "open", "open", false, article.tags, [DmmApi.Or(article.category, DefaultCategory)], None);
      var id := CategoryId(siteConfig.categories, article.category);
      if id != 0 {
        data := data.(terms := Some([id]));
      }
      call := NewPostCall(BlogId, wordpressUser, wordpressPassword, data);
      match answer
      case RpcFailed(m) =>
        r := Err(RequestFailed(m));
      case RpcPosted(postId) =>
        r := Ok(Posted(postId, PostUrl(siteUrl, postId), article.title, siteId, siteName));
    }
  }

  /** `new BlogToolV2(siteId)` on the shared manager, with `file` the configuration file's
      contents and `parseUrl` the URL parser: a failed load is passed on, then a missing
      site, then a missing OpenAI key, then an endpoint that does not parse. */
  method NewBlogToolV2(manager: CM.ConfigManager, file: CM.ConfigFile, siteId: string, parseUrl: string -> Option<Url>)
    returns (r: Result<BlogToolV2, Failure>)
    modifies manager
    ensures CM.LoadResult(file).Err? ==> r == Err(LoadFailed(CM.LoadResult(file).error))
    ensures CM.LoadResult(file).Ok? ==>
      manager.config == Some(file.config) && manager.licenseStatus == Some(CM.StatusFor(file.config))
    ensures CM.LoadResult(file).Ok? && manager.GetWordPressSite(siteId).None? ==> r == Err(Refused(NoSiteMessage))
    ensures CM.LoadResult(file).Ok? && manager.GetWordPressSite(siteId).Some? ==>
      var site := manager.GetWordPressSite(siteId).value;
      var openAi := manager.GetOpenAIConfig();
      var u := parseUrl(site.url + XmlRpcPath);
      (openAi.apiKey == "" ==> r == Err(Refused(NoOpenAiKeyMessage))) &&
      (openAi.apiKey != "" && u.None? ==> r == Err(InvalidUrl)) &&
      (openAi.apiKey != "" && u.Some? ==>
        r.Ok? && fresh(r.value) && r.value.Built(manager, site, openAi, manager.GetDMMConfig(), u.value))
  {
    var loaded := manager.LoadConfig(file);
    if loaded.Err? {
      return Err(LoadFailed(loaded.error));
    }
    // The license test of the source always passes here: a successful load records a
    // valid status.
    assert manager.licenseStatus.Some? && manager.licenseStatus.value.valid;
    var site := manager.GetWordPressSite(siteId);
    if site.None? {
      return Err(Refused(NoSiteMessage));
    }
    var openAi := manager.GetOpenAIConfig();
    if openAi.apiKey == "" {
      return Err(Refused(NoOpenAiKeyMessage));
    }
    var dmm := manager.GetDMMConfig();
    var u := parseUrl(site.value.url + XmlRpcPath);
    if u.None? {
      return Err(InvalidUrl);
    }
    var tool := new BlogToolV2.Init(manager, site.value, openAi, dmm, u.value);
    return Ok(tool);
  }
}
