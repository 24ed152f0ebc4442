/**
 * The first-generation cloud blog tool (`functions/lib/blog-tool.js`): it
 * checks its settings, has an article written from a template prompt,
 * fetches catalog products, appends an advertising section in Markdown and
 * posts the result to WordPress.
 *
 * The OpenAI, catalog and WordPress requests are opaque: each is an outcome
 * parameter. Clocks, durations and timestamps are left out, and so is the
 * Markdown-to-HTML conversion, which is a function parameter.
 */
module BlogTool {
  import opened Strings
  import Templates
  import DmmApi

  // ---------------------------------------------------------------------
  // Settings
  // ---------------------------------------------------------------------

  /** The values read from the deployment's configuration; an absent value is "". */
  datatype Env = Env(apiKey: string, baseUrl: string, username: string, password: string, affiliateId: string)

  /** `this.config`: the environment plus the fixed model and token budget. */
  datatype ToolConfig = ToolConfig(
    apiKey: string, model: string, maxTokens: nat,
    baseUrl: string, username: string, password: string,
    affiliateId: string)

  const Model := "gpt-4o-mini"
  const MaxTokens := 4000

  function Settings(env: Env): (c: ToolConfig)
    ensures c.model == Model && c.maxTokens == MaxTokens
    ensures c.apiKey == env.apiKey && c.baseUrl == env.baseUrl && c.username == env.username
    ensures c.password == env.password && c.affiliateId == env.affiliateId
  {
    ToolConfig(env.apiKey, Model, MaxTokens, env.baseUrl, env.username, env.password, env.affiliateId)
  }

  /** One entry of the list of required settings. */
  datatype Requirement = Requirement(key: string, value: string)

  /** The required settings, in the order they are reported. */
  function Required(c: ToolConfig): (r: seq<Requirement>)
    ensures |r| == 4
  {
    [Requirement("openai.api_key", c.apiKey),
     Requirement("wordpress.base_url", c.baseUrl),
     Requirement("wordpress.username", c.username),
     Requirement("wordpress.password", c.password)]
  }

  /** `required.filter(item => !item.value)`. */
  function Missing(items: seq<Requirement>): (r: seq<Requirement>)
    ensures forall x :: x in r <==> x in items && x.value == ""
  {
    if items == [] then []
    else (if items[0].value == "" then [items[0]] else []) + Missing(items[1..])
  }

  /** `missing.map(item => item.key)`. */
  function Keys(items: seq<Requirement>): (r: seq<string>)
    ensures |r| == |items| && forall i :: 0 <= i < |items| ==> r[i] == items[i].key
  {
    if items == [] then [] else [items[0].key] + Keys(items[1..])
  }

  const MissingPrefix := "必要な設定が不足しています: "

  /** `validateConfig()`: the error it raises, or None when every required value is set. */
  function ValidateConfig(c: ToolConfig): (r: Option<string>)
    ensures r.None? <==> c.apiKey != "" && c.baseUrl != "" && c.username != "" && c.password != ""
    ensures r.Some? ==> r.value == MissingPrefix + Join(Keys(Missing(Required(c))), ", ")
  {
    var missing := Missing(Required(c));
    assert Required(c)[0] in Required(c) && Required(c)[1] in Required(c);
    assert Required(c)[2] in Required(c) && Required(c)[3] in Required(c);
    if |missing| > 0 then Some(MissingPrefix + Join(Keys(missing), ", ")) else None
  }

  function KeyIf(value: string, key: string): seq<string> {
    if value == "" then [key] else []
  }

  /** The missing keys are listed in the fixed order, each exactly when its value is absent. */
  lemma MissingKeysInOrder(c: ToolConfig)
    ensures Keys(Missing(Required(c)))
      == KeyIf(c.apiKey, "openai.api_key") + (KeyIf(c.baseUrl, "wordpress.base_url")
       + (KeyIf(c.username, "wordpress.username") + KeyIf(c.password, "wordpress.password")))
  {
    var r := Required(c);
    var k0, k1 := KeyIf(c.apiKey, "openai.api_key"), KeyIf(c.baseUrl, "wordpress.base_url");
    var k2, k3 := KeyIf(c.username, "wordpress.username"), KeyIf(c.password, "wordpress.password");
    var r1, r2, r3 := r[1..], r[2..], r[3..];
    assert r1[1..] == r2 && r2[1..] == r3 && r3[1..] == [];
    MissingStep(r);
    MissingStep(r1);
    MissingStep(r2);
    MissingStep(r3);
    assert Keys(Missing(r3)) == k3;
    assert Keys(Missing(r2)) == k2 + k3;
    assert Keys(Missing(r1)) == k1 + (k2 + k3);
    assert Keys(Missing(r)) == k0 + (k1 + (k2 + k3));
  }

  /** One step of the filter then the map: the head's key, when its value is absent. */
  lemma MissingStep(items: seq<Requirement>)
    requires items != []
    ensures Keys(Missing(items)) == KeyIf(items[0].value, items[0].key) + Keys(Missing(items[1..]))
  {
    var h := if items[0].value == "" then [items[0]] else [];
    KeysAppend(h, Missing(items[1..]));
  }

  lemma KeysAppend(a: seq<Requirement>, b: seq<Requirement>)
    ensures Keys(a + b) == Keys(a) + Keys(b)
  {
  }

  // ---------------------------------------------------------------------
  // Text clean-up: tags, Markdown marks and whitespace
  // ---------------------------------------------------------------------

  /** The characters of the class `[#*\-\[\]()]`. */
  predicate IsMark(c: char) {
    c == '#' || c == '*' || c == '-' || c == '[' || c == ']' || c == '(' || c == ')'
  }

  /** `s` without the characters `drop` holds for (a global regex replace by ''). */
  function Without(s: string, drop: char -> bool): (r: string)
    ensures |r| <= |s|
    ensures forall i :: 0 <= i < |r| ==> !drop(r[i])
    ensures (forall i :: 0 <= i < |s| ==> !drop(s[i])) ==> r == s
  {
    if s == [] then [] else if drop(s[0]) then Without(s[1..], drop) else [s[0]] + Without(s[1..], drop)
  }

  /** `estimateWordCount(text)`: the number of characters left after removing tags,
      Markdown marks and all whitespace. */
  function EstimateWordCount(text: string): (r: nat)
    ensures r <= |text|
  {
    |Without(Without(StripTags(text), IsMark), IsJsSpace)|
  }

  /** Plain text (no `<`, no mark, no whitespace) is counted character by character. */
  lemma PlainTextCount(text: string)
    requires forall i :: 0 <= i < |text| ==> text[i] != '<' && !IsMark(text[i]) && !IsJsSpace(text[i])
    ensures EstimateWordCount(text) == |text|
  {
  }

  /** The count of text without tags: marks and whitespace removed. */
  function PlainCount(s: string): nat {
    |Without(Without(s, IsMark), IsJsSpace)|
  }

  /** On text without `<`, the count adds up over concatenation. */
  lemma WordCountAppend(a: string, b: string)
    requires forall i :: 0 <= i < |a| ==> a[i] != '<'
    requires forall i :: 0 <= i < |b| ==> b[i] != '<'
    ensures EstimateWordCount(a + b) == EstimateWordCount(a) + EstimateWordCount(b)
  {
    NoTags(a + b);
    NoTags(a);
    NoTags(b);
    PlainCountAppend(a, b);
  }

  lemma PlainCountAppend(a: string, b: string)
    ensures PlainCount(a + b) == PlainCount(a) + PlainCount(b)
  {
    WithoutAppend(a, b, IsMark);
    WithoutAppend(Without(a, IsMark), Without(b, IsMark), IsJsSpace);
  }

  /** Whitespace never counts: removing one space or newline from text without `<`
      leaves the count unchanged. */
  lemma SpacesDoNotCount(a: string, b: string, c: char)
    requires IsJsSpace(c)
    requires forall i :: 0 <= i < |a| ==> a[i] != '<'
    requires forall i :: 0 <= i < |b| ==> b[i] != '<'
    ensures EstimateWordCount(a + [c] + b) == EstimateWordCount(a + b)
  {
    WordCountAppend(a + [c], b);
    WordCountAppend(a, [c]);
    WordCountAppend(a, b);
    assert EstimateWordCount([c]) == 0;
  }

  lemma NoTags(s: string)
    requires forall i :: 0 <= i < |s| ==> s[i] != '<'
    ensures StripTags(s) == s
  {
  }

  lemma {:induction false} WithoutAppend(a: string, b: string, drop: char -> bool)
    ensures Without(a + b, drop) == Without(a, drop) + Without(b, drop)
    decreases |a|
  {
    if a != [] {
      assert (a + b)[0] == a[0];
      assert (a + b)[1..] == a[1..] + b;
      WithoutAppend(a[1..], b, drop);
    } else {
      assert a + b == b;
    }
  }

  /** `s.replace(/\n/g, ' ')`. */
  function NewlinesToSpaces(s: string): (r: string)
    ensures |r| == |s|
    ensures forall i :: 0 <= i < |s| ==> r[i] == (if s[i] == '\n' then ' ' else s[i])
  {
    if s == [] then [] else [if s[0] == '\n' then ' ' else s[0]] + NewlinesToSpaces(s[1..])
  }

  /** `s.replace(/\s+/g, ' ')`: each maximal run of whitespace becomes one space. */
  function Collapse(s: string): (r: string)
    ensures |r| <= |s|
    ensures s != [] ==> r != [] && r[0] == (if IsJsSpace(s[0]) then ' ' else s[0])
    ensures forall i :: 0 <= i < |r| && IsJsSpace(r[i]) ==> r[i] == ' '
    ensures forall i :: 0 <= i < |r| - 1 ==> !(IsJsSpace(r[i]) && IsJsSpace(r[i + 1]))
    decreases |s|
  {
    if s == [] then []
    else if IsJsSpace(s[0]) then [' '] + Collapse(TrimStart(s[1..]))
    else [s[0]] + Collapse(s[1..])
  }

  /** `Collapse` keeps every character other than whitespace, in order. */
  lemma {:induction false} CollapseKeepsText(s: string)
    ensures Without(Collapse(s), IsJsSpace) == Without(s, IsJsSpace)
    decreases |s|
  {
    if s != [] {
      if IsJsSpace(s[0]) {
        var t := TrimStart(s[1..]);
        CollapseKeepsText(t);
        WithoutSpacesTrimStart(s[1..]);
        assert ([' '] + Collapse(t))[1..] == Collapse(t);
      } else {
        CollapseKeepsText(s[1..]);
        assert ([s[0]] + Collapse(s[1..]))[1..] == Collapse(s[1..]);
      }
    }
  }

  /** Leading whitespace is whitespace: dropping it keeps the other characters. */
  lemma {:induction false} WithoutSpacesTrimStart(s: string)
    ensures Without(TrimStart(s), IsJsSpace) == Without(s, IsJsSpace)
  {
    if s != [] && IsJsSpace(s[0]) {
      WithoutSpacesTrimStart(s[1..]);
    }
  }

  /** A word without whitespace passes through `Collapse` unchanged. */
  lemma {:induction false} CollapseWord(w: string, s: string)
    requires forall i :: 0 <= i < |w| ==> !IsJsSpace(w[i])
    ensures Collapse(w + s) == w + Collapse(s)
  {
    if w != [] {
      assert (w + s)[0] == w[0] && (w + s)[1..] == w[1..] + s;
      CollapseWord(w[1..], s);
      assert w == [w[0]] + w[1..];
    } else {
      assert w + s == s;
    }
  }

  /** A whole run of whitespace, up to the next other character or the end, becomes one
      space. */
  lemma CollapseRun(run: string, s: string)
    requires run != [] && forall i :: 0 <= i < |run| ==> IsJsSpace(run[i])
    requires s == [] || !IsJsSpace(s[0])
    ensures Collapse(run + s) == [' '] + Collapse(s)
  {
    assert (run + s)[0] == run[0] && (run + s)[1..] == run[1..] + s;
    TrimStartRun(run[1..], s);
  }

  lemma {:induction false} TrimStartRun(run: string, s: string)
    requires forall i :: 0 <= i < |run| ==> IsJsSpace(run[i])
    requires s == [] || !IsJsSpace(s[0])
    ensures TrimStart(run + s) == s
  {
    if run != [] {
      assert (run + s)[0] == run[0] && (run + s)[1..] == run[1..] + s;
      TrimStartRun(run[1..], s);
    } else {
      assert run + s == s;
    }
  }

  /** The text `generateExcerpt` cuts: tags and marks removed, whitespace collapsed, trimmed. */
  function CleanText(content: string): string {
    Squeeze(Without(StripTags(content), IsMark))
  }

  /** Newlines to spaces, whitespace runs to one space, then trimmed. */
  function Squeeze(m: string): string {
    Trim(Collapse(NewlinesToSpaces(m)))
  }

  /** `generateExcerpt(content, maxLength)`. */
  function GenerateExcerpt(content: string, maxLength: nat): (r: string)
    ensures |r| <= maxLength + 3
    ensures var t := CleanText(content);
      (|t| > maxLength ==> r == t[..maxLength] + "...") && (|t| <= maxLength ==> r == t)
  {
    var t := CleanText(content);
    if |t| > maxLength then t[..maxLength] + "..." else t
  }

  /** Single-spaced text with no Markdown marks: every whitespace character is a
      space, and no two are adjacent. */
  predicate SingleSpaced(t: string) {
    (forall i :: 0 <= i < |t| ==> !IsMark(t[i]) && (IsJsSpace(t[i]) ==> t[i] == ' '))
    && (forall i :: 0 <= i < |t| - 1 ==> !(IsJsSpace(t[i]) && IsJsSpace(t[i + 1])))
  }

  /** The excerpt is plain: single-spaced, with no space at either end. */
  lemma CleanTextShape(content: string)
    ensures SingleSpaced(CleanText(content))
    ensures CleanText(content) != [] ==>
      !IsJsSpace(CleanText(content)[0]) && !IsJsSpace(CleanText(content)[|CleanText(content)| - 1])
  {
    SqueezeShape(Without(StripTags(content), IsMark));
  }

  lemma SqueezeShape(m: string)
    requires forall i :: 0 <= i < |m| ==> !IsMark(m[i])
    ensures SingleSpaced(Squeeze(m))
    ensures Squeeze(m) != [] ==> !IsJsSpace(Squeeze(m)[0]) && !IsJsSpace(Squeeze(m)[|Squeeze(m)| - 1])
  {
    NewlinesNoMarks(m);
    CollapseSingleSpaced(NewlinesToSpaces(m));
    TrimmedShape(Collapse(NewlinesToSpaces(m)));
  }

  /** Trimming a single-spaced text keeps it single-spaced. */
  lemma TrimmedShape(c: string)
    requires SingleSpaced(c)
    ensures SingleSpaced(Trim(c))
    ensures Trim(c) != [] ==> !IsJsSpace(Trim(c)[0]) && !IsJsSpace(Trim(c)[|Trim(c)| - 1])
  {
    var k := TrimSlice(c);
    PlainSlice(c, k, Trim(c));
  }

  lemma NewlinesNoMarks(m: string)
    requires forall i :: 0 <= i < |m| ==> !IsMark(m[i])
    ensures forall i :: 0 <= i < |NewlinesToSpaces(m)| ==> !IsMark(NewlinesToSpaces(m)[i])
  {
  }

  lemma CollapseSingleSpaced(n: string)
    requires forall i :: 0 <= i < |n| ==> !IsMark(n[i])
    ensures SingleSpaced(Collapse(n))
  {
    CollapseNoMarks(n);
  }

  /** A part of a single-spaced text is single-spaced. */
  lemma PlainSlice(c: string, k: nat, t: string)
    requires k + |t| <= |c| && t == c[k..k + |t|]
    requires SingleSpaced(c)
    ensures SingleSpaced(t)
  {
    assert forall i :: 0 <= i < |t| ==> t[i] == c[k + i];
  }

  /** `Trim(s)` is a contiguous part of `s`, starting at the returned index. */
  lemma TrimSlice(s: string) returns (k: nat)
    ensures k + |Trim(s)| <= |s| && Trim(s) == s[k..k + |Trim(s)|]
  {
    var u := TrimStart(s);
    k := |s| - |u|;
  }

  /** Collapsing whitespace adds no Markdown mark. */
  lemma {:induction false} CollapseNoMarks(s: string)
    requires forall i :: 0 <= i < |s| ==> !IsMark(s[i])
    ensures forall i :: 0 <= i < |Collapse(s)| ==> !IsMark(Collapse(s)[i])
    decreases |s|
  {
    if s != [] {
      if IsJsSpace(s[0]) {
        var t := TrimStart(s[1..]);
        assert forall i :: 0 <= i < |t| ==> t[i] == s[1..][|s| - 1 - |t| + i];
        CollapseNoMarks(t);
      } else {
        CollapseNoMarks(s[1..]);
      }
    }
  }

  /** Text that is already clean (no tag opener, single-spaced without marks, no space
      at either end) is its own cleaned text, so the excerpt takes its characters as
      they are. */
  lemma CleanTextOfClean(t: string)
    requires forall i :: 0 <= i < |t| ==> t[i] != '<'
    requires SingleSpaced(t)
    requires t != [] ==> !IsJsSpace(t[0]) && !IsJsSpace(t[|t| - 1])
    ensures CleanText(t) == t
  {
    NoTags(t);
    assert Without(t, IsMark) == t;
    assert NewlinesToSpaces(t) == t by {
      forall i | 0 <= i < |t|
        ensures t[i] != '\n'
      {
        assert IsJsSpace(t[i]) ==> t[i] == ' ';
      }
    }
    CollapseSpaced(t);
    assert TrimStart(t) == t;
    assert TrimEnd(t) == t;
  }

  /** `Collapse` leaves text alone whose whitespace is single spaces, none adjacent. */
  lemma {:induction false} CollapseSpaced(t: string)
    requires forall i :: 0 <= i < |t| ==> IsJsSpace(t[i]) ==> t[i] == ' '
    requires forall i :: 0 <= i < |t| - 1 ==> !(IsJsSpace(t[i]) && IsJsSpace(t[i + 1]))
    ensures Collapse(t) == t
    decreases |t|
  {
    if t != [] {
      var u := t[1..];
      assert forall i :: 0 <= i < |u| ==> u[i] == t[i + 1];
      CollapseSpaced(u);
      if IsJsSpace(t[0]) {
        assert u == [] || !IsJsSpace(u[0]);
        assert TrimStart(u) == u;
      }
      assert t == [t[0]] + u;
    }
  }

  /** An excerpt that was cut keeps the first `maxLength` characters of the text. */
  lemma ExcerptCut(content: string, maxLength: nat)
    requires |CleanText(content)| > maxLength
    ensures |GenerateExcerpt(content, maxLength)| == maxLength + 3
    ensures GenerateExcerpt(content, maxLength)[..maxLength] == CleanText(content)[..maxLength]
    ensures GenerateExcerpt(content, maxLength)[maxLength..] == "..."
  {
  }

  // ---------------------------------------------------------------------
  // The article title: the first line `# text`
  // ---------------------------------------------------------------------

  /** The end of the line starting at `i`: the next line terminator, or the end of `s`. */
  function LineEnd(s: string, i: nat): (e: nat)
    requires i <= |s|
    ensures i <= e <= |s|
    ensures e < |s| ==> IsLineTerminator(s[e])
    ensures forall k :: i <= k < e ==> !IsLineTerminator(s[k])
    decreases |s| - i
  {
    if i == |s| || IsLineTerminator(s[i]) then i else LineEnd(s, i + 1)
  }

  /** `i` is where `^` matches in multiline mode. */
  predicate LineStart(s: string, i: nat) {
    i == 0 || (0 < i <= |s| && IsLineTerminator(s[i - 1]))
  }

  /** `/^# (.+)$/m` matches at line start `i`: `# ` and at least one more character on the line. */
  predicate TitleLine(s: string, i: nat) {
    LineStart(s, i) && i <= |s| && i + 2 < LineEnd(s, i) && s[i] == '#' && s[i + 1] == ' '
  }

  /** The first title line at or after the line start `i`. */
  function FindTitle(s: string, i: nat): (r: Option<nat>)
    requires i <= |s| && LineStart(s, i)
    ensures r.Some? ==> i <= r.value && TitleLine(s, r.value)
    ensures r.Some? ==> forall j :: i <= j < r.value ==> !TitleLine(s, j)
    ensures r.None? ==> forall j :: i <= j <= |s| ==> !TitleLine(s, j)
    decreases |s| - i
  {
    var e := LineEnd(s, i);
    if TitleLine(s, i) then Some(i)
    else if e == |s| then None
    else
      assert forall j :: i < j <= e ==> !LineStart(s, j);
      FindTitle(s, e + 1)
  }

  /** `extractTitleFromContent(content)`: the trimmed text of the first title line. */
  function ExtractTitleFromContent(content: string): (r: Option<string>)
    ensures r.Some? <==> FindTitle(content, 0).Some?
  {
    match FindTitle(content, 0)
    case None => None
    case Some(i) => Some(Trim(content[i + 2..LineEnd(content, i)]))
  }

  /** There is a title exactly when some line has the form `# text`, and it is the
      trimmed text of the first such line. */
  lemma TitleOfFirstTitleLine(content: string)
    ensures ExtractTitleFromContent(content).Some? <==> exists i: nat :: TitleLine(content, i)
    ensures forall i: nat :: TitleLine(content, i) && (forall j: nat :: j < i ==> !TitleLine(content, j)) ==>
      ExtractTitleFromContent(content) == Some(Trim(content[i + 2..LineEnd(content, i)]))
  {
    var f := FindTitle(content, 0);
    if f.Some? {
      assert TitleLine(content, f.value);
    }
    forall i: nat | TitleLine(content, i) && (forall j: nat :: j < i ==> !TitleLine(content, j))
      ensures ExtractTitleFromContent(content) == Some(Trim(content[i + 2..LineEnd(content, i)]))
    {
      assert f.Some?;
      assert !(f.value < i);
      assert !(i < f.value);
    }
  }

  /** `extractTitleFromContent(content) || theme`. */
  function ArticleTitle(content: string, theme: string): (r: string)
    ensures var t := ExtractTitleFromContent(content);
      (t.Some? && t.value != "" ==> r == t.value) && (t.None? || t.value == "" ==> r == theme)
  {
    match ExtractTitleFromContent(content)
    case Some(t) => if t != "" then t else theme
    case None => theme
  }

  /** An article that opens with `# text` has that text as its first title. */
  lemma LeadingTitle(text: string, rest: string)
    requires text != [] && forall i :: 0 <= i < |text| ==> !IsLineTerminator(text[i])
    ensures ExtractTitleFromContent("# " + text + "\n" + rest) == Some(Trim(text))
  {
    var s := "# " + text + "\n" + rest;
    assert s[0] == '#' && s[1] == ' ';
    assert forall k :: 2 <= k < 2 + |text| ==> s[k] == text[k - 2];
    assert IsLineTerminator(s[2 + |text|]);
    LineEndAt(s, 0, 2 + |text|);
    assert TitleLine(s, 0);
    assert s[2..2 + |text|] == text;
  }

  lemma LineEndAt(s: string, i: nat, e: nat)
    requires i <= e < |s| && IsLineTerminator(s[e])
    requires forall k :: i <= k < e ==> !IsLineTerminator(s[k])
    ensures LineEnd(s, i) == e
    decreases e - i
  {
  }

  // ---------------------------------------------------------------------
  // The advertising section in Markdown
  // ---------------------------------------------------------------------

  const DefaultAdDescription := "高品質でおすすめの" + "人気商品です。"
  const AdultAdHeader := "\n## どこで買える？" + "（PRリンク）\n\n"
  const PlainAdHeader := "\n## おすすめ商品\n\n"
  const Disclaimer := "\n※この記事には" + "アフィリエイトリンクが" + "含まれます。\n\n"
  const Rule := "---\n\n"

  function AdHeader(isAdult: bool): string {
    if isAdult then AdultAdHeader else PlainAdHeader
  }

  function AdFooter(isAdult: bool): string {
    if isAdult then Disclaimer else ""
  }

  /** `product.title || \`商品${index + 1}\``. */
  function AdTitle(i: nat, p: DmmApi.Product): string {
    DmmApi.Or(p.title, "商品" + NatToString(i + 1))
  }

  function Heading(i: nat, title: string): string {
    "### " + NatToString(i + 1) + ". " + title + "\n\n"
  }

  /** The picture line, present only when there is an image. */
  function ImageLine(title: string, image: string): (r: string)
    ensures r == "" <==> image == ""
    ensures image != "" ==> Contains(r, image)
  {
    if image == "" then ""
    else
      var r := "![" + title + "](" + image + ")\n\n";
      ContainsSelf(image);
      ContainsInside("![" + title + "](", image, ")\n\n", image);
      r
  }

  function LinkText(title: string, isAdult: bool): string {
    if isAdult then title + "の詳細・購入はこちら" else "詳細を見る"
  }

  /** The link line, present only when there is an affiliate URL. */
  function LinkLine(title: string, url: string, isAdult: bool): (r: string)
    ensures r == "" <==> url == ""
    ensures url != "" ==> Contains(r, url) && Contains(r, LinkText(title, isAdult))
  {
    if url == "" then ""
    else
      var r := "👉 [" + LinkText(title, isAdult) + "](" + url + ")\n\n";
      ContainsSelf(LinkText(title, isAdult));
      ContainsSelf(url);
      ContainsInside("👉 [", LinkText(title, isAdult), "](", LinkText(title, isAdult));
      ContainsBefore("👉 [" + LinkText(title, isAdult) + "](", url, LinkText(title, isAdult));
      ContainsBefore("👉 [" + LinkText(title, isAdult) + "](" + url, ")\n\n", LinkText(title, isAdult));
      ContainsInside("👉 [" + LinkText(title, isAdult) + "](", url, ")\n\n", url);
      r
  }

  /** The Markdown block of the product at `index`. */
  function AdBlock(i: nat, p: DmmApi.Product, isAdult: bool): string {
    var title := AdTitle(i, p);
    Heading(i, title) + ImageLine(title, DmmApi.Or(p.imageLarge, p.imageSmall))
      + (DmmApi.Or(p.comment, DefaultAdDescription) + "\n\n")
      + LinkLine(title, p.affiliateURL, isAdult) + Rule
  }

  function Renderer(isAdult: bool): (nat, DmmApi.Product) -> string {
    (i: nat, p: DmmApi.Product) => AdBlock(i, p, isAdult)
  }

  /** What `generateAdContent(products, isAdult)` returns. */
  function AdContent(products: seq<DmmApi.Product>, isAdult: bool): string {
    if products == [] then ""
    else AdHeader(isAdult) + ConcatMap(products, 0, Renderer(isAdult)) + AdFooter(isAdult)
  }

  /** `generateAdContent(products, isAdult)`: the header, then the blocks appended one
      product at a time, then the disclaimer for adult content. */
  method GenerateAdContent(products: seq<DmmApi.Product>, isAdult: bool) returns (ad: string)
    ensures ad == AdContent(products, isAdult)
  {
    if |products| == 0 {
      return "";
    }
    ad := AdHeader(isAdult);
    for i := 0 to |products|
      invariant ad == AdHeader(isAdult) + ConcatMap(products[..i], 0, Renderer(isAdult))
    {
      ConcatMapSnoc(products, i, 0, Renderer(isAdult));
      AppendAssoc(AdHeader(isAdult), ConcatMap(products[..i], 0, Renderer(isAdult)), AdBlock(i, products[i], isAdult));
      ad := AppendAdBlock(ad, i, products[i], isAdult);
    }
    assert products[..|products|] == products;
    if isAdult {
      ad := ad + Disclaimer;
    }
  }

  /** One iteration of the loop: the `+=` steps for the product at `i`. */
  method AppendAdBlock(acc: string, i: nat, p: DmmApi.Product, isAdult: bool) returns (r: string)
    ensures r == acc + AdBlock(i, p, isAdult)
  {
    var title := AdTitle(i, p);
    var image := DmmApi.Or(p.imageLarge, p.imageSmall);
    var h, m := Heading(i, title), ImageLine(title, image);
    var d, l := DmmApi.Or(p.comment, DefaultAdDescription) + "\n\n", LinkLine(title, p.affiliateURL, isAdult);
    r := acc + h;
    if image != "" {
      r := r + m;
    } else {
      assert h + m == h;
    }
    AppendAssoc(acc, h, m);
    assert r == acc + (h + m);
    r := r + d;
    AppendAssoc(acc, h + m, d);
    if p.affiliateURL != "" {
      r := r + l;
    } else {
      assert h + m + d + l == h + m + d;
    }
    AppendAssoc(acc, h + m + d, l);
    assert r == acc + (h + m + d + l);
    r := r + Rule;
    AppendAssoc(acc, h + m + d + l, Rule);
  }

  /** No products, no section; otherwise the section opens with the header for the kind of content. */
  lemma AdContentEmpty(products: seq<DmmApi.Product>, isAdult: bool)
    ensures AdContent(products, isAdult) == "" <==> products == []
    ensures products != [] ==> AdContent(products, isAdult)[..|AdHeader(isAdult)|] == AdHeader(isAdult)
  {
    if products != [] {
      var head, rest := AdHeader(isAdult), ConcatMap(products, 0, Renderer(isAdult)) + AdFooter(isAdult);
      assert AdContent(products, isAdult) == head + rest;
      assert head[0] == '\n';
      PrefixOfAppend(head, rest);
    }
  }

  lemma PrefixOfAppend(head: string, rest: string)
    requires head != []
    ensures head + rest != [] && (head + rest)[..|head|] == head
  {
  }

  /** The blocks follow one another in product order: everything before block `i` is the
      header and the blocks of the products before it. */
  lemma AdBlocksInOrder(products: seq<DmmApi.Product>, isAdult: bool, i: nat)
    requires i < |products|
    ensures AdContent(products, isAdult) ==
      (AdHeader(isAdult) + ConcatMap(products[..i], 0, Renderer(isAdult)))
      + AdBlock(i, products[i], isAdult)
      + (ConcatMap(products[i + 1..], i + 1, Renderer(isAdult)) + AdFooter(isAdult))
  {
    DmmApi.RenderedOrder(products, |products|, i, AdHeader(isAdult), AdFooter(isAdult), Renderer(isAdult));
    assert products[..|products|] == products;
    assert products[i + 1..|products|] == products[i + 1..];
  }

  /** Each product's block opens with its number and its title, or `商品{n}` when it has none. */
  lemma AdHeadingShown(products: seq<DmmApi.Product>, isAdult: bool, i: nat)
    requires i < |products|
    ensures Contains(AdContent(products, isAdult), Heading(i, AdTitle(i, products[i])))
    ensures products[i].title == "" ==> AdTitle(i, products[i]) == "商品" + NatToString(i + 1)
  {
    AdBlocksInOrder(products, isAdult, i);
    HeadingInBlock(i, products[i], isAdult);
    ContainsInside(AdHeader(isAdult) + ConcatMap(products[..i], 0, Renderer(isAdult)), AdBlock(i, products[i], isAdult),
      ConcatMap(products[i + 1..], i + 1, Renderer(isAdult)) + AdFooter(isAdult), Heading(i, AdTitle(i, products[i])));
  }

  lemma HeadingInBlock(i: nat, p: DmmApi.Product, isAdult: bool)
    ensures Contains(AdBlock(i, p, isAdult), Heading(i, AdTitle(i, p)))
  {
    var title := AdTitle(i, p);
    var h := Heading(i, title);
    ContainsMiddle([], h, []);
    assert [] + h + [] == h;
    var m, d := ImageLine(title, DmmApi.Or(p.imageLarge, p.imageSmall)), DmmApi.Or(p.comment, DefaultAdDescription) + "\n\n";
    var l := LinkLine(title, p.affiliateURL, isAdult);
    ContainsBefore(h, m, h);
    ContainsBefore(h + m, d, h);
    ContainsBefore(h + m + d, l, h);
    ContainsBefore(h + m + d + l, Rule, h);
  }

  /** The section ends with the disclaimer exactly when the content is adult; otherwise
      it ends with the last block's rule. */
  lemma AdDisclaimer(products: seq<DmmApi.Product>, isAdult: bool)
    requires products != []
    ensures EndsWith(AdContent(products, isAdult), Disclaimer) <==> isAdult
    ensures !isAdult ==> EndsWith(AdContent(products, isAdult), Rule)
  {
    if isAdult {
      AdultEnding(products);
    } else {
      PlainEnding(products);
      RuleIsNotDisclaimer(AdContent(products, false));
    }
  }

  lemma AdultEnding(products: seq<DmmApi.Product>)
    requires products != []
    ensures EndsWith(AdContent(products, true), Disclaimer)
  {
    var ad := AdContent(products, true);
    var body := AdHeader(true) + ConcatMap(products, 0, Renderer(true));
    assert ad == body + Disclaimer;
    assert ad[|ad| - |Disclaimer|..] == Disclaimer;
  }

  lemma PlainEnding(products: seq<DmmApi.Product>)
    requires products != []
    ensures EndsWith(AdContent(products, false), Rule)
  {
    var render := Renderer(false);
    var cm := ConcatMap(products, 0, render);
    assert AdContent(products, false) == AdHeader(false) + cm + "";
    assert AdHeader(false) + cm + "" == AdHeader(false) + cm;
    var last := |products| - 1;
    ConcatMapAt(products, 0, render, last);
    assert products[last + 1..] == [];
    var pre, b := ConcatMap(products[..last], 0, render), render(last, products[last]);
    assert cm == pre + b + "";
    assert cm == pre + b;
    BlockEndsWithRule(last, products[last], false);
    EndsWithAppend(pre, b, Rule);
    EndsWithAppend(AdHeader(false), cm, Rule);
  }

  lemma BlockEndsWithRule(i: nat, p: DmmApi.Product, isAdult: bool)
    ensures EndsWith(AdBlock(i, p, isAdult), Rule)
  {
    var title := AdTitle(i, p);
    var x := Heading(i, title) + ImageLine(title, DmmApi.Or(p.imageLarge, p.imageSmall))
      + (DmmApi.Or(p.comment, DefaultAdDescription) + "\n\n") + LinkLine(title, p.affiliateURL, isAdult);
    assert AdBlock(i, p, isAdult) == x + Rule;
    assert (x + Rule)[|x + Rule| - |Rule|..] == Rule;
  }

  lemma EndsWithAppend(a: string, b: string, t: string)
    requires EndsWith(b, t)
    ensures EndsWith(a + b, t)
  {
    assert (a + b)[|a + b| - |t|..] == b[|b| - |t|..];
  }

  /** Text ending with the rule does not end with the disclaimer. */
  lemma RuleIsNotDisclaimer(s: string)
    requires EndsWith(s, Rule)
    ensures !EndsWith(s, Disclaimer)
  {
    assert s[|s| - 3] == Rule[2];
    var n := |Disclaimer|;
    assert Disclaimer[n - 3] != Rule[2];
  }

  /** `s.endsWith(t)`. */
  predicate EndsWith(s: string, t: string) {
    |t| <= |s| && s[|s| - |t|..] == t
  }

  /** The image line appears in a product's block exactly when it has a large or small image. */
  lemma AdImageOnlyWithImage(i: nat, p: DmmApi.Product, isAdult: bool)
    ensures var image := DmmApi.Or(p.imageLarge, p.imageSmall);
      (image == "" <==> ImageLine(AdTitle(i, p), image) == "")
      && (image != "" ==> Contains(AdBlock(i, p, isAdult), image))
  {
    var title := AdTitle(i, p);
    var image := DmmApi.Or(p.imageLarge, p.imageSmall);
    if image != "" {
      var m := ImageLine(title, image);
      ContainsInside(Heading(i, title), m,
        (DmmApi.Or(p.comment, DefaultAdDescription) + "\n\n") + LinkLine(title, p.affiliateURL, isAdult) + Rule, image);
      assert AdBlock(i, p, isAdult) == Heading(i, title) + m
        + ((DmmApi.Or(p.comment, DefaultAdDescription) + "\n\n") + LinkLine(title, p.affiliateURL, isAdult) + Rule);
    }
  }

  /** The link line appears in a product's block exactly when it has an affiliate URL; its
      text names the product for adult content. */
  lemma AdLinkOnlyWithUrl(i: nat, p: DmmApi.Product, isAdult: bool)
    ensures LinkLine(AdTitle(i, p), p.affiliateURL, isAdult) == "" <==> p.affiliateURL == ""
    ensures p.affiliateURL != "" ==> Contains(AdBlock(i, p, isAdult), p.affiliateURL)
    ensures LinkText(AdTitle(i, p), isAdult) == if isAdult then AdTitle(i, p) + "の詳細・購入はこちら" else "詳細を見る"
  {
    var title := AdTitle(i, p);
    if p.affiliateURL != "" {
      var pre := Heading(i, title) + ImageLine(title, DmmApi.Or(p.imageLarge, p.imageSmall))
        + (DmmApi.Or(p.comment, DefaultAdDescription) + "\n\n");
      var l := LinkLine(title, p.affiliateURL, isAdult);
      ContainsInside(pre, l, Rule, p.affiliateURL);
    }
  }

  // ---------------------------------------------------------------------
  // Request failures and their messages
  // ---------------------------------------------------------------------

  /** A failed request: the HTTP status when a response arrived, and the error's message. */
  datatype HttpFailure = HttpFailure(status: Option<int>, message: string)

  /** The kinds of failure `generateContent` tells apart. */
  datatype OpenAiFault = OpenAiAuth | OpenAiRateLimit | OpenAiCredit | OpenAiOther(message: string)

  function ClassifyOpenAi(f: HttpFailure): OpenAiFault {
    if f.status == Some(401) then OpenAiAuth
    else if f.status == Some(429) then OpenAiRateLimit
    else if f.status == Some(402) then OpenAiCredit
    else OpenAiOther(f.message)
  }

  const OpenAiPrefix := "OpenAI API"
  const GenerationPrefix := "記事生成エラー: "

  function OpenAiMessage(e: OpenAiFault): string {
    match e
    case OpenAiAuth => OpenAiPrefix + "認証エラー: " + "APIキーを確認してください"
    case OpenAiRateLimit => OpenAiPrefix + "レート制限エラー: " + "しばらく時間をおいて" + "再試行してください"
    case OpenAiCredit => OpenAiPrefix + "クレジット不足: " + "アカウントの残高を" + "確認してください"
    case OpenAiOther(m) => GenerationPrefix + m
  }

  /** Different kinds of OpenAI failure raise different messages. */
  lemma OpenAiMessagesDistinct(e1: OpenAiFault, e2: OpenAiFault)
    requires e1 != e2
    ensures OpenAiMessage(e1) != OpenAiMessage(e2)
  {
    var m1, m2 := OpenAiMessage(e1), OpenAiMessage(e2);
    var k := |OpenAiPrefix|;
    if !e1.OpenAiOther? && !e2.OpenAiOther? {
      assert m1[k] != m2[k];
    } else if e1.OpenAiOther? && e2.OpenAiOther? {
      assert m1[|GenerationPrefix|..] != m2[|GenerationPrefix|..];
    } else {
      assert m1[0] != m2[0];
    }
  }

  /** The kinds of failure `publishToWordPress` tells apart. */
  datatype WordPressFault = WordPressAuth | WordPressForbidden | WordPressNotFound | WordPressOther(message: string)

  function ClassifyWordPress(f: HttpFailure): WordPressFault {
    if f.status == Some(401) then WordPressAuth
    else if f.status == Some(403) then WordPressForbidden
    else if f.status == Some(404) then WordPressNotFound
    else WordPressOther(f.message)
  }

  const WordPressPrefix := "WordPress"
  const PostingPrefix := WordPressPrefix + "投稿エラー: "

  function WordPressMessage(e: WordPressFault): string {
    match e
    case WordPressAuth => WordPressPrefix + "認証エラー: " + "ユーザー名・パスワードを" + "確認してください"
    case WordPressForbidden => WordPressPrefix + "権限エラー: " + "投稿権限を確認してください"
    case WordPressNotFound => WordPressPrefix + " URLエラー: " + "サイトURLを確認してください"
    case WordPressOther(m) => PostingPrefix + m
  }

  /** Different kinds of WordPress failure raise different messages. */
  lemma WordPressMessagesDistinct(e1: WordPressFault, e2: WordPressFault)
    requires e1 != e2
    ensures WordPressMessage(e1) != WordPressMessage(e2)
  {
    var m1, m2 := WordPressMessage(e1), WordPressMessage(e2);
    if e1.WordPressOther? && e2.WordPressOther? {
      assert m1[|PostingPrefix|..] != m2[|PostingPrefix|..];
    } else {
      var k := |WordPressPrefix|;
      assert m1[k] != m2[k];
    }
  }

  /** The answer of the chat-completion request. */
  datatype Completion = Completed(content: string) | CompletionFailed(failure: HttpFailure)

  /** `generateContent(prompt)`: the generated text, or the error it raises. */
  function GenerateContent(answer: Completion): (r: Result<string, string>)
    ensures answer.Completed? ==> r == Ok(answer.content)
    ensures answer.CompletionFailed? ==> r == Err(OpenAiMessage(ClassifyOpenAi(answer.failure)))
  {
    match answer
    case Completed(content) => Ok(content)
    case CompletionFailed(f) => Err(OpenAiMessage(ClassifyOpenAi(f)))
  }

  /** The status of each specific OpenAI failure has its own message; every other status, or
      no response at all, gives the generic message with the error's own text. */
  lemma OpenAiStatuses(f: HttpFailure)
    ensures f.status == Some(401) ==> OpenAiMessage(ClassifyOpenAi(f)) == OpenAiMessage(OpenAiAuth)
    ensures f.status == Some(429) ==> OpenAiMessage(ClassifyOpenAi(f)) == OpenAiMessage(OpenAiRateLimit)
    ensures f.status == Some(402) ==> OpenAiMessage(ClassifyOpenAi(f)) == OpenAiMessage(OpenAiCredit)
    ensures f.status !in {Some(401), Some(429), Some(402)} ==> OpenAiMessage(ClassifyOpenAi(f)) == GenerationPrefix + f.message
  {
  }

  /** The same for WordPress: 401, 403 and 404, then the generic message. */
  lemma WordPressStatuses(f: HttpFailure)
    ensures f.status == Some(401) ==> WordPressMessage(ClassifyWordPress(f)) == WordPressMessage(WordPressAuth)
    ensures f.status == Some(403) ==> WordPressMessage(ClassifyWordPress(f)) == WordPressMessage(WordPressForbidden)
    ensures f.status == Some(404) ==> WordPressMessage(ClassifyWordPress(f)) == WordPressMessage(WordPressNotFound)
    ensures f.status !in {Some(401), Some(403), Some(404)} ==> WordPressMessage(ClassifyWordPress(f)) == PostingPrefix + f.message
  {
  }

  // ---------------------------------------------------------------------
  // The WordPress post
  // ---------------------------------------------------------------------

  /** `postData`; `date` is set only for a scheduled post. */
  datatype PostData = PostData(
    title: string, content: string, status: string, categories: seq<int>,
    tags: seq<string>, excerpt: string, format: string, date: Option<string>)

  const ExcerptLength := 160

  /** The payload for a post; `toHtml` stands for `convertMarkdownToHtml`. */
  function PostFor(title: string, content: string, category: int, tags: seq<string>,
                   scheduledDate: string, toHtml: string -> string): (p: PostData)
    ensures p.status == "future" <==> scheduledDate != ""
    ensures p.status == "publish" <==> scheduledDate == ""
    ensures p.date.Some? <==> scheduledDate != ""
    ensures p.date.Some? ==> p.date.value == scheduledDate
    ensures p.categories == [category] && p.tags == tags && p.title == title && p.format == "standard"
    ensures p.content == toHtml(content) && p.excerpt == GenerateExcerpt(content, ExcerptLength)
  {
    PostData(title, toHtml(content), if scheduledDate != "" then "future" else "publish",
      [category], tags, GenerateExcerpt(content, ExcerptLength), "standard",
      if scheduledDate != "" then Some(scheduledDate) else None)
  }

  /** Builds `postData`, then sets its date for a scheduled post. */
  method BuildPostData(title: string, content: string, category: int, tags: seq<string>,
                       scheduledDate: string, toHtml: string -> string) returns (post: PostData)
    ensures post == PostFor(title, content, category, tags, scheduledDate, toHtml)
  {
    post := PostData(title, toHtml(content), if scheduledDate != "" then "future" else "publish",
      [category], tags, GenerateExcerpt(content, ExcerptLength), "standard", None);
    if scheduledDate != "" {
      post := post.(date := Some(scheduledDate));
    }
  }

  /** The answer of the post request. */
  datatype WpAnswer = WpPosted(id: int, link: string) | WpFailed(failure: HttpFailure)

  /** What a successful post returns: the new post's id and link. */
  datatype WpPost = WpPost(id: int, link: string)

  /** `publishToWordPress(...)`: the payload sent and the post, or the error raised. */
  method PublishToWordPress(title: string, content: string, category: int, tags: seq<string>,
                            scheduledDate: string, toHtml: string -> string, answer: WpAnswer)
    returns (post: PostData, r: Result<WpPost, string>)
    ensures post == PostFor(title, content, category, tags, scheduledDate, toHtml)
    ensures answer.WpPosted? ==> r == Ok(WpPost(answer.id, answer.link))
    ensures answer.WpFailed? ==> r == Err(WordPressMessage(ClassifyWordPress(answer.failure)))
  {
    post := BuildPostData(title, content, category, tags, scheduledDate, toHtml);
    match answer
    case WpPosted(id, link) => r := Ok(WpPost(id, link));
    case WpFailed(f) => r := Err(WordPressMessage(ClassifyWordPress(f)));
  }

  // ---------------------------------------------------------------------
  // Articles and the whole run
  // ---------------------------------------------------------------------

  /** The object `generateArticleWithTemplate` returns. */
  datatype ArticleData = ArticleData(
    content: string, template: string, wordCount: nat, title: string,
    originalTheme: string, keywords: string)

  /** The template used: the given one, or the suggested one when none is given. */
  function ChosenTemplate(templateName: string, theme: string, keywords: string): (r: string)
    ensures templateName == "" ==> r in Templates.TemplateKeys
    ensures templateName != "" ==> r == templateName
  {
    if templateName == "" then Templates.SuggestTemplate(theme, keywords) else templateName
  }

  function TemplateNotFound(name: string): string {
    "テンプレート \"" + name + "\" が見つかりません"
  }

  /** The outcome of `generateArticleWithTemplate` when the model answers `answer`. */
  function ArticleFor(theme: string, keywords: string, templateName: string, answer: Completion): Result<ArticleData, string> {
    var name := ChosenTemplate(templateName, theme, keywords);
    if name !in Templates.TemplateKeys then Err(TemplateNotFound(name))
    else match GenerateContent(answer)
      case Err(e) => Err(e)
      case Ok(content) => Ok(ArticleData(content, name, EstimateWordCount(content), ArticleTitle(content, theme), theme, keywords))
  }

  /** An article is produced exactly when the template exists and the model answered; it
      keeps the answer, the template, the theme and the keywords, and counts its text. */
  lemma ArticleOutcome(theme: string, keywords: string, templateName: string, answer: Completion)
    ensures var name := ChosenTemplate(templateName, theme, keywords);
      var r := ArticleFor(theme, keywords, templateName, answer);
      (r.Ok? <==> name in Templates.TemplateKeys && answer.Completed?)
      && (name !in Templates.TemplateKeys ==> r == Err(TemplateNotFound(name)))
      && (name in Templates.TemplateKeys && answer.CompletionFailed? ==> r == Err(OpenAiMessage(ClassifyOpenAi(answer.failure))))
      && (r.Ok? ==> (r.value.content == answer.content && r.value.template == name
                  && r.value.originalTheme == theme && r.value.keywords == keywords
                  && r.value.wordCount == EstimateWordCount(answer.content) && r.value.wordCount <= |answer.content|
                  && r.value.title == ArticleTitle(answer.content, theme)))
  {
  }

  /** Without a template name the template always exists: the only failure is the model's. */
  lemma SuggestedTemplateExists(theme: string, keywords: string, answer: Completion)
    ensures ArticleFor(theme, keywords, "", answer).Ok? <==> answer.Completed?
  {
  }

  /** `keywords.split(',')[0].trim()`. */
  function FirstKeyword(keywords: string): string {
    Trim(Split(keywords, ",")[0])
  }

  /** The search keyword is the trimmed text before the first comma, or all of it. */
  lemma FirstKeywordBeforeComma(first: string, rest: string)
    requires ',' !in first
    ensures FirstKeyword(first + ("," + rest)) == Trim(first)
    ensures FirstKeyword(first) == Trim(first)
  {
    SplitCharCons(first, ",", rest);
    FirstCharAbsent(first, ",");
    SplitWithout(first, ",");
  }

  /** `getDMMProducts(keyword)`: nothing without an affiliate id or on failure, else the items. */
  function GetDMMProducts(affiliateId: string, answer: DmmApi.ApiAnswer): (r: seq<DmmApi.Product>)
    ensures affiliateId == "" || answer.Failed? ==> r == []
    ensures affiliateId != "" && answer.Answered? ==> r == answer.items
  {
    if affiliateId == "" then []
    else match answer
      case Failed => []
      case Answered(items) => items
  }

  const AdultTemplate := "adult_review"

  /** The object `createAndPublishArticle` returns (its timing fields aside). */
  datatype PublishReport =
    | Published(postId: int, url: string, title: string, template: string,
                wordCount: nat, productsCount: nat, scheduledDate: string)
    | PublishFailed(error: string, theme: string, keywords: string)

  /** The article text that is posted: the generated article and its advertising section. */
  function FinalContent(article: ArticleData, products: seq<DmmApi.Product>): string {
    article.content + AdContent(products, article.template == AdultTemplate)
  }

  /** The tool object: its settings are fixed by the constructor. */
  class CloudBlogTool {
    var config: ToolConfig

    constructor Init(env: Env)
      ensures config == Settings(env)
    {
      config := Settings(env);
    }

    /** `generateArticleWithTemplate(theme, keywords, templateName)`, the model answering
        `answer`. `prompt` is the prompt sent to the model; none is sent when the
        template does not exist. */
    method GenerateArticleWithTemplate(theme: string, keywords: string, templateName: string, answer: Completion)
      returns (r: Result<ArticleData, string>, prompt: Option<string>)
      ensures r == ArticleFor(theme, keywords, templateName, answer)
      ensures prompt.None? <==> ChosenTemplate(templateName, theme, keywords) !in Templates.TemplateKeys
    {
      var name := templateName;
      if name == "" {
        name := Templates.SuggestTemplate(theme, keywords);
      }
      assert name == ChosenTemplate(templateName, theme, keywords);
      prompt := RequestPrompt(name, theme, keywords);
      if prompt.None? {
        return Err(TemplateNotFound(name)), prompt;
      }
      var content := GenerateContent(answer);
      if content.Err? {
        return Err(content.error), prompt;
      }
      var title := ArticleTitle(content.value, theme);
      var wordCount := EstimateWordCount(content.value);
      r := Ok(ArticleData(content.value, name, wordCount, title, theme, keywords));
    }

    /** The prompt lookup, seen only as to whether it finds the template. */
    static method RequestPrompt(name: string, theme: string, keywords: string) returns (prompt: Option<string>)
      ensures prompt.None? <==> name !in Templates.TemplateKeys
    {
      prompt := Templates.GenerateDetailedPrompt(name, theme, keywords);
    }

    /** `createAndPublishArticle(...)`, with the answers of the three services as parameters.
        Besides the report it returns the catalog search keyword and the payload posted,
        when those steps are reached. */
    method CreateAndPublishArticle(theme: string, keywords: string, templateName: string, category: int,
                                   tags: seq<string>, scheduledDate: string, toHtml: string -> string,
                                   completion: Completion, catalog: DmmApi.ApiAnswer, wordpress: WpAnswer)
      returns (report: PublishReport, searched: Option<string>, post: Option<PostData>)
      ensures var article := ArticleFor(theme, keywords, templateName, completion);
        (article.Err? ==> report == PublishFailed(article.error, theme, keywords) && searched.None? && post.None?)
        && (article.Ok? ==> (searched == Some(FirstKeyword(keywords))
            && post == Some(PostFor(article.value.title, FinalContent(article.value, GetDMMProducts(config.affiliateId, catalog)),
                                    category, tags, scheduledDate, toHtml))))
      ensures var article := ArticleFor(theme, keywords, templateName, completion);
        article.Ok? && wordpress.WpFailed? ==>
          report == PublishFailed(WordPressMessage(ClassifyWordPress(wordpress.failure)), theme, keywords)
      ensures var article := ArticleFor(theme, keywords, templateName, completion);
        var products := GetDMMProducts(config.affiliateId, catalog);
        article.Ok? && wordpress.WpPosted? ==>
          report == Published(wordpress.id, wordpress.link, article.value.title, article.value.template,
                              EstimateWordCount(FinalContent(article.value, products)), |products|, scheduledDate)
    {
      var article, _ := GenerateArticleWithTemplate(theme, keywords, templateName, completion);
      if article.Err? {
        return PublishFailed(article.error, theme, keywords), None, None;
      }
      var data := article.value;
      var keyword := FirstKeyword(keywords);
      searched := Some(keyword);
      var products := GetDMMProducts(config.affiliateId, catalog);
      var isAdult := data.template == AdultTemplate;
      var ad := GenerateAdContent(products, isAdult);
      var finalContent := data.content + ad;
      var finalWordCount := EstimateWordCount(finalContent);
      var payload, posted := PublishToWordPress(data.title, finalContent, category, tags, scheduledDate, toHtml, wordpress);
      post := Some(payload);
      if posted.Err? {
        return PublishFailed(posted.error, theme, keywords), searched, post;
      }
      report := Published(posted.value.id, posted.value.link, data.title, data.template,
                          finalWordCount, |products|, scheduledDate);
    }
  }

  /** `new CloudBlogTool()`: the constructor raises when a required value is absent. */
  method NewCloudBlogTool(env: Env) returns (r: Result<CloudBlogTool, string>)
    ensures r.Err? <==> ValidateConfig(Settings(env)).Some?
    ensures r.Err? ==> r.error == ValidateConfig(Settings(env)).value
    ensures r.Ok? ==> fresh(r.value) && r.value.config == Settings(env)
  {
    var tool := new CloudBlogTool.Init(env);
    var problem := ValidateConfig(tool.config);
    if problem.Some? {
      return Err(problem.value);
    }
    return Ok(tool);
  }

}
