/** The configuration and license manager (functions/lib/config-manager.js): the checks
    a loaded `user-config.json` must pass, the license-key format and the tier table, and
    the read-only views of the loaded state. */
module ConfigManagement {
  import opened Strings

  /** One WordPress site of the configuration; an empty string is a missing value.
      `categories` maps category names to the site's category ids (0 when falsy). */
  datatype Site = Site(id: string, url: string, username: string, password: string, isDefault: bool,
                       name: string, categories: map<string, int>)

  /** The `api_keys.dmm` block. */
  datatype DmmSettings = DmmSettings(enabled: bool, apiId: string, affiliateId: string)

  /** A parsed configuration. Absent strings are empty and an absent site list is empty,
      which is how the optional chains of the source read them. */
  datatype Config = Config(
    licenseKey: string,
    licenseEmail: string,
    sites: seq<Site>,
    openAiKey: string,
    openAiModel: string,
    dmm: Option<DmmSettings>)

  // ---------------------------------------------------------------------------
  // validateConfig

  /** One item `validateConfig` reports; sites are numbered from 1. */
  datatype Problem =
    | NoLicenseKey
    | NoEmail
    | NoSites
    | NoSiteUrl(site: nat)
    | NoSiteUsername(site: nat)
    | NoSitePassword(site: nat)
    | NoOpenAiKey

  /** The message pushed for a problem. */
  function ProblemMessage(p: Problem): string {
    match p
    case NoLicenseKey => "ライセンスキーが設定されていません"
    case NoEmail => "メールアドレスが設定されていません"
    case NoSites => "WordPressサイトが設定されていません"
    case NoSiteUrl(n) => "サイト" + NatToString(n) + ": URLが設定されていません"
    case NoSiteUsername(n) => "サイト" + NatToString(n) + ": ユーザー名が設定されていません"
    case NoSitePassword(n) => "サイト" + NatToString(n) + ": パスワードが設定されていません"
    case NoOpenAiKey => "OpenAI APIキーが設定されていません"
  }

  /** `[p]` when `missing`, otherwise nothing. */
  function If(missing: bool, p: Problem): seq<Problem> {
    if missing then [p] else []
  }

  /** The problems of the site numbered `n`: URL, user name, password. */
  function SiteProblems(n: nat, s: Site): seq<Problem> {
    If(s.url == "", NoSiteUrl(n)) + If(s.username == "", NoSiteUsername(n)) + If(s.password == "", NoSitePassword(n))
  }

  /** The problems of `sites`, numbered from `start`. */
  function SitesProblems(sites: seq<Site>, start: nat): seq<Problem>
    decreases |sites|
  {
    if sites == [] then [] else SiteProblems(start, sites[0]) + SitesProblems(sites[1..], start + 1)
  }

  /** The problems `validateConfig` collects, in the order it collects them. */
  function ConfigProblems(c: Config): seq<Problem> {
    If(c.licenseKey == "", NoLicenseKey) + If(c.licenseEmail == "", NoEmail) +
    (if c.sites == [] then [NoSites] else SitesProblems(c.sites, 1)) +
    If(c.openAiKey == "", NoOpenAiKey)
  }

  predicate SiteComplete(s: Site) {
    s.url != "" && s.username != "" && s.password != ""
  }

  /** Everything `validateConfig` requires is present. */
  predicate Complete(c: Config) {
    c.licenseKey != "" && c.licenseEmail != "" && c.sites != [] &&
    (forall i :: 0 <= i < |c.sites| ==> SiteComplete(c.sites[i])) &&
    c.openAiKey != ""
  }

  /** The site loop finds nothing exactly when every site is complete. */
  lemma {:induction false} SitesProblemsEmpty(sites: seq<Site>, start: nat)
    ensures SitesProblems(sites, start) == [] <==> forall i :: 0 <= i < |sites| ==> SiteComplete(sites[i])
    decreases |sites|
  {
    if sites != [] {
      SitesProblemsEmpty(sites[1..], start + 1);
      if forall i :: 0 <= i < |sites| ==> SiteComplete(sites[i]) {
        forall i | 0 <= i < |sites[1..]| ensures SiteComplete(sites[1..][i]) {
          assert sites[1..][i] == sites[i + 1];
        }
      }
      if (forall i :: 0 <= i < |sites[1..]| ==> SiteComplete(sites[1..][i])) && SiteComplete(sites[0]) {
        forall i | 0 <= i < |sites| ensures SiteComplete(sites[i]) {
          if i > 0 {
            assert sites[i] == sites[1..][i - 1];
          }
        }
      }
    }
  }

  /** `validateConfig` raises an error exactly when something it requires is missing. */
  lemma ConfigProblemsEmpty(c: Config)
    ensures ConfigProblems(c) == [] <==> Complete(c)
  {
    SitesProblemsEmpty(c.sites, 1);
  }

  /** Appending a site appends its problems, numbered after the earlier sites. */
  lemma {:induction false} SitesProblemsAppend(sites: seq<Site>, s: Site, start: nat)
    ensures SitesProblems(sites + [s], start) == SitesProblems(sites, start) + SiteProblems(start + |sites|, s)
    decreases |sites|
  {
    if sites == [] {
      assert [s][1..] == [];
      assert SitesProblems([], start + 1) == [];
      assert SitesProblems(sites + [s], start) == SiteProblems(start, s) + [];
    } else {
      var t := sites[1..];
      var head, last := SiteProblems(start, sites[0]), SiteProblems(start + |sites|, s);
      SnocTail(sites, s);
      calc {
        SitesProblems(sites + [s], start);
        head + SitesProblems(t + [s], start + 1);
        { SitesProblemsAppend(t, s, start + 1); }
        head + (SitesProblems(t, start + 1) + last);
        { SeqAssoc(head, SitesProblems(t, start + 1), last); }
        (head + SitesProblems(t, start + 1)) + last;
      }
    }
  }

  /** Concatenation is associative. */
  lemma SeqAssoc<T>(a: seq<T>, b: seq<T>, c: seq<T>)
    ensures a + (b + c) == (a + b) + c
  {
  }

  /** The three values each site must have. */
  datatype Field = Url | Username | Password

  function FieldMissing(s: Site, f: Field): bool {
    match f
    case Url => s.url == ""
    case Username => s.username == ""
    case Password => s.password == ""
  }

  /** The problem reported for field `f` of the site numbered `n`. */
  function Report(f: Field, n: nat): Problem {
    match f
    case Url => NoSiteUrl(n)
    case Username => NoSiteUsername(n)
    case Password => NoSitePassword(n)
  }

  /** A site's problems name that site's number and its missing fields only. */
  lemma SiteProblemsMember(n: nat, s: Site, f: Field, m: nat)
    ensures Report(f, m) in SiteProblems(n, s) <==> m == n && FieldMissing(s, f)
  {
  }

  /** Field `f` of site `i` is reported, under number `start + i`, exactly when it is
      missing. */
  lemma {:induction false} SitesProblemsListed(sites: seq<Site>, start: nat, i: nat, f: Field)
    requires i < |sites|
    ensures Report(f, start + i) in SitesProblems(sites, start) <==> FieldMissing(sites[i], f)
    decreases |sites|
  {
    if i == 0 {
      SitesProblemsListedHead(sites, start, f);
    } else {
      var p := Report(f, start + i);
      calc {
        p in SitesProblems(sites, start);
        { SitesProblemsListedTail(sites, start, i, f); }
        p in SitesProblems(sites[1..], start + 1);
        { SitesProblemsListed(sites[1..], start + 1, i - 1, f); }
        FieldMissing(sites[1..][i - 1], f);
        { TailIndex(sites, i); }
        FieldMissing(sites[i], f);
      }
    }
  }

  /** The first site's fields are reported under number `start`. */
  lemma SitesProblemsListedHead(sites: seq<Site>, start: nat, f: Field)
    requires sites != []
    ensures Report(f, start) in SitesProblems(sites, start) <==> FieldMissing(sites[0], f)
  {
    SitesProblemsIn(sites, start, Report(f, start));
    SiteProblemsMember(start, sites[0], f, start);
    SitesProblemsNumbered(sites[1..], start + 1);
    assert !NumberedFrom(Report(f, start), start + 1);
  }

  /** A later site's report is found among the rest's problems. */
  lemma SitesProblemsListedTail(sites: seq<Site>, start: nat, i: nat, f: Field)
    requires 0 < i < |sites|
    ensures Report(f, start + i) in SitesProblems(sites, start) <==>
      Report(f, start + i) in SitesProblems(sites[1..], start + 1)
  {
    SitesProblemsIn(sites, start, Report(f, start + i));
    SiteProblemsMember(start, sites[0], f, start + i);
  }

  /** Element `i` of a list is element `i - 1` of its tail. */
  lemma TailIndex<T>(xs: seq<T>, i: nat)
    requires 0 < i < |xs|
    ensures xs[1..][i - 1] == xs[i]
  {
  }

  /** A problem of a non-empty site list is one of the first site's or one of the rest's. */
  lemma SitesProblemsIn(sites: seq<Site>, start: nat, p: Problem)
    requires sites != []
    ensures p in SitesProblems(sites, start) <==>
      p in SiteProblems(start, sites[0]) || p in SitesProblems(sites[1..], start + 1)
  {
  }

  /** The site with the problem's number lies in the numbered range. */
  predicate NumberedFrom(p: Problem, start: nat) {
    match p
    case NoSiteUrl(n) => n >= start
    case NoSiteUsername(n) => n >= start
    case NoSitePassword(n) => n >= start
    case _ => false
  }

  /** Every problem of the site loop names a site numbered from `start`. */
  lemma {:induction false} SitesProblemsNumbered(sites: seq<Site>, start: nat)
    ensures forall p :: p in SitesProblems(sites, start) ==> NumberedFrom(p, start)
    decreases |sites|
  {
    if sites != [] {
      SitesProblemsNumbered(sites[1..], start + 1);
    }
  }

  /** The report names the 1-based number of each incomplete site, and only those. */
  lemma ConfigProblemsListSites(c: Config, i: nat)
    requires i < |c.sites|
    ensures NoSiteUrl(i + 1) in ConfigProblems(c) <==> c.sites[i].url == ""
    ensures NoSiteUsername(i + 1) in ConfigProblems(c) <==> c.sites[i].username == ""
    ensures NoSitePassword(i + 1) in ConfigProblems(c) <==> c.sites[i].password == ""
  {
    SitesProblemsListed(c.sites, 1, i, Url);
    SitesProblemsListed(c.sites, 1, i, Username);
    SitesProblemsListed(c.sites, 1, i, Password);
  }

  /** The `validateConfig` checks, in order, with the site loop last but one. */
  method CollectProblems(c: Config) returns (problems: seq<Problem>)
    ensures problems == ConfigProblems(c)
  {
    problems := [];
    problems := PushIf(problems, c.licenseKey == "", NoLicenseKey);
    assert problems == If(c.licenseKey == "", NoLicenseKey);
    problems := PushIf(problems, c.licenseEmail == "", NoEmail);
    if c.sites == [] {
      problems := problems + [NoSites];
    } else {
      var siteProblems := CollectSiteProblems(c.sites);
      problems := problems + siteProblems;
    }
    problems := PushIf(problems, c.openAiKey == "", NoOpenAiKey);
  }

  /** `if (missing) problems.push(p)`. */
  method PushIf(problems: seq<Problem>, missing: bool, p: Problem) returns (r: seq<Problem>)
    ensures r == problems + If(missing, p)
  {
    r := problems;
    if missing {
      r := r + [p];
    }
  }

  /** The `forEach` over the sites: the problems of each site, numbered from 1. */
  method CollectSiteProblems(sites: seq<Site>) returns (problems: seq<Problem>)
    ensures problems == SitesProblems(sites, 1)
  {
    problems := [];
    var i := 0;
    while i < |sites|
      invariant 0 <= i <= |sites|
      invariant problems == SitesProblems(sites[..i], 1)
    {
      problems := PushSiteProblems(problems, i + 1, sites[i]);
      SitesProblemsStep(sites, i);
      i := i + 1;
    }
    assert sites[..i] == sites;
  }

  lemma SitesProblemsStep(sites: seq<Site>, i: nat)
    requires i < |sites|
    ensures SitesProblems(sites[..i + 1], 1) == SitesProblems(sites[..i], 1) + SiteProblems(i + 1, sites[i])
  {
    SliceSnoc(sites, i);
    SitesProblemsAppend(sites[..i], sites[i], 1);
  }

  lemma SnocTail<T>(xs: seq<T>, x: T)
    requires xs != []
    ensures (xs + [x])[0] == xs[0] && (xs + [x])[1..] == xs[1..] + [x]
  {
  }

  lemma SliceSnoc<T>(xs: seq<T>, i: nat)
    requires i < |xs|
    ensures xs[..i + 1] == xs[..i] + [xs[i]]
  {
  }

  /** One iteration of the site loop: the three checks of the site numbered `n`. */
  method PushSiteProblems(problems: seq<Problem>, n: nat, site: Site) returns (r: seq<Problem>)
    ensures r == problems + SiteProblems(n, site)
  {
    var u, a, p := If(site.url == "", NoSiteUrl(n)), If(site.username == "", NoSiteUsername(n)), If(site.password == "", NoSitePassword(n));
    r := PushIf(problems, site.url == "", NoSiteUrl(n));
    r := PushIf(r, site.username == "", NoSiteUsername(n));
    r := PushIf(r, site.password == "", NoSitePassword(n));
    SeqAssoc(problems, u, a);
    SeqAssoc(problems, u + a, p);
  }

  /** The bulleted lines of the error message. */
  function Bullets(problems: seq<Problem>): (r: seq<string>)
    ensures |r| == |problems|
    ensures forall i :: 0 <= i < |r| ==> r[i] == "  - " + ProblemMessage(problems[i])
  {
    if problems == [] then [] else ["  - " + ProblemMessage(problems[0])] + Bullets(problems[1..])
  }

  /** The text of the error `validateConfig` raises for the collected problems. */
  function ConfigErrorText(problems: seq<Problem>): string {
    Concat([
      "\n      \U{26A0}\U{FE0F} 設定エラー:\n      ",
      Join(Bullets(problems), "\n"),
      "\n      \n      user-config.json を編集して、必要な情報を入力してください。\n      "])
  }

  /** The raised text carries the message of every collected problem. */
  lemma ConfigErrorTextLists(problems: seq<Problem>, k: nat)
    requires k < |problems|
    ensures Contains(ConfigErrorText(problems), ProblemMessage(problems[k]))
  {
    var bullets := Bullets(problems);
    var parts := [
      "\n      \U{26A0}\U{FE0F} 設定エラー:\n      ",
      Join(bullets, "\n"),
      "\n      \n      user-config.json を編集して、必要な情報を入力してください。\n      "];
    JoinContains(bullets, "\n", k);
    ContainsAfter("  - ", ProblemMessage(problems[k]), ProblemMessage(problems[k])) by {
      ContainsMiddle("", ProblemMessage(problems[k]), "");
      assert "" + ProblemMessage(problems[k]) + "" == ProblemMessage(problems[k]);
    }
    ContainsTrans(parts[1], bullets[k], ProblemMessage(problems[k]));
    ConcatContainsPart(parts, 1);
    ContainsTrans(Concat(parts), parts[1], ProblemMessage(problems[k]));
  }

  // ---------------------------------------------------------------------------
  // The license key

  /** The license tiers the key format admits. */
  const Tiers: seq<string> := ["LITE", "PRO", "ENT"]

  /** A character of `[A-Z0-9]`. */
  predicate KeyChar(c: char) {
    'A' <= c <= 'Z' || '0' <= c <= '9'
  }

  /** Four characters of `[A-Z0-9]`. */
  predicate Block(s: string) {
    |s| == 4 && forall i :: 0 <= i < 4 ==> KeyChar(s[i])
  }

  /** `key` is `BAS-`, tier `t`, `-`, a block, `-`, a block, and nothing else. */
  predicate KeyWithTier(key: string, t: string) {
    var n := 4 + |t|;
    |key| == n + 10 && key[..4] == "BAS-" && key[4..n] == t && key[n] == '-' &&
    Block(key[n + 1..n + 5]) && key[n + 5] == '-' && Block(key[n + 6..])
  }

  /** `/^BAS-(LITE|PRO|ENT)-[A-Z0-9]{4}-[A-Z0-9]{4}$/.test(key)`. */
  predicate KeyFormatOk(key: string) {
    exists k :: 0 <= k < |Tiers| && KeyWithTier(key, Tiers[k])
  }

  /** The tier named by a well-formed key. */
  function LicenseTier(key: string): (r: string)
    requires KeyFormatOk(key)
    ensures r in Tiers && KeyWithTier(key, r)
  {
    if KeyWithTier(key, "LITE") then "LITE"
    else if KeyWithTier(key, "PRO") then "PRO"
    else "ENT"
  }

  /** The key with segments `BAS`, `t`, `a` and `b`. */
  function KeyOf(t: string, a: string, b: string): string {
    "BAS" + ("-" + (t + ("-" + (a + ("-" + b)))))
  }

  /** A block contains no dash. */
  lemma BlockHasNoDash(s: string)
    requires Block(s)
    ensures '-' !in s
  {
    forall i | 0 <= i < |s| ensures s[i] != '-' {
      assert KeyChar(s[i]);
    }
  }

  /** Splitting a key on dashes gives its four segments. */
  lemma SplitKey(t: string, a: string, b: string)
    requires '-' !in t && '-' !in a && '-' !in b
    ensures Split(KeyOf(t, a, b), "-") == ["BAS", t, a, b]
  {
    var ab := a + ("-" + b);
    var tab := t + ("-" + ab);
    assert '-' !in "BAS";
    calc {
      Split(KeyOf(t, a, b), "-");
      Split("BAS" + ("-" + tab), "-");
      { SplitCharCons("BAS", "-", tab); }
      ["BAS"] + Split(tab, "-");
      { SplitCharCons(t, "-", ab); }
      ["BAS"] + ([t] + Split(ab, "-"));
      { SplitCharCons(a, "-", b); FirstCharAbsent(b, "-"); SplitWithout(b, "-"); }
      ["BAS"] + ([t] + ([a] + [b]));
      ["BAS", t, a, b];
    }
  }

  /** Every key built from a tier and two blocks passes the format test. */
  lemma KeyFormatOfParts(k: nat, a: string, b: string)
    requires k < |Tiers| && Block(a) && Block(b)
    ensures KeyFormatOk(KeyOf(Tiers[k], a, b)) && LicenseTier(KeyOf(Tiers[k], a, b)) == Tiers[k]
  {
    var t := Tiers[k];
    var key := KeyOf(t, a, b);
    var n := 4 + |t|;
    assert key[..4] == "BAS-";
    assert key[4..n] == t;
    assert key[n + 1..n + 5] == a;
    assert key[n + 6..] == b;
    assert KeyWithTier(key, t);
  }

  /** A key that passes the format test is made of its tier and two blocks. */
  lemma KeyFormatParts(key: string)
    requires KeyFormatOk(key)
    ensures var n := 4 + |LicenseTier(key)|;
      Block(key[n + 1..n + 5]) && Block(key[n + 6..]) &&
      key == KeyOf(LicenseTier(key), key[n + 1..n + 5], key[n + 6..])
  {
    var t := LicenseTier(key);
    var n := 4 + |t|;
    var k := KeyOf(t, key[n + 1..n + 5], key[n + 6..]);
    assert |k| == |key|;
    forall i | 0 <= i < |key| ensures k[i] == key[i] {
      if i < 4 {
        assert key[..4][i] == key[i];
      } else if i < n {
        assert key[4..n][i - 4] == key[i];
      }
    }
  }

  /** The license type `validateLicense` reads: the second dash-separated segment, which
      for a well-formed key is its tier. */
  function LicenseType(key: string): (r: string)
    requires KeyFormatOk(key)
    ensures r == LicenseTier(key)
  {
    var t := LicenseTier(key);
    var n := 4 + |t|;
    KeyFormatParts(key);
    BlockHasNoDash(key[n + 1..n + 5]);
    BlockHasNoDash(key[n + 6..]);
    SplitKey(t, key[n + 1..n + 5], key[n + 6..]);
    Split(key, "-")[1]
  }

  /** `maskLicenseKey(key)`. */
  function MaskLicenseKey(key: string): (r: string)
    ensures key == "" <==> r == "NOT SET"
    ensures (key != "" && |Split(key, "-")| < 4) <==> r == "INVALID"
    ensures key != "" && |Split(key, "-")| >= 4 ==>
      r == Split(key, "-")[0] + "-" + Split(key, "-")[1] + "-****-" + Split(key, "-")[3]
  {
    if key == "" then "NOT SET"
    else
      var parts := Split(key, "-");
      if |parts| < 4 then "INVALID"
      else
        var r := parts[0] + "-" + parts[1] + "-****-" + parts[3];
        assert r[|parts[0]| + |parts[1]| + 2] == '*';
        r
  }

  /** A key of four dash-free segments is masked by replacing its third segment with
      `****`; in particular a well-formed key keeps its tier and last block. */
  lemma MaskOfKey(t: string, a: string, b: string)
    requires '-' !in t && '-' !in a && '-' !in b
    ensures MaskLicenseKey(KeyOf(t, a, b)) == KeyOf(t, "****", b)
  {
    SplitKey(t, a, b);
  }

  // ---------------------------------------------------------------------------
  // Features by tier

  /** One row of the feature table. */
  datatype Features = Features(
    maxSites: nat,
    maxArticlesPerDay: nat,
    maxArticlesPerMonth: nat,
    hasAutoSchedule: bool,
    hasImageGeneration: bool,
    hasDmmApi: bool,
    supportDays: nat)

  const LiteFeatures := Features(1, 10, 300, false, false, false, 30)
  const ProFeatures := Features(5, 50, 1500, true, true, true, 90)
  const EntFeatures := Features(999, 999, 99999, true, true, true, 365)

  /** `getFeaturesByType(type)`: the row of a known tier, the LITE row for anything else. */
  function GetFeaturesByType(t: string): (r: Features)
    ensures t == "PRO" ==> r == ProFeatures
    ensures t == "ENT" ==> r == EntFeatures
    ensures t != "PRO" && t != "ENT" ==> r == LiteFeatures
  {
    if t == "PRO" then ProFeatures
    else if t == "ENT" then EntFeatures
    else LiteFeatures
  }

  /** `a` grants at least what `b` grants. */
  predicate Covers(a: Features, b: Features) {
    a.maxSites >= b.maxSites && a.maxArticlesPerDay >= b.maxArticlesPerDay &&
    a.maxArticlesPerMonth >= b.maxArticlesPerMonth &&
    (b.hasAutoSchedule ==> a.hasAutoSchedule) && (b.hasImageGeneration ==> a.hasImageGeneration) &&
    (b.hasDmmApi ==> a.hasDmmApi) && a.supportDays >= b.supportDays
  }

  /** The tiers are ordered: a later tier grants at least what an earlier one does, and any
      type at all grants at least the LITE row. */
  lemma TiersOrdered(i: nat, j: nat, t: string)
    requires i <= j < |Tiers|
    ensures Covers(GetFeaturesByType(Tiers[j]), GetFeaturesByType(Tiers[i]))
    ensures Covers(GetFeaturesByType(t), LiteFeatures)
  {
  }

  /** Only the PRO and ENT tiers grant the DMM catalog, image generation and scheduling. */
  lemma PaidTiersOnly(t: string)
    ensures GetFeaturesByType(t).hasDmmApi <==> t == "PRO" || t == "ENT"
    ensures GetFeaturesByType(t).hasImageGeneration <==> t == "PRO" || t == "ENT"
    ensures GetFeaturesByType(t).hasAutoSchedule <==> t == "PRO" || t == "ENT"
  {
  }

  /** The `licenseStatus` record (the checksum is not modelled). */
  datatype LicenseStatus = LicenseStatus(valid: bool, licenseType: string, email: string, features: Features)

  /** The status `validateLicense` records for a configuration with a well-formed key. */
  function StatusFor(c: Config): (r: LicenseStatus)
    requires KeyFormatOk(c.licenseKey)
    ensures r.valid && r.licenseType in Tiers && r.email == c.licenseEmail
    ensures r.features == GetFeaturesByType(LicenseTier(c.licenseKey))
  {
    var t := LicenseType(c.licenseKey);
    LicenseStatus(true, t, c.licenseEmail, GetFeaturesByType(t))
  }

  // ---------------------------------------------------------------------------
  // Views of the loaded state

  /** The first index at or after `from` whose site has id `id`. */
  function IndexWithId(sites: seq<Site>, id: string, from: nat): (r: Option<nat>)
    requires from <= |sites|
    ensures r.None? ==> forall j :: from <= j < |sites| ==> sites[j].id != id
    ensures r.Some? ==> (from <= r.value < |sites| && sites[r.value].id == id &&
      forall j :: from <= j < r.value ==> sites[j].id != id)
    decreases |sites| - from
  {
    if from == |sites| then None
    else if sites[from].id == id then Some(from)
    else IndexWithId(sites, id, from + 1)
  }

  /** The first index at or after `from` whose site is marked default. */
  function DefaultIndex(sites: seq<Site>, from: nat): (r: Option<nat>)
    requires from <= |sites|
    ensures r.None? ==> forall j :: from <= j < |sites| ==> !sites[j].isDefault
    ensures r.Some? ==> (from <= r.value < |sites| && sites[r.value].isDefault &&
      forall j :: from <= j < r.value ==> !sites[j].isDefault)
    decreases |sites| - from
  {
    if from == |sites| then None
    else if sites[from].isDefault then Some(from)
    else DefaultIndex(sites, from + 1)
  }

  /** `getWordPressSite(siteId)` on a site list; an empty `siteId` is the null default. */
  function SiteIn(sites: seq<Site>, siteId: string): (r: Option<Site>)
    ensures siteId != "" ==> (r.Some? <==> exists j :: 0 <= j < |sites| && sites[j].id == siteId)
    ensures siteId != "" && r.Some? ==> exists j :: (0 <= j < |sites| && sites[j] == r.value &&
      r.value.id == siteId && forall k :: 0 <= k < j ==> sites[k].id != siteId)
    ensures siteId == "" ==> (r.None? <==> sites == [])
    ensures siteId == "" && r.Some? && (exists j :: 0 <= j < |sites| && sites[j].isDefault) ==>
      r.value.isDefault && exists j :: (0 <= j < |sites| && sites[j] == r.value &&
        forall k :: 0 <= k < j ==> !sites[k].isDefault)
    ensures siteId == "" && sites != [] && (forall j :: 0 <= j < |sites| ==> !sites[j].isDefault) ==>
      r == Some(sites[0])
  {
    if siteId != "" then
      match IndexWithId(sites, siteId, 0)
      case None => None
      case Some(i) => Some(sites[i])
    else
      match DefaultIndex(sites, 0)
      case Some(i) => Some(sites[i])
      case None => if sites == [] then None else Some(sites[0])
  }

  /** `getOpenAIConfig()`. */
  datatype OpenAiSettings = OpenAiSettings(apiKey: string, model: string)

  /** The model used when the configuration names none. */
  const DefaultModel := "gpt-4o-mini"

  /** What `getDMMConfig()` reports. */
  datatype DmmAccess =
    | DmmDenied(message: string)
    | DmmGranted(enabled: bool, apiId: string, affiliateId: string)

  const DmmDeniedMessage := "このライセンスではDMM APIは使用できません"

  /** What `checkArticleLimit(count)` reports. */
  datatype LimitCheck = LimitCheck(allowed: bool, message: Option<string>, remaining: Option<int>)

  const NoLicenseMessage := "ライセンスが無効です"

  /** The message for a reached daily limit of `max` articles. */
  function DailyLimitMessage(max: nat): string {
    "1日の投稿制限（" + NatToString(max) + "記事）に達しました"
  }

  /** `getTodayArticleCount()`: the source answers a constant 0. */
  function TodayArticleCount(): nat {
    0
  }

  /** The limit check for license features `features`, `count` new articles and `today`
      articles already posted today. */
  function LimitFor(features: Option<Features>, count: int, today: int): (r: LimitCheck)
    ensures features.None? ==> r == LimitCheck(false, Some(NoLicenseMessage), None)
    ensures features.Some? ==> (r.allowed <==> today + count <= features.value.maxArticlesPerDay)
    ensures features.Some? ==> r.remaining == Some(features.value.maxArticlesPerDay - today)
    ensures features.Some? && !r.allowed ==> r.message == Some(DailyLimitMessage(features.value.maxArticlesPerDay))
    ensures r.allowed ==> r.message.None?
  {
    match features
    case None => LimitCheck(false, Some(NoLicenseMessage), None)
    case Some(f) =>
      if today + count > f.maxArticlesPerDay then
        LimitCheck(false, Some(DailyLimitMessage(f.maxArticlesPerDay)), Some(f.maxArticlesPerDay - today))
      else
        LimitCheck(true, None, Some(f.maxArticlesPerDay - today))
  }

  /** The value of a feature flag or limit, as `hasFeature` reads it. */
  datatype FeatureValue = Flag(on: bool) | Amount(n: nat)

  /** Truthiness of a feature value. */
  predicate Truthy(v: FeatureValue) {
    match v
    case Flag(b) => b
    case Amount(n) => n != 0
  }

  /** The feature of row `f` named `name`, if the row has one. */
  function FeatureNamed(f: Features, name: string): Option<FeatureValue> {
    if name == "maxSites" then Some(Amount(f.maxSites))
    else if name == "maxArticlesPerDay" then Some(Amount(f.maxArticlesPerDay))
    else if name == "maxArticlesPerMonth" then Some(Amount(f.maxArticlesPerMonth))
    else if name == "hasAutoSchedule" then Some(Flag(f.hasAutoSchedule))
    else if name == "hasImageGeneration" then Some(Flag(f.hasImageGeneration))
    else if name == "hasDmmApi" then Some(Flag(f.hasDmmApi))
    else if name == "supportDays" then Some(Amount(f.supportDays))
    else None
  }

  /** What a parsed configuration file yields: nothing, unparsable text, or a value. */
  datatype ConfigFile = Missing | Malformed | Parsed(config: Config)

  /** Why `loadConfig` raised. */
  datatype LoadError = FileMissing | ParseFailure | InvalidConfig(problems: seq<Problem>) | InvalidLicenseFormat

  const InvalidLicenseMessage := "無効なライセンスキー形式です"

  /** What `loadConfig()` answers for the file contents `file`: the configuration, or the
      first check it fails. */
  function LoadResult(file: ConfigFile): (r: Result<Config, LoadError>)
    ensures r.Ok? <==> file.Parsed? && ConfigProblems(file.config) == [] && KeyFormatOk(file.config.licenseKey)
    ensures r.Ok? ==> r.value == file.config
  {
    match file
    case Missing => Err(FileMissing)
    case Malformed => Err(ParseFailure)
    case Parsed(c) =>
      if ConfigProblems(c) != [] then Err(InvalidConfig(ConfigProblems(c)))
      else if !KeyFormatOk(c.licenseKey) then Err(InvalidLicenseFormat)
      else Ok(c)
  }

  /** The manager's state: the loaded configuration and the license status. */
  class ConfigManager {
    var config: Option<Config>
    var licenseStatus: Option<LicenseStatus>

    /** A manager with nothing loaded. */
    constructor()
      ensures config.None? && licenseStatus.None?
    {
      config := None;
      licenseStatus := None;
    }

    /** `loadConfig()` for the file contents `file`. The configuration is kept as soon as
        it parses, before any check; the license status changes only on success. */
    method LoadConfig(file: ConfigFile) returns (r: Result<Config, LoadError>)
      modifies this
      ensures !file.Parsed? ==> config == old(config) && licenseStatus == old(licenseStatus)
      ensures file.Missing? ==> r == Err(FileMissing)
      ensures file.Malformed? ==> r == Err(ParseFailure)
      ensures file.Parsed? ==> config == Some(file.config)
      ensures file.Parsed? ==>
        r == if ConfigProblems(file.config) != [] then Err(InvalidConfig(ConfigProblems(file.config)))
             else if !KeyFormatOk(file.config.licenseKey) then Err(InvalidLicenseFormat)
             else Ok(file.config)
      ensures file.Parsed? && r.Ok? ==> licenseStatus == Some(StatusFor(file.config))
      ensures r.Err? ==> licenseStatus == old(licenseStatus)
      ensures r == LoadResult(file)
    {
      match file
      case Missing =>
        return Err(FileMissing);
      case Malformed =>
        return Err(ParseFailure);
      case Parsed(c) =>
        config := Some(c);
        var problems := ValidateConfig();
        if problems != [] {
          return Err(InvalidConfig(problems));
        }
        var status := ValidateLicense();
        if status.Err? {
          return Err(InvalidLicenseFormat);
        }
        return Ok(c);
    }

    /** `validateConfig()`: the problems it collects; it raises iff there is one. */
    method ValidateConfig() returns (problems: seq<Problem>)
      requires config.Some?
      ensures problems == ConfigProblems(config.value)
    {
      problems := CollectProblems(config.value);
    }

    /** `validateLicense()`: a key of the wrong format is refused and nothing is recorded;
        otherwise the status for its tier is recorded and returned. */
    method ValidateLicense() returns (r: Result<LicenseStatus, string>)
      requires config.Some?
      modifies this
      ensures config == old(config)
      ensures !KeyFormatOk(config.value.licenseKey) ==>
        r == Err(InvalidLicenseMessage) && licenseStatus == old(licenseStatus)
      ensures KeyFormatOk(config.value.licenseKey) ==>
        r == Ok(StatusFor(config.value)) && licenseStatus == Some(r.value)
    {
      var c := config.value;
      if !KeyFormatOk(c.licenseKey) {
        return Err(InvalidLicenseMessage);
      }
      var status := StatusFor(c);
      licenseStatus := Some(status);
      return Ok(status);
    }

    /** The configured sites (`config?.wordpress?.sites || []`). */
    function Sites(): seq<Site>
      reads this
    {
      if config.Some? then config.value.sites else []
    }

    /** `getWordPressSite(siteId)`. */
    function GetWordPressSite(siteId: string): (r: Option<Site>)
      reads this
      ensures Sites() == [] ==> r.None?
      ensures r.Some? ==> r.value in Sites()
    {
      SiteIn(Sites(), siteId)
    }

    /** `getOpenAIConfig()`: the configured key, and the configured model or the default. */
    function GetOpenAIConfig(): (r: OpenAiSettings)
      reads this
      ensures r.model != ""
      ensures config.Some? && config.value.openAiModel != "" ==> r.model == config.value.openAiModel
      ensures r.apiKey == (if config.Some? then config.value.openAiKey else "")
    {
      if config.None? then OpenAiSettings("", DefaultModel)
      else OpenAiSettings(config.value.openAiKey,
        if config.value.openAiModel != "" then config.value.openAiModel else DefaultModel)
    }

    /** `getDMMConfig()`: refused without the license feature; otherwise enabled only when
        the configuration enables it. */
    function GetDMMConfig(): (r: DmmAccess)
      reads this
      ensures !(licenseStatus.Some? && licenseStatus.value.features.hasDmmApi) ==> r == DmmDenied(DmmDeniedMessage)
      ensures r.DmmGranted? && r.enabled ==>
        licenseStatus.Some? && licenseStatus.value.features.hasDmmApi &&
        config.Some? && config.value.dmm.Some? && config.value.dmm.value.enabled
    {
      if !(licenseStatus.Some? && licenseStatus.value.features.hasDmmApi) then DmmDenied(DmmDeniedMessage)
      else
        var d := if config.Some? then config.value.dmm else None;
        match d
        case None => DmmGranted(false, "", "")
        case Some(s) => DmmGranted(s.enabled, s.apiId, s.affiliateId)
    }

    /** `checkArticleLimit(count)`, with today's count as the source computes it. */
    function CheckArticleLimit(count: int): (r: LimitCheck)
      reads this
      ensures licenseStatus.None? ==> !r.allowed && r.remaining.None?
      ensures !r.allowed ==> r.message.Some?
      ensures licenseStatus.Some? ==>
        (r.allowed <==> count <= licenseStatus.value.features.maxArticlesPerDay) &&
        r.remaining == Some(licenseStatus.value.features.maxArticlesPerDay as int)
    {
      LimitFor(if licenseStatus.Some? then Some(licenseStatus.value.features) else None, count, TodayArticleCount())
    }

    /** `hasFeature(name)`: the feature's value when it is truthy, otherwise `false`. */
    function HasFeature(name: string): (r: FeatureValue)
      reads this
      ensures licenseStatus.None? ==> r == Flag(false)
      ensures r != Flag(false) ==>
        licenseStatus.Some? && Truthy(r) && FeatureNamed(licenseStatus.value.features, name) == Some(r)
      ensures (licenseStatus.Some? && FeatureNamed(licenseStatus.value.features, name).Some? &&
               Truthy(FeatureNamed(licenseStatus.value.features, name).value)) ==>
        r == FeatureNamed(licenseStatus.value.features, name).value
    {
      if licenseStatus.None? then Flag(false)
      else
        match FeatureNamed(licenseStatus.value.features, name)
        case None => Flag(false)
        case Some(v) => if Truthy(v) then v else Flag(false)
    }
  }
}
