/** The article outline catalog, the rule cascade that picks an outline for a theme
    and keyword list, and the builder of the generation prompt
    (functions/lib/templates.js). */
module Templates {
  import opened Strings

  /** A repeated sub-heading pattern inside a section. */
  datatype Subsection = Subsection(
    heading: string,
    pattern: string,
    count: Option<string>,
    wordCount: Option<string>,
    examples: seq<string>,
    format: Option<string>,
    subStructure: seq<string>)

  /** One section of an outline; `title` is the section title. */
  datatype Section = Section(
    title: string,
    heading: string,
    contentType: string,
    wordCount: string,
    subsections: seq<Subsection>,
    requirements: seq<string>)

  datatype Template = Template(
    name: string,
    structure: seq<Section>,
    totalWordCount: string,
    seoRequirements: seq<string>,
    cvRequirements: seq<string>)

  /** The catalog keys in declaration order (the order of `Object.keys`). */
  const TemplateKeys: seq<string> :=
    ["howto", "listicle", "review", "news", "beginner_guide", "adult_review"]

  /** The position of `key` among the catalog keys. */
  function KeyIndex(key: string): (r: Option<nat>)
    ensures r.Some? <==> key in TemplateKeys
    ensures r.Some? ==> r.value < |TemplateKeys| && TemplateKeys[r.value] == key
  {
    if key == "howto" then Some(0)
    else if key == "listicle" then Some(1)
    else if key == "review" then Some(2)
    else if key == "news" then Some(3)
    else if key == "beginner_guide" then Some(4)
    else if key == "adult_review" then Some(5)
    else None
  }

  /** The outlines of `ArticleTemplates`, in key order. */
  function Catalog(): (r: seq<Template>)
    ensures |r| == |TemplateKeys|
  {
    [HowToTemplate(), ListicleTemplate(), ReviewTemplate(), NewsTemplate(), BeginnerGuideTemplate(), AdultReviewTemplate()]
  }

  /** Lookup of a key in a catalog laid out in key order: the outline stored under an
      own key of the catalog, or null. */
  function Lookup(catalog: seq<Template>, key: string): (r: Option<Template>)
    requires |catalog| == |TemplateKeys|
    ensures r.Some? <==> key in TemplateKeys
    ensures forall i :: 0 <= i < |TemplateKeys| && TemplateKeys[i] == key ==> r == Some(catalog[i])
  {
    match KeyIndex(key)
    case None => None
    case Some(i) => Some(catalog[i])
  }

  /** `getTemplate(key)`: the catalog entry for an own key of the catalog, or null. */
  function GetTemplate(key: string): (r: Option<Template>)
    ensures r.Some? <==> key in TemplateKeys
  {
    Lookup(Catalog(), key)
  }

  /** The `howto` outline. */
  function HowToTemplate(): Template {
    Template(
      "ハウツー・解説記事",
      [
        Section(
          "導入部", "h2", "introduction", "200-300",
          [],
          [
            "読者の悩みや課題を提示",
            "記事で解決できることを明示",
            "読み進める理由を提供"
          ]),
        Section(
          "基本知識", "h2", "explanation", "300-400",
          [],
          [
            "必要な前提知識を説明",
            "専門用語の定義",
            "具体例を含める"
          ]),
        Section(
          "手順・方法", "h2", "steps", "400-600",
          [
            Subsection("h3", "ステップ{number}: {action}", Some("3-5個"), Some("100-150"), [], None, [])
          ],
          [
            "具体的な手順を番号付きで説明",
            "各ステップに画像や例を含める",
            "注意点や失敗例も記載"
          ]),
        Section(
          "応用・コツ", "h2", "tips", "300-400",
          [],
          [
            "より効果的な方法",
            "よくある間違いと対処法",
            "プロのテクニック"
          ]),
        Section(
          "まとめ", "h2", "conclusion", "200-300",
          [],
          [
            "重要ポイントの復習",
            "次のアクションを促す",
            "関連記事への誘導"
          ])
      ],
      "1500-2000",
      [
        "タイトルに数字を含める（「5つの方法」「3ステップで」など）",
        "見出しにキーワードを自然に含める",
        "読者の検索意図に応える内容構成"
      ],
      []
    )
  }

  /** The `listicle` outline. */
  function ListicleTemplate(): Template {
    Template(
      "リスト・ランキング記事",
      [
        Section(
          "導入部", "h2", "introduction", "200-250",
          [],
          [
            "なぜこのリストが重要かを説明",
            "選定基準を明示",
            "読者のメリットを提示"
          ]),
        Section(
          "リスト項目", "h2", "list_items", "1000-1500",
          [
            Subsection("h3", "{number}. {item_name}", Some("5-10個"), Some("150-200"), [], None, [
              "特徴・概要（50-80文字）",
              "詳細説明（100-120文字）",
              "おすすめポイント（30-50文字）"
            ])
          ],
          [
            "各項目に具体的な特徴を記載",
            "比較しやすい統一フォーマット",
            "画像や図表で視覚的に説明"
          ]),
        Section(
          "比較・選び方", "h2", "comparison", "300-400",
          [],
          [
            "項目別比較表",
            "用途別おすすめ",
            "選択基準の提示"
          ]),
        Section(
          "まとめ", "h2", "conclusion", "200-250",
          [],
          [
            "総合的な推奨",
            "最終的なアドバイス",
            "次のステップの提案"
          ])
      ],
      "1700-2400",
      [
        "タイトルに具体的な数字",
        "「おすすめ」「比較」「ランキング」等のキーワード",
        "各項目で関連キーワードを使用"
      ],
      []
    )
  }

  /** The `review` outline. */
  function ReviewTemplate(): Template {
    Template(
      "レビュー・体験談記事",
      [
        Section(
          "商品・サービス概要", "h2", "overview", "200-300",
          [],
          [
            "基本情報（価格、特徴、対象者）",
            "なぜ試してみたのか",
            "第一印象"
          ]),
        Section(
          "実際に使ってみた感想", "h2", "experience", "600-800",
          [
            Subsection("h3", "{aspect}について", None, Some("150-200"), [
              "使いやすさ",
              "効果",
              "コスパ",
              "サポート"
            ], None, [])
          ],
          [
            "具体的な使用体験",
            "良い点と悪い点を両方記載",
            "写真や数値データを含める"
          ]),
        Section(
          "他社製品との比較", "h2", "comparison", "300-400",
          [],
          [
            "競合製品との違い",
            "価格・機能比較",
            "選ぶべき人の特徴"
          ]),
        Section(
          "メリット・デメリット", "h2", "pros_cons", "300-400",
          [
            Subsection("h3", "メリット", None, None, [], Some("箇条書き3-5個"), []),
            Subsection("h3", "デメリット", None, None, [], Some("箇条書き2-4個"), [])
          ],
          [
            "具体的で客観的な評価",
            "実体験に基づく内容",
            "読者の判断材料となる情報"
          ]),
        Section(
          "総合評価・まとめ", "h2", "conclusion", "250-300",
          [],
          [
            "5段階評価や点数",
            "おすすめする人・しない人",
            "購入・利用のアドバイス"
          ])
      ],
      "1650-2200",
      [
        "商品名・サービス名をタイトルに含める",
        "「レビュー」「口コミ」「評価」等のキーワード",
        "具体的な評価軸での見出し"
      ],
      []
    )
  }

  /** The `news` outline. */
  function NewsTemplate(): Template {
    Template(
      "ニュース・トレンド記事",
      [
        Section(
          "ニュース概要", "h2", "news_summary", "200-300",
          [],
          [
            "5W1H（いつ、どこで、誰が、何を、なぜ、どのように）",
            "要点を簡潔に整理",
            "なぜ重要なのかを説明"
          ]),
        Section(
          "詳細・背景", "h2", "background", "400-500",
          [],
          [
            "これまでの経緯",
            "関連する過去の出来事",
            "業界・市場への影響"
          ]),
        Section(
          "専門家の見解・分析", "h2", "analysis", "300-400",
          [],
          [
            "客観的な分析",
            "複数の視点からの考察",
            "データや根拠の提示"
          ]),
        Section(
          "今後の影響・展望", "h2", "future_outlook", "300-400",
          [],
          [
            "短期・長期的な影響予測",
            "関連業界への波及効果",
            "注目すべきポイント"
          ]),
        Section(
          "まとめ", "h2", "conclusion", "200-250",
          [],
          [
            "重要ポイントの整理",
            "読者への影響",
            "今後の注目点"
          ])
      ],
      "1400-1850",
      [
        "時事性のあるキーワード",
        "日付を含むタイトル",
        "関連するトレンドワード"
      ],
      []
    )
  }

  /** The `beginner_guide` outline. */
  function BeginnerGuideTemplate(): Template {
    Template(
      "初心者向けガイド記事",
      [
        Section(
          "○○とは？基本を知ろう", "h2", "basic_explanation", "300-400",
          [],
          [
            "専門用語を使わない簡単な説明",
            "身近な例えで理解しやすく",
            "なぜ重要なのかを説明"
          ]),
        Section(
          "初心者が知っておくべき基礎知識", "h2", "fundamental_knowledge", "400-500",
          [
            Subsection("h3", "基礎知識{number}", Some("3-4個"), Some("100-125"), [], None, [])
          ],
          [
            "必要最小限の知識に絞る",
            "図解や例を多用",
            "専門用語の簡単な解説"
          ]),
        Section(
          "始め方・最初のステップ", "h2", "getting_started", "500-600",
          [],
          [
            "具体的なアクションプラン",
            "必要な道具・環境の説明",
            "最初につまずきやすいポイント"
          ]),
        Section(
          "よくある質問・つまずきポイント", "h2", "faq", "400-500",
          [
            Subsection("h3", "Q. {question}", Some("4-6個"), Some("60-80"), [], None, [])
          ],
          [
            "初心者が実際に疑問に思うこと",
            "具体的で実践的な回答",
            "失敗例と対処法"
          ]),
        Section(
          "次のステップ・上達のコツ", "h2", "next_steps", "300-400",
          [],
          [
            "段階的な学習プラン",
            "おすすめのリソース",
            "モチベーション維持のコツ"
          ])
      ],
      "1900-2400",
      [
        "「初心者」「入門」「基礎」等のキーワード",
        "「始め方」「やり方」等のフレーズ",
        "対象分野の基本キーワード"
      ],
      []
    )
  }

  /** The `adult_review` outline. */
  function AdultReviewTemplate(): Template {
    Template(
      "アダルト商品レビュー記事",
      [
        Section(
          "はじめに・購入のきっかけ", "h2", "introduction", "200-300",
          [],
          [
            "購入に至った経緯や悩み",
            "商品への期待値",
            "読者との共感ポイント",
            "正直で親近感のある導入"
          ]),
        Section(
          "商品スペック・基本情報", "h2", "specifications", "250-350",
          [],
          [
            "価格・サイズ・素材等の基本情報",
            "特徴的な機能の説明",
            "他商品との違い",
            "表やリストで見やすく整理"
          ]),
        Section(
          "実際に使ってみた感想", "h2", "hands_on_experience", "600-800",
          [
            Subsection("h3", "{aspect}について", Some("3-4個"), Some("150-200"), [
              "第一印象",
              "使用感",
              "効果",
              "満足度"
            ], None, [])
          ],
          [
            "具体的で詳細な使用体験",
            "率直で正直な感想",
            "読者が知りたいポイントを網羅",
            "適度にリアルな表現を使用"
          ]),
        Section(
          "良かった点・悪かった点", "h2", "pros_cons_comparison", "300-400",
          [
            Subsection("h3", "良かった点", None, None, [], Some("箇条書き3-5個"), []),
            Subsection("h3", "悪かった点・改善希望", None, None, [], Some("箇条書き2-4個"), [])
          ],
          [
            "客観的で公平な評価",
            "購入検討者の判断材料となる内容",
            "表形式での比較も効果的",
            "具体的で分かりやすい表現"
          ]),
        Section(
          "総合評価・まとめ", "h2", "final_verdict", "250-350",
          [],
          [
            "総合的な満足度（5段階評価等）",
            "どんな人におすすめか",
            "購入を迷っている人へのアドバイス",
            "リピート購入の意向"
          ]),
        Section(
          "購入方法・お得情報", "h2", "purchase_info", "200-300",
          [],
          [
            "公式サイトや正規販売店の紹介",
            "価格情報や割引情報",
            "アフィリエイトリンクの自然な挿入",
            "購入時の注意点やアドバイス"
          ])
      ],
      "1800-2500",
      [
        "商品名を正確にタイトルに含める",
        "「レビュー」「口コミ」「使ってみた」「評価」等のキーワード",
        "関連キーワードを見出しに自然に配置",
        "メタディスクリプションで購買意欲を刺激"
      ],
      [
        "記事中盤と最後にCTAを配置",
        "アフィリエイトリンクを自然に挿入",
        "緊急性や限定性を適度に演出",
        "購入への心理的ハードルを下げる表現"
      ]
    )
  }

  // ---------------------------------------------------------------------------
  // Outline choice

  /** The terms that select the adult outline; keywords and theme are tested by substring. */
  const AdultTerms: seq<string> :=
    ["オナホ", "アダルト", "グッズ", "大人", "セックス", "性具", "ラブ", "バイブ", "ローター", "玩具", "おもちゃ", "エロ"]
  const HowToKeywords: seq<string> := ["方法", "やり方", "ステップ", "手順", "の仕方"]
  const ListicleKeywords: seq<string> := ["おすすめ", "ランキング", "比較", "まとめ", "選", "厳選"]
  const ReviewKeywords: seq<string> := ["レビュー", "評価", "口コミ", "体験", "使ってみた", "試してみた"]
  const NewsKeywords: seq<string> := ["ニュース", "最新", "トレンド", "速報", "動向", "話題"]
  const BeginnerKeywords: seq<string> := ["初心者", "入門", "基礎", "始め方", "とは", "基本"]

  /** Every part trimmed. */
  function TrimEach(parts: seq<string>): (r: seq<string>)
    ensures |r| == |parts|
    ensures forall i :: 0 <= i < |parts| ==> r[i] == Trim(parts[i])
  {
    if parts == [] then [] else [Trim(parts[0])] + TrimEach(parts[1..])
  }

  /** The keyword list: lower-cased, split on commas, each piece trimmed. */
  function KeywordList(keywords: string): (r: seq<string>)
    ensures |r| >= 1
  {
    TrimEach(Split(LowerAscii(keywords), ","))
  }

  /** Some piece contains some of the terms. */
  predicate SomePieceContains(pieces: seq<string>, terms: seq<string>) {
    exists i, j :: 0 <= i < |pieces| && 0 <= j < |terms| && Contains(pieces[i], terms[j])
  }

  /** Some piece is exactly one of the terms. */
  predicate SomePieceIsOneOf(pieces: seq<string>, terms: seq<string>) {
    exists i :: 0 <= i < |pieces| && pieces[i] in terms
  }

  /** The text contains some of the terms. */
  predicate HasAnyTerm(text: string, terms: seq<string>) {
    exists j :: 0 <= j < |terms| && Contains(text, terms[j])
  }

  /** `suggestTemplate(theme, keywords)`. */
  function SuggestTemplate(theme: string, keywords: string): (r: string)
    ensures r in TemplateKeys
  {
    Choose(LowerAscii(theme), KeywordList(keywords))
  }

  /** The cascade on the lower-cased theme and the trimmed keyword pieces, in the
      source's order: adult terms, then how-to, list, review, news and beginner, with
      how-to as the default. */
  function Choose(themeWords: string, keywordList: seq<string>): (r: string)
    ensures r in TemplateKeys
  {
    if SomePieceContains(keywordList, AdultTerms) || HasAnyTerm(themeWords, AdultTerms) then
      "adult_review"
    else if SomePieceIsOneOf(keywordList, HowToKeywords) ||
            Contains(themeWords, "方法") || Contains(themeWords, "やり方") || Contains(themeWords, "手順") then
      "howto"
    else if SomePieceIsOneOf(keywordList, ListicleKeywords) ||
            Contains(themeWords, "おすすめ") || Contains(themeWords, "まとめ") || Contains(themeWords, "ランキング") then
      "listicle"
    else if SomePieceIsOneOf(keywordList, ReviewKeywords) ||
            Contains(themeWords, "レビュー") || Contains(themeWords, "評価") || Contains(themeWords, "体験") then
      "review"
    else if SomePieceIsOneOf(keywordList, NewsKeywords) ||
            Contains(themeWords, "ニュース") || Contains(themeWords, "最新") || Contains(themeWords, "トレンド") then
      "news"
    else if SomePieceIsOneOf(keywordList, BeginnerKeywords) ||
            Contains(themeWords, "初心者") || Contains(themeWords, "入門") || Contains(themeWords, "基礎") then
      "beginner_guide"
    else
      "howto"
  }

  /** A selection rule as a table row: the key it yields, the keyword terms (matched
      by substring or by equality with a whole piece) and the theme terms. */
  datatype Rule = Rule(key: string, keywordTerms: seq<string>, bySubstring: bool, themeTerms: seq<string>)

  predicate RuleMatches(rule: Rule, themeWords: string, pieces: seq<string>) {
    (if rule.bySubstring then SomePieceContains(pieces, rule.keywordTerms)
     else SomePieceIsOneOf(pieces, rule.keywordTerms))
    || HasAnyTerm(themeWords, rule.themeTerms)
  }

  /** The selection rules in priority order. */
  const Rules: seq<Rule> := [
    Rule("adult_review", AdultTerms, true, AdultTerms),
    Rule("howto", HowToKeywords, false, ["方法", "やり方", "手順"]),
    Rule("listicle", ListicleKeywords, false, ["おすすめ", "まとめ", "ランキング"]),
    Rule("review", ReviewKeywords, false, ["レビュー", "評価", "体験"]),
    Rule("news", NewsKeywords, false, ["ニュース", "最新", "トレンド"]),
    Rule("beginner_guide", BeginnerKeywords, false, ["初心者", "入門", "基礎"])
  ]

  /** The key of the first matching rule, `howto` when none matches. */
  function FirstMatch(rules: seq<Rule>, themeWords: string, pieces: seq<string>): string {
    if rules == [] then "howto"
    else if RuleMatches(rules[0], themeWords, pieces) then rules[0].key
    else FirstMatch(rules[1..], themeWords, pieces)
  }

  /** First-match semantics: rule `i` decides when it matches and no earlier rule does. */
  lemma {:induction false} FirstMatchWins(rules: seq<Rule>, themeWords: string, pieces: seq<string>, i: nat)
    requires i < |rules| && RuleMatches(rules[i], themeWords, pieces)
    requires forall k :: 0 <= k < i ==> !RuleMatches(rules[k], themeWords, pieces)
    ensures FirstMatch(rules, themeWords, pieces) == rules[i].key
  {
    if i > 0 {
      assert !RuleMatches(rules[0], themeWords, pieces);
      FirstMatchWins(rules[1..], themeWords, pieces, i - 1);
    }
  }

  /** With no matching rule the default applies. */
  lemma {:induction false} FirstMatchDefault(rules: seq<Rule>, themeWords: string, pieces: seq<string>)
    requires forall k :: 0 <= k < |rules| ==> !RuleMatches(rules[k], themeWords, pieces)
    ensures FirstMatch(rules, themeWords, pieces) == "howto"
  {
    if rules != [] {
      assert !RuleMatches(rules[0], themeWords, pieces);
      FirstMatchDefault(rules[1..], themeWords, pieces);
    }
  }

  lemma HasAnyOfThree(text: string, a: string, b: string, c: string)
    ensures HasAnyTerm(text, [a, b, c]) <==> Contains(text, a) || Contains(text, b) || Contains(text, c)
  {
    var terms := [a, b, c];
    if Contains(text, a) { assert Contains(text, terms[0]); }
    if Contains(text, b) { assert Contains(text, terms[1]); }
    if Contains(text, c) { assert Contains(text, terms[2]); }
  }

  /** Rule `k` of the table is the `k`-th test of the cascade. */
  lemma RuleAdultTest(t: string, p: seq<string>)
    ensures RuleMatches(Rules[0], t, p) <==> (
      SomePieceContains(p, AdultTerms) || HasAnyTerm(t, AdultTerms))
  {
  }

  /** Rule 1 of the table is test 1 of the cascade. */
  lemma RuleHowToTest(t: string, p: seq<string>)
    ensures RuleMatches(Rules[1], t, p) <==> (
      SomePieceIsOneOf(p, HowToKeywords) ||
      Contains(t, "方法") || Contains(t, "やり方") || Contains(t, "手順"))
  {
    HasAnyOfThree(t, "方法", "やり方", "手順");
  }

  /** Rule 2 of the table is test 2 of the cascade. */
  lemma RuleListicleTest(t: string, p: seq<string>)
    ensures RuleMatches(Rules[2], t, p) <==> (
      SomePieceIsOneOf(p, ListicleKeywords) ||
      Contains(t, "おすすめ") || Contains(t, "まとめ") || Contains(t, "ランキング"))
  {
    HasAnyOfThree(t, "おすすめ", "まとめ", "ランキング");
  }

  /** Rule 3 of the table is test 3 of the cascade. */
  lemma RuleReviewTest(t: string, p: seq<string>)
    ensures RuleMatches(Rules[3], t, p) <==> (
      SomePieceIsOneOf(p, ReviewKeywords) ||
      Contains(t, "レビュー") || Contains(t, "評価") || Contains(t, "体験"))
  {
    HasAnyOfThree(t, "レビュー", "評価", "体験");
  }

  /** Rule 4 of the table is test 4 of the cascade. */
  lemma RuleNewsTest(t: string, p: seq<string>)
    ensures RuleMatches(Rules[4], t, p) <==> (
      SomePieceIsOneOf(p, NewsKeywords) ||
      Contains(t, "ニュース") || Contains(t, "最新") || Contains(t, "トレンド"))
  {
    HasAnyOfThree(t, "ニュース", "最新", "トレンド");
  }

  /** Rule 5 of the table is test 5 of the cascade. */
  lemma RuleBeginnerTest(t: string, p: seq<string>)
    ensures RuleMatches(Rules[5], t, p) <==> (
      SomePieceIsOneOf(p, BeginnerKeywords) ||
      Contains(t, "初心者") || Contains(t, "入門") || Contains(t, "基礎"))
  {
    HasAnyOfThree(t, "初心者", "入門", "基礎");
  }

  /** The cascade is the first-match reading of the rule table. */
  lemma ChooseIsFirstMatch(t: string, p: seq<string>)
    ensures Choose(t, p) == FirstMatch(Rules, t, p)
  {
    RuleAdultTest(t, p);
    if RuleMatches(Rules[0], t, p) {
      FirstMatchWins(Rules, t, p, 0);
      return;
    }
    RuleHowToTest(t, p);
    if RuleMatches(Rules[1], t, p) {
      FirstMatchWins(Rules, t, p, 1);
      return;
    }
    RuleListicleTest(t, p);
    if RuleMatches(Rules[2], t, p) {
      FirstMatchWins(Rules, t, p, 2);
      return;
    }
    RuleReviewTest(t, p);
    if RuleMatches(Rules[3], t, p) {
      FirstMatchWins(Rules, t, p, 3);
      return;
    }
    RuleNewsTest(t, p);
    if RuleMatches(Rules[4], t, p) {
      FirstMatchWins(Rules, t, p, 4);
      return;
    }
    RuleBeginnerTest(t, p);
    if RuleMatches(Rules[5], t, p) {
      FirstMatchWins(Rules, t, p, 5);
      return;
    }
    FirstMatchDefault(Rules, t, p);
  }

  /** `suggestTemplate` is the rule table read first-match on the lower-cased theme and
      the trimmed keyword pieces; with no matching rule it answers `howto`. */
  lemma SuggestIsFirstMatch(theme: string, keywords: string)
    ensures SuggestTemplate(theme, keywords) == FirstMatch(Rules, LowerAscii(theme), KeywordList(keywords))
  {
    ChooseIsFirstMatch(LowerAscii(theme), KeywordList(keywords));
  }

  /** Case of ASCII letters in the inputs never changes the choice. */
  lemma SuggestIgnoresCase(theme: string, keywords: string)
    ensures SuggestTemplate(LowerAscii(theme), LowerAscii(keywords)) == SuggestTemplate(theme, keywords)
  {
    LowerAsciiIdempotent(theme);
    LowerAsciiIdempotent(keywords);
  }

  /** An adult term in the theme, or in any keyword piece, selects the adult outline
      whatever else matches. */
  lemma AdultWins(theme: string, keywords: string, i: nat, j: nat)
    requires j < |AdultTerms|
    requires Contains(LowerAscii(theme), AdultTerms[j]) ||
      (i < |KeywordList(keywords)| && Contains(KeywordList(keywords)[i], AdultTerms[j]))
    ensures SuggestTemplate(theme, keywords) == "adult_review"
  {
    var t := LowerAscii(theme);
    var p := KeywordList(keywords);
    if !Contains(t, AdultTerms[j]) {
      assert SomePieceContains(p, AdultTerms);
    }
  }

  /** Without a match of any rule the default `howto` is chosen. */
  lemma SuggestDefault(theme: string, keywords: string)
    requires forall k :: 0 <= k < |Rules| ==> !RuleMatches(Rules[k], LowerAscii(theme), KeywordList(keywords))
    ensures SuggestTemplate(theme, keywords) == "howto"
  {
    SuggestIsFirstMatch(theme, keywords);
    FirstMatchDefault(Rules, LowerAscii(theme), KeywordList(keywords));
  }

  /** Theme "筋トレ方法" with the keyword pieces "筋トレ" and "初心者": the theme's 方法
      selects the how-to outline before the beginner keyword is considered. */
  lemma WorkoutExample()
    ensures Choose("筋トレ方法", ["筋トレ", "初心者"]) == "howto"
  {
    var theme := "筋トレ方法";
    var pieces := ["筋トレ", "初心者"];
    forall j | 0 <= j < |AdultTerms|
      ensures !Contains(theme, AdultTerms[j])
      ensures !Contains(pieces[0], AdultTerms[j]) && !Contains(pieces[1], AdultTerms[j])
    {
      FirstCharAbsent(theme, AdultTerms[j]);
      FirstCharAbsent(pieces[0], AdultTerms[j]);
      FirstCharAbsent(pieces[1], AdultTerms[j]);
    }
    assert theme == "筋トレ" + "方法" + "";
    ContainsMiddle("筋トレ", "方法", "");
  }

  /** Keyword pieces are compared whole for the non-adult rules: the piece "比較" selects
      the list outline ... */
  lemma ComparisonExample()
    ensures Choose("", ["比較"]) == "listicle"
  {
    forall j | 0 <= j < |AdultTerms| ensures !Contains("比較", AdultTerms[j]) {
      FirstCharAbsent("比較", AdultTerms[j]);
    }
    assert ["比較"][0] == ListicleKeywords[2];
  }

  /** ... while the piece "比較表", which only contains it, falls through to the default. */
  lemma ComparisonTableExample()
    ensures Choose("", ["比較表"]) == "howto"
  {
    forall j | 0 <= j < |AdultTerms| ensures !Contains("比較表", AdultTerms[j]) {
      FirstCharAbsent("比較表", AdultTerms[j]);
    }
  }

  // ---------------------------------------------------------------------------
  // Prompt

  /** The opening of the prompt, up to the outline. */
  function PromptHeader(t: Template, theme: string, keywords: string): string {
    Concat([
      "あなたは経験豊富なWebライターです。以下の雛形に従って高品質な記事を作成してください。\n\n【記事テーマ】: ",
      theme,
      "\n【キーワード】: ",
      keywords,
      "\n【記事形式】: ",
      t.name,
      "\n【目標文字数】: ",
      t.totalWordCount,
      "\n\n【記事構成・雛形】:\n"])
  }

  /** The count shown for a subsection pattern, `複数` when the outline gives none. */
  function CountText(sub: Subsection): (r: string)
    ensures r == "複数" <==> sub.count.None? || sub.count.value == "" || sub.count.value == "複数"
  {
    if sub.count.Some? && sub.count.value != "" then sub.count.value else "複数"
  }

  /** The line about a section's subsections: only the first pattern is named. */
  function SubsectionLine(s: Section): string {
    if s.subsections == [] then ""
    else Concat(["\n   - サブセクション: ", s.subsections[0].pattern, " (", CountText(s.subsections[0]), ")"])
  }

  /** The numbered entry for one section. */
  function SectionEntry(n: nat, s: Section): string {
    Concat([
      "\n", NatToString(n), ". ", s.title, " (", s.heading, ")\n   - 文字数: ", s.wordCount,
      "\n   - 内容タイプ: ", s.contentType, "\n   - 要件: ", Join(s.requirements, ", "),
      SubsectionLine(s)])
  }

  /** The entries of `ss`, numbered from `start`. */
  function SectionsText(ss: seq<Section>, start: nat): string {
    ConcatMap(ss, start, SectionEntry)
  }

  /** The SEO requirements and the fixed writing rules that close the prompt. */
  function PromptFooter(t: Template): string {
    Concat([
      "\n\n【SEO要件】:\n",
      Join(t.seoRequirements, "\n"),
      "\n\n【記事作成のルール】:\n" +
      "1. 各セクションは指定された文字数範囲で作成\n" +
      "2. 見出し構造(H1, H2, H3)を正確に守る\n" +
      "3. 読者にとって価値のある具体的な内容\n" +
      "4. 自然で読みやすい文章\n" +
      "5. キーワードを自然に含める\n" +
      "6. マークダウン形式で出力\n\n" +
      "それでは、この雛形に基づいて完全な記事を作成してください。" +
      "記事タイトル（# タイトル）から始めて、すべてのセクションを含む完成した記事を出力してください。"])
  }

  /** The whole prompt for an outline. */
  function PromptFor(t: Template, theme: string, keywords: string): string {
    PromptHeader(t, theme, keywords) + SectionsText(t.structure, 1) + PromptFooter(t)
  }

  /** `generateDetailedPrompt(templateName, theme, keywords)`: null exactly for a name
      outside the catalog, otherwise the prompt for that outline. */
  method GenerateDetailedPrompt(templateName: string, theme: string, keywords: string) returns (r: Option<string>)
    ensures r.None? <==> templateName !in TemplateKeys
    ensures r.Some? ==> r.value == PromptFor(GetTemplate(templateName).value, theme, keywords)
  {
    r := PromptFrom(Catalog(), templateName, theme, keywords);
  }

  /** The same lookup and prompt over a catalog laid out in key order. */
  method PromptFrom(catalog: seq<Template>, templateName: string, theme: string, keywords: string) returns (r: Option<string>)
    requires |catalog| == |TemplateKeys|
    ensures r.None? <==> templateName !in TemplateKeys
    ensures r.Some? ==> r.value == PromptFor(Lookup(catalog, templateName).value, theme, keywords)
  {
    var found := Lookup(catalog, templateName);
    if found.None? {
      return None;
    }
    var prompt := BuildPrompt(found.value, theme, keywords);
    return Some(prompt);
  }

  /** The prompt assembled as `generateDetailedPrompt` does: the header, then one entry
      per section appended in order, then the footer. */
  method BuildPrompt(template: Template, theme: string, keywords: string) returns (prompt: string)
    ensures prompt == PromptFor(template, theme, keywords)
  {
    var ss := template.structure;
    var header := PromptHeader(template, theme, keywords);
    prompt := header;
    var i := 0;
    while i < |ss|
      invariant 0 <= i <= |ss|
      invariant prompt == header + SectionsText(ss[..i], 1)
    {
      PromptStep(header, ss, i);
      prompt := prompt + SectionEntry(i + 1, ss[i]);
      i := i + 1;
    }
    assert ss[..i] == ss;
    prompt := prompt + PromptFooter(template);
  }

  /** Appending entry `i + 1` to the entries of the first `i` sections gives the entries of
      the first `i + 1`. */
  lemma PromptStep(header: string, ss: seq<Section>, i: nat)
    requires i < |ss|
    ensures header + SectionsText(ss[..i], 1) + SectionEntry(i + 1, ss[i]) == header + SectionsText(ss[..i + 1], 1)
  {
    assert ss[..i + 1] == ss[..i] + [ss[i]];
    ConcatMapAppend(ss[..i], [ss[i]], 1, SectionEntry);
    ConcatMapSingle(ss[i], i + 1, SectionEntry);
    AppendAssoc(header, SectionsText(ss[..i], 1), SectionEntry(i + 1, ss[i]));
  }

  /** Section `i` is rendered as entry number `i + 1`, after the entries of all earlier
      sections and before those of all later ones. */
  lemma SectionsInOrder(t: Template, i: nat)
    requires i < |t.structure|
    ensures SectionsText(t.structure, 1) ==
      SectionsText(t.structure[..i], 1) + SectionEntry(i + 1, t.structure[i]) + SectionsText(t.structure[i + 1..], i + 2)
  {
    ConcatMapAt(t.structure, 1, SectionEntry, i);
  }

  /** An entry carries the section's number, title, heading, word count, content type and
      its requirements joined with ", ". */
  lemma EntryMentions(n: nat, s: Section)
    ensures Contains(SectionEntry(n, s), NatToString(n))
    ensures Contains(SectionEntry(n, s), s.title)
    ensures Contains(SectionEntry(n, s), s.heading)
    ensures Contains(SectionEntry(n, s), s.wordCount)
    ensures Contains(SectionEntry(n, s), s.contentType)
    ensures Contains(SectionEntry(n, s), Join(s.requirements, ", "))
  {
    var parts := [
      "\n", NatToString(n), ". ", s.title, " (", s.heading, ")\n   - 文字数: ", s.wordCount,
      "\n   - 内容タイプ: ", s.contentType, "\n   - 要件: ", Join(s.requirements, ", "),
      SubsectionLine(s)];
    ConcatContainsPart(parts, 1);
    ConcatContainsPart(parts, 3);
    ConcatContainsPart(parts, 5);
    ConcatContainsPart(parts, 7);
    ConcatContainsPart(parts, 9);
    ConcatContainsPart(parts, 11);
  }

  /** For a section with subsections, the entry names the first subsection's pattern and
      its count (or `複数`); later subsections never reach the prompt. */
  lemma SubsectionMentions(n: nat, s: Section, later: seq<Subsection>)
    requires s.subsections != []
    ensures Contains(SectionEntry(n, s), s.subsections[0].pattern)
    ensures Contains(SectionEntry(n, s), CountText(s.subsections[0]))
    ensures SectionEntry(n, s.(subsections := s.subsections[..1] + later)) == SectionEntry(n, s)
  {
    var line := SubsectionLine(s);
    var lineParts := ["\n   - サブセクション: ", s.subsections[0].pattern, " (", CountText(s.subsections[0]), ")"];
    var parts := [
      "\n", NatToString(n), ". ", s.title, " (", s.heading, ")\n   - 文字数: ", s.wordCount,
      "\n   - 内容タイプ: ", s.contentType, "\n   - 要件: ", Join(s.requirements, ", "),
      line];
    ConcatContainsPart(parts, 12);
    ConcatContainsPart(lineParts, 1);
    ConcatContainsPart(lineParts, 3);
    ContainsTrans(SectionEntry(n, s), line, s.subsections[0].pattern);
    ContainsTrans(SectionEntry(n, s), line, CountText(s.subsections[0]));
    assert (s.subsections[..1] + later)[0] == s.subsections[0];
  }

  /** The header carries the theme, the keywords and the outline name. */
  lemma HeaderMentions(t: Template, theme: string, keywords: string)
    ensures Contains(PromptHeader(t, theme, keywords), theme)
    ensures Contains(PromptHeader(t, theme, keywords), keywords)
    ensures Contains(PromptHeader(t, theme, keywords), t.name)
  {
    var hp := [
      "あなたは経験豊富なWebライターです。以下の雛形に従って高品質な記事を作成してください。\n\n【記事テーマ】: ",
      theme,
      "\n【キーワード】: ",
      keywords,
      "\n【記事形式】: ",
      t.name,
      "\n【目標文字数】: ",
      t.totalWordCount,
      "\n\n【記事構成・雛形】:\n"];
    ConcatContainsPart(hp, 1);
    ConcatContainsPart(hp, 3);
    ConcatContainsPart(hp, 5);
  }

  /** The prompt carries the theme, the keywords, the outline name and every section's
      title. */
  lemma PromptMentions(t: Template, theme: string, keywords: string, i: nat)
    requires i < |t.structure|
    ensures Contains(PromptFor(t, theme, keywords), theme)
    ensures Contains(PromptFor(t, theme, keywords), keywords)
    ensures Contains(PromptFor(t, theme, keywords), t.name)
    ensures Contains(PromptFor(t, theme, keywords), t.structure[i].title)
  {
    var h := PromptHeader(t, theme, keywords);
    var body := SectionsText(t.structure, 1);
    var f := PromptFooter(t);
    var e := SectionEntry(1 + i, t.structure[i]);
    HeaderMentions(t, theme, keywords);
    ContainsBefore(h, body, theme);
    ContainsBefore(h + body, f, theme);
    ContainsBefore(h, body, keywords);
    ContainsBefore(h + body, f, keywords);
    ContainsBefore(h, body, t.name);
    ContainsBefore(h + body, f, t.name);
    ConcatMapContains(t.structure, 1, SectionEntry, i);
    EntryMentions(1 + i, t.structure[i]);
    ContainsTrans(body, e, t.structure[i].title);
    ContainsAfter(h, body, t.structure[i].title);
    ContainsBefore(h + body, f, t.structure[i].title);
  }

  // ---------------------------------------------------------------------------
  // Listing

  /** One row of `listTemplates()`. */
  datatype TemplateInfo = TemplateInfo(key: string, name: string, wordCount: string, sections: nat, description: string)

  /** The listing row for a catalog outline. */
  function InfoFor(key: string, t: Template): TemplateInfo {
    TemplateInfo(key, t.name, t.totalWordCount, |t.structure|,
      NatToString(|t.structure|) + "セクション構成、" + t.totalWordCount + "文字")
  }

  /** The listing of a catalog laid out in key order: one row per key, in key order,
      naming its outline and counting its sections. */
  function ListFrom(catalog: seq<Template>): (r: seq<TemplateInfo>)
    requires |catalog| == |TemplateKeys|
    ensures |r| == |TemplateKeys|
    ensures forall i :: 0 <= i < |r| ==>
      r[i].key == TemplateKeys[i] && r[i].name == catalog[i].name && r[i].sections == |catalog[i].structure|
  {
    seq(|TemplateKeys|, i requires 0 <= i < |TemplateKeys| => InfoFor(TemplateKeys[i], catalog[i]))
  }

  /** `listTemplates()`. */
  function ListTemplates(): seq<TemplateInfo> {
    ListFrom(Catalog())
  }

  /** The `i`-th key leads to the `i`-th outline. */
  lemma GetTemplateAt(i: nat)
    requires i < |TemplateKeys|
    ensures GetTemplate(TemplateKeys[i]) == Some(Catalog()[i])
  {
  }

  /** One listing row per catalog key, in catalog order, each naming the outline that
      `getTemplate` returns for its key and counting its sections. */
  lemma ListTemplatesRows(i: nat)
    requires i < |TemplateKeys|
    ensures |ListTemplates()| == |TemplateKeys|
    ensures ListTemplates()[i].key == TemplateKeys[i]
    ensures ListTemplates()[i].name == GetTemplate(TemplateKeys[i]).value.name
    ensures ListTemplates()[i].sections == |GetTemplate(TemplateKeys[i]).value.structure|
  {
    GetTemplateAt(i);
  }
}
