# Blog automation core, modelled in Dafny

This project models the deterministic core of a blog-automation system. That system writes Japanese blog articles with OpenAI, decorates them with products from the DMM affiliate catalog, and posts them to WordPress. A Next.js dashboard tracks the posts. The model covers these parts:

- the article-template catalog, the template selector and the prompt builder (`Templates`, templates.dfy);
- the configuration and license manager: itemised validation, the license-key format, the tier table, site selection, the daily article limit and feature lookup (`ConfigManagement`, config_manager.dfy);
- DMM product normalisation, the fallback dummy data, the product HTML blocks and the splice of a product section into an article (`DmmApi`, dmm_api.dfy);
- the article helpers of the first blog tool: configuration check, title extraction, character count, excerpt, ad block, status-to-error mapping, post payload and the create-and-publish orchestration (`BlogTool`, blog_tool.dfy);
- the article helpers of the second blog tool: default keywords, tags, `<h1>` title extraction, the review prompt, the product gallery, the XML-RPC client settings, the post payload and the license gating (`BlogToolV2`, blog_tool_v2.dfy);
- the dashboard's bounded post history, in its library form and in its page-local form (`PostHistory`, post_history.dfy);
- the dashboard's error utilities: the bounded error queue, error normalisation, friendly messages, severity and the two retry loops (`ErrorHandling`, error_handling.dfy);
- the dashboard page's own rules: the error classifier, the endpoint name, the post-count range and the timeout retry of article generation (`DashboardRules`, dashboard_rules.dfy);
- the product picker: the selection toggle and the guards of search and review generation (`ProductSelection`, product_selection.dfy);
- shared string and sequence helpers (`Strings`, strings.dfy). These cover substring search, split and join, ECMAScript whitespace trimming, decimal numerals and `Option`/`Result`.

Every call to OpenAI, DMM, WordPress or browser storage is an input of the model. Such an input is the call's outcome (`Completion`, `ApiAnswer`, `Reply`, `Attempt`, `SaveOutcome`, ...) or a function parameter. An object whose fields the source updates is a Dafny `class` whose methods state their new state (`ConfigManager`, `CloudBlogTool`, `BlogToolV2`, `PostHistoryManager`, `PageHistoryManager`, `LocalStorage`, `ErrorHandler`, `SelectionPanel`). The step-by-step loops of the source are methods with loops, each proved against a specification function: `Templates.BuildPrompt`, `ConfigManagement.CollectSiteProblems`, `DmmApi.AppendBoxes`, `BlogTool.GenerateAdContent`, `PostHistory.PostHistoryManager.GetStatsByCategory`, `ErrorHandling.WithRetry` and `ErrorHandling.SafeAsync`. The search through the message table in `getUserFriendlyMessage` is the recursive function `ErrorHandling.FirstKeyIn`, and the array methods `map`, `filter`, `find` and `findIndex` become recursive functions, `some` a quantified predicate. Strings are sequences of code points. A JavaScript value that is absent, `null`, `undefined` or `""` is read as `""` wherever the source only tests its truthiness.

## Model

| member | source | states |
|---|---|---|
| Templates.KeyIndex | functions/lib/templates.js:6-505 | a key has an index exactly when it is one of the six catalog keys, and the index points back at that key |
| Templates.Catalog | functions/lib/templates.js:6-505 | the catalog holds one outline per key, six in all |
| Templates.Lookup | functions/lib/templates.js:639-641 | looking a name up in a catalog finds an outline exactly for the six keys, and finds the outline stored under that key |
| Templates.GetTemplate | functions/lib/templates.js:639-641 | `getTemplate` answers an outline exactly for a catalog key, and null for any other name |
| Templates.GetTemplateAt | functions/lib/templates.js:639-641 | `getTemplate` of the i-th key is the i-th outline of the catalog |
| Templates.TrimEach | functions/lib/templates.js:515 | each keyword piece is trimmed, and no piece is added or lost |
| Templates.KeywordList | functions/lib/templates.js:515 | splitting the keywords on commas gives at least one piece, even for empty keywords |
| Templates.SuggestTemplate | functions/lib/templates.js:513-565 | the suggestion is always one of the six catalog keys |
| Templates.Choose | functions/lib/templates.js:519-564 | the cascade on the lower-cased theme and the keyword pieces always ends in a catalog key |
| Templates.FirstMatchWins | functions/lib/templates.js:519-560 | when rule i matches and no earlier rule does, the suggestion is rule i's key: the first match wins |
| Templates.FirstMatchDefault | functions/lib/templates.js:562-564 | when no rule matches, the suggestion is `howto` |
| Templates.HasAnyOfThree | functions/lib/templates.js:529 | testing the theme against three terms is the same as testing each term by substring |
| Templates.RuleAdultTest | functions/lib/templates.js:520-522 | the adult rule matches exactly when some keyword piece contains an adult term, or the theme contains one |
| Templates.RuleHowToTest | functions/lib/templates.js:528-529 | the howto rule matches exactly when a piece equals one of its five keywords, or the theme contains 方法, やり方 or 手順 |
| Templates.RuleListicleTest | functions/lib/templates.js:535-536 | the listicle rule matches exactly when a piece equals one of its keywords, or the theme contains おすすめ, まとめ or ランキング |
| Templates.RuleReviewTest | functions/lib/templates.js:542-543 | the review rule matches exactly when a piece equals one of its keywords, or the theme contains レビュー, 評価 or 体験 |
| Templates.RuleNewsTest | functions/lib/templates.js:549-550 | the news rule matches exactly when a piece equals one of its keywords, or the theme contains ニュース, 最新 or トレンド |
| Templates.RuleBeginnerTest | functions/lib/templates.js:556-557 | the beginner rule matches exactly when a piece equals one of its keywords, or the theme contains 初心者, 入門 or 基礎 |
| Templates.ChooseIsFirstMatch | functions/lib/templates.js:519-564 | the written-out cascade equals the first match over the rule table in the order adult, howto, listicle, review, news, beginner_guide |
| Templates.SuggestIsFirstMatch | functions/lib/templates.js:513-565 | `suggestTemplate` is the first match of the rule table on the lower-cased theme and the trimmed, lower-cased comma pieces |
| Templates.SuggestIgnoresCase | functions/lib/templates.js:514-515 | lower-casing the theme and the keywords first does not change the suggestion |
| Templates.AdultWins | functions/lib/templates.js:520-525 | if the theme or any keyword piece contains an adult term, the suggestion is `adult_review` whatever else is present |
| Templates.SuggestDefault | functions/lib/templates.js:562-564 | if no rule matches the theme and pieces, the suggestion is `howto` |
| Templates.WorkoutExample | functions/lib/templates.js:519-531 | theme 筋トレ方法 with pieces 筋トレ and 初心者 gives `howto`, not `beginner_guide` |
| Templates.ComparisonExample | functions/lib/templates.js:535 | the piece 比較 equals a listicle keyword and gives `listicle` |
| Templates.ComparisonTableExample | functions/lib/templates.js:535-564 | the piece 比較表 only contains 比較, so no keyword list matches it exactly and the default `howto` wins |
| Templates.CountText | functions/lib/templates.js:600 | the subsection count text is 複数 exactly when the count is missing, empty or already 複数 |
| Templates.GenerateDetailedPrompt | functions/lib/templates.js:574-618 | the prompt is null exactly when the name is not a catalog key; otherwise it is the full rendering of that outline |
| Templates.PromptFrom | functions/lib/templates.js:574-579 | the same decision against an explicit catalog: null exactly for an unknown name |
| Templates.BuildPrompt | functions/lib/templates.js:583-617 | the loop that appends one entry per section, in order, produces the header, every section entry and the footer |
| Templates.PromptStep | functions/lib/templates.js:593-602 | appending entry i+1 to the entries of the first i sections gives the entries of the first i+1 sections |
| Templates.SectionsInOrder | functions/lib/templates.js:593-602 | the section text is the earlier entries, then the entry numbered i+1 for section i, then the later entries |
| Templates.EntryMentions | functions/lib/templates.js:594-597 | a section's entry carries its number, label, heading, word count, content type and comma-joined requirements |
| Templates.SubsectionMentions | functions/lib/templates.js:599-601 | a section with subsections shows the first one's pattern and count, and the later subsections change nothing |
| Templates.HeaderMentions | functions/lib/templates.js:583-591 | the prompt header names the theme, the keywords and the outline's name |
| Templates.PromptMentions | functions/lib/templates.js:583-617 | the full prompt names the theme, the keywords, the outline's name and every section's label |
| Templates.ListFrom | functions/lib/templates.js:624-632 | the listing has one row per key, in key order, with that outline's name and its number of sections |
| Templates.ListTemplatesRows | functions/lib/templates.js:624-632 | `listTemplates` has six rows, and row i describes `getTemplate` of key i: same name, sections = structure length |
| ConfigManagement.SitesProblemsEmpty | functions/lib/config-manager.js:71-75 | the site loop reports nothing exactly when every site has a url, a user name and a password |
| ConfigManagement.ConfigProblemsEmpty | functions/lib/config-manager.js:56-90 | `validateConfig` collects no problem, and so does not raise, exactly when the configuration is complete |
| ConfigManagement.SitesProblemsAppend | functions/lib/config-manager.js:71-75 | the problems of one more site come after those of the earlier sites, numbered by the site's position |
| ConfigManagement.SiteProblemsMember | functions/lib/config-manager.js:72-74 | a site's report for a field is listed, under the site's own number, exactly when that field is missing |
| ConfigManagement.SitesProblemsListed | functions/lib/config-manager.js:71-75 | the report for field f of site i is listed exactly when site i lacks f |
| ConfigManagement.SitesProblemsNumbered | functions/lib/config-manager.js:71-75 | every per-site report carries a number no smaller than the first site's number |
| ConfigManagement.ConfigProblemsListSites | functions/lib/config-manager.js:71-75 | for site i, the url, user-name and password messages with number i+1 are listed exactly when that field is empty |
| ConfigManagement.CollectProblems | functions/lib/config-manager.js:56-82 | the step-by-step pushes collect license key, email, sites and OpenAI key problems in the source's order |
| ConfigManagement.PushIf | functions/lib/config-manager.js:60-65 | one conditional push adds the problem exactly when the value is missing |
| ConfigManagement.CollectSiteProblems | functions/lib/config-manager.js:71-75 | the `forEach` over the sites collects each site's problems, numbered from 1, in site order |
| ConfigManagement.PushSiteProblems | functions/lib/config-manager.js:72-74 | one site's three conditional pushes add its url, user-name and password problems in that order |
| ConfigManagement.Bullets | functions/lib/config-manager.js:86 | there is one bullet line per problem, in order, each `  - ` followed by the problem's message |
| ConfigManagement.ConfigErrorTextLists | functions/lib/config-manager.js:83-90 | the raised error text contains the message of every collected problem |
| ConfigManagement.LicenseTier | functions/lib/config-manager.js:100-101 | a key that passes the format test has a tier among LITE, PRO and ENT and is exactly `BAS-`, the tier and two dash-separated four-character blocks |
| ConfigManagement.SplitKey | functions/lib/config-manager.js:106 | splitting a key on dashes gives its four segments |
| ConfigManagement.KeyFormatOfParts | functions/lib/config-manager.js:100 | every key made of a known tier and two `[A-Z0-9]{4}` blocks passes the format test, with that tier |
| ConfigManagement.KeyFormatParts | functions/lib/config-manager.js:100 | every key passing the format test is made of its tier and two `[A-Z0-9]{4}` blocks and nothing else |
| ConfigManagement.LicenseType | functions/lib/config-manager.js:105-106 | the second dash-separated segment of a well-formed key is the tier the format test matched |
| ConfigManagement.MaskLicenseKey | functions/lib/config-manager.js:165-170 | the mask is `NOT SET` exactly for an empty key and `INVALID` exactly for a non-empty key of fewer than four segments; any other key is shown as its first two segments, `****` and its fourth segment, joined by dashes |
| ConfigManagement.MaskOfKey | functions/lib/config-manager.js:167-169 | a key of four dash-free segments is masked as its first, second and fourth segments with `****` in third place |
| ConfigManagement.GetFeaturesByType | functions/lib/config-manager.js:128-160 | PRO and ENT get their rows of the table, any other type gets the LITE row |
| ConfigManagement.TiersOrdered | functions/lib/config-manager.js:129-157 | a later tier's row allows at least what an earlier tier's row allows, and every row covers LITE |
| ConfigManagement.PaidTiersOnly | functions/lib/config-manager.js:129-159 | the DMM API, image generation and scheduling are available exactly for PRO and ENT |
| ConfigManagement.StatusFor | functions/lib/config-manager.js:105-119 | an accepted key gives a valid status of the key's tier, the configured email and that tier's features |
| ConfigManagement.IndexWithId | functions/lib/config-manager.js:179 | the search answers the first site with the id, or none when no site from the start has it |
| ConfigManagement.DefaultIndex | functions/lib/config-manager.js:183 | the search answers the first default site, or none when no site from the start is a default |
| ConfigManagement.SiteIn | functions/lib/config-manager.js:175-184 | with an id, the first site with that id or nothing; without one, the first default site, else the first site, and nothing for an empty list |
| ConfigManagement.LimitFor | functions/lib/config-manager.js:227-246 | no features: refused with no remaining value; otherwise allowed exactly when today+count ≤ the daily maximum, remaining = maximum − today, and a refusal carries the limit message |
| ConfigManagement.LoadResult | functions/lib/config-manager.js:16-51 | loading succeeds exactly for a parsed file whose configuration is complete and whose key is well formed, and then yields that configuration |
| ConfigManagement.ConfigManager.constructor | functions/lib/config-manager.js:7-11 | a new manager has no configuration and no license status |
| ConfigManagement.ConfigManager.LoadConfig | functions/lib/config-manager.js:16-51 | a missing or unparsable file changes nothing; a parsed one is kept, the first failing check is reported, and only a full success records the license status |
| ConfigManagement.ConfigManager.ValidateConfig | functions/lib/config-manager.js:56-91 | the itemised problems of the loaded configuration |
| ConfigManagement.ConfigManager.ValidateLicense | functions/lib/config-manager.js:96-123 | a key of the wrong format is refused and leaves the status unchanged; otherwise the tier's status is recorded and returned |
| ConfigManagement.ConfigManager.GetWordPressSite | functions/lib/config-manager.js:175-184 | no site is found in an empty list, and a found site is one of the configured sites |
| ConfigManagement.ConfigManager.GetOpenAIConfig | functions/lib/config-manager.js:196-201 | the model is never empty: the configured model, else `gpt-4o-mini`; the key is the configured one |
| ConfigManagement.ConfigManager.GetDMMConfig | functions/lib/config-manager.js:206-222 | without the license's DMM feature the answer is the refusal message; an enabled answer needs the feature and a configuration that enables it |
| ConfigManagement.ConfigManager.CheckArticleLimit | functions/lib/config-manager.js:227-255 | without a license nothing is allowed; with one, since today's count is 0, a count is allowed exactly when it is at most the daily maximum, and a refusal has a message |
| ConfigManagement.ConfigManager.HasFeature | functions/lib/config-manager.js:269-271 | false without a license or for an absent or falsy feature; otherwise the feature's own value |
| DmmApi.FormatItem | functions/lib/dmm-api.js:385-395 | a catalog item keeps its id and title and takes its description, price, affiliate URL, category and maker from the item's own fields; its image is the large image, else the small one |
| DmmApi.FormatProducts | functions/lib/dmm-api.js:384-396 | normalisation keeps the list's length and order, item by item |
| DmmApi.FormatProductsAppend | functions/lib/dmm-api.js:384-396 | normalising a concatenation normalises each part |
| DmmApi.DummyProducts | functions/lib/dmm-api.js:398-423 | the fallback is exactly two records, `dummy-001` and `dummy-002`, each with affiliate URL `#`, the placeholder image and a title that starts with the keyword |
| DmmApi.DummyDetails | functions/lib/dmm-api.js:425-443 | the fallback details keep the requested id, are titled `テスト商品 ` + id, cost 2,980円 and link to `#` |
| DmmApi.SearchProducts | functions/lib/dmm-api.js:10-41 | with no API id or a failed call the answer is the fallback for the keyword, else `test`; otherwise it is the normalised items |
| DmmApi.SearchFallback | functions/lib/dmm-api.js:14-40 | the fallback search gives two records linking to `#`, titled after the keyword, or after `test` when there is none |
| DmmApi.GetProductDetails | functions/lib/dmm-api.js:43-72 | the first item answered, or the fallback details when there is no API id, the call fails or nothing is found |
| DmmApi.CheapByDigits | functions/lib/dmm-api.js:344-346 | a price counts as cheap exactly when it contains 円 and its digits, read together, form a number below 3000 |
| DmmApi.FeaturesFor | functions/lib/dmm-api.js:333-352 | a product's own features are kept; otherwise the two default features, plus 手頃な価格 exactly when the price is cheap |
| DmmApi.ExtractFeatures | functions/lib/dmm-api.js:333-352 | the step-by-step pushes produce exactly those features |
| DmmApi.DummyPriceDigits | functions/lib/dmm-api.js:431 | the digits of the fallback price are 2980 |
| DmmApi.DummyPriceIsCheap | functions/lib/dmm-api.js:344-348 | the fallback price counts as cheap |
| DmmApi.DummyDetailsFeatures | functions/lib/dmm-api.js:333-352 | the fallback details get the two default features and 手頃な価格 |
| DmmApi.ReviewOf | functions/lib/dmm-api.js:82-95 | every review field but the image has a non-empty value; the image is empty exactly when neither image source is present; pros, cons and features are the fixed lists and the extracted features |
| DmmApi.PrepareReviewData | functions/lib/dmm-api.js:77-96 | a missing product is replaced by the fallback details for `test-001` before the fields are filled |
| DmmApi.ReviewPrecedence | functions/lib/dmm-api.js:83-89 | each field comes from its first present source, in the source's order, and otherwise from its literal default |
| DmmApi.ReviewIdempotent | functions/lib/dmm-api.js:82-95 | preparing an already prepared record changes no field except, possibly, the summary |
| DmmApi.SummaryNotIdempotent | functions/lib/dmm-api.js:381 | the summary is built from the raw title and category, so preparing twice changes it when those were empty |
| DmmApi.ImageBlock | functions/lib/dmm-api.js:112-115 | the image block is empty exactly when the image URL is, and otherwise shows that URL |
| DmmApi.FeatureBlock | functions/lib/dmm-api.js:142-148 | the feature list is empty exactly when there are no features, and otherwise lists every feature |
| DmmApi.CtaBlock | functions/lib/dmm-api.js:150-158 | the link block is empty exactly when the affiliate URL is empty or `#`, and otherwise links to it |
| DmmApi.ProductHtml | functions/lib/dmm-api.js:101-245 | a missing product gives the error box; a present one gives the box of its review data |
| DmmApi.BoxShowsBlocks | functions/lib/dmm-api.js:108-160 | the box shows the title heading, the image block, the feature block and the link block |
| DmmApi.ImageShown | functions/lib/dmm-api.js:112-115 | a product's box has an image exactly when it has an image URL or a large image |
| DmmApi.CtaShown | functions/lib/dmm-api.js:150-158 | a product's box has a link exactly when its first present affiliate URL is neither empty nor `#` |
| DmmApi.DummyHasNoCta | functions/lib/dmm-api.js:398-443 | no fallback product and no fallback detail record gets a link block |
| DmmApi.SectionHead | functions/lib/dmm-api.js:256-261 | the section header starts on a new line |
| DmmApi.Shown | functions/lib/dmm-api.js:263-267 | the number of boxes shown is the product count, capped by the limit, or by 3 when the limit is 0 |
| DmmApi.SectionNotFound | functions/lib/dmm-api.js:252-254 | the section is the fixed not-found paragraph exactly when there are no products |
| DmmApi.GenerateMultipleProductsHtml | functions/lib/dmm-api.js:250-295 | the method's `html +=` loop builds the specified section |
| DmmApi.AppendBoxes | functions/lib/dmm-api.js:263-267 | the `forEach` appends the boxes of the first limit (or 3 when the limit is 0) products, in order, and no others |
| DmmApi.SectionIgnoresRest | functions/lib/dmm-api.js:263-267 | products after the first limit (or 3 when the limit is 0) do not change the section |
| DmmApi.SectionShowsEach | functions/lib/dmm-api.js:263-267 | each of the first limit (or 3 when the limit is 0) products has its box in the section |
| DmmApi.SectionShowsRendered | functions/lib/dmm-api.js:263-267 | each shown product's rendering appears in the section, whatever the renderer |
| DmmApi.RenderedOrder | functions/lib/dmm-api.js:263-267 | the renderings of the shown products appear in product order |
| DmmApi.SectionOrder | functions/lib/dmm-api.js:256-287 | the section is the header, the earlier boxes, box i, the later shown boxes and the footer, in that order |
| DmmApi.InsertProductsIntoArticle | functions/lib/dmm-api.js:300-330 | the article with the section for at most three products spliced in at the requested position |
| DmmApi.MiddleSplice | functions/lib/dmm-api.js:307-314 | with more than three `</p>` parts, the block goes between the first floor(n/2) parts and the rest, with one extra `</p>`; the result is 4 characters longer than article and block together |
| DmmApi.EndSplice | functions/lib/dmm-api.js:315-320 | the block goes right after the last `</h2>`; the text before and after is unchanged, and the length is the sum of both |
| DmmApi.OtherwiseAppended | functions/lib/dmm-api.js:321-324 | any other position, a middle split into at most three parts, or an end without `</h2>` appends the block |
| BlogTool.Settings | functions/lib/blog-tool.js:15-30 | the tool's configuration takes the four credentials and the affiliate id from the environment, with the fixed model and token limit |
| BlogTool.Required | functions/lib/blog-tool.js:40-45 | exactly four values are required |
| BlogTool.Missing | functions/lib/blog-tool.js:47 | the missing items are exactly the required items whose value is empty |
| BlogTool.Keys | functions/lib/blog-tool.js:50 | the key list has one key per item, in item order |
| BlogTool.ValidateConfig | functions/lib/blog-tool.js:39-57 | the check fails exactly when one of the four values is empty, and its message lists the missing keys joined by `, ` |
| BlogTool.MissingKeysInOrder | functions/lib/blog-tool.js:40-50 | the missing keys appear in the fixed order api key, base URL, user name, password |
| BlogTool.MissingStep | functions/lib/blog-tool.js:47-50 | the first item's key is listed exactly when its value is empty, ahead of the others' keys |
| BlogTool.KeysAppend | functions/lib/blog-tool.js:50 | the keys of a concatenation are the keys of each part |
| BlogTool.Without | functions/lib/blog-tool.js:416-424 | removing characters never lengthens the text, leaves none of them, and changes nothing when there are none |
| BlogTool.EstimateWordCount | functions/lib/blog-tool.js:416-424 | the estimate never exceeds the input length |
| BlogTool.PlainTextCount | functions/lib/blog-tool.js:416-424 | a text without tags, markup characters or whitespace counts all its characters |
| BlogTool.WordCountAppend | functions/lib/blog-tool.js:416-424 | the counts of two tag-free texts add up |
| BlogTool.PlainCountAppend | functions/lib/blog-tool.js:419-421 | without tags, the count after removing marks and whitespace is additive |
| BlogTool.SpacesDoNotCount | functions/lib/blog-tool.js:421 | a whitespace character adds nothing to the count |
| BlogTool.NoTags | functions/lib/blog-tool.js:418 | removing tags changes nothing in a text without `<` |
| BlogTool.WithoutAppend | functions/lib/blog-tool.js:419 | removing characters from a concatenation removes them from each part |
| BlogTool.NewlinesToSpaces | functions/lib/blog-tool.js:390 | every newline becomes a space and every other character is kept in place |
| BlogTool.Collapse | functions/lib/blog-tool.js:391 | the shape of the result: never longer, the first character kept or made a space, no two whitespace characters adjacent, and all whitespace left a plain space |
| BlogTool.CollapseKeepsText | functions/lib/blog-tool.js:391 | collapsing keeps every character other than whitespace, in order |
| BlogTool.CollapseWord | functions/lib/blog-tool.js:391 | a word without whitespace passes through unchanged, followed by the collapse of the rest |
| BlogTool.CollapseRun | functions/lib/blog-tool.js:391 | a whole run of whitespace, up to the next other character or the end, becomes a single space; with CollapseWord this fixes the result on every text |
| BlogTool.CollapseSpaced | functions/lib/blog-tool.js:391 | text whose whitespace is single spaces, none adjacent, is left unchanged |
| BlogTool.GenerateExcerpt | functions/lib/blog-tool.js:386-398 | the excerpt is at most maxLength+3 characters, and is the cleaned text cut at maxLength plus `...` exactly when the cleaned text is longer |
| BlogTool.CleanTextShape | functions/lib/blog-tool.js:388-392 | the cleaned text is single-spaced and neither starts nor ends with whitespace |
| BlogTool.SqueezeShape | functions/lib/blog-tool.js:390-392 | newlines to spaces, runs collapsed and the ends trimmed leave a single-spaced text without outer whitespace |
| BlogTool.TrimmedShape | functions/lib/blog-tool.js:392 | trimming a single-spaced text keeps it single-spaced and removes outer whitespace |
| BlogTool.NewlinesNoMarks | functions/lib/blog-tool.js:389-390 | turning newlines into spaces brings no markup character back |
| BlogTool.CollapseSingleSpaced | functions/lib/blog-tool.js:391 | collapsing whitespace gives a single-spaced text |
| BlogTool.CollapseNoMarks | functions/lib/blog-tool.js:389-391 | collapsing whitespace brings no markup character back |
| BlogTool.CleanTextOfClean | functions/lib/blog-tool.js:388-393 | text that is already clean (no `<`, no mark, single-spaced, no space at either end) is its own cleaned text |
| BlogTool.ExcerptCut | functions/lib/blog-tool.js:395-397 | a cut excerpt is exactly maxLength+3 long, starts with the cleaned text's first maxLength characters and ends in `...` |
| BlogTool.LineEnd | functions/lib/blog-tool.js:407 | the end of the line is the first line terminator from the line start, or the end of the text |
| BlogTool.FindTitle | functions/lib/blog-tool.js:407 | the search finds the first line, from the start position on, that begins with `# ` and has text, or reports there is none |
| BlogTool.ExtractTitleFromContent | functions/lib/blog-tool.js:405-409 | a title is found exactly when some line has the `# text` form |
| BlogTool.TitleOfFirstTitleLine | functions/lib/blog-tool.js:405-409 | the title exists exactly when a title line exists, and it is the trimmed text of the first one |
| BlogTool.ArticleTitle | functions/lib/blog-tool.js:151 | the article title is the extracted title when it is non-empty, and the theme otherwise |
| BlogTool.LeadingTitle | functions/lib/blog-tool.js:405-409 | an article that starts with `# text` on its first line is titled with that text, trimmed |
| BlogTool.LineEndAt | functions/lib/blog-tool.js:407 | the line end is the first line terminator |
| BlogTool.ImageLine | functions/lib/blog-tool.js:241-243 | the image line is empty exactly when there is no image, and otherwise shows the image URL |
| BlogTool.LinkLine | functions/lib/blog-tool.js:247-250 | the link line is empty exactly when there is no affiliate URL, and otherwise shows the URL and the link text |
| BlogTool.GenerateAdContent | functions/lib/blog-tool.js:221-260 | the `forEach` that appends one block per product builds the specified ad content |
| BlogTool.AppendAdBlock | functions/lib/blog-tool.js:234-253 | one loop step appends the product's block |
| BlogTool.AdContentEmpty | functions/lib/blog-tool.js:222-229 | the ad content is empty exactly when there are no products, and otherwise starts with the header for its kind |
| BlogTool.AdBlocksInOrder | functions/lib/blog-tool.js:233-254 | the content is the header, the blocks of the earlier products, product i's block, the later blocks and the footer, in that order |
| BlogTool.AdHeadingShown | functions/lib/blog-tool.js:234-237 | each product's `### i. title` heading is shown, and a product without a title is called 商品 followed by its 1-based number |
| BlogTool.HeadingInBlock | functions/lib/blog-tool.js:238 | each block contains its heading |
| BlogTool.AdDisclaimer | functions/lib/blog-tool.js:252-257 | non-empty ad content ends with the affiliate disclaimer exactly when it is adult, and ends with the rule otherwise |
| BlogTool.AdultEnding | functions/lib/blog-tool.js:255-257 | adult ad content ends with the disclaimer |
| BlogTool.PlainEnding | functions/lib/blog-tool.js:250-256 | other ad content ends with the last block's rule |
| BlogTool.BlockEndsWithRule | functions/lib/blog-tool.js:252 | each block ends with the `---` rule |
| BlogTool.RuleIsNotDisclaimer | functions/lib/blog-tool.js:250-256 | a text ending with the rule does not end with the disclaimer |
| BlogTool.AdImageOnlyWithImage | functions/lib/blog-tool.js:237-243 | a block has an image line exactly when the product has a large or small image, and then shows it |
| BlogTool.AdLinkOnlyWithUrl | functions/lib/blog-tool.js:247-250 | a block has a link line exactly when the product has an affiliate URL; the link text names the title for adult content and is 詳細を見る otherwise |
| BlogTool.OpenAiMessagesDistinct | functions/lib/blog-tool.js:106-114 | the four OpenAI error kinds have four different messages |
| BlogTool.WordPressMessagesDistinct | functions/lib/blog-tool.js:327-335 | the four WordPress error kinds have four different messages |
| BlogTool.GenerateContent | functions/lib/blog-tool.js:64-116 | a completed call yields its content; a failed one yields the message for its error kind |
| BlogTool.OpenAiStatuses | functions/lib/blog-tool.js:106-114 | status 401 is the authentication error, 429 the rate limit, 402 the credit error, anything else the generic error with the call's message |
| BlogTool.WordPressStatuses | functions/lib/blog-tool.js:327-335 | status 401 is the authentication error, 403 the permission error, 404 the URL error, anything else the generic error with the call's message |
| BlogTool.PostFor | functions/lib/blog-tool.js:286-300 | the payload is `future` with a date exactly when a schedule is given, `publish` otherwise, with `categories=[category]`, the tags, the converted content and the excerpt of the markdown |
| BlogTool.BuildPostData | functions/lib/blog-tool.js:286-300 | building the object and then setting the date gives that payload |
| BlogTool.PublishToWordPress | functions/lib/blog-tool.js:271-337 | the payload is sent; a successful post yields its id and link, a failed one the message for its error kind |
| BlogTool.ChosenTemplate | functions/lib/blog-tool.js:132-137 | without a template name, the suggested catalog key; with one, that name |
| BlogTool.ArticleOutcome | functions/lib/blog-tool.js:125-171 | an article is produced exactly when the chosen template exists and generation succeeds; an unknown template and a failed generation each give their error; a produced article has the title, template, count and inputs |
| BlogTool.SuggestedTemplateExists | functions/lib/blog-tool.js:132-141 | without a template name the template always exists, so only generation can fail |
| BlogTool.FirstKeywordBeforeComma | functions/lib/blog-tool.js:447 | the search keyword is the text before the first comma, trimmed, or the whole trimmed text when there is no comma |
| BlogTool.GetDMMProducts | functions/lib/blog-tool.js:179-213 | no affiliate id or a failed call gives no products; otherwise the items answered |
| BlogTool.CloudBlogTool.Init | functions/lib/blog-tool.js:11-31 | the tool holds the configuration read from the environment |
| BlogTool.CloudBlogTool.GenerateArticleWithTemplate | functions/lib/blog-tool.js:125-171 | the result is the specified article or error, and no prompt is built exactly when the chosen template is unknown |
| BlogTool.CloudBlogTool.RequestPrompt | functions/lib/blog-tool.js:140-143 | the prompt request finds no prompt exactly when the template name is not a catalog key |
| BlogTool.CloudBlogTool.CreateAndPublishArticle | functions/lib/blog-tool.js:436-502 | a failed article is reported as a failure, with no search and no post; otherwise the first keyword is searched, the ad content is adult exactly for `adult_review`, the post carries article plus ads, and the report is the post's id and link or a failure, never a raise |
| BlogTool.NewCloudBlogTool | functions/lib/blog-tool.js:11-34 | construction fails exactly when the configuration check fails, with its message; otherwise the new tool holds the configuration |
| BlogToolV2.GetDefaultKeyword | functions/lib/blog-tool-v2.js:281-293 | a category is returned unchanged exactly when it is not one of the known categories, whose keywords come from the fixed table |
| BlogToolV2.DefaultKeywordsOfCategories | functions/lib/blog-tool-v2.js:282-291 | the eight known categories and their eight keywords |
| BlogToolV2.NonEmpty | functions/lib/blog-tool-v2.js:357 | the filter keeps exactly the non-empty tags and never lengthens the list |
| BlogToolV2.GenerateTags | functions/lib/blog-tool-v2.js:355-358 | the tags are keyword, category, 2025年 and おすすめ in that order, with empty ones dropped, so no tag is empty |
| BlogToolV2.TextStart | functions/lib/blog-tool-v2.js:351 | the heading's text starts right after the first `>` that closes the opening `<h1` tag |
| BlogToolV2.FindClose | functions/lib/blog-tool-v2.js:351 | the lazy match ends at the first `</h1>`, in either case, on the same line, and fails when a line break comes first |
| BlogToolV2.FindH1First | functions/lib/blog-tool-v2.js:351 | when the pattern first matches at position p, the search answers that match |
| BlogToolV2.FindH1None | functions/lib/blog-tool-v2.js:351 | the search fails exactly when the pattern matches nowhere |
| BlogToolV2.TitleOfLeftmostMatch | functions/lib/blog-tool-v2.js:350-353 | the title is the leftmost match's text with its tags removed |
| BlogToolV2.NoTitleWithoutMatch | functions/lib/blog-tool-v2.js:350-353 | there is no title exactly when the pattern matches nowhere |
| BlogToolV2.TitleOfHeading | functions/lib/blog-tool-v2.js:350-353 | an article with a tag-free prefix and a one-line `<h1>` or `<H1>` heading is titled with the heading's text |
| BlogToolV2.FindCloseAcross | functions/lib/blog-tool-v2.js:351 | over text with no `<` and no line break, the match runs to the closing tag |
| BlogToolV2.TitleFallback | functions/lib/blog-tool-v2.js:127 | an article without any tag is titled `{keyword}の最新情報` |
| BlogToolV2.TitleFromHeading | functions/lib/blog-tool-v2.js:350-353 | the heading's text is the title, and an empty heading falls back to `{keyword}の最新情報` |
| BlogToolV2.Text | functions/lib/blog-tool-v2.js:314-316 | a present value is shown, an absent or empty one gives the default |
| BlogToolV2.ProductList | functions/lib/blog-tool-v2.js:166 | a single product becomes a one-item list, and a list is kept as it is |
| BlogToolV2.ToneLine | functions/lib/blog-tool-v2.js:307 | the tone line is empty exactly when no tone is given, and otherwise reads `トーン: ` and the tone |
| BlogToolV2.PromptMentions | functions/lib/blog-tool-v2.js:295-309 | the article prompt names the keyword and the category, and the tone when one is given |
| BlogToolV2.PromptEntries | functions/lib/blog-tool-v2.js:312-317 | one product entry per product, in order, each numbered by its position |
| BlogToolV2.ReviewPromptListsProducts | functions/lib/blog-tool-v2.js:311-331 | the review prompt quotes the keyword and contains every product's entry |
| BlogToolV2.ImagePart | functions/lib/blog-tool-v2.js:340 | a card has an image exactly when the product has an image URL, and then shows it with the title as its alt text |
| BlogToolV2.DescriptionPart | functions/lib/blog-tool-v2.js:342 | a card has a description paragraph exactly when the product has a description |
| BlogToolV2.CardShows | functions/lib/blog-tool-v2.js:338-344 | each card shows its numbered heading, the price line, the link target and the image when there is one |
| BlogToolV2.GalleryShowsCards | functions/lib/blog-tool-v2.js:333-348 | the gallery contains every product's card |
| BlogToolV2.ClientFor | functions/lib/blog-tool-v2.js:63-76 | the client uses the URL's host and path, its own port if it names one and otherwise 443 for https and 80 for anything else; it is the TLS client exactly for https |
| BlogToolV2.CategoryId | functions/lib/blog-tool-v2.js:239 | a non-zero category id is the one the site configures for that name |
| BlogToolV2.PostUrlParts | functions/lib/blog-tool-v2.js:258 | the post URL starts with the site URL and ends with the post id |
| BlogToolV2.PostUrlInjective | functions/lib/blog-tool-v2.js:258 | different post ids on one site give different post URLs |
| BlogToolV2.ArticleOptions.constructor | functions/lib/blog-tool-v2.js:81 | the options object holds the caller's keyword, flags, status and tone |
| BlogToolV2.BlogToolV2.Init | functions/lib/blog-tool-v2.js:19-50 | the tool's fields come from the chosen site, the OpenAI settings, the catalog settings and the parsed endpoint |
| BlogToolV2.BlogToolV2.GenerateArticle | functions/lib/blog-tool-v2.js:81-145 | a refused limit check raises its message before any prompt is built; otherwise the image flag stays on only with the license feature, and the article has the extracted title or the fallback, the content with the CTA, the tags and the status or `publish` |
| BlogToolV2.BlogToolV2.GenerateProductReview | functions/lib/blog-tool-v2.js:150-214 | the catalog flag stays on only when the catalog is enabled; a refused limit check raises; otherwise the title is `【keyword】おすすめ商品{n}選` for the n products, and the content is the reply, the gallery and the CTA |
| BlogToolV2.BlogToolV2.PostToWordPress | functions/lib/blog-tool-v2.js:219-275 | the call carries the site's credentials and the payload: status or `publish`, category name or `その他`, and category ids exactly when the site configures a non-zero id; success yields the id, `siteUrl/?p=id`, the title and the site |
| BlogToolV2.NewBlogToolV2 | functions/lib/blog-tool-v2.js:8-58 | a failed load raises; then a missing site, then a missing OpenAI key, then an endpoint that does not parse each raise; otherwise the new tool is built from the manager's answers |
| PostHistory.LocalStorage.constructor | blog-dashboard/src/lib/post-history.tsx:21 | the browser store starts with the given items |
| PostHistory.Decode | blog-dashboard/src/lib/post-history.tsx:21-29 | nothing stored, an unparsable value or a value that is not an array reads as the empty history; a stored array reads as its records |
| PostHistory.Take | blog-dashboard/src/lib/post-history.tsx:39 | `slice(0, n)` keeps the first min(n, length) entries, in order |
| PostHistory.FindIndex | blog-dashboard/src/lib/post-history.tsx:56 | `findIndex` answers -1 exactly when no record has the id, and otherwise the first record that has it |
| PostHistory.Apply | blog-dashboard/src/lib/post-history.tsx:59-63 | the new status is set first and the additional data override it; without additional data only the status changes |
| PostHistory.Updated | blog-dashboard/src/lib/post-history.tsx:55-64 | only the first record with the id is changed, every other record is kept, and a missing id leaves the history unchanged |
| PostHistory.CountsWithin | blog-dashboard/src/lib/post-history.tsx:82-88 | the published and failed records of a category are together at most its records |
| PostHistory.StatsCount | blog-dashboard/src/lib/post-history.tsx:73-92 | a category has an entry exactly when some record has it, and its counters are the number of its records, published records and failed records |
| PostHistory.StatsWithinTotal | blog-dashboard/src/lib/post-history.tsx:82-88 | per category, success + failed ≤ total |
| PostHistory.Categories | blog-dashboard/src/lib/post-history.tsx:78-80 | the categories listed are exactly those with an entry |
| PostHistory.CategoriesDistinct | blog-dashboard/src/lib/post-history.tsx:78-80 | no category is listed twice |
| PostHistory.SumTotalsAgree | blog-dashboard/src/lib/post-history.tsx:82 | sums of totals over the same keys agree when the totals agree |
| PostHistory.SumTotalsBump | blog-dashboard/src/lib/post-history.tsx:82 | raising one category's total by one raises the sum by one |
| PostHistory.TotalsSumToLength | blog-dashboard/src/lib/post-history.tsx:73-92 | the per-category totals sum to the length of the history |
| PostHistory.CountStatus | blog-dashboard/src/lib/post-history.tsx:122 | the number of records with a status is at most the history length |
| PostHistory.SuccessRate | blog-dashboard/src/lib/post-history.tsx:118-124 | 100 for an empty history; otherwise 100·published/n rounded half up, which lies in 0..100 |
| PostHistory.RoundedPercent | blog-dashboard/src/lib/post-history.tsx:123 | the rounded percentage of s out of n is at most 100 and is the nearest integer to 100·s/n, halves rounded up |
| PostHistory.DivisionBounds | blog-dashboard/src/lib/post-history.tsx:123 | the quotient behind the rounding is bounded as the rounding needs |
| PostHistory.Escape | blog-dashboard/src/lib/post-history.tsx:140 | doubling the quotes never shortens a title |
| PostHistory.UnescapeEscape | blog-dashboard/src/lib/post-history.tsx:140 | un-doubling the quotes of an escaped title gives the title back |
| PostHistory.EscapeKeeps | blog-dashboard/src/lib/post-history.tsx:140 | escaping neither adds nor removes any character other than `"` |
| PostHistory.Rows | blog-dashboard/src/lib/post-history.tsx:138-145 | one comma-joined row per record, in history order |
| PostHistory.RowOneLine | blog-dashboard/src/lib/post-history.tsx:138-147 | a record with no newline in its fields gives a row with no newline |
| PostHistory.CsvLines | blog-dashboard/src/lib/post-history.tsx:134-148 | the export splits into the header line followed by one line per record, 1 + n lines in all |
| PostHistory.TitleFieldRoundTrip | blog-dashboard/src/lib/post-history.tsx:140 | the quoted title field, unquoted and un-doubled, is the title |
| PostHistory.PostHistoryManager.constructor | blog-dashboard/src/lib/post-history.tsx:13-15 | the manager works on the given store, in a browser or not |
| PostHistory.PostHistoryManager.GetHistory | blog-dashboard/src/lib/post-history.tsx:17-30 | outside a browser the history is empty; inside it is the decoded value under `blog_post_history` |
| PostHistory.PostHistoryManager.Save | blog-dashboard/src/lib/post-history.tsx:41-45 | the records are stored when the write succeeds in a browser, and the store is unchanged otherwise |
| PostHistory.PostHistoryManager.AddPost | blog-dashboard/src/lib/post-history.tsx:32-48 | the new record is returned with the current timestamp, and the stored list becomes the new record followed by the old history, cut to 100 |
| PostHistory.PostHistoryManager.UpdatePostStatus | blog-dashboard/src/lib/post-history.tsx:50-71 | the stored list changes only when the id is found and the write succeeds, to the history with only that record updated |
| PostHistory.PostHistoryManager.GetStatsByCategory | blog-dashboard/src/lib/post-history.tsx:73-92 | the loop over the history computes the per-category statistics of the stored history |
| PostHistory.PostHistoryManager.GetSuccessRate | blog-dashboard/src/lib/post-history.tsx:118-124 | the success rate of the stored history: at most 100, and 100 when it is empty |
| PostHistory.PostHistoryManager.ClearHistory | blog-dashboard/src/lib/post-history.tsx:126-132 | the key is removed from the browser store, and the history then reads as empty |
| PostHistory.AddPostBounded | blog-dashboard/src/lib/post-history.tsx:39 | the stored list never exceeds 100 records, starts with the new record and continues with the first 99 old ones |
| PostHistory.PageHistoryManager.constructor | blog-dashboard/src/app/page.tsx:88-90 | the page's manager works on the given store |
| PostHistory.PageHistoryManager.GetHistory | blog-dashboard/src/app/page.tsx:92-108 | the decoded value under `postHistory`, or the empty history |
| PostHistory.PageHistoryManager.SaveHistory | blog-dashboard/src/app/page.tsx:110-121 | the first 100 records are stored; on a quota failure the first 50 are stored instead, and if that write fails too the error escapes; other failures change nothing |
| PostHistory.PageHistoryManager.AddPost | blog-dashboard/src/app/page.tsx:123-128 | the new record, stamped with the current time, goes first and the list is saved as above |
| PostHistory.PageHistoryManager.UpdatePostStatus | blog-dashboard/src/app/page.tsx:130-137 | a missing id changes nothing; otherwise only the first matching record is updated and the list is saved as above |
| PostHistory.PageHistoryManager.GetSuccessRate | blog-dashboard/src/app/page.tsx:158-163 | the page's success rate: at most 100, and 100 for an empty history |
| PostHistory.PageHistoryManager.ClearHistory | blog-dashboard/src/app/page.tsx:165-167 | the key is removed, and the history then reads as empty |
| ErrorHandling.NormalizeError | blog-dashboard/src/lib/error-handling.ts:62-72 | an Error is kept as it is; a string or an object with a message becomes a plain Error with that text; anything else becomes the unknown-error Error |
| ErrorHandling.AsError | blog-dashboard/src/lib/error-handling.ts:198 | a thrown Error is kept; any other value becomes a plain Error carrying its text |
| ErrorHandling.StringsNormalizeAsTheyConvert | blog-dashboard/src/lib/error-handling.ts:62-72 | for a thrown string, normalising and converting agree, and the message is the string itself |
| ErrorHandling.FirstKeyIn | blog-dashboard/src/lib/error-handling.ts:88-92 | the index of the first table key the message contains, and -1 exactly when it contains none |
| ErrorHandling.FriendlyMessage | blog-dashboard/src/lib/error-handling.ts:77-95 | the text paired with the first key the message contains, in the table's order, or the generic failure text when it contains none |
| ErrorHandling.GenericOnlyWithoutKey | blog-dashboard/src/lib/error-handling.ts:77-95 | the generic failure text is given exactly when the message contains none of the seven keys |
| ErrorHandling.NetworkBeforeTimeout | blog-dashboard/src/lib/error-handling.ts:79-80 | a message containing both Network Error and Timeout gets the network text, since that key is tried first |
| ErrorHandling.SeverityOf | blog-dashboard/src/lib/error-handling.ts:100-112 | an application error is never high; a plain error is medium or high, medium exactly when its message mentions Network or Timeout; critical exactly for an application error with a status of 500 or more |
| ErrorHandling.AppSeverityBands | blog-dashboard/src/lib/error-handling.ts:101-104 | an application error is medium exactly for a status from 400 to 499, and low exactly without a status or with one below 400 |
| ErrorHandling.UserMessage | blog-dashboard/src/lib/error-handling.ts:29-35 | an application error shows its own message, a plain error its friendly message, and any other thrown value the unexpected-error text |
| ErrorHandling.ReportOf | blog-dashboard/src/lib/error-handling.ts:41-57 | the report holds the normalised error, its severity, the given context and time, and is marked handled |
| ErrorHandling.Newest | blog-dashboard/src/lib/error-handling.ts:119-122 | the last n elements, or all of them when there are fewer, as a suffix of the list |
| ErrorHandling.SliceFromEnd | blog-dashboard/src/lib/error-handling.ts:163 | a positive limit keeps the newest that many, a negative one drops that many from the front |
| ErrorHandling.ErrorHandler.constructor | blog-dashboard/src/lib/error-handling.ts:7-12 | the queue starts empty |
| ErrorHandling.ErrorHandler.LogError | blog-dashboard/src/lib/error-handling.ts:117-122 | the report is appended and the queue then holds the newest 100 reports |
| ErrorHandling.ErrorHandler.HandleError | blog-dashboard/src/lib/error-handling.ts:24-36 | the report of the error is logged as above and the user message of the thrown value is returned |
| ErrorHandling.ErrorHandler.GetErrorHistory | blog-dashboard/src/lib/error-handling.ts:162-164 | no limit or 0 gives the whole queue; a positive limit gives the newest that many; a negative one drops that many from the front |
| ErrorHandling.ErrorHandler.ClearErrorHistory | blog-dashboard/src/lib/error-handling.ts:169-171 | the queue becomes empty |
| ErrorHandling.QueueKeepsOrder | blog-dashboard/src/lib/error-handling.ts:117-122 | after logging, the queue ends with the new report and is preceded by the newest 99 earlier ones, in order |
| ErrorHandling.WithRetry | blog-dashboard/src/lib/error-handling.ts:388-422 | a limit below 1 calls nothing and throws undefined; otherwise 1 to limit calls, each earlier one threw and was allowed a retry; it returns exactly when the last call succeeded, else rethrows that call's error because the limit was reached or the retry was declined; the waits are the initial delay, doubled per attempt when backing off |
| ErrorHandling.DefaultRetrySchedule | blog-dashboard/src/lib/error-handling.ts:397-402 | with the defaults and a function that always throws, three calls are made with waits of 1000 and 2000 ms, and the third error is rethrown |
| ErrorHandling.SafeAsync | blog-dashboard/src/lib/error-handling.ts:179-218 | a negative retry count calls nothing and throws undefined; otherwise up to retries+1 calls with waits of the retry delay times 2 to the attempt; a success returns its value and reports nothing; when every call fails the last error is handled once, logged in the queue, and the fallback is returned or the error rethrown |
| DashboardRules.FirstDigitFrom | blog-dashboard/src/app/page.tsx:75 | the first index from i holding a digit, or -1 exactly when none does |
| DashboardRules.FirstNumber | blog-dashboard/src/app/page.tsx:75 | the first run of digits in the text, absent exactly when the text has no digit |
| DashboardRules.FirstNumberAfter | blog-dashboard/src/app/page.tsx:75 | a digit-free prefix followed by digits yields exactly those digits |
| DashboardRules.PageErrorMessage | blog-dashboard/src/app/page.tsx:62-84 | a non-Error gives the unexpected-error text; a message with fetch gives the network text; otherwise a timeout message is shown as it is; any other replacement is one of the three status texts and only for an HTTP Error message with a number |
| DashboardRules.FailedToFetchIsFetch | blog-dashboard/src/app/page.tsx:68 | a message with Failed to fetch already contains fetch, so the second test adds nothing |
| DashboardRules.HttpDigitsMessage | blog-dashboard/src/app/page.tsx:74-80 | an HTTP Error message with status digits 404, 500 or 503 gets its status text, any other status keeps the message |
| DashboardRules.StatusText | blog-dashboard/src/app/page.tsx:76-78 | the decimal text of a status equals that of 404, 500 or 503 exactly when the status is that code |
| DashboardRules.HttpStatusMessage | blog-dashboard/src/app/page.tsx:372-373 | the error of a failed response with status s is shown as the text for 404, 500 or 503, or as HTTP Error: s otherwise |
| DashboardRules.KnownCodes | blog-dashboard/src/app/page.tsx:76-78 | the decimal texts of 404, 500 and 503 |
| DashboardRules.Capitalize | blog-dashboard/src/app/page.tsx:364 | the same length, the first character upper-cased and the rest unchanged |
| DashboardRules.FunctionName | blog-dashboard/src/app/page.tsx:362-364 | random maps to generateRandomArticle; any other category to generate, the capitalised category and Article |
| DashboardRules.FunctionNameInjective | blog-dashboard/src/app/page.tsx:362-364 | two categories other than random that start in lower case get different endpoint names |
| DashboardRules.CapitalRandomCollides | blog-dashboard/src/app/page.tsx:362-364 | the category Random gets the same endpoint name as random |
| DashboardRules.AcceptedCount | blog-dashboard/src/app/page.tsx:217-221 | a count is accepted only when the text parses to an integer from 1 to 20, and then it is that integer |
| DashboardRules.CountRoundTrip | blog-dashboard/src/app/page.tsx:217-221 | the decimal text of any count from 1 to 20 is accepted as that count |
| DashboardRules.LoadedCount | blog-dashboard/src/app/page.tsx:217-221 | a saved count that is accepted replaces the current one; otherwise the current one stays; a count in range stays in range |
| DashboardRules.EditedCount | blog-dashboard/src/app/page.tsx:796-801 | an accepted input replaces the count; any other input leaves it; a count in range stays in range |
| DashboardRules.BatchAllowed | blog-dashboard/src/app/page.tsx:429-432 | a batch goes ahead exactly for a count from 1 to 20 |
| DashboardRules.InputsAllowBatch | blog-dashboard/src/app/page.tsx:217-221 | a count set only by loading and editing never trips the batch guard |
| DashboardRules.TimeoutFor | blog-dashboard/src/app/page.tsx:366 | 90000 ms exactly on a retry, 60000 ms exactly on the first attempt |
| DashboardRules.Failure | blog-dashboard/src/app/page.tsx:372-390 | a reply counts as a failure unless the response is ok and reports success |
| DashboardRules.Retries | blog-dashboard/src/app/page.tsx:394-399 | a retry is offered only on the first attempt and only for a timeout message |
| DashboardRules.GenerateArticle | blog-dashboard/src/app/page.tsx:361-416 | one or two requests, the first with the timeout for its attempt; a success ends with the posted article; a failure that is not retried marks the record failed with the page's message; a retry, only for a timeout, confirmed and while mounted, repeats once with the 90000 ms timeout and ends with that request: the posted article on success, otherwise the record marked failed with its message |
| ProductSelection.WithoutId | blog-dashboard/src/components/ProductSelectionUI.tsx:65 | the filtered list is no longer than the selection |
| ProductSelection.WithoutIdMembers | blog-dashboard/src/components/ProductSelectionUI.tsx:65 | the filtered list holds exactly the entries with another id, so none with the given id |
| ProductSelection.WithoutAbsentId | blog-dashboard/src/components/ProductSelectionUI.tsx:65 | filtering out an id no entry has changes nothing |
| ProductSelection.WithoutAppend | blog-dashboard/src/components/ProductSelectionUI.tsx:65 | filtering a concatenation filters each part |
| ProductSelection.Toggle | blog-dashboard/src/components/ProductSelectionUI.tsx:61-70 | a selected id is filtered out; otherwise the product is appended |
| ProductSelection.ToggleFlips | blog-dashboard/src/components/ProductSelectionUI.tsx:61-70 | after a toggle the id is selected exactly when it was not before; a new product comes last after the earlier selection |
| ProductSelection.ToggleKeepsOthers | blog-dashboard/src/components/ProductSelectionUI.tsx:64-65 | deselecting keeps every entry with another id and only those |
| ProductSelection.ToggleTwice | blog-dashboard/src/components/ProductSelectionUI.tsx:61-70 | toggling an unselected product twice gives the selection back |
| ProductSelection.ToggleTwiceSelected | blog-dashboard/src/components/ProductSelectionUI.tsx:61-70 | toggling a selected product twice removes its entries and puts it once at the end |
| ProductSelection.SearchError | blog-dashboard/src/components/ProductSelectionUI.tsx:34-53 | an error text, never empty, unless the response is ok and has no error field |
| ProductSelection.ReviewError | blog-dashboard/src/components/ProductSelectionUI.tsx:96-117 | an error text, never empty, unless the response is ok and has no error field |
| ProductSelection.SelectionPanel.constructor | blog-dashboard/src/components/ProductSelectionUI.tsx:7-12 | every field starts empty or false |
| ProductSelection.SelectionPanel.SearchProducts | blog-dashboard/src/components/ProductSelectionUI.tsx:15-58 | a blank query sets the prompt error and sends nothing; otherwise the request is made, a failure clears the products and shows the error, a success shows the products and their count |
| ProductSelection.SelectionPanel.Search | blog-dashboard/src/components/ProductSelectionUI.tsx:21-57 | a failure clears the products and shows the error; a success shows the products, or none when absent, and the found message; loading ends false |
| ProductSelection.SelectionPanel.ToggleProductSelection | blog-dashboard/src/components/ProductSelectionUI.tsx:61-70 | the selection becomes its toggle and nothing else changes |
| ProductSelection.SelectionPanel.GenerateReview | blog-dashboard/src/components/ProductSelectionUI.tsx:73-120 | an empty selection sets the prompt error and sends nothing; otherwise the selection, the query and dmm are sent; a failure keeps the selection and shows the error; a success clears the selection (line 109) and shows the post id when there is one |

## Left out

- Network calls (OpenAI, DMM, WordPress XML-RPC and REST, the Firebase endpoints, `fetch` and `fetchWithTimeout`) are not performed: each call's answer is an input of the member that makes it, as a reply value or a function from the attempt to its outcome.
- Timeouts, `AbortController`, `setTimeout`, `delay`, `debounce` and `throttle` are left out; the retry loops return the list of waits they would make instead of waiting.
- `safeParallel` and `safeApiCall` in `blog-dashboard/src/lib/error-handling.ts` (lines 223-335) are left out: the first is concurrent, the second wraps `fetch`.
- The file reads and writes of `loadConfig` and `updateConfig` are left out: `LoadConfig` takes the parsed file (or its absence) as an input, and `updateConfig` (a file write) is not modelled.
- `functions.config()` and `process.env` lookups become the `Settings` value given to the blog tool.
- The MD5 checksum that `validateLicense` computes (functions/lib/config-manager.js:109-110) is a foreign crypto call; the license is judged by its format and type only.
- `generateRating` and `formatRating` (functions/lib/dmm-api.js:369-378) use `Math.random` and floating point; no product carries a rating and the rating line of the product box is not rendered.
- The `<style>` blocks after each product box and section are left out; the HTML is modelled for its structure and text.
- `convertMarkdownToHtml` (functions/lib/blog-tool.js:344-378) and the OpenChat call-to-action module are parameters of the members that use them, with no properties assumed.
- String lengths count code points, while JavaScript counts UTF-16 code units; the two agree for text without characters outside the Basic Multilingual Plane.
- `toLowerCase` and `toUpperCase` are modelled on ASCII letters only; other letters are left unchanged.
- Lookups in the template catalog, the category maps and other object literals do not model keys inherited from `Object.prototype` (such as `toString`).
- `getTodayPostCount` and `getMonthlyPostCount` (both history managers) depend on the clock and are left out; timestamps are inputs.
- `getSystemInfo` (functions/lib/blog-tool.js:508-521) reports the environment and is left out.
- `getAllWordPressSites` only returns the configured list and has no property beyond that.
- `saveArticleHistory` (functions/lib/blog-tool-v2.js:360-363) only logs and is left out.
- The Basic-auth header of the WordPress REST call and the exact text of the prompts sent to OpenAI by `generateContent` are left out.
- BlogTool.CloudBlogTool.RequestPrompt: states only whether a prompt is found for the chosen name; the prompt's text, which only feeds the OpenAI call (an input of the model), is not stated.
- `initXmlRpcClient` takes the parsed URL as a parameter; the port is kept as the URL's port text, and a missing port becomes 443 for https and 80 otherwise.
- The license check in the v2 constructor always passes once the configuration loaded, so the model has no branch for it.
- Logging to the console, `sendToErrorTracking` and the `NODE_ENV` switch are left out.
- `getCurrentUserId` (blog-dashboard/src/lib/error-handling.ts:154-157) is left out, so reports carry no user id.
- `ErrorHandler.getInstance` builds one shared instance; the model passes that instance to `SafeAsync` explicitly.
- `AppError` comes from `@/types`, which is not part of this model; it is modelled as an error with a message and an optional status code.
- `JSON.parse` of the stored history is abstracted: the stored value is either a list of records or something else (`Stored`), and "not an array" or a parse failure both give the empty history.
- JavaScript's distinction between `""`, `null` and `undefined` is only kept where the source tests it; elsewhere "" stands for an absent string.
- The React state beyond the fields modelled, `isGenerating`, notifications and rendering are left out.
- DashboardRules.GenerateArticle: the history side effects of `generateArticle` are not stated. On a retry the first temporary record stays pending, because only the record of the repeated attempt gets a final status.
- The dashboard's endpoint name is not injective over all category texts: `Random` and `random` give the same name (`DashboardRules.CapitalRandomCollides`), so injectivity is stated for lower-case initials only.
- PostHistory.SuccessRate: rounds the exact ratio. The source rounds the floating-point value of `(s / n) * 100`, which can fall just below a half where the exact value is a half (for example 57 published out of 200), and then gives one less.
- PostHistory.CsvLines: the line count 1 + n is stated for fields that contain no newline; a field with a newline adds lines to the text, inside quotes or not.
- PostHistory.PostHistoryManager.ExportToCsv and PostHistory.PageHistoryManager.ExportToCsv carry no contract of their own; both return `ExportCsv` of the history, whose properties are `CsvLines`, `RowOneLine` and `TitleFieldRoundTrip`.
- `clearHistory` outside a browser: the library manager's `removeItem` call fails without `window` and the error is only logged, so the model leaves the storage unchanged there (the history reads as empty anyway).
- When the DMM search succeeds with zero results, the code returns the empty list rather than the dummy data; the model follows the code.
- The worked examples of the template selector are stated on keyword lists already lower-cased and split, rather than on the raw keyword text.
- DmmApi.Shown: the limit is a natural number, so a negative `options.limit` (for which the source shows no box) is not expressed; the only caller in the module passes 3.
- DmmApi.PrepareReviewData: applying it twice keeps every field except `review_summary`, which it rebuilds from the raw title and category (`SummaryNotIdempotent`).
