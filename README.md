# AI news verifier: a Dafny model of the verification core

The AI news verifier is a web service. A user submits a news claim; the
service gathers related articles from several news providers and answers
with a verdict, a credibility score from 0 to 100 and a list of evidence
lines. When an AI model is configured and answers, its verdict is used:
**TRUE**, **FALSE** or **UNCERTAIN**. Otherwise a rule-based scorer answers
**TRUE** or **FALSE**:
- a fixed table of factual statements is checked first: days, years and
  months, known-false and known-true statements;
- otherwise the scorer counts sensational and misinformation words and
  classifies the articles as refuting, supporting or neutral;
- it also weighs the number of sources, how many are reliable outlets, how
  recent they are, and the claim's typography.

A translation endpoint tries an AI translator, then DeepL, then the public
MyMemory service. The front end keeps the last ten verifications.

The model has one module per part of the system:

| module | file | models |
|---|---|---|
| `Wrappers` | wrappers.dfy | `Option` |
| `Text` | text.dfy | the JavaScript string operations used: ASCII `toLowerCase`/`toUpperCase`, `includes`, `split(' ')`, `split(/\s+/)`, `trim() === ''`, `join`, capitalisation, decimal printing |
| `Patterns` | patterns.dfy | the regular-expression fragments the factual table uses and `RegExp.test` |
| `Articles` | articles.dfy | the article record, `slice(0, n)`, the order-keeping de-duplication by url |
| `MockNews` | mock_news.dfy | `generateMockArticles` |
| `Context` | context.dfy | `extractKeywords`, `analyzeArticleContext` |
| `FactCheck` | fact_check.dfy | `checkFactualClaims` |
| `Verdicts` | verdicts.dfy | the three verdicts |
| `Credibility` | credibility.dfy | `analyzeCredibility` |
| `NewsFetch` | news_fetch.dfy | `fetchNewsArticles` |
| `AiService` | ai_service.dfy | the key check and reply normalisation of `verifyClaimWithAI` |
| `VerifyNews` | verify_news.dfy | the `verifyNews` handler |
| `Translation` | translation.dfy | `translateText` |
| `History` | history.dfy | `addToHistory` |

The source's imperative parts are Dafny methods with loops, proved equal to
a specification function:
- the fact-check loops;
- the credibility scorer, which updates `score`, `warnings` and `details`
  rule by rule;
- the provider-by-provider gathering of articles;
- the mock article loops;
- the article-context loop;
- the AI reply normalisation.

The source's pure parts (translation, history) are functions. Lemmas about
the specification functions state what the source promises.

The environment is passed in as parameters, because the model has no clock,
network or random source:
- the clock: the weekday, month and year, and `now` in milliseconds;
- the providers' replies, already mapped to articles;
- the AI adapter's reply;
- the random draws of the mock generator;
- the API keys.

## Model

| member | source | states |
|---|---|---|
| Text.ToLowerProperties | backend/controllers/newsController.js:485 | lower-casing gives a text with no capital, is idempotent, keeps exactly the lower-case texts unchanged and gives the same result after upper-casing |
| Text.ToUpperFixed | backend/controllers/newsController.js:610 | upper-casing leaves a word unchanged exactly when it has no lower-case letter |
| Text.CountContained | backend/controllers/newsController.js:517-529 | the count is the number of listed words the text includes: at most the list length, and positive exactly when some word is included |
| Text.SplitSpaces | backend/controllers/newsController.js:334 | `split(/\s+/)` gives at least one piece; no piece holds white space; the pieces together spell the text without its white space; only the first and last piece can be empty, and the first is not when the text opens with a word |
| Text.SplitSpacesNoSpace | backend/controllers/newsController.js:334 | a text without white space is a single piece |
| Text.SplitSpacesSeparator | backend/controllers/newsController.js:334 | a run of white space splits a text into the pieces before it followed by the pieces after it |
| Text.SplitOn | backend/controllers/translationController.js:60 | `split(c)` gives at least one piece, none holding `c`; the first piece is a prefix of the text, followed by `c` when shorter |
| Text.SplitOnJoin | backend/controllers/translationController.js:60 | joining the pieces with `c` gives the text back |
| Text.SplitOnSeparator | backend/controllers/newsController.js:610 | an occurrence of `c` splits a text into the pieces before it followed by the pieces after it |
| Text.SplitOnAbsent | backend/controllers/newsController.js:610 | a text without the separator splits into itself alone |
| Text.NatToStringInjective | backend/controllers/newsController.js:284 | distinct numbers print differently, so the numbered mock urls differ |
| Text.DigitsValueOfNatToString | backend/controllers/newsController.js:406 | printing a number gives digits only, and reading them back with `parseInt` gives the number |
| Patterns.TestLiteral | backend/controllers/newsController.js:386-390 | a one-literal pattern tests exactly substring inclusion |
| Patterns.SpacesGreedy | backend/controllers/newsController.js:403 | `\s*` followed by a non-space pattern matches exactly when the pattern matches after the leading white space |
| Patterns.FourDigitsMatch | backend/controllers/newsController.js:403 | `\d{4}` matches exactly when the first four characters are digits |
| Articles.Take | backend/controllers/newsController.js:260 | `slice(0, n)` is the prefix of length min(length, n) |
| Articles.FindIndex | backend/controllers/newsController.js:256 | `findIndex` by url: the first position holding the url, or past the end when there is none |
| Articles.Dedup | backend/controllers/newsController.js:255-257 | the de-duplicated articles are no more than the input and repeat no url; each one is the first article with its url; they keep the order of first occurrences; no url is lost |
| Articles.DistinctUrlsPrefix | backend/controllers/newsController.js:260 | a prefix of a list without repeated urls has none either |
| MockNews.ClassifyQuery | backend/controllers/newsController.js:265-272 | a query is suspicious exactly when it includes a misinformation keyword, sensational exactly when it includes a sensational keyword and no misinformation keyword |
| MockNews.MockUrlInjective | backend/controllers/newsController.js:284 | two numbered urls of one class are equal only for the same number |
| MockNews.MockArticles | backend/controllers/newsController.js:264-329 | one or two articles for a suspicious query, three for a sensational one, five otherwise; no url repeats |
| MockNews.MockListDistinct | backend/controllers/newsController.js:284-320 | the articles of one class never repeat a url |
| MockNews.GenerateMockArticles | backend/controllers/newsController.js:264-329 | the generator's loops return exactly the specified mock list |
| MockNews.PushMockArticles | backend/controllers/newsController.js:317-328 | one branch's push loop builds that class's list in push order |
| Context.KeepKeywords | backend/controllers/newsController.js:335 | the kept words are exactly the input words longer than three characters that are not stop words, in input order, each as often as in the input |
| Context.ExtractKeywords | backend/controllers/newsController.js:332-336 | every keyword is lower-case, longer than three characters, not a stop word and free of white space; every such word of the text is kept, in order |
| Context.Classify | backend/controllers/newsController.js:353-368 | an article is refuting exactly when it has a refuting word; supporting exactly when it has no refuting word but a supporting word and a keyword; neutral exactly when it has a keyword but neither kind of word; unrelated exactly when it has neither a refuting word nor a keyword |
| Context.StancesPartition | backend/controllers/newsController.js:347-368 | every article falls into exactly one of the four stances |
| Context.TallyBound | backend/controllers/newsController.js:343-370 | supporting + refuting + neutral never exceeds the article count |
| Context.AnalyzeArticleContext | backend/controllers/newsController.js:339-371 | the loop's three counters equal the specified tally |
| FactCheck.LeadThenYearSome | backend/controllers/newsController.js:403 | the year is captured at a position exactly when one of the leading phrases is followed by `\s*` and four digits |
| FactCheck.LeadsThenYearMatch | backend/controllers/newsController.js:403 | capturing the year at a position agrees with the year regular expression matching there |
| FactCheck.ClaimedYearFromSome | backend/controllers/newsController.js:404 | `match` from a position finds a year exactly when the expression matches at some later position |
| FactCheck.ClaimedYearMatches | backend/controllers/newsController.js:403-405 | a year is captured exactly when the year expression tests true on the text |
| FactCheck.Rules | backend/controllers/newsController.js:385-477 | the table order: seven weekday rules, the year rule, twelve month rules, fourteen known-false statements, five known-true statements |
| FactCheck.Fire | backend/controllers/newsController.js:390-475 | a rule that fires always reports a factual result |
| FactCheck.FirstSomeAt | backend/controllers/newsController.js:385-479 | the first report in the list decides the search |
| FactCheck.FirstSomeNone | backend/controllers/newsController.js:479 | the search finds nothing exactly when no rule reports |
| FactCheck.FirstMatchWins | backend/controllers/newsController.js:385-477 | the earliest rule that fires decides the fact check |
| FactCheck.NotFactualIffNoRule | backend/controllers/newsController.js:479 | a claim is non-factual exactly when no rule of the table fires |
| FactCheck.DayClaimVerdict | backend/controllers/newsController.js:385-400 | the first weekday claimed decides; it is true exactly when it is today |
| FactCheck.YearClaimVerdict | backend/controllers/newsController.js:403-415 | without a weekday claim, a captured year decides; it is true exactly when it is the current year |
| FactCheck.MonthClaimVerdict | backend/controllers/newsController.js:418-430 | without weekday or year claims, the first month named decides; it is true exactly when it is the current month |
| FactCheck.KnownFalseVerdict | backend/controllers/newsController.js:433-459 | without date claims, the first known-false statement matched gives a false result with its correction |
| FactCheck.KnownTrueVerdict | backend/controllers/newsController.js:461-477 | without date claims or known-false matches, the first known-true statement matched gives a true result with its confirmation |
| FactCheck.CheckFactualClaims | backend/controllers/newsController.js:374-480 | the early-return loops compute the first-match result of the table |
| FactCheck.CheckDays | backend/controllers/newsController.js:385-400 | a weekday report is the final answer; with none, the answer is decided from the year rule on |
| FactCheck.CheckYear | backend/controllers/newsController.js:403-415 | a year report is the final answer; with none, the answer is decided from the month rules on |
| FactCheck.CheckMonths | backend/controllers/newsController.js:418-430 | a month report is the final answer; with none, the answer is decided from the known-false statements on |
| FactCheck.CheckKnownFalse | backend/controllers/newsController.js:433-459 | a known-false report is the final answer; with none, the answer is decided from the known-true statements on |
| FactCheck.CheckKnownTrue | backend/controllers/newsController.js:461-479 | a known-true report is the final answer; with none, the claim is not factual |
| Credibility.ReliableCount | backend/controllers/newsController.js:579-581 | the count is the number of positions holding an article from a reliable outlet |
| Credibility.RecentCount | backend/controllers/newsController.js:595-599 | the count is the number of positions holding an article at most seven days old |
| Credibility.NoLowerCaseWordIsAllCaps | backend/controllers/newsController.js:610 | a claim that is one word longer than three characters with no lower-case letter, a bare year included, trips the ALL-CAPS test |
| Credibility.AllCapsWordInClaim | backend/controllers/newsController.js:610 | such a word anywhere in the claim, between spaces or at either end, trips the ALL-CAPS test, so "Election results 2024" does |
| Credibility.Clamp | backend/controllers/newsController.js:624 | the clamped score lies in [0,100] and is unchanged inside it |
| Credibility.SumAppend | backend/controllers/newsController.js:531-620 | the score change of two runs of adjustments is the sum of their changes |
| Credibility.WarningsAppend | backend/controllers/newsController.js:531-620 | the warnings of two runs are those of the first then the second |
| Credibility.DetailsAppend | backend/controllers/newsController.js:531-620 | the details of two runs are those of the first then the second |
| Credibility.RunAccumulates | backend/controllers/newsController.js:487-620 | applying adjustments adds their deltas to the score and appends their warnings and their details to separate lists, each in order |
| Credibility.RunAtMostOne | backend/controllers/newsController.js:531-620 | a rule yielding at most one adjustment changes the state by that one step |
| Credibility.RunAppend | backend/controllers/newsController.js:531-620 | applying two runs one after the other equals applying them together |
| Credibility.RunRules | backend/controllers/newsController.js:531-620 | applying the eight rule groups section by section reaches the state of all adjustments at once |
| Credibility.ScoreAndVerdict | backend/controllers/newsController.js:492-642 | every score lies in [0,100]; the verdict is TRUE exactly when the score is at least 50 and never UNCERTAIN |
| Credibility.FactualShortCircuit | backend/controllers/newsController.js:492-511 | a factual match decides alone: the articles and the clock play no part, there are three lines starting with the fact-check message, and the score is 98/TRUE or 2/FALSE |
| Credibility.SumOfRules | backend/controllers/newsController.js:531-620 | the total score change is the sum of the eight rules' changes |
| Credibility.SumAtMostOne | backend/controllers/newsController.js:531-620 | the change of at most one adjustment is its delta, or none |
| Credibility.RuleGains | backend/controllers/newsController.js:531-620 | the largest gain of each rule: 15 for the source count, 25 for reliable sources, 10 for recency, none for the others |
| Credibility.SumDeltasAtMost50 | backend/controllers/newsController.js:531-624 | the adjustments add at most 50, so the upper clamp never binds and the score is max(0, 50 + total) |
| Credibility.NoArticlesScored | backend/controllers/newsController.js:564-606 | with no articles, no reliable and no recent ones, the score is at most 20 and the verdict FALSE |
| Credibility.NoArticlesIsFalse | backend/controllers/newsController.js:549-642 | a non-factual claim without articles scores at most 20 and is FALSE |
| Credibility.AnalyzeCredibility | backend/controllers/newsController.js:483-642 | the imperative scorer returns the specified analysis: the fact-check short circuit, else the rule-based score |
| Credibility.ScoreByEvidence | backend/controllers/newsController.js:514-642 | measuring the claim and its articles and then scoring gives the specified rule-based analysis |
| Credibility.CountMatches | backend/controllers/newsController.js:517-529 | the `forEach` counter equals the number of listed words the text includes |
| Credibility.KeywordPenalties | backend/controllers/newsController.js:531-542 | the sensational and misinformation sections change the running state exactly as their rules say |
| Credibility.ContextPenalty | backend/controllers/newsController.js:549-561 | the article-context section changes the state exactly as its rule says, and only when there are articles |
| Credibility.SourceCountAdjustment | backend/controllers/newsController.js:564-576 | the source-count section changes the state exactly as its rule says |
| Credibility.ReliabilityAdjustment | backend/controllers/newsController.js:583-592 | the reliable-source section changes the state exactly as its rule says |
| Credibility.RecencyAdjustment | backend/controllers/newsController.js:601-607 | the recency section changes the state exactly as its rule says |
| Credibility.StylePenalties | backend/controllers/newsController.js:610-621 | the ALL-CAPS and punctuation sections change the state exactly as their rules say |
| Credibility.ApplyScoreTable | backend/controllers/newsController.js:531-642 | the section-by-section score, clamped, with warnings before details and the 50 threshold, is the specified analysis |
| NewsFetch.AskedInOrder | backend/controllers/newsController.js:125-218 | NewsAPI when its key is usable, then GNews, NewsData and the Guardian, each only when configured and while fewer than five articles are in |
| NewsFetch.GatheredAreContributions | backend/controllers/newsController.js:148-240 | the gathered articles are the asked providers' contributions concatenated in asking order |
| NewsFetch.AskConcat | backend/controllers/newsController.js:148-240 | one provider's turn keeps the gathered articles equal to the contributions of the providers asked |
| NewsFetch.EarlyExit | backend/controllers/newsController.js:157-218 | five or more NewsAPI articles stop the gathering: no other provider is asked |
| NewsFetch.GuardianAskedIffFewerThanFive | backend/controllers/newsController.js:218 | the Guardian is asked exactly when fewer than five articles are in after the first three providers |
| NewsFetch.FetchShape | backend/controllers/newsController.js:249-260 | the result is never empty and repeats no url; gathered results hold at most ten; with nothing gathered it is the mock list |
| NewsFetch.FetchKeepsFirstOccurrences | backend/controllers/newsController.js:254-260 | the result is a prefix of the de-duplicated articles, each the first gathered with its url; when at most ten remain, no url is lost |
| NewsFetch.Consult | backend/controllers/newsController.js:125-246 | one provider block updates the gathered articles as the provider's turn says |
| NewsFetch.FetchNewsArticles | backend/controllers/newsController.js:117-261 | the sequential provider blocks return the specified articles and ask the specified providers |
| AiService.RawConfidence | backend/services/aiService.js:177 | `confidence \|\| 50`: an absent or zero confidence reads as 50, any other is kept |
| AiService.NormalScoreBands | backend/services/aiService.js:195-206 | a TRUE or FALSE result below 90 scores exactly 95, an UNCERTAIN one above 60 exactly 50, and any other confidence passes through clamped to [0,100]; so a firm verdict scores at least 90 and an uncertain one at most 60 |
| AiService.NormalVerdictCases | backend/services/aiService.js:176-193 | a reply verdict among the three words is kept; any other becomes TRUE exactly when confidence is at least 70 and FALSE exactly when it is at most 40 |
| AiService.NormalizeIdempotent | backend/services/aiService.js:176-206 | normalising a normalised result again changes neither verdict nor score, when the score is not 0 |
| AiService.ZeroScoreNotFixed | backend/services/aiService.js:177 | an UNCERTAIN score of 0 does not survive a second pass: `0 \|\| 50` reads it as 50 |
| AiService.AnalysisShape | backend/services/aiService.js:180-188 | the analysis has at most two lines: the reasoning line when there is reasoning, then, when there are sources, `Sources: ` and the first three sources joined by `, ` |
| AiService.NormalizeAiResult | backend/services/aiService.js:175-210 | the in-place updates of verdict and confidence give the specified normalised result |
| AiService.VerifyClaimWithAI | backend/services/aiService.js:89-93 | no result without a usable key or when the call failed, else the normalised reply |
| AiService.UnconfiguredGivesNoResult | backend/services/aiService.js:90-93 | an empty key or the placeholder key never yields an AI result |
| VerifyNews.RejectsExactlyBlank | backend/controllers/newsController.js:10-12 | a request is rejected with 400 exactly when the text is absent or blank |
| VerifyNews.AiResultVerbatim | backend/controllers/newsController.js:28-35 | an AI result's score, verdict and analysis are passed on unchanged and marked AI-powered |
| VerifyNews.FallbackIsRuleBased | backend/controllers/newsController.js:36-40 | without an AI result the rule-based analysis answers, with a score in [0,100] and TRUE exactly from 50 |
| VerifyNews.SourcesShape | backend/controllers/newsController.js:46 | the reported sources are the first one to five fetched articles, with no url twice |
| VerifyNews.VerifyNewsRequest | backend/controllers/newsController.js:6-62 | the handler rejects blank text and otherwise returns the specified response over the fetched articles |
| Translation.MissingFieldRejected | backend/controllers/translationController.js:17-19 | 400 exactly when the text or the target language is missing or empty, and then no provider is called |
| Translation.MappedCode | backend/controllers/translationController.js:52-60 | every mapped code is looked up in the table and never falls back to the split, so both English variants become `en`, both Portuguese ones `pt` |
| Translation.UnmappedCode | backend/controllers/translationController.js:60 | an unmapped code becomes the lower-cased text before its first dash |
| Translation.CodeHasNoDash | backend/controllers/translationController.js:60-63 | no target code holds a dash, and the langpair starts with `en\|` |
| Translation.CodeInMapHasNoDash | backend/controllers/translationController.js:52-60 | no mapped code holds a dash |
| Translation.AiFirst | backend/controllers/translationController.js:21-26 | the AI translator is always asked first, and its answer ends the request |
| Translation.DeepLSecond | backend/controllers/translationController.js:28-48 | DeepL is asked exactly when the AI gave nothing and a usable key is set, and answers exactly when it returns translations |
| Translation.MyMemoryLast | backend/controllers/translationController.js:50-70 | MyMemory is asked with `en\|<code>` exactly when neither earlier provider answered |
| Translation.FailureStatuses | backend/controllers/translationController.js:68-79 | 502 exactly when every provider was reached and none answered; 500 only after a MyMemory network error |
| History.AddToHistory | src/App.jsx:11-13 | the new item comes first, the previous items follow in order, and at most ten are kept |
| History.Reverse | src/App.jsx:11-13 | the items in reverse order |
| History.AddAllKeepsNewest | src/App.jsx:11-13 | after any run of additions the history is the newest items first, then the earlier history, cut to ten |
| History.PrefixAppend | src/App.jsx:12 | cutting the tail to ten before prepending does not change the first ten |
| History.LongRunForgetsStart | src/App.jsx:11-13 | after ten or more additions only the last ten remain, newest first |

## Left out

- Network calls, the response cache (`newsCache`) and logging are not modelled. Provider replies, the AI reply and the translators' answers are inputs.
- The hard-coded political overrides at the start of `verifyClaimWithAI` (aiService.js, lines 18-87) are not modelled. Neither are the prompt construction and the model call (lines 95-173): the parsed reply is an input, and `None` stands for a failed call, an empty reply or unparsable JSON.
- `translateWithAI`, the DeepL request and the MyMemory request are represented only by their answers. A DeepL translation entry without a `text` field is not modelled.
- The per-provider field mapping (lines 140-147, 171-178, 201-208 and 232-239 of newsController.js) is not modelled: each reply is already a list of articles. `urlToImage` is dropped, because no rule reads it.
- An article with a missing `source` makes `toLowerCase` throw, which the handler turns into a 500. It is not modelled: `source` is always a string.
- A non-string `text` in a request is not modelled: it makes `trim` throw and produces a 500.
- A fractional confidence, and a `sources` field that is present but not an array, are not modelled. The confidence is an integer and the sources a list of strings.
- A non-string `targetLang` is not modelled: `targetLang.split` throws (translationController.js, line 60) and the handler answers 500 (lines 73-79). The target language is always a string.
- String lengths count Unicode scalar values, while JavaScript's `length` counts UTF-16 code units. The two differ for characters outside the Basic Multilingual Plane: two emoji have length 4 in JavaScript and 2 in the model, so `word.length > 3` (newsController.js, lines 335 and 610) can disagree for such words.
- `langMap` lookups of keys from `Object.prototype` (such as `constructor`) are not modelled. The map holds only its 29 entries.
- Case mapping covers ASCII letters only. Characters outside ASCII are kept unchanged, unlike JavaScript's Unicode case mapping.
- Dates are milliseconds since the epoch. An unparsable `publishedAt` is `None` and never counts as recent, as the NaN comparison in the source gives. `toISOString` formatting is not modelled, and the `timestamp` of a response is `now`.
- `Math.random()` is not modelled. The mock generator receives one age per suspicious article and a count of one or two. Because the loop bound is redrawn on every iteration, the source also produces only one or two articles.
- NewsFetch.FetchNewsArticles also returns which providers were asked. The source returns only the articles; this second result exists so the call order can be stated.
- Credibility.ScoreByEvidence computes every measurement before applying the score table, while the source interleaves measuring and scoring. The measurements do not depend on the score, so the result is the same.
- Credibility.CountMatches does not lower-case each listed word, as `word.toLowerCase()` in the source does, because every listed word is already lower-case.
- `searchNews` and `getArticleDetails` in newsController.js are other route handlers, outside this model.
- The front end beyond `addToHistory`, the server setup, the routes and the test scripts are not modelled.
