/**
 * `verifyNews` (newsController.js, lines 6-62): reject a missing or blank
 * claim, fetch related articles, take the AI verdict when there is one and
 * the rule-based analysis otherwise, and report at most five sources.
 */
module VerifyNews {
  import opened Wrappers
  import opened Text
  import opened Articles
  import opened MockNews
  import opened FactCheck
  import opened Verdicts
  import opened Credibility
  import opened NewsFetch
  import opened AiService

  const TextRequired: string := "News text is required"

  /** The JSON body sent back; `timestamp` is the request time in milliseconds. */
  datatype Response =
    | BadRequest(error: string)
    | Verified(text: string, credibilityScore: int, verdict: Verdict, sources: seq<Article>,
               analysis: seq<string>, timestamp: int, aiPowered: bool)

  /** The specification of `verifyNews` for the request body field `text` (`None` when absent). */
  function Verification(text: Option<string>, articles: seq<Article>, ai: Option<AiResult>,
                        today: Today, now: int): Response
  {
    if text.None? || IsBlank(text.value) then BadRequest(TextRequired)
    else
      var analysis := match ai
        case Some(a) => Analysis(a.credibilityScore, a.verdict, a.analysis)
        case None => CredibilityOf(text.value, articles, today, now);
      Verified(text.value, analysis.score, analysis.verdict, Take(articles, 5), analysis.details, now, ai.Some?)
  }

  /* ---------------- properties ---------------- */

  /** A missing, empty or blank claim is rejected, and nothing else is. */
  lemma RejectsExactlyBlank(text: Option<string>, articles: seq<Article>, ai: Option<AiResult>, today: Today, now: int)
    ensures Verification(text, articles, ai, today, now).BadRequest? <==> text.None? || IsBlank(text.value)
    ensures text == Some("") ==> Verification(text, articles, ai, today, now) == BadRequest(TextRequired)
  {
  }

  /** An AI result is passed on verbatim and marked AI-powered. */
  lemma AiResultVerbatim(text: string, articles: seq<Article>, a: AiResult, today: Today, now: int)
    requires !IsBlank(text)
    ensures var r := Verification(Some(text), articles, Some(a), today, now);
            r.Verified? && r.credibilityScore == a.credibilityScore && r.verdict == a.verdict
            && r.analysis == a.analysis && r.aiPowered
  {
  }

  /** Without an AI result the rule-based analysis answers: score in [0,100], TRUE or FALSE by the threshold 50. */
  lemma FallbackIsRuleBased(text: string, articles: seq<Article>, today: Today, now: int)
    requires !IsBlank(text)
    ensures var r := Verification(Some(text), articles, None, today, now);
            r.Verified? && !r.aiPowered
            && r.credibilityScore == CredibilityOf(text, articles, today, now).score
            && 0 <= r.credibilityScore <= 100
            && r.verdict != UNCERTAIN
            && (r.verdict == TRUE <==> r.credibilityScore >= 50)
  {
    ScoreAndVerdict(text, articles, today, now);
  }

  /** The sources are the first fetched articles: never empty, at most five, no url twice. */
  lemma SourcesShape(text: string, keys: ApiKeys, replies: Replies, ages: seq<nat>,
                     ai: Option<AiResult>, today: Today, now: int)
    requires !IsBlank(text) && ValidAges(ages)
    ensures var articles := Fetch(text, keys, replies, now, ages);
            var r := Verification(Some(text), articles, ai, today, now);
            r.Verified? && 1 <= |r.sources| <= 5 && r.sources <= articles && DistinctUrls(r.sources)
  {
    var articles := Fetch(text, keys, replies, now, ages);
    FetchShape(text, keys, replies, now, ages);
    DistinctUrlsPrefix(articles, 5);
  }

  /* ---------------- the handler ---------------- */

  /**
   * `verifyNews`: the providers' replies, the AI adapter's answer and the
   * random draw for mock articles are inputs.
   */
  method VerifyNewsRequest(text: Option<string>, keys: ApiKeys, replies: Replies, ages: seq<nat>,
                           aiResult: Option<AiResult>, today: Today, now: int)
    returns (response: Response)
    requires ValidAges(ages)
    ensures text.None? || IsBlank(text.value) ==> response == BadRequest(TextRequired)
    ensures text.Some? && !IsBlank(text.value) ==>
              response == Verification(text, Fetch(text.value, keys, replies, now, ages), aiResult, today, now)
  {
    if text.None? || IsBlank(text.value) {
      return BadRequest(TextRequired);
    }
    var articles, _ := FetchNewsArticles(text.value, keys, replies, now, ages);
    var analysis: Analysis;
    if aiResult.Some? {
      analysis := Analysis(aiResult.value.credibilityScore, aiResult.value.verdict, aiResult.value.analysis);
    } else {
      analysis := AnalyzeCredibility(text.value, articles, today, now);
    }
    response := Verified(text.value, analysis.score, analysis.verdict, Take(articles, 5), analysis.details,
                         now, aiResult.Some?);
  }
}
