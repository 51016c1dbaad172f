/**
 * `generateMockArticles` (newsController.js, lines 264-329): the placeholder
 * articles the aggregator returns when no provider yields anything. The
 * clock and `Math.random()` are parameters.
 */
module MockNews {
  import opened Wrappers
  import opened Text
  import opened Articles

  const MisinfoKeywords: seq<string> := ["fake", "hoax", "conspiracy", "cure cancer", "miracle cure",
    "secret government", "lizard people", "flat earth", "chemtrails", "5g causes"]
  const SensationalKeywords: seq<string> := ["shocking", "unbelievable", "you won't believe"]

  const UnreliableSources: seq<string> := ["Random Blog", "Anonymous Source", "Social Media Post"]
  const MixedSources: seq<string> := ["BBC News", "Random Blog", "CNN", "Tabloid Weekly"]
  const ReliableSources: seq<string> := ["BBC News", "CNN", "Reuters", "The Guardian", "Associated Press"]

  /** One day in milliseconds. */
  const DayMs: nat := 86400000
  /** `Math.random() * 180 * 86400000` stays below 180 days. */
  const MaxUnverifiedAge: nat := 180 * DayMs

  datatype QueryClass = Suspicious | Sensational | Ordinary

  /** The misinformation test comes first, then the sensational one. */
  function ClassifyQuery(query: string): (c: QueryClass)
    ensures c == Suspicious <==> ContainsAny(ToLower(query), MisinfoKeywords)
    ensures c == Sensational <==>
      !ContainsAny(ToLower(query), MisinfoKeywords) && ContainsAny(ToLower(query), SensationalKeywords)
  {
    var q := ToLower(query);
    if ContainsAny(q, MisinfoKeywords) then Suspicious
    else if ContainsAny(q, SensationalKeywords) then Sensational
    else Ordinary
  }

  /**
   * The random draws of the suspicious branch: one age (milliseconds before
   * `now`) per article. The loop bound `Math.floor(Math.random() * 2) + 1`
   * is drawn afresh on every iteration, so the loop runs once or twice.
   */
  predicate ValidAges(ages: seq<nat>) {
    1 <= |ages| <= 2 && forall k :: 0 <= k < |ages| ==> ages[k] <= MaxUnverifiedAge
  }

  function MockCount(c: QueryClass, ages: seq<nat>): nat {
    match c
    case Suspicious => |ages|
    case Sensational => 3
    case Ordinary => 5
  }

  const UnverifiedUrl: string := "https://example.com/unverified-"
  const ArticleUrl: string := "https://example.com/article-"

  function UrlPrefix(c: QueryClass): string {
    if c == Suspicious then UnverifiedUrl else ArticleUrl
  }

  /** The `i`-th url of class `c`, numbered from 1. */
  function MockUrl(c: QueryClass, i: nat): string {
    UrlPrefix(c) + NatToString(i + 1)
  }

  const UnverifiedTitle: string := " - Claim Without Verification"
  const UnverifiedReportTitle: string := "Unverified Report"
  const CoverageTitle: string := "Coverage"
  const LatestTitle: string := " - Latest Updates "
  const UnverifiedLead: string := "Unverified claim about "
  const UnverifiedTail: string := ". No corroboration from reliable sources found."
  const SensationalizedLead: string := "Sensationalized"
  const StandardLead: string := "Standard"
  const CoverageOf: string := " coverage of "
  const ComprehensiveLead: string := "Comprehensive coverage of "
  const ComprehensiveTail: string :=
    " from multiple verified sources. This article provides detailed analysis and fact-checking."

  function MockTitle(query: string, c: QueryClass, i: nat): string {
    match c
    case Suspicious => query + UnverifiedTitle
    case Sensational => query + " - " + (if i == 1 then UnverifiedReportTitle else CoverageTitle)
    case Ordinary => query + LatestTitle + NatToString(i + 1)
  }

  function MockDescription(query: string, c: QueryClass, i: nat): string {
    match c
    case Suspicious => UnverifiedLead + query + UnverifiedTail
    case Sensational => (if i == 1 then SensationalizedLead else StandardLead) + CoverageOf + query + "."
    case Ordinary => ComprehensiveLead + query + ComprehensiveTail
  }

  function MockSource(c: QueryClass, i: nat): string
    requires c != Suspicious ==> i < MockCount(c, [])
  {
    match c
    case Suspicious => UnreliableSources[i % |UnreliableSources|]
    case Sensational => MixedSources[i]
    case Ordinary => ReliableSources[i]
  }

  /** Suspicious articles are dated by the random ages, the others one day apart. */
  function MockPublished(c: QueryClass, i: nat, now: int, ages: seq<nat>): int
    requires i < MockCount(c, ages)
  {
    if c == Suspicious then now - ages[i] else now - i * DayMs
  }

  /** The `i`-th article the generator pushes for a query of class `c`. */
  function MockArticle(query: string, c: QueryClass, i: nat, now: int, ages: seq<nat>): Article
    requires i < MockCount(c, ages)
  {
    Article(MockTitle(query, c, i), MockDescription(query, c, i), MockUrl(c, i), MockSource(c, i),
            Some(MockPublished(c, i, now, ages)))
  }

  lemma MockUrlInjective(c: QueryClass, i: nat, j: nat)
    requires MockUrl(c, i) == MockUrl(c, j)
    ensures i == j
  {
    var prefix := UrlPrefix(c);
    assert NatToString(i + 1) == MockUrl(c, i)[|prefix|..];
    assert NatToString(j + 1) == MockUrl(c, j)[|prefix|..];
    NatToStringInjective(i + 1, j + 1);
  }

  /** The whole placeholder list for `query`. */
  function MockArticles(query: string, now: int, ages: seq<nat>): (r: seq<Article>)
    requires ValidAges(ages)
    // suspicious claims get one or two articles, sensational ones three, all others five
    ensures ClassifyQuery(query) == Suspicious ==> 1 <= |r| <= 2
    ensures ClassifyQuery(query) == Sensational ==> |r| == 3
    ensures ClassifyQuery(query) == Ordinary ==> |r| == 5
    ensures DistinctUrls(r)
  {
    var c := ClassifyQuery(query);
    MockListDistinct(query, c, now, ages);
    MockList(query, c, now, ages)
  }

  /** The numbered urls of one class never repeat. */
  lemma MockListDistinct(query: string, c: QueryClass, now: int, ages: seq<nat>)
    ensures DistinctUrls(MockList(query, c, now, ages))
  {
    var r := MockList(query, c, now, ages);
    forall i, j | 0 <= i < j < |r| ensures r[i].url != r[j].url {
      if r[i].url == r[j].url { MockUrlInjective(c, i, j); }
    }
  }

  /** The articles of class `c`, in push order. */
  function MockList(query: string, c: QueryClass, now: int, ages: seq<nat>): (r: seq<Article>)
    ensures |r| == MockCount(c, ages)
    ensures forall i :: 0 <= i < |r| ==> r[i] == MockArticle(query, c, i, now, ages)
  {
    seq(MockCount(c, ages), i requires 0 <= i < MockCount(c, ages) => MockArticle(query, c, i, now, ages))
  }

  /** The generator itself: the query is classified, then that class's loop pushes onto `articles`. */
  method GenerateMockArticles(query: string, now: int, ages: seq<nat>) returns (articles: seq<Article>)
    requires ValidAges(ages)
    ensures articles == MockArticles(query, now, ages)
  {
    var c := ClassifyQuery(query);
    articles := PushMockArticles(query, c, now, ages);
  }

  /** One branch's `for` loop. */
  method PushMockArticles(query: string, c: QueryClass, now: int, ages: seq<nat>) returns (articles: seq<Article>)
    ensures articles == MockList(query, c, now, ages)
  {
    var n := MockCount(c, ages);
    articles := [];
    for i := 0 to n
      invariant |articles| == i
      invariant forall k :: 0 <= k < i ==> articles[k] == MockArticle(query, c, k, now, ages)
    {
      var article := MockArticle(query, c, i, now, ages);
      ghost var before := articles;
      articles := articles + [article];
      assert forall k :: 0 <= k < i ==> articles[k] == before[k];
    }
  }
}
