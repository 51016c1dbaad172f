/**
 * `fetchNewsArticles` (newsController.js, lines 117-261): four news
 * providers are consulted in a fixed order, each only while fewer than five
 * articles have been gathered; with nothing gathered the mock articles are
 * returned, otherwise the gathered articles without repeated urls, at most ten.
 */
module NewsFetch {
  import opened Wrappers
  import opened Articles
  import opened MockNews

  /** The three provider keys from the environment; an unset key is the empty string. */
  datatype ApiKeys = ApiKeys(newsApi: string, gnews: string, newsData: string)

  datatype Provider = NewsApi | GNews | NewsData | Guardian

  /**
   * What each provider answered, already mapped to articles: `None` when the
   * request failed or the response held no article list (both are skipped).
   */
  datatype Replies = Replies(newsApi: Option<seq<Article>>, gnews: Option<seq<Article>>,
                             newsData: Option<seq<Article>>, guardian: Option<seq<Article>>)

  function ReplyOf(replies: Replies, p: Provider): Option<seq<Article>> {
    match p
    case NewsApi => replies.newsApi
    case GNews => replies.gnews
    case NewsData => replies.newsData
    case Guardian => replies.guardian
  }

  /** NewsAPI needs a key other than `demo_mode`; GNews and NewsData need a key; the Guardian none. */
  predicate Configured(keys: ApiKeys, p: Provider) {
    match p
    case NewsApi => keys.newsApi != "" && keys.newsApi != "demo_mode"
    case GNews => keys.gnews != ""
    case NewsData => keys.newsData != ""
    case Guardian => true
  }

  /** A provider is asked when it is configured and, after the first, fewer than five articles are in. */
  predicate Asks(keys: ApiKeys, p: Provider, gathered: seq<Article>) {
    Configured(keys, p) && (p == NewsApi || |gathered| < 5)
  }

  /** The articles a consulted provider adds. */
  function Contribution(replies: Replies, p: Provider): seq<Article> {
    match ReplyOf(replies, p)
    case None => []
    case Some(list) => list
  }

  /** The articles gathered so far and the providers asked, in order. */
  datatype Gathering = Gathering(articles: seq<Article>, asked: seq<Provider>)

  /** One provider's turn. */
  function Ask(keys: ApiKeys, replies: Replies, p: Provider, g: Gathering): Gathering {
    if Asks(keys, p, g.articles) then Gathering(g.articles + Contribution(replies, p), g.asked + [p]) else g
  }

  /** NewsAPI, then GNews, then NewsData, then the Guardian. */
  function Gather(keys: ApiKeys, replies: Replies): Gathering {
    Ask(keys, replies, Guardian,
      Ask(keys, replies, NewsData,
        Ask(keys, replies, GNews,
          Ask(keys, replies, NewsApi, Gathering([], [])))))
  }

  /** The specification of `fetchNewsArticles(query)`. */
  function Fetch(query: string, keys: ApiKeys, replies: Replies, now: int, ages: seq<nat>): seq<Article>
    requires ValidAges(ages)
  {
    var all := Gather(keys, replies).articles;
    if |all| == 0 then MockArticles(query, now, ages) else Take(Dedup(all), 10)
  }

  /* ---------------- properties ---------------- */

  /** Asked providers appear in consultation order, each at most once, and exactly those that were asked. */
  lemma AskedInOrder(keys: ApiKeys, replies: Replies)
    ensures var g0 := Gathering([], []);
            var g1 := Ask(keys, replies, NewsApi, g0);
            var g2 := Ask(keys, replies, GNews, g1);
            var g3 := Ask(keys, replies, NewsData, g2);
            Gather(keys, replies).asked ==
              (if Configured(keys, NewsApi) then [NewsApi] else [])
              + (if Asks(keys, GNews, g1.articles) then [GNews] else [])
              + (if Asks(keys, NewsData, g2.articles) then [NewsData] else [])
              + (if Asks(keys, Guardian, g3.articles) then [Guardian] else [])
  {
  }

  /** Gathered articles are the contributions of the asked providers, in order. */
  lemma GatheredAreContributions(keys: ApiKeys, replies: Replies)
    ensures var g := Gather(keys, replies);
            g.articles == Concat(replies, g.asked)
  {
    var g0 := Gathering([], []);
    var g1 := Ask(keys, replies, NewsApi, g0);
    var g2 := Ask(keys, replies, GNews, g1);
    var g3 := Ask(keys, replies, NewsData, g2);
    AskConcat(keys, replies, NewsApi, g0);
    AskConcat(keys, replies, GNews, g1);
    AskConcat(keys, replies, NewsData, g2);
    AskConcat(keys, replies, Guardian, g3);
  }

  /** The contributions of `ps`, concatenated in order. */
  function Concat(replies: Replies, ps: seq<Provider>): seq<Article> {
    if ps == [] then [] else Concat(replies, ps[..|ps| - 1]) + Contribution(replies, ps[|ps| - 1])
  }

  lemma AskConcat(keys: ApiKeys, replies: Replies, p: Provider, g: Gathering)
    requires g.articles == Concat(replies, g.asked)
    ensures Ask(keys, replies, p, g).articles == Concat(replies, Ask(keys, replies, p, g).asked)
  {
    if Asks(keys, p, g.articles) {
      assert (g.asked + [p])[..|g.asked|] == g.asked;
    }
  }

  /** When NewsAPI alone yields five or more articles, it is the only provider asked. */
  lemma EarlyExit(keys: ApiKeys, replies: Replies)
    requires Configured(keys, NewsApi)
    requires |Contribution(replies, NewsApi)| >= 5
    ensures Gather(keys, replies).asked == [NewsApi]
    ensures Gather(keys, replies).articles == Contribution(replies, NewsApi)
  {
    assert [] + Contribution(replies, NewsApi) == Contribution(replies, NewsApi);
  }

  /** The Guardian is asked exactly when fewer than five articles came before it. */
  lemma GuardianAskedIffFewerThanFive(keys: ApiKeys, replies: Replies)
    ensures var g3 := Ask(keys, replies, NewsData, Ask(keys, replies, GNews,
                        Ask(keys, replies, NewsApi, Gathering([], []))));
            (Guardian in Gather(keys, replies).asked <==> |g3.articles| < 5)
  {
    var g1 := Ask(keys, replies, NewsApi, Gathering([], []));
    var g2 := Ask(keys, replies, GNews, g1);
    var g3 := Ask(keys, replies, NewsData, g2);
    assert Guardian !in g1.asked;
    assert Guardian !in g2.asked;
    assert Guardian !in g3.asked;
  }

  /** The result is never empty, holds at most ten articles when gathered, and no url twice. */
  lemma FetchShape(query: string, keys: ApiKeys, replies: Replies, now: int, ages: seq<nat>)
    requires ValidAges(ages)
    ensures 1 <= |Fetch(query, keys, replies, now, ages)|
    ensures DistinctUrls(Fetch(query, keys, replies, now, ages))
    ensures |Gather(keys, replies).articles| > 0 ==> |Fetch(query, keys, replies, now, ages)| <= 10
    ensures |Gather(keys, replies).articles| == 0 ==> Fetch(query, keys, replies, now, ages) == MockArticles(query, now, ages)
  {
    var all := Gather(keys, replies).articles;
    if |all| > 0 {
      DistinctUrlsPrefix(Dedup(all), 10);
      assert all[0].url in Urls(Dedup(all));
    }
  }

  /** A gathered result keeps the first article of each url, in order, up to ten of them. */
  lemma FetchKeepsFirstOccurrences(query: string, keys: ApiKeys, replies: Replies, now: int, ages: seq<nat>)
    requires ValidAges(ages)
    requires |Gather(keys, replies).articles| > 0
    ensures var all := Gather(keys, replies).articles;
            var r := Fetch(query, keys, replies, now, ages);
            r <= Dedup(all)
            && (forall k :: 0 <= k < |r| ==> FindIndex(all, r[k].url) < |all| && all[FindIndex(all, r[k].url)] == r[k])
            && (|Dedup(all)| <= 10 ==> forall j :: 0 <= j < |all| ==> all[j].url in Urls(r))
  {
    var all := Gather(keys, replies).articles;
    var r := Fetch(query, keys, replies, now, ages);
    assert r == Take(Dedup(all), 10);
    if |Dedup(all)| <= 10 {
      assert r == Dedup(all);
    }
    forall k | 0 <= k < |r|
      ensures FindIndex(all, r[k].url) < |all| && all[FindIndex(all, r[k].url)] == r[k]
    {
      assert r[k] == Dedup(all)[k];
    }
  }

  /* ---------------- the fetcher ---------------- */

  /** One provider block of `fetchNewsArticles`. */
  method Consult(keys: ApiKeys, replies: Replies, p: Provider, allArticles: seq<Article>, asked: seq<Provider>)
    returns (allArticles': seq<Article>, asked': seq<Provider>)
    ensures Gathering(allArticles', asked') == Ask(keys, replies, p, Gathering(allArticles, asked))
  {
    allArticles', asked' := allArticles, asked;
    if Configured(keys, p) && (p == NewsApi || |allArticles| < 5) {
      asked' := asked' + [p];
      var reply := ReplyOf(replies, p);
      if reply.Some? {
        allArticles' := allArticles' + reply.value;
      } else {
        assert allArticles + [] == allArticles;
      }
    }
  }

  /** `fetchNewsArticles`; also reports which providers were asked. */
  method FetchNewsArticles(query: string, keys: ApiKeys, replies: Replies, now: int, ages: seq<nat>)
    returns (articles: seq<Article>, asked: seq<Provider>)
    requires ValidAges(ages)
    ensures articles == Fetch(query, keys, replies, now, ages)
    ensures asked == Gather(keys, replies).asked
  {
    var allArticles: seq<Article> := [];
    asked := [];
    allArticles, asked := Consult(keys, replies, NewsApi, allArticles, asked);
    allArticles, asked := Consult(keys, replies, GNews, allArticles, asked);
    allArticles, asked := Consult(keys, replies, NewsData, allArticles, asked);
    allArticles, asked := Consult(keys, replies, Guardian, allArticles, asked);

    if |allArticles| == 0 {
      articles := GenerateMockArticles(query, now, ages);
      return;
    }
    var uniqueArticles := Dedup(allArticles);
    articles := Take(uniqueArticles, 10);
  }
}
