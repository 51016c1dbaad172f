/**
 * The common article record every provider response is mapped to, and the
 * order-preserving deduplication by `url` that `fetchNewsArticles` applies.
 */
module Articles {
  import opened Wrappers

  /**
   * A news article. `publishedAt` is the timestamp (milliseconds since the
   * epoch) that `new Date(article.publishedAt)` yields, `None` when the text
   * is absent or does not parse.
   */
  datatype Article = Article(
    title: string,
    description: string,
    url: string,
    source: string,
    publishedAt: Option<int>)

  function Urls(s: seq<Article>): (r: seq<string>)
    ensures |r| == |s|
    ensures forall i :: 0 <= i < |s| ==> r[i] == s[i].url
  {
    seq(|s|, i requires 0 <= i < |s| => s[i].url)
  }

  /** No two articles of `s` share a `url`. */
  predicate DistinctUrls(s: seq<Article>) {
    forall i, j :: 0 <= i < j < |s| ==> s[i].url != s[j].url
  }

  function Min(a: int, b: int): int { if a <= b then a else b }

  /** `s.slice(0, n)`. */
  function Take<T>(s: seq<T>, n: nat): (r: seq<T>)
    ensures |r| == Min(|s|, n) && r <= s
  {
    if |s| <= n then s else s[..n]
  }

  /**
   * `s.findIndex(a => a.url === url)`; the result is `|s|` where JavaScript
   * answers -1, a value no index of `s` equals.
   */
  function FindIndex(s: seq<Article>, url: string): (k: nat)
    ensures k <= |s|
    ensures k < |s| ==> s[k].url == url
    ensures forall j :: 0 <= j < k ==> s[j].url != url
  {
    if s == [] then 0 else if s[0].url == url then 0 else 1 + FindIndex(s[1..], url)
  }

  /**
   * The elements `s[j]`, `j >= i`, that pass the filter
   * `(article, index, self) => index === self.findIndex(a => a.url === article.url)`.
   */
  function DedupFrom(s: seq<Article>, i: nat): seq<Article>
    requires i <= |s|
    decreases |s| - i
  {
    if i == |s| then []
    else (if FindIndex(s, s[i].url) == i then [s[i]] else []) + DedupFrom(s, i + 1)
  }

  lemma {:induction false} DedupFromLength(s: seq<Article>, i: nat)
    requires i <= |s|
    ensures |DedupFrom(s, i)| <= |s| - i
    decreases |s| - i
  {
    if i < |s| { DedupFromLength(s, i + 1); }
  }

  /** Every kept article is the first one in `s` with its url. */
  lemma {:induction false} DedupFromFirst(s: seq<Article>, i: nat)
    requires i <= |s|
    ensures forall k :: 0 <= k < |DedupFrom(s, i)| ==>
      i <= FindIndex(s, DedupFrom(s, i)[k].url) < |s| &&
      s[FindIndex(s, DedupFrom(s, i)[k].url)] == DedupFrom(s, i)[k]
    decreases |s| - i
  {
    if i < |s| {
      DedupFromFirst(s, i + 1);
    }
  }

  /** Kept articles appear in the order of their first occurrence. */
  lemma {:induction false} DedupFromOrdered(s: seq<Article>, i: nat)
    requires i <= |s|
    ensures forall a, b :: 0 <= a < b < |DedupFrom(s, i)| ==>
      FindIndex(s, DedupFrom(s, i)[a].url) < FindIndex(s, DedupFrom(s, i)[b].url)
    decreases |s| - i
  {
    if i < |s| {
      DedupFromFirst(s, i + 1);
      DedupFromOrdered(s, i + 1);
    }
  }

  /** Every url whose first occurrence is at or after `i` is kept. */
  lemma {:induction false} DedupFromComplete(s: seq<Article>, i: nat)
    requires i <= |s|
    ensures forall j :: 0 <= j < |s| && i <= FindIndex(s, s[j].url) ==> s[j].url in Urls(DedupFrom(s, i))
    decreases |s| - i
  {
    if i < |s| {
      DedupFromComplete(s, i + 1);
      var r := DedupFrom(s, i);
      var rest := DedupFrom(s, i + 1);
      var head := if FindIndex(s, s[i].url) == i then [s[i]] else [];
      assert r == head + rest;
      forall j | 0 <= j < |s| && i <= FindIndex(s, s[j].url)
        ensures s[j].url in Urls(r)
      {
        if FindIndex(s, s[j].url) == i {
          assert s[i].url == s[j].url;
          assert r[0] == s[i];
          assert Urls(r)[0] == s[j].url;
        } else {
          assert s[j].url in Urls(rest);
          var k :| 0 <= k < |rest| && Urls(rest)[k] == s[j].url;
          assert Urls(r)[|head| + k] == s[j].url;
        }
      }
    }
  }

  /** The deduplication step of `fetchNewsArticles` (newsController.js, lines 255-257). */
  function Dedup(s: seq<Article>): (r: seq<Article>)
    ensures |r| <= |s|
    ensures DistinctUrls(r)
    // each kept article is the first one in `s` with its url
    ensures forall k :: 0 <= k < |r| ==> FindIndex(s, r[k].url) < |s| && s[FindIndex(s, r[k].url)] == r[k]
    // kept articles keep the order of their first occurrences
    ensures forall a, b :: 0 <= a < b < |r| ==> FindIndex(s, r[a].url) < FindIndex(s, r[b].url)
    // no url is lost
    ensures forall j :: 0 <= j < |s| ==> s[j].url in Urls(r)
  {
    DedupFromLength(s, 0);
    DedupFromFirst(s, 0);
    DedupFromOrdered(s, 0);
    DedupFromComplete(s, 0);
    DedupFrom(s, 0)
  }

  /** A prefix of a list with distinct urls has distinct urls. */
  lemma DistinctUrlsPrefix(s: seq<Article>, n: nat)
    requires DistinctUrls(s)
    ensures DistinctUrls(Take(s, n))
  {
  }
}
