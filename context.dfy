/**
 * `extractKeywords` and `analyzeArticleContext` (newsController.js, lines
 * 331-371): the claim's salient words, and how many articles refute,
 * support or merely mention the claim.
 */
module Context {
  import opened Text
  import opened Articles

  const StopWords: seq<string> := ["the", "is", "are", "was", "were", "will", "be", "been", "has", "have",
    "had", "do", "does", "did", "a", "an", "and", "or", "but", "in", "on", "at", "to", "for", "of", "with", "by"]

  /** A token survives the filter: longer than three characters and not a stop word. */
  predicate IsKeyword(w: string) {
    |w| > 3 && w !in StopWords
  }

  /** `a` is `b` with some elements left out, the rest in their order. */
  predicate IsSubsequence<T(==)>(a: seq<T>, b: seq<T>)
    decreases |b|
  {
    if a == [] then true
    else if b == [] then false
    else (a[0] == b[0] && IsSubsequence(a[1..], b[1..])) || IsSubsequence(a, b[1..])
  }

  /** `words.filter(word => word.length > 3 && !stopWords.includes(word))`. */
  function KeepKeywords(words: seq<string>): (r: seq<string>)
    ensures forall k :: 0 <= k < |r| ==> IsKeyword(r[k]) && r[k] in words
    ensures forall w :: w in words && IsKeyword(w) ==> w in r
    ensures IsSubsequence(r, words)
    ensures forall w :: multiset(r)[w] == if IsKeyword(w) then multiset(words)[w] else 0
  {
    if words == [] then []
    else
      assert words == [words[0]] + words[1..];
      var rest := KeepKeywords(words[1..]);
      if IsKeyword(words[0]) then [words[0]] + rest
      else rest
  }

  /** `extractKeywords(text)`: lower-case, split on runs of `\s`, filter. */
  function ExtractKeywords(text: string): (r: seq<string>)
    ensures forall k :: 0 <= k < |r| ==>
      IsKeyword(r[k]) && IsLowerCase(r[k]) && forall i :: 0 <= i < |r[k]| ==> !IsSpace(r[k][i])
    ensures forall w :: w in SplitSpaces(ToLower(text)) && IsKeyword(w) ==> w in r
    ensures IsSubsequence(r, SplitSpaces(ToLower(text)))
  {
    var lower := ToLower(text);
    var words := SplitSpaces(lower);
    var r := KeepKeywords(words);
    forall k | 0 <= k < |r|
      ensures IsLowerCase(r[k]) && forall i :: 0 <= i < |r[k]| ==> !IsSpace(r[k][i])
    {
      var j :| 0 <= j < |words| && words[j] == r[k];
      forall i | 0 <= i < |r[k]| ensures !IsUpperAscii(r[k][i]) {
        assert words[j][i] in lower;
      }
    }
    r
  }

  const RefutingWords: seq<string> := ["false", "fake", "debunk", "myth", "hoax", "untrue", "incorrect", "wrong",
    "misinformation", "disinformation", "not true", "denies", "refutes", "disputes"]
  const SupportingWords: seq<string> := ["confirms", "verified", "true", "accurate", "correct", "validates",
    "proves", "evidence shows", "study finds", "research shows"]

  /** How one article stands to the claim; `Unrelated` is counted nowhere. */
  datatype Stance = Refutes | Supports | Neutral | Unrelated

  /** The lower-cased title and description, joined by one space. */
  function Combined(a: Article): string {
    ToLower(a.title) + " " + ToLower(a.description)
  }

  /**
   * Refuting language wins; supporting language counts only with a keyword of
   * the claim; a keyword alone makes the article neutral.
   */
  function Classify(a: Article, keywords: seq<string>): (st: Stance)
    ensures st == Refutes <==> ContainsAny(Combined(a), RefutingWords)
    ensures st == Supports <==> !ContainsAny(Combined(a), RefutingWords)
                                && ContainsAny(Combined(a), SupportingWords) && ContainsAny(Combined(a), keywords)
    ensures st == Neutral <==> !ContainsAny(Combined(a), RefutingWords)
                               && !ContainsAny(Combined(a), SupportingWords) && ContainsAny(Combined(a), keywords)
    ensures st == Unrelated <==> !ContainsAny(Combined(a), RefutingWords) && !ContainsAny(Combined(a), keywords)
  {
    var combined := Combined(a);
    if ContainsAny(combined, RefutingWords) then Refutes
    else if ContainsAny(combined, SupportingWords) && ContainsAny(combined, keywords) then Supports
    else if ContainsAny(combined, keywords) then Neutral
    else Unrelated
  }

  /** The number of articles of `s` with stance `st`. */
  function CountStance(s: seq<Article>, keywords: seq<string>, st: Stance): nat {
    if s == [] then 0
    else CountStance(s[..|s| - 1], keywords, st) + (if Classify(s[|s| - 1], keywords) == st then 1 else 0)
  }

  datatype Tally = Tally(supporting: nat, refuting: nat, neutral: nat)

  function TallyOf(s: seq<Article>, keywords: seq<string>): Tally {
    Tally(CountStance(s, keywords, Supports), CountStance(s, keywords, Refutes), CountStance(s, keywords, Neutral))
  }

  /** Every article has exactly one stance, so the four counts add up to the number of articles. */
  lemma {:induction false} StancesPartition(s: seq<Article>, keywords: seq<string>)
    ensures CountStance(s, keywords, Supports) + CountStance(s, keywords, Refutes)
          + CountStance(s, keywords, Neutral) + CountStance(s, keywords, Unrelated) == |s|
  {
    if s != [] { StancesPartition(s[..|s| - 1], keywords); }
  }

  /** Each article adds to at most one tally. */
  lemma TallyBound(s: seq<Article>, keywords: seq<string>)
    ensures TallyOf(s, keywords).supporting + TallyOf(s, keywords).refuting + TallyOf(s, keywords).neutral <= |s|
  {
    StancesPartition(s, keywords);
  }

  /** `analyzeArticleContext`: one pass, bumping one counter per article. */
  method AnalyzeArticleContext(articles: seq<Article>, keywords: seq<string>) returns (t: Tally)
    ensures t == TallyOf(articles, keywords)
  {
    var supporting, refuting, neutral := 0, 0, 0;
    for i := 0 to |articles|
      invariant supporting == CountStance(articles[..i], keywords, Supports)
      invariant refuting == CountStance(articles[..i], keywords, Refutes)
      invariant neutral == CountStance(articles[..i], keywords, Neutral)
    {
      assert articles[..i + 1][..i] == articles[..i];
      var combined := Combined(articles[i]);
      var hasRefuting := ContainsAny(combined, RefutingWords);
      var hasSupporting := ContainsAny(combined, SupportingWords);
      var hasKeywords := ContainsAny(combined, keywords);
      if hasRefuting {
        refuting := refuting + 1;
      } else if hasSupporting && hasKeywords {
        supporting := supporting + 1;
      } else if hasKeywords {
        neutral := neutral + 1;
      }
    }
    assert articles[..|articles|] == articles;
    t := Tally(supporting, refuting, neutral);
  }
}
