/**
 * `analyzeCredibility` (newsController.js, lines 482-642): a factual rule
 * match short-circuits to 98/TRUE or 2/FALSE; otherwise the score starts at
 * 50, receives fixed adjustments, is clamped to [0,100], and is TRUE exactly
 * when it is at least 50.
 */
module Credibility {
  import opened Wrappers
  import opened Text
  import opened Articles
  import opened Context
  import opened FactCheck
  import opened Verdicts

  const ReliableOutlets: seq<string> := ["BBC", "Reuters", "Associated Press", "AP News", "CNN", "The Guardian",
    "NPR", "The New York Times", "Washington Post", "Bloomberg"]
  const SensationalWords: seq<string> := ["shocking", "unbelievable", "miracle cure", "secret",
    "they don't want you to know", "breaking", "urgent", "incredible", "amazing discovery"]
  const MisinfoIndicators: seq<string> := ["fake", "hoax", "conspiracy", "cover-up", "lizard people",
    "flat earth", "chemtrails"]

  /** Seven days in milliseconds: `daysDiff <= 7`. */
  const WeekMs: int := 7 * 86400000

  /** `{ score, verdict, details }`. */
  datatype Analysis = Analysis(score: int, verdict: Verdict, details: seq<string>)

  /* ---------------- what the scorer measures ---------------- */

  /** `reliableSources.some(s => article.source.toLowerCase().includes(s.toLowerCase()))`. */
  predicate IsReliable(a: Article) {
    exists k :: 0 <= k < |ReliableOutlets| && Contains(ToLower(a.source), ToLower(ReliableOutlets[k]))
  }

  /** `articles.filter(isReliable).length`: the number of positions holding a reliable article. */
  function ReliableCount(s: seq<Article>): (n: nat)
    ensures n <= |s|
    ensures n == |set i | 0 <= i < |s| && IsReliable(s[i])|
  {
    if s == [] then 0
    else
      var init := s[..|s| - 1];
      assert forall i :: 0 <= i < |init| ==> init[i] == s[i];
      var last := if IsReliable(s[|s| - 1]) then {|s| - 1} else {};
      assert (set i | 0 <= i < |s| && IsReliable(s[i])) == (set i | 0 <= i < |init| && IsReliable(init[i])) + last;
      ReliableCount(init) + (if IsReliable(s[|s| - 1]) then 1 else 0)
  }

  /** Published at most seven days before `now`; an unparsable date is never recent. */
  predicate IsRecent(a: Article, now: int) {
    a.publishedAt.Some? && now - a.publishedAt.value <= WeekMs
  }

  /** `articles.filter(isRecent).length`: the number of positions holding a recent article. */
  function RecentCount(s: seq<Article>, now: int): (n: nat)
    ensures n <= |s|
    ensures n == |set i | 0 <= i < |s| && IsRecent(s[i], now)|
  {
    if s == [] then 0
    else
      var init := s[..|s| - 1];
      assert forall i :: 0 <= i < |init| ==> init[i] == s[i];
      var last := if IsRecent(s[|s| - 1], now) then {|s| - 1} else {};
      assert (set i | 0 <= i < |s| && IsRecent(s[i], now))
          == (set i | 0 <= i < |init| && IsRecent(init[i], now)) + last;
      RecentCount(init, now) + (if IsRecent(s[|s| - 1], now) then 1 else 0)
  }

  /**
   * `text.split(' ').some(word => word.length > 3 && word === word.toUpperCase())`:
   * a word with no lower-case letter counts, digits included.
   */
  predicate HasAllCaps(text: string) {
    var words := SplitOn(text, ' ');
    exists k :: 0 <= k < |words| && |words[k]| > 3 && ToUpper(words[k]) == words[k]
  }

  predicate IsBangOrQuestion(c: char) { c == '!' || c == '?' }

  /** `/[!?]{2,}/` finds a match: two adjacent characters from `!?`, in any mix. */
  predicate HasExcessivePunctuation(text: string) {
    exists i :: 0 <= i < |text| - 1 && IsBangOrQuestion(text[i]) && IsBangOrQuestion(text[i + 1])
  }

  /**
   * A word longer than three characters with no lower-case letter counts as
   * ALL CAPS; digits have no lower-case form, so a bare year such as `2024` counts.
   */
  lemma NoLowerCaseWordIsAllCaps(w: string)
    requires |w| > 3
    requires forall i :: 0 <= i < |w| ==> w[i] != ' ' && !IsLowerAscii(w[i])
    ensures HasAllCaps(w)
  {
    SplitOnAbsent(w, ' ');
    ToUpperFixed(w);
    assert SplitOn(w, ' ')[0] == w;
  }

  /**
   * Such a word anywhere in the claim, with a space or the end of the claim
   * on each side, makes the claim ALL CAPS: "Election results 2024" counts.
   */
  lemma {:induction false} AllCapsWordInClaim(before: string, w: string, after: string)
    requires |w| > 3
    requires forall i :: 0 <= i < |w| ==> w[i] != ' ' && !IsLowerAscii(w[i])
    ensures HasAllCaps(w)
    ensures HasAllCaps(before + " " + w)
    ensures HasAllCaps(w + " " + after)
    ensures HasAllCaps(before + " " + w + " " + after)
  {
    NoLowerCaseWordIsAllCaps(w);
    SplitOnAbsent(w, ' ');
    ToUpperFixed(w);
    var pw := SplitOn(w, ' ');
    assert pw == [w];
    var pb, pa := SplitOn(before, ' '), SplitOn(after, ' ');
    SplitOnSeparator(before, ' ', w);
    assert before + " " + w == before + [' '] + w;
    assert SplitOn(before + " " + w, ' ')[|pb|] == w;
    SplitOnSeparator(w, ' ', after);
    assert w + " " + after == w + [' '] + after;
    assert SplitOn(w + " " + after, ' ')[0] == w;
    SplitOnSeparator(before, ' ', w + " " + after);
    assert before + " " + w + " " + after == before + [' '] + (w + " " + after);
    assert SplitOn(before + " " + w + " " + after, ' ')[|pb|] == w;
  }

  /* ---------------- evidence lines ---------------- */

  const SensationalMsg: string := "Contains sensational language"
  const PotentiallySensationalMsg: string := "Contains potentially sensational language"
  const MisinfoMsg: string := "Contains common misinformation indicators"
  const NoSupportMsg: string := "No articles found that support this specific claim"
  const NoSourcesMsg: string := "No sources found - highly suspicious"
  const LimitedSourcesMsg: string := "Very limited sources - questionable credibility"
  const FewSourcesMsg: string := "Few sources found - verify carefully"
  const MultipleSourcesMsg: string := "Multiple sources found"
  const NoReliableMsg: string := "No reliable mainstream sources found"
  const ReliableConfirmMsg: string := "Multiple reliable sources confirm this"
  const SomeReliableMsg: string := "Some reliable sources available"
  const RecentMsg: string := "Recent coverage available"
  const NoRecentMsg: string := "No recent coverage found"
  const AllCapsMsg: string := "Uses ALL CAPS (common in misinformation)"
  const PunctuationMsg: string := "Excessive punctuation (questionable source)"
  const VerifiedFactMsg: string := "This is a verified factual statement"
  const ConfirmedEvidenceMsg: string := "Confirmed by established scientific/factual evidence"
  const ContradictsFactsMsg: string := "This claim contradicts established facts"
  const IncorrectEvidenceMsg: string := "Evidence shows this is incorrect"

  /** `Found ${refuting} articles that contradict this claim`. */
  function ContradictingMsg(refuting: nat): string {
    "Found " + NatToString(refuting) + " articles that contradict this claim"
  }

  /* ---------------- the score table ---------------- */

  /** An evidence line: warnings are listed before details. */
  datatype Line = Warning(text: string) | Detail(text: string)

  /** One fixed score change and the line that explains it. */
  datatype Adjustment = Adjustment(delta: int, line: Line)

  function SensationalRule(count: nat): seq<Adjustment> {
    if count >= 2 then [Adjustment(-20, Warning(SensationalMsg))]
    else if count == 1 then [Adjustment(-10, Warning(PotentiallySensationalMsg))]
    else []
  }

  function MisinfoRule(count: nat): seq<Adjustment> {
    if count >= 1 then [Adjustment(-30, Warning(MisinfoMsg))] else []
  }

  /** Applied only when there are articles. */
  function ContextRule(articleCount: nat, t: Tally): seq<Adjustment> {
    if articleCount == 0 then []
    else if t.refuting > t.supporting then
      [Adjustment(-30, Warning(ContradictingMsg(t.refuting)))]
    else if t.supporting == 0 && t.neutral > 0 then
      [Adjustment(-10, Warning(NoSupportMsg))]
    else []
  }

  function SourceCountRule(articleCount: nat): seq<Adjustment> {
    if articleCount == 0 then [Adjustment(-30, Detail(NoSourcesMsg))]
    else if articleCount <= 2 then [Adjustment(-15, Detail(LimitedSourcesMsg))]
    else if articleCount < 5 then [Adjustment(5, Detail(FewSourcesMsg))]
    else [Adjustment(15, Detail(MultipleSourcesMsg))]
  }

  function ReliabilityRule(reliable: nat, articleCount: nat): seq<Adjustment> {
    if reliable == 0 && articleCount > 0 then [Adjustment(-20, Warning(NoReliableMsg))]
    else if reliable >= 3 then [Adjustment(25, Detail(ReliableConfirmMsg))]
    else if reliable >= 1 then [Adjustment(10, Detail(SomeReliableMsg))]
    else []
  }

  function RecencyRule(recent: nat, articleCount: nat): seq<Adjustment> {
    if recent >= 3 then [Adjustment(10, Detail(RecentMsg))]
    else if recent == 0 && articleCount > 0 then [Adjustment(-10, Warning(NoRecentMsg))]
    else []
  }

  function AllCapsRule(hasCaps: bool): seq<Adjustment> {
    if hasCaps then [Adjustment(-10, Warning(AllCapsMsg))] else []
  }

  function PunctuationRule(excessive: bool): seq<Adjustment> {
    if excessive then [Adjustment(-10, Warning(PunctuationMsg))] else []
  }

  /** What the scorer measures about a claim and its articles. */
  datatype Signals = Signals(sensational: nat, misinfo: nat, articleCount: nat, tally: Tally,
                             reliable: nat, recent: nat, allCaps: bool, excessivePunctuation: bool)

  function Measure(text: string, articles: seq<Article>, now: int): Signals {
    var lower := ToLower(text);
    Signals(CountContained(lower, SensationalWords), CountContained(lower, MisinfoIndicators), |articles|,
            TallyOf(articles, ExtractKeywords(lower)), ReliableCount(articles), RecentCount(articles, now),
            HasAllCaps(text), HasExcessivePunctuation(text))
  }

  /** Every adjustment the signals earn, in the order they are applied. */
  function AdjustmentsOf(g: Signals): seq<Adjustment> {
    SensationalRule(g.sensational)
    + MisinfoRule(g.misinfo)
    + ContextRule(g.articleCount, g.tally)
    + SourceCountRule(g.articleCount)
    + ReliabilityRule(g.reliable, g.articleCount)
    + RecencyRule(g.recent, g.articleCount)
    + AllCapsRule(g.allCaps)
    + PunctuationRule(g.excessivePunctuation)
  }

  function SumDeltas(adjs: seq<Adjustment>): int {
    if adjs == [] then 0 else SumDeltas(adjs[..|adjs| - 1]) + adjs[|adjs| - 1].delta
  }

  function Warnings(adjs: seq<Adjustment>): seq<string> {
    if adjs == [] then []
    else Warnings(adjs[..|adjs| - 1]) + (match adjs[|adjs| - 1].line case Warning(w) => [w] case Detail(_) => [])
  }

  function Details(adjs: seq<Adjustment>): seq<string> {
    if adjs == [] then []
    else Details(adjs[..|adjs| - 1]) + (match adjs[|adjs| - 1].line case Detail(d) => [d] case Warning(_) => [])
  }

  function Clamp(x: int): (r: int)
    ensures 0 <= r <= 100
    ensures 0 <= x <= 100 ==> r == x
  {
    if x < 0 then 0 else if x > 100 then 100 else x
  }

  function VerdictOf(score: int): Verdict {
    if score >= 50 then TRUE else FALSE
  }

  /** The running `score`, `warnings` and `details` of the scorer. */
  datatype ScoreState = ScoreState(score: int, warnings: seq<string>, details: seq<string>)

  const Start := ScoreState(50, [], [])

  /** One adjustment: its delta is added and its line appended to its own list. */
  function Step(st: ScoreState, x: Adjustment): ScoreState {
    match x.line
    case Warning(w) => ScoreState(st.score + x.delta, st.warnings + [w], st.details)
    case Detail(d) => ScoreState(st.score + x.delta, st.warnings, st.details + [d])
  }

  /** The adjustments applied in order. */
  function Run(st: ScoreState, adjs: seq<Adjustment>): ScoreState {
    if adjs == [] then st else Step(Run(st, adjs[..|adjs| - 1]), adjs[|adjs| - 1])
  }

  /** The numeric path: base 50 plus the adjustments, clamped; warnings then details. */
  function Scored(g: Signals): Analysis {
    var st := Run(Start, AdjustmentsOf(g));
    var score := Clamp(st.score);
    Analysis(score, VerdictOf(score), st.warnings + st.details)
  }

  function RuleBased(text: string, articles: seq<Article>, now: int): Analysis {
    Scored(Measure(text, articles, now))
  }

  /** The short-circuit result of a factual rule match. */
  function FactualAnalysis(isTrue: bool, message: string): Analysis {
    if isTrue then
      Analysis(98, TRUE, [message, VerifiedFactMsg,
                          ConfirmedEvidenceMsg])
    else
      Analysis(2, FALSE, [message, ContradictsFactsMsg, IncorrectEvidenceMsg])
  }

  /** The specification of `analyzeCredibility(text, articles)`. */
  function CredibilityOf(text: string, articles: seq<Article>, today: Today, now: int): Analysis {
    match CheckFacts(ToLower(text), today)
    case Factual(isTrue, message) => FactualAnalysis(isTrue, message)
    case NotFactual => RuleBased(text, articles, now)
  }

  /* ---------------- properties ---------------- */

  /** The total of a concatenation is the sum of the totals. */
  lemma {:induction false} SumAppend(a: seq<Adjustment>, b: seq<Adjustment>)
    ensures SumDeltas(a + b) == SumDeltas(a) + SumDeltas(b)
    decreases |b|
  {
    if b != [] {
      assert (a + b)[..|a + b| - 1] == a + b[..|b| - 1];
      SumAppend(a, b[..|b| - 1]);
    } else {
      assert a + b == a;
    }
  }

  /** The warnings of a concatenation are those of each part, in order. */
  lemma {:induction false} WarningsAppend(a: seq<Adjustment>, b: seq<Adjustment>)
    ensures Warnings(a + b) == Warnings(a) + Warnings(b)
    decreases |b|
  {
    if b != [] {
      assert (a + b)[..|a + b| - 1] == a + b[..|b| - 1];
      WarningsAppend(a, b[..|b| - 1]);
    } else {
      assert a + b == a;
    }
  }

  /** The details of a concatenation are those of each part, in order. */
  lemma {:induction false} DetailsAppend(a: seq<Adjustment>, b: seq<Adjustment>)
    ensures Details(a + b) == Details(a) + Details(b)
    decreases |b|
  {
    if b != [] {
      assert (a + b)[..|a + b| - 1] == a + b[..|b| - 1];
      DetailsAppend(a, b[..|b| - 1]);
    } else {
      assert a + b == a;
    }
  }

  /** Running the adjustments adds their deltas and lists warnings and details apart, each in order. */
  lemma {:induction false} RunAccumulates(st: ScoreState, adjs: seq<Adjustment>)
    ensures Run(st, adjs) == ScoreState(st.score + SumDeltas(adjs), st.warnings + Warnings(adjs),
                                        st.details + Details(adjs))
    decreases |adjs|
  {
    if adjs == [] {
      assert st.warnings + [] == st.warnings && st.details + [] == st.details;
    } else {
      var init := adjs[..|adjs| - 1];
      RunAccumulates(st, init);
      match adjs[|adjs| - 1].line
      case Warning(w) =>
        assert st.warnings + Warnings(init) + [w] == st.warnings + (Warnings(init) + [w]);
        assert st.details + Details(init) + [] == st.details + Details(init);
      case Detail(d) =>
        assert st.details + Details(init) + [d] == st.details + (Details(init) + [d]);
        assert st.warnings + Warnings(init) + [] == st.warnings + Warnings(init);
    }
  }

  lemma RunAtMostOne(st: ScoreState, r: seq<Adjustment>)
    requires |r| <= 1
    ensures Run(st, r) == if r == [] then st else Step(st, r[0])
  {
    if r != [] {
      assert r[..0] == [];
    }
  }

  lemma {:induction false} RunAppend(st: ScoreState, a: seq<Adjustment>, b: seq<Adjustment>)
    ensures Run(st, a + b) == Run(Run(st, a), b)
    decreases |b|
  {
    if b == [] {
      assert a + b == a;
    } else {
      assert (a + b)[..|a + b| - 1] == a + b[..|b| - 1];
      assert (a + b)[|a + b| - 1] == b[|b| - 1];
      RunAppend(st, a, b[..|b| - 1]);
    }
  }

  /** The rules applied section by section reach the state of all adjustments at once. */
  lemma RunRules(g: Signals)
    ensures Run(Run(Run(Run(Run(Run(Run(Run(Start,
              SensationalRule(g.sensational)), MisinfoRule(g.misinfo)), ContextRule(g.articleCount, g.tally)),
              SourceCountRule(g.articleCount)), ReliabilityRule(g.reliable, g.articleCount)),
              RecencyRule(g.recent, g.articleCount)), AllCapsRule(g.allCaps)), PunctuationRule(g.excessivePunctuation))
            == Run(Start, AdjustmentsOf(g))
  {
    var r1 := SensationalRule(g.sensational);
    var r2 := MisinfoRule(g.misinfo);
    var r3 := ContextRule(g.articleCount, g.tally);
    var r4 := SourceCountRule(g.articleCount);
    var r5 := ReliabilityRule(g.reliable, g.articleCount);
    var r6 := RecencyRule(g.recent, g.articleCount);
    var r7 := AllCapsRule(g.allCaps);
    var r8 := PunctuationRule(g.excessivePunctuation);
    RunAppend(Start, r1, r2);
    RunAppend(Start, r1 + r2, r3);
    RunAppend(Start, r1 + r2 + r3, r4);
    RunAppend(Start, r1 + r2 + r3 + r4, r5);
    RunAppend(Start, r1 + r2 + r3 + r4 + r5, r6);
    RunAppend(Start, r1 + r2 + r3 + r4 + r5 + r6, r7);
    RunAppend(Start, r1 + r2 + r3 + r4 + r5 + r6 + r7, r8);
  }

  /** Every score lies in [0,100] and is TRUE exactly when at least 50; UNCERTAIN never occurs. */
  lemma ScoreAndVerdict(text: string, articles: seq<Article>, today: Today, now: int)
    ensures 0 <= CredibilityOf(text, articles, today, now).score <= 100
    ensures CredibilityOf(text, articles, today, now).verdict == TRUE
            <==> CredibilityOf(text, articles, today, now).score >= 50
    ensures CredibilityOf(text, articles, today, now).verdict != UNCERTAIN
  {
  }

  /** A factual match decides the result alone: 98/TRUE or 2/FALSE, three lines, whatever the articles. */
  lemma FactualShortCircuit(text: string, a1: seq<Article>, a2: seq<Article>, today: Today, now1: int, now2: int)
    requires CheckFacts(ToLower(text), today).Factual?
    ensures CredibilityOf(text, a1, today, now1) == CredibilityOf(text, a2, today, now2)
    ensures var r := CredibilityOf(text, a1, today, now1);
            |r.details| == 3 && r.details[0] == CheckFacts(ToLower(text), today).message
            && (if CheckFacts(ToLower(text), today).isTrue then r.score == 98 && r.verdict == TRUE
                else r.score == 2 && r.verdict == FALSE)
  {
  }

  /** The eight rules' sums, one per rule. */
  lemma {:induction false} SumOfRules(g: Signals)
    ensures SumDeltas(AdjustmentsOf(g)) ==
      SumDeltas(SensationalRule(g.sensational)) + SumDeltas(MisinfoRule(g.misinfo))
      + SumDeltas(ContextRule(g.articleCount, g.tally)) + SumDeltas(SourceCountRule(g.articleCount))
      + SumDeltas(ReliabilityRule(g.reliable, g.articleCount)) + SumDeltas(RecencyRule(g.recent, g.articleCount))
      + SumDeltas(AllCapsRule(g.allCaps)) + SumDeltas(PunctuationRule(g.excessivePunctuation))
  {
    var r1 := SensationalRule(g.sensational);
    var r2 := MisinfoRule(g.misinfo);
    var r3 := ContextRule(g.articleCount, g.tally);
    var r4 := SourceCountRule(g.articleCount);
    var r5 := ReliabilityRule(g.reliable, g.articleCount);
    var r6 := RecencyRule(g.recent, g.articleCount);
    var r7 := AllCapsRule(g.allCaps);
    var r8 := PunctuationRule(g.excessivePunctuation);
    SumAppend(r1, r2);
    SumAppend(r1 + r2, r3);
    SumAppend(r1 + r2 + r3, r4);
    SumAppend(r1 + r2 + r3 + r4, r5);
    SumAppend(r1 + r2 + r3 + r4 + r5, r6);
    SumAppend(r1 + r2 + r3 + r4 + r5 + r6, r7);
    SumAppend(r1 + r2 + r3 + r4 + r5 + r6 + r7, r8);
  }

  lemma SumAtMostOne(r: seq<Adjustment>)
    requires |r| <= 1
    ensures SumDeltas(r) == if r == [] then 0 else r[0].delta
  {
    if r != [] { assert r[..0] == []; }
  }

  /** The largest gain each rule can give: 15 for sources, 25 for reliability, 10 for recency, none otherwise. */
  lemma RuleGains(g: Signals)
    ensures SumDeltas(SensationalRule(g.sensational)) <= 0 && SumDeltas(MisinfoRule(g.misinfo)) <= 0
    ensures SumDeltas(ContextRule(g.articleCount, g.tally)) <= 0
    ensures SumDeltas(SourceCountRule(g.articleCount)) <= 15
    ensures SumDeltas(ReliabilityRule(g.reliable, g.articleCount)) <= 25
    ensures SumDeltas(RecencyRule(g.recent, g.articleCount)) <= 10
    ensures SumDeltas(AllCapsRule(g.allCaps)) <= 0 && SumDeltas(PunctuationRule(g.excessivePunctuation)) <= 0
  {
    SumAtMostOne(SensationalRule(g.sensational));
    SumAtMostOne(MisinfoRule(g.misinfo));
    SumAtMostOne(ContextRule(g.articleCount, g.tally));
    SumAtMostOne(SourceCountRule(g.articleCount));
    SumAtMostOne(ReliabilityRule(g.reliable, g.articleCount));
    SumAtMostOne(RecencyRule(g.recent, g.articleCount));
    SumAtMostOne(AllCapsRule(g.allCaps));
    SumAtMostOne(PunctuationRule(g.excessivePunctuation));
  }

  /** The positive adjustments add at most 50, so the upper clamp never changes a score. */
  lemma SumDeltasAtMost50(g: Signals)
    ensures 50 + SumDeltas(AdjustmentsOf(g)) <= 100
    ensures Scored(g).score == if 50 + SumDeltas(AdjustmentsOf(g)) < 0 then 0 else 50 + SumDeltas(AdjustmentsOf(g))
  {
    SumOfRules(g);
    RuleGains(g);
    RunAccumulates(Start, AdjustmentsOf(g));
  }

  /** With no articles only the -30 for no sources and the penalties remain: at most 20, always FALSE. */
  lemma NoArticlesScored(g: Signals)
    requires g.articleCount == 0 && g.reliable == 0 && g.recent == 0
    ensures Scored(g).score <= 20 && Scored(g).verdict == FALSE
  {
    SumOfRules(g);
    RuleGains(g);
    SumAtMostOne(SourceCountRule(0));
    RunAccumulates(Start, AdjustmentsOf(g));
  }

  /** Without articles a non-factual claim scores at most 20 and is always FALSE. */
  lemma NoArticlesIsFalse(text: string, today: Today, now: int)
    requires CheckFacts(ToLower(text), today) == NotFactual
    ensures CredibilityOf(text, [], today, now).score <= 20
    ensures CredibilityOf(text, [], today, now).verdict == FALSE
  {
    NoArticlesScored(Measure(text, [], now));
  }

  /* ---------------- the scorer ---------------- */

  /** `analyzeCredibility`: `score` and the two line lists are updated rule by rule. */
  method AnalyzeCredibility(text: string, articles: seq<Article>, today: Today, now: int) returns (r: Analysis)
    ensures r == CredibilityOf(text, articles, today, now)
  {
    var textLower := ToLower(text);
    var factCheck := CheckFactualClaims(textLower, today);
    if factCheck.Factual? {
      return FactualAnalysis(factCheck.isTrue, factCheck.message);
    }
    r := ScoreByEvidence(text, textLower, articles, now);
  }

  /** The numeric part of `analyzeCredibility`, past the factual short-circuit: measure, then score. */
  method ScoreByEvidence(text: string, textLower: string, articles: seq<Article>, now: int) returns (r: Analysis)
    requires textLower == ToLower(text)
    ensures r == RuleBased(text, articles, now)
  {
    var sensationalCount := CountMatches(textLower, SensationalWords);
    var misinfoCount := CountMatches(textLower, MisinfoIndicators);
    var claimKeywords := ExtractKeywords(textLower);
    var context := AnalyzeArticleContext(articles, claimKeywords);
    var reliableCount := ReliableCount(articles);
    var recentArticles := RecentCount(articles, now);
    var hasAllCaps := HasAllCaps(text);
    var excessivePunctuation := HasExcessivePunctuation(text);
    var g := Signals(sensationalCount, misinfoCount, |articles|, context, reliableCount, recentArticles,
                     hasAllCaps, excessivePunctuation);
    r := ApplyScoreTable(g);
  }

  /** `words.forEach(word => { if (textLower.includes(word)) count++ })`. */
  method CountMatches(textLower: string, words: seq<string>) returns (count: nat)
    ensures count == CountContained(textLower, words)
  {
    count := 0;
    for k := 0 to |words|
      invariant count == CountContained(textLower, words[..k])
    {
      assert words[..k + 1][..k] == words[..k];
      if Contains(textLower, words[k]) {
        count := count + 1;
      }
    }
    assert words[..|words|] == words;
  }

  /** Penalises the claim's wording: sensational words (10 for one, 20 for several), then any misinformation indicator (30). */
  method KeywordPenalties(st: ScoreState, sensationalCount: nat, misinfoCount: nat) returns (st': ScoreState)
    ensures st' == Run(Run(st, SensationalRule(sensationalCount)), MisinfoRule(misinfoCount))
  {
    RunAtMostOne(st, SensationalRule(sensationalCount));
    st' := st;
    if sensationalCount >= 2 {
      st' := st'.(score := st'.score - 20, warnings := st'.warnings + [SensationalMsg]);
    } else if sensationalCount == 1 {
      st' := st'.(score := st'.score - 10, warnings := st'.warnings + [PotentiallySensationalMsg]);
    }
    RunAtMostOne(st', MisinfoRule(misinfoCount));
    if misinfoCount >= 1 {
      st' := st'.(score := st'.score - 30, warnings := st'.warnings + [MisinfoMsg]);
    }
  }

  /** With articles present, penalises more refuting than supporting articles (30), else mere mentions without support (10). */
  method ContextPenalty(st: ScoreState, articleCount: nat, t: Tally) returns (st': ScoreState)
    ensures st' == Run(st, ContextRule(articleCount, t))
  {
    RunAtMostOne(st, ContextRule(articleCount, t));
    st' := st;
    if articleCount > 0 {
      if t.refuting > t.supporting {
        st' := st'.(score := st'.score - 30, warnings := st'.warnings + [ContradictingMsg(t.refuting)]);
      } else if t.supporting == 0 && t.neutral > 0 {
        st' := st'.(score := st'.score - 10, warnings := st'.warnings + [NoSupportMsg]);
      }
    }
  }

  /** Scores the article count: none (30 off), one or two (15 off), three or four (5 on), five or more (15 on). */
  method SourceCountAdjustment(st: ScoreState, articleCount: nat) returns (st': ScoreState)
    ensures st' == Run(st, SourceCountRule(articleCount))
  {
    RunAtMostOne(st, SourceCountRule(articleCount));
    st' := st;
    if articleCount == 0 {
      st' := st'.(score := st'.score - 30, details := st'.details + [NoSourcesMsg]);
    } else if articleCount == 1 || articleCount == 2 {
      st' := st'.(score := st'.score - 15, details := st'.details + [LimitedSourcesMsg]);
    } else if articleCount >= 3 && articleCount < 5 {
      st' := st'.(score := st'.score + 5, details := st'.details + [FewSourcesMsg]);
    } else if articleCount >= 5 {
      st' := st'.(score := st'.score + 15, details := st'.details + [MultipleSourcesMsg]);
    }
  }

  /** Scores the reliable outlets among the articles: none (20 off), three or more (25 on), one or two (10 on). */
  method ReliabilityAdjustment(st: ScoreState, reliableCount: nat, articleCount: nat) returns (st': ScoreState)
    ensures st' == Run(st, ReliabilityRule(reliableCount, articleCount))
  {
    RunAtMostOne(st, ReliabilityRule(reliableCount, articleCount));
    st' := st;
    if reliableCount == 0 && articleCount > 0 {
      st' := st'.(score := st'.score - 20, warnings := st'.warnings + [NoReliableMsg]);
    } else if reliableCount >= 3 {
      st' := st'.(score := st'.score + 25, details := st'.details + [ReliableConfirmMsg]);
    } else if reliableCount >= 1 {
      st' := st'.(score := st'.score + 10, details := st'.details + [SomeReliableMsg]);
    }
  }

  /** Rewards three or more articles from the last seven days (10 on); with articles but none recent, 10 off. */
  method RecencyAdjustment(st: ScoreState, recentArticles: nat, articleCount: nat) returns (st': ScoreState)
    ensures st' == Run(st, RecencyRule(recentArticles, articleCount))
  {
    RunAtMostOne(st, RecencyRule(recentArticles, articleCount));
    st' := st;
    if recentArticles >= 3 {
      st' := st'.(score := st'.score + 10, details := st'.details + [RecentMsg]);
    } else if recentArticles == 0 && articleCount > 0 {
      st' := st'.(score := st'.score - 10, warnings := st'.warnings + [NoRecentMsg]);
    }
  }

  /** Penalises an ALL-CAPS word and a run of `!`/`?` marks, 10 each. */
  method StylePenalties(st: ScoreState, hasAllCaps: bool, excessivePunctuation: bool) returns (st': ScoreState)
    ensures st' == Run(Run(st, AllCapsRule(hasAllCaps)), PunctuationRule(excessivePunctuation))
  {
    RunAtMostOne(st, AllCapsRule(hasAllCaps));
    st' := st;
    if hasAllCaps {
      st' := st'.(score := st'.score - 10, warnings := st'.warnings + [AllCapsMsg]);
    }
    RunAtMostOne(st', PunctuationRule(excessivePunctuation));
    if excessivePunctuation {
      st' := st'.(score := st'.score - 10, warnings := st'.warnings + [PunctuationMsg]);
    }
  }

  /** The score updates of `analyzeCredibility`, section by section from base 50, then the cap and verdict. */
  method ApplyScoreTable(g: Signals) returns (r: Analysis)
    ensures r == Scored(g)
  {
    var st := Start;
    st := KeywordPenalties(st, g.sensational, g.misinfo);
    st := ContextPenalty(st, g.articleCount, g.tally);
    st := SourceCountAdjustment(st, g.articleCount);
    st := ReliabilityAdjustment(st, g.reliable, g.articleCount);
    st := RecencyAdjustment(st, g.recent, g.articleCount);
    st := StylePenalties(st, g.allCaps, g.excessivePunctuation);
    RunRules(g);

    var score := if 0 > (if 100 < st.score then 100 else st.score) then 0
                 else (if 100 < st.score then 100 else st.score);
    var allDetails := st.warnings + st.details;
    var verdict := if score >= 50 then TRUE else FALSE;
    r := Analysis(score, verdict, allDetails);
  }
}
