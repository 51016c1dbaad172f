/**
 * The key check and the normalisation at the end of `verifyClaimWithAI`
 * (aiService.js, lines 89-93 and 168-210): the parsed model reply is turned
 * into a verdict, a credibility score and analysis lines under fixed rules.
 */
module AiService {
  import opened Wrappers
  import opened Text
  import opened Articles
  import opened Verdicts

  /**
   * The fields of the parsed JSON reply; `None` for an absent field. The
   * verdict is kept as the raw string the model wrote.
   */
  datatype RawReply = RawReply(verdict: Option<string>, confidence: Option<int>,
                               reasoning: Option<string>, sources: Option<seq<string>>)

  /** `{ verdict, credibilityScore, analysis, sources, aiPowered: true }`. */
  datatype AiResult = AiResult(verdict: Verdict, credibilityScore: int, analysis: seq<string>, sources: seq<string>)

  /** JavaScript truthiness of an optional string: present and non-empty. */
  predicate Truthy(s: Option<string>) { s.Some? && s.value != "" }

  /** `result.verdict || 'UNCERTAIN'`. */
  function RawVerdict(raw: RawReply): string {
    if Truthy(raw.verdict) then raw.verdict.value else "UNCERTAIN"
  }

  /** `result.confidence || 50`: an absent or zero confidence reads as 50. */
  function RawConfidence(raw: RawReply): (c: int)
    ensures c != 0
    ensures raw.confidence.None? || raw.confidence.value == 0 ==> c == 50
    ensures raw.confidence.Some? && raw.confidence.value != 0 ==> c == raw.confidence.value
  {
    if raw.confidence.Some? && raw.confidence.value != 0 then raw.confidence.value else 50
  }

  /** One of the three verdict words, read as a verdict. */
  function ParseVerdict(s: string): Option<Verdict> {
    if s == "TRUE" then Some(TRUE) else if s == "FALSE" then Some(FALSE)
    else if s == "UNCERTAIN" then Some(UNCERTAIN) else None
  }

  function VerdictWord(v: Verdict): string {
    match v
    case TRUE => "TRUE"
    case FALSE => "FALSE"
    case UNCERTAIN => "UNCERTAIN"
  }

  /** The verdict after normalisation: a known word is kept, anything else is read off the confidence. */
  function NormalVerdict(raw: RawReply): Verdict {
    match ParseVerdict(RawVerdict(raw))
    case Some(v) => v
    case None =>
      var c := RawConfidence(raw);
      if c >= 70 then TRUE else if c <= 40 then FALSE else UNCERTAIN
  }

  /** The score: a firm verdict below 90 is raised to 95, an uncertain one above 60 lowered to 50, then capped. */
  function NormalScore(raw: RawReply): int {
    var v := NormalVerdict(raw);
    var c := RawConfidence(raw);
    var forced := if v != UNCERTAIN && c < 90 then 95 else if v == UNCERTAIN && c > 60 then 50 else c;
    if forced > 100 then 100 else if forced < 0 then 0 else forced
  }

  /** `✓ reasoning` when there is reasoning, then `Sources: ` and the first three sources. */
  function AnalysisLines(raw: RawReply): seq<string> {
    (if Truthy(raw.reasoning) then ["✓ " + raw.reasoning.value] else [])
    + (if raw.sources.Some? && |raw.sources.value| > 0
       then ["Sources: " + Join(Take(raw.sources.value, 3), ", ")] else [])
  }

  function Normalize(raw: RawReply): AiResult {
    AiResult(NormalVerdict(raw), NormalScore(raw), AnalysisLines(raw),
             if raw.sources.Some? then raw.sources.value else [])
  }

  /* ---------------- properties ---------------- */

  /**
   * Scores lie in [0,100]; a firm verdict scores at least 90, an uncertain one
   * at most 60. A firm verdict below 90 is forced to exactly 95, an uncertain
   * one above 60 to exactly 50; any other confidence passes through, clamped.
   */
  lemma NormalScoreBands(raw: RawReply)
    ensures 0 <= NormalScore(raw) <= 100
    ensures NormalVerdict(raw) != UNCERTAIN ==> NormalScore(raw) >= 90
    ensures NormalVerdict(raw) == UNCERTAIN ==> NormalScore(raw) <= 60
    ensures NormalVerdict(raw) != UNCERTAIN && RawConfidence(raw) < 90 ==> NormalScore(raw) == 95
    ensures NormalVerdict(raw) == UNCERTAIN && RawConfidence(raw) > 60 ==> NormalScore(raw) == 50
    ensures var c := RawConfidence(raw);
            (NormalVerdict(raw) != UNCERTAIN && c >= 90) || (NormalVerdict(raw) == UNCERTAIN && c <= 60) ==>
            NormalScore(raw) == (if c > 100 then 100 else if c < 0 then 0 else c)
  {
  }

  /** A reply whose verdict is one of the three words keeps it; any other verdict follows the confidence. */
  lemma NormalVerdictCases(raw: RawReply)
    ensures RawVerdict(raw) in ["TRUE", "FALSE", "UNCERTAIN"] ==> VerdictWord(NormalVerdict(raw)) == RawVerdict(raw)
    ensures RawVerdict(raw) !in ["TRUE", "FALSE", "UNCERTAIN"] ==>
      (NormalVerdict(raw) == TRUE <==> RawConfidence(raw) >= 70)
      && (NormalVerdict(raw) == FALSE <==> RawConfidence(raw) <= 40)
  {
  }

  /** Feeding a normalised result back through the rules changes nothing, unless its score is 0. */
  lemma {:induction false} NormalizeIdempotent(raw: RawReply)
    requires NormalScore(raw) != 0
    ensures var again := RawReply(Some(VerdictWord(NormalVerdict(raw))), Some(NormalScore(raw)),
                                  raw.reasoning, raw.sources);
            NormalVerdict(again) == NormalVerdict(raw) && NormalScore(again) == NormalScore(raw)
  {
    var again := RawReply(Some(VerdictWord(NormalVerdict(raw))), Some(NormalScore(raw)), raw.reasoning, raw.sources);
    assert ParseVerdict(VerdictWord(NormalVerdict(raw))) == Some(NormalVerdict(raw));
    assert RawConfidence(again) == NormalScore(raw);
    NormalScoreBands(raw);
  }

  /** A zero score is not a fixed point: an UNCERTAIN result with score 0 comes back with 50. */
  lemma ZeroScoreNotFixed()
    ensures var raw := RawReply(Some("UNCERTAIN"), Some(-5), None, None);
            NormalScore(raw) == 0
            && NormalScore(RawReply(Some("UNCERTAIN"), Some(0), None, None)) == 50
  {
  }

  /** The analysis is at most two lines: the reasoning line first, then the sources line. */
  lemma AnalysisShape(raw: RawReply)
    ensures |AnalysisLines(raw)| <= 2
    ensures |AnalysisLines(raw)| == (if Truthy(raw.reasoning) then 1 else 0)
                                    + (if raw.sources.Some? && |raw.sources.value| > 0 then 1 else 0)
    ensures Truthy(raw.reasoning) ==> AnalysisLines(raw)[0] == "✓ " + raw.reasoning.value
    ensures raw.sources.Some? && |raw.sources.value| > 0 ==>
      AnalysisLines(raw)[|AnalysisLines(raw)| - 1] == "Sources: " + Join(Take(raw.sources.value, 3), ", ")
  {
  }

  /* ---------------- the adapter ---------------- */

  /** The tail of `verifyClaimWithAI`, past the model call: the fields are normalised in place. */
  method NormalizeAiResult(raw: RawReply) returns (r: AiResult)
    ensures r == Normalize(raw)
  {
    var verdict := if Truthy(raw.verdict) then raw.verdict.value else "UNCERTAIN";
    var confidence := if raw.confidence.Some? && raw.confidence.value != 0 then raw.confidence.value else 50;

    var analysis: seq<string> := [];
    if Truthy(raw.reasoning) {
      analysis := analysis + ["✓ " + raw.reasoning.value];
    }
    if raw.sources.Some? && |raw.sources.value| > 0 {
      analysis := analysis + ["Sources: " + Join(Take(raw.sources.value, 3), ", ")];
    }

    if verdict != "TRUE" && verdict != "FALSE" && verdict != "UNCERTAIN" {
      verdict := if confidence >= 70 then "TRUE" else if confidence <= 40 then "FALSE" else "UNCERTAIN";
    }

    if verdict == "TRUE" && confidence < 90 {
      confidence := 95;
    } else if verdict == "FALSE" && confidence < 90 {
      confidence := 95;
    } else if verdict == "UNCERTAIN" && confidence > 60 {
      confidence := 50;
    }

    var v := if verdict == "TRUE" then TRUE else if verdict == "FALSE" then FALSE else UNCERTAIN;
    var score := if 100 < (if 0 > confidence then 0 else confidence) then 100
                 else (if 0 > confidence then 0 else confidence);
    r := AiResult(v, score, analysis, if raw.sources.Some? then raw.sources.value else []);
  }

  /**
   * `verifyClaimWithAI` below the hard-coded overrides: no result without a
   * configured key; a failed call (`None`) is no result either.
   */
  method VerifyClaimWithAI(groqKey: string, reply: Option<RawReply>) returns (r: Option<AiResult>)
    ensures r == AiVerification(groqKey, reply)
  {
    if groqKey == "" || groqKey == "YOUR_GROQ_API_KEY" {
      return None;
    }
    if reply.None? {
      return None;
    }
    var result := NormalizeAiResult(reply.value);
    r := Some(result);
  }

  function AiVerification(groqKey: string, reply: Option<RawReply>): Option<AiResult> {
    if groqKey == "" || groqKey == "YOUR_GROQ_API_KEY" || reply.None? then None else Some(Normalize(reply.value))
  }

  /** With no usable key the adapter never answers, so the rule-based scorer decides. */
  lemma UnconfiguredGivesNoResult(reply: Option<RawReply>)
    ensures AiVerification("", reply) == None
    ensures AiVerification("YOUR_GROQ_API_KEY", reply) == None
  {
  }
}
