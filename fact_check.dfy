/**
 * `checkFactualClaims` (newsController.js, lines 373-480): an ordered table
 * of rules tried on the lower-cased claim, first match wins: weekday claims,
 * then the year claim, then month claims, then known-false statements, then
 * known-true statements. The current date is a parameter.
 */
module FactCheck {
  import opened Wrappers
  import opened Text
  import opened Patterns

  const DayNames: seq<string> := ["sunday", "monday", "tuesday", "wednesday", "thursday", "friday", "saturday"]
  const MonthNames: seq<string> := ["january", "february", "march", "april", "may", "june", "july",
    "august", "september", "october", "november", "december"]

  type Weekday = d: nat | d < 7
  type MonthIndex = m: nat | m < 12

  /** What `new Date()` contributes: `getDay()`, `getMonth()` and `getFullYear()`. */
  datatype Today = Today(weekday: Weekday, month: MonthIndex, year: int)

  datatype FactResult = NotFactual | Factual(isTrue: bool, message: string)

  /* ---------------- weekday claims (lines 384-400) ---------------- */

  /** `today is <day>`, `it is <day>`, `it's <day>`: three literal patterns. */
  function DayPatterns(d: Weekday): seq<Pattern> {
    [[Lit("today is " + DayNames[d])], [Lit("it is " + DayNames[d])], [Lit("it's " + DayNames[d])]]
  }

  predicate DayClaimed(text: string, d: Weekday) {
    Test(DayPatterns(d)[0], text) || Test(DayPatterns(d)[1], text) || Test(DayPatterns(d)[2], text)
  }

  function DayMessage(d: Weekday, today: Today): string {
    if d == today.weekday then "Today is indeed " + Capitalize(DayNames[today.weekday])
    else "Today is " + Capitalize(DayNames[today.weekday]) + ", not " + Capitalize(DayNames[d])
  }

  /* ---------------- the year claim (lines 402-415) ---------------- */

  const YearLeads: seq<string> := ["year is", "it is", "it's", "current year is"]

  /** `/(?:year is|it is|it's|current year is)\s*(\d{4})/`. */
  const YearPattern: Pattern := [AnyOf(YearLeads), Spaces, Digit, Digit, Digit, Digit]

  predicate FourDigits(u: string) {
    |u| >= 4 && IsDigit(u[0]) && IsDigit(u[1]) && IsDigit(u[2]) && IsDigit(u[3])
  }

  /** `\s*(\d{4})` matches at the start of `u`. */
  predicate YearFollows(u: string) {
    FourDigits(DropSpaces(u))
  }

  /** The value of the four digits `\s*(\d{4})` captures. */
  function YearDigits(u: string): nat
    requires YearFollows(u)
  {
    DigitsValue(DropSpaces(u)[..4])
  }

  /**
   * The captured group when the year pattern matches at the start of `t`,
   * trying the alternatives from the `k`-th on.
   */
  function LeadThenYear(leads: seq<string>, t: string, k: nat): Option<nat>
    decreases |leads| - k
  {
    if k >= |leads| then None
    else if leads[k] <= t && YearFollows(t[|leads[k]|..]) then Some(YearDigits(t[|leads[k]|..]))
    else LeadThenYear(leads, t, k + 1)
  }

  /** The leftmost match from position `i` on, as `String.prototype.match` finds it. */
  function ClaimedYearFrom(leads: seq<string>, s: string, i: nat): Option<nat>
    decreases |s| + 1 - i
  {
    if i > |s| then None
    else if LeadThenYear(leads, s[i..], 0).Some? then LeadThenYear(leads, s[i..], 0)
    else ClaimedYearFrom(leads, s, i + 1)
  }

  /** `parseInt(text.match(yearPattern)[1])`, or `None` when there is no match. */
  function ClaimedYear(s: string): Option<nat> {
    ClaimedYearFrom(YearLeads, s, 0)
  }

  function YearMessage(claimed: nat, today: Today): string {
    if claimed == today.year then "The current year is indeed " + IntToString(today.year)
    else "The current year is " + IntToString(today.year) + ", not " + NatToString(claimed)
  }

  lemma {:induction false} LeadThenYearSome(leads: seq<string>, t: string, k: nat)
    ensures LeadThenYear(leads, t, k).Some? <==>
      exists j :: k <= j < |leads| && leads[j] <= t && YearFollows(t[|leads[j]|..])
    decreases |leads| - k
  {
    if k < |leads| { LeadThenYearSome(leads, t, k + 1); }
  }

  lemma LeadsThenYearMatch(leads: seq<string>, t: string)
    ensures LeadThenYear(leads, t, 0).Some? <==> MatchesAt([AnyOf(leads), Spaces, Digit, Digit, Digit, Digit], t)
  {
    LeadThenYearSome(leads, t, 0);
    var d4: Pattern := [Digit, Digit, Digit, Digit];
    var p: Pattern := [AnyOf(leads), Spaces, Digit, Digit, Digit, Digit];
    assert p[1..] == [Spaces] + d4;
    forall j | 0 <= j < |leads| && leads[j] <= t
      ensures MatchesAt(p[1..], t[|leads[j]|..]) <==> YearFollows(t[|leads[j]|..])
    {
      var u := t[|leads[j]|..];
      SpacesGreedy(d4, u);
      FourDigitsMatch(DropSpaces(u));
    }
  }

  lemma {:induction false} ClaimedYearFromSome(leads: seq<string>, s: string, i: nat)
    ensures ClaimedYearFrom(leads, s, i).Some? <==>
      exists j :: i <= j <= |s| && MatchesAt([AnyOf(leads), Spaces, Digit, Digit, Digit, Digit], s[j..])
    decreases |s| + 1 - i
  {
    if i <= |s| {
      LeadsThenYearMatch(leads, s[i..]);
      ClaimedYearFromSome(leads, s, i + 1);
    }
  }

  /** A year is captured exactly when the year regular expression matches the text. */
  lemma ClaimedYearMatches(s: string)
    ensures ClaimedYear(s).Some? <==> Test(YearPattern, s)
  {
    ClaimedYearFromSome(YearLeads, s, 0);
  }

  /* ---------------- month claims (lines 417-430) ---------------- */

  const MonthLeads: seq<string> := ["current month is", "it is", "it's", "month is"]

  /** `(?:current month is|it is|it's|month is)\s*<month>`. */
  function MonthPattern(m: MonthIndex): Pattern {
    [AnyOf(MonthLeads), Spaces, Lit(MonthNames[m])]
  }

  function MonthMessage(m: MonthIndex, today: Today): string {
    if m == today.month then "The current month is indeed " + Capitalize(MonthNames[today.month])
    else "The current month is " + Capitalize(MonthNames[today.month]) + ", not " + Capitalize(MonthNames[m])
  }

  /* ---------------- known statements (lines 432-477) ---------------- */

  datatype KnownClaim = KnownClaim(pattern: Pattern, message: string)

  const KnownFalseCount: nat := 14

  /** The `i`-th statement known to be false, with its correction. */
  function KnownFalseClaim(i: nat): KnownClaim
    requires i < KnownFalseCount
  {
    if i == 0 then KnownClaim([Lit("earth is flat")], "The Earth is not flat - it is an oblate spheroid (confirmed by science)")
    else if i == 1 then KnownClaim([Lit("sun revolves around earth")], "The Earth revolves around the Sun, not vice versa")
    else if i == 2 then KnownClaim([Lit("water is not wet")], "Water is wet by scientific definition")
    else if i == 3 then KnownClaim([Lit("humans can breathe underwater")], "Humans cannot breathe underwater without equipment")
    else if i == 4 then KnownClaim([Lit("moon is made of cheese")], "The Moon is made of rock, not cheese")
    else if i == 5 then KnownClaim([Lit("2+2"), Spaces, Lit("="), Spaces, Lit("5")], "2+2 equals 4, not 5")
    else if i == 6 then KnownClaim([Lit("sky is green")], "The sky is blue, not green (except in rare atmospheric conditions)")
    else if i == 7 then KnownClaim([Lit("5g causes cancer")], "5G does not cause cancer - no scientific evidence supports this claim")
    else if i == 8 then KnownClaim([Lit("vaccines cause autism")],
      "Vaccines do not cause autism - this has been thoroughly debunked by science")
    else if i == 9 then KnownClaim([Lit("covid"), OptSpaceOrDash, Lit("19 is a hoax")],
      "COVID-19 is a real virus confirmed by global health organizations")
    else if i == 10 then KnownClaim([Lit("climate change "), AnyOf(["is", "isn't"]), Lit(" "), OptLit("not "), Lit("real")],
      "Climate change is real and confirmed by 97% of climate scientists")
    else if i == 11 then KnownClaim([Lit("dinosaurs never existed")], "Dinosaurs existed - fossil evidence is overwhelming")
    else if i == 12 then KnownClaim([Lit("gravity "), AnyOf(["is", "isn't"]), Lit(" "), OptLit("not "), Lit("real")],
      "Gravity is a fundamental force of nature, scientifically proven")
    else KnownClaim([Lit("evolution is "), OptLit("just "), Lit("a theory")],
      "Evolution is a scientific theory supported by overwhelming evidence")
  }

  const KnownTrueCount: nat := 5

  /** The `i`-th statement known to be true, with its confirmation. */
  function KnownTrueClaim(i: nat): KnownClaim
    requires i < KnownTrueCount
  {
    if i == 0 then KnownClaim([AnyOf(["earth is round", "earth is sphere"])], "The Earth is indeed round (an oblate spheroid)")
    else if i == 1 then KnownClaim([Lit("earth revolves around "), OptLit("the "), Lit("sun")], "The Earth does revolve around the Sun")
    else if i == 2 then KnownClaim([Lit("water is wet")], "Water is indeed wet by definition")
    else if i == 3 then KnownClaim([Lit("humans need oxygen")], "Humans do need oxygen to survive")
    else KnownClaim([Lit("2+2"), Spaces, Lit("="), Spaces, Lit("4")], "2+2 does equal 4")
  }

  /* ---------------- the rule table ---------------- */

  datatype Rule = DayRule(day: Weekday) | YearRule | MonthRule(month: MonthIndex)
                | FalseRule(claim: KnownClaim) | TrueRule(claim: KnownClaim)

  const FalseStart: nat := 8 + |MonthNames|
  const TrueStart: nat := FalseStart + KnownFalseCount

  /** Every rule in the order the checker tries them. */
  function Rules(): (r: seq<Rule>)
    ensures |r| == TrueStart + KnownTrueCount
    ensures forall d :: 0 <= d < 7 ==> r[d] == DayRule(d)
    ensures r[7] == YearRule
    ensures forall m :: 0 <= m < 12 ==> r[8 + m] == MonthRule(m)
    ensures forall i :: 0 <= i < KnownFalseCount ==> r[FalseStart + i] == FalseRule(KnownFalseClaim(i))
    ensures forall i :: 0 <= i < KnownTrueCount ==> r[TrueStart + i] == TrueRule(KnownTrueClaim(i))
  {
    seq(7, d requires 0 <= d < 7 => DayRule(d)) + [YearRule]
    + seq(12, m requires 0 <= m < 12 => MonthRule(m))
    + seq(KnownFalseCount, i requires 0 <= i < KnownFalseCount => FalseRule(KnownFalseClaim(i)))
    + seq(KnownTrueCount, i requires 0 <= i < KnownTrueCount => TrueRule(KnownTrueClaim(i)))
  }

  /** What one rule reports on `text`, if it matches. */
  function Fire(rule: Rule, text: string, today: Today): (r: Option<FactResult>)
    ensures r.Some? ==> r.value.Factual?
  {
    match rule
    case DayRule(d) =>
      if DayClaimed(text, d) then Some(Factual(d == today.weekday, DayMessage(d, today))) else None
    case YearRule =>
      (match ClaimedYear(text)
       case Some(y) => Some(Factual(y == today.year, YearMessage(y, today)))
       case None => None)
    case MonthRule(m) =>
      if Test(MonthPattern(m), text) then Some(Factual(m == today.month, MonthMessage(m, today))) else None
    case FalseRule(c) => if Test(c.pattern, text) then Some(Factual(false, c.message)) else None
    case TrueRule(c) => if Test(c.pattern, text) then Some(Factual(true, c.message)) else None
  }

  /** What every rule of `rules` reports on `text`, in table order. */
  function Outcomes(rules: seq<Rule>, text: string, today: Today): (r: seq<Option<FactResult>>)
    ensures |r| == |rules|
    ensures forall j :: 0 <= j < |rules| ==> r[j] == Fire(rules[j], text, today)
  {
    seq(|rules|, j requires 0 <= j < |rules| => Fire(rules[j], text, today))
  }

  /** The first report from index `from` on, or `NotFactual` when there is none. */
  function FirstSome(outs: seq<Option<FactResult>>, from: nat): FactResult
    decreases |outs| - from
  {
    if from >= |outs| then NotFactual
    else match outs[from]
      case Some(res) => res
      case None => FirstSome(outs, from + 1)
  }

  /** The specification of `checkFactualClaims`. */
  function CheckFacts(text: string, today: Today): FactResult {
    FirstSome(Outcomes(Rules(), text, today), 0)
  }

  /* ---------------- properties ---------------- */

  lemma {:induction false} FirstSomeAt(outs: seq<Option<FactResult>>, from: nat, k: nat)
    requires from <= k < |outs|
    requires outs[k].Some?
    requires forall j :: from <= j < k ==> outs[j].None?
    ensures FirstSome(outs, from) == outs[k].value
    decreases k - from
  {
    if from < k { FirstSomeAt(outs, from + 1, k); }
  }

  lemma {:induction false} FirstSomeNone(outs: seq<Option<FactResult>>, from: nat)
    requires forall j :: from <= j < |outs| && outs[j].Some? ==> outs[j].value.Factual?
    ensures FirstSome(outs, from) == NotFactual <==>
      forall j :: from <= j < |outs| ==> outs[j].None?
    decreases |outs| - from
  {
    if from < |outs| { FirstSomeNone(outs, from + 1); }
  }

  /** First match wins: the earliest rule that matches decides the result. */
  lemma FirstMatchWins(text: string, today: Today, k: nat)
    requires k < |Rules()|
    requires Fire(Rules()[k], text, today).Some?
    requires forall j :: 0 <= j < k ==> Fire(Rules()[j], text, today).None?
    ensures CheckFacts(text, today) == Fire(Rules()[k], text, today).value
  {
    FirstSomeAt(Outcomes(Rules(), text, today), 0, k);
  }

  /** A claim is non-factual exactly when no rule of the table matches it. */
  lemma NotFactualIffNoRule(text: string, today: Today)
    ensures CheckFacts(text, today) == NotFactual <==>
      forall j :: 0 <= j < |Rules()| ==> Fire(Rules()[j], text, today).None?
  {
    FirstSomeNone(Outcomes(Rules(), text, today), 0);
  }

  /** A weekday claim is true exactly when the claimed day is today; earlier days in the list win. */
  lemma DayClaimVerdict(text: string, today: Today, d: Weekday)
    requires DayClaimed(text, d)
    requires forall e: Weekday :: e < d ==> !DayClaimed(text, e)
    ensures CheckFacts(text, today) == Factual(d == today.weekday, DayMessage(d, today))
  {
    FirstMatchWins(text, today, d);
  }

  /** Without a weekday claim, a year claim is true exactly when it names the current year. */
  lemma YearClaimVerdict(text: string, today: Today, y: nat)
    requires forall e: Weekday :: !DayClaimed(text, e)
    requires ClaimedYear(text) == Some(y)
    ensures CheckFacts(text, today) == Factual(y == today.year, YearMessage(y, today))
  {
    FirstMatchWins(text, today, 7);
  }

  /** Without weekday or year claims, the first month named decides, against the current month. */
  lemma MonthClaimVerdict(text: string, today: Today, m: MonthIndex)
    requires forall e: Weekday :: !DayClaimed(text, e)
    requires ClaimedYear(text).None?
    requires Test(MonthPattern(m), text)
    requires forall n: MonthIndex :: n < m ==> !Test(MonthPattern(n), text)
    ensures CheckFacts(text, today) == Factual(m == today.month, MonthMessage(m, today))
  {
    var rules := Rules();
    forall j | 0 <= j < 8 + m ensures Fire(rules[j], text, today).None? {
      if j < 7 { assert rules[j] == DayRule(j); }
      else if j > 7 { assert rules[j] == MonthRule(j - 8); }
    }
    FirstMatchWins(text, today, 8 + m);
  }

  /** No date claim but a known-false statement: the claim is reported false. */
  lemma KnownFalseVerdict(text: string, today: Today, i: nat)
    requires forall e: Weekday :: !DayClaimed(text, e)
    requires ClaimedYear(text).None?
    requires forall n: MonthIndex :: !Test(MonthPattern(n), text)
    requires i < KnownFalseCount && Test(KnownFalseClaim(i).pattern, text)
    requires forall j :: 0 <= j < i ==> !Test(KnownFalseClaim(j).pattern, text)
    ensures CheckFacts(text, today) == Factual(false, KnownFalseClaim(i).message)
  {
    var rules := Rules();
    forall j | 0 <= j < FalseStart + i ensures Fire(rules[j], text, today).None? {
      if j < 7 { assert rules[j] == DayRule(j); }
      else if j == 7 { }
      else if j < FalseStart { assert rules[j] == MonthRule(j - 8); }
      else { assert rules[j] == FalseRule(KnownFalseClaim(j - FalseStart)); }
    }
    FirstMatchWins(text, today, FalseStart + i);
  }

  /** No date claim, no known-false statement, but a known-true one: the claim is reported true. */
  lemma KnownTrueVerdict(text: string, today: Today, i: nat)
    requires forall e: Weekday :: !DayClaimed(text, e)
    requires ClaimedYear(text).None?
    requires forall n: MonthIndex :: !Test(MonthPattern(n), text)
    requires forall j :: 0 <= j < KnownFalseCount ==> !Test(KnownFalseClaim(j).pattern, text)
    requires i < KnownTrueCount && Test(KnownTrueClaim(i).pattern, text)
    requires forall j :: 0 <= j < i ==> !Test(KnownTrueClaim(j).pattern, text)
    ensures CheckFacts(text, today) == Factual(true, KnownTrueClaim(i).message)
  {
    var rules := Rules();
    forall j | 0 <= j < TrueStart + i ensures Fire(rules[j], text, today).None? {
      if j < 7 { assert rules[j] == DayRule(j); }
      else if j == 7 { }
      else if j < FalseStart { assert rules[j] == MonthRule(j - 8); }
      else if j < TrueStart { assert rules[j] == FalseRule(KnownFalseClaim(j - FalseStart)); }
      else { assert rules[j] == TrueRule(KnownTrueClaim(j - TrueStart)); }
    }
    FirstMatchWins(text, today, TrueStart + i);
  }

  /* ---------------- the checker ---------------- */

  /** `checkFactualClaims(text_lower)`: the five table sections in order, each with early returns. */
  method CheckFactualClaims(textLower: string, today: Today) returns (r: FactResult)
    ensures r == CheckFacts(textLower, today)
  {
    var found := CheckDays(textLower, today);
    if found.Some? { return found.value; }
    found := CheckYear(textLower, today);
    if found.Some? { return found.value; }
    found := CheckMonths(textLower, today);
    if found.Some? { return found.value; }
    found := CheckKnownFalse(textLower, today);
    if found.Some? { return found.value; }
    found := CheckKnownTrue(textLower, today);
    if found.Some? { return found.value; }
    return NotFactual;
  }

  /** The weekday loop (lines 384-400): a report here is the checker's answer. */
  method CheckDays(textLower: string, today: Today) returns (r: Option<FactResult>)
    ensures r.Some? ==> r.value == CheckFacts(textLower, today)
    ensures r.None? ==> FirstSome(Outcomes(Rules(), textLower, today), 7) == CheckFacts(textLower, today)
  {
    ghost var outs := Outcomes(Rules(), textLower, today);
    for d := 0 to 7
      invariant FirstSome(outs, d) == CheckFacts(textLower, today)
    {
      var patterns := DayPatterns(d);
      if Test(patterns[0], textLower) || Test(patterns[1], textLower) || Test(patterns[2], textLower) {
        return Some(Factual(d == today.weekday, DayMessage(d, today)));
      }
    }
    return None;
  }

  /** The year check (lines 402-415). */
  method CheckYear(textLower: string, today: Today) returns (r: Option<FactResult>)
    requires FirstSome(Outcomes(Rules(), textLower, today), 7) == CheckFacts(textLower, today)
    ensures r.Some? ==> r.value == CheckFacts(textLower, today)
    ensures r.None? ==> FirstSome(Outcomes(Rules(), textLower, today), 8) == CheckFacts(textLower, today)
  {
    ghost var outs := Outcomes(Rules(), textLower, today);
    assert outs[7] == Fire(YearRule, textLower, today);
    var yearMatch := ClaimedYear(textLower);
    if yearMatch.Some? {
      return Some(Factual(yearMatch.value == today.year, YearMessage(yearMatch.value, today)));
    }
    return None;
  }

  /** The month loop (lines 417-430). */
  method CheckMonths(textLower: string, today: Today) returns (r: Option<FactResult>)
    requires FirstSome(Outcomes(Rules(), textLower, today), 8) == CheckFacts(textLower, today)
    ensures r.Some? ==> r.value == CheckFacts(textLower, today)
    ensures r.None? ==> FirstSome(Outcomes(Rules(), textLower, today), FalseStart) == CheckFacts(textLower, today)
  {
    ghost var outs := Outcomes(Rules(), textLower, today);
    for m := 0 to 12
      invariant FirstSome(outs, 8 + m) == CheckFacts(textLower, today)
    {
      assert outs[8 + m] == Fire(MonthRule(m), textLower, today);
      if Test(MonthPattern(m), textLower) {
        return Some(Factual(m == today.month, MonthMessage(m, today)));
      }
    }
    return None;
  }

  /** The loop over the known-false statements (lines 432-462). */
  method CheckKnownFalse(textLower: string, today: Today) returns (r: Option<FactResult>)
    requires FirstSome(Outcomes(Rules(), textLower, today), FalseStart) == CheckFacts(textLower, today)
    ensures r.Some? ==> r.value == CheckFacts(textLower, today)
    ensures r.None? ==> FirstSome(Outcomes(Rules(), textLower, today), TrueStart) == CheckFacts(textLower, today)
  {
    ghost var outs := Outcomes(Rules(), textLower, today);
    for i := 0 to KnownFalseCount
      invariant FirstSome(outs, FalseStart + i) == CheckFacts(textLower, today)
    {
      if Test(KnownFalseClaim(i).pattern, textLower) {
        return Some(Factual(false, KnownFalseClaim(i).message));
      }
    }
    return None;
  }

  /** The loop over the known-true statements (lines 464-477). */
  method CheckKnownTrue(textLower: string, today: Today) returns (r: Option<FactResult>)
    requires FirstSome(Outcomes(Rules(), textLower, today), TrueStart) == CheckFacts(textLower, today)
    ensures r.Some? ==> r.value == CheckFacts(textLower, today)
    ensures r.None? ==> CheckFacts(textLower, today) == NotFactual
  {
    ghost var outs := Outcomes(Rules(), textLower, today);
    for i := 0 to KnownTrueCount
      invariant FirstSome(outs, TrueStart + i) == CheckFacts(textLower, today)
    {
      if Test(KnownTrueClaim(i).pattern, textLower) {
        return Some(Factual(true, KnownTrueClaim(i).message));
      }
    }
    return None;
  }
}
