/**
 * The few regular-expression forms the factual rule checker uses, with the
 * backtracking semantics of JavaScript's `RegExp.prototype.test`: a pattern
 * is a sequence of atoms, and it matches a text when it matches a prefix of
 * some suffix of it.
 */
module Patterns {
  import opened Text

  datatype Atom =
    | Lit(text: string)          // the literal characters
    | AnyOf(alts: seq<string>)   // `(?:a|b|c)` over literals
    | OptLit(text: string)       // `(?:text)?`
    | Spaces                     // `\s*`
    | OptSpaceOrDash             // `[\s-]?`
    | Digit                      // `\d`

  type Pattern = seq<Atom>

  /** `p` matches a prefix of `s`, with every choice of the backtracking matcher open. */
  predicate MatchesAt(p: Pattern, s: string)
    decreases |p|, |s|
  {
    if p == [] then true
    else match p[0]
      case Lit(t) => t <= s && MatchesAt(p[1..], s[|t|..])
      case AnyOf(alts) =>
        exists k :: 0 <= k < |alts| && alts[k] <= s && MatchesAt(p[1..], s[|alts[k]|..])
      case OptLit(t) => MatchesAt(p[1..], s) || (t <= s && MatchesAt(p[1..], s[|t|..]))
      case Spaces => MatchesAt(p[1..], s) || (s != [] && IsSpace(s[0]) && MatchesAt(p, s[1..]))
      case OptSpaceOrDash =>
        MatchesAt(p[1..], s) || (s != [] && (IsSpace(s[0]) || s[0] == '-') && MatchesAt(p[1..], s[1..]))
      case Digit => s != [] && IsDigit(s[0]) && MatchesAt(p[1..], s[1..])
  }

  /** `regex.test(s)`: the pattern matches starting at some position of `s`. */
  predicate Test(p: Pattern, s: string) {
    exists i :: 0 <= i <= |s| && MatchesAt(p, s[i..])
  }

  /** A one-literal pattern is a substring test. */
  lemma TestLiteral(t: string, s: string)
    ensures Test([Lit(t)], s) <==> Contains(s, t)
  {
    if Contains(s, t) {
      var i :| 0 <= i <= |s| && t <= s[i..];
      assert MatchesAt([Lit(t)], s[i..]);
    }
  }

  /** The first atom of `p` cannot consume a leading `\s` character. */
  predicate StartsSolid(p: Pattern) {
    p != [] &&
    match p[0]
      case Lit(t) => t != [] && !IsSpace(t[0])
      case Digit => true
      case _ => false
  }

  /**
   * Before an atom that cannot start with a space, `\s*` may as well take every
   * leading space: backtracking into the run never helps.
   */
  lemma {:induction false} SpacesGreedy(rest: Pattern, s: string)
    requires StartsSolid(rest)
    ensures MatchesAt([Spaces] + rest, s) <==> MatchesAt(rest, DropSpaces(s))
    decreases |s|
  {
    var p := [Spaces] + rest;
    assert p[1..] == rest;
    if s != [] && IsSpace(s[0]) {
      SpacesGreedy(rest, s[1..]);
      assert !MatchesAt(rest, s) by {
        match rest[0]
        case Lit(t) => assert !(t <= s) by { assert t[0] != s[0]; }
        case Digit => assert !IsDigit(s[0]);
      }
    }
  }

  lemma DigitStep(rest: Pattern, s: string)
    ensures MatchesAt([Digit] + rest, s) <==> s != [] && IsDigit(s[0]) && MatchesAt(rest, s[1..])
  {
    assert ([Digit] + rest)[1..] == rest;
  }

  /** `\d\d\d\d` matches a prefix of `s` exactly when `s` starts with four digits. */
  lemma FourDigitsMatch(s: string)
    ensures MatchesAt([Digit, Digit, Digit, Digit], s)
            <==> |s| >= 4 && IsDigit(s[0]) && IsDigit(s[1]) && IsDigit(s[2]) && IsDigit(s[3])
  {
    DigitStep([Digit, Digit, Digit], s);
    if s != [] {
      DigitStep([Digit, Digit], s[1..]);
      if |s| > 1 {
        DigitStep([Digit], s[2..]);
        assert s[1..][1..] == s[2..];
        if |s| > 2 {
          DigitStep([], s[3..]);
          assert s[2..][1..] == s[3..];
        }
      }
    }
  }
}
