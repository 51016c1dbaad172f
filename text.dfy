/**
 * The JavaScript string built-ins the core relies on, restricted to what the
 * rules use: ASCII case mapping, the `\s` character class, `includes`,
 * `split`, `join`, `trim` and integer formatting.
 */
module Text {

  /** JavaScript's `\s` class (and the set `trim` removes): WhiteSpace and LineTerminator. */
  predicate IsSpace(c: char) {
    c == ' ' || c == '\t' || c == '\n' || c == '\r' || c == '\U{000B}' || c == '\U{000C}'
    || c == '\U{00A0}' || c == '\U{1680}' || ('\U{2000}' <= c <= '\U{200A}')
    || c == '\U{2028}' || c == '\U{2029}' || c == '\U{202F}' || c == '\U{205F}'
    || c == '\U{3000}' || c == '\U{FEFF}'
  }

  predicate IsDigit(c: char) { '0' <= c <= '9' }

  predicate IsUpperAscii(c: char) { 'A' <= c <= 'Z' }

  predicate IsLowerAscii(c: char) { 'a' <= c <= 'z' }

  function LowerChar(c: char): (r: char)
    ensures !IsUpperAscii(r)
    ensures IsUpperAscii(c) ==> r as int == c as int + 32
    ensures !IsUpperAscii(c) ==> r == c
  {
    if IsUpperAscii(c) then (c as int + 32) as char else c
  }

  function UpperChar(c: char): (r: char)
    ensures !IsLowerAscii(r)
    ensures IsLowerAscii(c) ==> r as int == c as int - 32
    ensures !IsLowerAscii(c) ==> r == c
  {
    if IsLowerAscii(c) then (c as int - 32) as char else c
  }

  /** `String.prototype.toLowerCase` on ASCII letters. */
  function ToLower(s: string): (r: string)
    ensures |r| == |s|
    ensures forall i :: 0 <= i < |s| ==> r[i] == LowerChar(s[i])
  {
    seq(|s|, i requires 0 <= i < |s| => LowerChar(s[i]))
  }

  /** `String.prototype.toUpperCase` on ASCII letters. */
  function ToUpper(s: string): (r: string)
    ensures |r| == |s|
    ensures forall i :: 0 <= i < |s| ==> r[i] == UpperChar(s[i])
  {
    seq(|s|, i requires 0 <= i < |s| => UpperChar(s[i]))
  }

  /** No upper-case ASCII letter occurs in `s`. */
  predicate IsLowerCase(s: string) {
    forall i :: 0 <= i < |s| ==> !IsUpperAscii(s[i])
  }

  /**
   * Lower-casing gives a lower-case text, is idempotent, leaves a text that is
   * already lower-case alone, and forgets the case of the input.
   */
  lemma ToLowerProperties(s: string)
    ensures IsLowerCase(ToLower(s))
    ensures ToLower(ToLower(s)) == ToLower(s)
    ensures ToLower(s) == s <==> IsLowerCase(s)
    ensures ToLower(ToUpper(s)) == ToLower(s)
  {
    if IsLowerCase(s) {
      assert ToLower(s) == s;
    }
  }

  /** Upper-casing leaves `s` unchanged exactly when it holds no lower-case ASCII letter. */
  lemma ToUpperFixed(s: string)
    ensures ToUpper(s) == s <==> forall i :: 0 <= i < |s| ==> !IsLowerAscii(s[i])
  {
    if ToUpper(s) == s {
      forall i | 0 <= i < |s| ensures !IsLowerAscii(s[i]) {
        assert ToUpper(s)[i] == UpperChar(s[i]);
      }
    }
  }

  /** `s.includes(t)`. */
  predicate Contains(s: string, t: string) {
    exists i :: 0 <= i <= |s| && t <= s[i..]
  }

  lemma ContainsAt(s: string, t: string, i: nat)
    requires i <= |s| && t <= s[i..]
    ensures Contains(s, t)
  {
  }

  /** `s.includes(w)` for at least one `w` of `words` (`words.some(w => s.includes(w))`). */
  predicate ContainsAny(s: string, words: seq<string>) {
    exists k :: 0 <= k < |words| && Contains(s, words[k])
  }

  /** The number of entries of `words` that occur in `s`; a counter bumped inside `forEach`. */
  function CountContained(s: string, words: seq<string>): (n: nat)
    ensures n <= |words|
    ensures n > 0 <==> ContainsAny(s, words)
    ensures n == |set k | 0 <= k < |words| && Contains(s, words[k])|
  {
    if words == [] then 0
    else
      ContainedIndicesSplit(s, words);
      CountContained(s, words[..|words| - 1]) + (if Contains(s, words[|words| - 1]) then 1 else 0)
  }

  /** The positions of contained words are those before the last one, and possibly the last. */
  lemma ContainedIndicesSplit(s: string, words: seq<string>)
    requires words != []
    ensures var init := words[..|words| - 1];
      && (forall k :: 0 <= k < |words| - 1 ==> init[k] == words[k])
      && (ContainsAny(s, init) || Contains(s, words[|words| - 1]) <==> ContainsAny(s, words))
      && (set k | 0 <= k < |words| && Contains(s, words[k]))
         == (set k | 0 <= k < |init| && Contains(s, init[k]))
            + (if Contains(s, words[|words| - 1]) then {|words| - 1} else {})
  {
    var init := words[..|words| - 1];
    assert forall k :: 0 <= k < |words| - 1 ==> init[k] == words[k];
  }

  /** `s` with its leading `\s` characters removed. */
  function DropSpaces(s: string): (r: string)
    ensures |r| <= |s|
    ensures r == [] || !IsSpace(r[0])
  {
    if s != [] && IsSpace(s[0]) then DropSpaces(s[1..]) else s
  }

  /** What `DropSpaces` removes is a run of spaces, and what it keeps is a suffix. */
  lemma {:induction false} DropSpacesSuffix(s: string)
    ensures DropSpaces(s) == s[|s| - |DropSpaces(s)|..]
    ensures forall i :: 0 <= i < |s| - |DropSpaces(s)| ==> IsSpace(s[i])
  {
    if s != [] && IsSpace(s[0]) { DropSpacesSuffix(s[1..]); }
  }

  /** `s` with every `\s` character removed. */
  function RemoveSpaces(s: string): (r: string)
    ensures forall i :: 0 <= i < |r| ==> !IsSpace(r[i])
  {
    if s == [] then [] else (if IsSpace(s[0]) then [] else [s[0]]) + RemoveSpaces(s[1..])
  }

  /** The pieces laid end to end. */
  function Concat(xs: seq<string>): string {
    if xs == [] then [] else xs[0] + Concat(xs[1..])
  }

  /** Removing the spaces of a text is not changed by first removing its leading ones. */
  lemma {:induction false} RemoveSpacesDrop(s: string)
    ensures RemoveSpaces(DropSpaces(s)) == RemoveSpaces(s)
    decreases |s|
  {
    if s != [] && IsSpace(s[0]) { RemoveSpacesDrop(s[1..]); }
  }

  /** The recursion behind `split(/\s+/)`: a white-space run closes a piece. */
  function SplitRuns(s: string): (r: seq<string>)
    ensures |r| >= 1
    decreases |s|
  {
    if s == [] then [""]
    else if IsSpace(s[0]) then [""] + SplitRuns(DropSpaces(s))
    else
      var rest := SplitRuns(s[1..]);
      [[s[0]] + rest[0]] + rest[1..]
  }

  /** The pieces of `SplitRuns` hold no white space, only characters of the text. */
  lemma {:induction false} SplitRunsChars(s: string)
    ensures forall k, i :: 0 <= k < |SplitRuns(s)| && 0 <= i < |SplitRuns(s)[k]| ==>
      !IsSpace(SplitRuns(s)[k][i]) && SplitRuns(s)[k][i] in s
    decreases |s|
  {
    if s == [] {
    } else if IsSpace(s[0]) {
      DropSpacesSuffix(s);
      var d := DropSpaces(s);
      SplitRunsChars(d);
      var rest, r := SplitRuns(d), SplitRuns(s);
      assert r == [""] + rest;
      forall k, i | 0 <= k < |r| && 0 <= i < |r[k]| ensures !IsSpace(r[k][i]) && r[k][i] in s {
        assert r[k][i] == rest[k - 1][i];
        assert rest[k - 1][i] in d;
      }
    } else {
      SplitRunsChars(s[1..]);
      var rest, r := SplitRuns(s[1..]), SplitRuns(s);
      assert r == [[s[0]] + rest[0]] + rest[1..];
      forall k, i | 0 <= k < |r| && 0 <= i < |r[k]| ensures !IsSpace(r[k][i]) && r[k][i] in s {
        if k == 0 && i == 0 {
        } else if k == 0 {
          assert r[0][i] == rest[0][i - 1] && rest[0][i - 1] in s[1..];
        } else {
          assert r[k][i] == rest[k][i] && rest[k][i] in s[1..];
        }
      }
    }
  }

  /** The pieces of `SplitRuns` spell the text without white space, and only the ends can be empty. */
  lemma {:induction false} SplitRunsSpell(s: string)
    ensures var r := SplitRuns(s);
      && Concat(r) == RemoveSpaces(s)
      && (forall k :: 0 < k < |r| - 1 ==> r[k] != [])
      && (s != [] && !IsSpace(s[0]) ==> r[0] != [])
    decreases |s|
  {
    if s == [] {
    } else if IsSpace(s[0]) {
      RemoveSpacesDrop(s);
      SplitRunsSpell(DropSpaces(s));
      var rest := SplitRuns(DropSpaces(s));
      assert Concat([""] + rest) == Concat(rest);
    } else {
      SplitRunsSpell(s[1..]);
      var rest := SplitRuns(s[1..]);
      var r := SplitRuns(s);
      assert r == [[s[0]] + rest[0]] + rest[1..];
      assert Concat(rest) == rest[0] + Concat(rest[1..]);
      assert Concat(r) == [s[0]] + rest[0] + Concat(rest[1..]);
    }
  }

  /**
   * `s.split(/\s+/)`: the pieces between maximal runs of `\s` characters. The
   * pieces hold no white space and together spell `s` without its white
   * space; only the first and the last piece can be empty.
   */
  function SplitSpaces(s: string): (r: seq<string>)
    ensures |r| >= 1
    ensures forall k, i :: 0 <= k < |r| && 0 <= i < |r[k]| ==> !IsSpace(r[k][i])
    ensures forall k, i :: 0 <= k < |r| && 0 <= i < |r[k]| ==> r[k][i] in s
    ensures Concat(r) == RemoveSpaces(s)
    ensures forall k :: 0 < k < |r| - 1 ==> r[k] != []
    ensures s != [] && !IsSpace(s[0]) ==> r[0] != []
  {
    SplitRunsChars(s);
    SplitRunsSpell(s);
    SplitRuns(s)
  }

  /** A text with no white space is a single piece. */
  lemma {:induction false} SplitSpacesNoSpace(s: string)
    requires forall i :: 0 <= i < |s| ==> !IsSpace(s[i])
    ensures SplitSpaces(s) == [s]
  {
    SplitRunsNoSpace(s);
  }

  lemma {:induction false} SplitRunsNoSpace(s: string)
    requires forall i :: 0 <= i < |s| ==> !IsSpace(s[i])
    ensures SplitRuns(s) == [s]
    decreases |s|
  {
    if s != [] {
      SplitRunsNoSpace(s[1..]);
      assert s == [s[0]] + s[1..];
    }
  }

  /** A run of white space followed by a text that does not start with one is dropped whole. */
  lemma {:induction false} DropSpacesRun(w: string, b: string)
    requires forall i :: 0 <= i < |w| ==> IsSpace(w[i])
    requires b == [] || !IsSpace(b[0])
    ensures DropSpaces(w + b) == b
    decreases |w|
  {
    if w == [] {
      assert w + b == b;
    } else {
      assert (w + b)[1..] == w[1..] + b;
      DropSpacesRun(w[1..], b);
    }
  }

  /** Leading white space of a text ending outside white space lies inside that text. */
  lemma {:induction false} DropSpacesPrefix(a: string, t: string)
    requires a != [] && !IsSpace(a[|a| - 1])
    ensures DropSpaces(a + t) == DropSpaces(a) + t
    ensures IsSpace(a[0]) ==> |DropSpaces(a)| < |a|
    ensures DropSpaces(a) != [] && !IsSpace(DropSpaces(a)[|DropSpaces(a)| - 1])
    decreases |a|
  {
    if IsSpace(a[0]) {
      assert |a| > 1;
      assert (a + t)[1..] == a[1..] + t;
      DropSpacesPrefix(a[1..], t);
    }
  }

  /**
   * A run of white space between two texts that do not touch it with white
   * space of their own separates their pieces.
   */
  lemma SplitSpacesSeparator(a: string, w: string, b: string)
    requires w != [] && forall i :: 0 <= i < |w| ==> IsSpace(w[i])
    requires a == [] || !IsSpace(a[|a| - 1])
    requires b == [] || !IsSpace(b[0])
    ensures SplitSpaces(a + w + b) == SplitSpaces(a) + SplitSpaces(b)
  {
    SplitRunsSeparator(a, w, b);
  }

  lemma {:induction false} SplitRunsSeparator(a: string, w: string, b: string)
    requires w != [] && forall i :: 0 <= i < |w| ==> IsSpace(w[i])
    requires a == [] || !IsSpace(a[|a| - 1])
    requires b == [] || !IsSpace(b[0])
    ensures SplitRuns(a + w + b) == SplitRuns(a) + SplitRuns(b)
    decreases |a|, 1
  {
    if a == [] {
      assert a + w + b == w + b;
      DropSpacesRun(w, b);
    } else if IsSpace(a[0]) {
      RunsSeparatorAfterSpace(a, w, b);
    } else {
      RunsSeparatorAfterWord(a, w, b);
    }
  }

  lemma {:induction false} RunsSeparatorAfterSpace(a: string, w: string, b: string)
    requires w != [] && forall i :: 0 <= i < |w| ==> IsSpace(w[i])
    requires a != [] && IsSpace(a[0]) && !IsSpace(a[|a| - 1])
    requires b == [] || !IsSpace(b[0])
    ensures SplitRuns(a + w + b) == SplitRuns(a) + SplitRuns(b)
    decreases |a|, 0
  {
    DropSpacesPrefix(a, w + b);
    var d := DropSpaces(a);
    SplitRunsSeparator(d, w, b);
    var rd, rb := SplitRuns(d), SplitRuns(b);
    assert a + w + b == a + (w + b);
    assert d + (w + b) == d + w + b;
    assert DropSpaces(a + w + b) == d + w + b;
    assert SplitRuns(a + w + b) == [""] + SplitRuns(d + w + b);
    assert SplitRuns(a) == [""] + rd;
    assert [""] + (rd + rb) == ([""] + rd) + rb;
  }

  lemma {:induction false} RunsSeparatorAfterWord(a: string, w: string, b: string)
    requires w != [] && forall i :: 0 <= i < |w| ==> IsSpace(w[i])
    requires a != [] && !IsSpace(a[0]) && !IsSpace(a[|a| - 1])
    requires b == [] || !IsSpace(b[0])
    ensures SplitRuns(a + w + b) == SplitRuns(a) + SplitRuns(b)
    decreases |a|, 0
  {
    var t := a[1..] + w + b;
    SplitRunsSeparator(a[1..], w, b);
    var ra, rb, rt := SplitRuns(a[1..]), SplitRuns(b), SplitRuns(t);
    assert rt == ra + rb;
    assert a + w + b == [a[0]] + t;
    assert a == [a[0]] + a[1..];
    SplitRunsCons(a[0], t);
    SplitRunsCons(a[0], a[1..]);
    ConsAppend([a[0]] + ra[0], ra, rb);
  }

  /** Replacing the head of `x + y` by `h` is replacing the head of `x`. */
  lemma ConsAppend<T>(h: T, x: seq<T>, y: seq<T>)
    requires x != []
    ensures [h] + (x + y)[1..] == ([h] + x[1..]) + y
  {
    assert (x + y)[1..] == x[1..] + y;
  }

  /** A text opening outside white space extends the first piece of the rest. */
  lemma SplitRunsCons(c: char, t: string)
    requires !IsSpace(c)
    ensures SplitRuns([c] + t) == [[c] + SplitRuns(t)[0]] + SplitRuns(t)[1..]
  {
    assert ([c] + t)[1..] == t;
  }

  /** `s.split(c)` for a one-character separator: every occurrence separates. */
  function SplitOn(s: string, c: char): (r: seq<string>)
    ensures |r| >= 1
    ensures forall k, i :: 0 <= k < |r| && 0 <= i < |r[k]| ==> r[k][i] != c
    ensures r[0] <= s
    ensures |r[0]| < |s| ==> s[|r[0]|] == c
  {
    if s == [] then [""]
    else if s[0] == c then [""] + SplitOn(s[1..], c)
    else
      var rest := SplitOn(s[1..], c);
      [[s[0]] + rest[0]] + rest[1..]
  }

  /** Without the separator there is nothing to split. */
  lemma {:induction false} SplitOnAbsent(s: string, c: char)
    requires forall i :: 0 <= i < |s| ==> s[i] != c
    ensures SplitOn(s, c) == [s]
    decreases |s|
  {
    if s != [] {
      SplitOnAbsent(s[1..], c);
      assert [s[0]] + s[1..] == s;
    }
  }

  /** Joining the pieces of `split(c)` with `c` gives back the text. */
  lemma {:induction false} SplitOnJoin(s: string, c: char)
    ensures Join(SplitOn(s, c), [c]) == s
    decreases |s|
  {
    if s != [] {
      SplitOnJoin(s[1..], c);
      var rest := SplitOn(s[1..], c);
      if s[0] == c {
        assert SplitOn(s, c) == [""] + rest;
        assert (([""] + rest)[1..]) == rest;
        assert s == [c] + s[1..];
      } else {
        var r := SplitOn(s, c);
        assert r == [[s[0]] + rest[0]] + rest[1..];
        assert r[1..] == rest[1..];
        if |rest| > 1 {
          assert Join(rest, [c]) == rest[0] + [c] + Join(rest[1..], [c]);
        }
        assert s == [s[0]] + s[1..];
      }
    }
  }

  /** An occurrence of the separator splits a text into the pieces before it and the pieces after it. */
  lemma {:induction false} SplitOnSeparator(a: string, c: char, b: string)
    ensures SplitOn(a + [c] + b, c) == SplitOn(a, c) + SplitOn(b, c)
    decreases |a|
  {
    var s := a + [c] + b;
    if a == [] {
      assert s == [c] + b && s[1..] == b;
    } else {
      assert s[0] == a[0] && s[1..] == a[1..] + [c] + b;
      SplitOnSeparator(a[1..], c, b);
      var ra, rb := SplitOn(a[1..], c), SplitOn(b, c);
      if a[0] == c {
        assert SplitOn(s, c) == [""] + (ra + rb);
        assert SplitOn(a, c) == [""] + ra;
      } else {
        var rt := SplitOn(s[1..], c);
        assert rt == ra + rb;
        assert SplitOn(s, c) == [[a[0]] + rt[0]] + rt[1..];
        assert SplitOn(a, c) == [[a[0]] + ra[0]] + ra[1..];
        ConsAppend([a[0]] + ra[0], ra, rb);
      }
    }
  }

  /** `s.trim() === ''`. */
  predicate IsBlank(s: string) {
    forall i :: 0 <= i < |s| ==> IsSpace(s[i])
  }

  /** `xs.join(sep)`. */
  function Join(xs: seq<string>, sep: string): string {
    if xs == [] then ""
    else if |xs| == 1 then xs[0]
    else xs[0] + sep + Join(xs[1..], sep)
  }

  /** `w.charAt(0).toUpperCase() + w.slice(1)`. */
  function Capitalize(w: string): (r: string)
    ensures |r| == |w|
    ensures w != [] ==> r[0] == UpperChar(w[0]) && r[1..] == w[1..]
  {
    if w == [] then [] else [UpperChar(w[0])] + w[1..]
  }

  function DigitChar(d: nat): (c: char)
    requires d < 10
    ensures IsDigit(c)
  {
    ('0' as int + d) as char
  }

  function DigitValue(c: char): (d: nat)
    requires IsDigit(c)
    ensures d < 10 && DigitChar(d) == c
  {
    c as int - '0' as int
  }

  /** Decimal notation of a natural number, as template literals print it. */
  function NatToString(n: nat): (r: string)
    ensures |r| >= 1
  {
    if n < 10 then [DigitChar(n)] else NatToString(n / 10) + [DigitChar(n % 10)]
  }

  lemma {:induction false} NatToStringDigits(n: nat)
    ensures forall i :: 0 <= i < |NatToString(n)| ==> IsDigit(NatToString(n)[i])
  {
    if n >= 10 { NatToStringDigits(n / 10); }
  }

  function IntToString(n: int): string {
    if n < 0 then "-" + NatToString(-n) else NatToString(n)
  }

  /** `parseInt` of a string made of decimal digits only. */
  function DigitsValue(s: string): (n: nat)
    requires forall i :: 0 <= i < |s| ==> IsDigit(s[i])
  {
    if s == [] then 0 else DigitsValue(s[..|s| - 1]) * 10 + DigitValue(s[|s| - 1])
  }

  /** `parseInt` reads back what `NatToString` prints. */
  lemma {:induction false} DigitsValueOfNatToString(n: nat)
    ensures (forall i :: 0 <= i < |NatToString(n)| ==> IsDigit(NatToString(n)[i]))
            && DigitsValue(NatToString(n)) == n
  {
    NatToStringDigits(n);
    if n >= 10 {
      var s := NatToString(n);
      assert s[..|s| - 1] == NatToString(n / 10);
      DigitsValueOfNatToString(n / 10);
    }
  }

  /** Distinct numbers print differently. */
  lemma NatToStringInjective(m: nat, n: nat)
    requires NatToString(m) == NatToString(n)
    ensures m == n
  {
    DigitsValueOfNatToString(m);
    DigitsValueOfNatToString(n);
  }
}
