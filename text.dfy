/**
  * Character and string helpers shared by the client and the backend models.
  * Only ASCII is modelled: letters are lower-cased from 'A'..'Z', whitespace is the six ASCII
  * whitespace characters and digits are '0'..'9'.
  */
module Text {

  /**
    * The six ASCII whitespace characters, as JavaScript's `trim()` sees them. Python's `\s`,
    * `str.strip()` and `str.split()` also treat the separators '\x1c'..'\x1f' as whitespace;
    * the backend helpers use this predicate too, so they do not model those four.
    */
  predicate IsSpace(c: char) {
    c == ' ' || c == '\t' || c == '\n' || c == '\r' || c == '\U{000B}' || c == '\U{000C}'
  }

  predicate IsUpper(c: char) { 'A' <= c <= 'Z' }

  predicate IsDigit(c: char) { '0' <= c <= '9' }

  // ---------------------------------------------------------------------------
  // Lower-casing
  // ---------------------------------------------------------------------------

  function LowerChar(c: char): char {
    if IsUpper(c) then (c as int + 32) as char else c
  }

  /** `toLowerCase()` / `str.lower()`. */
  function Lower(s: string): (r: string)
    ensures |r| == |s|
    ensures forall i :: 0 <= i < |s| ==> r[i] == LowerChar(s[i])
  {
    seq(|s|, i requires 0 <= i < |s| => LowerChar(s[i]))
  }

  predicate NoUpper(s: string) {
    forall i :: 0 <= i < |s| ==> !IsUpper(s[i])
  }

  lemma LowerHasNoUpper(s: string)
    ensures NoUpper(Lower(s))
  {
  }

  lemma LowerOfNoUpper(s: string)
    requires NoUpper(s)
    ensures Lower(s) == s
  {
  }

  /** Lower-casing neither creates nor removes whitespace. */
  lemma LowerKeepsSpaces(s: string)
    ensures forall i :: 0 <= i < |s| ==> (IsSpace(Lower(s)[i]) <==> IsSpace(s[i]))
  {
  }

  // ---------------------------------------------------------------------------
  // Trimming
  // ---------------------------------------------------------------------------

  function TrimStart(s: string): (r: string)
    ensures |r| <= |s| && r == s[|s| - |r|..]
    ensures r == [] || !IsSpace(r[0])
    ensures forall i :: 0 <= i < |s| - |r| ==> IsSpace(s[i])
  {
    if s != [] && IsSpace(s[0]) then TrimStart(s[1..]) else s
  }

  function TrimEnd(s: string): (r: string)
    ensures |r| <= |s| && r == s[..|r|]
    ensures r == [] || !IsSpace(r[|r| - 1])
    ensures forall i :: |r| <= i < |s| ==> IsSpace(s[i])
  {
    if s != [] && IsSpace(s[|s| - 1]) then TrimEnd(s[..|s| - 1]) else s
  }

  /** Python `str.strip()`, JavaScript `trim()`. */
  function Strip(s: string): string {
    TrimEnd(TrimStart(s))
  }

  /** Neither begins nor ends with whitespace. */
  predicate Stripped(s: string) {
    s == [] || (!IsSpace(s[0]) && !IsSpace(s[|s| - 1]))
  }

  lemma StripIsStripped(s: string)
    ensures Stripped(Strip(s))
  {
    var t := TrimStart(s);
    var r := TrimEnd(t);
    if r != [] {
      assert r[0] == t[0];
    }
  }

  lemma StripOfStripped(s: string)
    requires Stripped(s)
    ensures Strip(s) == s
  {
  }

  /** A string with no non-whitespace character strips to the empty string, and only such a string does. */
  lemma StripEmptyIffAllSpace(s: string)
    ensures Strip(s) == [] <==> forall i :: 0 <= i < |s| ==> IsSpace(s[i])
  {
    var t := TrimStart(s);
    if Strip(s) == [] {
      assert t == [];
    } else {
      var r := TrimEnd(t);
      assert r[0] == t[0] == s[|s| - |t|];
    }
  }

  // ---------------------------------------------------------------------------
  // Collapsing runs of whitespace: re.sub(r"\s+", c, s), JavaScript s.replace(/\s+/g, c)
  // ---------------------------------------------------------------------------

  function CollapseSpace(s: string, c: char): (r: string)
    decreases |s|
  {
    if s == [] then []
    else if IsSpace(s[0]) then [c] + CollapseSpace(TrimStart(s[1..]), c)
    else [s[0]] + CollapseSpace(s[1..], c)
  }

  /** Every whitespace character is a single ' ' followed by a non-whitespace character or the end. */
  predicate Collapsed(s: string) {
    forall i :: 0 <= i < |s| && IsSpace(s[i]) ==> s[i] == ' ' && (i + 1 < |s| ==> !IsSpace(s[i + 1]))
  }

  lemma {:induction false} CollapseSpaceChars(s: string, c: char)
    ensures forall i :: 0 <= i < |CollapseSpace(s, c)| ==>
      CollapseSpace(s, c)[i] == c || (CollapseSpace(s, c)[i] in s && !IsSpace(CollapseSpace(s, c)[i]))
    decreases |s|
  {
    if s == [] {
    } else if IsSpace(s[0]) {
      var t := TrimStart(s[1..]);
      CollapseSpaceChars(t, c);
      forall x | x in t ensures x in s {
        var k :| 0 <= k < |t| && t[k] == x;
        assert s[1 + |s[1..]| - |t| + k] == x;
      }
    } else {
      CollapseSpaceChars(s[1..], c);
    }
  }

  lemma CollapseSpaceFirst(s: string, c: char)
    requires s != [] && !IsSpace(s[0])
    ensures CollapseSpace(s, c) != [] && CollapseSpace(s, c)[0] == s[0]
  {
  }

  lemma {:induction false} CollapseSpaceLast(s: string, c: char)
    requires s != [] && !IsSpace(s[|s| - 1])
    ensures CollapseSpace(s, c) != [] && !IsSpace(CollapseSpace(s, c)[|CollapseSpace(s, c)| - 1])
    decreases |s|
  {
    if IsSpace(s[0]) {
      var t := TrimStart(s[1..]);
      assert s[1..][|s[1..]| - 1] == s[|s| - 1];
      assert !IsSpace(s[1..][|s[1..]| - 1]);
      assert |t| > 0;
      assert t[|t| - 1] == s[|s| - 1];
      CollapseSpaceLast(t, c);
    } else if |s| > 1 {
      assert s[1..][|s[1..]| - 1] == s[|s| - 1];
      CollapseSpaceLast(s[1..], c);
    }
  }

  lemma {:induction false} CollapseSpaceIsCollapsed(s: string)
    ensures Collapsed(CollapseSpace(s, ' '))
    decreases |s|
  {
    if s == [] {
    } else if IsSpace(s[0]) {
      var t := TrimStart(s[1..]);
      CollapseSpaceIsCollapsed(t);
      if t != [] {
        CollapseSpaceFirst(t, ' ');
      }
      var r := CollapseSpace(s, ' ');
      assert r == [' '] + CollapseSpace(t, ' ');
      forall i | 0 <= i < |r| && IsSpace(r[i])
        ensures r[i] == ' ' && (i + 1 < |r| ==> !IsSpace(r[i + 1]))
      {
        if i > 0 {
          assert r[i] == CollapseSpace(t, ' ')[i - 1];
        }
      }
    } else {
      CollapseSpaceIsCollapsed(s[1..]);
      var r := CollapseSpace(s, ' ');
      forall i | 0 <= i < |r| && IsSpace(r[i])
        ensures r[i] == ' ' && (i + 1 < |r| ==> !IsSpace(r[i + 1]))
      {
        assert i > 0;
        assert r[i] == CollapseSpace(s[1..], ' ')[i - 1];
      }
    }
  }

  lemma {:induction false} CollapseSpaceOfCollapsed(s: string)
    requires Collapsed(s)
    ensures CollapseSpace(s, ' ') == s
    decreases |s|
  {
    if s == [] {
    } else {
      assert Collapsed(s[1..]) by {
        forall i | 0 <= i < |s[1..]| && IsSpace(s[1..][i])
          ensures s[1..][i] == ' ' && (i + 1 < |s[1..]| ==> !IsSpace(s[1..][i + 1]))
        {
          assert s[1..][i] == s[i + 1];
        }
      }
      if IsSpace(s[0]) {
        assert TrimStart(s[1..]) == s[1..];
      }
      CollapseSpaceOfCollapsed(s[1..]);
    }
  }

  lemma CollapseSpaceNoUpper(s: string, c: char)
    requires NoUpper(s) && !IsUpper(c)
    ensures NoUpper(CollapseSpace(s, c))
  {
    CollapseSpaceChars(s, c);
  }

  /** With no whitespace to collapse, collapsing is the identity. */
  lemma {:induction false} CollapseSpaceNoSpace(s: string, c: char)
    requires forall i :: 0 <= i < |s| ==> !IsSpace(s[i])
    ensures CollapseSpace(s, c) == s
    decreases |s|
  {
    if s != [] {
      CollapseSpaceNoSpace(s[1..], c);
    }
  }

  // ---------------------------------------------------------------------------
  // Searching
  // ---------------------------------------------------------------------------

  predicate IsPrefix(p: string, s: string) {
    |p| <= |s| && s[..|p|] == p
  }

  /** JavaScript `s.includes(p)`, Python `p in s`: `p` starts at some position of `s`. */
  predicate Contains(s: string, p: string) {
    IsPrefix(p, s) || (s != [] && Contains(s[1..], p))
  }

  /** Python `s.endswith(suffix)`. */
  predicate EndsWith(s: string, suffix: string) {
    |suffix| <= |s| && s[|s| - |suffix|..] == suffix
  }

  /** A concatenation starts with its first part and ends with its last. */
  lemma ConcatAffixes(a: string, b: string, c: string)
    ensures IsPrefix(a, a + b + c) && EndsWith(a + b + c, c)
  {
    var r := a + b + c;
    assert r[..|a|] == a;
    assert r[|r| - |c|..] == c;
  }

  /** `Contains` holds exactly when `p` occurs at some index of `s`. */
  lemma {:induction false} ContainsIff(s: string, p: string)
    ensures Contains(s, p) <==> exists i | 0 <= i <= |s| :: IsPrefix(p, s[i..])
  {
    if s != [] {
      ContainsIff(s[1..], p);
      if Contains(s[1..], p) {
        var i :| 0 <= i <= |s[1..]| && IsPrefix(p, s[1..][i..]);
        assert s[1..][i..] == s[i + 1..];
      }
      if exists i | 0 <= i <= |s| :: IsPrefix(p, s[i..]) {
        var i :| 0 <= i <= |s| && IsPrefix(p, s[i..]);
        if i > 0 {
          assert s[1..][i - 1..] == s[i..];
        }
      }
    } else {
      assert s[0..] == s;
      if IsPrefix(p, s) {
        assert IsPrefix(p, s[0..]);
      }
    }
  }

  lemma ContainsEmpty(s: string)
    ensures Contains(s, "")
  {
  }

  lemma ContainsSelf(s: string)
    ensures Contains(s, s)
  {
  }

  // ---------------------------------------------------------------------------
  // Rewriting characters
  // ---------------------------------------------------------------------------

  /** JavaScript `s.replace(/a/g, b)` for a single character. */
  function ReplaceChar(s: string, a: char, b: char): (r: string)
    ensures |r| == |s|
    ensures forall i :: 0 <= i < |s| ==> r[i] == (if s[i] == a then b else s[i])
  {
    seq(|s|, i requires 0 <= i < |s| => if s[i] == a then b else s[i])
  }

  /** Python `s.replace(a, "")` for a single character. */
  function RemoveChar(s: string, a: char): (r: string)
    ensures a !in r
    ensures forall x :: x in r ==> x in s
    ensures a !in s ==> r == s
  {
    if s == [] then []
    else if s[0] == a then RemoveChar(s[1..], a)
    else [s[0]] + RemoveChar(s[1..], a)
  }

  /** The characters of `s` that are digits, in order: re.sub(r"\D", "", s). */
  function DigitsOf(s: string): (r: string)
    ensures forall i :: 0 <= i < |r| ==> IsDigit(r[i])
  {
    if s == [] then []
    else if IsDigit(s[0]) then [s[0]] + DigitsOf(s[1..])
    else DigitsOf(s[1..])
  }

  /** Python `s[:n]`. */
  function Take(s: string, n: nat): (r: string)
    ensures |r| == if |s| < n then |s| else n
  {
    if |s| <= n then s else s[..n]
  }

  // ---------------------------------------------------------------------------
  // Words: Python `str.split()` with no separator
  // ---------------------------------------------------------------------------

  function TakeWord(s: string): (w: string)
    ensures |w| <= |s| && w == s[..|w|]
    ensures forall i :: 0 <= i < |w| ==> !IsSpace(w[i])
    ensures |w| == |s| || IsSpace(s[|w|])
    ensures s != [] && !IsSpace(s[0]) ==> |w| >= 1
  {
    if s == [] || IsSpace(s[0]) then [] else [s[0]] + TakeWord(s[1..])
  }

  function Words(s: string): seq<string>
    decreases |s|
  {
    var t := TrimStart(s);
    if t == [] then []
    else
      var w := TakeWord(t);
      var rest := t[|w|..];
      assert |rest| < |s|;
      [w] + Words(rest)
  }

  lemma WordsOfEmpty(s: string)
    ensures |Words(s)| >= 1 ==> s != []
  {
  }

  /** A string with a non-whitespace character has at least one word. */
  lemma WordsNonEmpty(s: string)
    requires exists i :: 0 <= i < |s| && !IsSpace(s[i])
    ensures Words(s) != []
  {
  }

  // ---------------------------------------------------------------------------
  // Decimal numerals
  // ---------------------------------------------------------------------------

  function DigitChar(d: nat): char
    requires d < 10
  {
    ('0' as int + d) as char
  }

  function DigitValue(c: char): nat
    requires IsDigit(c)
  {
    c as int - '0' as int
  }

  /** Python `int(s)` of a digit string. */
  function DecimalValue(s: string): nat
    requires forall i :: 0 <= i < |s| ==> IsDigit(s[i])
  {
    if s == [] then 0 else DecimalValue(s[..|s| - 1]) * 10 + DigitValue(s[|s| - 1])
  }

  function NatText(n: nat): (r: string)
    ensures r != [] && forall i :: 0 <= i < |r| ==> IsDigit(r[i])
  {
    if n < 10 then [DigitChar(n)] else NatText(n / 10) + [DigitChar(n % 10)]
  }

  /** Decimal text of an integer, as Python's `str` and JavaScript's `String` print it. */
  function IntText(n: int): string {
    if n < 0 then "-" + NatText(-n) else NatText(n)
  }

  lemma {:induction false} NatTextRoundTrip(n: nat)
    ensures DecimalValue(NatText(n)) == n
  {
    if n >= 10 {
      NatTextRoundTrip(n / 10);
      var r := NatText(n);
      assert r[..|r| - 1] == NatText(n / 10);
    }
  }
}
