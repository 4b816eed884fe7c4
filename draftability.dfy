/**
  * The data-cleaning and scoring rules of the draftability model (Backend/model/draftability.py):
  * player-name normalisation, the Excel-mangled height parser, the one-row-per-key selections,
  * the eligibility rule, the stat scaling, the class score and the final 0..100 score.
  * Columns are sequences; a missing or non-numeric cell is `None`.
  */
module Draftability {
  import opened Wrappers
  import opened Text

  // ---------------------------------------------------------------------------
  // normalize_player_name
  // ---------------------------------------------------------------------------

  /** Every '*' removed, then stripped, then lower-cased. */
  function NormalizePlayerName(s: string): string {
    Lower(Strip(RemoveChar(s, '*')))
  }

  /** A normalised name has no '*', no upper case, and no outer whitespace. */
  lemma NormalizePlayerNameShape(s: string)
    ensures var r := NormalizePlayerName(s);
      '*' !in r && NoUpper(r) && Stripped(r)
  {
    var t := Strip(RemoveChar(s, '*'));
    StripIsStripped(RemoveChar(s, '*'));
    LowerHasNoUpper(t);
    LowerKeepsSpaces(t);
    StripNoNewChars(RemoveChar(s, '*'));
    var r := Lower(t);
    forall i | 0 <= i < |r| ensures r[i] != '*' {
      assert t[i] in t;
    }
  }

  /** Stripping only removes characters. */
  lemma StripNoNewChars(s: string)
    ensures forall c :: c in Strip(s) ==> c in s
  {
    var t := TrimStart(s);
    var r := TrimEnd(t);
    forall c | c in r ensures c in s {
      var i :| 0 <= i < |r| && r[i] == c;
      assert t[i] == c;
      assert s[|s| - |t| + i] == c;
    }
  }

  /** Normalising twice is normalising once. */
  lemma NormalizePlayerNameIdempotent(s: string)
    ensures NormalizePlayerName(NormalizePlayerName(s)) == NormalizePlayerName(s)
  {
    var r := NormalizePlayerName(s);
    NormalizePlayerNameShape(s);
    StripOfStripped(r);
    LowerOfNoUpper(r);
  }

  // ---------------------------------------------------------------------------
  // MONTH_TO_FEET and parse_height_in
  // ---------------------------------------------------------------------------

  /** A month key of `MONTH_TO_FEET`, by its three letters. */
  function MonthOfLetters(a: char, b: char, c: char): Option<nat> {
    if a == 'j' && b == 'a' && c == 'n' then Some(1)
    else if a == 'f' && b == 'e' && c == 'b' then Some(2)
    else if a == 'm' && b == 'a' && c == 'r' then Some(3)
    else if a == 'a' && b == 'p' && c == 'r' then Some(4)
    else if a == 'm' && b == 'a' && c == 'y' then Some(5)
    else if a == 'j' && b == 'u' && c == 'n' then Some(6)
    else if a == 'j' && b == 'u' && c == 'l' then Some(7)
    else if a == 'a' && b == 'u' && c == 'g' then Some(8)
    else if a == 's' && b == 'e' && c == 'p' then Some(9)
    else if a == 'o' && b == 'c' && c == 't' then Some(10)
    else if a == 'n' && b == 'o' && c == 'v' then Some(11)
    else if a == 'd' && b == 'e' && c == 'c' then Some(12)
    else None
  }

  /** `MONTH_TO_FEET`: "jan" .. "dec" to 1 .. 12; every key is three lower-case letters. */
  function MonthToFeet(m: string): (r: Option<nat>)
    ensures r.Some? ==> 1 <= r.value <= 12
    ensures r.Some? ==> |m| == 3 && forall i :: 0 <= i < 3 ==> 'a' <= m[i] <= 'z'
  {
    if |m| != 3 then None else MonthOfLetters(m[0], m[1], m[2])
  }

  lemma MonthToFeetValues()
    ensures MonthToFeet("jan") == Some(1) && MonthToFeet("jun") == Some(6) && MonthToFeet("dec") == Some(12)
    ensures MonthToFeet("june").None? && MonthToFeet("Jun").None?
  {
  }

  /** `int(re.sub(r"\D", "", s) or "0")`. */
  function InchesOf(s: string): nat {
    DecimalValue(DigitsOf(s))
  }

  /** The index of the first "-", or `|s|` when there is none. */
  function FirstDash(s: string): (k: nat)
    ensures k <= |s|
    ensures forall m :: 0 <= m < k ==> s[m] != '-'
    ensures k < |s| ==> s[k] == '-'
  {
    if s == [] || s[0] == '-' then 0 else 1 + FirstDash(s[1..])
  }

  /**
    * The two halves after `split("-", 1)`: when the right side (stripped, lower-cased, first
    * three letters) names a month, that month is the feet and the left side's digits the
    * inches; otherwise a month on the left gives the feet and the right side's digits the inches.
    */
  function HeightFromParts(a: string, b: string): Option<nat> {
    var right := MonthOf(Strip(b));
    var left := MonthOf(a);
    if right.Some? then Some(right.value * 12 + InchesOf(a))
    else if left.Some? then Some(left.value * 12 + InchesOf(b))
    else None
  }

  /** The month named by the first three letters of a text, in any case. */
  function MonthOf(t: string): Option<nat> {
    MonthToFeet(Take(Lower(t), 3))
  }

  /** A stripped text: no "-" gives no height, else the halves around the first "-". */
  function HeightFromText(s: string): Option<nat> {
    var k := FirstDash(s);
    if k == |s| then None else HeightFromParts(Strip(s[..k]), s[k + 1..])
  }

  /**
    * `parse_height_in`: a height that a spreadsheet exported as a date ("2-Jun", "Jun-00").
    * `None` stands for a missing cell and for NaN.
    */
  function ParseHeightIn(x: Option<string>): Option<nat> {
    if x.None? then None else HeightFromText(Strip(x.value))
  }

  lemma NoDashFound(s: string)
    requires '-' !in s
    ensures FirstDash(s) == |s|
  {
    assert forall m :: 0 <= m < |s| ==> s[m] != '-';
  }

  /** A missing cell and a text without "-" give no height. */
  lemma ParseHeightNone(x: Option<string>)
    ensures x.None? ==> ParseHeightIn(x).None?
    ensures x.Some? && '-' !in Strip(x.value) ==> ParseHeightIn(x).None?
  {
    if x.Some? && '-' !in Strip(x.value) {
      NoDashFound(Strip(x.value));
    }
  }

  /** Every height the parser gives is at least one foot. */
  lemma ParseHeightAtLeastOneFoot(x: Option<string>)
    ensures ParseHeightIn(x).Some? ==> ParseHeightIn(x).value >= 12
  {
  }

  lemma FirstDashAt(a: string, b: string)
    requires '-' !in a
    ensures FirstDash(a + "-" + b) == |a|
  {
    var s := a + "-" + b;
    assert s[|a|] == '-';
    assert forall m :: 0 <= m < |a| ==> s[m] == a[m] && a[m] != '-';
  }

  lemma HeightFromTextSplit(a: string, b: string)
    requires '-' !in a
    ensures HeightFromText(a + "-" + b) == HeightFromParts(Strip(a), b)
  {
    var s := a + "-" + b;
    FirstDashAt(a, b);
    assert s[..|a|] == a;
    assert s[|a| + 1..] == b;
  }

  /** A text "a-b" with no "-" in `a` parses as its halves `a` and `b`. */
  lemma ParseHeightSplit(a: string, b: string)
    requires '-' !in a && Stripped(a + "-" + b)
    ensures ParseHeightIn(Some(a + "-" + b)) == HeightFromParts(Strip(a), b)
  {
    StripOfStripped(a + "-" + b);
    HeightFromTextSplit(a, b);
  }

  /** A right-side month wins over a left-side one: the month check on the right runs first. */
  lemma ParseHeightRightFirst(a: string, b: string)
    requires '-' !in a && Stripped(a + "-" + b)
    requires MonthOf(Strip(b)).Some?
    ensures ParseHeightIn(Some(a + "-" + b)) == Some(MonthOf(Strip(b)).value * 12 + InchesOf(Strip(a)))
  {
    ParseHeightSplit(a, b);
    PartsRightMonth(Strip(a), b);
  }

  lemma PartsRightMonth(a: string, b: string)
    requires MonthOf(Strip(b)).Some?
    ensures HeightFromParts(a, b) == Some(MonthOf(Strip(b)).value * 12 + InchesOf(a))
  {
  }

  lemma PartsLeftMonth(a: string, b: string)
    requires MonthOf(Strip(b)).None? && MonthOf(a).Some?
    ensures HeightFromParts(a, b) == Some(MonthOf(a).value * 12 + InchesOf(b))
  {
  }

  /** Without a month on either side of the first "-" there is no height. */
  lemma ParseHeightNeither(a: string, b: string)
    requires '-' !in a && Stripped(a + "-" + b)
    requires MonthOf(Strip(b)).None? && MonthOf(Strip(a)).None?
    ensures ParseHeightIn(Some(a + "-" + b)).None?
  {
    ParseHeightSplit(a, b);
  }

  /** A left-side month gives the feet when the right side names none. */
  lemma ParseHeightLeftMonth(a: string, b: string)
    requires '-' !in a && Stripped(a + "-" + b)
    requires MonthOf(Strip(b)).None? && MonthOf(Strip(a)).Some?
    ensures ParseHeightIn(Some(a + "-" + b)) == Some(MonthOf(Strip(a)).value * 12 + InchesOf(b))
  {
    ParseHeightSplit(a, b);
    PartsLeftMonth(Strip(a), b);
  }

  lemma JoinStripped(a: string, b: string)
    requires a != [] && b != [] && !IsSpace(a[0]) && !IsSpace(b[|b| - 1])
    ensures Stripped(a + "-" + b)
  {
    var s := a + "-" + b;
    assert s[0] == a[0] && s[|s| - 1] == b[|b| - 1];
  }

  predicate IsDigits(d: string) {
    d != [] && forall i :: 0 <= i < |d| ==> IsDigit(d[i])
  }

  lemma {:induction false} DigitsOfDigits(d: string)
    requires forall i :: 0 <= i < |d| ==> IsDigit(d[i])
    ensures DigitsOf(d) == d
  {
    if d != [] {
      DigitsOfDigits(d[1..]);
      assert d == [d[0]] + d[1..];
    }
  }

  /** A three-letter month in any case is letters only: stripped, and without "-". */
  lemma MonthTextShape(m: string)
    requires |m| == 3 && MonthOf(m).Some?
    ensures '-' !in m && Stripped(m) && Strip(m) == m
    ensures !IsSpace(m[0]) && !IsSpace(m[2])
  {
    assert Take(Lower(m), 3) == Lower(m);
    forall i | 0 <= i < |m| ensures m[i] != '-' && !IsSpace(m[i]) {
      assert 'a' <= LowerChar(m[i]) <= 'z';
    }
    StripOfStripped(m);
  }

  lemma DigitTextLower(d: string)
    requires IsDigits(d)
    ensures Lower(d) == d
  {
    LowerOfNoUpper(d);
  }

  lemma DigitTextStripped(d: string)
    requires IsDigits(d)
    ensures Stripped(d) && Strip(d) == d
  {
    StripOfStripped(d);
  }

  lemma DigitTextNoMonth(d: string)
    requires IsDigits(d)
    ensures MonthOf(d).None?
  {
    DigitTextLower(d);
    var t := Take(d, 3);
    assert t[0] == d[0];
  }

  lemma DayMonthHalves(d: string, m: string)
    requires IsDigits(d) && |m| == 3 && MonthOf(m).Some?
    ensures ParseHeightIn(Some(d + "-" + m)) == HeightFromParts(d, m)
  {
    DigitTextStripped(d);
    assert !IsSpace(d[0]) && '-' !in d;
    MonthTextShape(m);
    assert !IsSpace(m[2]);
    JoinStripped(d, m);
    ParseHeightSplit(d, m);
  }

  lemma DayMonthParts(d: string, m: string)
    requires IsDigits(d) && Strip(m) == m && MonthOf(m).Some?
    ensures HeightFromParts(d, m) == Some(MonthOf(m).value * 12 + DecimalValue(d))
  {
    PartsRightMonth(d, m);
    DigitsOfDigits(d);
  }

  /** "<day>-<Mon>": the month is the feet and the day the inches ("2-Jun" is 74). */
  lemma ParseHeightDayMonth(d: string, m: string)
    requires IsDigits(d) && |m| == 3 && MonthOf(m).Some?
    ensures ParseHeightIn(Some(d + "-" + m)) == Some(MonthOf(m).value * 12 + DecimalValue(d))
  {
    DayMonthHalves(d, m);
    MonthTextShape(m);
    DayMonthParts(d, m);
  }

  lemma MonthDayHalves(m: string, d: string)
    requires |m| == 3 && MonthOf(m).Some? && IsDigits(d)
    ensures ParseHeightIn(Some(m + "-" + d)) == HeightFromParts(m, d)
  {
    DigitTextStripped(d);
    assert !IsSpace(d[|d| - 1]);
    MonthTextShape(m);
    assert !IsSpace(m[0]);
    JoinStripped(m, d);
    ParseHeightSplit(m, d);
  }

  lemma MonthDayParts(m: string, d: string)
    requires MonthOf(m).Some? && IsDigits(d)
    ensures HeightFromParts(m, d) == Some(MonthOf(m).value * 12 + DecimalValue(d))
  {
    DigitTextStripped(d);
    DigitTextNoMonth(d);
    PartsLeftMonth(m, d);
    DigitsOfDigits(d);
  }

  /** "<Mon>-<inches>": a left-side month is the feet and the right side's digits the inches ("Jun-00" is 72). */
  lemma ParseHeightMonthDay(m: string, d: string)
    requires |m| == 3 && MonthOf(m).Some? && IsDigits(d)
    ensures ParseHeightIn(Some(m + "-" + d)) == Some(MonthOf(m).value * 12 + DecimalValue(d))
  {
    MonthDayHalves(m, d);
    MonthDayParts(m, d);
  }

  /** The two spellings of six feet: "Jun" names month 6. */
  lemma JunIsSixFeet()
    ensures MonthOf("Jun") == Some(6) && MonthOf("JUNE") == Some(6) && MonthOf("Ju").None?
  {
    assert Lower("Jun") == "jun" && Take("jun", 3) == "jun";
    assert Lower("JUNE") == "june" && Take("june", 3) == "jun";
    assert Lower("Ju") == "ju";
  }

  // ---------------------------------------------------------------------------
  // year_map and the class score
  // ---------------------------------------------------------------------------

  /** `year_map`: "Fr" .. "Sr" to 1 .. 4; any other class is unmapped (NaN). */
  function ClassNum(yr: string): (r: Option<int>)
    ensures r.Some? ==> 1 <= r.value <= 4
  {
    if yr == "Fr" then Some(1) else if yr == "So" then Some(2)
    else if yr == "Jr" then Some(3) else if yr == "Sr" then Some(4)
    else None
  }

  function Max(a: real, b: real): real { if a >= b then a else b }
  function Min(a: real, b: real): real { if a <= b then a else b }

  /** pandas `clip(lo, hi)`, used here only with lo <= hi. */
  function Clip(v: real, lo: real, hi: real): (r: real)
    ensures lo <= hi ==> lo <= r <= hi
    ensures lo <= v <= hi ==> r == v
  {
    Min(Max(v, lo), hi)
  }

  /** `(1 - (class_num - 1) / 3).clip(0, 1).fillna(0.5)`: younger classes score higher. */
  function ClassScore(classNum: Option<real>): (r: real)
    ensures 0.0 <= r <= 1.0
  {
    if classNum.None? then 0.5 else Clip(1.0 - (classNum.value - 1.0) / 3.0, 0.0, 1.0)
  }

  lemma ClassScoreByYear()
    ensures ClassScore(Some(ClassNum("Fr").value as real)) == 1.0
    ensures ClassScore(Some(ClassNum("So").value as real)) > ClassScore(Some(ClassNum("Jr").value as real))
    ensures ClassScore(Some(ClassNum("Sr").value as real)) == 0.0
    ensures ClassScore(None) == 0.5
  {
  }

  /** `df_current["yr"].map(year_map)` for a class that may be missing: NaN (None) unless mapped. */
  predicate Unmapped(yr: Option<string>) {
    yr.None? || ClassNum(yr.value).None?
  }

  /**
    * The class number as it reaches the class score. `class_num` is one of the feature columns,
    * so `build_model_df` fills a missing one with 0, and `pred_out["class_num"]` is always read
    * from that frame: the `fillna(0.5)` of the class score never sees a NaN.
    */
  function ModelClassNum(yr: Option<string>): (r: real)
    ensures 0.0 <= r <= 4.0
    ensures Unmapped(yr) <==> r == 0.0
  {
    if Unmapped(yr) then 0.0 else ClassNum(yr.value).value as real
  }

  /** The class score as the code computes it, on the filled class number. */
  function ClassScoreAsWritten(yr: Option<string>): (r: real)
    ensures 0.0 <= r <= 1.0
    ensures Unmapped(yr) ==> r == 1.0
  {
    ClassScore(Some(ModelClassNum(yr)))
  }

  /** The class score the `fillna(0.5)` intends: an unknown class scores the midpoint. */
  function ClassScoreIntended(yr: Option<string>): (r: real)
    ensures 0.0 <= r <= 1.0
    ensures Unmapped(yr) ==> r == 0.5
    ensures !Unmapped(yr) ==> r == ClassScoreAsWritten(yr)
  {
    ClassScore(if Unmapped(yr) then None else Some(ClassNum(yr.value).value as real))
  }

  /** As written, an unmapped or missing class scores 1.0, as a freshman does; as intended, 0.5. */
  lemma UnmappedClassScoresOne(yr: Option<string>)
    requires Unmapped(yr)
    ensures ClassScoreAsWritten(yr) == ClassScoreAsWritten(Some("Fr")) == 1.0
    ensures ClassScoreIntended(yr) == 0.5 < ClassScoreAsWritten(yr)
  {
  }

  /** A graduate student ("Gr" is not in `year_map`) shows the discrepancy. */
  lemma GraduateClassScore()
    ensures ClassScoreAsWritten(Some("Gr")) == 1.0
    ensures ClassScoreIntended(Some("Gr")) == 0.5
  {
    UnmappedClassScoresOne(Some("Gr"));
  }

  /** A better (lower) class number never scores lower. */
  lemma ClassScoreMonotone(c1: real, c2: real)
    requires c1 <= c2
    ensures ClassScore(Some(c1)) >= ClassScore(Some(c2))
  {
  }

  // ---------------------------------------------------------------------------
  // robust_minmax and the composite
  // ---------------------------------------------------------------------------

  /** A fraction with numerator in [0, d] lies in [0, 1], and below 1 when the numerator is below d. */
  lemma DivUnit(x: real, d: real)
    requires d > 0.0 && 0.0 <= x <= d
    ensures 0.0 <= x / d <= 1.0
    ensures x < d ==> x / d < 1.0
  {
    var q := x / d;
    assert q * d == x;
  }

  /** Dividing by a positive number keeps order. */
  lemma DivMono(x: real, y: real, d: real)
    requires d > 0.0 && x <= y
    ensures x / d <= y / d
  {
    assert (y - x) / d >= 0.0 by { DivUnit(0.0, d); assert (y - x) / d * d == y - x; }
    assert y / d - x / d == (y - x) / d;
  }

  const Epsilon: real := 0.000000001

  /** `(s.clip(lo, hi) - lo) / (hi - lo + 1e-9)`, for bounds from quantiles (so lo <= hi). */
  function RobustMinmax(v: real, lo: real, hi: real): (r: real)
    requires lo <= hi
    ensures 0.0 <= r < 1.0
  {
    var c := Clip(v, lo, hi);
    DivUnit(c - lo, hi - lo + Epsilon);
    (c - lo) / (hi - lo + Epsilon)
  }

  /** A higher prediction never scales lower. */
  lemma RobustMinmaxMonotone(v1: real, v2: real, lo: real, hi: real)
    requires lo <= hi && v1 <= v2
    ensures RobustMinmax(v1, lo, hi) <= RobustMinmax(v2, lo, hi)
  {
    DivMono(Clip(v1, lo, hi) - lo, Clip(v2, lo, hi) - lo, hi - lo + Epsilon);
  }

  const WClass: real := 0.40
  const WBpm: real := 0.20
  const WVorp: real := 0.20
  const WPts: real := 0.10
  const WMp: real := 0.10

  /** The weighted composite; the five weights sum to one. */
  function RawScore(classS: real, bpmS: real, vorpS: real, ptsS: real, mpS: real): real {
    WClass * classS + WBpm * bpmS + WVorp * vorpS + WPts * ptsS + WMp * mpS
  }

  /** With each part in [0, 1] the composite is in [0, 1]. */
  lemma RawScoreRange(classS: real, bpmS: real, vorpS: real, ptsS: real, mpS: real)
    requires 0.0 <= classS <= 1.0 && 0.0 <= bpmS <= 1.0 && 0.0 <= vorpS <= 1.0
    requires 0.0 <= ptsS <= 1.0 && 0.0 <= mpS <= 1.0
    ensures 0.0 <= RawScore(classS, bpmS, vorpS, ptsS, mpS) <= 1.0
  {
  }

  // ---------------------------------------------------------------------------
  // Eligibility
  // ---------------------------------------------------------------------------

  /** `pd.to_numeric(..., errors="coerce").fillna(0)`. */
  function OrZero(v: Option<real>): real { v.GetOr(0.0) }

  /** At least 10 games, 12 minutes a game and an 18% minutes share; a missing value counts as 0. */
  predicate Eligible(gp: Option<real>, mpg: Option<real>, minPer: Option<real>) {
    OrZero(gp) >= 10.0 && OrZero(mpg) >= 12.0 && OrZero(minPer) >= 18.0
  }

  lemma MissingIsIneligible(gp: Option<real>, mpg: Option<real>, minPer: Option<real>)
    requires gp.None? || mpg.None? || minPer.None?
    ensures !Eligible(gp, mpg, minPer)
  {
  }

  // ---------------------------------------------------------------------------
  // The final score: rescale among eligible players, zero the others, clip to 0..100
  // ---------------------------------------------------------------------------

  /** The raw scores of the eligible rows, in order. */
  function EligibleRaw(raw: seq<real>, eligible: seq<bool>): seq<real>
    requires |raw| == |eligible|
    decreases |raw|
  {
    if raw == [] then []
    else
      var n := |raw| - 1;
      EligibleRaw(raw[..n], eligible[..n]) + (if eligible[n] then [raw[n]] else [])
  }

  function MinOf(s: seq<real>): (m: real)
    requires s != []
    ensures m in s && forall x :: x in s ==> m <= x
  {
    if |s| == 1 then s[0]
    else
      var p := MinOf(s[..|s| - 1]);
      assert forall x :: x in s ==> x in s[..|s| - 1] || x == s[|s| - 1];
      Min(p, s[|s| - 1])
  }

  function MaxOf(s: seq<real>): (m: real)
    requires s != []
    ensures m in s && forall x :: x in s ==> x <= m
  {
    if |s| == 1 then s[0]
    else
      var p := MaxOf(s[..|s| - 1]);
      assert forall x :: x in s ==> x in s[..|s| - 1] || x == s[|s| - 1];
      Max(p, s[|s| - 1])
  }

  /** `100 * (raw - min) / (max - min)` when the spread exceeds 1e-9, else 0. */
  function Scale(lo: real, hi: real, v: real): real {
    if hi - lo > Epsilon then 100.0 * ((v - lo) / (hi - lo)) else 0.0
  }

  /** Within the extremes the rescale runs from 0 at the least to 100 at the greatest. */
  lemma ScaleFacts(lo: real, hi: real, v: real)
    requires lo <= v <= hi && hi - lo > Epsilon
    ensures 0.0 <= Scale(lo, hi, v) <= 100.0
    ensures v == hi ==> Scale(lo, hi, v) == 100.0
    ensures v == lo ==> Scale(lo, hi, v) == 0.0
  {
    DivUnit(v - lo, hi - lo);
  }

  /** `100 * scaled` before the eligibility rule: 0 everywhere when no row is eligible. */
  function Rescaled(raw: seq<real>, eligible: seq<bool>, v: real): real
    requires |raw| == |eligible|
  {
    var e := EligibleRaw(raw, eligible);
    if e == [] then 0.0 else Scale(MinOf(e), MaxOf(e), v)
  }

  /** The published score of row `i`. */
  function FinalScore(raw: seq<real>, eligible: seq<bool>, i: nat): real
    requires |raw| == |eligible| && i < |raw|
  {
    Clip(if eligible[i] then Rescaled(raw, eligible, raw[i]) else 0.0, 0.0, 100.0)
  }

  /** The eligible raw scores are exactly the raw scores of the eligible rows. */
  lemma {:induction false} EligibleRawMembers(raw: seq<real>, eligible: seq<bool>)
    requires |raw| == |eligible|
    ensures forall x :: x in EligibleRaw(raw, eligible) <==> exists i :: 0 <= i < |raw| && eligible[i] && raw[i] == x
    decreases |raw|
  {
    if raw != [] {
      var n := |raw| - 1;
      EligibleRawMembers(raw[..n], eligible[..n]);
      forall x ensures x in EligibleRaw(raw, eligible) <==> exists i :: 0 <= i < |raw| && eligible[i] && raw[i] == x {
        if x in EligibleRaw(raw[..n], eligible[..n]) {
          var i :| 0 <= i < n && eligible[..n][i] && raw[..n][i] == x;
          assert eligible[i] && raw[i] == x;
        }
        if exists i :: 0 <= i < |raw| && eligible[i] && raw[i] == x {
          var i :| 0 <= i < |raw| && eligible[i] && raw[i] == x;
          if i < n {
            assert eligible[..n][i] && raw[..n][i] == x;
          }
        }
      }
    }
  }

  lemma {:induction false} EligibleRawHas(raw: seq<real>, eligible: seq<bool>, i: nat)
    requires |raw| == |eligible| && i < |raw| && eligible[i]
    ensures raw[i] in EligibleRaw(raw, eligible)
    decreases |raw|
  {
    var n := |raw| - 1;
    if i < n {
      EligibleRawHas(raw[..n], eligible[..n], i);
    }
  }

  lemma EligibleRawStep(raw: seq<real>, eligible: seq<bool>, i: nat)
    requires |raw| == |eligible| && i < |raw|
    ensures EligibleRaw(raw[..i + 1], eligible[..i + 1])
         == EligibleRaw(raw[..i], eligible[..i]) + (if eligible[i] then [raw[i]] else [])
  {
    assert raw[..i + 1][..i] == raw[..i] && eligible[..i + 1][..i] == eligible[..i];
  }

  lemma MinMaxAppend(e: seq<real>, x: real)
    ensures MinOf(e + [x]) == if e == [] then x else Min(MinOf(e), x)
    ensures MaxOf(e + [x]) == if e == [] then x else Max(MaxOf(e), x)
  {
    assert (e + [x])[..|e|] == e;
  }

  /** The least and the greatest raw score among the eligible rows, in one pass. */
  method EligibleExtremes(raw: seq<real>, eligible: seq<bool>) returns (any: bool, lo: real, hi: real)
    requires |raw| == |eligible|
    ensures any <==> EligibleRaw(raw, eligible) != []
    ensures any ==> lo == MinOf(EligibleRaw(raw, eligible)) && hi == MaxOf(EligibleRaw(raw, eligible))
  {
    any, lo, hi := false, 0.0, 0.0;
    var i := 0;
    ghost var e: seq<real> := [];
    assert raw[..0] == [] && eligible[..0] == [];
    while i < |raw|
      invariant 0 <= i <= |raw|
      invariant e == EligibleRaw(raw[..i], eligible[..i])
      invariant any <==> e != []
      invariant any ==> lo == MinOf(e) && hi == MaxOf(e)
    {
      EligibleRawStep(raw, eligible, i);
      if eligible[i] {
        MinMaxAppend(e, raw[i]);
        lo := if any then Min(lo, raw[i]) else raw[i];
        hi := if any then Max(hi, raw[i]) else raw[i];
        any := true;
        e := e + [raw[i]];
      }
      i := i + 1;
    }
    assert raw[..i] == raw && eligible[..i] == eligible;
  }

  /**
    * The score column as the module body computes it: the eligible extremes, then the
    * rescale, the zeroing of ineligible rows and the clip, each a pass over the column.
    */
  method DraftabilityScores(raw: seq<real>, eligible: seq<bool>) returns (score: seq<real>)
    requires |raw| == |eligible|
    ensures |score| == |raw|
    ensures forall i :: 0 <= i < |raw| ==> score[i] == FinalScore(raw, eligible, i)
  {
    var n := |raw|;
    var any, lo, hi := EligibleExtremes(raw, eligible);
    var column := new real[n];
    var i := 0;
    while i < n
      invariant 0 <= i <= n
      invariant forall j :: 0 <= j < i ==> column[j] == Rescaled(raw, eligible, raw[j])
    {
      column[i] := if any then Scale(lo, hi, raw[i]) else 0.0;
      i := i + 1;
    }
    i := 0;
    while i < n
      invariant 0 <= i <= n
      invariant forall j :: 0 <= j < n ==>
        column[j] == (if j < i && !eligible[j] then 0.0 else Rescaled(raw, eligible, raw[j]))
    {
      if !eligible[i] {
        column[i] := 0.0;
      }
      i := i + 1;
    }
    i := 0;
    while i < n
      invariant 0 <= i <= n
      invariant forall j :: 0 <= j < n ==>
        column[j] == (if j < i then FinalScore(raw, eligible, j)
                      else if !eligible[j] then 0.0 else Rescaled(raw, eligible, raw[j]))
    {
      column[i] := Clip(column[i], 0.0, 100.0);
      i := i + 1;
    }
    score := column[..];
  }

  /** Every score lies in [0, 100], and an ineligible player scores 0. */
  lemma FinalScoreRange(raw: seq<real>, eligible: seq<bool>, i: nat)
    requires |raw| == |eligible| && i < |raw|
    ensures 0.0 <= FinalScore(raw, eligible, i) <= 100.0
    ensures !eligible[i] ==> FinalScore(raw, eligible, i) == 0.0
  {
  }

  /**
    * An eligible player's score is the rescale of its raw score between the eligible extremes:
    * 0 for the least raw score, and 100 for the greatest when the spread exceeds 1e-9.
    */
  lemma FinalScoreSpread(raw: seq<real>, eligible: seq<bool>, i: nat)
    requires |raw| == |eligible| && i < |raw| && eligible[i]
    ensures EligibleRaw(raw, eligible) != []
    ensures var e := EligibleRaw(raw, eligible);
      && FinalScore(raw, eligible, i) == Scale(MinOf(e), MaxOf(e), raw[i])
      && (raw[i] == MinOf(e) ==> FinalScore(raw, eligible, i) == 0.0)
      && (raw[i] == MaxOf(e) && MaxOf(e) - MinOf(e) > Epsilon ==> FinalScore(raw, eligible, i) == 100.0)
  {
    var e := EligibleRaw(raw, eligible);
    EligibleRawHas(raw, eligible, i);
    assert raw[i] in e;
    var lo := MinOf(e);
    var hi := MaxOf(e);
    assert lo <= raw[i] <= hi;
    if hi - lo > Epsilon {
      ScaleFacts(lo, hi, raw[i]);
    }
    assert Rescaled(raw, eligible, raw[i]) == Scale(lo, hi, raw[i]);
  }

  /** When no row is eligible or the eligible raw scores all lie within 1e-9, every score is 0. */
  lemma FinalScoreFlat(raw: seq<real>, eligible: seq<bool>, i: nat)
    requires |raw| == |eligible| && i < |raw|
    requires var e := EligibleRaw(raw, eligible); e == [] || MaxOf(e) - MinOf(e) <= Epsilon
    ensures FinalScore(raw, eligible, i) == 0.0
  {
  }

  // ---------------------------------------------------------------------------
  // One row per key: pick_one_row_per_player_season and the mp dedupe
  // ---------------------------------------------------------------------------

  /** The index of the first row in `acc` with key `k`, or `|acc|`. */
  function IndexOfKey<R, K(==)>(acc: seq<R>, k: K, key: R -> K): (j: nat)
    ensures j <= |acc|
    ensures j < |acc| ==> key(acc[j]) == k
    ensures forall m :: 0 <= m < j ==> key(acc[m]) != k
  {
    if acc == [] then 0
    else if key(acc[0]) == k then 0
    else 1 + IndexOfKey(acc[1..], k, key)
  }

  /** Adds row `r`: a new key is appended; a better-ranked row replaces the kept one. */
  function Place<R, K(==)>(acc: seq<R>, r: R, key: R -> K, rank: R -> real): seq<R> {
    var j := IndexOfKey(acc, key(r), key);
    if j == |acc| then acc + [r]
    else if rank(r) < rank(acc[j]) then acc[j := r]
    else acc
  }

  /**
    * For each key, one of the lowest-ranked rows: a later row replaces the kept one only when it
    * ranks strictly lower, so the model keeps the earliest of equal ranks. The source sorts by
    * key and rank and keeps the first row of each key; the output order is not modelled.
    */
  function KeepBest<R, K(==)>(rows: seq<R>, key: R -> K, rank: R -> real): seq<R>
    decreases |rows|
  {
    if rows == [] then []
    else Place(KeepBest(rows[..|rows| - 1], key, rank), rows[|rows| - 1], key, rank)
  }

  ghost predicate KeysDistinct<R, K>(s: seq<R>, key: R -> K) {
    forall i, j :: 0 <= i < j < |s| ==> key(s[i]) != key(s[j])
  }

  ghost predicate KeptFromRows<R>(kept: seq<R>, rows: seq<R>) {
    forall x :: x in kept ==> x in rows
  }

  ghost predicate CoversKeys<R, K>(kept: seq<R>, rows: seq<R>, key: R -> K) {
    forall r :: r in rows ==> exists j :: 0 <= j < |kept| && key(kept[j]) == key(r)
  }

  ghost predicate KeptIsBest<R, K>(kept: seq<R>, rows: seq<R>, key: R -> K, rank: R -> real) {
    forall j, r :: 0 <= j < |kept| && r in rows && key(r) == key(kept[j]) ==> rank(kept[j]) <= rank(r)
  }

  /** The invariant the selection keeps over a prefix of the rows. */
  ghost predicate BestOf<R, K>(kept: seq<R>, rows: seq<R>, key: R -> K, rank: R -> real) {
    && KeysDistinct(kept, key)
    && KeptFromRows(kept, rows)
    && CoversKeys(kept, rows, key)
    && KeptIsBest(kept, rows, key, rank)
  }

  /** A row with a new key is appended. */
  lemma PlaceNew<R, K>(kept: seq<R>, rows: seq<R>, r: R, key: R -> K, rank: R -> real)
    requires BestOf(kept, rows, key, rank)
    requires forall m :: 0 <= m < |kept| ==> key(kept[m]) != key(r)
    ensures BestOf(kept + [r], rows + [r], key, rank)
  {
    var p := kept + [r];
    var rs := rows + [r];
    assert forall m :: 0 <= m < |kept| ==> p[m] == kept[m];
    forall y | y in rs ensures exists m :: 0 <= m < |p| && key(p[m]) == key(y) {
      if y == r {
        assert key(p[|kept|]) == key(y);
      } else {
        var m :| 0 <= m < |kept| && key(kept[m]) == key(y);
        assert key(p[m]) == key(y);
      }
    }
    forall m, y | 0 <= m < |p| && y in rs && key(y) == key(p[m]) ensures rank(p[m]) <= rank(y) {
      if m < |kept| && y != r {
        assert y in rows;
      }
    }
  }

  lemma ReplaceKeepsKeysDistinct<R, K>(kept: seq<R>, r: R, j: nat, key: R -> K)
    requires KeysDistinct(kept, key)
    requires j < |kept| && key(kept[j]) == key(r)
    ensures KeysDistinct(kept[j := r], key)
  {
    var p := kept[j := r];
    assert forall m :: 0 <= m < |p| ==> key(p[m]) == key(kept[m]);
  }

  lemma ReplaceMembers<R>(kept: seq<R>, rows: seq<R>, r: R, j: nat)
    requires KeptFromRows(kept, rows)
    requires j < |kept|
    ensures KeptFromRows(kept[j := r], rows + [r])
  {
    var p := kept[j := r];
    forall x | x in p ensures x in rows + [r] {
      var m :| 0 <= m < |p| && p[m] == x;
      if m != j {
        assert kept[m] in kept;
      }
    }
  }

  lemma ReplaceCovers<R, K>(kept: seq<R>, rows: seq<R>, r: R, j: nat, key: R -> K)
    requires CoversKeys(kept, rows, key)
    requires j < |kept| && key(kept[j]) == key(r)
    ensures CoversKeys(kept[j := r], rows + [r], key)
  {
    var p := kept[j := r];
    forall y | y in rows + [r] ensures exists m :: 0 <= m < |p| && key(p[m]) == key(y) {
      if y != r {
        var m :| 0 <= m < |kept| && key(kept[m]) == key(y);
        assert key(p[m]) == key(y);
      } else {
        assert key(p[j]) == key(y);
      }
    }
  }

  lemma ReplaceRanks<R, K>(kept: seq<R>, rows: seq<R>, r: R, j: nat, key: R -> K, rank: R -> real)
    requires KeptIsBest(kept, rows, key, rank) && KeysDistinct(kept, key)
    requires j < |kept| && key(kept[j]) == key(r) && rank(r) < rank(kept[j])
    ensures KeptIsBest(kept[j := r], rows + [r], key, rank)
  {
    var p := kept[j := r];
    forall m, y | 0 <= m < |p| && y in rows + [r] && key(y) == key(p[m]) ensures rank(p[m]) <= rank(y) {
      if m == j && y != r {
        assert rank(kept[j]) <= rank(y);
      }
    }
  }

  /** A better-ranked row replaces the kept row of its key. */
  lemma PlaceBetter<R, K>(kept: seq<R>, rows: seq<R>, r: R, j: nat, key: R -> K, rank: R -> real)
    requires BestOf(kept, rows, key, rank)
    requires j < |kept| && key(kept[j]) == key(r) && rank(r) < rank(kept[j])
    ensures BestOf(kept[j := r], rows + [r], key, rank)
  {
    ReplaceKeepsKeysDistinct(kept, r, j, key);
    ReplaceMembers(kept, rows, r, j);
    ReplaceCovers(kept, rows, r, j, key);
    ReplaceRanks(kept, rows, r, j, key, rank);
  }

  /** A row no better than the kept row of its key is dropped. */
  lemma PlaceWorse<R, K>(kept: seq<R>, rows: seq<R>, r: R, j: nat, key: R -> K, rank: R -> real)
    requires BestOf(kept, rows, key, rank)
    requires j < |kept| && key(kept[j]) == key(r) && rank(r) >= rank(kept[j])
    ensures BestOf(kept, rows + [r], key, rank)
  {
    var rs := rows + [r];
    forall y | y in rs ensures exists m :: 0 <= m < |kept| && key(kept[m]) == key(y) {
      if y == r {
        assert key(kept[j]) == key(y);
      }
    }
    forall m, y | 0 <= m < |kept| && y in rs && key(y) == key(kept[m]) ensures rank(kept[m]) <= rank(y) {
    }
  }

  lemma PlaceStep<R, K>(kept: seq<R>, rows: seq<R>, r: R, key: R -> K, rank: R -> real)
    requires BestOf(kept, rows, key, rank)
    ensures BestOf(Place(kept, r, key, rank), rows + [r], key, rank)
  {
    var j := IndexOfKey(kept, key(r), key);
    if j == |kept| {
      PlaceNew(kept, rows, r, key, rank);
    } else if rank(r) < rank(kept[j]) {
      PlaceBetter(kept, rows, r, j, key, rank);
    } else {
      PlaceWorse(kept, rows, r, j, key, rank);
    }
  }

  /**
    * The selection keeps exactly one row per distinct key: each kept row is an input row,
    * every input key is kept once, and the kept row has the least rank among its key's rows.
    */
  lemma {:induction false} KeepBestFacts<R, K>(rows: seq<R>, key: R -> K, rank: R -> real)
    ensures BestOf(KeepBest(rows, key, rank), rows, key, rank)
    decreases |rows|
  {
    if rows != [] {
      var n := |rows| - 1;
      KeepBestFacts(rows[..n], key, rank);
      PlaceStep(KeepBest(rows[..n], key, rank), rows[..n], rows[n], key, rank);
      assert rows[..n] + [rows[n]] == rows;
    }
  }

  /** A season row of the NBA exports. */
  datatype SeasonRow = SeasonRow(playerId: string, season: string, team: string)

  /** `^\d+TM$`: "2TM", "3TM", ... */
  predicate IsMultiTeam(t: string) {
    |t| >= 3 && t[|t| - 2..] == "TM" && forall i :: 0 <= i < |t| - 2 ==> IsDigit(t[i])
  }

  /** TOT first (0), then the multi-team rows (1), then single-team rows (2). */
  function TeamPriority(r: SeasonRow): (p: real)
    ensures p == 0.0 <==> Strip(r.team) == "TOT"
  {
    var t := Strip(r.team);
    if t == "TOT" then 0.0 else if IsMultiTeam(t) then 1.0 else 2.0
  }

  function PlayerSeason(r: SeasonRow): (string, string) { (r.playerId, r.season) }

  function PickOneRowPerPlayerSeason(rows: seq<SeasonRow>): seq<SeasonRow> {
    KeepBest(rows, PlayerSeason, TeamPriority)
  }

  /**
    * One row per (player, season), each an input row; and when a player-season has a TOT row,
    * the kept row is a TOT row.
    */
  lemma PickOneRowFacts(rows: seq<SeasonRow>)
    ensures BestOf(PickOneRowPerPlayerSeason(rows), rows, PlayerSeason, TeamPriority)
    ensures var kept := PickOneRowPerPlayerSeason(rows);
      forall j, r :: 0 <= j < |kept| && r in rows && PlayerSeason(r) == PlayerSeason(kept[j]) ==>
        (Strip(r.team) == "TOT" ==> Strip(kept[j].team) == "TOT")
  {
    KeepBestFacts(rows, PlayerSeason, TeamPriority);
    var kept := PickOneRowPerPlayerSeason(rows);
    forall j, r | 0 <= j < |kept| && r in rows && PlayerSeason(r) == PlayerSeason(kept[j])
      ensures Strip(r.team) == "TOT" ==> Strip(kept[j].team) == "TOT"
    {
      assert TeamPriority(kept[j]) <= TeamPriority(r);
    }
  }

  /** A prediction row as the dedupe sees it: the name and the minutes per game. */
  datatype PredictionRow = PredictionRow(playerName: string, mp: real)

  function NameOf(r: PredictionRow): string { r.playerName }

  function NegMinutes(r: PredictionRow): real { -r.mp }

  /** Sort by name, minutes descending, and keep each name's first row. */
  function DedupeByMinutes(rows: seq<PredictionRow>): seq<PredictionRow> {
    KeepBest(rows, NameOf, NegMinutes)
  }

  /** One row per player name, each an input row, and the one with the most minutes. */
  lemma DedupeByMinutesFacts(rows: seq<PredictionRow>)
    ensures BestOf(DedupeByMinutes(rows), rows, NameOf, NegMinutes)
    ensures var kept := DedupeByMinutes(rows);
      forall j, r :: 0 <= j < |kept| && r in rows && r.playerName == kept[j].playerName ==> kept[j].mp >= r.mp
  {
    KeepBestFacts(rows, NameOf, NegMinutes);
    var kept := DedupeByMinutes(rows);
    forall j, r | 0 <= j < |kept| && r in rows && r.playerName == kept[j].playerName ensures kept[j].mp >= r.mp {
      assert NameOf(r) == NameOf(kept[j]);
      assert NegMinutes(kept[j]) <= NegMinutes(r);
    }
  }
}
