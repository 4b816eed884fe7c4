/**
  * JSON values as the client and the backend receive them, and the few coercions the code
  * applies to them: JavaScript truthiness, `String(x)` and `Number(x)`, and Python truthiness.
  */
module Json {
  import opened Wrappers
  import opened Text

  datatype Json =
    | JNull
    | JBool(b: bool)
    | JNum(n: real)
    | JStr(s: string)
    | JArr(items: seq<Json>)
    | JObj(fields: map<string, Json>)

  /** Property read `j.key`: only objects carry fields; anything else reads as undefined (None). */
  function Get(j: Json, key: string): Option<Json> {
    if j.JObj? && key in j.fields then Some(j.fields[key]) else None
  }

  /** `j.key ?? fallback`: an undefined or null property gives the fallback. */
  function GetOrDefault(j: Json, key: string, fallback: Json): (r: Json)
    ensures Get(j, key).None? ==> r == fallback
    ensures Get(j, key) == Some(JNull) ==> r == fallback
    ensures Get(j, key).Some? && Get(j, key) != Some(JNull) ==> r == Get(j, key).value
  {
    match Get(j, key)
    case Some(v) => if v.JNull? then fallback else v
    case None => fallback
  }

  /** JavaScript truthiness; every array and object is truthy, even an empty one. */
  predicate JsTruthy(j: Json) {
    match j
    case JNull => false
    case JBool(b) => b
    case JNum(n) => n != 0.0
    case JStr(s) => s != ""
    case JArr(_) => true
    case JObj(_) => true
  }

  /** Python truthiness of a decoded JSON value; empty lists and dicts are falsy. */
  predicate PyTruthy(j: Json) {
    match j
    case JNull => false
    case JBool(b) => b
    case JNum(n) => n != 0.0
    case JStr(s) => s != ""
    case JArr(items) => items != []
    case JObj(fields) => fields != map[]
  }

  /** Python `isinstance(j, str)` as an option. */
  function PyStr(j: Option<Json>): Option<string> {
    if j.Some? && j.value.JStr? then Some(j.value.s) else None
  }

  // ---------------------------------------------------------------------------
  // JavaScript String(x)
  // ---------------------------------------------------------------------------

  /** Up to `fuel` decimal digits of a fraction 0 <= f < 1, stopping once it is exact. */
  function FractionDigits(f: real, fuel: nat): string
    requires 0.0 <= f < 1.0
    decreases fuel
  {
    if fuel == 0 || f == 0.0 then ""
    else
      var d := (f * 10.0).Floor;
      [DigitChar(d)] + FractionDigits(f * 10.0 - d as real, fuel - 1)
  }

  /** `String(n)` for a number: integers in plain decimal, other values with their decimal fraction. */
  function NumberText(n: real): string {
    if n == n.Floor as real then IntText(n.Floor)
    else
      var a := if n < 0.0 then -n else n;
      (if n < 0.0 then "-" else "") + NatText(a.Floor) + "." + FractionDigits(a - a.Floor as real, 20)
  }

  function JoinComma(parts: seq<string>): string {
    if parts == [] then ""
    else if |parts| == 1 then parts[0]
    else parts[0] + "," + JoinComma(parts[1..])
  }

  /** JavaScript `String(j)`; an array is joined with commas, its null elements printing as "". */
  function JsString(j: Json): string
    decreases j
  {
    match j
    case JNull => "null"
    case JBool(b) => if b then "true" else "false"
    case JNum(n) => NumberText(n)
    case JStr(s) => s
    case JArr(items) =>
      JoinComma(seq(|items|, i requires 0 <= i < |items| => if items[i].JNull? then "" else JsString(items[i])))
    case JObj(_) => "[object Object]"
  }

  // ---------------------------------------------------------------------------
  // JavaScript Number(x)
  // ---------------------------------------------------------------------------

  /** A JavaScript number: a finite value, one of the two infinities, or NaN. */
  datatype JsNumber = Finite(v: real) | Infinite(negative: bool) | NaN

  function Negate(n: JsNumber): JsNumber {
    match n
    case Finite(v) => Finite(-v)
    case Infinite(neg) => Infinite(!neg)
    case NaN => NaN
  }

  predicate AllDigits(s: string) {
    forall i :: 0 <= i < |s| ==> IsDigit(s[i])
  }

  function FractionValue(s: string): real
    requires AllDigits(s)
  {
    if s == [] then 0.0 else (DigitValue(s[0]) as real + FractionValue(s[1..])) / 10.0
  }

  function FirstIndexOf(s: string, c: char): (k: nat)
    ensures k <= |s| && c !in s[..k]
    ensures k < |s| ==> s[k] == c
  {
    if s == [] || s[0] == c then 0 else 1 + FirstIndexOf(s[1..], c)
  }

  /** The index of the first exponent marker `e` or `E`, or |s| when there is none. */
  function ExponentIndex(s: string): (k: nat)
    ensures k <= |s| && 'e' !in s[..k] && 'E' !in s[..k]
    ensures k < |s| ==> s[k] == 'e' || s[k] == 'E'
  {
    if s == [] || s[0] == 'e' || s[0] == 'E' then 0 else 1 + ExponentIndex(s[1..])
  }

  function Pow10(e: nat): (r: real)
    ensures r >= 1.0
  {
    if e == 0 then 1.0 else 10.0 * Pow10(e - 1)
  }

  /** m times ten to the power e, for an exponent of either sign. */
  function Scale(m: real, e: int): real {
    if e >= 0 then m * Pow10(e) else m / Pow10(-e)
  }

  /** A mantissa `digits`, `digits.digits`, `.digits` or `digits.`; at least one digit. */
  function MantissaValue(t: string): Option<real> {
    var k := FirstIndexOf(t, '.');
    var whole := t[..k];
    var frac := if k < |t| then t[k + 1..] else "";
    if AllDigits(whole) && AllDigits(frac) && whole + frac != "" then
      Some(DecimalValue(whole) as real + FractionValue(frac))
    else None
  }

  /** The exponent after the marker: digits with an optional sign; at least one digit. */
  function ExponentValue(s: string): Option<int> {
    var neg := s != [] && s[0] == '-';
    var digits := if s != [] && (s[0] == '+' || s[0] == '-') then s[1..] else s;
    if digits != [] && AllDigits(digits) then
      Some(if neg then -(DecimalValue(digits) as int) else DecimalValue(digits))
    else None
  }

  /** An unsigned decimal numeral: a mantissa, optionally followed by `e` or `E` and an exponent. */
  function UnsignedDecimal(t: string): JsNumber {
    var k := ExponentIndex(t);
    match MantissaValue(t[..k])
    case None => NaN
    case Some(m) =>
      if k == |t| then Finite(m)
      else
        match ExponentValue(t[k + 1..])
        case None => NaN
        case Some(e) => Finite(Scale(m, e))
  }

  /** What may follow the sign: `Infinity` (spelled exactly so) or an unsigned decimal numeral. */
  function UnsignedNumber(t: string): JsNumber {
    if t == "Infinity" then Infinite(false) else UnsignedDecimal(t)
  }

  /** The value of a hexadecimal digit of either case; 16 for any other character. */
  function HexDigitValue(c: char): nat {
    if '0' <= c <= '9' then c as int - '0' as int
    else if 'a' <= c <= 'f' then c as int - 'a' as int + 10
    else if 'A' <= c <= 'F' then c as int - 'A' as int + 10
    else 16
  }

  predicate AllRadixDigits(s: string, radix: nat) {
    forall i :: 0 <= i < |s| ==> HexDigitValue(s[i]) < radix
  }

  function RadixValue(s: string, radix: nat): nat
    requires AllRadixDigits(s, radix)
  {
    if s == [] then 0 else RadixValue(s[..|s| - 1], radix) * radix + HexDigitValue(s[|s| - 1])
  }

  /** The base a `0x`, `0o` or `0b` prefix (either case) names, or 0 for anything else. */
  function RadixOf(t: string): nat {
    if |t| < 2 || t[0] != '0' then 0
    else if t[1] == 'x' || t[1] == 'X' then 16
    else if t[1] == 'o' || t[1] == 'O' then 8
    else if t[1] == 'b' || t[1] == 'B' then 2
    else 0
  }

  /** A non-decimal integer literal `0x1A`, `0o17`, `0b101`; no sign is allowed before it. */
  function RadixInteger(t: string): Option<nat> {
    var radix := RadixOf(t);
    if radix != 0 && |t| > 2 && AllRadixDigits(t[2..], radix) then Some(RadixValue(t[2..], radix))
    else None
  }

  /**
    * JavaScript `Number(s)` for a string: blank is 0; a `0x`/`0o`/`0b` integer its value;
    * otherwise an optional sign followed by `Infinity` or a decimal numeral with an optional
    * exponent; anything else is NaN.
    */
  function StringToNumber(s: string): JsNumber {
    var t := Strip(s);
    if t == "" then Finite(0.0)
    else if RadixInteger(t).Some? then Finite(RadixInteger(t).value as real)
    else if t[0] == '-' then Negate(UnsignedNumber(t[1..]))
    else if t[0] == '+' then UnsignedNumber(t[1..])
    else UnsignedNumber(t)
  }

  /** JavaScript `Number(j)`; arrays and objects convert through their string form. */
  function JsToNumber(j: Json): JsNumber {
    match j
    case JNull => Finite(0.0)
    case JBool(b) => Finite(if b then 1.0 else 0.0)
    case JNum(n) => Finite(n)
    case JStr(s) => StringToNumber(s)
    case JArr(_) => StringToNumber(JsString(j))
    case JObj(_) => StringToNumber(JsString(j))
  }

  /** A non-empty digit string is an unsigned decimal numeral with its decimal value. */
  lemma DigitsNumber(t: string)
    requires t != [] && AllDigits(t)
    ensures RadixOf(t) == 0 && t[0] != '-' && t[0] != '+'
    ensures UnsignedNumber(t) == Finite(DecimalValue(t) as real)
  {
    assert t[0] != 'I' && t[0] != '-' && t[0] != '+';
    assert |t| >= 2 ==> IsDigit(t[1]);
    var k := ExponentIndex(t);
    assert k < |t| ==> IsDigit(t[k]);
    assert t[..k] == t;
    var d := FirstIndexOf(t, '.');
    assert d < |t| ==> IsDigit(t[d]);
    assert t[..d] == t;
  }

  lemma NatTextNumber(n: nat)
    ensures StringToNumber(NatText(n)) == Finite(n as real)
  {
    var t := NatText(n);
    assert !IsSpace(t[0]) && !IsSpace(t[|t| - 1]);
    StripOfStripped(t);
    DigitsNumber(t);
    NatTextRoundTrip(n);
  }

  /** `Number(String(n))` gives back an integer `n`. */
  lemma NumberTextRoundTrip(n: int)
    ensures StringToNumber(NumberText(n as real)) == Finite(n as real)
  {
    assert NumberText(n as real) == IntText(n);
    if n < 0 {
      var t := IntText(n);
      var u := NatText(-n);
      assert t == "-" + u && t[1..] == u;
      assert !IsSpace(t[0]) && !IsSpace(t[|t| - 1]) by { assert t[|t| - 1] == u[|u| - 1]; }
      StripOfStripped(t);
      assert RadixOf(t) == 0;
      DigitsNumber(u);
      NatTextRoundTrip(-n);
    } else {
      NatTextNumber(n);
    }
  }

  lemma ExponentExample()
    ensures StringToNumber("8.5e1") == Finite(85.0)
  {
    var t := "8.5e1";
    StripOfStripped(t);
    assert RadixOf(t) == 0;
    assert ExponentIndex(t) == 3;
    assert t[..3] == "8.5" && t[4..] == "1";
    assert FirstIndexOf("8.5", '.') == 1;
    assert "8.5"[..1] == "8" && "8.5"[2..] == "5";
    assert DecimalValue("8") == 8 by { assert "8"[..0] == ""; }
    assert FractionValue("5") == 0.5 by { assert "5"[1..] == ""; }
    assert MantissaValue("8.5") == Some(8.5);
    assert DecimalValue("1") == 1 by { assert "1"[..0] == ""; }
    assert ExponentValue("1") == Some(1);
    assert Scale(8.5, 1) == 85.0 by { assert Pow10(1) == 10.0; }
  }

  lemma HexExample()
    ensures StringToNumber("0x1A") == Finite(26.0)
  {
    var t := "0x1A";
    StripOfStripped(t);
    assert RadixOf(t) == 16 && t[2..] == "1A";
    assert "1A"[..1] == "1" && "1"[..0] == "";
    assert RadixValue("1A", 16) == 26;
  }

  lemma InfinityExample()
    ensures StringToNumber("-Infinity") == Infinite(true)
  {
    var t := "-Infinity";
    StripOfStripped(t);
    assert RadixOf(t) == 0 && t[1..] == "Infinity";
  }

  /** A sign may not precede a radix prefix, and an exponent needs digits. */
  lemma MalformedExamples()
    ensures StringToNumber("-0x1A") == NaN
    ensures StringToNumber("1e") == NaN
  {
    var t := "-0x1A";
    StripOfStripped(t);
    assert RadixOf(t) == 0 && t[1..] == "0x1A";
    assert ExponentIndex("0x1A") == 4;
    assert FirstIndexOf("0x1A", '.') == 4;
    assert "0x1A"[..4] == "0x1A" && !IsDigit("0x1A"[1]);
    var u := "1e";
    StripOfStripped(u);
    assert RadixOf(u) == 0;
    assert ExponentIndex(u) == 1 && u[2..] == "";
    assert u[..1] == "1" && FirstIndexOf("1", '.') == 1 && "1"[..1] == "1";
  }
}
