/** The fragment of Python's built-in behaviour that the call analytics, the
    phone helper and the settings loader rely on: dynamically typed values,
    truthiness, `int(v)`, `float(v)`, `str.strip()`, `str.lower()` and the
    substring test `sub in s`. */
module Python {

  datatype Option<T> = None | Some(value: T) {
    function GetOr(default: T): T {
      match this
      case Some(v) => v
      case None => default
    }
  }

  /** A loosely typed Python value as it can appear in a provider record.
      `FloatV` is a finite float, given by its value and by the text `str()`
      renders it as. `ObjV` is any other object (a list, a non-section dict,
      an enum member, a `Decimal`), given by its `str()` text, its `.value`
      attribute when that attribute is a string, its truthiness (`bool(v)`,
      which `__bool__` or `__len__` decides), and what `int(v)` and
      `float(v)` return, `None` where they raise. */
  datatype Value =
    | NoneV
    | BoolV(b: bool)
    | IntV(i: int)
    | FloatV(x: real, text: string)
    | StrV(s: string)
    | ObjV(text: string, valueAttr: Option<string>, truthy: bool,
           intValue: Option<int>, floatValue: Option<real>)

  /** Python truthiness (`if v:` / `not v`). */
  predicate Truthy(v: Value) {
    match v
    case NoneV => false
    case BoolV(b) => b
    case IntV(i) => i != 0
    case FloatV(x, _) => x != 0.0
    case StrV(s) => s != ""
    case ObjV(_, _, b, _, _) => b
  }

  // ---------- characters and strings ----------

  /** The characters `str.isspace()` accepts, which `str.strip()` removes. */
  predicate IsSpace(c: char) {
    ('\t' <= c <= '\r') || ('\U{1c}' <= c <= '\U{1f}') || c == ' ' || c == '\U{85}'
    || c == '\U{a0}' || c == '\U{1680}' || ('\U{2000}' <= c <= '\U{200a}')
    || c == '\U{2028}' || c == '\U{2029}' || c == '\U{202f}' || c == '\U{205f}' || c == '\U{3000}'
  }

  predicate IsDigit(c: char) {
    '0' <= c <= '9'
  }

  predicate AllDigits(s: string) {
    forall i :: 0 <= i < |s| ==> IsDigit(s[i])
  }

  /** `s.lstrip()`: the input after its leading whitespace. */
  function StripLeft(s: string): (r: string)
    ensures |r| <= |s| && r == s[|s| - |r|..]
    ensures r != [] ==> !IsSpace(r[0])
    ensures forall k :: 0 <= k < |s| - |r| ==> IsSpace(s[k])
  {
    if s != [] && IsSpace(s[0]) then StripLeft(s[1..]) else s
  }

  /** `s.rstrip()`: the input before its trailing whitespace. */
  function StripRight(s: string): (r: string)
    ensures |r| <= |s| && r == s[..|r|]
    ensures r != [] ==> !IsSpace(r[|r| - 1])
    ensures forall k :: |r| <= k < |s| ==> IsSpace(s[k])
  {
    if s != [] && IsSpace(s[|s| - 1]) then StripRight(s[..|s| - 1]) else s
  }

  /** `s.strip()`: the input without leading and trailing whitespace. */
  function Strip(s: string): (r: string)
    ensures |r| <= |s|
    ensures r != [] ==> !IsSpace(r[0]) && !IsSpace(r[|r| - 1])
    ensures var i := |s| - |StripLeft(s)|;
            i + |r| <= |s| && r == s[i..i + |r|]
            && (forall k :: 0 <= k < i ==> IsSpace(s[k]))
            && (forall k :: i + |r| <= k < |s| ==> IsSpace(s[k]))
  {
    var l := StripLeft(s);
    StripSlice(s, l, StripRight(l));
    StripRight(l)
  }

  /** A prefix `r` of the suffix `l` of `s`, with only whitespace around
      each, is a slice of `s` with only whitespace outside it. */
  lemma StripSlice(s: string, l: string, r: string)
    requires |l| <= |s| && l == s[|s| - |l|..]
    requires forall k :: 0 <= k < |s| - |l| ==> IsSpace(s[k])
    requires |r| <= |l| && r == l[..|r|]
    requires forall k :: |r| <= k < |l| ==> IsSpace(l[k])
    ensures var i := |s| - |l|;
            i + |r| <= |s| && r == s[i..i + |r|]
            && (forall k :: 0 <= k < i ==> IsSpace(s[k]))
            && (forall k :: i + |r| <= k < |s| ==> IsSpace(s[k]))
  {
    var i := |s| - |l|;
    forall k | i + |r| <= k < |s| ensures IsSpace(s[k]) {
      assert s[k] == l[k - i];
    }
  }

  /** A string with no whitespace at either end is already stripped. */
  lemma StripNoSpace(s: string)
    requires s != [] && !IsSpace(s[0]) && !IsSpace(s[|s| - 1])
    ensures Strip(s) == s
  {
  }

  function LowerChar(c: char): char {
    if 'A' <= c <= 'Z' then (c as int + 32) as char else c
  }

  /** No upper-case ASCII letter in `s`. */
  predicate NoUpper(s: string) {
    forall i :: 0 <= i < |s| ==> !('A' <= s[i] <= 'Z')
  }

  /** `s.lower()` on the ASCII letters. */
  function Lower(s: string): (r: string)
    ensures |r| == |s|
    ensures NoUpper(r)
  {
    seq(|s|, i requires 0 <= i < |s| => LowerChar(s[i]))
  }

  /** Lower-casing a string without upper-case letters changes nothing. */
  lemma LowerOfLower(s: string)
    requires NoUpper(s)
    ensures Lower(s) == s
  {
  }

  /** Lower-casing works character by character. */
  lemma LowerConcat(a: string, b: string)
    ensures Lower(a + b) == Lower(a) + Lower(b)
  {
    assert forall i :: 0 <= i < |a + b| ==> Lower(a + b)[i] == (Lower(a) + Lower(b))[i];
  }

  /** `sub in s`. */
  predicate Contains(s: string, sub: string)
    decreases |s|
  {
    |sub| <= |s| && (s[..|sub|] == sub || Contains(s[1..], sub))
  }

  /** Every character of a substring occurs in the string. */
  lemma {:induction false} ContainsChars(s: string, sub: string)
    requires Contains(s, sub)
    ensures forall j :: 0 <= j < |sub| ==> sub[j] in s
    decreases |s|
  {
    if s[..|sub|] != sub {
      ContainsChars(s[1..], sub);
      forall j | 0 <= j < |sub| ensures sub[j] in s {
        var k :| 0 <= k < |s[1..]| && s[1..][k] == sub[j];
        assert s[k + 1] == sub[j];
      }
    } else {
      forall j | 0 <= j < |sub| ensures sub[j] in s {
        assert s[j] == s[..|sub|][j];
      }
    }
  }

  /** A string missing one of the characters of `sub` does not contain it. */
  lemma MissingCharNotContained(s: string, sub: string, j: int)
    requires 0 <= j < |sub| && sub[j] !in s
    ensures !Contains(s, sub)
  {
    if Contains(s, sub) {
      ContainsChars(s, sub);
    }
  }

  // ---------- numbers ----------

  /** Python `int(x)` of a float: truncation toward zero. */
  function Trunc(x: real): (r: int)
    ensures x >= 0.0 ==> 0 <= r && r as real <= x < r as real + 1.0
    ensures x < 0.0 ==> r <= 0 && r as real - 1.0 < x <= r as real
  {
    if x >= 0.0 then x.Floor else -((-x).Floor)
  }

  function DigitValue(c: char): nat
    requires IsDigit(c)
  {
    c as int - '0' as int
  }

  /** The number a string of decimal digits denotes. */
  function DigitsValue(ds: string): nat
    requires AllDigits(ds)
  {
    if ds == [] then 0 else DigitsValue(ds[..|ds| - 1]) * 10 + DigitValue(ds[|ds| - 1])
  }

  function Pow10(n: nat): (r: nat)
    ensures r >= 1
  {
    if n == 0 then 1 else 10 * Pow10(n - 1)
  }

  /** An optional leading sign, split off: (is negative, rest). */
  function SplitSign(t: string): (bool, string) {
    if t != [] && (t[0] == '+' || t[0] == '-') then (t[0] == '-', t[1..]) else (false, t)
  }

  /** `int(s)` for a string: surrounding whitespace, an optional sign and at
      least one decimal digit. */
  function StrToInt(s: string): Option<int> {
    var (neg, body) := SplitSign(Strip(s));
    if body != [] && AllDigits(body) then
      var n: int := DigitsValue(body);
      Some(if neg then -n else n)
    else None
  }

  function IndexOf(s: string, c: char): (r: Option<nat>)
    ensures r.Some? ==> r.value < |s| && s[r.value] == c && c !in s[..r.value]
    ensures r.None? ==> c !in s
  {
    if s == [] then None
    else if s[0] == c then Some(0)
    else match IndexOf(s[1..], c)
      case None => None
      case Some(k) => Some(k + 1)
  }

  /** The value of `digits`, `digits.`, `digits.digits` or `.digits`. */
  function DecimalValue(body: string): Option<real> {
    match IndexOf(body, '.')
    case None =>
      if body != [] && AllDigits(body) then Some(DigitsValue(body) as real) else None
    case Some(k) =>
      var ip, fp := body[..k], body[k + 1..];
      if AllDigits(ip) && AllDigits(fp) && |ip| + |fp| > 0 then
        Some(DigitsValue(ip) as real + DigitsValue(fp) as real / Pow10(|fp|) as real)
      else None
  }

  /** `float(s)` for a string in fixed-point decimal notation. */
  function StrToFloat(s: string): Option<real> {
    var (neg, body) := SplitSign(Strip(s));
    match DecimalValue(body)
    case None => None
    case Some(x) => Some(if neg then -x else x)
  }

  /** `int(v)`; `None` where Python raises ValueError or TypeError. */
  function ToInt(v: Value): Option<int> {
    match v
    case NoneV => None
    case BoolV(b) => Some(if b then 1 else 0)
    case IntV(i) => Some(i)
    case FloatV(x, _) => Some(Trunc(x))
    case StrV(s) => StrToInt(s)
    case ObjV(_, _, _, i, _) => i
  }

  /** `float(v)`; `None` where Python raises ValueError or TypeError. */
  function ToFloat(v: Value): Option<real> {
    match v
    case NoneV => None
    case BoolV(b) => Some(if b then 1.0 else 0.0)
    case IntV(i) => Some(i as real)
    case FloatV(x, _) => Some(x)
    case StrV(s) => StrToFloat(s)
    case ObjV(_, _, _, _, x) => x
  }

  /** `int(float(v) * 1000)`: seconds to whole milliseconds. */
  function SecondsToMs(v: Value): Option<int> {
    match ToFloat(v)
    case None => None
    case Some(x) => Some(Trunc(x * 1000.0))
  }

  // ---------- str() ----------

  function NatToDecimal(n: nat): (r: string)
    ensures AllDigits(r) && r != []
  {
    if n < 10 then ['0' + n as char]
    else NatToDecimal(n / 10) + ['0' + (n % 10) as char]
  }

  /** `str(v)`. */
  function PyStr(v: Value): string {
    match v
    case NoneV => "None"
    case BoolV(b) => if b then "True" else "False"
    case IntV(i) => if i < 0 then "-" + NatToDecimal(-i) else NatToDecimal(i)
    case FloatV(_, text) => text
    case StrV(s) => s
    case ObjV(text, _, _, _, _) => text
  }

  /** Reading back the decimal text of a natural number gives the number. */
  lemma {:induction false} DigitsOfDecimal(n: nat)
    ensures DigitsValue(NatToDecimal(n)) == n
  {
    if n >= 10 {
      DigitsOfDecimal(n / 10);
      var d := NatToDecimal(n / 10);
      var s := d + ['0' + (n % 10) as char];
      assert s[..|s| - 1] == d;
    }
  }

  /** `int()` of an optionally negated digit string is its value. */
  lemma StrToIntSigned(neg: bool, ds: string)
    requires ds != [] && AllDigits(ds)
    ensures var t := if neg then ['-'] + ds else ds;
            StrToInt(t).Some? && StrToInt(t).value == if neg then -(DigitsValue(ds) as int) else DigitsValue(ds)
  {
    var t := if neg then ['-'] + ds else ds;
    assert IsDigit(ds[|ds| - 1]) && IsDigit(ds[0]);
    assert t[|t| - 1] == ds[|ds| - 1];
    assert !IsSpace(t[0]) && !IsSpace(t[|t| - 1]);
    StripNoSpace(t);
    assert neg ==> t[1..] == ds;
    assert SplitSign(t) == (neg, ds);
  }

  /** `int(str(i)) == i` for every int. */
  lemma IntStrRoundTrip(i: int)
    ensures ToInt(StrV(PyStr(IntV(i)))) == Some(i)
  {
    var n: nat := if i < 0 then -i else i;
    DigitsOfDecimal(n);
    StrToIntSigned(i < 0, NatToDecimal(n));
    assert PyStr(IntV(i)) == if i < 0 then ['-'] + NatToDecimal(n) else NatToDecimal(n);
  }
}
