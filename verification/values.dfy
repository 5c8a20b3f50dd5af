/**
 * PHP values as the client sees them after `json_decode($raw, true)`, and the
 * handful of PHP conversions the client applies to them: truthiness, `isset`
 * on a key path, the `(int)`/`intval` cast, string interpolation and
 * `strtolower`.
 */
module Values {

  /** A decoded JSON value. JSON objects become keyed PHP arrays (`Obj`),
      JSON lists become indexed PHP arrays (`List`). */
  datatype Value =
    | Null
    | Bool(b: bool)
    | Int(i: int)
    | Str(s: string)
    | List(items: seq<Value>)
    | Obj(fields: map<string, Value>)

  /** PHP's boolean conversion: null, false, 0, "", "0" and the empty array are falsy. */
  predicate Truthy(v: Value) {
    match v
    case Null => false
    case Bool(b) => b
    case Int(i) => i != 0
    case Str(s) => s != "" && s != "0"
    case List(items) => |items| > 0
    case Obj(fields) => |fields| > 0
  }

  /** `$v[$key]` for a string key: the entry when `v` is a keyed array that has
      it, and null otherwise. */
  function Index(v: Value, key: string): Value {
    if v.Obj? && key in v.fields then v.fields[key] else Null
  }

  /** `isset($v[$key])`: the key is present and its value is not null. */
  predicate IsSet(v: Value, key: string) {
    Index(v, key) != Null
  }

  predicate IsDigit(c: char) {
    '0' <= c <= '9'
  }

  function DigitValue(c: char): nat
    requires IsDigit(c)
  {
    (c as int) - ('0' as int)
  }

  function DigitChar(d: nat): (c: char)
    requires d < 10
    ensures IsDigit(c) && DigitValue(c) == d
  {
    (('0' as int) + d) as char
  }

  predicate AllDigits(s: string) {
    forall k :: 0 <= k < |s| ==> IsDigit(s[k])
  }

  /** Decimal rendering of a natural number, without leading zeros. */
  function NatToString(n: nat): (s: string)
    ensures |s| > 0 && AllDigits(s)
    decreases n
  {
    if n < 10 then [DigitChar(n)] else NatToString(n / 10) + [DigitChar(n % 10)]
  }

  /** PHP's `"{$n}"` and `sprintf('%d', $n)` for an integer. */
  function IntToString(i: int): string {
    if i < 0 then "-" + NatToString(-i) else NatToString(i)
  }

  /** The number a string of decimal digits denotes. */
  function DigitsValue(s: string): nat
    requires AllDigits(s)
    decreases |s|
  {
    if |s| == 0 then 0 else 10 * DigitsValue(s[..|s| - 1]) + DigitValue(s[|s| - 1])
  }

  /** The longest prefix of `s` made of decimal digits. */
  function DigitRun(s: string): (r: string)
    ensures AllDigits(r) && r <= s
    decreases |s|
  {
    if |s| > 0 && IsDigit(s[0]) then [s[0]] + DigitRun(s[1..]) else ""
  }

  /** The whitespace PHP skips before a number it converts from a string. */
  predicate IsSpace(c: char) {
    c == ' ' || c == '\t' || c == '\n' || c == '\r' || c as int == 11 || c as int == 12
  }

  function SkipSpaces(s: string): string
    decreases |s|
  {
    if |s| > 0 && IsSpace(s[0]) then SkipSpaces(s[1..]) else s
  }

  /** `(int)$s` for a string: leading whitespace, an optional sign, then the
      longest run of digits; 0 when there is none. */
  function ParseLeadingInt(s: string): int {
    var t := SkipSpaces(s);
    if |t| > 0 && t[0] == '-' then -(DigitsValue(DigitRun(t[1..])) as int)
    else if |t| > 0 && t[0] == '+' then DigitsValue(DigitRun(t[1..]))
    else DigitsValue(DigitRun(t))
  }

  /** PHP's `(int)$v` and `intval($v)`. */
  function IntVal(v: Value): int {
    match v
    case Null => 0
    case Bool(b) => if b then 1 else 0
    case Int(i) => i
    case Str(s) => ParseLeadingInt(s)
    case List(items) => if |items| == 0 then 0 else 1
    case Obj(fields) => if |fields| == 0 then 0 else 1
  }

  /** PHP's string conversion `"{$v}"`. */
  function ToStr(v: Value): string {
    match v
    case Null => ""
    case Bool(b) => if b then "1" else ""
    case Int(i) => IntToString(i)
    case Str(s) => s
    case List(_) => "Array"
    case Obj(_) => "Array"
  }

  function LowerChar(c: char): char {
    if 'A' <= c <= 'Z' then ((c as int) - ('A' as int) + ('a' as int)) as char else c
  }

  /** `strtolower`, on ASCII letters. */
  function Lower(s: string): (r: string)
    ensures |r| == |s|
    ensures forall k :: 0 <= k < |s| ==> r[k] == LowerChar(s[k])
  {
    seq(|s|, k requires 0 <= k < |s| => LowerChar(s[k]))
  }

  lemma {:induction false} DigitRunOfDigits(s: string)
    requires AllDigits(s)
    ensures DigitRun(s) == s
    decreases |s|
  {
    if |s| > 0 {
      DigitRunOfDigits(s[1..]);
      assert [s[0]] + s[1..] == s;
    }
  }

  lemma {:induction false} DigitsValueOfNatToString(n: nat)
    ensures DigitsValue(NatToString(n)) == n
    decreases n
  {
    if n >= 10 {
      var prefix := NatToString(n / 10);
      var s := prefix + [DigitChar(n % 10)];
      assert s[..|s| - 1] == prefix;
      DigitsValueOfNatToString(n / 10);
    }
  }

  /** Casting the decimal rendering of an integer back to an integer gives
      that integer: `(int)"{$n}" == $n`. */
  lemma IntToStringRoundTrip(i: int)
    ensures ParseLeadingInt(IntToString(i)) == i
  {
    var n: nat := if i < 0 then -i else i;
    var digits := NatToString(n);
    DigitRunOfDigits(digits);
    DigitsValueOfNatToString(n);
    if i < 0 {
      var s := "-" + digits;
      assert s[1..] == digits;
      assert SkipSpaces(s) == s;
    } else {
      assert IsDigit(digits[0]);
      assert SkipSpaces(digits) == digits;
    }
  }

  /** Lower-casing twice is lower-casing once, so a cached lower-case tag
      name is stable. */
  lemma LowerIdempotent(s: string)
    ensures Lower(Lower(s)) == Lower(s)
  {
  }
}
