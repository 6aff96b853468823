/** String operations the pages rely on: `startsWith`, `includes`, an ASCII
    `toLowerCase`, and JavaScript's `Number(...)` coercion, modelled for
    numbers, the empty string and decimal digit strings. Numbers are unbounded
    integers, so a long digit string keeps a value that a JavaScript double
    would round. Every other string becomes NaN here, although JavaScript
    reads signs, fractions, exponents and surrounding whitespace as numbers. */
module Strings {

  /** `s.startsWith(prefix)`. */
  predicate StartsWith(s: string, prefix: string) {
    |prefix| <= |s| && s[..|prefix|] == prefix
  }

  /** `s.includes(sub)`: `sub` occurs at some position of `s`. */
  predicate Contains(s: string, sub: string)
    decreases |s|
  {
    StartsWith(s, sub) || (s != [] && Contains(s[1..], sub))
  }

  /** An occurrence of `sub` at any offset `k` is found by `Contains`. */
  lemma {:induction false} ContainsAt(s: string, sub: string, k: nat)
    requires k + |sub| <= |s| && s[k..k + |sub|] == sub
    ensures Contains(s, sub)
    decreases k
  {
    if k > 0 {
      assert s[1..][k - 1..k - 1 + |sub|] == s[k..k + |sub|];
      ContainsAt(s[1..], sub, k - 1);
    }
  }

  /** Conversely, `Contains` only succeeds on an actual occurrence: it yields
      an offset `k` where `sub` occurs. */
  lemma {:induction false} ContainsWitness(s: string, sub: string) returns (k: nat)
    requires Contains(s, sub)
    ensures k + |sub| <= |s| && s[k..k + |sub|] == sub
    decreases |s|
  {
    if StartsWith(s, sub) {
      k := 0;
    } else {
      var j := ContainsWitness(s[1..], sub);
      k := j + 1;
      assert s[1..][j..j + |sub|] == s[k..k + |sub|];
    }
  }

  function LowerChar(c: char): (d: char)
    ensures 'A' <= c <= 'Z' ==> d as int == c as int + 32
    ensures !('A' <= c <= 'Z') ==> d == c
  {
    if 'A' <= c <= 'Z' then (c as int + 32) as char else c
  }

  /** `toLowerCase` restricted to ASCII letters. */
  function Lower(s: string): (r: string)
    ensures |r| == |s|
    ensures forall i :: 0 <= i < |s| ==> r[i] == LowerChar(s[i])
  {
    seq(|s|, i requires 0 <= i < |s| => LowerChar(s[i]))
  }

  /** Lowering twice is lowering once. */
  lemma LowerIdempotent(s: string)
    ensures Lower(Lower(s)) == Lower(s)
  {
    assert forall i :: 0 <= i < |s| ==> Lower(Lower(s))[i] == Lower(s)[i];
  }

  /** A JavaScript value as a form field can hold it: a string, a number or
      NaN. Numbers are integers: the model has no fractions. */
  datatype JsValue = Str(s: string) | Num(n: int) | NaN

  predicate IsDigit(c: char) {
    '0' <= c <= '9'
  }

  predicate AllDigits(s: string) {
    forall i :: 0 <= i < |s| ==> IsDigit(s[i])
  }

  function DigitValue(c: char): (d: nat)
    requires IsDigit(c)
    ensures d < 10
  {
    c as int - '0' as int
  }

  /** The value of a string of decimal digits, most significant first. */
  function DigitsValue(s: string): (n: nat)
    requires AllDigits(s)
    decreases |s|
  {
    if s == [] then 0 else 10 * DigitsValue(s[..|s| - 1]) + DigitValue(s[|s| - 1])
  }

  /** `Number(v)`: numbers stay, the empty string is 0, a digit string is its
      value and any other string is NaN. */
  function ToNumber(v: JsValue): (r: JsValue)
    ensures !r.Str?
    ensures v.Num? ==> r == v
    ensures v == Str("") ==> r == Num(0)
    ensures v.Str? && v.s != "" && !AllDigits(v.s) ==> r == NaN
  {
    match v
    case Str(s) => if s == "" then Num(0) else if AllDigits(s) then Num(DigitsValue(s)) else NaN
    case Num(_) => v
    case NaN => NaN
  }

  /** The decimal text of a natural number, as typed into a numeric field. */
  function DecimalString(n: nat): (s: string)
    ensures s != [] && AllDigits(s)
    decreases n
  {
    var d := ['0' + (n % 10) as char];
    if n < 10 then d else DecimalString(n / 10) + d
  }

  /** Parsing the decimal text of `n` gives back `n`. */
  lemma {:induction false} DecimalStringRoundTrip(n: nat)
    ensures DigitsValue(DecimalString(n)) == n
    decreases n
  {
    var s := DecimalString(n);
    if n >= 10 {
      DecimalStringRoundTrip(n / 10);
      assert s[..|s| - 1] == DecimalString(n / 10);
    }
  }

  /** Hence `Number` turns the text of a natural number into that number. */
  lemma ToNumberOfDecimal(n: nat)
    ensures ToNumber(Str(DecimalString(n))) == Num(n)
  {
    DecimalStringRoundTrip(n);
  }

  /** `Number` is idempotent: coercing an already coerced value changes nothing. */
  lemma ToNumberIdempotent(v: JsValue)
    ensures ToNumber(ToNumber(v)) == ToNumber(v)
  {
  }
}
