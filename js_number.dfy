/**
 * The JavaScript built-ins the prediction form relies on: `Number(s)` on a
 * string, `isNaN`, the comparisons `<` and `>` against a constant, and
 * `toString()` on an integer. Numbers are integers here; `None` is NaN.
 */
module JsNumber {
  import opened Wrappers

  /** A JavaScript number as the form uses it: an integer, or `None` for NaN. */
  type Num = Option<int>

  /** The white-space and line-terminator characters `Number(s)` ignores around its argument (the Latin-1 ones). */
  predicate IsWhiteSpace(c: char) {
    c == ' ' || c == '\t' || c == '\n' || c == '\r' || c == '\U{B}' || c == '\U{C}' || c == '\U{A0}' || c == '\U{FEFF}'
  }

  predicate IsDigit(c: char) {
    '0' <= c <= '9'
  }

  function DigitValue(c: char): (d: nat)
    requires IsDigit(c)
    ensures d < 10
  {
    c as int - '0' as int
  }

  function DigitChar(d: nat): (c: char)
    requires d < 10
    ensures IsDigit(c) && DigitValue(c) == d
  {
    ('0' as int + d) as char
  }

  /**
   * Where a left-to-right reading of `Number`'s text is: in the leading
   * white space, just after a sign, inside the digits (with the value read
   * so far), in the trailing white space, or past a character that makes
   * the text NaN.
   */
  datatype Scan = Leading | Signed(negative: bool) | InDigits(negative: bool, value: nat)
                | Trailing(negative: bool, value: nat) | Invalid

  function Step(state: Scan, c: char): Scan {
    match state
    case Leading =>
      if IsWhiteSpace(c) then Leading
      else if c == '-' then Signed(true)
      else if c == '+' then Signed(false)
      else if IsDigit(c) then InDigits(false, DigitValue(c))
      else Invalid
    case Signed(negative) =>
      if IsDigit(c) then InDigits(negative, DigitValue(c)) else Invalid
    case InDigits(negative, value) =>
      if IsDigit(c) then InDigits(negative, 10 * value + DigitValue(c))
      else if IsWhiteSpace(c) then Trailing(negative, value)
      else Invalid
    case Trailing(negative, value) =>
      if IsWhiteSpace(c) then state else Invalid
    case Invalid => Invalid
  }

  function ScanFrom(state: Scan, s: string): Scan
    decreases s
  {
    if s == [] then state else ScanFrom(Step(state, s[0]), s[1..])
  }

  /**
   * `Number(s)`: white space around the text is ignored, text that is empty
   * after that is 0, an optionally signed run of decimal digits is its
   * value, and anything else is NaN.
   */
  function ToNumber(s: string): Num {
    match ScanFrom(Leading, s)
    case Leading => Some(0)
    case InDigits(negative, value) => Some(if negative then -(value as int) else value)
    case Trailing(negative, value) => Some(if negative then -(value as int) else value)
    case _ => None
  }

  /** `isNaN(s)` on a string converts it first, as `Number(s)` does. */
  predicate IsNaN(s: string) {
    ToNumber(s).None?
  }

  /** `x < k`: every comparison with NaN is false. */
  predicate Below(x: Num, k: int) {
    x.Some? && x.value < k
  }

  /** `x > k`: every comparison with NaN is false. */
  predicate Above(x: Num, k: int) {
    x.Some? && x.value > k
  }

  /** The decimal digits of `n`, with no leading zero unless `n` is 0. */
  function NatToString(n: nat): (s: string)
    ensures s != [] && IsDigit(s[0]) && (s[0] == '0' ==> n == 0)
  {
    if n < 10 then [DigitChar(n)] else NatToString(n / 10) + [DigitChar(n % 10)]
  }

  /** `n.toString()` for an integer `n`. */
  function IntToString(n: int): string {
    if n < 0 then "-" + NatToString(-n) else NatToString(n)
  }

  /** Reading `a + b` is reading `a`, then `b`. */
  lemma {:induction false} ScanConcat(state: Scan, a: string, b: string)
    ensures ScanFrom(state, a + b) == ScanFrom(ScanFrom(state, a), b)
    decreases a
  {
    if a != [] {
      assert (a + b)[1..] == a[1..] + b;
      ScanConcat(Step(state, a[0]), a[1..], b);
    } else {
      assert a + b == b;
    }
  }

  /** Reading the digits of `n` from the start, or just after a sign, ends inside the digits with value `n`. */
  lemma {:induction false} ScanNatToString(n: nat, negative: bool, state: Scan)
    requires state == Signed(negative) || (state == Leading && !negative)
    ensures ScanFrom(state, NatToString(n)) == InDigits(negative, n)
  {
    if n >= 10 {
      ScanNatToString(n / 10, negative, state);
      ScanConcat(state, NatToString(n / 10), [DigitChar(n % 10)]);
    }
  }

  /** Reading back what `toString()` wrote gives the same integer. */
  lemma ToNumberOfIntToString(n: int)
    ensures ToNumber(IntToString(n)) == Some(n)
  {
    if n < 0 {
      ScanNatToString(-n, true, Signed(true));
      ScanConcat(Leading, "-", NatToString(-n));
    } else {
      ScanNatToString(n, false, Leading);
    }
  }

  /** A field holding only white space reads as 0, not NaN. */
  lemma {:induction false} BlankIsZero(s: string)
    requires forall i :: 0 <= i < |s| ==> IsWhiteSpace(s[i])
    ensures ToNumber(s) == Some(0)
  {
    if s != [] {
      BlankIsZero(s[1..]);
    }
  }
}
