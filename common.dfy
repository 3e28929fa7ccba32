/** Shared vocabulary: optional values, results carrying the error the
    binding raises, ASCII lower-casing and decimal rendering of integers. */
module Common {

  datatype Option<+T> = None | Some(value: T)

  /** The exception kinds the bindings raise, plus `Panic` for an `unwrap`
      on `None` or an out-of-range slice or index: a Rust panic, which the
      bindings raise to Python as `PanicException`. */
  datatype Error =
    | ValueError(msg: string)
    | IndexError(msg: string)
    | TypeError(msg: string)
    | Panic

  datatype Result<+T> = Ok(value: T) | Err(error: Error)

  /** Lower-casing of one character, as `to_lowercase` does it on ASCII. */
  function LowerChar(c: char): (r: char)
    ensures 'A' <= c <= 'Z' ==> 'a' <= r <= 'z' && r as int == c as int + 32
    ensures !('A' <= c <= 'Z') ==> r == c
  {
    if 'A' <= c <= 'Z' then (c as int + 32) as char else c
  }

  function ToLower(s: string): (r: string)
    ensures |r| == |s|
    ensures forall i :: 0 <= i < |s| ==> r[i] == LowerChar(s[i])
  {
    seq(|s|, i requires 0 <= i < |s| => LowerChar(s[i]))
  }

  predicate NoUpper(s: string) {
    forall i :: 0 <= i < |s| ==> !('A' <= s[i] <= 'Z')
  }

  /** A string without capitals is its own lower-case form; lowering twice
      is lowering once. */
  lemma ToLowerFixes(s: string)
    requires NoUpper(s)
    ensures ToLower(s) == s
  {
    assert forall i :: 0 <= i < |s| ==> ToLower(s)[i] == s[i];
  }

  lemma ToLowerIdempotent(s: string)
    ensures NoUpper(ToLower(s))
    ensures ToLower(ToLower(s)) == ToLower(s)
  {
    ToLowerFixes(ToLower(s));
  }

  function DigitChar(d: nat): (c: char)
    requires d < 10
    ensures '0' <= c <= '9' && c as int - '0' as int == d
  {
    ('0' as int + d) as char
  }

  predicate IsDigits(s: string) {
    forall i :: 0 <= i < |s| ==> '0' <= s[i] <= '9'
  }

  /** The decimal value of a string of digits; the reference against which
      the rendering below is checked. */
  function DigitsValue(s: string): nat
    requires IsDigits(s)
  {
    if s == [] then 0
    else 10 * DigitsValue(s[..|s| - 1]) + (s[|s| - 1] as int - '0' as int)
  }

  /** Decimal rendering of a natural number, as Rust's `{}` formats it. */
  function NatToString(n: nat): (s: string)
    ensures |s| >= 1 && IsDigits(s)
    ensures DigitsValue(s) == n
    ensures |s| > 1 ==> s[0] != '0'
    decreases n
  {
    if n < 10 then [DigitChar(n)]
    else
      var prefix := NatToString(n / 10);
      var s := prefix + [DigitChar(n % 10)];
      assert s[..|s| - 1] == prefix;
      s
  }

  /** Decimal rendering of an integer, with a leading minus when negative. */
  function IntToString(i: int): (s: string)
    ensures |s| >= 1
    ensures s[0] == '-' <==> i < 0
    ensures i >= 0 ==> s == NatToString(i)
    ensures i < 0 ==> s == "-" + NatToString(-i)
  {
    if i < 0 then "-" + NatToString(-i) else NatToString(i)
  }

  /** Rust's `u32`. */
  type U32 = x: int | 0 <= x < 0x1_0000_0000

  /** The range of Rust's `i32`, which a Python int must fit to be extracted. */
  predicate IsI32(x: int) {
    -0x8000_0000 <= x < 0x8000_0000
  }
}
