/** Small shared vocabulary: an Option type for the source's panicking and
    raising paths, byte-sized integers, integer division as Rust and C do
    it (toward zero), the saturating float-to-unsigned cast, and decimal
    numerals as `format!` and Python f-strings print them. */
module Util {

  datatype Option<+T> = None | Some(value: T)

  /** A Rust `u8`. */
  type Byte = x: int | 0 <= x < 256

  /** The largest Rust `i32`. */
  const I32_MAX: int := 0x7fff_ffff

  /** A Rust `i32`. */
  type I32 = x: int | -0x8000_0000 <= x <= I32_MAX

  /** Rust's `/` on signed integers: the quotient is rounded toward zero. */
  function TruncDiv(a: int, b: int): (q: int)
    requires b > 0
    ensures a >= 0 ==> q == a / b
    ensures a < 0 ==> q == -((-a) / b)
  {
    if a >= 0 then a / b else -((-a) / b)
  }

  /** Rust's `%` on signed integers: the remainder has the sign of `a`. */
  function TruncRem(a: int, b: int): (r: int)
    requires b > 0
    ensures a == b * TruncDiv(a, b) + r
    ensures a >= 0 ==> 0 <= r < b
    ensures a < 0 ==> -b < r <= 0
  {
    a - b * TruncDiv(a, b)
  }

  /** `x as usize` for a float `x`: negative values saturate to 0, the rest
      are truncated, that is, rounded down. */
  function Ticks(x: real): (n: nat)
    ensures x <= 0.0 ==> n == 0
    ensures x >= 0.0 ==> n as real <= x < n as real + 1.0
  {
    if x <= 0.0 then 0 else x.Floor
  }

  function DigitChar(d: int): (c: char)
    requires 0 <= d < 10
    ensures '0' <= c <= '9'
    ensures c as int - '0' as int == d
  {
    ('0' as int + d) as char
  }

  /** The decimal numeral of a natural number, without leading zeros. */
  function NatToString(n: nat): (s: seq<char>)
    ensures |s| >= 1
    ensures forall i :: 0 <= i < |s| ==> '0' <= s[i] <= '9'
    ensures n < 10 <==> |s| == 1
    decreases n
  {
    if n < 10 then [DigitChar(n)] else NatToString(n / 10) + [DigitChar(n % 10)]
  }

  /** The decimal numeral of an integer, with a leading '-' when negative. */
  function IntToString(i: int): (s: seq<char>)
    ensures |s| >= 1
    ensures i >= 0 ==> s == NatToString(i)
    ensures i < 0 ==> s == ['-'] + NatToString(-i)
  {
    if i >= 0 then NatToString(i) else ['-'] + NatToString(-i)
  }

  lemma {:induction false} NatToStringInjective(a: nat, b: nat)
    requires NatToString(a) == NatToString(b)
    ensures a == b
    decreases a
  {
    var s := NatToString(a);
    if a < 10 || b < 10 {
      assert |s| == 1;
      assert s[0] == DigitChar(a) == DigitChar(b);
    } else {
      assert s[|s| - 1] == DigitChar(a % 10) == DigitChar(b % 10);
      assert s[..|s| - 1] == NatToString(a / 10) == NatToString(b / 10);
      NatToStringInjective(a / 10, b / 10);
    }
  }
}
