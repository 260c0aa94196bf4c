/**
 * Python integer semantics that the header utilities rely on: floor division
 * (`//`), the decimal rendering of `str(n)` for a non-negative integer, and the
 * number of elements of an array with a given shape tuple.
 */
module Numbers {

  /** Python's `a // b`: the quotient rounded towards negative infinity.
      Dafny's own `/` is Euclidean and disagrees with it when `b` is negative. */
  function FloorDiv(a: int, b: int): (q: int)
    requires b != 0
    ensures b > 0 ==> b * q <= a < b * q + b
    ensures b < 0 ==> b * q + b < a <= b * q
  {
    if b > 0 || a % b == 0 then a / b else a / b - 1
  }

  /** When `b` divides `a`, floor division is exact. */
  lemma FloorDivExact(a: int, b: int)
    requires b != 0 && a % b == 0
    ensures b * FloorDiv(a, b) == a
  {
  }

  /** The decimal digit character for `d`. */
  function DigitChar(d: nat): (c: char)
    requires d < 10
    ensures '0' <= c <= '9'
  {
    "0123456789"[d]
  }

  /** The value of a decimal digit character. */
  function DigitValue(c: char): (d: nat)
    requires '0' <= c <= '9'
    ensures d < 10 && DigitChar(d) == c
  {
    c as int - '0' as int
  }

  /** The number a run of decimal digits denotes, most significant first. */
  function DecimalValue(s: string): (n: nat)
    requires forall i :: 0 <= i < |s| ==> '0' <= s[i] <= '9'
  {
    if s == [] then 0 else DecimalValue(s[..|s| - 1]) * 10 + DigitValue(s[|s| - 1])
  }

  /** `str(n)` for a non-negative Python integer: its decimal digits, most
      significant first, denoting `n`, with no leading zero. */
  function DecimalString(n: nat): (s: string)
    ensures 1 <= |s|
    ensures forall i :: 0 <= i < |s| ==> '0' <= s[i] <= '9'
    ensures DecimalValue(s) == n
    ensures |s| > 1 ==> s[0] != '0'
    ensures |s| == 1 <==> n < 10
  {
    if n < 10 then
      [DigitChar(n)]
    else
      var prefix := DecimalString(n / 10);
      var s := prefix + [DigitChar(n % 10)];
      assert s[..|s| - 1] == prefix;
      s
  }

  /** A one-character decimal rendering names exactly one digit. */
  lemma DecimalStringOfDigit(n: nat, d: nat)
    requires d < 10
    ensures DecimalString(n) == [DigitChar(d)] <==> n == d
  {
  }

  /** The number of elements of an array of the given shape: Python's
      `numpy.prod(shape)`, with the empty product 1. */
  function Product(shape: seq<int>): (n: int)
  {
    if shape == [] then 1 else shape[0] * Product(shape[1..])
  }

  /** The element count of a 2-, 3- or 4-dimensional shape, multiplied out
      from the last axis inwards. */
  lemma ProductOfShape(a: int, b: int, c: int, d: int)
    ensures Product([a, b]) == a * b
    ensures Product([a, b, c]) == a * (b * c)
    ensures Product([a, b, c, d]) == a * (b * (c * d))
  {
    assert Product([d]) == d by { assert [d][1..] == []; }
    assert Product([c]) == c by { assert [c][1..] == []; }
    assert Product([b]) == b by { assert [b][1..] == []; }
    assert Product([c, d]) == c * d by { assert [c, d][1..] == [d]; }
    assert Product([b, c]) == b * c by { assert [b, c][1..] == [c]; }
    assert Product([b, c, d]) == b * (c * d) by { assert [b, c, d][1..] == [c, d]; }
    assert [a, b][1..] == [b];
    assert [a, b, c][1..] == [b, c];
    assert [a, b, c, d][1..] == [b, c, d];
  }
}
