/** Small vocabulary shared by every other module: optional values, the numeric
    built-ins of the source language, and upper-casing of symbols. */
module Common {

  datatype Option<+T> = None | Some(value: T)

  function Max(a: real, b: real): real { if a < b then b else a }

  function Min(a: real, b: real): real { if b < a then b else a }

  function Abs(x: real): real { if x < 0.0 then -x else x }

  /** `int(x)` on a float: truncation toward zero. */
  function Trunc(x: real): int {
    if 0.0 <= x then x.Floor else -((-x).Floor)
  }

  /** The integer nearest to `x`; a tie goes to the even neighbour. */
  function Nearest(x: real): int {
    var f := x.Floor;
    var d := x - f as real;
    if d < 0.5 then f
    else if 0.5 < d then f + 1
    else if f % 2 == 0 then f else f + 1
  }

  /** `round(x, 2)` and `round(x, 3)`, with `scale` 100 and 1000. */
  function Round(x: real, scale: real): real
    requires 0.0 < scale
  {
    Nearest(x * scale) as real / scale
  }

  lemma NearestIsClose(x: real)
    ensures Abs(Nearest(x) as real - x) <= 0.5
  {
  }

  /** Rounding moves a value by at most half a unit in the last place kept. */
  lemma RoundIsClose(x: real, scale: real)
    requires 0.0 < scale
    ensures Abs(Round(x, scale) - x) <= 0.5 / scale
  {
    var gap := Nearest(x * scale) as real - x * scale;
    NearestIsClose(x * scale);
    assert Round(x, scale) - x == gap / scale;
    ScaleDown(gap, 0.5, scale);
    ScaleDown(-gap, 0.5, scale);
  }

  lemma ScaleDown(a: real, b: real, s: real)
    requires 0.0 < s && a <= b
    ensures a / s <= b / s
  {
  }

  /** Multiplying by a non-negative factor keeps an inequality. */
  lemma ScaleUp(a: real, b: real, s: real)
    requires 0.0 <= s && a <= b
    ensures a * s <= b * s
  {
  }

  lemma Associate(a: real, b: real, c: real)
    ensures a * (b * c) == (a * b) * c
  {
  }

  lemma Distribute(a: real, b: real, c: real)
    ensures a * (b - c) == a * b - a * c
  {
  }

  /** A quantity below a quotient, multiplied out. */
  lemma BelowQuotient(q: real, x: real, d: real)
    requires 0.0 < d && q <= x / d
    ensures q * d <= x
  {
    ScaleUp(q, x / d, d);
    assert x / d * d == x;
  }

  function UpperChar(c: char): char {
    if 'a' <= c <= 'z' then (c as int - 32) as char else c
  }

  /** `str.upper()` on an exchange symbol (ASCII letters, digits and punctuation). */
  function Upper(s: string): (r: string)
    ensures |r| == |s|
    ensures forall i :: 0 <= i < |s| ==> r[i] == UpperChar(s[i])
  {
    seq(|s|, i requires 0 <= i < |s| => UpperChar(s[i]))
  }

  predicate IsUpper(s: string) { Upper(s) == s }

}
