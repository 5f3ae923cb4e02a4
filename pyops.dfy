/**
 * Python and numpy semantics that the dataset and loss code rely on: the
 * error-carrying result types, `int()` on a float, `round()` on a float,
 * `np.clip` on an integer, and the normalisation of a slice bound.
 */
module PyOps {

  datatype Option<+T> = None | Some(value: T)

  datatype Result<+T, +E> = Ok(value: T) | Err(error: E)

  function Min(a: int, b: int): int { if a <= b then a else b }

  /** `int(x)` on a float: truncation toward zero. */
  function TruncToInt(x: real): (n: int)
    ensures 0.0 <= x ==> n as real <= x < n as real + 1.0
    ensures x < 0.0 ==> n as real - 1.0 < x <= n as real
  {
    if x >= 0.0 then x.Floor else -((-x).Floor)
  }

  /** Python 3 `round(x)` on a float: the nearest integer, ties going to the even one. */
  function RoundHalfEven(x: real): (n: int)
    ensures -0.5 <= x - n as real <= 0.5
    ensures (x - n as real == 0.5 || x - n as real == -0.5) ==> n % 2 == 0
  {
    var f := x.Floor;
    var d := x - f as real;
    if d < 0.5 then f
    else if d > 0.5 then f + 1
    else if f % 2 == 0 then f
    else f + 1
  }

  /** `np.clip(v, lo, hi)` on one integer. */
  function Clip(v: int, lo: int, hi: int): (c: int)
    requires lo <= hi
    ensures lo <= c <= hi
    ensures lo <= v <= hi ==> c == v
    ensures v < lo ==> c == lo
    ensures hi < v ==> c == hi
  {
    if v < lo then lo else if hi < v then hi else v
  }

  /**
   * Where Python places one bound of the slice `a[start:stop]` on a sequence
   * of length `len`: a negative bound counts back from the end, and the
   * result is clamped into [0, len].
   */
  function SliceBound(b: int, len: nat): (p: nat)
    ensures p <= len
  {
    if b < 0 then (if b + len < 0 then 0 else b + len)
    else if b > len then len
    else b
  }

  /** Integer division facts for a flattened row-major index. */
  lemma DivModOfFlat(a: nat, b: nat, d: nat)
    requires b < d
    ensures (a * d + b) / d == a && (a * d + b) % d == b
  {
    var q, m := (a * d + b) / d, (a * d + b) % d;
    assert a * d + b == q * d + m;
    assert 0 <= m < d;
    if q < a {
      MulMonotone(q + 1, a, d);
    } else if q > a {
      MulMonotone(a + 1, q, d);
    }
  }

  /** A position below `n * d` splits into a row below `n` and a column below `d`. */
  lemma DivBelow(i: nat, n: nat, d: nat)
    requires i < n * d
    ensures d > 0 && i / d < n && i % d < d
  {
    if d > 0 && i / d >= n {
      MulMonotone(n, i / d, d);
    }
  }

  lemma MulMonotone(x: int, y: int, d: nat)
    requires x <= y
    ensures x * d <= y * d
  {
  }
}
