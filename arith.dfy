/**
 * Integer helpers shared by the model: Python's floor division for a
 * positive divisor, the ceiling division the source writes as
 * `(n + d - 1) // d`, and the facts about products that the page and
 * chunk arithmetic needs.
 */
module Arith {

  function Min(a: int, b: int): (m: int)
    ensures m <= a && m <= b
    ensures m == a || m == b
  {
    if a <= b then a else b
  }

  /** Python's `a // b` for b > 0 (Dafny's `/` also rounds down when the divisor is positive). */
  function FloorDiv(a: int, b: int): (q: int)
    requires b > 0
    ensures q * b <= a < q * b + b
  {
    a / b
  }

  /** The number of d-sized pieces that cover n items, `(n + d - 1) // d`. */
  function CeilDiv(n: int, d: int): (c: int)
    requires n >= 0 && d > 0
    ensures c >= 0
    ensures (c - 1) * d < n <= c * d
  {
    (n + d - 1) / d
  }

  lemma MulMono(a: int, b: int, d: int)
    requires a <= b && d >= 0
    ensures a * d <= b * d
  {
    assert b * d - a * d == (b - a) * d;
  }

  lemma MulSucc(a: int, d: int)
    ensures (a + 1) * d == a * d + d
  {
  }

  /** For a positive factor, comparing products compares the other factors. */
  lemma MulLessIff(a: int, b: int, d: int)
    requires d > 0
    ensures a < b <==> a * d < b * d
    ensures a == b <==> a * d == b * d
  {
    if a < b {
      MulMono(a + 1, b, d);
    } else {
      MulMono(b, a, d);
      if b < a {
        MulMono(b + 1, a, d);
      }
    }
  }

  /** Division and remainder are determined by any decomposition `x == k*y + r` with `0 <= r < y`. */
  lemma DivModUnique(x: int, y: int, k: int, r: int)
    requires y > 0 && 0 <= r < y && x == k * y + r
    ensures x / y == k && x % y == r
  {
    var q, m := x / y, x % y;
    assert q * y + m == k * y + r;
    if q < k {
      MulMono(q + 1, k, y);
      assert false;
    } else if k < q {
      MulMono(k + 1, q, y);
      assert false;
    }
  }

  /** j pieces of size d start before n exactly when j is below the piece count. */
  lemma BelowCeil(j: int, n: int, d: int)
    requires j >= 0 && n >= 0 && d > 0
    ensures j * d < n <==> j < CeilDiv(n, d)
  {
    var c := CeilDiv(n, d);
    if j < c {
      MulMono(j, c - 1, d);
    } else {
      MulMono(c, j, d);
    }
  }

  /** A count c with `(c-1)*d < n <= c*d` is the ceiling division. */
  lemma CeilDivUnique(n: int, d: int, c: int)
    requires n >= 0 && d > 0 && c >= 0
    requires (c - 1) * d < n <= c * d
    ensures c == CeilDiv(n, d)
  {
    BelowCeil(c, n, d);
    if c > 0 {
      BelowCeil(c - 1, n, d);
    }
  }

  /** A multiple of d is a page start: its remainder is zero and its quotient is the page number. */
  lemma MultipleMod(j: int, d: int)
    requires d > 0
    ensures (j * d) % d == 0 && (j * d) / d == j
  {
    DivModUnique(j * d, d, j, 0);
  }
}
