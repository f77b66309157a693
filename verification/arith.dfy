/** Small facts about multiplication, division and remainder on naturals, used by the
    slice-geometry proofs. */
module Arith {

  /** Division with remainder is unique: a quotient and remainder in range are the ones
      that `/` and `%` compute. */
  lemma DivModUnique(n: int, d: int, q: int, r: int)
    requires d > 0 && 0 <= r < d && n == q * d + r
    ensures n / d == q && n % d == r
  {
    var q', r' := n / d, n % d;
    assert n == q' * d + r';
    if q' < q {
      MulLeft(q' + 1, q, d);
    } else if q < q' {
      MulLeft(q + 1, q', d);
    }
  }

  /** Multiplying by a natural keeps the order. */
  lemma MulLeft(a: int, b: int, c: int)
    requires a <= b && c >= 0
    ensures a * c <= b * c
  {
    assert b * c - a * c == (b - a) * c;
  }

  /** A natural smaller than `b * c` has a quotient by `b` smaller than `c`. */
  lemma DivBelow(a: nat, b: nat, c: nat)
    requires b > 0 && a < b * c
    ensures a / b < c
  {
    if a / b >= c {
      MulLeft(c, a / b, b);
    }
  }

  /** A multiple of `d` divided by `d` gives back the factor. */
  lemma MulDiv(k: nat, d: nat)
    requires d > 0
    ensures (k * d) / d == k && (k * d) % d == 0
  {
    DivModUnique(k * d, d, k, 0);
  }

  /** Reading a number back in mixed radix (nx, ny): i + nx * (j + ny * k), with i < nx and
      j < ny, has digits i, j and k. */
  lemma MixedRadix(idx: int, i: nat, j: nat, k: nat, nx: nat, ny: nat)
    requires 0 < nx && 0 < ny && i < nx && j < ny && idx == i + nx * (j + ny * k)
    ensures idx % nx == i && idx / nx == j + ny * k
    ensures (idx / nx) % ny == j && (idx / nx) / ny == k
  {
    DivModUnique(idx, nx, j + ny * k, i);
    DivModUnique(j + ny * k, ny, k, j);
  }

  /** A number i + nx * (j + ny * k) with digits i < nx and j < ny is below nx * ny * nz
      exactly when its top digit k is below nz. */
  lemma MixedRadixBound(i: nat, j: nat, k: nat, nx: nat, ny: nat, nz: nat)
    requires i < nx && j < ny
    ensures i + nx * (j + ny * k) < nx * ny * nz <==> k < nz
  {
    var idx := i + nx * (j + ny * k);
    if k < nz {
      MulLeft(j + 1, ny, nx);
      MulLeft(k + 1, nz, nx * ny);
      assert nx * (j + 1 + ny * k) == nx * (j + 1) + nx * ny * k;
      assert idx < nx * (j + 1 + ny * k);
    } else {
      MulLeft(nz, k, nx * ny);
      assert nx * (j + ny * k) == nx * j + nx * ny * k;
    }
  }

  /** The mixed-radix digits of a number are unique. */
  lemma DigitsUnique(i: nat, j: nat, k: nat, i': nat, j': nat, k': nat, nx: nat, ny: nat)
    requires 0 < nx && 0 < ny && i < nx && j < ny && i' < nx && j' < ny
    requires i + nx * (j + ny * k) == i' + nx * (j' + ny * k')
    ensures i == i' && j == j' && k == k'
  {
    MixedRadix(i + nx * (j + ny * k), i, j, k, nx, ny);
    MixedRadix(i' + nx * (j' + ny * k'), i', j', k', nx, ny);
  }
}
