/** Facts about integer multiplication and row-major grid indexing, used by
    the mesh generators. */
module IntArith {

  lemma MulNonneg(a: int, b: int)
    requires 0 <= a && 0 <= b
    ensures 0 <= a * b
  {
  }

  /** Multiplication distributes over addition. */
  lemma MulAdd(a: int, b: int, c: int)
    ensures a * b + a * c == a * (b + c)
  {
  }

  /** Multiplying by a non-negative factor preserves order. */
  lemma MulMono(a: int, b: int, c: int)
    requires a <= b && 0 <= c
    ensures a * c <= b * c
  {
    MulNonneg(b - a, c);
    assert (b - a) * c == b * c - a * c;
  }

  /** Row-major cells of a width-n grid are distinct. */
  lemma CellInjective(n: int, x: int, z: int, x2: int, z2: int)
    requires 0 <= x < n && 0 <= x2 < n && 0 <= z && 0 <= z2
    requires z * n + x == z2 * n + x2
    ensures z == z2 && x == x2
  {
    if z < z2 {
      MulMono(z + 1, z2, n);
    } else if z2 < z {
      MulMono(z2 + 1, z, n);
    }
  }

  /** Column and row of a row-major cell index. */
  lemma CellDivMod(n: int, x: int, z: int)
    requires 0 <= x < n && 0 <= z
    ensures (z * n + x) / n == z && (z * n + x) % n == x
  {
    var k := z * n + x;
    MulNonneg(z, n);
    var q, r := k / n, k % n;
    assert k == q * n + r && 0 <= r < n;
    if q < 0 {
      MulMono(q, -1, n);
    }
    CellInjective(n, x, z, r, q);
  }

  /** A cell of an h-row, n-column grid lies inside it. */
  lemma CellBelow(n: int, h: int, x: int, z: int)
    requires 0 <= x < n && 0 <= z < h
    ensures 0 <= z * n + x < h * n
  {
    MulNonneg(z, n);
    MulMono(z + 1, h, n);
  }
}
