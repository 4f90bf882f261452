/** Floored division by a positive number. */
module FloorDivision {

  lemma DivMod(a: int, n: int)
    requires n >= 1
    ensures a == n * (a / n) + a % n && 0 <= a % n < n
  {
  }

  lemma DivModUnique(a: int, n: int, q: int, r: int)
    requires n >= 1 && a == n * q + r && 0 <= r < n
    ensures q == a / n && r == a % n
  {
    DivMod(a, n);
    Nearest(n, q - a / n, a % n - r);
  }

  lemma Nearest(n: int, k: int, gap: int)
    requires n >= 1 && n * k == gap && -n < gap < n
    ensures k == 0
  {
    if k >= 1 {
      MulAtLeast(n, k);
    } else if k <= -1 {
      MulAtLeast(n, -k);
    }
  }

  lemma MulAtLeast(n: int, k: int)
    requires n >= 1 && k >= 1
    ensures n * k >= n
  {
  }

  lemma DivMonotone(a: int, b: int, n: int)
    requires n >= 1 && a <= b
    ensures a / n <= b / n
  {
    DivMod(a, n);
    DivMod(b, n);
    if a / n > b / n {
      MulAtLeast(n, a / n - b / n);
    }
  }
}
