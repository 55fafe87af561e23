/** Products and quotients of naturals. */
module Arithmetic {

  lemma TimesMonotone(a: nat, b: nat, k: nat)
    requires a <= b
    ensures a * k <= b * k
  {
  }

  lemma TimesCancel(a: nat, b: nat, k: nat)
    requires a * k < b * k
    ensures a < b
  {
    if b <= a {
      TimesMonotone(b, a, k);
    }
  }

  lemma TimesNext(a: nat, k: nat)
    ensures (a + 1) * k == a * k + k
  {
  }

  /** A product to be reasoned about by the lemmas below alone. */
  function Times(n: nat, k: nat): nat {
    n * k
  }

  lemma TimesOneMore(n: nat, k: nat)
    ensures Times(n + 1, k) == Times(n, k) + k
  {
    TimesNext(n, k);
  }

  lemma TimesSum(m: nat, n: nat, k: nat)
    ensures Times(m + n, k) == Times(m, k) + Times(n, k)
  {
    Distributes(m, n, k);
  }

  lemma DivisionBounds(n: nat, k: nat)
    requires 0 < k
    ensures n / k * k <= n < (n / k + 1) * k
  {
    assert n == k * (n / k) + n % k;
    TimesNext(n / k, k);
  }

  lemma QuotientAtLeast(n: nat, k: nat, q: nat)
    requires 0 < k && q * k <= n
    ensures q <= n / k
  {
    DivisionBounds(n, k);
    TimesCancel(q, n / k + 1, k);
  }

  lemma QuotientIs(n: nat, k: nat, q: nat)
    requires 0 < k && q * k <= n < q * k + k
    ensures n / k == q
  {
    QuotientAtLeast(n, k, q);
    DivisionBounds(n, k);
    TimesNext(q, k);
    TimesCancel(n / k, q + 1, k);
  }

  /** n / k, rounded up. */
  function Ceiling(n: nat, k: nat): nat
    requires 0 < n && 0 < k
  {
    (n - 1) / k + 1
  }

  lemma CeilingIsNext(n: nat, k: nat)
    requires 0 < n && 0 < k
    ensures (Ceiling(n, k) - 1) * k <= n - 1 < Ceiling(n, k) * k
  {
    DivisionBounds(n - 1, k);
  }

  lemma CeilingBounds(n: nat, k: nat)
    requires 0 < n && 0 < k
    ensures n <= Ceiling(n, k) * k < n + k
  {
    CeilingIsNext(n, k);
    hide Ceiling;
    var c := Ceiling(n, k);
    assert (c - 1) * k == c * k - k;
  }

  lemma Distributes(a: int, d: int, k: nat)
    ensures (a + d) * k == a * k + d * k
  {
  }

  lemma QuotientsDiffer(a: int, b: int, k: nat, r: nat, t: nat)
    requires a < b && r < k
    ensures a * k + r < b * k + t
  {
    TimesMonotone(1, b - a, k);
    Distributes(a, b - a, k);
  }

  lemma ModuloIs(x: int, q: int, k: nat, r: nat)
    requires r < k && x == q * k + r
    ensures x % k == r
  {
    var a, b := x / k, x % k;
    assert x == a * k + b;
    if a < q {
      QuotientsDiffer(a, q, k, b, r);
    } else if q < a {
      QuotientsDiffer(q, a, k, r, b);
    }
  }

  /** How far w is ahead of n on a circle of k, and of n + 1. */
  lemma Ahead(n: nat, w: nat, k: nat)
    requires w < k
    ensures (w - n) % k == 0 <==> w == n % k
    ensures 1 + (w - (n + 1)) % k == if w == n % k then k else (w - n) % k
  {
    var r, q := n % k, n / k;
    assert n == q * k + r;
    Distributes(-q, -1, k);
    ModuloIs(w - n, if w >= r then -q else -q - 1, k, if w >= r then w - r else w - r + k);
    ModuloIs(w - (n + 1), if w > r then -q else -q - 1, k, if w > r then w - r - 1 else w - r - 1 + k);
  }
}
