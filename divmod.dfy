/** Facts about Euclidean division and products used by the index arithmetic. */
module DivMod {

  /** Quotient and remainder are unique: `i == d*q + r` with `0 <= r < d` fixes both. */
  lemma DivModUnique(i: int, d: int, q: int, r: int)
    requires 0 < d && 0 <= r < d && i == d * q + r
    ensures i / d == q && i % d == r
  {
    var q0, r0 := i / d, i % d;
    assert d * (q - q0) == r0 - r;
    if q0 < q {
      MulAtLeast(d, q - q0);
    } else if q < q0 {
      MulAtLeast(d, q0 - q);
    }
  }

  lemma MulAtLeast(d: int, k: int)
    requires 0 < d && 1 <= k
    ensures d * k >= d
  {
  }

  /** Multiplying by a non-negative factor keeps order. */
  lemma MulMono(a: int, b: int, k: int)
    requires a <= b && 0 <= k
    ensures a * k <= b * k
  {
    assert b * k - a * k == (b - a) * k;
  }

  /** `q < n` for a row index `q` and a row count `n` puts the whole row `q` inside `n` rows of width `w`. */
  lemma RowInside(w: int, q: int, n: int, j: int)
    requires 0 <= j < w && 0 <= q < n
    ensures 0 <= w * q + j < w * n
  {
    MulMono(q + 1, n, w);
    assert w * (q + 1) == w * q + w;
    MulMono(0, q, w);
  }

  /** With `alloc == ppf * sp`, float position `(c * alloc + slot * sp) * 2` is row `c * ppf + slot` of width `2 * sp`. */
  lemma Regroup(c: int, ppf: int, sp: int, alloc: int, slot: int)
    requires alloc == ppf * sp
    ensures (c * alloc + slot * sp) * 2 == (2 * sp) * (c * ppf + slot)
  {
  }

  /** With `alloc == ppf * sp`, `2 * (n * alloc)` floats are `n * ppf` rows of width `2 * sp`. */
  lemma RegroupLength(n: int, ppf: int, sp: int, alloc: int)
    requires alloc == ppf * sp
    ensures 2 * (n * alloc) == (2 * sp) * (n * ppf)
  {
  }

  /** Row `q` of `n` rows of width `w` ends inside the table. */
  lemma RowEnd(w: int, q: int, n: int)
    requires 0 <= w && 0 <= q < n
    ensures 0 <= w * q && w * q + w <= w * n
  {
    MulMono(q + 1, n, w);
    MulMono(0, q, w);
  }

  /** A position inside `k` rows of width `w` lies in a row below `k`. */
  lemma RowOf(i: int, w: int, k: int)
    requires 0 < w && 0 <= i < w * k
    ensures 0 <= i / w < k
  {
    var q, r := i / w, i % w;
    assert i == w * q + r;
    if q >= k {
      MulMono(k, q, w);
    }
    if q < 0 {
      MulMono(q, -1, w);
    }
  }

  /** Splitting a position of a `w`-wide table of `n * m` rows into (row / m, row % m, column). */
  lemma Split3(i: int, w: int, m: int, n: int)
    requires 0 < w && 0 < m && 0 <= i < w * (n * m)
    ensures 0 <= (i / w) / m < n && 0 <= (i / w) % m < m && 0 <= i % w < w
    ensures w * ((i / w) / m * m + (i / w) % m) + i % w == i
  {
    var q := i / w;
    RowOf(i, w, n * m);
    assert m * n == n * m;
    RowOf(q, m, n);
    assert q / m * m + q % m == q;
    assert w * q + i % w == i;
  }

  /** The remainder advances with its argument until it wraps at `d`. */
  lemma ModSucc(x: int, d: int)
    requires 0 < d
    ensures (x + 1) % d == if x % d == d - 1 then 0 else x % d + 1
    ensures (x + 1) / d == if x % d == d - 1 then x / d + 1 else x / d
  {
    var q, r := x / d, x % d;
    if r == d - 1 {
      DivModUnique(x + 1, d, q + 1, 0);
    } else {
      DivModUnique(x + 1, d, q, r + 1);
    }
  }

  /** After the first cycle of length `p`, `n` splits into whole cycles of `p - s` plus a rest of `s + (n - p) % (p - s)`. */
  lemma CycleSum(n: int, p: int, s: int)
    requires 0 <= s < p <= n
    ensures (1 + (n - p) / (p - s)) * (p - s) + (s + (n - p) % (p - s)) == n
  {
    var d := p - s;
    var q, r := (n - p) / d, (n - p) % d;
    assert n - p == d * q + r;
    assert (1 + q) * d == d + d * q;
  }

  /**
   * `n * x` as repeated addition. Index arithmetic is written with `Times`
   * so that the solver sees it as an ordinary function and does not attempt
   * nonlinear reasoning on every formula that mentions an offset;
   * `TimesIsProduct` converts where a product is needed.
   */
  function Times(n: nat, x: nat): nat
    decreases n
  {
    if n == 0 then 0 else Times(n - 1, x) + x
  }

  lemma {:induction false} TimesIsProduct(n: nat, x: nat)
    ensures Times(n, x) == n * x
    decreases n
  {
    if n > 0 {
      TimesIsProduct(n - 1, x);
    }
  }

  /** A positive product has positive factors. */
  lemma TimesPositive(n: nat, x: nat)
    requires Times(n, x) > 0
    ensures n > 0 && x > 0
  {
    TimesIsProduct(n, x);
  }

  /** One more row of width `w`. */
  lemma TimesSucc(w: nat, q: nat)
    ensures Times(w, q + 1) == Times(w, q) + w
  {
    TimesIsProduct(w, q + 1);
    TimesIsProduct(w, q);
  }

  /** A position before row `m` of a `w`-wide table lies in a row before `m`. */
  lemma TimesBelow(w: nat, q: nat, m: nat, r: nat)
    requires r + Times(w, q) < Times(w, m)
    ensures q < m
  {
    TimesIsProduct(w, q);
    TimesIsProduct(w, m);
    if q >= m {
      MulMono(m, q, w);
    }
  }

  /**
   * Row and column of position `i` in a table of width `w > 0`, by
   * repeated subtraction of whole rows: the column is below `w` and they
   * put `i` back together.
   */
  function DivRow(w: nat, i: nat): (r: (nat, nat))
    requires w > 0
    ensures r.1 < w && i == r.1 + Times(w, r.0)
    decreases i
  {
    if i < w then
      TimesIsProduct(w, 0);
      (0, i)
    else
      var t := DivRow(w, i - w);
      TimesSucc(w, t.0);
      (t.0 + 1, t.1)
  }

  /** `Times` distributes over a sum in its second argument. */
  lemma TimesAdd(n: nat, a: nat, b: nat)
    ensures Times(n, a + b) == Times(n, a) + Times(n, b)
  {
    TimesIsProduct(n, a + b);
    TimesIsProduct(n, a);
    TimesIsProduct(n, b);
  }

  /** `Times` is associative. */
  lemma TimesAssoc(n: nat, a: nat, b: nat)
    ensures Times(n, Times(a, b)) == Times(Times(n, a), b)
  {
    TimesIsProduct(a, b);
    TimesIsProduct(n, a * b);
    TimesIsProduct(n, a);
    TimesIsProduct(n * a, b);
    MulAssoc(n, a, b);
  }

  lemma MulAssoc(n: int, a: int, b: int)
    ensures n * (a * b) == (n * a) * b
  {
  }

  /** `Times` grows with both arguments. */
  lemma TimesMono(a1: nat, a2: nat, b1: nat, b2: nat)
    requires a1 <= a2 && b1 <= b2
    ensures Times(a1, b1) <= Times(a2, b2)
  {
    TimesIsProduct(a1, b1);
    TimesIsProduct(a2, b2);
    MulMono(a1, a2, b1);
    MulMono(b1, b2, a2);
  }

  /** Row `k1` of width `w` ends no later than a later row `k2` starts. */
  lemma TimesRowBefore(w: nat, k1: nat, k2: nat)
    requires k1 < k2
    ensures Times(w, k1) + w <= Times(w, k2)
  {
    TimesIsProduct(w, k1);
    TimesIsProduct(w, k2);
    MulMono(k1 + 1, k2, w);
  }

  /** Column `j` of row `q` of a `w`-wide table lies inside a table of `rows > q` rows. */
  lemma TimesRowInside(w: nat, q: nat, rows: nat, j: nat)
    requires j < w && q < rows
    ensures j + Times(w, q) < Times(w, rows)
  {
    TimesRowBefore(w, q, rows);
  }
}
