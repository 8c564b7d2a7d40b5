/** Stock result type. */
module Options {
  datatype Option<+T> = None | Some(value: T)
}

/** Integer arithmetic the ledgers lean on: products and floored quotients of naturals. */
module Numbers {

  /** The floored share of an amount that `part` makes of `whole`. */
  function Share(amount: nat, part: nat, whole: nat): nat
    requires whole > 0
  {
    amount * part / whole
  }

  /** A floored quotient. */
  function Over(n: nat, d: nat): nat
    requires d > 0
  {
    n / d
  }

  /** A share in basis points. */
  function Bps(amount: nat, rate: nat): nat { amount * rate / 10000 }

  lemma MulMono(a: nat, b: nat, c: nat, d: nat)
    requires a <= b && c <= d
    ensures a * c <= b * d
  {
    assert a * c <= b * c;
    assert b * c <= b * d;
  }

  /** Cancelling a common positive factor from a strict or weak inequality. */
  lemma MulCancel(a: int, b: int, c: int)
    requires c > 0
    ensures a * c <= b * c <==> a <= b
  {
    if a > b { assert (a - b) * c > 0; } else { assert (b - a) * c >= 0; }
  }

  /** `n / d` is the only integer q with q*d <= n < (q+1)*d. */
  lemma DivBounds(n: nat, d: nat)
    requires d > 0
    ensures 0 <= n / d && n / d * d <= n < (n / d + 1) * d
  {
  }

  lemma DivUnique(n: int, d: int, q: int)
    requires d > 0 && q * d <= n < (q + 1) * d
    ensures n / d == q
  {
    var r := n / d;
    assert r * d <= n < (r + 1) * d;
    MulCancel(r + 1, q, d);
    MulCancel(q + 1, r, d);
  }

  /** A quotient is at least q exactly when the numerator is at least q*d. */
  lemma DivAtLeast(n: nat, d: nat, q: int)
    requires d > 0
    ensures q <= n / d <==> q * d <= n
  {
    DivBounds(n, d);
    if q <= n / d { MulCancel(q, n / d, d); } else { MulCancel(n / d + 1, q, d); }
  }

  lemma DivMono(m: nat, n: nat, d: nat)
    requires d > 0 && m <= n
    ensures m / d <= n / d
  {
    DivBounds(m, d);
    DivAtLeast(n, d, m / d);
  }

  /** a/b <= c/d as fractions implies the floors of s times them are ordered. */
  lemma FractionMono(s: nat, a: nat, b: nat, c: nat, d: nat)
    requires b > 0 && d > 0 && a * d <= c * b
    ensures s * a / b <= s * c / d
  {
    var q := s * a / b;
    DivBounds(s * a, b);
    ScaledUp(q, s, a, b, c, d);
    DivAtLeast(s * c, d, q);
  }

  lemma ScaledUp(q: nat, s: nat, a: nat, b: nat, c: nat, d: nat)
    requires b > 0 && a * d <= c * b && q * b <= s * a
    ensures q * d <= s * c
  {
    MulMono(q * b, s * a, d, d);
    MulMono(s, s, a * d, c * b);
    assert s * a * d == s * (a * d) && s * (c * b) == s * c * b && q * b * d == q * d * b;
    MulCancel(q * d, s * c, b);
  }

  /** a/s <= b/t and b/t <= c/r, as fractions, give a/s <= c/r. */
  lemma FractionTransitive(a: nat, s: nat, b: nat, t: nat, c: nat, r: nat)
    requires t > 0 && a * t <= b * s && b * r <= c * t
    ensures a * r <= c * s
  {
    MulMono(a * t, b * s, r, r);
    MulMono(b * r, c * t, s, s);
    assert a * t * r == a * r * t;
    assert b * s * r == b * r * s;
    assert c * t * s == c * s * t;
    MulCancel(a * r, c * s, t);
  }

  /** A rate of at most `den` out of `den` never yields more than the amount. */
  lemma ShareAtMost(amount: nat, rate: nat, den: nat)
    requires den > 0 && rate <= den
    ensures amount * rate / den <= amount
  {
    MulMono(amount, amount, rate, den);
    DivMono(amount * rate, amount * den, den);
    DivUnique(amount * den, den, amount);
  }
}

/** Totals over finite maps, with the laws that let a ledger update be tracked. */
module MapSums {

  /** The sum of f over the entries of m, in some order. */
  ghost function Sum<K, V>(m: map<K, V>, f: (K, V) -> int): int
    decreases |m|
  {
    if m == map[] then 0
    else
      var k :| k in m;
      f(k, m[k]) + Sum(m - {k}, f)
  }

  /** The entry of k, or 0 where the map has none: a Solidity mapping reads as zero there. */
  ghost function At<K, V>(m: map<K, V>, f: (K, V) -> int, k: K): int {
    if k in m then f(k, m[k]) else 0
  }

  /** Any key can be split off first: the order of the sum does not matter. */
  lemma {:induction false} SumSplit<K, V>(m: map<K, V>, f: (K, V) -> int, k: K)
    requires k in m
    ensures Sum(m, f) == f(k, m[k]) + Sum(m - {k}, f)
    decreases |m|
  {
    var c :| c in m && Sum(m, f) == f(c, m[c]) + Sum(m - {c}, f);
    if c != k {
      SumSplit(m - {c}, f, k);
      SumSplit(m - {k}, f, c);
      assert m - {c} - {k} == m - {k} - {c};
    }
  }

  lemma SumUpdate<K, V>(m: map<K, V>, f: (K, V) -> int, k: K, v: V)
    ensures Sum(m[k := v], f) == Sum(m, f) - At(m, f, k) + f(k, v)
  {
    SumSplit(m[k := v], f, k);
    if k in m {
      SumSplit(m, f, k);
      assert m[k := v] - {k} == m - {k};
    } else {
      assert m[k := v] - {k} == m;
    }
  }

  /** One entry of a sum of non-negative entries is at most the sum. */
  lemma {:induction false} SumBounds<K, V>(m: map<K, V>, f: (K, V) -> int, k: K)
    requires forall j :: j in m ==> f(j, m[j]) >= 0
    ensures 0 <= At(m, f, k) <= Sum(m, f)
    decreases |m|
  {
    if m != map[] {
      var c := if k in m then k else var c :| c in m; c;
      SumSplit(m, f, c);
      SumBounds(m - {c}, f, c);
    }
  }
}
