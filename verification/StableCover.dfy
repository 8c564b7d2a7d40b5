/** Exactly which pools stay covered, over exchanges and withdrawals whose numbers are the ones the solvers return. */
module StableCover {
  import opened Options
  import opened Numbers
  import opened StableCurve
  import opened StableLedger

  // ---------------------------------------------------------------- the solvers' numbers

  /** `removeLiquidityImbalance`: ideal balances scale the old ones by D1/D0, and the burn follows D2. */
  predicate ExactNumbers(l: Ledger, op: Op, amp: nat)
    requires WellFormed(l) && op.RemoveLiquidityImbalance? && |op.amounts| == |op.ideal| == |l.slots| && AllTouched(l, op)
  {
    match (SolveD(BalancesOf(l.slots), amp), SolveD(Left(l, op.amounts), amp), SolveD(BalancesOf(TouchAll(l, op)), amp))
    case (Some(d0), Some(d1), Some(d2)) =>
      && 0 < d0 && d2 <= d0
      && (forall k :: 0 <= k < |l.slots| ==> op.ideal[k] == Share(l.slots[k].balance, d1, d0))
      && op.burned == Share(l.supply, d0 - d2, d0) + 1
    case _ => false
  }

  lemma ExactIsComputed(l: Ledger, op: Op, amp: nat)
    requires WellFormed(l) && op.RemoveLiquidityImbalance? && |op.amounts| == |op.ideal| == |l.slots| && AllTouched(l, op)
    requires ExactNumbers(l, op, amp)
    ensures ImbalanceOp(l, op.amounts, amp) == Some(op)
  {
    var d0, d1 := SolveD(BalancesOf(l.slots), amp).value, SolveD(Left(l, op.amounts), amp).value;
    assert op.ideal == Ideals(BalancesOf(l.slots), d1, d0);
    TouchIgnoresSupply(l, op, op.(burned := 0));
  }

  /** The operation carries the numbers that the solvers return for it. */
  predicate Performable(l: Ledger, op: Op, amp: nat)
    requires WellFormed(l) && Apply(l, op).Some?
  {
    match op
    case Exchange(i, j, dx, y) => Exchanged(l, i, j, dx, amp) == Apply(l, op)
                                  && Answer(BalancesOf(l.slots), i, j, l.slots[i].balance + Normalize(dx, l.decimals[i]), amp) == Some(y)
    case AddLiquidity(amounts, _, _) => DepositOp(l, amounts, amp) == Some(op)
    case RemoveLiquidityOneCoin(tokenAmount, i, _, _) => OneCoinOp(l, tokenAmount, i, amp) == Some(op)
    case RemoveLiquidityImbalance(amounts, _, _) => ImbalanceOp(l, amounts, amp) == Some(op)
    case _ => true
  }

  /** The operation, if the code can perform it on a covered pool of this configuration, leaves it covered. */
  ghost predicate KeepsCover(decimals: seq<nat>, adminFee: nat, l: Ledger, op: Op, amp: nat) {
    WellFormed(l) && l.decimals == decimals && l.adminFee == adminFee && Solvent(l) && Apply(l, op).Some? && Performable(l, op, amp)
    ==> Solvent(Apply(l, op).value)
  }

  // ---------------------------------------------------------------- balanced pools

  function Even(n: nat, b: nat): (s: seq<nat>)
    ensures |s| == n
  {
    seq(n, _ => b)
  }

  lemma {:induction false} EvenSum(n: nat, b: nat, k: nat)
    requires k <= n
    ensures SumOf(Even(n, b), k) == k * b
  {
    if k > 0 {
      EvenSum(n, b, k - 1);
      assert k * b == (k - 1) * b + b;
    }
  }

  lemma OneLess(m: nat, k: nat)
    requires k < m
    ensures Over((m - k) * m, m + 1) == m - k - 1
  {
    var q := m - k - 1;
    assert q * (m + 1) + (k + 1) == (m - k) * m by { assert q * (m + 1) == q * m + q && (q + 1) * m == q * m + m; }
    assert (q + 1) * (m + 1) == q * (m + 1) + (m + 1);
    DivUnique((m - k) * m, m + 1, q);
  }

  lemma {:induction false} EvenProduct(n: nat, b: nat, m: nat, k: nat)
    requires k <= n <= m && m == b * n
    ensures ProductOf(Even(n, b), m, k) == m - k
  {
    if k > 0 {
      EvenProduct(n, b, m, k - 1);
      OneLess(m, k - 1);
    }
  }

  lemma StopsAtOnce(xp: seq<nat>, ann: nat, s: nat, d: nat, fuel: nat)
    requires fuel > 0 && NextD(|xp|, ann, s, d, ProductOf(xp, d, |xp|)) == Some(d)
    ensures NewtonD(xp, ann, s, d, fuel) == Some(d)
  {
  }

  lemma SumIsD(xp: seq<nat>, amp: nat, s: nat, ann: nat)
    requires SumOf(xp, |xp|) == s > 0 && ann == amp * |xp|
    requires NextD(|xp|, ann, s, s, ProductOf(xp, s, |xp|)) == Some(s)
    ensures SolveD(xp, amp) == Some(s)
  {
    StopsAtOnce(xp, ann, s, s, MAX_ITERATIONS);
  }

  /** Newton's method for D stops at once on a balanced pool: D is the sum of the balances. */
  lemma EvenPoolD(n: nat, b: nat, amp: nat)
    requires n >= 2 && b >= 1 && amp >= 2
    ensures SolveD(Even(n, b), amp) == Some(n * b)
  {
    MulMono(n, n, 1, b);
    MulMono(2, amp, n, n);
    EvenSum(n, b, n);
    EvenProduct(n, b, n * b, n);
    EvenNext(n, n * b, amp * n);
    SumIsD(Even(n, b), amp, n * b, amp * n);
  }

  /** The denominator of that step, and the numerator, which is n over it, times D. */
  lemma EvenParts(n: nat, m: nat, ann: nat)
    requires m >= n && ann >= 1
    ensures (ann - 1) * m + (n + 1) * (m - n) == ann * m + n * m - n * n - n
    ensures ann * m + (m - n) * n == ann * m + n * m - n * n
  {
    assert (ann - 1) * m == ann * m - m;
    assert n * (m - n) == n * m - n * n && (n + 1) * (m - n) == n * (m - n) + (m - n);
  }

  lemma EvenDenominator(n: nat, m: nat, ann: nat)
    requires n >= 2 && m >= n && ann >= 2 * n
    ensures ann * m - n * n - n > 0
  {
    MulMono(2 * n, ann, m, m);
    MulMono(n, n, n, m);
    MulMono(2, n, n, n);
    assert 2 * n * m == 2 * (n * m);
  }

  lemma EvenNext(n: nat, m: nat, ann: nat)
    requires n >= 2 && m >= n && ann >= 2 * n
    ensures NextD(n, ann, m, m, m - n) == Some(m)
  {
    var x: int := ann * m + n * m - n * n - n;
    EvenParts(n, m, ann);
    EvenDenominator(n, m, ann);
    assert (x + n) * m == m * x + n * m && (m + 1) * x == m * x + x;
    DivUnique((x + n) * m, x, m);
  }

  // ---------------------------------------------------------------- an exchange that doubles one balance of a balanced pool

  const AMP := 100

  lemma ExactQuotient(n: nat, d: nat, q: nat)
    requires d > 0 && n == q * d
    ensures Over(n, d) == q
  {
    DivUnique(n, d, q);
  }

  /** The product is halved by the doubled balance and then stays. */
  lemma {:induction false} DoubledProduct(n: nat, h: nat, k: nat)
    requires n >= 2 && h >= 1 && 1 <= k <= n
    ensures InputProduct(Even(n, 200 * h), 0, 1, 400 * h, n * (200 * h), k) == Some(n * (100 * h))
  {
    var xp, d, half := Even(n, 200 * h), n * (200 * h), n * (100 * h);
    if k == 1 {
      assert d * d == half * (400 * h * n) by { assert d == 2 * half && 400 * h * n == 2 * d; assert half * (2 * d) == 2 * half * d; }
      assert 400 * h * n > 0 by { MulMono(400, 400 * h, 1, n); }
      ExactQuotient(d * d, 400 * h * n, half);
      assert InputProduct(xp, 0, 1, 400 * h, d, 0) == Some(d);
    } else {
      DoubledProduct(n, h, k - 1);
      if k > 2 {
        assert 200 * h * n == d && d > 0 by { MulMono(200, 200 * h, 1, n); }
        ExactQuotient(half * d, 200 * h * n, half);
      }
    }
  }

  lemma {:induction false} DoubledSum(n: nat, h: nat, k: nat)
    requires n >= 2 && 2 <= k <= n
    ensures InputSum(Even(n, 200 * h), 0, 1, 400 * h, k) == k * (200 * h)
  {
    if k == 2 {
      assert InputSum(Even(n, 200 * h), 0, 1, 400 * h, 1) == 400 * h;
    } else {
      DoubledSum(n, h, k - 1);
      assert k * (200 * h) == (k - 1) * (200 * h) + 200 * h;
    }
  }

  /** The curve of that exchange: y^2 + 2h y = 200 h^2. */
  lemma DoubledCurve(n: nat, h: nat)
    requires n >= 2 && h >= 1
    ensures CurveCoefficients(Even(n, 200 * h), 0, 1, 400 * h, AMP, n * (200 * h))
            == Some(Coefficients(n * (200 * h) + 2 * h, 200 * (h * h)))
  {
    var d, half, ann := n * (200 * h), n * (100 * h), AMP * n;
    DoubledProduct(n, h, n);
    DoubledSum(n, h, n);
    assert d == 2 * h * ann;
    ExactQuotient(d, ann, 2 * h);
    var c := 200 * (h * h);
    assert half * d == c * (ann * n) by { SquaresMatch(n, h); }
    assert ann * n > 0 by { MulMono(1, ann, 1, n); }
    ExactQuotient(half * d, ann * n, c);
  }

  lemma SquaresMatch(n: nat, h: nat)
    ensures n * (100 * h) * (n * (200 * h)) == 200 * (h * h) * (100 * n * n)
  {
    var u := n * h;
    assert n * (100 * h) == 100 * u && n * (200 * h) == 200 * u;
    assert 100 * u * (200 * u) == 20000 * (u * u);
    assert u * u == h * h * (n * n) by { assert n * h * (n * h) == n * n * (h * h); }
    assert 200 * (h * h) * (100 * n * n) == 20000 * (h * h * (n * n)) by { assert 100 * n * n == 100 * (n * n); }
  }

  lemma AboveHalf(h: nat, y: nat)
    requires h >= 1 && y >= 100 * h
    ensures y * y + 2 * h * y - 200 * (h * h) > 1
  {
    MulMono(100 * h, y, 100 * h, y);
    MulMono(2 * h, 2 * h, 100 * h, y);
    MulMono(1, h, 1, h);
    assert 100 * h * (100 * h) == 10000 * (h * h) && 2 * h * (100 * h) == 200 * (h * h);
  }

  /** Whatever solves that curve is below half a balance. */
  lemma DoubledBelowHalf(n: nat, h: nat, y: nat)
    requires n >= 2 && h >= 1 && SolvesCurve(Coefficients(n * (200 * h) + 2 * h, 200 * (h * h)), n * (200 * h), y)
    ensures y < 100 * h
  {
    if y >= 100 * h {
      AboveHalf(h, y);
      assert false;
    }
  }

  lemma DoubledFits(n: nat, h: nat)
    requires 2 <= n <= 4 && h >= 1
    ensures var d := n * (200 * h); 400 <= d && d * d + 200 * (h * h) < 4 * (1000 * h * (1000 * h))
  {
    var d := n * (200 * h);
    MulMono(2, n, 200, 200 * h);
    MulMono(n, 4, 200 * h, 200 * h);
    MulMono(d, 800 * h, d, 800 * h);
    MulMono(1, h, 1, h);
    assert 800 * h * (800 * h) == 640000 * (h * h) && 1000 * h * (1000 * h) == 1000000 * (h * h);
  }

  /** The solver answers it, below half a balance. */
  lemma DoubledAnswer(n: nat, h: nat, bits: nat)
    requires 2 <= n <= 4 && h >= 1 && 2 <= bits < MAX_ITERATIONS && 1000 * h * (1000 * h) < Pow2(bits)
    ensures var y := Answer(Even(n, 200 * h), 0, 1, 400 * h, AMP); y.Some? && y.value < 100 * h
  {
    var d := n * (200 * h);
    EvenPoolD(n, 200 * h, AMP);
    DoubledCurve(n, h);
    DoubledFits(n, h);
    SolverAnswersIff(Even(n, 200 * h), 0, 1, 400 * h, AMP, d, bits);
    AnswersSolveCurve(Even(n, 200 * h), 0, 1, 400 * h, AMP, d);
    DoubledBelowHalf(n, h, Solved(Even(n, 200 * h), 0, 1, 400 * h, AMP, d).value);
  }

  // ---------------------------------------------------------------- above half, an exchange breaks cover

  lemma {:induction false} Pow10Adds(a: nat, b: nat)
    ensures Pow10(a + b) == Pow10(a) * Pow10(b)
  {
    if a > 0 {
      Pow10Adds(a - 1, b);
      assert Pow10(a + b) == 10 * Pow10(a - 1 + b);
    }
  }

  lemma {:induction false} Pow10Rises(a: nat, b: nat)
    requires a <= b
    ensures Pow10(a) <= Pow10(b)
    decreases b
  {
    if a < b { Pow10Rises(a, b - 1); }
  }

  lemma {:induction false} Pow2AtLeast(k: nat)
    ensures Pow2(10 * k) >= Pow10(3 * k)
  {
    if k > 0 {
      Pow2AtLeast(k - 1);
      var m, n := 10 * (k - 1), 3 * (k - 1);
      assert Pow2(m + 2) == 4 * Pow2(m) && Pow2(m + 4) == 4 * Pow2(m + 2) && Pow2(m + 6) == 4 * Pow2(m + 4);
      assert Pow2(m + 8) == 4 * Pow2(m + 6) && Pow2(m + 10) == 4 * Pow2(m + 8);
      assert Pow10(n + 2) == 100 * Pow10(n) && Pow10(n + 3) == 10 * Pow10(n + 2);
    }
  }

  lemma Scale(amount: nat, decimals: nat)
    requires decimals <= 18
    ensures Normalize(amount, decimals) == amount * Pow10(18 - decimals)
    ensures var q := Denormalize(amount, decimals); q * Pow10(18 - decimals) <= amount < q * Pow10(18 - decimals) + Pow10(18 - decimals)
  {
    var p := Pow10(18 - decimals);
    DivBounds(amount, p);
    assert (amount / p + 1) * p == amount / p * p + p;
    assert Pow10(0) == 1;
  }

  /** A balance of 10^30, held exactly. */
  function Whale(decimals: nat): Slot { Slot(Pow10(30), 0, Pow10(12 + decimals)) }

  lemma WhaleIsExact(decimals: nat)
    requires decimals <= 18
    ensures Normalize(Pow10(12 + decimals), decimals) == Pow10(30)
    ensures Covered(Whale(decimals), decimals)
  {
    Scale(Pow10(12 + decimals), decimals);
    Pow10Adds(12 + decimals, 18 - decimals);
  }

  /** With more than half to the admin, twice the share exceeds the fee by more than the rounding of the payout. */
  lemma TwiceOverHalf(dyFee: nat, adminFee: nat, p: nat, t: nat)
    requires adminFee > HALF && 1 <= p <= t && dyFee >= 25000000000 * t
    ensures 2 * Portion(dyFee, adminFee) > dyFee + p
  {
    var share := Portion(dyFee, adminFee);
    DivBounds(dyFee * adminFee, FEE_DENOMINATOR);
    MulMono(dyFee, dyFee, HALF + 1, adminFee);
    assert (share + 1) * FEE_DENOMINATOR > dyFee * (HALF + 1);
  }

  lemma FeeAtLeast(gross: nat, h: nat)
    requires gross >= 100 * h
    ensures Portion(gross, MAX_FEE) >= 5 * h
  {
    DivAtLeast(gross * MAX_FEE, FEE_DENOMINATOR, 5 * h);
  }

  lemma PaidWithin(held: nat, paid: nat, p: nat, out: nat)
    requires p > 0 && paid * p <= out <= held * p
    ensures paid <= held && (held - paid) * p == held * p - paid * p
  {
    MulCancel(paid, held, p);
  }

  /** What is paid out and what stays, on a slot whose holding is worth w. */
  lemma PayoutFromExact(held: nat, decimals: nat, out: nat, w: nat)
    requires decimals <= 18 && Normalize(held, decimals) == w && out <= w
    ensures var paid := Denormalize(out, decimals);
            paid <= held && Normalize(held - paid, decimals) < w - out + Pow10(18 - decimals)
  {
    var p, paid := Pow10(18 - decimals), Denormalize(out, decimals);
    Scale(held, decimals);
    Scale(out, decimals);
    PaidWithin(held, paid, p, out);
    Scale(held - paid, decimals);
  }

  /** The bought side, from the numbers it computes. */
  lemma BoughtFrom(s: Slot, decimals: nat, y: nat, fee: nat, adminFee: nat, gross: nat, dyFee: nat)
    requires s.balance == gross + y + 1 && dyFee == Portion(gross, fee) <= gross && Denormalize(gross - dyFee, decimals) <= s.held
    ensures Bought(s, decimals, y, fee, adminFee)
            == Some(Slot(y + Portion(dyFee, adminFee), s.admin + Portion(dyFee, adminFee), s.held - Denormalize(gross - dyFee, decimals)))
  {
  }

  /** On a slot held exactly, with room for the rounding, more than half of the fee to the admin is too much. */
  lemma Overcharged(s: Slot, decimals: nat, y: nat, h: nat, adminFee: nat, t: nat)
    requires decimals <= 18 && HALF < adminFee && s.balance == 200 * h && s.admin == 0 && Normalize(s.held, decimals) == 200 * h
    requires y < 100 * h && Pow10(18 - decimals) <= t && h >= 5000000000 * t
    ensures var r := Bought(s, decimals, y, MAX_FEE, adminFee); r.Some? && !Covered(r.value, decimals)
  {
    var gross := 200 * h - y - 1;
    var dyFee := Portion(gross, MAX_FEE);
    FeeAtLeast(gross, h);
    PortionAtMost(gross, MAX_FEE);
    PayoutFromExact(s.held, decimals, gross - dyFee, 200 * h);
    BoughtFrom(s, decimals, y, MAX_FEE, adminFee, gross, dyFee);
    TwiceOverHalf(dyFee, adminFee, Pow10(18 - decimals), t);
  }

  /** A pool that holds exactly 10^30 of every token, at the largest fee. */
  function WhalePool(decimals: seq<nat>, adminFee: nat): Ledger {
    Ledger(decimals, seq(|decimals|, k requires 0 <= k < |decimals| => Whale(decimals[k])), MAX_FEE, adminFee, 1, false)
  }

  lemma WhaleSize(h: nat)
    requires h == 5 * Pow10(27)
    ensures Pow10(30) == 200 * h && h >= 5000000000 * Pow10(18) && h >= 1
  {
    Pow10Adds(3, 27);
    Pow10Adds(9, 18);
    assert Pow10(3) == 1000 && Pow10(9) == 1000000000;
  }

  lemma SquareFits(h: nat, w: nat, bound: nat)
    requires w == 200 * h && 1000000 * (w * w) <= bound && h >= 1
    ensures 1000 * h * (1000 * h) < bound
  {
    assert 1000 * h * (1000 * h) == 25 * (w * w) by { assert 200 * h * (200 * h) == 40000 * (h * h); }
    MulMono(1, w, 1, w);
  }

  lemma SquareOfWhale(k: nat)
    requires k == 22
    ensures 1000000 * (Pow10(30) * Pow10(30)) <= Pow2(10 * k)
  {
    Pow10Adds(30, 30);
    Pow10Adds(6, 60);
    assert Pow10(6) == 1000000;
    Pow2AtLeast(k);
  }

  /** The numbers of that exchange: h is a two-hundredth of a balance, y the solver's answer. */
  lemma WhaleNumbers(n: nat) returns (h: nat, y: nat)
    requires 2 <= n <= 4
    ensures Pow10(30) == 200 * h && h >= 5000000000 * Pow10(18) && y < 100 * h
    ensures Answer(Even(n, 200 * h), 0, 1, 400 * h, AMP) == Some(y)
  {
    var k: nat := 22;
    h := 5 * Pow10(27);
    WhaleSize(h);
    SquareOfWhale(k);
    SquareFits(h, Pow10(30), Pow2(10 * k));
    DoubledAnswer(n, h, 10 * k);
    y := Answer(Even(n, 200 * h), 0, 1, 400 * h, AMP).value;
  }

  lemma WhalePoolSolvent(decimals: seq<nat>, adminFee: nat)
    requires 2 <= |decimals| <= 4 && adminFee <= MAX_ADMIN_FEE && forall k :: 0 <= k < |decimals| ==> decimals[k] <= 18
    ensures WellFormed(WhalePool(decimals, adminFee)) && Solvent(WhalePool(decimals, adminFee))
  {
    var l := WhalePool(decimals, adminFee);
    forall k | 0 <= k < |l.slots| ensures Covered(l.slots[k], l.decimals[k]) { WhaleIsExact(decimals[k]); }
  }

  /** An exchange at the solver's y that leaves its second slot uncovered. */
  lemma ExchangeShows(l: Ledger, dx: nat, xp: seq<nat>, x: nat, y: nat, amp: nat)
    requires WellFormed(l) && Solvent(l) && !l.killed && dx > 0
    requires BalancesOf(l.slots) == xp && l.slots[0].balance + Normalize(dx, l.decimals[0]) == x
    requires Answer(xp, 0, 1, x, amp) == Some(y)
    requires var r := Bought(l.slots[1], l.decimals[1], y, l.fee, l.adminFee); r.Some? && !Covered(r.value, l.decimals[1])
    ensures !KeepsCover(l.decimals, l.adminFee, l, Exchange(0, 1, dx, y), amp)
  {
    var q := Apply(l, Exchange(0, 1, dx, y)).value;
    assert !Covered(q.slots[1], q.decimals[1]);
  }

  lemma WhaleBalances(decimals: seq<nat>, adminFee: nat, h: nat)
    requires Pow10(30) == 200 * h && |decimals| >= 2 && decimals[0] <= 18
    ensures var l := WhalePool(decimals, adminFee);
            && BalancesOf(l.slots) == Even(|decimals|, 200 * h)
            && l.slots[0].balance + Normalize(Pow10(12 + decimals[0]), decimals[0]) == 400 * h
  {
    WhaleIsExact(decimals[0]);
    assert BalancesOf(WhalePool(decimals, adminFee).slots) == Even(|decimals|, 200 * h);
  }

  lemma WhaleOvercharged(decimals: nat, y: nat, h: nat, adminFee: nat)
    requires Pow10(30) == 200 * h && h >= 5000000000 * Pow10(18) && decimals <= 18 && HALF < adminFee && y < 100 * h
    ensures var r := Bought(Whale(decimals), decimals, y, MAX_FEE, adminFee); r.Some? && !Covered(r.value, decimals)
  {
    WhaleIsExact(decimals);
    Pow10Rises(18 - decimals, 18);
    Overcharged(Whale(decimals), decimals, y, h, adminFee, Pow10(18));
  }

  /** Above half, doubling the first balance of that pool breaks the cover of the second, at the y the solver returns. */
  lemma WhaleExchangeBreaks(decimals: seq<nat>, adminFee: nat) returns (op: Op)
    requires 2 <= |decimals| <= 4 && HALF < adminFee <= MAX_ADMIN_FEE && forall k :: 0 <= k < |decimals| ==> decimals[k] <= 18
    ensures !KeepsCover(decimals, adminFee, WhalePool(decimals, adminFee), op, AMP)
  {
    var h, y := WhaleNumbers(|decimals|);
    WhaleBalances(decimals, adminFee, h);
    WhalePoolSolvent(decimals, adminFee);
    WhaleOvercharged(decimals[1], y, h, adminFee);
    var l, dx, xp, x := WhalePool(decimals, adminFee), Pow10(12 + decimals[0]), Even(|decimals|, 200 * h), 400 * h;
    ExchangeShows(l, dx, xp, x, y, AMP);
    op := Exchange(0, 1, dx, y);
  }

  lemma NewtonMoves(k: Coefficients, d: nat, y: nat, next: nat, fuel: nat)
    requires fuel > 0 && 2 * y + k.b > d && next == Over(y * y + k.c, 2 * y + k.b - d) && !(-1 <= next - y <= 1)
    ensures Newton(k, d, y, fuel) == Newton(k, d, next, fuel - 1)
  {
  }

  lemma SmallCurve()
    ensures CurveCoefficients(Even(2, 1001), 0, 1, 2001, AMP, 2002) == Some(Coefficients(2011, 5010))
  {
    var xp := Even(2, 1001);
    assert InputProduct(xp, 0, 1, 2001, 2002, 0) == Some(2002);
    assert InputProduct(xp, 0, 1, 2001, 2002, 1) == Some(1001);
    assert InputSum(xp, 0, 1, 2001, 1) == 2001;
  }

  lemma SmallNewton(k: Coefficients, fuel: nat)
    requires k == Coefficients(2011, 5010) && fuel >= 7
    ensures Newton(k, 2002, 2002, fuel) == Some(66)
  {
    NewtonMoves(k, 2002, 2002, 1000, fuel);
    NewtonMoves(k, 2002, 1000, 500, fuel - 1);
    NewtonMoves(k, 2002, 500, 252, fuel - 2);
    NewtonMoves(k, 2002, 252, 133, fuel - 3);
    NewtonMoves(k, 2002, 133, 82, fuel - 4);
    NewtonMoves(k, 2002, 82, 67, fuel - 5);
    NewtonStops(k, 2002, 67, 66, fuel - 6);
  }

  lemma AnswerIs(xp: seq<nat>, x: nat, amp: nat, d: nat, k: Coefficients, y: nat)
    requires SolveD(xp, amp) == Some(d) && CurveCoefficients(xp, 0, 1, x, amp, d) == Some(k)
    requires Newton(k, d, d, MAX_ITERATIONS) == Some(y)
    ensures Answer(xp, 0, 1, x, amp) == Some(y)
  {
  }

  /** The solver's answer in a pool of 1001 each, after 1000 more of the first token: 66, in seven steps. */
  lemma SmallAnswer()
    ensures Answer(Even(2, 1001), 0, 1, 2001, AMP) == Some(66)
  {
    var k := Coefficients(2011, 5010);
    EvenPoolD(2, 1001, AMP);
    SmallCurve();
    SmallNewton(k, MAX_ITERATIONS);
    AnswerIs(Even(2, 1001), 2001, AMP, 2002, k, 66);
  }

  lemma NewtonStops(k: Coefficients, d: nat, y: nat, next: nat, fuel: nat)
    requires fuel > 0 && 2 * y + k.b > d && next == Over(y * y + k.c, 2 * y + k.b - d) && -1 <= next - y <= 1
    ensures Newton(k, d, y, fuel) == Some(next)
  {
  }

  /** A small instance at the largest admin fee the constructor accepts: after it 158 are recorded and 113 held. */
  lemma FullAdminFeeBreaksSolvency()
    ensures var l := Ledger([18, 18], [Slot(1001, 0, 1001), Slot(1001, 0, 1001)], MAX_FEE, MAX_ADMIN_FEE, 1, false);
            && WellFormed(l) && Solvent(l) && Exchanged(l, 0, 1, 1000, AMP).Some?
            && Exchanged(l, 0, 1, 1000, AMP).value.slots[1] == Slot(112, 46, 113)
            && !Solvent(Exchanged(l, 0, 1, 1000, AMP).value)
  {
    var l := Ledger([18, 18], [Slot(1001, 0, 1001), Slot(1001, 0, 1001)], MAX_FEE, MAX_ADMIN_FEE, 1, false);
    SmallAnswer();
    assert BalancesOf(l.slots) == Even(2, 1001) && l.slots[0].balance + Normalize(1000, 18) == 2001;
    assert Portion(934, MAX_FEE) == 46 && Portion(46, MAX_ADMIN_FEE) == 46;
    BoughtFrom(l.slots[1], 18, 66, MAX_FEE, MAX_ADMIN_FEE, 934, 46);
    assert Exchanged(l, 0, 1, 1000, AMP) == Apply(l, Exchange(0, 1, 1000, 66));
    assert !Covered(Slot(112, 46, 113), 18);
  }

  // ---------------------------------------------------------------- above 18 decimals, an exact withdrawal breaks cover

  const DUST := 1000

  /** A pool of 1000 of every token, held exactly where a token has more than 18 decimals, and without fees. */
  function DustPool(decimals: seq<nat>, adminFee: nat): Ledger {
    Ledger(decimals, seq(|decimals|, k requires 0 <= k < |decimals| => Dust(decimals[k])), 0, adminFee, 1, false)
  }

  function Dust(decimals: nat): Slot { Slot(DUST, 0, if decimals > 18 then DUST * Pow10(decimals - 18) else DUST) }

  function OneUnit(n: nat, i: nat): (s: seq<nat>)
    ensures |s| == n
  {
    seq(n, k => if k == i then 1 else 0)
  }

  lemma UnitsAreNothing(decimals: nat)
    requires decimals > 18
    ensures Normalize(0, decimals) == 0 && Normalize(1, decimals) == 0
    ensures Normalize(DUST * Pow10(decimals - 18), decimals) == DUST
    ensures DUST * Pow10(decimals - 18) >= 1 && Normalize(DUST * Pow10(decimals - 18) - 1, decimals) == DUST - 1
  {
    var p := Pow10(decimals - 18);
    assert p == 10 * Pow10(decimals - 19) >= 10;
    DivUnique(0, p, 0);
    DivUnique(1, p, 0);
    DivUnique(DUST * p, p, DUST);
    DivUnique(DUST * p - 1, p, DUST - 1);
  }

  /** Without fees, taking x units of a token whose record does not move only takes the units. */
  lemma FreeWithdrawal(s: Slot, decimals: nat, x: nat, adminFee: nat)
    requires Normalize(x, decimals) == 0 && x <= s.held
    ensures TakenExact(s, decimals, x, s.balance, 0, adminFee) == Some(s.(held := s.held - x))
  {
    assert ImbalanceFee(0, s.balance, s.balance) == 0 && Portion(0, adminFee) == 0;
  }

  lemma DustTouched(decimals: seq<nat>, adminFee: nat, i: nat, k: nat)
    requires 2 <= |decimals| <= 4 && adminFee <= MAX_ADMIN_FEE && i < |decimals| && k < |decimals| && decimals[i] > 18
    ensures var l, n := DustPool(decimals, adminFee), |decimals|;
            && WellFormed(l) && Covered(l.slots[k], decimals[k])
            && Touched(l, RemoveLiquidityImbalance(OneUnit(n, i), Even(n, DUST), 1), k)
               == Some(l.slots[k].(held := l.slots[k].held - OneUnit(n, i)[k]))
  {
    var l, n := DustPool(decimals, adminFee), |decimals|;
    assert ImbalanceRate(l) == 0 by { DivUnique(0, 4 * (n - 1), 0); }
    if decimals[k] > 18 {
      UnitsAreNothing(decimals[k]);
    } else {
      Scale(DUST, decimals[k]);
      Scale(0, decimals[k]);
      MulMono(DUST, DUST, 1, Pow10(18 - decimals[k]));
    }
    FreeWithdrawal(l.slots[k], decimals[k], OneUnit(n, i)[k], adminFee);
  }

  /** One unit of a token with more than 18 decimals is recorded as nothing, but it is gone. */
  lemma DustWithdrawalBreaks(decimals: seq<nat>, adminFee: nat, i: nat)
    requires 2 <= |decimals| <= 4 && adminFee <= MAX_ADMIN_FEE && i < |decimals| && decimals[i] > 18
    ensures !KeepsCover(decimals, adminFee, DustPool(decimals, adminFee),
                        RemoveLiquidityImbalance(OneUnit(|decimals|, i), Even(|decimals|, DUST), 1), AMP)
  {
    var l, n := DustPool(decimals, adminFee), |decimals|;
    var op := RemoveLiquidityImbalance(OneUnit(n, i), Even(n, DUST), 1);
    forall k | 0 <= k < n { DustTouched(decimals, adminFee, i, k); }
    var q := Apply(l, op).value;
    UnitsAreNothing(decimals[i]);
    assert !Covered(q.slots[i], q.decimals[i]);
    DustNumbers(l, op, n);
    ExactIsComputed(l, op, AMP);
  }

  /** All three D's of that withdrawal are the same, so the solvers return exactly its numbers. */
  lemma DustNumbers(l: Ledger, op: Op, n: nat)
    requires WellFormed(l) && n == |l.slots| && op.RemoveLiquidityImbalance? && |op.amounts| == |op.ideal| == n && AllTouched(l, op)
    requires forall k :: 0 <= k < n ==> l.slots[k].balance == DUST && Normalize(op.amounts[k], l.decimals[k]) == 0
    requires forall k :: 0 <= k < n ==> Touched(l, op, k).value.balance == DUST
    requires op.ideal == Even(n, DUST) && op.burned == 1
    ensures ExactNumbers(l, op, AMP)
  {
    assert BalancesOf(l.slots) == Even(n, DUST);
    assert Left(l, op.amounts) == Even(n, DUST);
    assert BalancesOf(TouchAll(l, op)) == Even(n, DUST);
    EvenPoolD(n, DUST, AMP);
    DivUnique(DUST * (n * DUST), n * DUST, DUST);
    DivUnique(l.supply * 0, n * DUST, 0);
  }

  // ---------------------------------------------------------------- exactly which configurations

  /**
   Every operation the code can perform keeps every pool of a configuration covered if and only if no token
   has more than 18 decimals and the admin's part of the fees is at most half.
   */
  lemma CoverKeptIff(decimals: seq<nat>, adminFee: nat)
    requires 2 <= |decimals| <= 4 && adminFee <= MAX_ADMIN_FEE
    ensures (forall l, op, amp :: KeepsCover(decimals, adminFee, l, op, amp))
            <==> adminFee <= HALF && forall k :: 0 <= k < |decimals| ==> decimals[k] <= 18
  {
    if exists k :: 0 <= k < |decimals| && decimals[k] > 18 {
      var k :| 0 <= k < |decimals| && decimals[k] > 18;
      DustWithdrawalBreaks(decimals, adminFee, k);
    } else if adminFee > HALF {
      var op := WhaleExchangeBreaks(decimals, adminFee);
    } else {
      forall l, op, amp ensures KeepsCover(decimals, adminFee, l, op, amp) {
        if WellFormed(l) && l.decimals == decimals && l.adminFee == adminFee && Solvent(l) && Apply(l, op).Some? { StepSolvent(l, op); }
      }
    }
  }
}
