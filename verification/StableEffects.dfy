/** What the operations of a stable pool pay, charge and hand out. */
module StableEffects {
  import opened Options
  import opened Numbers
  import opened StableCurve
  import opened StableLedger

  // ---------------------------------------------------------------- units

  /** Token units are the most that a recorded amount covers. */
  lemma DenormalizeIsLargest(amount: nat, decimals: nat, units: nat)
    requires decimals <= 18
    ensures units <= Denormalize(amount, decimals) <==> Normalize(units, decimals) <= amount
    ensures Normalize(units, decimals) == units * Pow10(18 - decimals)
  {
    DivAtLeast(amount, Pow10(18 - decimals), units);
    assert Pow10(0) == 1;
  }

  /** And a recorded amount of a token with more decimals is the most that its units cover. */
  lemma NormalizeIsLargest(units: nat, decimals: nat, amount: nat)
    requires decimals > 18
    ensures amount <= Normalize(units, decimals) <==> Denormalize(amount, decimals) <= units
    ensures Denormalize(amount, decimals) == amount * Pow10(decimals - 18)
  {
    DivAtLeast(units, Pow10(decimals - 18), amount);
  }

  lemma PortionIs(amount: nat, rate: nat, part: nat)
    ensures part <= Portion(amount, rate) <==> part * FEE_DENOMINATOR <= amount * rate
  {
    DivAtLeast(amount * rate, FEE_DENOMINATOR, part);
  }

  // ---------------------------------------------------------------- the curve the y solver works on

  /** The divisors of the product over the first k inputs, the power of D over them, and what their floors can lose. */
  function InputDivisors(xp: seq<nat>, i: nat, j: nat, x: nat, k: nat): nat
    requires k <= |xp|
  {
    if k == 0 then 1
    else match Input(xp, i, j, x, k - 1)
         case None => InputDivisors(xp, i, j, x, k - 1)
         case Some(v) => InputDivisors(xp, i, j, x, k - 1) * (v * |xp|)
  }

  function InputPower(xp: seq<nat>, i: nat, j: nat, x: nat, d: nat, k: nat): nat
    requires k <= |xp|
  {
    if k == 0 then d else InputPower(xp, i, j, x, d, k - 1) * if Input(xp, i, j, x, k - 1).Some? then d else 1
  }

  function InputLost(xp: seq<nat>, i: nat, j: nat, x: nat, d: nat, k: nat): nat
    requires k <= |xp|
  {
    if k == 0 then 0
    else if Input(xp, i, j, x, k - 1).None? then InputLost(xp, i, j, x, d, k - 1)
    else InputLost(xp, i, j, x, d, k - 1) * d + InputDivisors(xp, i, j, x, k)
  }

  lemma {:induction false} InputBrackets(xp: seq<nat>, i: nat, j: nat, x: nat, d: nat, k: nat)
    requires k <= |xp| && InputProduct(xp, i, j, x, d, k).Some?
    ensures var c, q := InputProduct(xp, i, j, x, d, k).value, InputDivisors(xp, i, j, x, k);
            c * q <= InputPower(xp, i, j, x, d, k) <= c * q + InputLost(xp, i, j, x, d, k)
  {
    if k > 0 {
      InputBrackets(xp, i, j, x, d, k - 1);
      match Input(xp, i, j, x, k - 1)
      case None =>
      case Some(v) =>
        BracketStep(InputProduct(xp, i, j, x, d, k - 1).value, InputDivisors(xp, i, j, x, k - 1), InputPower(xp, i, j, x, d, k - 1),
                    InputLost(xp, i, j, x, d, k - 1), d, v * |xp|);
    }
  }

  /**
   The coefficients of y^2 + (b - D) y = c: b is the other balances and the floored D / Ann; c is D to one more than
   their number, over Ann n and n times each of them, short of it by no more than the floors lose.
   */
  lemma CoefficientsAre(xp: seq<nat>, i: nat, j: nat, x: nat, amp: nat, d: nat)
    requires CurveCoefficients(xp, i, j, x, amp, d).Some?
    ensures var k, n, ann := CurveCoefficients(xp, i, j, x, amp, d).value, |xp|, amp * |xp|;
            var sum, q := InputSum(xp, i, j, x, n), InputDivisors(xp, i, j, x, n) * (ann * n);
            && k.b >= sum && (k.b - sum) * ann <= d < (k.b - sum + 1) * ann
            && k.c * q <= InputPower(xp, i, j, x, d, n) * d <= k.c * q + (InputLost(xp, i, j, x, d, n) * d + q)
  {
    var n, ann := |xp|, amp * |xp|;
    InputBrackets(xp, i, j, x, d, n);
    DivBounds(d, ann);
    BracketStep(InputProduct(xp, i, j, x, d, n).value, InputDivisors(xp, i, j, x, n), InputPower(xp, i, j, x, d, n),
                InputLost(xp, i, j, x, d, n), d, ann * n);
  }

  // ---------------------------------------------------------------- exchanges

  /**
   An exchange takes dx in on one side. On the other it records y and the admin's share, pays what is left of
   the balance less one unit and less the floored fee, and credits the admin with that share.
   */
  lemma ExchangeMoves(l: Ledger, i: nat, j: nat, dx: nat, y: nat, fee: nat, part: nat)
    requires WellFormed(l) && Apply(l, Exchange(i, j, dx, y)).Some?
    requires fee * FEE_DENOMINATOR <= (l.slots[j].balance - y - 1) * l.fee < (fee + 1) * FEE_DENOMINATOR
    requires part * FEE_DENOMINATOR <= fee * l.adminFee < (part + 1) * FEE_DENOMINATOR
    ensures var q, s, t := Apply(l, Exchange(i, j, dx, y)).value, l.slots[i], l.slots[j];
            && i != j && y + 1 + fee <= t.balance && !l.killed && dx > 0
            && q.slots[i] == Slot(s.balance + Normalize(dx, l.decimals[i]), s.admin, s.held + dx)
            && t.held >= Denormalize(t.balance - y - 1 - fee, l.decimals[j])
            && q.slots[j] == Slot(y + part, t.admin + part, t.held - Denormalize(t.balance - y - 1 - fee, l.decimals[j]))
            && q == l.(slots := l.slots[i := q.slots[i]][j := q.slots[j]])
  {
    DivUnique((l.slots[j].balance - y - 1) * l.fee, FEE_DENOMINATOR, fee);
    DivUnique(fee * l.adminFee, FEE_DENOMINATOR, part);
  }

  // ---------------------------------------------------------------- proportional withdrawals

  /** A proportional withdrawal takes from every balance the most that its part of the supply is worth, and pays that. */
  lemma RedemptionPays(l: Ledger, amount: nat, k: nat, count: nat)
    requires WellFormed(l) && k < |l.slots| && Apply(l, RemoveLiquidity(amount)).Some?
    ensures var q, s := Apply(l, RemoveLiquidity(amount)).value, l.slots[k];
            && amount <= l.supply && q.supply == l.supply - amount && |q.slots| == |l.slots|
            && q.slots[k].balance <= s.balance && q.slots[k].admin == s.admin
            && (count <= s.balance - q.slots[k].balance <==> count * l.supply <= s.balance * amount)
            && q.slots[k].held + Denormalize(s.balance - q.slots[k].balance, l.decimals[k]) == s.held
  {
    assert Touched(l, RemoveLiquidity(amount), k).Some?;
    DivAtLeast(l.slots[k].balance * amount, l.supply, count);
  }

  /** So no balance per share falls. */
  lemma RedemptionKeepsShares(l: Ledger, amount: nat, k: nat)
    requires WellFormed(l) && k < |l.slots| && Apply(l, RemoveLiquidity(amount)).Some?
    ensures var q := Apply(l, RemoveLiquidity(amount)).value;
            |q.slots| == |l.slots| && q.slots[k].balance * l.supply >= l.slots[k].balance * q.supply
  {
    var q, b := Apply(l, RemoveLiquidity(amount)).value, l.slots[k].balance;
    RedemptionPays(l, amount, k, b - q.slots[k].balance);
    LeftOver(b, q.slots[k].balance, l.supply, amount);
  }

  lemma LeftOver(b: nat, left: nat, supply: nat, amount: nat)
    requires left <= b && amount <= supply && (b - left) * supply <= b * amount
    ensures left * supply >= b * (supply - amount)
  {
    assert (b - left) * supply == b * supply - left * supply;
    assert b * (supply - amount) == b * supply - b * amount;
  }

  // ---------------------------------------------------------------- deposits and exact withdrawals

  /** The floored fee on the distance of a balance from its ideal. */
  ghost predicate ChargedFor(fee: nat, rate: nat, ideal: nat, balance: nat) {
    var distance := if ideal > balance then ideal - balance else balance - ideal;
    fee * FEE_DENOMINATOR <= distance * rate < (fee + 1) * FEE_DENOMINATOR
  }

  lemma FeeIsCharged(rate: nat, ideal: nat, balance: nat)
    ensures ChargedFor(ImbalanceFee(rate, ideal, balance), rate, ideal, balance)
  {
    DivBounds((if ideal > balance then ideal - balance else balance - ideal) * rate, FEE_DENOMINATOR);
  }

  /** The rate of that fee is the floored n / (4 (n - 1)) of the swap fee. */
  lemma RateIs(l: Ledger, rate: nat)
    requires WellFormed(l)
    ensures rate <= ImbalanceRate(l) <==> rate * (4 * (|l.slots| - 1)) <= l.fee * |l.slots|
  {
    DivAtLeast(l.fee * |l.slots|, 4 * (|l.slots| - 1), rate);
  }

  /** The most that a balance is, scaled from one D to another. */
  ghost predicate ScaledTo(ideal: nat, balance: nat, d0: nat, d1: nat) { ideal * d0 <= balance * d1 < (ideal + 1) * d0 }

  lemma IdealIs(b: seq<nat>, d1: nat, d0: nat, k: nat)
    requires d0 > 0 && k < |b|
    ensures ScaledTo(Ideals(b, d1, d0)[k], b[k], d0, d1)
  {
    DivBounds(b[k] * d1, d0);
  }

  /** The ideals of a later deposit are the old balances scaled to D of the filled ones, before fees; it must have grown. */
  lemma DepositIdealsAre(l: Ledger, amounts: seq<nat>, amp: nat, k: nat)
    requires WellFormed(l) && k < |l.slots| && l.supply > 0 && DepositOp(l, amounts, amp).Some?
    ensures var op := DepositOp(l, amounts, amp).value;
            && |amounts| == |l.slots| && op.AddLiquidity? && op.amounts == amounts && |op.ideal| == |l.slots|
            && var d0, d1 := SolveD(BalancesOf(l.slots), amp), SolveD(Filled(l, amounts), amp);
               d0.Some? && d1.Some? && d1.value > d0.value && ScaledTo(op.ideal[k], l.slots[k].balance, d0.value, d1.value)
  {
    IdealIs(BalancesOf(l.slots), SolveD(Filled(l, amounts), amp).value, SolveD(BalancesOf(l.slots), amp).value, k);
  }

  /** Those of an exact withdrawal are scaled to D of what it leaves. */
  lemma WithdrawalIdealsAre(l: Ledger, amounts: seq<nat>, amp: nat, k: nat)
    requires WellFormed(l) && k < |l.slots| && ImbalanceOp(l, amounts, amp).Some?
    ensures var op := ImbalanceOp(l, amounts, amp).value;
            && |amounts| == |l.slots| && op.RemoveLiquidityImbalance? && op.amounts == amounts && |op.ideal| == |l.slots|
            && var d0, d1 := SolveD(BalancesOf(l.slots), amp), SolveD(Left(l, amounts), amp);
               d0.Some? && d1.Some? && ScaledTo(op.ideal[k], l.slots[k].balance, d0.value, d1.value)
  {
    IdealIs(BalancesOf(l.slots), SolveD(Left(l, amounts), amp).value, SolveD(BalancesOf(l.slots), amp).value, k);
  }

  /** A deposit adds exactly its units, less, after the first one, a fee on the distance from the ideal balance. */
  lemma DepositMoves(l: Ledger, op: Op, k: nat) returns (fee: nat)
    requires WellFormed(l) && op.AddLiquidity? && k < |l.slots| && Apply(l, op).Some?
    ensures var q, s := Apply(l, op).value, l.slots[k];
            && |op.amounts| == |op.ideal| == |q.slots| == |l.slots| && q.supply == l.supply + op.minted
            && var full := s.balance + Normalize(op.amounts[k], l.decimals[k]);
               && q.slots[k].held == s.held + op.amounts[k]
               && q.slots[k].balance + fee == full
               && q.slots[k].admin == s.admin + Portion(fee, l.adminFee)
               && if l.supply == 0 then fee == 0 else ChargedFor(fee, ImbalanceRate(l), op.ideal[k], full)
  {
    assert Touched(l, op, k).Some?;
    var full := l.slots[k].balance + Normalize(op.amounts[k], l.decimals[k]);
    fee := if l.supply == 0 then 0 else ImbalanceFee(ImbalanceRate(l), op.ideal[k], full);
    FeeIsCharged(ImbalanceRate(l), op.ideal[k], full);
    if fee == 0 { DivUnique(0 * l.adminFee, FEE_DENOMINATOR, 0); }
  }

  /** An exact withdrawal pays exactly its units, and charges the same fee. */
  lemma ExactWithdrawalMoves(l: Ledger, op: Op, k: nat) returns (fee: nat)
    requires WellFormed(l) && op.RemoveLiquidityImbalance? && k < |l.slots| && Apply(l, op).Some?
    ensures var q, s := Apply(l, op).value, l.slots[k];
            && |op.amounts| == |op.ideal| == |q.slots| == |l.slots| && op.burned <= l.supply && q.supply == l.supply - op.burned
            && q.slots[k].held + op.amounts[k] == s.held
            && q.slots[k].balance + fee + Normalize(op.amounts[k], l.decimals[k]) == s.balance
            && q.slots[k].admin == s.admin + Portion(fee, l.adminFee)
            && ChargedFor(fee, ImbalanceRate(l), op.ideal[k], q.slots[k].balance + fee)
  {
    assert Touched(l, op, k).Some?;
    var left := l.slots[k].balance - Normalize(op.amounts[k], l.decimals[k]);
    fee := ImbalanceFee(ImbalanceRate(l), op.ideal[k], left);
    FeeIsCharged(ImbalanceRate(l), op.ideal[k], left);
  }

  /** A one-coin withdrawal pays dy, credits the admin with its share of the fee, and takes both off one balance. */
  lemma OneCoinMoves(l: Ledger, tokenAmount: nat, i: nat, dy: nat, dyFee: nat, part: nat)
    requires WellFormed(l) && Apply(l, RemoveLiquidityOneCoin(tokenAmount, i, dy, dyFee)).Some?
    requires part * FEE_DENOMINATOR <= dyFee * l.adminFee < (part + 1) * FEE_DENOMINATOR
    ensures var q, s := Apply(l, RemoveLiquidityOneCoin(tokenAmount, i, dy, dyFee)).value, l.slots[i];
            && dy + part <= s.balance && Denormalize(dy, l.decimals[i]) <= s.held && tokenAmount <= l.supply
            && q == l.(supply := l.supply - tokenAmount,
                       slots := l.slots[i := Slot(s.balance - dy - part, s.admin + part, s.held - Denormalize(dy, l.decimals[i]))])
  {
    DivUnique(dyFee * l.adminFee, FEE_DENOMINATOR, part);
  }

  /** Collecting pays the admin all recorded fees in whole units, and clears exactly the records it pays anything for. */
  lemma CollectionPays(l: Ledger, k: nat)
    requires WellFormed(l) && k < |l.slots| && Apply(l, CollectAdminFees).Some?
    ensures var q, s := Apply(l, CollectAdminFees).value, l.slots[k];
            && |q.slots| == |l.slots| && q.slots[k].held + Denormalize(s.admin, l.decimals[k]) == s.held && q.slots[k].balance == s.balance
            && q.slots[k].admin == (if Denormalize(s.admin, l.decimals[k]) > 0 then 0 else s.admin) && q.supply == l.supply
  {
    assert Touched(l, CollectAdminFees, k).Some?;
  }

  /** A killed pool takes nothing in, and still lets everything out. */
  lemma KillingStopsEntries(l: Ledger, op: Op)
    requires WellFormed(l)
    ensures var k := l.(killed := true);
            && Apply(l, SetKilled(true)) == Some(k) && Apply(l, SetKilled(false)) == Some(l.(killed := false))
            && (op.Exchange? || op.AddLiquidity? ==> Apply(k, op) == None)
            && (op.RemoveLiquidityOneCoin? ==> (Apply(k, op).Some? <==> Apply(l, op).Some?))
  {
  }

  lemma KillingStopsNoExit(l: Ledger, op: Op)
    requires WellFormed(l) && (op.RemoveLiquidity? || op.RemoveLiquidityImbalance? || op.CollectAdminFees?)
    ensures Apply(l.(killed := true), op).Some? <==> Apply(l, op).Some?
  {
    var k := l.(killed := true);
    if (op.RemoveLiquidityImbalance? ==> |op.amounts| == |op.ideal| == |l.slots|) && (op.RemoveLiquidity? ==> l.supply > 0) {
      assert forall j :: 0 <= j < |l.slots| ==> Touched(k, op, j) == Touched(l, op, j);
    }
  }

  /** The swap fee is set to at most 5%, the admin's part to at most all of it, and then they are those of the next call. */
  lemma FeesGovernNext(l: Ledger, rate: nat)
    requires WellFormed(l)
    ensures Apply(l, SetFee(rate)).Some? <==> rate * 20 <= FEE_DENOMINATOR
    ensures Apply(l, SetFee(rate)).Some? ==> Apply(l, SetFee(rate)).value == l.(fee := rate)
    ensures Apply(l, SetAdminFee(rate)).Some? <==> rate <= FEE_DENOMINATOR
    ensures Apply(l, SetAdminFee(rate)).Some? ==> Apply(l, SetAdminFee(rate)).value == l.(adminFee := rate)
  {
  }

  // ---------------------------------------------------------------- shares against D

  /**
   What a deposit mints is the most that keeps D per share from falling: D of the balances once its fees are
   taken, over the new supply, is no less than before.
   */
  lemma DepositKeepsSharesWorth(l: Ledger, amounts: seq<nat>, amp: nat, count: nat)
    requires WellFormed(l) && l.supply > 0 && Performed(l, DepositOp(l, amounts, amp)).Some?
    ensures var q := Performed(l, DepositOp(l, amounts, amp)).value;
            && SolveD(BalancesOf(l.slots), amp).Some? && SolveD(BalancesOf(q.slots), amp).Some? && q.supply >= l.supply
            && var d0, d2 := SolveD(BalancesOf(l.slots), amp).value, SolveD(BalancesOf(q.slots), amp).value;
               && d0 <= d2 && (count <= q.supply - l.supply <==> (l.supply + count) * d0 <= l.supply * d2)
  {
    var xp := BalancesOf(l.slots);
    var d0, d1 := SolveD(xp, amp).value, SolveD(Filled(l, amounts), amp).value;
    var op := AddLiquidity(amounts, Ideals(xp, d1, d0), 0);
    var d2 := SolveD(BalancesOf(TouchAll(l, op)), amp).value;
    TouchIgnoresSupply(l, op, op.(minted := Share(l.supply, d2 - d0, d0)));
    DivAtLeast(l.supply * (d2 - d0), d0, count);
    SharesAgainst(l.supply, count, d0, d2);
  }

  lemma SharesAgainst(supply: nat, count: nat, d0: nat, d2: nat)
    requires d0 <= d2
    ensures count * d0 <= supply * (d2 - d0) <==> (supply + count) * d0 <= supply * d2
  {
    assert (supply + count) * d0 == supply * d0 + count * d0;
    assert supply * (d2 - d0) == supply * d2 - supply * d0;
  }

  /** The first deposit mints exactly D. */
  lemma FirstDepositMintsD(l: Ledger, amounts: seq<nat>, amp: nat)
    requires WellFormed(l) && l.supply == 0 && Performed(l, DepositOp(l, amounts, amp)).Some?
    ensures var q := Performed(l, DepositOp(l, amounts, amp)).value; SolveD(BalancesOf(q.slots), amp) == Some(q.supply) && q.supply > 0
  {
    var op := DepositOp(l, amounts, amp).value;
    assert forall k :: 0 <= k < |l.slots| ==> Touched(l, op, k).Some?;
    assert BalancesOf(TouchAll(l, op)) == Filled(l, amounts);
  }

  /** What an exact withdrawal burns is more than D per share asks for, by at most one share: D per share never falls. */
  lemma ExactWithdrawalKeepsSharesWorth(l: Ledger, amounts: seq<nat>, amp: nat)
    requires WellFormed(l) && Performed(l, ImbalanceOp(l, amounts, amp)).Some?
    ensures var q := Performed(l, ImbalanceOp(l, amounts, amp)).value;
            && SolveD(BalancesOf(l.slots), amp).Some? && SolveD(BalancesOf(q.slots), amp).Some? && q.supply < l.supply
            && var d0, d2 := SolveD(BalancesOf(l.slots), amp).value, SolveD(BalancesOf(q.slots), amp).value;
               q.supply * d0 < l.supply * d2 <= (q.supply + 1) * d0
  {
    var xp := BalancesOf(l.slots);
    var d0, d1 := SolveD(xp, amp).value, SolveD(Left(l, amounts), amp).value;
    var op := RemoveLiquidityImbalance(amounts, Ideals(xp, d1, d0), 0);
    var d2 := SolveD(BalancesOf(TouchAll(l, op)), amp).value;
    var burned := Share(l.supply, d0 - d2, d0) + 1;
    TouchIgnoresSupply(l, op, op.(burned := burned));
    DivBounds(l.supply * (d0 - d2), d0);
    SharesBurned(l.supply, burned, d0, d2);
  }

  lemma SharesBurned(supply: nat, burned: nat, d0: nat, d2: nat)
    requires 0 < burned <= supply && d2 <= d0 && (burned - 1) * d0 <= supply * (d0 - d2) < burned * d0
    ensures (supply - burned) * d0 < supply * d2 <= (supply - burned + 1) * d0
  {
    assert (supply - burned) * d0 == supply * d0 - burned * d0;
    assert (supply - burned + 1) * d0 == supply * d0 - (burned - 1) * d0;
    assert supply * (d0 - d2) == supply * d0 - supply * d2;
  }

  // ---------------------------------------------------------------- the one-coin formula

  /** Balances less the floored fee on how far they will be from their floored ideals at D1; token i is as far as its answer. */
  ghost predicate ReducedBy(b: nat, r: nat, d0: nat, d1: nat, rate: nat, answer: Option<nat>) {
    exists ideal: nat ::
      && ideal * d0 <= b * d1 < (ideal + 1) * d0 && r <= b
      && match answer
         case None => ideal <= b && ChargedFor(b - r, rate, ideal, b)
         case Some(y) => y <= ideal && ChargedFor(b - r, rate, ideal, y)
  }

  lemma EntryIsReduced(xp: seq<nat>, i: nat, k: nat, d0: nat, d1: nat, rate: nat, amp: nat)
    requires k < |xp| && d0 > 0 && ReducedAt(xp, i, k, d0, d1, rate, amp).Some?
    ensures ReducedBy(xp[k], ReducedAt(xp, i, k, d0, d1, rate, amp).value, d0, d1, rate, if k == i then Answer(xp, 0, k, d1, amp) else None)
  {
    var ideal := Share(xp[k], d1, d0);
    DivBounds(xp[k] * d1, d0);
    if k == i { FeeIsCharged(rate, ideal, Answer(xp, 0, k, d1, amp).value); } else { FeeIsCharged(rate, ideal, xp[k]); }
  }

  /** The formula at given D's: its amount and its fee against the two answers. */
  lemma OneCoinParts(xp: seq<nat>, i: nat, d0: nat, d1: nat, rate: nat, amp: nat) returns (reduced: seq<nat>, y: nat, plain: nat)
    requires i < |xp| && d0 > 0 && OneCoin(xp, i, d0, d1, rate, amp).Some?
    ensures |reduced| == |xp| && Answer(reduced, 0, i, d1, amp) == Some(y) && Answer(xp, 0, i, d1, amp) == Some(plain)
    ensures forall k :: 0 <= k < |xp| ==> ReducedAt(xp, i, k, d0, d1, rate, amp) == Some(reduced[k])
    ensures var r := OneCoin(xp, i, d0, d1, rate, amp).value; r.0 + y + 1 == reduced[i] && r.0 + r.1 + plain == xp[i]
  {
    reduced := seq(|xp|, k requires 0 <= k < |xp| => if ReducedAt(xp, i, k, d0, d1, rate, amp).Some? then ReducedAt(xp, i, k, d0, d1, rate, amp).value else 0);
    OneCoinIs(xp, reduced, i, d0, d1, rate, amp);
    y, plain := Answer(reduced, 0, i, d1, amp).value, Answer(xp, 0, i, d1, amp).value;
  }

  /** What D falls by when shares are withdrawn, floored. */
  ghost predicate FallsBy(d0: nat, d1: nat, tokenAmount: nat, supply: nat) {
    d1 <= d0 && (d0 - d1) * supply <= tokenAmount * d0 < (d0 - d1 + 1) * supply
  }

  lemma OneCoinD(l: Ledger, tokenAmount: nat, i: nat, amp: nat) returns (d0: nat, d1: nat)
    requires WellFormed(l) && OneCoinOp(l, tokenAmount, i, amp).Some?
    ensures i < |l.slots| && SolveD(BalancesOf(l.slots), amp) == Some(d0) && d0 > 0 && FallsBy(d0, d1, tokenAmount, l.supply)
    ensures var r := OneCoin(BalancesOf(l.slots), i, d0, d1, ImbalanceRate(l), amp);
            r.Some? && OneCoinOp(l, tokenAmount, i, amp) == Some(RemoveLiquidityOneCoin(tokenAmount, i, r.value.0, r.value.1))
  {
    d0 := SolveD(BalancesOf(l.slots), amp).value;
    var falls := Share(tokenAmount, d0, l.supply);
    d1 := d0 - falls;
    FallIs(d0, d1, tokenAmount, l.supply, falls);
  }

  lemma FallIs(d0: nat, d1: nat, tokenAmount: nat, supply: nat, falls: nat)
    requires supply > 0 && falls == Share(tokenAmount, d0, supply) && d0 == d1 + falls
    ensures FallsBy(d0, d1, tokenAmount, supply)
  {
    DivBounds(tokenAmount * d0, supply);
  }

  /**
   What a one-coin withdrawal pays: D falls by the floored part that the shares are of it; the amount is what
   the reduced balance has over the solver's answer at the lower D, less one unit, and the fee is what it falls
   short of the same without reduction.
   */
  lemma OneCoinMeans(l: Ledger, tokenAmount: nat, i: nat, amp: nat) returns (d0: nat, d1: nat, reduced: seq<nat>, y: nat, plain: nat)
    requires WellFormed(l) && OneCoinOp(l, tokenAmount, i, amp).Some?
    ensures i < |l.slots| == |reduced| && SolveD(BalancesOf(l.slots), amp) == Some(d0) && FallsBy(d0, d1, tokenAmount, l.supply)
    ensures Answer(reduced, 0, i, d1, amp) == Some(y) && Answer(BalancesOf(l.slots), 0, i, d1, amp) == Some(plain)
    ensures forall k :: 0 <= k < |reduced| ==>
              ReducedBy(l.slots[k].balance, reduced[k], d0, d1, ImbalanceRate(l), if k == i then Some(plain) else None)
    ensures var op := OneCoinOp(l, tokenAmount, i, amp).value;
            && op.RemoveLiquidityOneCoin? && op.tokenAmount == tokenAmount && op.i == i
            && op.dy + y + 1 == reduced[i] && op.dy + op.dyFee + plain == l.slots[i].balance
  {
    var xp, rate := BalancesOf(l.slots), ImbalanceRate(l);
    d0, d1 := OneCoinD(l, tokenAmount, i, amp);
    reduced, y, plain := OneCoinParts(xp, i, d0, d1, rate, amp);
    forall k | 0 <= k < |reduced|
      ensures ReducedBy(l.slots[k].balance, reduced[k], d0, d1, rate, if k == i then Some(plain) else None)
    {
      EntryIsReduced(xp, i, k, d0, d1, rate, amp);
    }
  }
}
