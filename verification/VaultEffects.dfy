/** What each call of the vault does for the people and the strategies it concerns. */
module VaultEffects {
  import opened Options
  import opened Numbers
  import opened VaultModel

  // ---------------------------------------------------------------- debt over a whole run

  /** What one user minted, and burned of their debt, in the committed calls of a run. */
  function Minted(v: Vault, ops: seq<Op>, u: User): nat
    decreases |ops|
  {
    if ops == [] then 0
    else match Apply(v, ops[0])
         case None => Minted(v, ops[1..], u)
         case Some(w) => (match ops[0] case Mint(x, amount) => if x == u then amount else 0 case _ => 0) + Minted(w, ops[1..], u)
  }

  /** A burn counts up to the debt there is. */
  function Repaid(v: Vault, ops: seq<Op>, u: User): nat
    decreases |ops|
  {
    if ops == [] then 0
    else match Apply(v, ops[0])
         case None => Repaid(v, ops[1..], u)
         case Some(w) =>
           (match ops[0]
            case Burn(x, amount) => if x != u then 0 else if amount < AccountOf(v, u).debt then amount else AccountOf(v, u).debt
            case _ => 0) + Repaid(w, ops[1..], u)
  }

  /** One call moves the debt of its caller by exactly what it mints or burns, and no other debt. */
  lemma CallMovesDebt(v: Vault, op: Op, u: User)
    requires Inv(v) && Apply(v, op).Some?
    ensures var d, e := AccountOf(v, u).debt, AccountOf(Apply(v, op).value, u).debt;
            match op
            case Mint(x, amount) => e == if x == u then d + amount else d
            case Burn(x, amount) => e == if x == u then (if amount < d then d - amount else 0) else d
            case _ => e == d
  {
    if op.Liquidate? { NeverLiquidatable(v, op.user); }
  }

  /** In every run a user owes what they owed before and have minted since, less what they have burned. */
  lemma {:induction false} DebtIsMintedLessBurned(v: Vault, ops: seq<Op>, u: User)
    requires Inv(v)
    ensures AccountOf(Run(v, ops), u).debt == AccountOf(v, u).debt + Minted(v, ops, u) - Repaid(v, ops, u)
    decreases |ops|
  {
    if ops != [] {
      match Apply(v, ops[0])
      case None => DebtIsMintedLessBurned(v, ops[1..], u);
      case Some(w) =>
        CallMovesDebt(v, ops[0], u);
        StepKeeps(v, ops[0]);
        DebtIsMintedLessBurned(w, ops[1..], u);
    }
  }

  /** 150% in whole numbers. */
  lemma CoversIff(debt: nat, worth: nat)
    ensures worth >= Bps(debt, MINIMUM_COLLATERAL_RATIO) <==> debt * 3 < (worth + 1) * 2
  {
    DivAtLeast(debt * MINIMUM_COLLATERAL_RATIO, BASIS_POINTS, worth + 1);
  }

  /** A mint commits exactly when it is of something and the shares cover the old and the new debt; it then records both. */
  lemma MintCommitsIff(v: Vault, u: User, amount: nat)
    ensures var a := AccountOf(v, u);
            Apply(v, Mint(u, amount)).Some? <==> amount > 0 && (a.debt + amount) * 3 < (WorthIn(v, a.shares) + 1) * 2
    ensures Apply(v, Mint(u, amount)).Some? ==>
              var w := Apply(v, Mint(u, amount)).value;
              && AccountOf(w, u).debt == AccountOf(v, u).debt + amount && w.totalDebt == v.totalDebt + amount
              && AccountOf(w, u).shares == AccountOf(v, u).shares && w.totalShares == v.totalShares && w.funds == v.funds
              && forall x :: x != u ==> AccountOf(w, x) == AccountOf(v, x)
  {
    CoversIff(AccountOf(v, u).debt + amount, WorthIn(v, AccountOf(v, u).shares));
  }

  /** And what was minted binds: right after it, any withdrawal that leaves less than 150% of the whole debt reverts. */
  lemma MintBindsWithdrawals(v: Vault, u: User, amount: nat, shares: nat)
    requires Apply(v, Mint(u, amount)).Some? && shares <= AccountOf(v, u).shares
    requires (AccountOf(v, u).debt + amount) * 3 >= (WorthIn(v, AccountOf(v, u).shares - shares) + 1) * 2
    ensures Apply(Apply(v, Mint(u, amount)).value, Withdraw(u, shares)) == None
  {
    MintCommitsIff(v, u, amount);
    CoversIff(AccountOf(v, u).debt + amount, WorthIn(v, AccountOf(v, u).shares - shares));
  }

  // ---------------------------------------------------------------- deposits and withdrawals

  /** The fee is the floored part of the amount. */
  lemma FeeIs(amount: nat, rate: nat, fee: nat)
    ensures fee <= Bps(amount, rate) <==> fee * 10000 <= amount * rate
  {
    DivAtLeast(amount * rate, 10000, fee);
  }

  /**
   A deposit, less its fee, buys the most shares it pays for at the price before; the first one buys a share
   per unit. The funds take in all of the rest, and nobody else's account changes.
   */
  lemma DepositBuys(v: Vault, u: User, amount: nat, count: nat)
    requires Apply(v, Deposit(u, amount)).Some?
    ensures var w, fee := Apply(v, Deposit(u, amount)).value, Bps(amount, v.fees.deposit);
            && fee <= amount && Assets(w.funds) == Assets(v.funds) + (amount - fee)
            && AccountOf(w, u).shares >= AccountOf(v, u).shares && AccountOf(w, u).debt == AccountOf(v, u).debt
            && var bought := AccountOf(w, u).shares - AccountOf(v, u).shares;
               && w.totalShares == v.totalShares + bought && w.totalDebt == v.totalDebt
               && (if v.totalShares == 0 then bought == amount - fee
                   else count <= bought <==> count * Assets(v.funds) <= (amount - fee) * v.totalShares)
    ensures forall x :: x != u ==> AccountOf(Apply(v, Deposit(u, amount)).value, x) == AccountOf(v, x)
  {
    var net := amount - Bps(amount, v.fees.deposit);
    var f := v.funds.(idle := v.funds.idle + net);
    assert Assets(f) == Assets(v.funds) + net;
    if AllocationFrom(f.strategies, 0) > 0 { DeployConserves(f, net, AllocationFrom(f.strategies, 0), 0); }
    if v.totalShares > 0 { DivAtLeast(net * v.totalShares, Assets(v.funds), count); }
  }

  /** A withdrawal takes out the most that its part of the shares is worth. */
  lemma WithdrawPays(v: Vault, u: User, shares: nat, count: nat)
    requires Apply(v, Withdraw(u, shares)).Some?
    ensures var w := Apply(v, Withdraw(u, shares)).value;
            && v.totalShares >= shares && AccountOf(v, u).shares >= shares > 0
            && Assets(w.funds) <= Assets(v.funds)
            && (count <= Assets(v.funds) - Assets(w.funds) <==> count * v.totalShares <= shares * Assets(v.funds))
            && AccountOf(w, u) == AccountOf(v, u).(shares := AccountOf(v, u).shares - shares)
            && w.totalShares == v.totalShares - shares && w.totalDebt == v.totalDebt
            && forall x :: x != u ==> AccountOf(w, x) == AccountOf(v, x)
  {
    PullConserves(v.funds, WorthIn(v, shares));
    DivAtLeast(shares * Assets(v.funds), v.totalShares, count);
  }

  /** A harvest adds the gain of the strategy less the floored performance fee; one of all, that of all active ones together. */
  lemma HarvestAdds(v: Vault, op: Op, fee: nat)
    requires (op.Harvest? || op.HarvestAll?) && Apply(v, op).Some?
    ensures var w := Apply(v, op).value;
            var gain := if op.Harvest? then op.gain else ActiveYield(v.funds.strategies, op.gains, 0);
            && Assets(v.funds) <= Assets(w.funds) <= Assets(v.funds) + gain
            && (fee <= gain - (Assets(w.funds) - Assets(v.funds)) <==> fee * 10000 <= gain * v.fees.performance)
            && w.accounts == v.accounts && w.totalShares == v.totalShares && w.totalDebt == v.totalDebt
  {
    var gain := if op.Harvest? then op.gain else ActiveYield(v.funds.strategies, op.gains, 0);
    ShareAtMost(gain, v.fees.performance, BASIS_POINTS);
    FeeIs(gain, v.fees.performance, fee);
  }

  // ---------------------------------------------------------------- the strategies' parts

  /** Strategy k has the same terms in g as in f, and holds `amount` recorded. */
  ghost predicate Holds(f: Funds, g: Funds, k: nat, amount: nat) {
    k < |f.strategies| == |g.strategies| && g.strategies[k] == f.strategies[k].(deposited := amount)
  }

  lemma {:induction false} DeployReaches(f: Funds, amount: nat, total: nat, i: nat, k: nat)
    requires i <= |f.strategies| && k < |f.strategies| && total > 0 && DeployFrom(f, amount, total, i).Some?
    ensures var s := f.strategies[k];
            Holds(f, DeployFrom(f, amount, total, i).value, k,
                  s.deposited + if k >= i && s.active then Share(amount, s.allocation, total) else 0)
    decreases |f.strategies| - i
  {
    if i < |f.strategies| {
      var s := f.strategies[i];
      var x := Share(amount, s.allocation, total);
      if !s.active || x == 0 { DeployReaches(f, amount, total, i + 1, k); } else { DeployReaches(Wrap(f, i, x).value, amount, total, i + 1, k); }
    }
  }

  /** A deposit reaches every active strategy by the most that its part of the allocation gives, and no other. */
  lemma DeploysProRata(f: Funds, amount: nat, k: nat, count: nat)
    requires k < |f.strategies| && Deploy(f, amount).Some?
    ensures var g, total, s := Deploy(f, amount).value, AllocationFrom(f.strategies, 0), f.strategies[k];
            && |g.strategies| == |f.strategies| && g.strategies[k].deposited >= s.deposited
            && g.strategies[k] == s.(deposited := g.strategies[k].deposited)
            && var x := g.strategies[k].deposited - s.deposited;
               if s.active && total > 0 then count <= x <==> count * total <= amount * s.allocation else x == 0
  {
    var total, s := AllocationFrom(f.strategies, 0), f.strategies[k];
    if total > 0 {
      DeployReaches(f, amount, total, 0, k);
      DivAtLeast(amount * s.allocation, total, count);
    }
  }

  lemma {:induction false} RebalanceReaches(f: Funds, assets: nat, total: nat, i: nat, k: nat)
    requires i <= |f.strategies| && k < |f.strategies| && RebalanceFrom(f, assets, total, i).Some?
    ensures var s := f.strategies[k];
            if k >= i && s.active then total > 0 && Holds(f, RebalanceFrom(f, assets, total, i).value, k, Share(assets, s.allocation, total))
            else Holds(f, RebalanceFrom(f, assets, total, i).value, k, s.deposited)
    decreases |f.strategies| - i
  {
    if i < |f.strategies| { RebalanceReaches(Rebalanced(f, assets, total, i).value, assets, total, i + 1, k); }
  }

  /** After a rebalance every active strategy holds the most that its part of the allocation gives it of all assets. */
  lemma RebalanceIsProRata(v: Vault, k: nat, count: nat)
    requires k < |v.funds.strategies| && Apply(v, Rebalance).Some?
    ensures var w, total, s := Apply(v, Rebalance).value, AllocationFrom(v.funds.strategies, 0), v.funds.strategies[k];
            && |w.funds.strategies| == |v.funds.strategies|
            && w.funds.strategies[k] == s.(deposited := w.funds.strategies[k].deposited)
            && (if s.active then count <= w.funds.strategies[k].deposited <==> count * total <= Assets(v.funds) * s.allocation
                else w.funds.strategies[k].deposited == s.deposited)
            && w.accounts == v.accounts && w.totalShares == v.totalShares && w.totalDebt == v.totalDebt
  {
    var total, s := AllocationFrom(v.funds.strategies, 0), v.funds.strategies[k];
    RebalanceReaches(v.funds, Assets(v.funds), total, 0, k);
    if s.active { DivAtLeast(Assets(v.funds) * s.allocation, total, count); }
  }

  // ---------------------------------------------------------------- when calls commit

  /** Deployment never lacks the tokens: what is left after the first i strategies is enough for the rest. */
  lemma {:induction false} DeployGoesThrough(f: Funds, amount: nat, total: nat, i: nat)
    requires i <= |f.strategies| && total > 0 && f.idle * total >= amount * AllocationFrom(f.strategies, i)
    ensures DeployFrom(f, amount, total, i).Some?
    decreases |f.strategies| - i
  {
    if i < |f.strategies| {
      var s := f.strategies[i];
      var x := Share(amount, s.allocation, total);
      if !s.active || x == 0 {
        assert AllocationFrom(f.strategies, i) >= AllocationFrom(f.strategies, i + 1);
        MulMono(amount, amount, AllocationFrom(f.strategies, i + 1), AllocationFrom(f.strategies, i));
        DeployGoesThrough(f, amount, total, i + 1);
      } else {
        var rest := AllocationFrom(f.strategies, i + 1);
        LeavesRest(f.idle, amount, total, s.allocation, rest, x);
        var g := Wrap(f, i, x).value;
        SameAllocation(f.strategies, g.strategies, i + 1);
        DeployGoesThrough(g, amount, total, i + 1);
      }
    }
  }

  lemma LeavesRest(idle: nat, amount: nat, total: nat, allocation: nat, rest: nat, x: nat)
    requires total > 0 && idle * total >= amount * (allocation + rest) && x == Share(amount, allocation, total)
    ensures x <= idle && (idle - x) * total >= amount * rest
  {
    DivBounds(amount * allocation, total);
    assert amount * (allocation + rest) == amount * allocation + amount * rest;
    assert x * total <= idle * total;
    MulCancel(x, idle, total);
    assert (idle - x) * total == idle * total - x * total;
  }

  lemma {:induction false} SameAllocation(a: seq<Strategy>, b: seq<Strategy>, i: nat)
    requires i <= |a| == |b| && forall k :: i <= k < |a| ==> a[k] == b[k]
    ensures AllocationFrom(a, i) == AllocationFrom(b, i)
    decreases |a| - i
  {
    if i < |a| { SameAllocation(a, b, i + 1); }
  }

  /** A deposit of anything commits, unless shares are out that no assets stand behind. */
  lemma DepositCommitsIff(v: Vault, u: User, amount: nat)
    requires Inv(v)
    ensures Apply(v, Deposit(u, amount)).Some? <==> amount > 0 && (v.totalShares > 0 ==> Assets(v.funds) > 0)
  {
    ShareAtMost(amount, v.fees.deposit, BASIS_POINTS);
    var net := amount - Bps(amount, v.fees.deposit);
    var f := v.funds.(idle := v.funds.idle + net);
    var total := AllocationFrom(f.strategies, 0);
    if total > 0 {
      MulMono(net, f.idle, total, total);
      DeployGoesThrough(f, net, total, 0);
    }
  }

  /** A withdrawal commits exactly for shares the user has, when the rest still covers the debt by 150% and the funds can pay. */
  lemma WithdrawCommitsIff(v: Vault, u: User, shares: nat)
    requires Inv(v)
    ensures var a := AccountOf(v, u);
            Apply(v, Withdraw(u, shares)).Some?
            <==> 0 < shares <= a.shares && (a.debt > 0 ==> a.debt * 3 < (WorthIn(v, a.shares - shares) + 1) * 2)
                 && Payable(v.funds, WorthIn(v, shares))
  {
    var a := AccountOf(v, u);
    SharesWithinTotal(v, u);
    if shares <= a.shares { CoversIff(a.debt, WorthIn(v, a.shares - shares)); }
    ShareAtMost(WorthIn(v, shares), v.fees.withdrawal, BASIS_POINTS);
  }

  /** Adding a strategy appends an empty active record, up to ten of them; its allocation is the one last set. */
  lemma StrategyRecords(v: Vault, adapter: Adapter, allocation: nat, i: nat)
    ensures Apply(v, AddStrategy(adapter, allocation)).Some? <==> |v.funds.strategies| < 10
    ensures Apply(v, AddStrategy(adapter, allocation)).Some? ==>
              Apply(v, AddStrategy(adapter, allocation)).value.funds
              == v.funds.(strategies := v.funds.strategies + [Strategy(adapter, allocation, 0, true)])
    ensures Apply(v, SetAllocation(i, allocation)).Some? <==> i < |v.funds.strategies|
    ensures i < |v.funds.strategies| ==>
              var w := Apply(v, SetAllocation(i, allocation)).value;
              && |w.funds.strategies| == |v.funds.strategies| && w.funds.strategies[i] == v.funds.strategies[i].(allocation := allocation)
              && (forall k :: 0 <= k < |v.funds.strategies| && k != i ==> w.funds.strategies[k] == v.funds.strategies[k])
              && w.funds.idle == v.funds.idle && w.accounts == v.accounts
  {
  }

  /** A single harvest needs an active strategy. */
  lemma HarvestCommitsIff(v: Vault, i: nat, gain: nat)
    requires Inv(v)
    ensures Apply(v, Harvest(i, gain)).Some? <==> i < |v.funds.strategies| && v.funds.strategies[i].active
  {
  }

  /** Fees are set within 5%, 5% and 30%, and then are those of the next deposit, withdrawal and harvest. */
  lemma FeesGovernNext(v: Vault, fees: Fees)
    ensures Apply(v, SetFees(fees)).Some? <==> fees.deposit * 20 <= 10000 && fees.withdrawal * 20 <= 10000 && fees.performance * 10 <= 30000
    ensures Apply(v, SetFees(fees)).Some? ==> Apply(v, SetFees(fees)).value == v.(fees := fees)
  {
  }
}
