/**
 A lending vault over yield strategies. Depositors hold shares of everything the vault has; borrowers
 mint debt against their shares at 150% and could be liquidated below 110%.
 */
module VaultModel {
  import opened Options
  import opened Numbers
  import opened MapSums

  const BASIS_POINTS := 10000
  const MINIMUM_COLLATERAL_RATIO := 15000
  const LIQUIDATION_RATIO := 11000
  const MAX_STRATEGIES := 10

  type User = nat

  type Adapter = nat

  /** What the vault records about a strategy; nothing stops two records from naming the same adapter. */
  datatype Strategy = Strategy(adapter: Adapter, allocation: nat, deposited: nat, active: bool)

  datatype Account = Account(shares: nat, debt: nat)

  /** The vault's own underlying, its records, and what each adapter really holds for it; an exact adapter pays one for one. */
  datatype Funds = Funds(idle: nat, strategies: seq<Strategy>, held: map<Adapter, nat>)

  datatype Fees = Fees(deposit: nat, withdrawal: nat, performance: nat)

  datatype Vault = Vault(funds: Funds, totalShares: nat, totalDebt: nat, accounts: map<User, Account>, fees: Fees)

  datatype Op =
    | Deposit(user: User, amount: nat)
    | Withdraw(user: User, shares: nat)
    | Mint(user: User, amount: nat)
    | Burn(user: User, amount: nat)
    | Liquidate(user: User)
    | AddStrategy(adapter: Adapter, allocation: nat)
    | RemoveStrategy(index: nat)
    | SetAllocation(index: nat, allocation: nat)
    | Harvest(index: nat, gain: nat)
    | HarvestAll(gains: seq<nat>)
    | Rebalance
    | SetFees(fees: Fees)
    | SendUnderlying(amount: nat)

  const EMPTY := Vault(Funds(0, [], map[]), 0, 0, map[], Fees(0, 0, 1000))

  // ---------------------------------------------------------------- funds

  /** What a record counts for in the vault's assets: on any adapter, or on one. */
  function Counted(s: Strategy, on: Option<Adapter>): nat {
    if s.active && (on.None? || on.value == s.adapter) then s.deposited else 0
  }

  function CountedFrom(ss: seq<Strategy>, on: Option<Adapter>, i: nat): nat
    requires i <= |ss|
    decreases |ss| - i
  {
    if i == |ss| then 0 else Counted(ss[i], on) + CountedFrom(ss, on, i + 1)
  }

  /** `_totalAssets`: idle underlying and what the active records say. */
  function Assets(f: Funds): nat { f.idle + CountedFrom(f.strategies, None, 0) }

  function HeldBy(f: Funds, a: Adapter): nat { if a in f.held then f.held[a] else 0 }

  function AllocationFrom(ss: seq<Strategy>, i: nat): nat
    requires i <= |ss|
    decreases |ss| - i
  {
    if i == |ss| then 0 else (if ss[i].active then ss[i].allocation else 0) + AllocationFrom(ss, i + 1)
  }

  /** Into the adapter of strategy i: fails when the vault does not have it. */
  function Wrap(f: Funds, i: nat, x: nat): Option<Funds>
    requires i < |f.strategies|
  {
    var s := f.strategies[i];
    if x > f.idle then None
    else Some(Funds(f.idle - x, f.strategies[i := s.(deposited := s.deposited + x)], f.held[s.adapter := HeldBy(f, s.adapter) + x]))
  }

  /** Out of an adapter: fails when it does not hold that much for the vault. */
  function Drawn(f: Funds, a: Adapter, x: nat): Option<Funds> {
    if x == 0 then Some(f)
    else if x > HeldBy(f, a) then None
    else Some(f.(idle := f.idle + x, held := f.held[a := HeldBy(f, a) - x]))
  }

  /** Out of the adapter of strategy i, and off its record. */
  function Unwrap(f: Funds, i: nat, x: nat): Option<Funds>
    requires i < |f.strategies| && x <= f.strategies[i].deposited
  {
    var s := f.strategies[i];
    match Drawn(f, s.adapter, x)
    case None => None
    case Some(g) => Some(g.(strategies := f.strategies[i := s.(deposited := s.deposited - x)]))
  }

  /** `_deployToStrategies` from strategy i on. */
  function DeployFrom(f: Funds, amount: nat, total: nat, i: nat): Option<Funds>
    requires i <= |f.strategies| && total > 0
    decreases |f.strategies| - i
  {
    if i == |f.strategies| then Some(f)
    else if !f.strategies[i].active then DeployFrom(f, amount, total, i + 1)
    else
      var x := Share(amount, f.strategies[i].allocation, total);
      if x == 0 then DeployFrom(f, amount, total, i + 1)
      else match Wrap(f, i, x)
           case None => None
           case Some(g) => DeployFrom(g, amount, total, i + 1)
  }

  function Deploy(f: Funds, amount: nat): Option<Funds> {
    var total := AllocationFrom(f.strategies, 0);
    if total == 0 then Some(f) else DeployFrom(f, amount, total, 0)
  }

  /** The loop of `_withdrawFromStrategies` from strategy i on, with `needed` still missing. */
  function PullFrom(f: Funds, needed: nat, i: nat): Option<Funds>
    requires i <= |f.strategies|
    decreases |f.strategies| - i
  {
    if i == |f.strategies| || needed == 0 then Some(f)
    else
      var s := f.strategies[i];
      if !s.active || s.deposited == 0 then PullFrom(f, needed, i + 1)
      else
        var x := if needed > s.deposited then s.deposited else needed;
        match Unwrap(f, i, x)
        case None => None
        case Some(g) => PullFrom(g, needed - x, i + 1)
  }

  function Pull(f: Funds, amount: nat): Option<Funds> {
    if f.idle >= amount then Some(f) else PullFrom(f, amount - f.idle, 0)
  }

  /** What `rebalance` does to strategy i: moves it to its target if it is active. */
  function Rebalanced(f: Funds, assets: nat, total: nat, i: nat): Option<Funds>
    requires i < |f.strategies|
  {
    if !f.strategies[i].active then Some(f)
    else if total == 0 then None
    else
      var target, deposited := Share(assets, f.strategies[i].allocation, total), f.strategies[i].deposited;
      if deposited > target then Unwrap(f, i, deposited - target)
      else if deposited < target then Wrap(f, i, target - deposited)
      else Some(f)
  }

  function RebalanceFrom(f: Funds, assets: nat, total: nat, i: nat): Option<Funds>
    requires i <= |f.strategies|
    decreases |f.strategies| - i
  {
    if i == |f.strategies| then Some(f)
    else match Rebalanced(f, assets, total, i)
         case None => None
         case Some(g) => RebalanceFrom(g, assets, total, i + 1)
  }

  /** `removeStrategy`: everything recorded is unwrapped; the record keeps its amount and can be removed again. */
  function Removed(f: Funds, i: nat): Option<Funds>
    requires i < |f.strategies|
  {
    var s := f.strategies[i];
    match Drawn(f, s.adapter, s.deposited)
    case None => None
    case Some(g) => Some(g.(strategies := f.strategies[i := s.(active := false, allocation := 0)]))
  }

  // ---------------------------------------------------------------- shares

  function AccountOf(v: Vault, u: User): Account {
    if u in v.accounts then v.accounts[u] else Account(0, 0)
  }

  /** `_sharesToUnderlying`. */
  function Worth(shares: nat, assets: nat, totalShares: nat): nat {
    if totalShares == 0 then 0 else Share(shares, assets, totalShares)
  }

  function WorthIn(v: Vault, shares: nat): nat { Worth(shares, Assets(v.funds), v.totalShares) }

  /** `_calculateShares`; None where it divides by zero. */
  function SharesFor(v: Vault, amount: nat): Option<nat> {
    if v.totalShares == 0 then Some(amount)
    else if Assets(v.funds) == 0 then None
    else Some(Share(amount, v.totalShares, Assets(v.funds)))
  }

  // ---------------------------------------------------------------- operations

  /** The liquidator's reward: the debt and 10%, capped by the collateral. */
  function Reward(debt: nat, worth: nat): nat {
    if Bps(debt, 11000) > worth then worth else Bps(debt, 11000)
  }

  /** Shares for the collateral a liquidation leaves; None where it divides by zero. */
  function SharesLeft(worth: nat, reward: nat, totalShares: nat, assets: nat): Option<nat> {
    if worth <= reward then Some(0)
    else if assets == 0 then None
    else Some(Share(worth - reward, totalShares, assets))
  }

  function ActiveYield(ss: seq<Strategy>, gains: seq<nat>, i: nat): nat
    requires i <= |ss| == |gains|
    decreases |ss| - i
  {
    if i == |ss| then 0 else (if ss[i].active then gains[i] else 0) + ActiveYield(ss, gains, i + 1)
  }

  function Harvested(v: Vault, gain: nat): Vault
    requires v.fees.performance <= BASIS_POINTS
  {
    ShareAtMost(gain, v.fees.performance, BASIS_POINTS);
    v.(funds := v.funds.(idle := v.funds.idle + (gain - Bps(gain, v.fees.performance))))
  }

  function Deposited(v: Vault, u: User, amount: nat): Option<Vault> {
    if amount == 0 || Bps(amount, v.fees.deposit) > amount then None
    else
      var net := amount - Bps(amount, v.fees.deposit);
      (match SharesFor(v, net)
       case None => None
       case Some(shares) =>
         match Deploy(v.funds.(idle := v.funds.idle + net), net)
         case None => None
         case Some(f) =>
           var a := AccountOf(v, u);
           Some(v.(funds := f, totalShares := v.totalShares + shares,
                   accounts := v.accounts[u := a.(shares := a.shares + shares)])))
  }

  function Withdrawn(v: Vault, u: User, shares: nat): Option<Vault> {
    var a := AccountOf(v, u);
    if shares == 0 || a.shares < shares || v.totalShares < shares then None
    else if a.debt > 0 && WorthIn(v, a.shares - shares) < Bps(a.debt, MINIMUM_COLLATERAL_RATIO) then None
    else
      var amount := WorthIn(v, shares);
      (match Pull(v.funds, amount)
       case None => None
       case Some(f) =>
         if f.idle < amount || Bps(amount, v.fees.withdrawal) > amount then None
         else Some(v.(funds := f.(idle := f.idle - amount), totalShares := v.totalShares - shares,
                      accounts := v.accounts[u := a.(shares := a.shares - shares)])))
  }

  function Liquidated(v: Vault, u: User): Option<Vault> {
    var a := AccountOf(v, u);
    var worth := WorthIn(v, a.shares);
    if a.debt == 0 || worth >= Bps(a.debt, LIQUIDATION_RATIO) then None
    else Seized(v, u, a, worth, Reward(a.debt, worth))
  }

  function Seized(v: Vault, u: User, a: Account, worth: nat, reward: nat): Option<Vault> {
    match Pull(v.funds, reward)
    case None => None
    case Some(f) =>
      match SharesLeft(worth, reward, v.totalShares, Assets(f))
      case None => None
      case Some(left) =>
        if f.idle < reward || left > a.shares || v.totalShares < a.shares - left || v.totalDebt < a.debt then None
        else Some(v.(funds := f.(idle := f.idle - reward), totalDebt := v.totalDebt - a.debt,
                     totalShares := v.totalShares - (a.shares - left), accounts := v.accounts[u := Account(left, 0)]))
  }

  /** The state after a committed call; None when it reverts. */
  function Apply(v: Vault, op: Op): Option<Vault> {
    match op
    case Deposit(u, amount) => Deposited(v, u, amount)
    case Withdraw(u, shares) => Withdrawn(v, u, shares)
    case Mint(u, amount) =>
      var a := AccountOf(v, u);
      if amount == 0 || WorthIn(v, a.shares) < Bps(a.debt + amount, MINIMUM_COLLATERAL_RATIO) then None
      else Some(v.(totalDebt := v.totalDebt + amount, accounts := v.accounts[u := a.(debt := a.debt + amount)]))
    case Burn(u, amount) =>
      var a := AccountOf(v, u);
      var x := if a.debt < amount then a.debt else amount;
      if amount == 0 || v.totalDebt < x then None
      else Some(v.(totalDebt := v.totalDebt - x, accounts := v.accounts[u := a.(debt := a.debt - x)]))
    case Liquidate(u) => Liquidated(v, u)
    case AddStrategy(adapter, allocation) =>
      if |v.funds.strategies| >= MAX_STRATEGIES then None
      else Some(v.(funds := v.funds.(strategies := v.funds.strategies + [Strategy(adapter, allocation, 0, true)])))
    case RemoveStrategy(i) =>
      if i >= |v.funds.strategies| then None
      else (match Removed(v.funds, i) case None => None case Some(f) => Some(v.(funds := f)))
    case SetAllocation(i, allocation) =>
      if i >= |v.funds.strategies| then None
      else Some(v.(funds := v.funds.(strategies := v.funds.strategies[i := v.funds.strategies[i].(allocation := allocation)])))
    case Harvest(i, gain) =>
      if i >= |v.funds.strategies| || !v.funds.strategies[i].active || v.fees.performance > BASIS_POINTS then None
      else Some(Harvested(v, gain))
    case HarvestAll(gains) =>
      if |gains| != |v.funds.strategies| || v.fees.performance > BASIS_POINTS then None
      else Some(Harvested(v, ActiveYield(v.funds.strategies, gains, 0)))
    case Rebalance =>
      (match RebalanceFrom(v.funds, Assets(v.funds), AllocationFrom(v.funds.strategies, 0), 0)
       case None => None
       case Some(f) => Some(v.(funds := f)))
    case SetFees(fees) =>
      if fees.deposit > 500 || fees.withdrawal > 500 || fees.performance > 3000 then None else Some(v.(fees := fees))
    case SendUnderlying(amount) => Some(v.(funds := v.funds.(idle := v.funds.idle + amount)))
  }

  function Run(v: Vault, ops: seq<Op>): Vault
    decreases |ops|
  {
    if ops == [] then v
    else match Apply(v, ops[0])
         case None => Run(v, ops[1..])
         case Some(w) => Run(w, ops[1..])
  }

  // ---------------------------------------------------------------- records and holdings

  /** By how much the active records of an adapter exceed what it holds. */
  function Shortfall(f: Funds, a: Adapter): int { CountedFrom(f.strategies, Some(a), 0) - HeldBy(f, a) }

  lemma {:induction false} CountedUpdate(ss: seq<Strategy>, on: Option<Adapter>, i: nat, k: nat, s: Strategy)
    requires i <= k < |ss|
    ensures CountedFrom(ss[k := s], on, i) == CountedFrom(ss, on, i) - Counted(ss[k], on) + Counted(s, on)
    decreases |ss| - i
  {
    if i == k { CountedTail(ss, ss[k := s], on, k + 1); } else { CountedUpdate(ss, on, i + 1, k, s); }
  }

  lemma {:induction false} CountedTail(ss: seq<Strategy>, tt: seq<Strategy>, on: Option<Adapter>, i: nat)
    requires |ss| == |tt| && i <= |ss| && forall k :: i <= k < |ss| ==> Counted(ss[k], on) == Counted(tt[k], on)
    ensures CountedFrom(ss, on, i) == CountedFrom(tt, on, i)
    decreases |ss| - i
  {
    if i < |ss| { CountedTail(ss, tt, on, i + 1); }
  }

  lemma {:induction false} CountedAppend(ss: seq<Strategy>, on: Option<Adapter>, s: Strategy, i: nat)
    requires i <= |ss|
    ensures CountedFrom(ss + [s], on, i) == CountedFrom(ss, on, i) + Counted(s, on)
    decreases |ss| - i
  {
    if i < |ss| { CountedAppend(ss, on, s, i + 1); } else { assert CountedFrom(ss + [s], on, i + 1) == 0; }
  }

  /** The same recorded assets, and the same shortfall at every adapter. */
  ghost predicate SameBooks(f: Funds, g: Funds) { Assets(g) == Assets(f) && forall a :: Shortfall(g, a) == Shortfall(f, a) }

  /** Moving funds in or out of an active strategy only moves them. */
  lemma MoveConserves(f: Funds, i: nat, x: nat)
    requires i < |f.strategies| && f.strategies[i].active
    ensures Wrap(f, i, x).Some? ==> SameBooks(f, Wrap(f, i, x).value)
    ensures x <= f.strategies[i].deposited && Unwrap(f, i, x).Some? ==> SameBooks(f, Unwrap(f, i, x).value)
  {
    var s := f.strategies[i];
    forall on { CountedUpdate(f.strategies, on, 0, i, s.(deposited := s.deposited + x)); }
    if x <= s.deposited {
      forall on { CountedUpdate(f.strategies, on, 0, i, s.(deposited := s.deposited - x)); }
    }
  }

  lemma {:induction false} DeployConserves(f: Funds, amount: nat, total: nat, i: nat)
    requires i <= |f.strategies| && total > 0 && DeployFrom(f, amount, total, i).Some?
    ensures SameBooks(f, DeployFrom(f, amount, total, i).value)
    decreases |f.strategies| - i
  {
    if i < |f.strategies| {
      var x := Share(amount, f.strategies[i].allocation, total);
      if f.strategies[i].active && x > 0 {
        MoveConserves(f, i, x);
        DeployConserves(Wrap(f, i, x).value, amount, total, i + 1);
      } else {
        DeployConserves(f, amount, total, i + 1);
      }
    }
  }

  lemma {:induction false} PullFromConserves(f: Funds, needed: nat, i: nat)
    requires i <= |f.strategies| && PullFrom(f, needed, i).Some?
    ensures SameBooks(f, PullFrom(f, needed, i).value)
    decreases |f.strategies| - i
  {
    if i < |f.strategies| && needed > 0 {
      var s := f.strategies[i];
      if s.active && s.deposited > 0 {
        var x := if needed > s.deposited then s.deposited else needed;
        MoveConserves(f, i, x);
        PullFromConserves(Unwrap(f, i, x).value, needed - x, i + 1);
      } else {
        PullFromConserves(f, needed, i + 1);
      }
    }
  }

  lemma PullConserves(f: Funds, amount: nat)
    requires Pull(f, amount).Some?
    ensures SameBooks(f, Pull(f, amount).value)
  {
    if f.idle < amount { PullFromConserves(f, amount - f.idle, 0); }
  }

  lemma {:induction false} RebalanceConserves(f: Funds, assets: nat, total: nat, i: nat)
    requires i <= |f.strategies| && RebalanceFrom(f, assets, total, i).Some?
    ensures SameBooks(f, RebalanceFrom(f, assets, total, i).value)
    decreases |f.strategies| - i
  {
    if i < |f.strategies| {
      if f.strategies[i].active {
        var target, deposited := Share(assets, f.strategies[i].allocation, total), f.strategies[i].deposited;
        MoveConserves(f, i, if deposited > target then deposited - target else target - deposited);
      }
      RebalanceConserves(Rebalanced(f, assets, total, i).value, assets, total, i + 1);
    }
  }

  /** A removal of a record that was removed before and still carries an amount. */
  predicate Stale(f: Funds, i: nat) { i < |f.strategies| && !f.strategies[i].active && f.strategies[i].deposited > 0 }

  /**
   Removing an active strategy brings its deposit home. Removing a removed one again draws the amount
   once more, out of whatever the adapter holds for other records: recorded assets rise by it, and the
   adapter is short by it.
   */
  lemma RemovalMoves(f: Funds, i: nat, a: Adapter)
    requires i < |f.strategies| && Removed(f, i).Some?
    ensures var g, s := Removed(f, i).value, f.strategies[i];
            && Assets(g) == Assets(f) + (if Stale(f, i) then s.deposited else 0)
            && Shortfall(g, a) == Shortfall(f, a) + (if Stale(f, i) && s.adapter == a then s.deposited else 0)
  {
    var s := f.strategies[i];
    forall on { CountedUpdate(f.strategies, on, 0, i, s.(active := false, allocation := 0)); }
  }

  // ---------------------------------------------------------------- when the funds can pay

  /** From strategy i on, no adapter is short of what its active records say. */
  ghost predicate CoveredFrom(f: Funds, i: nat)
    requires i <= |f.strategies|
  {
    forall a :: CountedFrom(f.strategies, Some(a), i) <= HeldBy(f, a)
  }

  lemma {:induction false} CountedOnAtMost(ss: seq<Strategy>, a: Adapter, i: nat)
    requires i <= |ss|
    ensures CountedFrom(ss, Some(a), i) <= CountedFrom(ss, None, i)
    decreases |ss| - i
  {
    if i < |ss| { CountedOnAtMost(ss, a, i + 1); }
  }

  /** After unwrapping x from strategy i, what the later records say is as before. */
  lemma UnwrapLeavesTail(f: Funds, i: nat, x: nat, on: Option<Adapter>)
    requires i < |f.strategies| && x <= f.strategies[i].deposited && Unwrap(f, i, x).Some?
    ensures CountedFrom(Unwrap(f, i, x).value.strategies, on, i + 1) == CountedFrom(f.strategies, on, i + 1)
  {
    CountedTail(f.strategies, Unwrap(f, i, x).value.strategies, on, i + 1);
  }

  /** Covered adapters always yield what their records say, and the loop stops at exactly what is needed. */
  lemma {:induction false} PullFinds(f: Funds, needed: nat, i: nat)
    requires i <= |f.strategies| && CoveredFrom(f, i) && needed <= CountedFrom(f.strategies, None, i)
    ensures PullFrom(f, needed, i).Some? && PullFrom(f, needed, i).value.idle == f.idle + needed
    decreases |f.strategies| - i
  {
    if i < |f.strategies| && needed > 0 {
      var s := f.strategies[i];
      assert CountedFrom(f.strategies, Some(s.adapter), i) <= HeldBy(f, s.adapter);
      if s.active && s.deposited > 0 {
        var x := if needed > s.deposited then s.deposited else needed;
        var g := Unwrap(f, i, x).value;
        UnwrapLeavesTail(f, i, x, None);
        forall a ensures CountedFrom(g.strategies, Some(a), i + 1) <= HeldBy(g, a) {
          UnwrapLeavesTail(f, i, x, Some(a));
          assert CountedFrom(f.strategies, Some(a), i) <= HeldBy(f, a);
        }
        PullFinds(g, needed - x, i + 1);
      } else {
        forall a ensures CountedFrom(f.strategies, Some(a), i + 1) <= HeldBy(f, a) {
          assert CountedFrom(f.strategies, Some(a), i) <= HeldBy(f, a);
        }
        PullFinds(f, needed, i + 1);
      }
    }
  }

  /** And yielding everything the records say takes covered adapters. */
  lemma {:induction false} PullAllCovers(f: Funds, i: nat, a: Adapter)
    requires i <= |f.strategies| && PullFrom(f, CountedFrom(f.strategies, None, i), i).Some?
    ensures CountedFrom(f.strategies, Some(a), i) <= HeldBy(f, a)
    decreases |f.strategies| - i
  {
    CountedOnAtMost(f.strategies, a, i);
    if i < |f.strategies| && CountedFrom(f.strategies, None, i) > 0 {
      var s := f.strategies[i];
      if s.active && s.deposited > 0 {
        UnwrapLeavesTail(f, i, s.deposited, None);
        UnwrapLeavesTail(f, i, s.deposited, Some(a));
        PullAllCovers(Unwrap(f, i, s.deposited).value, i + 1, a);
      } else {
        PullAllCovers(f, i + 1, a);
      }
    }
  }

  /** The vault can bring together an amount. */
  ghost predicate Payable(f: Funds, amount: nat) { Pull(f, amount).Some? && Pull(f, amount).value.idle >= amount }

  lemma CoveredPays(f: Funds, amount: nat)
    requires CoveredFrom(f, 0) && amount <= Assets(f)
    ensures Payable(f, amount)
  {
    if f.idle < amount { PullFinds(f, amount - f.idle, 0); }
  }

  /** All recorded assets can be paid out if and only if no adapter is short. */
  lemma AllPayableIffCovered(f: Funds)
    ensures Payable(f, Assets(f)) <==> CoveredFrom(f, 0)
  {
    if CoveredFrom(f, 0) { CoveredPays(f, Assets(f)); }
    if Payable(f, Assets(f)) {
      forall a ensures CountedFrom(f.strategies, Some(a), 0) <= HeldBy(f, a) {
        CountedOnAtMost(f.strategies, a, 0);
        if f.idle < Assets(f) { PullAllCovers(f, 0, a); }
      }
    }
  }

  // ---------------------------------------------------------------- the invariant

  ghost function SharesOf(u: User, a: Account): int { a.shares }
  ghost function DebtOf(u: User, a: Account): int { a.debt }

  /** The user's shares are worth at least 150% of the debt. */
  ghost predicate Healthy(v: Vault, u: User) {
    WorthIn(v, AccountOf(v, u).shares) >= Bps(AccountOf(v, u).debt, MINIMUM_COLLATERAL_RATIO)
  }

  ghost predicate Inv(v: Vault) {
    && v.totalShares == Sum(v.accounts, SharesOf)
    && v.totalDebt == Sum(v.accounts, DebtOf)
    && v.fees.deposit <= 500 && v.fees.withdrawal <= 500 && v.fees.performance <= 3000
    && forall u :: Healthy(v, u)
  }

  /** Assets per share are no lower in w than in v. */
  ghost predicate PriceKept(v: Vault, w: Vault) {
    Assets(v.funds) * w.totalShares <= Assets(w.funds) * v.totalShares
  }

  lemma SharesWithinTotal(v: Vault, u: User)
    requires v.totalShares == Sum(v.accounts, SharesOf) && v.totalDebt == Sum(v.accounts, DebtOf)
    ensures AccountOf(v, u).shares <= v.totalShares && AccountOf(v, u).debt <= v.totalDebt
  {
    SumBounds(v.accounts, SharesOf, u);
    SumBounds(v.accounts, DebtOf, u);
  }

  lemma RequiredMono(d: nat, e: nat)
    requires d <= e
    ensures Bps(d, MINIMUM_COLLATERAL_RATIO) <= Bps(e, MINIMUM_COLLATERAL_RATIO)
    ensures d > 0 ==> Bps(d, MINIMUM_COLLATERAL_RATIO) > 0
    ensures Bps(d, LIQUIDATION_RATIO) <= Bps(d, MINIMUM_COLLATERAL_RATIO)
  {
  }

  /** Someone with no shares has no debt. */
  lemma NoSharesNoDebt(v: Vault, u: User)
    requires Healthy(v, u) && AccountOf(v, u).shares == 0
    ensures AccountOf(v, u).debt == 0
  {
    var d := AccountOf(v, u).debt;
    RequiredMono(d, d);
    if v.totalShares > 0 { DivUnique(0 * Assets(v.funds), v.totalShares, 0); }
  }

  lemma WorthMono(s: nat, t: nat, assets: nat, total: nat)
    requires s <= t
    ensures Worth(s, assets, total) <= Worth(t, assets, total)
  {
    if total > 0 {
      MulMono(s, t, assets, assets);
      DivMono(s * assets, t * assets, total);
    }
  }

  /** Health carries over when the price is kept, the shares do not fall and the debt does not rise. */
  lemma HealthCarries(v: Vault, w: Vault, u: User)
    requires Inv(v) && PriceKept(v, w)
    requires w.totalShares >= AccountOf(w, u).shares >= AccountOf(v, u).shares
    requires AccountOf(w, u).debt <= AccountOf(v, u).debt
    ensures Healthy(w, u)
  {
    var a, b := AccountOf(v, u), AccountOf(w, u);
    assert Healthy(v, u);
    SharesWithinTotal(v, u);
    RequiredMono(b.debt, a.debt);
    if a.shares == 0 { NoSharesNoDebt(v, u); } else {
      FractionMono(a.shares, Assets(v.funds), v.totalShares, Assets(w.funds), w.totalShares);
      WorthMono(a.shares, b.shares, Assets(w.funds), w.totalShares);
    }
  }

  lemma LedgersFollow(v: Vault, w: Vault, u: User, b: Account)
    requires Inv(v) && w.accounts == v.accounts[u := b]
    requires w.totalShares == v.totalShares - AccountOf(v, u).shares + b.shares
    requires w.totalDebt == v.totalDebt - AccountOf(v, u).debt + b.debt
    ensures w.totalShares == Sum(w.accounts, SharesOf) && w.totalDebt == Sum(w.accounts, DebtOf)
  {
    SumUpdate(v.accounts, SharesOf, u, b);
    SumUpdate(v.accounts, DebtOf, u, b);
  }

  /** Shares bought with a deposit are never worth more than the deposit. */
  lemma DepositPrice(assets: nat, total: nat, net: nat)
    requires assets > 0
    ensures assets * (total + Share(net, total, assets)) <= (assets + net) * total
  {
    DivBounds(net * total, assets);
    assert assets * (total + Share(net, total, assets)) == assets * total + Share(net, total, assets) * assets;
    assert (assets + net) * total == assets * total + net * total;
  }

  /** A deposit buys as many shares as its assets pay for at the price before, and a payout is the most the shares are worth. */
  lemma FairShares(v: Vault, net: nat, count: nat)
    requires v.totalShares > 0 && Assets(v.funds) > 0
    ensures count <= SharesFor(v, net).value <==> count * Assets(v.funds) <= net * v.totalShares
    ensures count <= WorthIn(v, net) <==> count * v.totalShares <= net * Assets(v.funds)
  {
    DivAtLeast(net * v.totalShares, Assets(v.funds), count);
    DivAtLeast(net * Assets(v.funds), v.totalShares, count);
  }

  lemma DepositKeeps(v: Vault, u: User, amount: nat)
    requires Inv(v) && Apply(v, Deposit(u, amount)).Some?
    ensures Inv(Apply(v, Deposit(u, amount)).value) && (v.totalShares > 0 ==> PriceKept(v, Apply(v, Deposit(u, amount)).value))
  {
    var w := Apply(v, Deposit(u, amount)).value;
    var net := amount - Bps(amount, v.fees.deposit);
    var f := v.funds.(idle := v.funds.idle + net);
    assert Assets(f) == Assets(v.funds) + net;
    if AllocationFrom(f.strategies, 0) > 0 { DeployConserves(f, net, AllocationFrom(f.strategies, 0), 0); }
    LedgersFollow(v, w, u, w.accounts[u]);
    if v.totalShares > 0 { DepositPrice(Assets(v.funds), v.totalShares, net); }
    forall x ensures Healthy(w, x) {
      SharesWithinTotal(w, x);
      SharesWithinTotal(v, x);
      assert Healthy(v, x);
      if v.totalShares == 0 { NoSharesNoDebt(v, x); } else { HealthCarries(v, w, x); }
    }
  }

  /** Paying out the floored worth of some shares leaves the price of the rest no lower. */
  lemma WithdrawPrice(assets: nat, total: nat, shares: nat)
    requires total > 0 && shares <= total
    ensures Worth(shares, assets, total) <= assets
    ensures assets * (total - shares) <= (assets - Worth(shares, assets, total)) * total
  {
    var amount := Worth(shares, assets, total);
    DivBounds(shares * assets, total);
    MulMono(shares, total, assets, assets);
    MulCancel(amount, assets, total);
    assert assets * (total - shares) == assets * total - shares * assets;
    assert (assets - amount) * total == assets * total - amount * total;
  }

  lemma WithdrawKeeps(v: Vault, u: User, shares: nat)
    requires Inv(v) && Apply(v, Withdraw(u, shares)).Some?
    ensures Inv(Apply(v, Withdraw(u, shares)).value) && PriceKept(v, Apply(v, Withdraw(u, shares)).value)
  {
    var w := Apply(v, Withdraw(u, shares)).value;
    var a := AccountOf(v, u);
    SharesWithinTotal(v, u);
    WithdrawPrice(Assets(v.funds), v.totalShares, shares);
    PullConserves(v.funds, WorthIn(v, shares));
    LedgersFollow(v, w, u, w.accounts[u]);
    forall x ensures Healthy(w, x) {
      SharesWithinTotal(w, x);
      if x != u {
        HealthCarries(v, w, x);
      } else {
        var left := a.shares - shares;
        RequiredMono(a.debt, a.debt);
        assert a.debt > 0 ==> WorthIn(v, left) >= Bps(a.debt, MINIMUM_COLLATERAL_RATIO) > 0;
        if w.totalShares > 0 { FractionMono(left, Assets(v.funds), v.totalShares, Assets(w.funds), w.totalShares); }
        else { DivUnique(0 * Assets(v.funds), v.totalShares, 0); }
      }
    }
  }

  /** Debt changes leave funds and shares alone. */
  lemma DebtKeeps(v: Vault, op: Op)
    requires Inv(v) && (op.Mint? || op.Burn?) && Apply(v, op).Some?
    ensures Inv(Apply(v, op).value) && PriceKept(v, Apply(v, op).value)
  {
    var w := Apply(v, op).value;
    LedgersFollow(v, w, op.user, w.accounts[op.user]);
    forall x ensures Healthy(w, x) {
      assert Healthy(v, x);
      SharesWithinTotal(v, x);
      if x != op.user || op.Burn? { HealthCarries(v, w, x); }
    }
  }

  /** No position meets the test in `liquidate`, so it always reverts. */
  lemma NeverLiquidatable(v: Vault, u: User)
    requires Inv(v)
    ensures AccountOf(v, u).debt == 0 || WorthIn(v, AccountOf(v, u).shares) >= Bps(AccountOf(v, u).debt, LIQUIDATION_RATIO)
    ensures Apply(v, Liquidate(u)) == None
  {
    assert Healthy(v, u);
    RequiredMono(AccountOf(v, u).debt, AccountOf(v, u).debt);
  }

  /** Calls that only move or add underlying: the total never falls and no account changes. */
  lemma FundsKeep(v: Vault, op: Op)
    requires Inv(v) && Apply(v, op).Some?
    requires op.AddStrategy? || op.RemoveStrategy? || op.SetAllocation? || op.Harvest? || op.HarvestAll? || op.Rebalance?
             || op.SetFees? || op.SendUnderlying?
    ensures Inv(Apply(v, op).value) && PriceKept(v, Apply(v, op).value)
    ensures Apply(v, op).value.totalShares == v.totalShares
  {
    var w := Apply(v, op).value;
    FundsNeverFall(v, op);
    MulMono(Assets(v.funds), Assets(w.funds), v.totalShares, v.totalShares);
    forall x ensures Healthy(w, x) {
      SharesWithinTotal(v, x);
      HealthCarries(v, w, x);
    }
  }

  lemma FundsNeverFall(v: Vault, op: Op)
    requires v.fees.performance <= 3000 && Apply(v, op).Some?
    requires op.AddStrategy? || op.RemoveStrategy? || op.SetAllocation? || op.Harvest? || op.HarvestAll? || op.Rebalance?
             || op.SetFees? || op.SendUnderlying?
    ensures Assets(Apply(v, op).value.funds) >= Assets(v.funds)
  {
    var w, f := Apply(v, op).value, v.funds;
    match op
    case AddStrategy(adapter, allocation) => CountedAppend(f.strategies, None, Strategy(adapter, allocation, 0, true), 0);
    case RemoveStrategy(i) => RemovalMoves(f, i, 0);
    case SetAllocation(i, allocation) => CountedUpdate(f.strategies, None, 0, i, f.strategies[i].(allocation := allocation));
    case Rebalance => RebalanceConserves(f, Assets(f), AllocationFrom(f.strategies, 0), 0);
    case Harvest(_, gain) => HarvestNeverFalls(v, gain);
    case HarvestAll(gains) => HarvestNeverFalls(v, ActiveYield(f.strategies, gains, 0));
    case SetFees(_) =>
    case SendUnderlying(_) =>
  }

  lemma HarvestNeverFalls(v: Vault, gain: nat)
    requires v.fees.performance <= BASIS_POINTS
    ensures Harvested(v, gain).funds.strategies == v.funds.strategies
    ensures Assets(Harvested(v, gain).funds) >= Assets(v.funds)
  {
    ShareAtMost(gain, v.fees.performance, BASIS_POINTS);
  }

  lemma StepKeeps(v: Vault, op: Op)
    requires Inv(v) && Apply(v, op).Some?
    ensures Inv(Apply(v, op).value)
    ensures v.totalShares > 0 ==> PriceKept(v, Apply(v, op).value)
  {
    match op
    case Deposit(u, amount) => DepositKeeps(v, u, amount);
    case Withdraw(u, shares) => WithdrawKeeps(v, u, shares);
    case Mint(_, _) => DebtKeeps(v, op);
    case Burn(_, _) => DebtKeeps(v, op);
    case Liquidate(u) => NeverLiquidatable(v, u);
    case _ => FundsKeep(v, op);
  }

  /** A call that may commit: if it does, the invariant holds after it as before. */
  lemma CallKeeps(v: Vault, op: Op)
    ensures Inv(v) && Apply(v, op).Some? ==> Inv(Apply(v, op).value)
  {
    if Inv(v) && Apply(v, op).Some? { StepKeeps(v, op); }
  }

  /** In every run: the ledgers add up, everyone stays at 150%, and nobody can ever be liquidated. */
  lemma {:induction false} RunKeeps(v: Vault, ops: seq<Op>)
    requires Inv(v)
    ensures Inv(Run(v, ops))
    ensures forall u :: Apply(Run(v, ops), Liquidate(u)) == None
    decreases |ops|
  {
    if ops == [] {
      forall u ensures Apply(v, Liquidate(u)) == None { NeverLiquidatable(v, u); }
    } else {
      match Apply(v, ops[0])
      case None => RunKeeps(v, ops[1..]);
      case Some(w) =>
        StepKeeps(v, ops[0]);
        RunKeeps(w, ops[1..]);
    }
  }

  /** The vault has shares outstanding at every point of the run. */
  ghost predicate NeverEmptied(v: Vault, ops: seq<Op>)
    decreases |ops|
  {
    && v.totalShares > 0
    && (ops != [] ==> NeverEmptied(match Apply(v, ops[0]) case None => v case Some(w) => w, ops[1..]))
  }

  /** As long as shares are outstanding, assets per share never fall. */
  lemma {:induction false} RunKeepsPrice(v: Vault, ops: seq<Op>)
    requires Inv(v) && NeverEmptied(v, ops)
    ensures Run(v, ops).totalShares > 0 && PriceKept(v, Run(v, ops))
    decreases |ops|
  {
    if ops != [] {
      match Apply(v, ops[0])
      case None => RunKeepsPrice(v, ops[1..]);
      case Some(w) =>
        StepKeeps(v, ops[0]);
        RunKeepsPrice(w, ops[1..]);
        PriceTransitive(v, w, Run(w, ops[1..]));
    }
  }

  lemma PriceTransitive(u: Vault, v: Vault, w: Vault)
    requires v.totalShares > 0 && PriceKept(u, v) && PriceKept(v, w)
    ensures PriceKept(u, w)
  {
    FractionTransitive(Assets(u.funds), u.totalShares, Assets(v.funds), v.totalShares, Assets(w.funds), w.totalShares);
  }

  // ---------------------------------------------------------------- when everyone can be paid

  /** What a committed call draws a second time from an adapter. */
  function Redrawn(v: Vault, op: Op, a: Adapter): nat {
    if op.RemoveStrategy? && Stale(v.funds, op.index) && v.funds.strategies[op.index].adapter == a
    then v.funds.strategies[op.index].deposited else 0
  }

  /** Nothing but a second removal makes an adapter short, and that by exactly what it draws. */
  lemma ShortfallMoves(v: Vault, op: Op, a: Adapter)
    requires Inv(v) && Apply(v, op).Some?
    ensures Shortfall(Apply(v, op).value.funds, a) == Shortfall(v.funds, a) + Redrawn(v, op, a)
  {
    var f, w := v.funds, Apply(v, op).value;
    match op
    case Deposit(_, amount) =>
      var net := amount - Bps(amount, v.fees.deposit);
      var g := f.(idle := f.idle + net);
      if AllocationFrom(g.strategies, 0) > 0 { DeployConserves(g, net, AllocationFrom(g.strategies, 0), 0); }
    case Withdraw(_, shares) => PullConserves(f, WorthIn(v, shares));
    case Liquidate(u) => NeverLiquidatable(v, u);
    case AddStrategy(adapter, allocation) => CountedAppend(f.strategies, Some(a), Strategy(adapter, allocation, 0, true), 0);
    case RemoveStrategy(i) => RemovalMoves(f, i, a);
    case SetAllocation(i, allocation) => CountedUpdate(f.strategies, Some(a), 0, i, f.strategies[i].(allocation := allocation));
    case Rebalance => RebalanceConserves(f, Assets(f), AllocationFrom(f.strategies, 0), 0);
    case _ =>
  }

  /** No committed call of the run removes a strategy a second time while its record still carries an amount. */
  predicate NoSecondRemoval(v: Vault, ops: seq<Op>)
    decreases |ops|
  {
    ops == [] ||
    match Apply(v, ops[0])
    case None => NoSecondRemoval(v, ops[1..])
    case Some(w) => !(ops[0].RemoveStrategy? && Stale(v.funds, ops[0].index)) && NoSecondRemoval(w, ops[1..])
  }

  /** Over a run adapters only ever become shorter, and some adapter does exactly when there is a second removal. */
  lemma {:induction false} RunShortfall(v: Vault, ops: seq<Op>)
    requires Inv(v)
    ensures forall a :: Shortfall(Run(v, ops).funds, a) >= Shortfall(v.funds, a)
    ensures NoSecondRemoval(v, ops) <==> forall a :: Shortfall(Run(v, ops).funds, a) == Shortfall(v.funds, a)
    decreases |ops|
  {
    if ops != [] {
      match Apply(v, ops[0])
      case None => RunShortfall(v, ops[1..]);
      case Some(w) =>
        StepKeeps(v, ops[0]);
        RunShortfall(w, ops[1..]);
        forall a { ShortfallMoves(v, ops[0], a); }
        if ops[0].RemoveStrategy? && Stale(v.funds, ops[0].index) {
          assert Redrawn(v, ops[0], v.funds.strategies[ops[0].index].adapter) > 0;
        }
    }
  }

  /** In every run of a new vault, all recorded assets can be paid out if and only if nobody removed a strategy a second time. */
  lemma AssetsPayableIffNoSecondRemoval(ops: seq<Op>)
    ensures var f := Run(EMPTY, ops).funds; Payable(f, Assets(f)) <==> NoSecondRemoval(EMPTY, ops)
  {
    EmptyInv();
    RunShortfall(EMPTY, ops);
    var f := Run(EMPTY, ops).funds;
    AllPayableIffCovered(f);
    if CoveredFrom(f, 0) {
      forall a ensures Shortfall(f, a) == 0 { assert CountedFrom(f.strategies, Some(a), 0) <= HeldBy(f, a) && Shortfall(EMPTY.funds, a) == 0; }
    }
    if NoSecondRemoval(EMPTY, ops) {
      forall a ensures CountedFrom(f.strategies, Some(a), 0) <= HeldBy(f, a) { assert Shortfall(f, a) == Shortfall(EMPTY.funds, a); }
    }
  }

  /** A withdrawal by someone without debt commits exactly when the funds can pay what the shares are worth. */
  lemma WithdrawsIffPayable(v: Vault, u: User, shares: nat)
    requires Inv(v) && 0 < shares <= AccountOf(v, u).shares && AccountOf(v, u).debt == 0
    ensures Apply(v, Withdraw(u, shares)).Some? <==> Payable(v.funds, WorthIn(v, shares))
  {
    SharesWithinTotal(v, u);
    ShareAtMost(WorthIn(v, shares), v.fees.withdrawal, BASIS_POINTS);
  }

  /** As long as no strategy is removed a second time, anyone without debt can leave with any part of their shares. */
  lemma WithdrawalAlwaysPaid(ops: seq<Op>, u: User, shares: nat)
    requires NoSecondRemoval(EMPTY, ops)
    ensures var v := Run(EMPTY, ops);
            0 < shares <= AccountOf(v, u).shares && AccountOf(v, u).debt == 0 ==> Apply(v, Withdraw(u, shares)).Some?
  {
    EmptyInv();
    RunKeeps(EMPTY, ops);
    AssetsPayableIffNoSecondRemoval(ops);
    var v := Run(EMPTY, ops);
    AllPayableIffCovered(v.funds);
    if 0 < shares <= AccountOf(v, u).shares && AccountOf(v, u).debt == 0 {
      SharesWithinTotal(v, u);
      WithdrawPrice(Assets(v.funds), v.totalShares, shares);
      CoveredPays(v.funds, WorthIn(v, shares));
      WithdrawsIffPayable(v, u, shares);
    }
  }

  /** And only then: whoever holds all the shares can redeem them all if and only if there was no second removal. */
  lemma LastHolderPaidIff(ops: seq<Op>, u: User)
    ensures var v := Run(EMPTY, ops);
            AccountOf(v, u).shares == v.totalShares > 0 && AccountOf(v, u).debt == 0
            ==> (Apply(v, Withdraw(u, v.totalShares)).Some? <==> NoSecondRemoval(EMPTY, ops))
  {
    EmptyInv();
    RunKeeps(EMPTY, ops);
    var v := Run(EMPTY, ops);
    if AccountOf(v, u).shares == v.totalShares > 0 && AccountOf(v, u).debt == 0 {
      WithdrawsIffPayable(v, u, v.totalShares);
      DivUnique(v.totalShares * Assets(v.funds), v.totalShares, Assets(v.funds));
      AssetsPayableIffNoSecondRemoval(ops);
    }
  }

  lemma RunStep(v: Vault, op: Op, rest: seq<Op>, w: Vault)
    requires Apply(v, op) == Some(w)
    ensures Run(v, [op] + rest) == Run(w, rest)
    ensures NoSecondRemoval(v, [op] + rest) <==> !(op.RemoveStrategy? && Stale(v.funds, op.index)) && NoSecondRemoval(w, rest)
  {
    assert ([op] + rest)[1..] == rest;
  }

  lemma AssetsOfTwo(f: Funds)
    requires |f.strategies| == 2
    ensures Assets(f) == f.idle + Counted(f.strategies[0], None) + Counted(f.strategies[1], None)
  {
    assert CountedFrom(f.strategies, None, 1) == Counted(f.strategies[1], None) + CountedFrom(f.strategies, None, 2);
  }

  /** The last strategy, alone active and with weight 1, is given the whole of a deposit of 100. */
  lemma OnlyStrategyTakesAll(f: Funds, k: nat)
    requires |f.strategies| == k + 1 <= 2 && f.strategies[k] == Strategy(7, 1, 0, true) && f.idle >= 100
    requires k == 1 ==> !f.strategies[0].active
    ensures Deploy(f, 100) == Wrap(f, k, 100) && Wrap(f, k, 100).Some?
  {
    assert AllocationFrom(f.strategies, k) == 1 + AllocationFrom(f.strategies, k + 1) == 1;
    assert AllocationFrom(f.strategies, 0) == 1 && Share(100, 1, 1) == 100;
    var g := Wrap(f, k, 100).value;
    assert DeployFrom(g, 100, 1, k + 1) == Some(g);
    assert DeployFrom(f, 100, 1, k) == Some(g);
  }

  // The states of a run in which adapter 7 is listed, funded, removed, listed again, funded again, and its old record removed.
  const BLANK := Strategy(7, 1, 0, true)
  const FUNDED := Strategy(7, 1, 100, true)
  const GONE := Strategy(7, 0, 100, false)
  const ONE_HOLDER: map<User, Account> := map[1 := Account(100, 0)]
  const TWO_HOLDERS: map<User, Account> := map[1 := Account(100, 0), 2 := Account(100, 0)]
  const LISTED := EMPTY.(funds := Funds(0, [BLANK], map[]))
  const IN_USE := Vault(Funds(0, [FUNDED], map[7 := 100]), 100, 0, ONE_HOLDER, EMPTY.fees)
  const REMOVED := IN_USE.(funds := Funds(100, [GONE], map[7 := 0]))
  const RELISTED := IN_USE.(funds := Funds(100, [GONE, BLANK], map[7 := 0]))
  const SHARED := Vault(Funds(100, [GONE, FUNDED], map[7 := 100]), 200, 0, TWO_HOLDERS, EMPTY.fees)
  const STRANDED := SHARED.(funds := Funds(200, [GONE, FUNDED], map[7 := 0]))

  lemma FirstListing()
    ensures Apply(EMPTY, AddStrategy(7, 1)) == Some(LISTED)
  {
    assert EMPTY.funds.strategies + [BLANK] == [BLANK];
  }

  lemma FirstDeposit()
    ensures Apply(LISTED, Deposit(1, 100)) == Some(IN_USE)
  {
    OnlyStrategyTakesAll(LISTED.funds.(idle := 100), 0);
    var none: map<Adapter, nat> := map[];
    assert [BLANK][0 := FUNDED] == [FUNDED] && none[7 := 100] == map[7 := 100];
    assert LISTED.accounts[1 := Account(100, 0)] == ONE_HOLDER;
  }

  lemma FirstRemoval()
    ensures Apply(IN_USE, RemoveStrategy(0)) == Some(REMOVED)
  {
    assert [FUNDED][0 := GONE] == [GONE] && IN_USE.funds.held[7 := 0] == REMOVED.funds.held;
  }

  lemma SecondListing()
    ensures Apply(REMOVED, AddStrategy(7, 1)) == Some(RELISTED)
  {
    assert [GONE] + [BLANK] == [GONE, BLANK];
  }

  lemma SecondDeposit()
    ensures Apply(RELISTED, Deposit(2, 100)) == Some(SHARED)
  {
    AssetsOfTwo(RELISTED.funds);
    assert SharesFor(RELISTED, 100) == Some(100);
    OnlyStrategyTakesAll(RELISTED.funds.(idle := 200), 1);
    assert [GONE, BLANK][1 := FUNDED] == [GONE, FUNDED] && RELISTED.funds.held[7 := 100] == SHARED.funds.held;
    assert ONE_HOLDER[2 := Account(100, 0)] == TWO_HOLDERS;
  }

  lemma SecondRemoval()
    ensures Apply(SHARED, RemoveStrategy(0)) == Some(STRANDED) && Stale(SHARED.funds, 0)
  {
    assert [GONE, FUNDED][0 := GONE] == [GONE, FUNDED] && SHARED.funds.held[7 := 0] == STRANDED.funds.held;
  }

  lemma OneLeavesOneCannot()
    ensures Apply(STRANDED, Withdraw(1, 100)).Some? && Apply(STRANDED, Withdraw(1, 100)).value.funds.idle == 50
    ensures Apply(Apply(STRANDED, Withdraw(1, 100)).value, Withdraw(2, 100)) == None
  {
    AssetsOfTwo(STRANDED.funds);
    assert WorthIn(STRANDED, 100) == 150;
    var w := Apply(STRANDED, Withdraw(1, 100)).value;
    AssetsOfTwo(w.funds);
    assert WorthIn(w, 100) == 150;
    assert PullFrom(w.funds, 100, 1) == None;
    assert PullFrom(w.funds, 100, 0) == None;
  }

  /**
   It does happen. Adapter 7 is listed, left with a deposit, and listed again; removing the old record
   once more draws out user 2's deposit. The vault then counts 300 where there are 200. User 1 leaves
   with 150, and user 2, who has no debt, cannot leave at all.
   */
  lemma SecondRemovalStrandsFunds()
    ensures var ops := [AddStrategy(7, 1), Deposit(1, 100), RemoveStrategy(0), AddStrategy(7, 1), Deposit(2, 100), RemoveStrategy(0)];
            Run(EMPTY, ops) == STRANDED && !NoSecondRemoval(EMPTY, ops)
    ensures Assets(STRANDED.funds) == 300 && STRANDED.funds.idle == 200 && HeldBy(STRANDED.funds, 7) == 0
    ensures Apply(STRANDED, Withdraw(1, 100)).Some? && Apply(STRANDED, Withdraw(1, 100)).value.funds.idle == 50
    ensures Apply(Apply(STRANDED, Withdraw(1, 100)).value, Withdraw(2, 100)) == None
  {
    SecondRemoval();
    RunStep(SHARED, RemoveStrategy(0), [], STRANDED);
    SecondDeposit();
    RunStep(RELISTED, Deposit(2, 100), [RemoveStrategy(0)], SHARED);
    SecondListing();
    RunStep(REMOVED, AddStrategy(7, 1), [Deposit(2, 100), RemoveStrategy(0)], RELISTED);
    FirstRemoval();
    RunStep(IN_USE, RemoveStrategy(0), [AddStrategy(7, 1), Deposit(2, 100), RemoveStrategy(0)], REMOVED);
    FirstDeposit();
    RunStep(LISTED, Deposit(1, 100), [RemoveStrategy(0), AddStrategy(7, 1), Deposit(2, 100), RemoveStrategy(0)], IN_USE);
    FirstListing();
    RunStep(EMPTY, AddStrategy(7, 1), [Deposit(1, 100), RemoveStrategy(0), AddStrategy(7, 1), Deposit(2, 100), RemoveStrategy(0)], LISTED);
    AssetsOfTwo(STRANDED.funds);
    OneLeavesOneCannot();
  }

  lemma EmptyInv()
    ensures Inv(EMPTY)
  {
    forall u ensures Healthy(EMPTY, u) {}
  }
}

/** The vault object. A method that reverts puts back what it had already changed. */
module VaultContract {
  import opened Options
  import opened Numbers
  import opened VaultModel

  class YieldVault {
    var idle: nat // underlying.balanceOf(this)
    var strategies: seq<Strategy>
    var adapterHeld: map<Adapter, nat> // what each adapter holds for the vault
    var totalShares: nat
    var totalDebt: nat
    var deposits: map<User, Account>
    var depositFee: nat
    var withdrawalFee: nat
    var performanceFee: nat

    function Holdings(): Funds
      reads this
    {
      Funds(idle, strategies, adapterHeld)
    }

    function State(): Vault
      reads this
    {
      Vault(Holdings(), totalShares, totalDebt, deposits, Fees(depositFee, withdrawalFee, performanceFee))
    }

    /** Committed with the specified state, or reverted and changed nothing. */
    ghost predicate Outcome(before: Vault, op: Op, ok: bool)
      reads this
    {
      && ok == Apply(before, op).Some?
      && State() == if ok then Apply(before, op).value else before
    }

    constructor ()
      ensures State() == EMPTY && Inv(State())
    {
      idle, strategies, adapterHeld, totalShares, totalDebt, deposits := 0, [], map[], 0, 0, map[];
      depositFee, withdrawalFee, performanceFee := 0, 0, 1000;
      new;
      EmptyInv();
    }

    method TotalAssets() returns (total: nat)
      ensures total == Assets(Holdings())
    {
      total := idle;
      for i := 0 to |strategies|
        invariant total + CountedFrom(strategies, None, i) == Assets(Holdings())
      {
        if strategies[i].active { total := total + strategies[i].deposited; }
      }
    }

    method TotalAllocation() returns (total: nat)
      ensures total == AllocationFrom(strategies, 0)
    {
      total := 0;
      for i := 0 to |strategies|
        invariant total + AllocationFrom(strategies, i) == AllocationFrom(strategies, 0)
      {
        if strategies[i].active { total := total + strategies[i].allocation; }
      }
    }

    method DeployToStrategies(amount: nat) returns (ok: bool)
      modifies this`idle, this`strategies, this`adapterHeld
      ensures ok == Deploy(old(Holdings()), amount).Some?
      ensures ok ==> Holdings() == Deploy(old(Holdings()), amount).value
    {
      ghost var before := Holdings();
      var totalAllocation := TotalAllocation();
      if totalAllocation == 0 { return true; }
      var i := 0;
      while i < |strategies|
        invariant 0 <= i <= |strategies|
        invariant DeployFrom(before, amount, totalAllocation, 0) == DeployFrom(Holdings(), amount, totalAllocation, i)
        decreases |before.strategies| - i
        invariant |strategies| == |before.strategies|
      {
        var s := strategies[i];
        if s.active {
          var x := Share(amount, s.allocation, totalAllocation);
          if x > 0 {
            if x > idle { return false; }
            idle := idle - x;
            adapterHeld := adapterHeld[s.adapter := HeldBy(Holdings(), s.adapter) + x];
            strategies := strategies[i := s.(deposited := s.deposited + x)];
          }
        }
        i := i + 1;
      }
      ok := true;
    }

    method WithdrawFromStrategies(amount: nat) returns (ok: bool)
      modifies this`idle, this`strategies, this`adapterHeld
      ensures ok == Pull(old(Holdings()), amount).Some?
      ensures ok ==> Holdings() == Pull(old(Holdings()), amount).value
    {
      ghost var before := Holdings();
      if idle >= amount { return true; }
      var needed: nat := amount - idle;
      ghost var missing := needed;
      var i := 0;
      while i < |strategies| && needed > 0
        invariant 0 <= i <= |strategies| == |before.strategies|
        invariant PullFrom(before, missing, 0) == PullFrom(Holdings(), needed, i)
        decreases |before.strategies| - i
      {
        var s := strategies[i];
        if s.active && s.deposited != 0 {
          var x := if needed > s.deposited then s.deposited else needed;
          if x > HeldBy(Holdings(), s.adapter) { return false; }
          idle := idle + x;
          adapterHeld := adapterHeld[s.adapter := HeldBy(Holdings(), s.adapter) - x];
          strategies := strategies[i := s.(deposited := s.deposited - x)];
          needed := needed - x;
        }
        i := i + 1;
      }
      ok := true;
    }

    method CalculateShares(amount: nat) returns (r: Option<nat>)
      ensures r == SharesFor(State(), amount)
    {
      if totalShares == 0 { return Some(amount); }
      var assets := TotalAssets();
      r := if assets == 0 then None else Some(Share(amount, totalShares, assets));
    }

    /** The transfer in and the deployment, or neither. */
    method TakeIn(net: nat) returns (ok: bool)
      modifies this`idle, this`strategies, this`adapterHeld
      ensures ok == Deploy(old(Holdings()).(idle := old(idle) + net), net).Some?
      ensures Holdings() == if ok then Deploy(old(Holdings()).(idle := old(idle) + net), net).value else old(Holdings())
    {
      var idle0, strategies0, held0 := idle, strategies, adapterHeld;
      idle := idle + net;
      ok := DeployToStrategies(net);
      if !ok { idle, strategies, adapterHeld := idle0, strategies0, held0; }
    }

    method Deposit(user: User, amount: nat) returns (ok: bool, shares: nat)
      modifies this
      ensures Outcome(old(State()), Op.Deposit(user, amount), ok)
      ensures Inv(old(State())) ==> Inv(State())
      ensures ok ==> totalShares == old(totalShares) + shares
    {
      CallKeeps(State(), Op.Deposit(user, amount));
      ok, shares := false, 0;
      var fee := Bps(amount, depositFee);
      if amount == 0 || fee > amount { return; }
      var net := amount - fee;
      var price := CalculateShares(net);
      if price == None { return; }
      shares := price.value;
      var deployed := TakeIn(net);
      if !deployed { return; }
      var a := if user in deposits then deposits[user] else Account(0, 0);
      deposits := deposits[user := a.(shares := a.shares + shares)];
      totalShares := totalShares + shares;
      ok := true;
    }

    method Withdraw(user: User, shares: nat) returns (ok: bool, amount: nat)
      modifies this
      ensures Outcome(old(State()), Op.Withdraw(user, shares), ok)
      ensures Inv(old(State())) ==> Inv(State())
      ensures ok ==> amount == Worth(shares, Assets(old(Holdings())), old(totalShares))
    {
      CallKeeps(State(), Op.Withdraw(user, shares));
      ok, amount := false, 0;
      var a := if user in deposits then deposits[user] else Account(0, 0);
      if shares == 0 || a.shares < shares || totalShares < shares { return; }
      var assets := TotalAssets();
      if a.debt > 0 {
        var remaining := Worth(a.shares - shares, assets, totalShares);
        if remaining < Bps(a.debt, MINIMUM_COLLATERAL_RATIO) { return; }
      }
      amount := Worth(shares, assets, totalShares);
      var idle0, strategies0, held0 := idle, strategies, adapterHeld;
      var pulled := WithdrawFromStrategies(amount);
      if !pulled || idle < amount || Bps(amount, withdrawalFee) > amount {
        idle, strategies, adapterHeld := idle0, strategies0, held0;
        return;
      }
      deposits := deposits[user := a.(shares := a.shares - shares)];
      totalShares := totalShares - shares;
      idle := idle - amount;
      ok := true;
    }

    method Mint(user: User, amount: nat) returns (ok: bool)
      modifies this`deposits, this`totalDebt
      ensures Outcome(old(State()), Op.Mint(user, amount), ok)
      ensures ok ==> totalDebt == old(totalDebt) + amount
                     && AccountOf(State(), user) == AccountOf(old(State()), user).(debt := AccountOf(old(State()), user).debt + amount)
      ensures Inv(old(State())) ==> Inv(State())
    {
      CallKeeps(State(), Op.Mint(user, amount));
      ok := false;
      var a := if user in deposits then deposits[user] else Account(0, 0);
      var assets := TotalAssets();
      if amount == 0 || Worth(a.shares, assets, totalShares) < Bps(a.debt + amount, MINIMUM_COLLATERAL_RATIO) { return; }
      deposits := deposits[user := a.(debt := a.debt + amount)];
      totalDebt := totalDebt + amount;
      ok := true;
    }

    method Burn(user: User, amount: nat) returns (ok: bool)
      modifies this`deposits, this`totalDebt
      ensures Outcome(old(State()), Op.Burn(user, amount), ok)
      ensures ok ==> var debt := AccountOf(old(State()), user).debt; var left: nat := if amount < debt then debt - amount else 0;
                     totalDebt == old(totalDebt) - (debt - left) && AccountOf(State(), user) == AccountOf(old(State()), user).(debt := left)
      ensures Inv(old(State())) ==> Inv(State())
    {
      CallKeeps(State(), Op.Burn(user, amount));
      ok := false;
      var a := if user in deposits then deposits[user] else Account(0, 0);
      var x := if a.debt < amount then a.debt else amount;
      if amount == 0 || totalDebt < x { return; }
      deposits := deposits[user := a.(debt := a.debt - x)];
      totalDebt := totalDebt - x;
      ok := true;
    }

    method Liquidate(user: User) returns (ok: bool)
      modifies this
      ensures Outcome(old(State()), Op.Liquidate(user), ok)
      ensures Inv(old(State())) ==> Inv(State())
      ensures Inv(old(State())) ==> !ok
    {
      CallKeeps(State(), Op.Liquidate(user));
      if Inv(State()) { NeverLiquidatable(State(), user); }
      ok := false;
      var a := if user in deposits then deposits[user] else Account(0, 0);
      if a.debt == 0 { return; }
      var assets := TotalAssets();
      var collateral := Worth(a.shares, assets, totalShares);
      if collateral >= Bps(a.debt, LIQUIDATION_RATIO) { return; }
      var reward := Reward(a.debt, collateral);
      ok := Seize(user, a, collateral, reward);
    }

    /** The part of a liquidation that pays: the reward out of the strategies, the debt and the shares for it. */
    method Seize(user: User, a: Account, collateral: nat, reward: nat) returns (ok: bool)
      modifies this
      ensures ok == Seized(old(State()), user, a, collateral, reward).Some?
      ensures State() == if ok then Seized(old(State()), user, a, collateral, reward).value else old(State())
    {
      var idle0, strategies0, held0 := idle, strategies, adapterHeld;
      ok := WithdrawFromStrategies(reward);
      if ok {
        var assets := TotalAssets();
        var left := SharesLeft(collateral, reward, totalShares, assets);
        if left.Some? && idle >= reward && left.value <= a.shares && totalShares >= a.shares - left.value && totalDebt >= a.debt {
          deposits := deposits[user := Account(left.value, 0)];
          totalDebt := totalDebt - a.debt;
          totalShares := totalShares - (a.shares - left.value);
          idle := idle - reward;
          return;
        }
      }
      idle, strategies, adapterHeld := idle0, strategies0, held0;
      ok := false;
    }

    method AddStrategy(adapter: Adapter, allocation: nat) returns (ok: bool)
      modifies this`strategies
      ensures Outcome(old(State()), Op.AddStrategy(adapter, allocation), ok)
      ensures Inv(old(State())) ==> Inv(State())
    {
      CallKeeps(State(), Op.AddStrategy(adapter, allocation));
      if |strategies| >= MAX_STRATEGIES { return false; }
      strategies := strategies + [Strategy(adapter, allocation, 0, true)];
      ok := true;
    }

    method RemoveStrategy(index: nat) returns (ok: bool)
      modifies this`idle, this`strategies, this`adapterHeld
      ensures Outcome(old(State()), Op.RemoveStrategy(index), ok)
      ensures Inv(old(State())) ==> Inv(State())
    {
      CallKeeps(State(), Op.RemoveStrategy(index));
      if index >= |strategies| { return false; }
      var s := strategies[index];
      if s.deposited > 0 {
        if s.deposited > HeldBy(Holdings(), s.adapter) { return false; }
        idle := idle + s.deposited;
        adapterHeld := adapterHeld[s.adapter := HeldBy(Holdings(), s.adapter) - s.deposited];
      }
      strategies := strategies[index := s.(active := false, allocation := 0)];
      ok := true;
    }

    method HarvestAll(gains: seq<nat>) returns (ok: bool)
      requires |gains| == |strategies| && performanceFee <= BASIS_POINTS
      modifies this`idle
      ensures ok && Outcome(old(State()), Op.HarvestAll(gains), ok)
      ensures Inv(old(State())) ==> Inv(State())
    {
      CallKeeps(State(), Op.HarvestAll(gains));
      var total := 0;
      for i := 0 to |strategies|
        invariant total + ActiveYield(strategies, gains, i) == ActiveYield(strategies, gains, 0)
      {
        if strategies[i].active { total := total + gains[i]; }
      }
      ShareAtMost(total, performanceFee, BASIS_POINTS);
      idle := idle + total;
      if total > 0 { idle := idle - Bps(total, performanceFee); }
      ok := true;
    }

    /** One round of the loop in `rebalance`. */
    method RebalanceStrategy(i: nat, assets: nat, total: nat) returns (ok: bool)
      requires i < |strategies|
      modifies this`idle, this`strategies, this`adapterHeld
      ensures ok == Rebalanced(old(Holdings()), assets, total, i).Some?
      ensures Holdings() == if ok then Rebalanced(old(Holdings()), assets, total, i).value else old(Holdings())
    {
      var s := strategies[i];
      if !s.active { return true; }
      if total == 0 { return false; }
      var target := Share(assets, s.allocation, total);
      if s.deposited > target {
        var excess := s.deposited - target;
        if excess > HeldBy(Holdings(), s.adapter) { return false; }
        idle := idle + excess;
        adapterHeld := adapterHeld[s.adapter := HeldBy(Holdings(), s.adapter) - excess];
        strategies := strategies[i := s.(deposited := s.deposited - excess)];
      } else if s.deposited < target {
        var needed := target - s.deposited;
        if needed > idle { return false; }
        idle := idle - needed;
        adapterHeld := adapterHeld[s.adapter := HeldBy(Holdings(), s.adapter) + needed];
        strategies := strategies[i := s.(deposited := s.deposited + needed)];
      }
      ok := true;
    }

    method Rebalance() returns (ok: bool)
      modifies this`idle, this`strategies, this`adapterHeld
      ensures Outcome(old(State()), Op.Rebalance, ok)
      ensures Inv(old(State())) ==> Inv(State())
    {
      CallKeeps(State(), Op.Rebalance);
      ghost var before := Holdings();
      var assets := TotalAssets();
      var total := TotalAllocation();
      var idle0, strategies0, held0 := idle, strategies, adapterHeld;
      var i := 0;
      while i < |strategies|
        invariant 0 <= i <= |strategies| == |before.strategies|
        invariant RebalanceFrom(before, assets, total, 0) == RebalanceFrom(Holdings(), assets, total, i)
        invariant unchanged(`totalShares, `totalDebt, `deposits, `depositFee, `withdrawalFee, `performanceFee)
        decreases |before.strategies| - i
      {
        var moved := RebalanceStrategy(i, assets, total);
        if !moved {
          idle, strategies, adapterHeld := idle0, strategies0, held0;
          return false;
        }
        i := i + 1;
      }
      ok := true;
    }
  }
}
