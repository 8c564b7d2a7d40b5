/**
 One futures contract: positions, the array of traders that settlement walks, its one-based index, the
 open interest on each side, and the quote tokens payments come from. `funds` is what a trader
 can pay in.
 */
module FuturesModel {
  import opened Options
  import opened Numbers
  import opened MapSums

  const BPS := 10000
  const PRECISION := 1_000_000_000_000_000_000
  const LIQUIDATION_PENALTY_BPS := 250

  type Trader = nat

  datatype Side = Long | Short

  datatype Status = Open | Closed | Liquidated

  datatype Position = Position(side: Side, size: nat, entryPrice: nat, margin: nat, realisedPnl: int,
                               lastSettlement: nat, status: Status)

  datatype Spec = Spec(expiry: nat, contractSize: nat, tickSize: nat, initialBps: nat, maintenanceBps: nat)

  /** The trader array, and for each trader the place in it counted from one, or zero. */
  datatype Roster = Roster(traders: seq<Trader>, index: map<Trader, nat>)

  /** `collects`: the fees have a receiver; `cash`: the contract's quote tokens. */
  datatype Market = Market(
    spec: Spec, positions: map<Trader, Position>, roster: Roster, longInterest: nat, shortInterest: nat, mark: nat,
    settled: bool, feeBps: nat, paused: bool, collects: bool, cash: nat)

  datatype Op =
    | OpenPosition(trader: Trader, side: Side, size: nat, price: nat, margin: nat, funds: nat)
    | ClosePosition(trader: Trader, size: nat, price: nat)
    | DepositMargin(trader: Trader, amount: nat, funds: nat)
    | WithdrawMargin(trader: Trader, amount: nat)
    | DailySettlement(keeper: bool, price: nat)
    | Liquidate(trader: Trader, oraclePrice: nat)
    | FinalSettlement(keeper: bool, price: nat)
    | SetFee(feeBps: nat)
    | SetReceiver(collects: bool)
    | SetPaused(paused: bool)
    | OtherTransfers(cash: nat) // other contracts in the same quote token, or anyone, leave this balance

  /** What `createContract` lets through. */
  predicate ValidSpec(s: Spec) {
    s.contractSize > 0 && s.tickSize > 0 && 0 < s.maintenanceBps < s.initialBps <= BPS
  }

  predicate IsOpen(m: Market, t: Trader) { t in m.positions && m.positions[t].status.Open? && m.positions[t].size > 0 }

  // ---------------------------------------------------------------- money

  predicate Aligned(s: Spec, price: nat)
    requires ValidSpec(s)
  {
    price % s.tickSize == 0
  }

  /** Signed division as the EVM does it, towards zero. */
  function TruncDiv(n: int, d: nat): int
    requires d > 0
  {
    if n >= 0 then n / d else -(-n / d)
  }

  function Notional(s: Spec, size: nat, price: nat): nat { size * s.contractSize * price / PRECISION }

  function Pnl(s: Spec, side: Side, from: nat, to: nat, size: nat): int {
    var delta := if side.Long? then to - from else from - to;
    TruncDiv(delta * size * s.contractSize, PRECISION)
  }

  /** Margin with the gain or loss since the last settlement, at a price. */
  function Effective(s: Spec, p: Position, price: nat): int { p.margin + Pnl(s, p.side, p.lastSettlement, price, p.size) }

  function MarkOr(m: Market, other: nat): nat { if m.mark == 0 then other else m.mark }

  predicate Liquidatable(m: Market, p: Position, oraclePrice: nat) {
    var price := MarkOr(m, oraclePrice);
    Effective(m.spec, p, price) < Bps(Notional(m.spec, p.size, price), m.spec.maintenanceBps)
  }

  /** A loss eats the margin and stops at zero. */
  function AfterPnl(margin: nat, pnl: int): nat { if margin + pnl >= 0 then margin + pnl else 0 }

  function Average(oldPrice: nat, oldSize: nat, price: nat, size: nat): nat
    requires oldSize + size > 0
  {
    (oldPrice * oldSize + price * size) / (oldSize + size)
  }

  // ---------------------------------------------------------------- the trader array

  function Get(m: map<Trader, nat>, t: Trader): nat { if t in m then m[t] else 0 }

  /** `_addTrader`. */
  function AddTrader(r: Roster, t: Trader): Roster {
    if Get(r.index, t) != 0 then r else Roster(r.traders + [t], r.index[t := |r.traders| + 1])
  }

  /** `_removeTrader`, swap-and-pop; None where the array accesses would revert. */
  function RemoveTrader(r: Roster, t: Trader): Option<Roster> {
    var idx := Get(r.index, t);
    if idx == 0 then Some(r)
    else if idx > |r.traders| then None
    else
      var last := |r.traders| - 1;
      var cleared := r.index[t := 0];
      if idx - 1 == last then Some(Roster(r.traders[..last], cleared))
      else Some(Roster(r.traders[idx - 1 := r.traders[last]][..last], cleared[r.traders[last] := idx]))
  }

  /** The market without t in its roster. */
  function Untracked(m: Market, t: Trader): Option<Market> {
    match RemoveTrader(m.roster, t) case None => None case Some(r) => Some(m.(roster := r))
  }

  function Interest(m: Market, side: Side): nat { if side.Long? then m.longInterest else m.shortInterest }

  function AddInterest(m: Market, side: Side, size: nat): Market {
    if side.Long? then m.(longInterest := m.longInterest + size) else m.(shortInterest := m.shortInterest + size)
  }

  function SubInterest(m: Market, side: Side, size: nat): Option<Market> {
    if Interest(m, side) < size then None
    else if side.Long? then Some(m.(longInterest := m.longInterest - size))
    else Some(m.(shortInterest := m.shortInterest - size))
  }

  function SetPosition(m: Market, t: Trader, p: Position): Market { m.(positions := m.positions[t := p]) }

  /** A payment out; None when the tokens are not there. */
  function Pay(m: Market, x: nat): Option<Market> { if m.cash < x then None else Some(m.(cash := m.cash - x)) }

  function PayFrom(r: Option<Market>, x: nat): Option<Market> {
    match r case None => None case Some(m) => Pay(m, x)
  }

  /** The part of a fee that leaves the contract. */
  function FeeOut(m: Market, fee: nat): nat { if m.collects then fee else 0 }

  // ---------------------------------------------------------------- operations

  function Enlarged(p: Position, size: nat, price: nat, margin: nat): Position
    requires size > 0
  {
    p.(entryPrice := Average(p.entryPrice, p.size, price, size), size := p.size + size, margin := p.margin + margin,
       lastSettlement := if p.lastSettlement == 0 then price else p.lastSettlement)
  }

  /** Margin and fee come in, and the fee goes on if it has a receiver. */
  function Opened(m: Market, t: Trader, side: Side, size: nat, price: nat, margin: nat, funds: nat, now: nat): Option<Market>
    requires ValidSpec(m.spec)
  {
    var notional := Notional(m.spec, size, price);
    var fee := Bps(notional, m.feeBps);
    if m.paused || size == 0 || now >= m.spec.expiry || !Aligned(m.spec, price) || funds < margin + fee then None
    else if margin < Bps(notional, m.spec.initialBps) then None
    else if IsOpen(m, t) && m.positions[t].side != side then None
    else Some(Grown(m.(cash := m.cash + margin + fee - FeeOut(m, fee)), t, side, size, price, margin))
  }

  /** The books after a position is opened or enlarged. */
  function Grown(m: Market, t: Trader, side: Side, size: nat, price: nat, margin: nat): Market
    requires size > 0
  {
    if IsOpen(m, t) then AddInterest(SetPosition(m, t, Enlarged(m.positions[t], size, price, margin)), side, size)
    else AddInterest(SetPosition(m.(roster := AddTrader(m.roster, t)), t, Position(side, size, price, margin, 0, price, Open)), side, size)
  }

  function Release(p: Position, size: nat): (r: nat)
    requires 0 < size <= p.size
    ensures r <= p.margin
  {
    ShareAtMost(p.margin, size, p.size);
    p.margin * size / p.size
  }

  function CloseFee(s: Spec, feeBps: nat, size: nat, price: nat): nat { Bps(Notional(s, size, price), feeBps) }

  /** What a close owes the trader: the margin released and the gain since entry, less the fee. */
  function Net(s: Spec, feeBps: nat, p: Position, size: nat, price: nat): int
    requires 0 < size <= p.size
  {
    Release(p, size) + Pnl(s, p.side, p.entryPrice, price, size) - CloseFee(s, feeBps, size, price)
  }

  function Positive(x: int): nat { if x > 0 then x else 0 }

  /** The position left by closing `size` of p at a price. */
  function Reduced(s: Spec, feeBps: nat, p: Position, size: nat, price: nat): Position
    requires 0 < size <= p.size
  {
    var left, net := p.margin - Release(p, size), Net(s, feeBps, p, size, price);
    p.(size := p.size - size, margin := if net < 0 then AfterPnl(left, net) else left,
       realisedPnl := p.realisedPnl + Pnl(s, p.side, p.entryPrice, price, size), status := if p.size == size then Closed else p.status)
  }

  /** The tokens a close pays out, to the trader and to the fee receiver. */
  function CloseDue(m: Market, p: Position, size: nat, price: nat): nat
    requires 0 < size <= p.size
  {
    Positive(Net(m.spec, m.feeBps, p, size, price)) + FeeOut(m, CloseFee(m.spec, m.feeBps, size, price))
  }

  /** A position is replaced by a smaller one, open interest follows, and an empty one leaves the roster. */
  function Shrunk(m: Market, t: Trader, q: Position): Option<Market>
    requires IsOpen(m, t) && q.size <= m.positions[t].size
  {
    match SubInterest(SetPosition(m, t, q), q.side, m.positions[t].size - q.size)
    case None => None
    case Some(n) => if q.size == 0 then Untracked(n, t) else Some(n)
  }

  lemma ShrunkCash(m: Market, t: Trader, q: Position)
    requires IsOpen(m, t) && q.size <= m.positions[t].size
    ensures Shrunk(m, t, q).Some? ==> Shrunk(m, t, q).value.cash == m.cash
  {
  }

  function Closing(m: Market, t: Trader, size: nat, price: nat): Option<Market>
    requires ValidSpec(m.spec)
  {
    if !Aligned(m.spec, price) || !IsOpen(m, t) || size == 0 || size > m.positions[t].size then None
    else
      var p := m.positions[t];
      PayFrom(Shrunk(m, t, Reduced(m.spec, m.feeBps, p, size, price)), CloseDue(m, p, size, price))
  }

  function Deposited(m: Market, t: Trader, amount: nat, funds: nat): Option<Market> {
    if amount == 0 || !IsOpen(m, t) || funds < amount then None
    else Some(SetPosition(m.(cash := m.cash + amount), t, m.positions[t].(margin := m.positions[t].margin + amount)))
  }

  function Withdrawn(m: Market, t: Trader, amount: nat): Option<Market> {
    if amount == 0 || !IsOpen(m, t) then None
    else
      var p := m.positions[t];
      var price := MarkOr(m, p.entryPrice);
      if Effective(m.spec, p, price) - amount < Bps(Notional(m.spec, p.size, price), m.spec.initialBps) then None
      else if p.margin < amount then None
      else Pay(SetPosition(m, t, p.(margin := p.margin - amount)), amount)
  }

  function Marked(s: Spec, p: Position, price: nat): Position {
    var pnl := Pnl(s, p.side, p.lastSettlement, price, p.size);
    p.(lastSettlement := price, realisedPnl := p.realisedPnl + pnl, margin := AfterPnl(p.margin, pnl))
  }

  /** The loop of `dailySettlement` from trader i on. */
  function MarkFrom(m: Market, price: nat, i: nat): Market
    requires i <= |m.roster.traders|
    decreases |m.roster.traders| - i
  {
    if i == |m.roster.traders| then m
    else if !IsOpen(m, m.roster.traders[i]) then MarkFrom(m, price, i + 1)
    else MarkFrom(SetPosition(m, m.roster.traders[i], Marked(m.spec, m.positions[m.roster.traders[i]], price)), price, i + 1)
  }

  function Daily(m: Market, keeper: bool, price: nat): Option<Market> {
    if !keeper || m.settled then None else Some(MarkFrom(m.(mark := price), price, 0))
  }

  /** What the liquidator gets. */
  function Penalty(margin: nat): nat { Bps(margin, LIQUIDATION_PENALTY_BPS) }

  function Seized(p: Position): Position { p.(size := 0, margin := 0, status := Liquidated) }

  /** The penalty to the liquidator and the rest to the trader: together the margin. */
  function Liquidating(m: Market, t: Trader, oraclePrice: nat): Option<Market> {
    if !IsOpen(m, t) || !Liquidatable(m, m.positions[t], oraclePrice) then None
    else PayFrom(Shrunk(m, t, Seized(m.positions[t])), m.positions[t].margin)
  }

  function Settled(s: Spec, p: Position, price: nat): Position {
    p.(size := 0, margin := 0, status := Closed, lastSettlement := price,
       realisedPnl := p.realisedPnl + Pnl(s, p.side, p.lastSettlement, price, p.size))
  }

  /** What final settlement owes a trader: the margin and the gain since the last settlement. */
  function Payout(m: Market, price: nat, t: Trader): nat {
    if IsOpen(m, t) then Positive(Effective(m.spec, m.positions[t], price)) else 0
  }

  /** One round of the loop in `finalSettlement`. */
  function SettleOne(m: Market, price: nat, t: Trader): Option<Market> {
    if !IsOpen(m, t) then Some(m)
    else
      var p := m.positions[t];
      PayFrom(SubInterest(SetPosition(m, t, Settled(m.spec, p, price)), p.side, p.size), Payout(m, price, t))
  }

  /** That loop from trader i on. */
  function SettleFrom(m: Market, price: nat, i: nat): Option<Market>
    requires i <= |m.roster.traders|
    decreases |m.roster.traders| - i
  {
    if i == |m.roster.traders| then Some(m)
    else match SettleOne(m, price, m.roster.traders[i])
         case None => None
         case Some(n) => SettleFrom(n, price, i + 1)
  }

  /** All payouts of final settlement from trader i on. */
  function PayoutsFrom(m: Market, price: nat, i: nat): nat
    requires i <= |m.roster.traders|
    decreases |m.roster.traders| - i
  {
    if i == |m.roster.traders| then 0 else Payout(m, price, m.roster.traders[i]) + PayoutsFrom(m, price, i + 1)
  }

  function Final(m: Market, keeper: bool, price: nat, now: nat): Option<Market> {
    if !keeper || now < m.spec.expiry || m.settled then None
    else FlatEnd(m.(settled := true, mark := price), price)
  }

  /** The settlement loop, after which the trader array is cleared; the index is not. */
  function FlatEnd(m: Market, price: nat): Option<Market> {
    match SettleFrom(m, price, 0)
    case None => None
    case Some(n) => Some(n.(roster := n.roster.(traders := [])))
  }

  /** The market after a committed call; None when it reverts. */
  function Apply(m: Market, op: Op, now: nat): Option<Market>
    requires ValidSpec(m.spec)
  {
    match op
    case OpenPosition(t, side, size, price, margin, funds) => Opened(m, t, side, size, price, margin, funds, now)
    case ClosePosition(t, size, price) => Closing(m, t, size, price)
    case DepositMargin(t, amount, funds) => Deposited(m, t, amount, funds)
    case WithdrawMargin(t, amount) => Withdrawn(m, t, amount)
    case DailySettlement(keeper, price) => Daily(m, keeper, price)
    case Liquidate(t, oraclePrice) => Liquidating(m, t, oraclePrice)
    case FinalSettlement(keeper, price) => Final(m, keeper, price, now)
    case SetFee(feeBps) => Some(m.(feeBps := feeBps))
    case SetReceiver(collects) => Some(m.(collects := collects))
    case SetPaused(paused) => Some(m.(paused := paused))
    case OtherTransfers(cash) => Some(m.(cash := cash))
  }

  // ---------------------------------------------------------------- what agrees with what

  ghost function SizeOn(side: Side): (Trader, Position) -> int { (t: Trader, p: Position) => if p.side == side then p.size else 0 }

  ghost predicate InSlot(r: Roster, i: nat)
    requires i < |r.traders|
  {
    Get(r.index, r.traders[i]) == i + 1
  }

  ghost predicate Findable(r: Roster, t: Trader) {
    var idx := Get(r.index, t);
    idx == 0 || (idx <= |r.traders| && r.traders[idx - 1] == t)
  }

  /** The array and the one-based index are inverse to each other; so the array has no duplicates. */
  ghost predicate Indexed(r: Roster) { (forall i: nat :: i < |r.traders| ==> InSlot(r, i)) && (forall t :: Findable(r, t)) }

  /** The array is the set of open positions. */
  ghost predicate TracksOpen(m: Market) { forall t :: IsOpen(m, t) <==> t in m.roster.traders }

  ghost predicate OnlyOpenSized(m: Market) { forall t :: t in m.positions && m.positions[t].size > 0 ==> m.positions[t].status.Open? }

  ghost predicate Totalled(m: Market) {
    m.longInterest == Sum(m.positions, SizeOn(Long)) && m.shortInterest == Sum(m.positions, SizeOn(Short))
  }

  ghost predicate Flat(m: Market) {
    (forall t :: t in m.positions ==> m.positions[t].size == 0) && m.longInterest == 0 && m.shortInterest == 0 && m.roster.traders == []
  }

  ghost predicate Inv(m: Market, now: nat) {
    && ValidSpec(m.spec)
    && if m.settled then Flat(m) && now >= m.spec.expiry
       else Indexed(m.roster) && TracksOpen(m) && OnlyOpenSized(m) && Totalled(m)
  }

  // ---------------------------------------------------------------- small steps

  /** A trader is in the array exactly when the index knows it. */
  lemma KnownIffIn(r: Roster, t: Trader)
    requires Indexed(r)
    ensures Get(r.index, t) != 0 <==> t in r.traders
  {
    assert Findable(r, t);
    if t in r.traders {
      var i: nat :| i < |r.traders| && r.traders[i] == t;
      assert InSlot(r, i);
    }
  }

  /** Swap-and-pop drops exactly t and keeps array and index inverse. */
  lemma RemovalKeepsIndex(r: Roster, t: Trader)
    requires Indexed(r)
    ensures RemoveTrader(r, t).Some?
    ensures var n := RemoveTrader(r, t).value; Indexed(n) && forall u :: u in n.traders <==> u in r.traders && u != t
  {
    assert Findable(r, t);
    var n, idx, last := RemoveTrader(r, t).value, Get(r.index, t), |r.traders| - 1;
    KnownIffIn(r, t);
    if idx != 0 {
      forall i: nat | i < last ensures n.traders[i] == (if i == idx - 1 then r.traders[last] else r.traders[i]) && InSlot(n, i) {
        assert InSlot(r, i) && InSlot(r, last) && InSlot(r, idx - 1);
      }
      forall u ensures Findable(n, u) {
        assert Findable(r, u) && InSlot(r, last);
      }
      forall u ensures u in n.traders <==> u in r.traders && u != t {
        KnownIffIn(r, u);
        KnownIffIn(n, u);
        assert InSlot(r, last);
      }
    }
  }

  lemma AdditionKeepsIndex(r: Roster, t: Trader)
    requires Indexed(r)
    ensures var n := AddTrader(r, t); Indexed(n) && forall u :: u in n.traders <==> u in r.traders || u == t
  {
    KnownIffIn(r, t);
    var n := AddTrader(r, t);
    if Get(r.index, t) == 0 {
      forall i: nat | i < |n.traders| ensures InSlot(n, i) {
        if i < |r.traders| { assert InSlot(r, i); }
      }
      forall u ensures Findable(n, u) { assert Findable(r, u); }
    }
  }

  /** A side's total covers each position on it. */
  lemma InterestCovers(m: Market, t: Trader)
    requires Totalled(m) && t in m.positions
    ensures m.positions[t].size <= Interest(m, m.positions[t].side)
  {
    SumBounds(m.positions, SizeOn(m.positions[t].side), t);
  }

  /** Replacing a position moves each side's total by the change on that side. */
  lemma TotalsMove(m: Market, t: Trader, q: Position)
    ensures forall side :: Sum(SetPosition(m, t, q).positions, SizeOn(side))
                           == Sum(m.positions, SizeOn(side)) - At(m.positions, SizeOn(side), t) + SizeOn(side)(t, q)
  {
    forall side: Side { SumUpdate(m.positions, SizeOn(side), t, q); }
  }

  /** Shrinking a position of t to q takes the difference off its side, which cannot underflow. */
  lemma ShrinkKeepsTotals(m: Market, t: Trader, q: Position)
    requires Totalled(m) && t in m.positions && q.side == m.positions[t].side && q.size <= m.positions[t].size
    ensures var r := SubInterest(SetPosition(m, t, q), q.side, m.positions[t].size - q.size); r.Some? && Totalled(r.value)
  {
    InterestCovers(m, t);
    TotalsMove(m, t, q);
  }

  lemma {:induction false} AllZero(m: map<Trader, Position>, side: Side)
    requires forall t :: t in m ==> m[t].size == 0
    ensures Sum(m, SizeOn(side)) == 0
    decreases |m|
  {
    if m != map[] {
      var t :| t in m;
      SumSplit(m, SizeOn(side), t);
      AllZero(m - {t}, side);
    }
  }

  // ---------------------------------------------------------------- every operation keeps the agreement

  lemma GrowthTotals(m: Market, n: Market, t: Trader, q: Position, size: nat)
    requires Totalled(m) && OnlyOpenSized(m) && q.status.Open?
    requires if IsOpen(m, t) then q.side == m.positions[t].side && q.size == m.positions[t].size + size else q.size == size
    requires n.positions == m.positions[t := q]
    requires n.longInterest == m.longInterest + (if q.side.Long? then size else 0)
    requires n.shortInterest == m.shortInterest + (if q.side.Long? then 0 else size)
    ensures Totalled(n) && OnlyOpenSized(n)
  {
    TotalsMove(m, t, q);
    assert t in m.positions && !IsOpen(m, t) ==> m.positions[t].size == 0;
  }

  /** Opening a position, or adding to one, by `size`. */
  lemma GrowthKeeps(m: Market, t: Trader, q: Position, size: nat, now: nat)
    requires Inv(m, now) && !m.settled && size > 0 && q.status.Open?
    requires if IsOpen(m, t) then q.side == m.positions[t].side && q.size == m.positions[t].size + size else q.size == size
    ensures Inv(AddInterest(SetPosition(m.(roster := AddTrader(m.roster, t)), t, q), q.side, size), now)
    ensures IsOpen(m, t) ==> AddTrader(m.roster, t) == m.roster
  {
    KnownIffIn(m.roster, t);
    AdditionKeepsIndex(m.roster, t);
    var n := AddInterest(SetPosition(m.(roster := AddTrader(m.roster, t)), t, q), q.side, size);
    GrowthTotals(m, n, t, q, size);
    forall u ensures IsOpen(n, u) <==> u in n.roster.traders { assert u != t ==> IsOpen(n, u) == IsOpen(m, u); }
  }

  /** Tokens, the fee, its receiver and the pause flag take no part in the books. */
  lemma QuietKeeps(m: Market, n: Market, now: nat)
    requires Inv(m, now) && n == m.(cash := n.cash, feeBps := n.feeBps, collects := n.collects, paused := n.paused)
    ensures Inv(n, now)
  {
    assert forall t :: IsOpen(n, t) == IsOpen(m, t);
  }

  lemma OpenKeeps(m: Market, t: Trader, side: Side, size: nat, price: nat, margin: nat, funds: nat, now: nat)
    requires Inv(m, now) && Opened(m, t, side, size, price, margin, funds, now).Some?
    ensures Inv(Opened(m, t, side, size, price, margin, funds, now).value, now)
  {
    var n := m.(cash := Opened(m, t, side, size, price, margin, funds, now).value.cash);
    QuietKeeps(m, n, now);
    GrowthKeeps(n, t, Grown(n, t, side, size, price, margin).positions[t], size, now);
  }

  lemma OpenLists(m: Market, t: Trader, side: Side, size: nat, price: nat, margin: nat, funds: nat, now: nat)
    requires Inv(m, now)
    ensures var r := Opened(m, t, side, size, price, margin, funds, now); r.Some? ==> Indexed(m.roster) && Inv(r.value, now)
  {
    if Opened(m, t, side, size, price, margin, funds, now).Some? { OpenKeeps(m, t, side, size, price, margin, funds, now); }
  }

  /** Closing part or all, and liquidating, are the same move on the books, and it always goes through. */
  lemma ShrinkKeeps(m: Market, t: Trader, q: Position, now: nat)
    requires Inv(m, now) && IsOpen(m, t)
    requires q.side == m.positions[t].side && q.size <= m.positions[t].size && (q.size > 0 ==> q.status.Open?)
    ensures Shrunk(m, t, q).Some? && Inv(Shrunk(m, t, q).value, now) && Shrunk(m, t, q).value.cash == m.cash
    ensures q.size == 0 ==> !IsOpen(Shrunk(m, t, q).value, t) && t !in Shrunk(m, t, q).value.roster.traders
  {
    ShrinkKeepsTotals(m, t, q);
    RemovalKeepsIndex(m.roster, t);
    var n := Shrunk(m, t, q).value;
    forall u ensures IsOpen(n, u) <==> u in n.roster.traders { assert u != t ==> IsOpen(n, u) == IsOpen(m, u); }
  }

  lemma {:induction false} MarkingKeeps(m: Market, price: nat, i: nat, now: nat)
    requires Inv(m, now) && i <= |m.roster.traders|
    ensures Inv(MarkFrom(m, price, i), now)
    ensures var n := MarkFrom(m, price, i); n == m.(positions := n.positions)
    decreases |m.roster.traders| - i
  {
    if i < |m.roster.traders| {
      var t := m.roster.traders[i];
      var n := if IsOpen(m, t) then SetPosition(m, t, Marked(m.spec, m.positions[t], price)) else m;
      if IsOpen(m, t) { MarginKeeps(m, t, Marked(m.spec, m.positions[t], price), now); }
      MarkingKeeps(n, price, i + 1, now);
    }
  }

  /** Changing anything but side, size and status of an open position disturbs nothing. */
  lemma MarginKeeps(m: Market, t: Trader, q: Position, now: nat)
    requires Inv(m, now) && IsOpen(m, t)
    requires q.side == m.positions[t].side && q.size == m.positions[t].size && q.status == m.positions[t].status
    ensures Inv(SetPosition(m, t, q), now)
  {
    TotalsMove(m, t, q);
    forall u ensures IsOpen(SetPosition(m, t, q), u) == IsOpen(m, u) {}
  }

  /** Halfway through final settlement: the traders before i are closed, everyone else is as before. */
  ghost predicate Settling(m: Market, i: nat) {
    && i <= |m.roster.traders| && OnlyOpenSized(m) && Totalled(m)
    && (forall t :: IsOpen(m, t) ==> t in m.roster.traders[i..])
    && DistinctFrom(m.roster.traders, i)
  }

  ghost predicate DistinctFrom(ts: seq<Trader>, i: nat) { forall j, k :: i <= j < k < |ts| ==> ts[j] != ts[k] }

  /** Settling one trader changes no later payout. */
  lemma {:induction false} PayoutsStay(m: Market, n: Market, price: nat, t: Trader, i: nat)
    requires i <= |m.roster.traders| && n.roster == m.roster && n.spec == m.spec && t !in m.roster.traders[i..]
    requires forall u :: u != t ==> (u in n.positions <==> u in m.positions) && (u in m.positions ==> n.positions[u] == m.positions[u])
    ensures PayoutsFrom(n, price, i) == PayoutsFrom(m, price, i)
    decreases |m.roster.traders| - i
  {
    if i < |m.roster.traders| {
      assert m.roster.traders[i..] == [m.roster.traders[i]] + m.roster.traders[i + 1..];
      PayoutsStay(m, n, price, t, i + 1);
    }
  }

  lemma TailTail(ts: seq<Trader>, i: nat)
    requires i < |ts| && DistinctFrom(ts, i)
    ensures ts[i..] == [ts[i]] + ts[i + 1..] && DistinctFrom(ts, i + 1) && ts[i] !in ts[i + 1..]
  {
  }

  /** The books after one round on an open trader, before the payment. */
  lemma RoundSettles(m: Market, price: nat, i: nat)
    requires Settling(m, i) && i < |m.roster.traders| && IsOpen(m, m.roster.traders[i])
    ensures var t, p := m.roster.traders[i], m.positions[m.roster.traders[i]];
            var r := SubInterest(SetPosition(m, t, Settled(m.spec, p, price)), p.side, p.size);
            p.size <= Interest(m, p.side) && r.Some? && Settling(r.value, i + 1) && r.value.cash == m.cash
  {
    var t := m.roster.traders[i];
    TailTail(m.roster.traders, i);
    InterestCovers(m, t);
    var q := Settled(m.spec, m.positions[t], price);
    ShrinkKeepsTotals(m, t, q);
    var n := SubInterest(SetPosition(m, t, q), q.side, m.positions[t].size).value;
    forall u | IsOpen(n, u) ensures u in n.roster.traders[i + 1..] { assert u != t && IsOpen(m, u); }
  }

  /** One round goes through exactly when the tokens cover its payout; its open interest never underflows. */
  lemma SettlingAdvances(m: Market, price: nat, i: nat)
    requires Settling(m, i) && i < |m.roster.traders|
    ensures var t, r := m.roster.traders[i], SettleOne(m, price, m.roster.traders[i]);
            && (r.Some? <==> m.cash >= Payout(m, price, t))
            && (r.Some? ==> Settling(r.value, i + 1) && r.value.cash == m.cash - Payout(m, price, t))
  {
    var t := m.roster.traders[i];
    if IsOpen(m, t) {
      RoundSettles(m, price, i);
      var p := m.positions[t];
      var n := SubInterest(SetPosition(m, t, Settled(m.spec, p, price)), p.side, p.size).value;
      if n.cash >= Payout(m, price, t) { SettlingPays(n, n.cash - Payout(m, price, t), i + 1); }
    } else {
      TailTail(m.roster.traders, i);
      forall u | IsOpen(m, u) ensures u in m.roster.traders[i + 1..] { assert u != t; }
    }
  }

  lemma SettlingPays(m: Market, cash: nat, i: nat)
    requires Settling(m, i)
    ensures Settling(m.(cash := cash), i)
  {
    assert forall t :: IsOpen(m.(cash := cash), t) == IsOpen(m, t);
  }

  /** And it changes no later payout. */
  lemma PayoutsAdvance(m: Market, price: nat, i: nat)
    requires Settling(m, i) && i < |m.roster.traders| && SettleOne(m, price, m.roster.traders[i]).Some?
    ensures PayoutsFrom(SettleOne(m, price, m.roster.traders[i]).value, price, i + 1) == PayoutsFrom(m, price, i + 1)
  {
    PayoutsStay(m, SettleOne(m, price, m.roster.traders[i]).value, price, m.roster.traders[i], i + 1);
  }

  /** The settlement loop goes through exactly when the tokens cover all payouts, and then leaves nothing open. */
  lemma {:induction false} SettlementFlattens(m: Market, price: nat, i: nat)
    requires Settling(m, i)
    ensures SettleFrom(m, price, i).Some? <==> m.cash >= PayoutsFrom(m, price, i)
    ensures SettleFrom(m, price, i).Some? ==>
              var n := SettleFrom(m, price, i).value;
              && n == m.(positions := n.positions, longInterest := n.longInterest, shortInterest := n.shortInterest, cash := n.cash)
              && n.cash == m.cash - PayoutsFrom(m, price, i)
              && (forall t :: t in n.positions ==> n.positions[t].size == 0) && n.longInterest == 0 && n.shortInterest == 0
    decreases |m.roster.traders| - i
  {
    if i == |m.roster.traders| {
      NothingOpen(m);
    } else {
      SettlingAdvances(m, price, i);
      var r := SettleOne(m, price, m.roster.traders[i]);
      if r.Some? {
        var n := r.value;
        PayoutsAdvance(m, price, i);
        SettleOneKeepsRest(m, n, price, m.roster.traders[i]);
        SettlementFlattens(n, price, i + 1);
      }
    }
  }

  lemma SettleOneKeepsRest(m: Market, n: Market, price: nat, t: Trader)
    requires SettleOne(m, price, t) == Some(n)
    ensures n == m.(positions := n.positions, longInterest := n.longInterest, shortInterest := n.shortInterest, cash := n.cash)
  {
  }

  /** When the last trader is settled nothing is open, and the totals are empty. */
  lemma NothingOpen(m: Market)
    requires Settling(m, |m.roster.traders|)
    ensures (forall t :: t in m.positions ==> m.positions[t].size == 0) && m.longInterest == 0 && m.shortInterest == 0
  {
    assert m.roster.traders[|m.roster.traders|..] == [];
    forall t | t in m.positions ensures m.positions[t].size == 0 { assert !IsOpen(m, t); }
    AllZero(m.positions, Long);
    AllZero(m.positions, Short);
  }

  lemma StartsSettling(m: Market, n: Market, now: nat)
    requires Inv(m, now) && !m.settled && n.positions == m.positions && n.roster == m.roster
    requires n.longInterest == m.longInterest && n.shortInterest == m.shortInterest
    ensures Settling(n, 0)
  {
    assert n.roster.traders[0..] == m.roster.traders;
    forall t | IsOpen(n, t) ensures t in n.roster.traders[0..] { assert IsOpen(m, t); }
    forall j, k | 0 <= j < k < |n.roster.traders| ensures n.roster.traders[j] != n.roster.traders[k] {
      assert InSlot(m.roster, j) && InSlot(m.roster, k);
    }
  }

  /** Everything final settlement has to pay. */
  function TotalPayout(m: Market, price: nat): nat { PayoutsFrom(m, price, 0) }

  lemma {:induction false} PayoutsIgnore(m: Market, n: Market, price: nat, i: nat)
    requires i <= |m.roster.traders| && n.roster == m.roster && n.spec == m.spec && n.positions == m.positions
    ensures PayoutsFrom(n, price, i) == PayoutsFrom(m, price, i)
    decreases |m.roster.traders| - i
  {
    if i < |m.roster.traders| { PayoutsIgnore(m, n, price, i + 1); }
  }

  lemma FinalKeeps(m: Market, price: nat, now: nat)
    requires Inv(m, now) && !m.settled && now >= m.spec.expiry
    ensures Final(m, true, price, now).Some? <==> m.cash >= TotalPayout(m, price)
    ensures Final(m, true, price, now).Some? ==>
              var n := Final(m, true, price, now).value; Inv(n, now) && n.settled && Flat(n) && n.cash == m.cash - TotalPayout(m, price)
  {
    var s := m.(settled := true, mark := price);
    StartsSettling(m, s, now);
    PayoutsIgnore(m, s, price, 0);
    SettlementFlattens(s, price, 0);
  }

  /** What the method needs to know of it before it enters the loop. */
  lemma FinalStarts(m: Market, price: nat, now: nat)
    requires Inv(m, now) && !m.settled && now >= m.spec.expiry
    ensures var s := m.(settled := true, mark := price);
            && Settling(s, 0)
            && Final(m, true, price, now) == FlatEnd(s, price)
    ensures Final(m, true, price, now).Some? ==> Inv(Final(m, true, price, now).value, now)
  {
    StartsSettling(m, m.(settled := true, mark := price), now);
    FinalKeeps(m, price, now);
  }

  lemma CloseKeeps(m: Market, t: Trader, size: nat, price: nat, now: nat)
    requires Inv(m, now) && Closing(m, t, size, price).Some?
    ensures Inv(Closing(m, t, size, price).value, now)
  {
    var q := Reduced(m.spec, m.feeBps, m.positions[t], size, price);
    ShrinkKeeps(m, t, q, now);
    QuietKeeps(Shrunk(m, t, q).value, Closing(m, t, size, price).value, now);
  }

  lemma LiquidateKeeps(m: Market, t: Trader, oraclePrice: nat, now: nat)
    requires Inv(m, now) && Liquidating(m, t, oraclePrice).Some?
    ensures Inv(Liquidating(m, t, oraclePrice).value, now)
  {
    var q := Seized(m.positions[t]);
    ShrinkKeeps(m, t, q, now);
    QuietKeeps(Shrunk(m, t, q).value, Liquidating(m, t, oraclePrice).value, now);
  }

  lemma DepositKeeps(m: Market, t: Trader, amount: nat, funds: nat, now: nat)
    requires Inv(m, now) && Deposited(m, t, amount, funds).Some?
    ensures Inv(Deposited(m, t, amount, funds).value, now)
  {
    var n := m.(cash := m.cash + amount);
    QuietKeeps(m, n, now);
    MarginKeeps(n, t, m.positions[t].(margin := m.positions[t].margin + amount), now);
  }

  lemma WithdrawKeeps(m: Market, t: Trader, amount: nat, now: nat)
    requires Inv(m, now) && Withdrawn(m, t, amount).Some?
    ensures Inv(Withdrawn(m, t, amount).value, now)
  {
    var q := m.positions[t].(margin := m.positions[t].margin - amount);
    MarginKeeps(m, t, q, now);
    QuietKeeps(SetPosition(m, t, q), Withdrawn(m, t, amount).value, now);
  }

  lemma DailyKeeps(m: Market, price: nat, now: nat)
    requires Inv(m, now) && Daily(m, true, price).Some?
    ensures Inv(Daily(m, true, price).value, now)
  {
    assert forall t :: IsOpen(m.(mark := price), t) == IsOpen(m, t);
    MarkingKeeps(m.(mark := price), price, 0, now);
  }

  lemma ApplyKeeps(m: Market, op: Op, now: nat)
    requires Inv(m, now) && Apply(m, op, now).Some?
    ensures Inv(Apply(m, op, now).value, now)
  {
    match op
    case OpenPosition(t, side, size, price, margin, funds) => OpenKeeps(m, t, side, size, price, margin, funds, now);
    case ClosePosition(t, size, price) => CloseKeeps(m, t, size, price, now);
    case DepositMargin(t, amount, funds) => DepositKeeps(m, t, amount, funds, now);
    case WithdrawMargin(t, amount) => WithdrawKeeps(m, t, amount, now);
    case DailySettlement(_, price) => DailyKeeps(m, price, now);
    case Liquidate(t, oraclePrice) => LiquidateKeeps(m, t, oraclePrice, now);
    case FinalSettlement(_, price) => FinalKeeps(m, price, now);
    case _ => QuietKeeps(m, Apply(m, op, now).value, now);
  }

  /** Once settled, nothing reopens it. */
  lemma SettledIsQuiet(m: Market, op: Op, now: nat)
    requires Inv(m, now) && m.settled && Apply(m, op, now).Some?
    ensures Apply(m, op, now).value.settled
  {
    assert forall t :: !IsOpen(m, t);
  }

  // ---------------------------------------------------------------- whole runs

  datatype Event = Tick(seconds: nat) | Call(op: Op)

  /** A market and the time. */
  datatype World = World(market: Market, now: nat)

  ghost function Step(w: World, e: Event): World
    requires Inv(w.market, w.now)
  {
    match e
    case Tick(seconds) => w.(now := w.now + seconds)
    case Call(op) => match Apply(w.market, op, w.now) case None => w case Some(m) => w.(market := m)
  }

  lemma StepKeeps(w: World, e: Event)
    requires Inv(w.market, w.now)
    ensures Inv(Step(w, e).market, Step(w, e).now) && (w.market.settled ==> Step(w, e).market.settled)
  {
    if e.Call? && Apply(w.market, e.op, w.now).Some? {
      ApplyKeeps(w.market, e.op, w.now);
      if w.market.settled { SettledIsQuiet(w.market, e.op, w.now); }
    }
  }

  ghost function Run(w: World, events: seq<Event>): (r: World)
    requires Inv(w.market, w.now)
    ensures Inv(r.market, r.now) && (w.market.settled ==> r.market.settled)
    decreases |events|
  {
    if events == [] then w else StepKeeps(w, events[0]); Run(Step(w, events[0]), events[1..])
  }

  lemma ListedInv(spec: Spec, feeBps: nat, collects: bool, cash: nat, now: nat)
    requires ValidSpec(spec)
    ensures Inv(Market(spec, map[], Roster([], map[]), 0, 0, 0, false, feeBps, false, collects, cash), now)
  {
  }

  /**
   Until final settlement, in every run: the trader array has no duplicates and holds exactly the open
   positions, the index finds each of them, and each side's open interest is the sum of its open sizes.
   */
  lemma BooksAgree(w: World, events: seq<Event>)
    requires Inv(w.market, w.now) && !Run(w, events).market.settled
    ensures var m := Run(w, events).market;
            && (forall i, j :: 0 <= i < j < |m.roster.traders| ==> m.roster.traders[i] != m.roster.traders[j])
            && (forall t :: IsOpen(m, t) <==> t in m.roster.traders)
            && (forall t :: IsOpen(m, t) ==> 0 < Get(m.roster.index, t) <= |m.roster.traders| && m.roster.traders[Get(m.roster.index, t) - 1] == t)
            && m.longInterest == Sum(m.positions, SizeOn(Long)) && m.shortInterest == Sum(m.positions, SizeOn(Short))
  {
    var m := Run(w, events).market;
    forall t ensures Findable(m.roster, t) && (IsOpen(m, t) <==> Get(m.roster.index, t) != 0) { KnownIffIn(m.roster, t); }
    forall i, j | 0 <= i < j < |m.roster.traders| ensures m.roster.traders[i] != m.roster.traders[j] {
      assert InSlot(m.roster, i) && InSlot(m.roster, j);
    }
  }

  /** After final settlement every size and both open interests are zero, whatever comes later. */
  lemma SettledForGood(w: World, events: seq<Event>)
    requires Inv(w.market, w.now) && w.market.settled
    ensures var m := Run(w, events).market;
            m.settled && m.longInterest == 0 && m.shortInterest == 0 && forall t :: t in m.positions ==> m.positions[t].size == 0
  {
    assert Flat(Run(w, events).market);
  }

  /** A keeper can settle exactly once, from expiry on, and exactly when the tokens cover the payouts: nothing else blocks it. */
  lemma FinalSettlesIff(w: World, events: seq<Event>, keeper: bool, price: nat)
    requires Inv(w.market, w.now)
    ensures var r := Run(w, events);
            Final(r.market, keeper, price, r.now).Some?
            <==> keeper && r.now >= r.market.spec.expiry && !r.market.settled && r.market.cash >= TotalPayout(r.market, price)
  {
    var r := Run(w, events);
    if keeper && r.now >= r.market.spec.expiry && !r.market.settled { FinalKeeps(r.market, price, r.now); }
  }

  /** A position can be closed by any part exactly at aligned prices and when the tokens cover the payment; books never block it. */
  lemma OpenCanCloseIff(w: World, events: seq<Event>, t: Trader, size: nat, price: nat)
    requires Inv(w.market, w.now)
    ensures var m := Run(w, events).market;
            Closing(m, t, size, price).Some?
            <==> IsOpen(m, t) && 0 < size <= m.positions[t].size && Aligned(m.spec, price)
                 && m.cash >= CloseDue(m, m.positions[t], size, price)
    ensures var m := Run(w, events).market;
            IsOpen(m, t) && size == m.positions[t].size && Closing(m, t, size, price).Some?
            ==> var n := Closing(m, t, size, price).value; !IsOpen(n, t) && t !in n.roster.traders
  {
    var m := Run(w, events).market;
    if IsOpen(m, t) && 0 < size <= m.positions[t].size {
      ShrinkKeeps(m, t, Reduced(m.spec, m.feeBps, m.positions[t], size, price), Run(w, events).now);
    }
  }

  // ---------------------------------------------------------------- prices

  lemma AverageWithin(lo: nat, hi: nat, oldPrice: nat, oldSize: nat, price: nat, size: nat)
    requires lo <= oldPrice <= hi && lo <= price <= hi && oldSize + size > 0
    ensures lo <= Average(oldPrice, oldSize, price, size) <= hi
  {
    var n, d := oldPrice * oldSize + price * size, oldSize + size;
    MulMono(lo, oldPrice, oldSize, oldSize);
    MulMono(lo, price, size, size);
    MulMono(oldPrice, hi, oldSize, oldSize);
    MulMono(price, hi, size, size);
    assert lo * d == lo * oldSize + lo * size && hi * d == hi * oldSize + hi * size;
    DivAtLeast(n, d, lo);
    DivMono(n, hi * d, d);
    DivUnique(hi * d, d, hi);
  }

  /** Adding to a position moves the entry price between the two prices, never outside. */
  lemma AverageBetween(oldPrice: nat, oldSize: nat, price: nat, size: nat)
    requires oldSize > 0 && size > 0
    ensures oldPrice <= price ==> oldPrice <= Average(oldPrice, oldSize, price, size) <= price
    ensures price <= oldPrice ==> price <= Average(oldPrice, oldSize, price, size) <= oldPrice
  {
    if oldPrice <= price {
      AverageWithin(oldPrice, price, oldPrice, oldSize, price, size);
    } else {
      AverageWithin(price, oldPrice, oldPrice, oldSize, price, size);
    }
  }

  /** A position just opened cannot be liquidated at the price it was opened at. */
  lemma FreshIsSafe(m: Market, t: Trader, side: Side, size: nat, price: nat, margin: nat, funds: nat, now: nat, oraclePrice: nat)
    requires Inv(m, now) && !IsOpen(m, t) && Opened(m, t, side, size, price, margin, funds, now).Some?
    ensures var n := Opened(m, t, side, size, price, margin, funds, now).value;
            MarkOr(n, oraclePrice) == price ==> Liquidating(n, t, oraclePrice).None?
  {
    var notional := Notional(m.spec, size, price);
    MulMono(notional, notional, m.spec.maintenanceBps, m.spec.initialBps);
    DivMono(notional * m.spec.maintenanceBps, notional * m.spec.initialBps, BPS);
    var n := Opened(m, t, side, size, price, margin, funds, now).value;
    assert n.positions[t] == Position(side, size, price, margin, 0, price, Open);
    assert Pnl(m.spec, side, price, price, size) == 0;
  }

  /** What one side gains between two prices the other loses: rounding towards zero is symmetric. */
  lemma PnlIsZeroSum(s: Spec, from: nat, to: nat, size: nat)
    ensures Pnl(s, Long, from, to, size) + Pnl(s, Short, from, to, size) == 0
  {
    var gain := (to - from) * size * s.contractSize;
    assert (from - to) * size == -((to - from) * size);
    assert (from - to) * size * s.contractSize == -gain;
  }

  // ---------------------------------------------------------------- a gain paid twice

  /** What truncation leaves has the sign of the number and is smaller than the divisor. */
  lemma TruncBounds(n: int, d: nat)
    requires d > 0
    ensures var r := n - TruncDiv(n, d) * d; if n >= 0 then 0 <= r < d else -(d as int) < r <= 0
  {
    if n >= 0 {
      DivBounds(n, d);
    } else {
      DivBounds(-n, d);
      assert TruncDiv(n, d) * d == -(-n / d * d);
    }
  }

  lemma TruncAdds(a: int, b: int, d: nat)
    requires d > 0
    ensures -1 <= TruncDiv(a + b, d) - TruncDiv(a, d) - TruncDiv(b, d) <= 1
  {
    TruncBounds(a, d);
    TruncBounds(b, d);
    TruncBounds(a + b, d);
    Distributed(TruncDiv(a + b, d), TruncDiv(a, d), TruncDiv(b, d), d);
    Between(TruncDiv(a + b, d) - TruncDiv(a, d) - TruncDiv(b, d), d);
  }

  lemma Distributed(z: int, x: int, y: int, d: nat)
    ensures (z - x - y) * d == z * d - x * d - y * d
  {
  }

  lemma Between(e: int, d: nat)
    requires d > 0 && -2 * d < e * d < 2 * d
    ensures -1 <= e <= 1
  {
    MulCancel(2, e, d);
    MulCancel(e, -2, d);
  }

  /**
   A close pays the gain from the entry price on. Daily settlement has credited the part up to its mark
   already, so that part is paid again, whole but for a unit of rounding.
   */
  lemma ClosePaysSettledGainAgain(s: Spec, p: Position, price: nat, size: nat)
    ensures var again := Pnl(s, p.side, p.entryPrice, price, size) - Pnl(s, p.side, p.lastSettlement, price, size);
            -1 <= again - Pnl(s, p.side, p.entryPrice, p.lastSettlement, size) <= 1
  {
    var u, v, w := p.entryPrice, p.lastSettlement, price;
    var sign := if p.side.Long? then 1 else -1;
    var a, b := Exact(s, p.side, u, v, size), Exact(s, p.side, v, w, size);
    ExactAdds(s, p.side, u, v, w, size);
    TruncAdds(a, b, PRECISION);
  }

  /** A gain before rounding. */
  function Exact(s: Spec, side: Side, from: nat, to: nat, size: nat): int {
    (if side.Long? then to - from else from - to) * size * s.contractSize
  }

  lemma ExactAdds(s: Spec, side: Side, u: nat, v: nat, w: nat, size: nat)
    ensures Exact(s, side, u, w, size) == Exact(s, side, u, v, size) + Exact(s, side, v, w, size)
  {
    var a, b := if side.Long? then v - u else u - v, if side.Long? then w - v else v - w;
    assert (a + b) * size == a * size + b * size;
    assert (a * size + b * size) * s.contractSize == a * size * s.contractSize + b * size * s.contractSize;
  }

  /** A gain as the settlement counts it is the gain a close pays, at every price, exactly when nothing was settled since entry. */
  lemma PaysOnlyUnsettledIff(s: Spec, p: Position)
    requires ValidSpec(s) && p.size > 0
    ensures (forall price: nat :: SameGain(s, p, price)) <==> p.entryPrice == p.lastSettlement
  {
    if p.entryPrice != p.lastSettlement {
      var hi, lo := if p.entryPrice > p.lastSettlement then p.entryPrice else p.lastSettlement,
                    if p.entryPrice > p.lastSettlement then p.lastSettlement else p.entryPrice;
      var n := p.size * s.contractSize;
      MulMono(1, p.size, 1, s.contractSize);
      var t := (PRECISION - 1) / n;
      DivBounds(PRECISION - 1, n);
      Straddle(s, p.side, lo, hi, t, p.size);
      assert !SameGain(s, p, hi + t);
    }
  }

  ghost predicate SameGain(s: Spec, p: Position, price: nat) {
    Pnl(s, p.side, p.entryPrice, price, p.size) == Pnl(s, p.side, p.lastSettlement, price, p.size)
  }

  /** At t above the higher of two prices, one gain is still rounded to zero and the other is not. */
  lemma Straddle(s: Spec, side: Side, lo: nat, hi: nat, t: nat, size: nat)
    requires lo < hi && t * (size * s.contractSize) < PRECISION <= (t + 1) * (size * s.contractSize)
    ensures Pnl(s, side, hi, hi + t, size) == 0 && Pnl(s, side, lo, hi + t, size) != 0
  {
    var n := size * s.contractSize;
    var k := hi + t - lo;
    assert forall x: int :: x * size * s.contractSize == x * n;
    assert (-(t as int)) * n == -(t * n) && (-k) * n == -(k * n);
    MulMono(t + 1, k, n, n);
    DivUnique(t * n, PRECISION, 0);
    DivAtLeast(k * n, PRECISION, 1);
  }

  // ---------------------------------------------------------------- a run in which it matters

  const UNIT := Spec(1000, PRECISION, 1, 1000, 500)

  /** Two traders with 60 of margin each, long and short one unit at 100; the position of each is at `margin` and `last`. */
  function TwoSided(long: Position, short: Position, mark: nat): Market {
    Market(UNIT, map[1 := long, 2 := short], Roster([1, 2], map[1 := 1, 2 := 2]), 1, 1, mark, false, 0, false, false, 120)
  }

  lemma UnitNumbers()
    ensures Notional(UNIT, 1, 100) == 100 && Notional(UNIT, 1, 150) == 150
    ensures Bps(100, 0) == 0 && Bps(150, 0) == 0 && Bps(100, 1000) == 10
    ensures Pnl(UNIT, Long, 100, 150, 1) == 50 && Pnl(UNIT, Short, 100, 150, 1) == -50
  {
  }

  const LONG := Position(Long, 1, 100, 60, 0, 100, Open)
  const SHORT := Position(Short, 1, 100, 60, 0, 100, Open)
  const LONG_UP := Position(Long, 1, 100, 110, 50, 150, Open)
  const SHORT_DOWN := Position(Short, 1, 100, 10, -50, 150, Open)

  /** The run up to the daily settlement at 150: 110 and 10 of margin, 120 of tokens. */
  lemma TwoSidedRun()
    ensures var m0 := Market(UNIT, map[], Roster([], map[]), 0, 0, 0, false, 0, false, false, 0);
            var m1 := Opened(m0, 1, Long, 1, 100, 60, 60, 0);
            && m1.Some? && Opened(m1.value, 2, Short, 1, 100, 60, 60, 0) == Some(TwoSided(LONG, SHORT, 0))
    ensures Daily(TwoSided(LONG, SHORT, 0), true, 150) == Some(TwoSided(LONG_UP, SHORT_DOWN, 150))
  {
    UnitNumbers();
    var m0 := Market(UNIT, map[], Roster([], map[]), 0, 0, 0, false, 0, false, false, 0);
    var m1 := Market(UNIT, map[1 := LONG], Roster([1], map[1 := 1]), 1, 0, 0, false, 0, false, false, 60);
    assert m0.positions[1 := LONG] == m1.positions && m0.roster.traders + [1] == [1] && m0.roster.index[1 := 1] == m1.roster.index;
    assert Opened(m0, 1, Long, 1, 100, 60, 60, 0) == Some(m1);
    var m2 := TwoSided(LONG, SHORT, 0);
    assert m1.positions[2 := SHORT] == m2.positions && [1] + [2] == [1, 2] && m1.roster.index[2 := 2] == m2.roster.index;
    assert Opened(m1, 2, Short, 1, 100, 60, 60, 0) == Some(m2);
    DailyAt150();
  }

  lemma DailyAt150()
    ensures Daily(TwoSided(LONG, SHORT, 0), true, 150) == Some(TwoSided(LONG_UP, SHORT_DOWN, 150))
  {
    UnitNumbers();
    var s0, s1, s2 := TwoSided(LONG, SHORT, 150), TwoSided(LONG_UP, SHORT, 150), TwoSided(LONG_UP, SHORT_DOWN, 150);
    assert s0.positions[1 := LONG_UP] == s1.positions && s1.positions[2 := SHORT_DOWN] == s2.positions;
    assert MarkFrom(s2, 150, 2) == s2;
    assert MarkFrom(s1, 150, 1) == s2;
    assert MarkFrom(s0, 150, 0) == s2;
  }

  /**
   The margins add up to the tokens, but a close at the mark asks for the long's gain of 50 again: 160 of
   the 120 there are. It reverts, where liquidating the books at the mark would have been covered.
   */
  lemma SettledGainBlocksClose()
    ensures var m := TwoSided(LONG_UP, SHORT_DOWN, 150);
            && m.cash == LONG_UP.margin + SHORT_DOWN.margin && TotalPayout(m, 150) == m.cash
            && CloseDue(m, LONG_UP, 1, 150) == 160 && Closing(m, 1, 1, 150) == None
  {
    UnitNumbers();
    var m := TwoSided(LONG_UP, SHORT_DOWN, 150);
    assert Release(LONG_UP, 1) == 110 by { DivUnique(110 * 1, 1, 110); }
    assert Pnl(UNIT, Long, 150, 150, 1) == 0 && Pnl(UNIT, Short, 150, 150, 1) == 0;
    assert PayoutsFrom(m, 150, 2) == 0;
    assert PayoutsFrom(m, 150, 1) == 10;
    assert PayoutsFrom(m, 150, 0) == 120;
  }
}

/** The market object, for one contract id. */
module FuturesContract {
  import opened Options
  import opened Numbers
  import opened FuturesModel

  class FuturesBook {
    const spec: Spec
    var positions: map<Trader, Position>
    var traders: seq<Trader>
    var traderIndex: map<Trader, nat>
    var longOpenInterest: nat
    var shortOpenInterest: nat
    var lastSettlementPrice: nat
    var isFinallySettled: bool
    var tradingFeeBps: nat
    var paused: bool
    var hasFeeReceiver: bool
    var quoteBalance: nat

    function State(): Market
      reads this
    {
      Market(spec, positions, Roster(traders, traderIndex), longOpenInterest, shortOpenInterest, lastSettlementPrice,
             isFinallySettled, tradingFeeBps, paused, hasFeeReceiver, quoteBalance)
    }

    constructor (spec: Spec, feeBps: nat, receiver: bool, tokens: nat)
      requires ValidSpec(spec)
      ensures State().spec == spec && forall now :: Inv(State(), now)
    {
      this.spec := spec;
      positions, traders, traderIndex, longOpenInterest, shortOpenInterest := map[], [], map[], 0, 0;
      lastSettlementPrice, isFinallySettled, tradingFeeBps, paused := 0, false, feeBps, false;
      hasFeeReceiver, quoteBalance := receiver, tokens;
      new;
      forall now: nat ensures Inv(State(), now) { ListedInv(spec, feeBps, receiver, tokens, now); }
    }

    method AddTrader(t: Trader)
      requires Indexed(Roster(traders, traderIndex))
      modifies this`traders, this`traderIndex
      ensures Roster(traders, traderIndex) == FuturesModel.AddTrader(old(Roster(traders, traderIndex)), t)
      ensures Indexed(Roster(traders, traderIndex)) && forall u :: u in traders <==> u in old(traders) || u == t
    {
      AdditionKeepsIndex(Roster(traders, traderIndex), t);
      if Get(traderIndex, t) != 0 { return; }
      traders := traders + [t];
      traderIndex := traderIndex[t := |traders|];
    }

    method RemoveTrader(t: Trader)
      requires Indexed(Roster(traders, traderIndex))
      modifies this`traders, this`traderIndex
      ensures FuturesModel.RemoveTrader(old(Roster(traders, traderIndex)), t) == Some(Roster(traders, traderIndex))
      ensures Indexed(Roster(traders, traderIndex)) && forall u :: u in traders <==> u in old(traders) && u != t
    {
      RemovalKeepsIndex(Roster(traders, traderIndex), t);
      assert Findable(Roster(traders, traderIndex), t);
      var idx := Get(traderIndex, t);
      if idx == 0 { return; }
      var lastIdx, removeIdx := |traders| - 1, idx - 1;
      traderIndex := traderIndex[t := 0];
      if removeIdx != lastIdx {
        var lastTrader := traders[lastIdx];
        traders := traders[removeIdx := lastTrader];
        traderIndex := traderIndex[lastTrader := removeIdx + 1];
      }
      traders := traders[..lastIdx];
    }

    method OpenPosition(t: Trader, side: Side, size: nat, price: nat, margin: nat, funds: nat, now: nat) returns (ok: bool)
      requires Inv(State(), now)
      modifies this
      ensures ok == Opened(old(State()), t, side, size, price, margin, funds, now).Some?
      ensures State() == if ok then Opened(old(State()), t, side, size, price, margin, funds, now).value else old(State())
      ensures Inv(State(), now)
    {
      OpenLists(State(), t, side, size, price, margin, funds, now);
      ok := TakeIn(t, side, size, price, margin, funds, now);
      if ok { Record(t, side, size, price, margin); }
    }

    /** The checks of `openPosition` and its transfers. */
    method TakeIn(t: Trader, side: Side, size: nat, price: nat, margin: nat, funds: nat, now: nat) returns (ok: bool)
      requires ValidSpec(spec)
      modifies this`quoteBalance
      ensures ok == Opened(old(State()), t, side, size, price, margin, funds, now).Some?
      ensures ok ==> size > 0 && Opened(old(State()), t, side, size, price, margin, funds, now) == Some(Grown(State(), t, side, size, price, margin))
      ensures !ok ==> unchanged(this)
    {
      if paused || size == 0 || now >= spec.expiry || !Aligned(spec, price) { return false; }
      var notional := Notional(spec, size, price);
      if margin < Bps(notional, spec.initialBps) { return false; }
      var fee := Bps(notional, tradingFeeBps);
      if funds < margin + fee { return false; }
      if t in positions && positions[t].status.Open? && positions[t].size > 0 && positions[t].side != side { return false; }
      quoteBalance := quoteBalance + margin + fee;
      if fee > 0 && hasFeeReceiver { quoteBalance := quoteBalance - fee; }
      ok := true;
    }

    /** The part of opening that touches the books. */
    method Record(t: Trader, side: Side, size: nat, price: nat, margin: nat)
      requires size > 0 && Indexed(Roster(traders, traderIndex))
      modifies this`positions, this`traders, this`traderIndex, this`longOpenInterest, this`shortOpenInterest
      ensures State() == Grown(old(State()), t, side, size, price, margin)
    {
      if t in positions && positions[t].status.Open? && positions[t].size > 0 {
        var pos := positions[t];
        var entryPrice := Average(pos.entryPrice, pos.size, price, size);
        var last := if pos.lastSettlement == 0 then price else pos.lastSettlement;
        positions := positions[t := pos.(entryPrice := entryPrice, size := pos.size + size, margin := pos.margin + margin,
                                         lastSettlement := last)];
      } else {
        positions := positions[t := Position(side, size, price, margin, 0, price, Open)];
        AddTrader(t);
      }
      if side.Long? { longOpenInterest := longOpenInterest + size; } else { shortOpenInterest := shortOpenInterest + size; }
    }

    /** The part of closing that touches only the position, and what it owes the trader. */
    method ReducePosition(p: Position, size: nat, price: nat) returns (pos: Position, pnl: int, netTransfer: int)
      requires 0 < size <= p.size
      ensures pos == Reduced(spec, tradingFeeBps, p, size, price) && pnl == Pnl(spec, p.side, p.entryPrice, price, size)
      ensures netTransfer == Net(spec, tradingFeeBps, p, size, price)
    {
      pnl := Pnl(spec, p.side, p.entryPrice, price, size);
      var fee := CloseFee(spec, tradingFeeBps, size, price);
      var marginRelease := Release(p, size);
      pos := p.(size := p.size - size, margin := p.margin - marginRelease, realisedPnl := p.realisedPnl + pnl);
      netTransfer := marginRelease + pnl - fee;
      if pos.size == 0 { pos := pos.(status := Closed); }
      if netTransfer < 0 {
        var owed := -netTransfer;
        pos := pos.(margin := if owed <= pos.margin then pos.margin - owed else 0);
      }
    }

    /** A position becomes smaller, open interest with it, and an empty one leaves the array. */
    method Shrink(t: Trader, pos: Position)
      requires Indexed(Roster(traders, traderIndex)) && Totalled(State())
      requires IsOpen(State(), t) && pos.side == positions[t].side && pos.size <= positions[t].size
      modifies this`positions, this`traders, this`traderIndex, this`longOpenInterest, this`shortOpenInterest
      ensures Shrunk(old(State()), t, pos) == Some(State())
    {
      InterestCovers(State(), t);
      var size := positions[t].size - pos.size;
      positions := positions[t := pos];
      if pos.side.Long? { longOpenInterest := longOpenInterest - size; } else { shortOpenInterest := shortOpenInterest - size; }
      if pos.size == 0 { RemoveTrader(t); }
    }

    /** The payments come last; without the tokens for them nothing has happened. */
    method ClosePosition(t: Trader, size: nat, price: nat, ghost now: nat) returns (ok: bool, pnl: int, paid: nat, feePaid: nat)
      requires Inv(State(), now)
      modifies this
      ensures ok == Closing(old(State()), t, size, price).Some?
      ensures State() == if ok then Closing(old(State()), t, size, price).value else old(State())
      ensures ok ==> pnl == Pnl(spec, old(positions)[t].side, old(positions)[t].entryPrice, price, size)
      ensures ok ==> paid == Positive(Net(spec, tradingFeeBps, old(positions)[t], size, price))
                     && feePaid == (if hasFeeReceiver then CloseFee(spec, tradingFeeBps, size, price) else 0)
                     && quoteBalance == old(quoteBalance) - paid - feePaid
      ensures Inv(State(), now)
    {
      if Closing(State(), t, size, price).Some? { CloseKeeps(State(), t, size, price, now); }
      ok, pnl, paid, feePaid := false, 0, 0, 0;
      if !Aligned(spec, price) || t !in positions { return; }
      var p := positions[t];
      if !p.status.Open? || p.size == 0 || size == 0 || size > p.size { return; }
      var pos, gain, netTransfer := ReducePosition(p, size, price);
      var toTrader := Positive(netTransfer);
      var toReceiver := if hasFeeReceiver then CloseFee(spec, tradingFeeBps, size, price) else 0;
      ShrunkCash(State(), t, pos);
      if quoteBalance < toTrader + toReceiver { return; }
      Shrink(t, pos);
      quoteBalance := quoteBalance - toTrader - toReceiver;
      ok, pnl, paid, feePaid := true, gain, toTrader, toReceiver;
    }

    /** One position, marked to a price. */
    method MarkPosition(p: Position, markPrice: nat) returns (pos: Position)
      ensures pos == Marked(spec, p, markPrice)
    {
      var pnlDelta := Pnl(spec, p.side, p.lastSettlement, markPrice, p.size);
      pos := p.(lastSettlement := markPrice, realisedPnl := p.realisedPnl + pnlDelta);
      if pnlDelta > 0 {
        pos := pos.(margin := pos.margin + pnlDelta);
      } else if pnlDelta < 0 {
        var loss := -pnlDelta;
        pos := pos.(margin := if loss >= pos.margin then 0 else pos.margin - loss);
      }
    }

    method DailySettlement(keeper: bool, markPrice: nat, ghost now: nat) returns (ok: bool)
      requires Inv(State(), now)
      modifies this
      ensures ok == Daily(old(State()), keeper, markPrice).Some?
      ensures State() == if ok then Daily(old(State()), keeper, markPrice).value else old(State())
      ensures Inv(State(), now)
    {
      if Daily(State(), keeper, markPrice).Some? { DailyKeeps(State(), markPrice, now); }
      if !keeper || isFinallySettled { return false; }
      lastSettlementPrice := markPrice;
      ghost var start := State();
      for i := 0 to |traders|
        invariant State() == start.(positions := positions)
        invariant MarkFrom(start, markPrice, 0) == MarkFrom(State(), markPrice, i)
      {
        var trader := traders[i];
        if trader !in positions || !positions[trader].status.Open? || positions[trader].size == 0 { continue; }
        var pos := MarkPosition(positions[trader], markPrice);
        positions := positions[trader := pos];
      }
      ok := true;
    }

    /** Also what the liquidator and the trader are paid. */
    method Liquidate(t: Trader, oraclePrice: nat, ghost now: nat) returns (ok: bool, penalty: nat, remainingMargin: nat)
      requires Inv(State(), now)
      modifies this
      ensures ok == Liquidating(old(State()), t, oraclePrice).Some?
      ensures State() == if ok then Liquidating(old(State()), t, oraclePrice).value else old(State())
      ensures Inv(State(), now)
      ensures ok ==> penalty + remainingMargin == old(positions)[t].margin && penalty == Penalty(old(positions)[t].margin)
    {
      if Liquidating(State(), t, oraclePrice).Some? { LiquidateKeeps(State(), t, oraclePrice, now); }
      ok, penalty, remainingMargin := false, 0, 0;
      if t !in positions { return; }
      var pos := positions[t];
      if !pos.status.Open? || pos.size == 0 { return; }
      var markPrice := if lastSettlementPrice == 0 then oraclePrice else lastSettlementPrice;
      var maintenanceReq := Bps(Notional(spec, pos.size, markPrice), spec.maintenanceBps);
      var effectiveMargin := pos.margin + Pnl(spec, pos.side, pos.lastSettlement, markPrice, pos.size);
      if effectiveMargin >= maintenanceReq { return; }
      ShareAtMost(pos.margin, LIQUIDATION_PENALTY_BPS, BPS);
      penalty := Bps(pos.margin, LIQUIDATION_PENALTY_BPS);
      remainingMargin := if pos.margin > penalty then pos.margin - penalty else 0;
      ShrunkCash(State(), t, Seized(pos));
      if quoteBalance < penalty + remainingMargin { return; }
      Shrink(t, pos.(size := 0, margin := 0, status := Liquidated));
      quoteBalance := quoteBalance - penalty - remainingMargin;
      ok := true;
    }

    /** One round of the loop below; the open interest must cover the position, or the subtraction would revert. */
    method SettleTrader(trader: Trader, finalPrice: nat) returns (ok: bool)
      requires IsOpen(State(), trader) ==> positions[trader].size <= Interest(State(), positions[trader].side)
      modifies this`positions, this`longOpenInterest, this`shortOpenInterest, this`quoteBalance
      ensures ok == SettleOne(old(State()), finalPrice, trader).Some?
      ensures ok ==> SettleOne(old(State()), finalPrice, trader) == Some(State())
    {
      if trader !in positions || !positions[trader].status.Open? || positions[trader].size == 0 { return true; }
      var pos := positions[trader];
      var pnl := Pnl(spec, pos.side, pos.lastSettlement, finalPrice, pos.size);
      var netPayout := pos.margin + pnl;
      if pos.side.Long? { longOpenInterest := longOpenInterest - pos.size; } else { shortOpenInterest := shortOpenInterest - pos.size; }
      positions := positions[trader := pos.(size := 0, margin := 0, status := Closed, lastSettlement := finalPrice,
                                            realisedPnl := pos.realisedPnl + pnl)];
      if netPayout > 0 {
        if quoteBalance < netPayout { return false; }
        quoteBalance := quoteBalance - netPayout;
      }
      ok := true;
    }

    /** The loop of `finalSettlement`; on failure the caller puts everything back. */
    method SettleAll(finalPrice: nat) returns (ok: bool)
      requires Settling(State(), 0)
      modifies this`positions, this`longOpenInterest, this`shortOpenInterest, this`quoteBalance
      ensures ok == SettleFrom(old(State()), finalPrice, 0).Some?
      ensures ok ==> State() == SettleFrom(old(State()), finalPrice, 0).value
    {
      for i := 0 to |traders|
        invariant Settling(State(), i)
        invariant SettleFrom(old(State()), finalPrice, 0) == SettleFrom(State(), finalPrice, i)
      {
        SettlingAdvances(State(), finalPrice, i);
        if IsOpen(State(), traders[i]) { RoundSettles(State(), finalPrice, i); }
        ok := SettleTrader(traders[i], finalPrice);
        if !ok { return; }
      }
      ok := true;
    }

    method FinalSettlement(keeper: bool, finalPrice: nat, now: nat) returns (ok: bool)
      requires Inv(State(), now)
      modifies this
      ensures ok == Final(old(State()), keeper, finalPrice, now).Some?
      ensures State() == if ok then Final(old(State()), keeper, finalPrice, now).value else old(State())
      ensures Inv(State(), now) && (ok ==> isFinallySettled)
    {
      if !keeper || now < spec.expiry || isFinallySettled { return false; }
      FinalStarts(State(), finalPrice, now);
      var positions0, long0, short0, cash0, mark0 := positions, longOpenInterest, shortOpenInterest, quoteBalance, lastSettlementPrice;
      isFinallySettled, lastSettlementPrice := true, finalPrice;
      ok := SettleAll(finalPrice);
      if ok {
        traders := [];
      } else {
        positions, longOpenInterest, shortOpenInterest, quoteBalance := positions0, long0, short0, cash0;
        isFinallySettled, lastSettlementPrice := false, mark0;
      }
    }
  }
}
