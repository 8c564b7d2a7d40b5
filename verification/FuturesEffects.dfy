/** What each call on a futures contract costs and pays, and what settlement is worth to a trader. */
module FuturesEffects {
  import opened Options
  import opened Numbers
  import opened FuturesModel

  // ---------------------------------------------------------------- gains and notionals

  /** The gain has that sign, and is the most whole units it covers, either way. */
  lemma PnlIsTruncated(s: Spec, side: Side, from: nat, to: nat, size: nat, x: nat)
    ensures var pnl, exact := Pnl(s, side, from, to, size), Exact(s, side, from, to, size);
            && exact == (if side.Long? then to - from else from - to) * size * s.contractSize
            && (exact >= 0 ==> pnl >= 0 && (x <= pnl <==> x * PRECISION <= exact))
            && (exact <= 0 ==> pnl <= 0 && (x <= -pnl <==> x * PRECISION <= -exact))
  {
    var exact := Exact(s, side, from, to, size);
    if exact >= 0 { DivAtLeast(exact, PRECISION, x); }
    if exact <= 0 { DivAtLeast(-exact, PRECISION, x); }
    assert exact == 0 ==> exact / PRECISION == 0;
  }

  lemma NotionalIs(s: Spec, size: nat, price: nat, x: nat)
    ensures x <= Notional(s, size, price) <==> x * PRECISION <= size * s.contractSize * price
  {
    DivAtLeast(size * s.contractSize * price, PRECISION, x);
  }

  lemma BpsIs(amount: nat, rate: nat, x: nat)
    ensures x <= Bps(amount, rate) <==> x * 10000 <= amount * rate
  {
    DivAtLeast(amount * rate, 10000, x);
  }

  // ---------------------------------------------------------------- opening

  /** Opening commits exactly before expiry at an aligned price, with the initial margin, the tokens for it and the fee, and on the same side as before. */
  lemma OpenCommitsIff(m: Market, t: Trader, side: Side, size: nat, price: nat, margin: nat, funds: nat, now: nat)
    requires ValidSpec(m.spec)
    ensures Opened(m, t, side, size, price, margin, funds, now).Some?
            <==> !m.paused && size > 0 && now < m.spec.expiry && price % m.spec.tickSize == 0
                 && Notional(m.spec, size, price) * m.spec.initialBps < (margin + 1) * 10000
                 && margin + Bps(Notional(m.spec, size, price), m.feeBps) <= funds
                 && (IsOpen(m, t) ==> m.positions[t].side == side)
  {
    BpsIs(Notional(m.spec, size, price), m.spec.initialBps, margin + 1);
  }

  /** It takes in margin and fee, keeps the fee if nobody receives it, and touches only the caller's position. */
  lemma OpenTakesIn(m: Market, t: Trader, side: Side, size: nat, price: nat, margin: nat, funds: nat, now: nat)
    requires ValidSpec(m.spec) && Opened(m, t, side, size, price, margin, funds, now).Some?
    ensures var n := Opened(m, t, side, size, price, margin, funds, now).value;
            && n.cash == m.cash + margin + (if m.collects then 0 else Bps(Notional(m.spec, size, price), m.feeBps))
            && Interest(n, side) == Interest(m, side) + size
            && n.longInterest + n.shortInterest == m.longInterest + m.shortInterest + size
            && IsOpen(n, t) && n.positions[t].side == side
            && (forall u :: u != t ==> (u in n.positions <==> u in m.positions) && (u in m.positions ==> n.positions[u] == m.positions[u]))
            && (!IsOpen(m, t) ==> n.positions[t] == Position(side, size, price, margin, 0, price, Open))
            && (IsOpen(m, t) ==> n.positions[t].size == m.positions[t].size + size && n.positions[t].margin == m.positions[t].margin + margin)
  {
  }

  /** The entry price of a larger position is the floored average, weighted by size. */
  lemma OpenAveragesEntry(m: Market, t: Trader, side: Side, size: nat, price: nat, margin: nat, funds: nat, now: nat, x: nat)
    requires ValidSpec(m.spec) && IsOpen(m, t) && Opened(m, t, side, size, price, margin, funds, now).Some?
    ensures var p, q := m.positions[t], Opened(m, t, side, size, price, margin, funds, now).value.positions[t];
            x <= q.entryPrice <==> x * (p.size + size) <= p.entryPrice * p.size + price * size
  {
    var p := m.positions[t];
    DivAtLeast(p.entryPrice * p.size + price * size, p.size + size, x);
  }

  // ---------------------------------------------------------------- closing

  /**
   A close releases the floored part of the margin, adds the gain since entry and takes the fee. What is left
   over is paid out; what is missing comes out of the margin that stays, as far as that goes.
   */
  lemma ClosePays(m: Market, t: Trader, size: nat, price: nat, released: nat)
    requires ValidSpec(m.spec) && Closing(m, t, size, price).Some?
    requires released * m.positions[t].size <= m.positions[t].margin * size < (released + 1) * m.positions[t].size
    ensures var n, p := Closing(m, t, size, price).value, m.positions[t];
            var pnl, fee := Pnl(m.spec, p.side, p.entryPrice, price, size), Bps(Notional(m.spec, size, price), m.feeBps);
            var net, left := released + pnl - fee, p.margin - released;
            && released <= p.margin && t in n.positions
            && n.cash == m.cash - (if net > 0 then net else 0) - (if m.collects then fee else 0)
            && n.positions[t].size == p.size - size && n.positions[t].realisedPnl == p.realisedPnl + pnl
            && n.positions[t].margin == (if net >= 0 then left else if left + net >= 0 then left + net else 0)
            && n.positions[t].status == (if size == p.size then Closed else p.status)
            && Interest(n, p.side) == Interest(m, p.side) - size
            && (forall u :: u != t ==> (u in n.positions <==> u in m.positions) && (u in m.positions ==> n.positions[u] == m.positions[u]))
  {
    DivUnique(m.positions[t].margin * size, m.positions[t].size, released);
  }

  /** A close goes through when the tokens for it are there, and a full one ends the position. */
  lemma CloseGoesThrough(m: Market, t: Trader, size: nat, price: nat, now: nat)
    requires Inv(m, now) && IsOpen(m, t) && 0 < size <= m.positions[t].size && Aligned(m.spec, price)
    requires m.cash >= CloseDue(m, m.positions[t], size, price)
    ensures Closing(m, t, size, price).Some? && (size == m.positions[t].size ==> !IsOpen(Closing(m, t, size, price).value, t))
  {
    ShrinkKeeps(m, t, Reduced(m.spec, m.feeBps, m.positions[t], size, price), now);
  }

  /** What a position that is closed in full at its entry price is due: its margin, of which the fee goes to its receiver or stays. */
  lemma FlatCloseDue(m: Market, p: Position, fee: nat)
    requires p.size > 0 && fee == Bps(Notional(m.spec, p.size, p.entryPrice), m.feeBps) <= p.margin
    ensures Release(p, p.size) == p.margin && Net(m.spec, m.feeBps, p, p.size, p.entryPrice) == p.margin - fee
    ensures CloseDue(m, p, p.size, p.entryPrice) == p.margin - fee + (if m.collects then fee else 0)
  {
    DivUnique(p.margin * p.size, p.size, p.margin);
    assert Pnl(m.spec, p.side, p.entryPrice, p.entryPrice, p.size) == 0;
  }

  /** Opening and closing in full at one price costs the two fees and nothing else. */
  lemma RoundTripCostsFees(m: Market, t: Trader, side: Side, size: nat, price: nat, margin: nat, funds: nat, now: nat)
    requires Inv(m, now) && !IsOpen(m, t) && Opened(m, t, side, size, price, margin, funds, now).Some?
    requires margin >= Bps(Notional(m.spec, size, price), m.feeBps)
    ensures var n := Opened(m, t, side, size, price, margin, funds, now).value;
            var r := Closing(n, t, size, price);
            && r.Some? && !IsOpen(r.value, t)
            && r.value.cash == m.cash + (if m.collects then 0 else 2 * Bps(Notional(m.spec, size, price), m.feeBps))
  {
    var n := Opened(m, t, side, size, price, margin, funds, now).value;
    OpenKeeps(m, t, side, size, price, margin, funds, now);
    OpenTakesIn(m, t, side, size, price, margin, funds, now);
    FlatCloseDue(n, n.positions[t], Bps(Notional(m.spec, size, price), m.feeBps));
    CloseGoesThrough(n, t, size, price, now);
    ClosedCash(n, t, size, price);
  }

  lemma ClosedCash(m: Market, t: Trader, size: nat, price: nat)
    requires ValidSpec(m.spec) && Closing(m, t, size, price).Some?
    ensures Closing(m, t, size, price).value.cash == m.cash - CloseDue(m, m.positions[t], size, price)
  {
  }

  // ---------------------------------------------------------------- margins

  /** A deposit raises one margin and the tokens by the same amount. */
  lemma DepositAdds(m: Market, t: Trader, amount: nat, funds: nat)
    ensures Deposited(m, t, amount, funds).Some? <==> 0 < amount <= funds && IsOpen(m, t)
    ensures Deposited(m, t, amount, funds).Some? ==>
              var p := m.positions[t];
              Deposited(m, t, amount, funds).value == m.(cash := m.cash + amount, positions := m.positions[t := p.(margin := p.margin + amount)])
  {
  }

  /** A withdrawal lowers both, and goes through exactly when the margin left, with the unsettled gain, is still an initial one. */
  lemma WithdrawalLeavesInitialMargin(m: Market, t: Trader, amount: nat)
    requires ValidSpec(m.spec)
    ensures Withdrawn(m, t, amount).Some?
            <==> amount > 0 && IsOpen(m, t) && amount <= m.positions[t].margin && amount <= m.cash
                 && var p := m.positions[t];
                    var price := if m.mark == 0 then p.entryPrice else m.mark;
                    var left := p.margin - amount + Pnl(m.spec, p.side, p.lastSettlement, price, p.size);
                    left >= 0 && Notional(m.spec, p.size, price) * m.spec.initialBps < (left + 1) * 10000
    ensures Withdrawn(m, t, amount).Some? ==>
              var p := m.positions[t];
              Withdrawn(m, t, amount).value == m.(cash := m.cash - amount, positions := m.positions[t := p.(margin := p.margin - amount)])
  {
    if IsOpen(m, t) && amount <= m.positions[t].margin {
      var p := m.positions[t];
      var price := if m.mark == 0 then p.entryPrice else m.mark;
      var left := p.margin - amount + Pnl(m.spec, p.side, p.lastSettlement, price, p.size);
      if left >= 0 { BpsIs(Notional(m.spec, p.size, price), m.spec.initialBps, left + 1); }
    }
  }

  /** Daily settlement moves every open margin by its gain since the last one, a loss as far as the margin goes, and no tokens. */
  lemma DailyMarks(m: Market, price: nat, now: nat, t: Trader)
    requires Inv(m, now) && !m.settled
    ensures var n := Daily(m, true, price).value;
            && n == m.(mark := price, positions := n.positions)
            && (IsOpen(m, t) ==>
                  var p := m.positions[t];
                  var after := p.margin + Pnl(m.spec, p.side, p.lastSettlement, price, p.size);
                  t in n.positions && n.positions[t].margin == (if after >= 0 then after else 0) && n.positions[t].lastSettlement == price
                  && n.positions[t] == p.(margin := n.positions[t].margin, lastSettlement := price, realisedPnl := n.positions[t].realisedPnl))
            && (!IsOpen(m, t) ==> (t in n.positions <==> t in m.positions) && (t in m.positions ==> n.positions[t] == m.positions[t]))
  {
    var s := m.(mark := price);
    forall j, k | 0 <= j < k < |m.roster.traders| ensures m.roster.traders[j] != m.roster.traders[k] {
      assert InSlot(m.roster, j) && InSlot(m.roster, k);
    }
    MarkReaches(s, price, 0, t);
    assert IsOpen(m, t) <==> t in m.roster.traders;
    if t in m.roster.traders { var j: nat :| j < |m.roster.traders| && m.roster.traders[j] == t; assert s.roster.traders[0..] == s.roster.traders; }
  }

  /** It is a keeper's call, and ends with final settlement. */
  lemma DailyCommitsIff(m: Market, keeper: bool, price: nat)
    ensures Daily(m, keeper, price).Some? <==> keeper && !m.settled
  {
  }

  /** The loop marks each trader from i on once. */
  lemma {:induction false} MarkReaches(m: Market, price: nat, i: nat, t: Trader)
    requires i <= |m.roster.traders|
    requires forall j, k :: 0 <= j < k < |m.roster.traders| ==> m.roster.traders[j] != m.roster.traders[k]
    ensures var n := MarkFrom(m, price, i);
            && n == m.(positions := n.positions)
            && (t in m.roster.traders[i..] && IsOpen(m, t) ==> t in n.positions && n.positions[t] == Marked(m.spec, m.positions[t], price))
            && (t !in m.roster.traders[i..] || !IsOpen(m, t) ==>
                  (t in n.positions <==> t in m.positions) && (t in m.positions ==> n.positions[t] == m.positions[t]))
    decreases |m.roster.traders| - i
  {
    if i < |m.roster.traders| {
      var u := m.roster.traders[i];
      assert m.roster.traders[i..] == [u] + m.roster.traders[i + 1..];
      assert u !in m.roster.traders[i + 1..];
      MarkReaches(if IsOpen(m, u) then SetPosition(m, u, Marked(m.spec, m.positions[u], price)) else m, price, i + 1, t);
    }
  }

  // ---------------------------------------------------------------- what settlement is worth

  /** A position opened at one price and settled at another pays its margin and the truncated gain between them, or nothing. */
  lemma FreshPayout(m: Market, t: Trader, side: Side, size: nat, price: nat, margin: nat, funds: nat, now: nat, final: nat)
    requires ValidSpec(m.spec) && !IsOpen(m, t) && Opened(m, t, side, size, price, margin, funds, now).Some?
    ensures var worth := margin + Pnl(m.spec, side, price, final, size);
            Payout(Opened(m, t, side, size, price, margin, funds, now).value, final, t) == (if worth >= 0 then worth else 0)
  {
  }

  /**
   Marking in between changes what final settlement pays a trader by at most a unit of rounding, unless the
   loss up to the mark took the whole margin; then the trader can only gain by it.
   */
  lemma MarkingKeepsPayout(m: Market, mark: nat, now: nat, final: nat, t: Trader)
    requires Inv(m, now) && !m.settled && IsOpen(m, t)
    ensures var n, p := Daily(m, true, mark).value, m.positions[t];
            if p.margin + Pnl(m.spec, p.side, p.lastSettlement, mark, p.size) >= 0
            then -1 <= Payout(n, final, t) - Payout(m, final, t) <= 1
            else Payout(n, final, t) >= Payout(m, final, t) - 1
  {
    var p := m.positions[t];
    DailyMarks(m, mark, now, t);
    GainsChain(m.spec, p.side, p.lastSettlement, mark, final, p.size);
  }

  /** Gains over two stretches add up to the gain over both, but for a unit of rounding. */
  lemma GainsChain(s: Spec, side: Side, a: nat, b: nat, c: nat, size: nat)
    ensures -1 <= Pnl(s, side, a, c, size) - Pnl(s, side, a, b, size) - Pnl(s, side, b, c, size) <= 1
  {
    ExactAdds(s, side, a, b, c, size);
    TruncAdds(Exact(s, side, a, b, size), Exact(s, side, b, c, size), PRECISION);
  }

  /** Final settlement pays everyone in the array, once. */
  lemma SettlementPaysAll(m: Market, price: nat, now: nat)
    requires Inv(m, now) && Final(m, true, price, now).Some?
    ensures Final(m, true, price, now).value.cash == m.cash - TotalPayout(m, price)
    ensures forall t :: IsOpen(m, t) <==> t in m.roster.traders
    ensures forall j, k :: 0 <= j < k < |m.roster.traders| ==> m.roster.traders[j] != m.roster.traders[k]
  {
    FinalKeeps(m, price, now);
    forall j, k | 0 <= j < k < |m.roster.traders| ensures m.roster.traders[j] != m.roster.traders[k] {
      assert InSlot(m.roster, j) && InSlot(m.roster, k);
    }
  }

  /** What the settlement loop leaves of a trader's position: closed at the price, with the last gain on its record. */
  predicate ClosedAt(s: Spec, p: Position, q: Position, price: nat) {
    q == p.(size := 0, margin := 0, status := Closed, lastSettlement := price,
            realisedPnl := p.realisedPnl + Pnl(s, p.side, p.lastSettlement, price, p.size))
  }

  lemma {:induction false} SettleReaches(m: Market, price: nat, i: nat, t: Trader)
    requires i <= |m.roster.traders| && SettleFrom(m, price, i).Some?
    requires forall j, k :: 0 <= j < k < |m.roster.traders| ==> m.roster.traders[j] != m.roster.traders[k]
    ensures var n := SettleFrom(m, price, i).value;
            && n.mark == m.mark && n.settled == m.settled
            && (t in m.roster.traders[i..] && IsOpen(m, t) ==> t in n.positions && ClosedAt(m.spec, m.positions[t], n.positions[t], price))
            && (t !in m.roster.traders[i..] || !IsOpen(m, t) ==>
                  (t in n.positions <==> t in m.positions) && (t in m.positions ==> n.positions[t] == m.positions[t]))
    decreases |m.roster.traders| - i
  {
    if i < |m.roster.traders| {
      var u := m.roster.traders[i];
      assert m.roster.traders[i..] == [u] + m.roster.traders[i + 1..];
      assert u !in m.roster.traders[i + 1..];
      var r := SettleOne(m, price, u).value;
      SettleOneKeepsRest(m, r, price, u);
      RoundLeaves(m, price, u, t);
      SettleReaches(r, price, i + 1, t);
    }
  }

  /** One round closes its trader, if open, and leaves every other position alone. */
  lemma RoundLeaves(m: Market, price: nat, u: Trader, t: Trader)
    requires SettleOne(m, price, u).Some?
    ensures var n := SettleOne(m, price, u).value;
            && (t == u && IsOpen(m, u) ==> t in n.positions && ClosedAt(m.spec, m.positions[t], n.positions[t], price))
            && (t != u || !IsOpen(m, u) ==> (t in n.positions <==> t in m.positions) && (t in m.positions ==> n.positions[t] == m.positions[t]))
  {
  }

  /** Final settlement closes every open position at its price, which stays the mark, for good. */
  lemma SettlementClosesAll(m: Market, price: nat, now: nat, t: Trader)
    requires Inv(m, now) && Final(m, true, price, now).Some?
    ensures var n := Final(m, true, price, now).value;
            && n.settled && n.mark == price && n.roster.traders == []
            && (IsOpen(m, t) ==> t in n.positions && ClosedAt(m.spec, m.positions[t], n.positions[t], price))
            && (!IsOpen(m, t) ==> (t in n.positions <==> t in m.positions) && (t in m.positions ==> n.positions[t] == m.positions[t]))
  {
    var s := m.(settled := true, mark := price);
    SettlementPaysAll(m, price, now);
    SettleReaches(s, price, 0, t);
    assert IsOpen(m, t) <==> t in m.roster.traders;
    assert s.roster.traders[0..] == m.roster.traders;
  }

  /** A pause stops openings; positions can be closed, funded, drawn on and liquidated exactly as without it. */
  lemma PauseStopsOpenings(m: Market, t: Trader, side: Side, size: nat, price: nat, margin: nat, funds: nat, now: nat)
    requires ValidSpec(m.spec)
    ensures var p := m.(paused := true);
            && Apply(m, SetPaused(true), now) == Some(p) && Opened(p, t, side, size, price, margin, funds, now) == None
            && (Deposited(p, t, margin, funds).Some? <==> Deposited(m, t, margin, funds).Some?)
            && (Withdrawn(p, t, margin).Some? <==> Withdrawn(m, t, margin).Some?)
  {
  }

  lemma PauseStopsNoExit(m: Market, t: Trader, size: nat, price: nat)
    requires ValidSpec(m.spec)
    ensures Closing(m.(paused := true), t, size, price).Some? <==> Closing(m, t, size, price).Some?
    ensures Liquidating(m.(paused := true), t, price).Some? <==> Liquidating(m, t, price).Some?
  {
    if IsOpen(m, t) {
      ShrinksAlike(m, t, Seized(m.positions[t]));
      if 0 < size <= m.positions[t].size { ShrinksAlike(m, t, Reduced(m.spec, m.feeBps, m.positions[t], size, price)); }
    }
  }

  lemma ShrinksAlike(m: Market, t: Trader, q: Position)
    requires IsOpen(m, t) && q.size <= m.positions[t].size
    ensures IsOpen(m.(paused := true), t)
    ensures Shrunk(m.(paused := true), t, q) == match Shrunk(m, t, q) case None => None case Some(n) => Some(n.(paused := true))
  {
  }

  /** The fee that is set is the fee of the next opening. */
  lemma FeeGovernsNext(m: Market, feeBps: nat, t: Trader, side: Side, size: nat, price: nat, margin: nat, funds: nat, now: nat)
    requires ValidSpec(m.spec)
    ensures var n := Apply(m, SetFee(feeBps), now);
            && n.Some?
            && (Opened(n.value, t, side, size, price, margin, funds, now).Some? ==>
                  funds >= margin + Bps(Notional(m.spec, size, price), feeBps))
    ensures Apply(m, SetReceiver(true), now) == Some(m.(collects := true)) && Apply(m, SetReceiver(false), now) == Some(m.(collects := false))
  {
  }

  // ---------------------------------------------------------------- liquidation

  /** The penalty is the floored 2.5% of the margin, the trader gets the rest, and together they are the margin. */
  lemma LiquidationSplits(margin: nat, x: nat)
    ensures Penalty(margin) <= margin && (x <= Penalty(margin) <==> x * 10000 <= margin * 250)
  {
    ShareAtMost(margin, LIQUIDATION_PENALTY_BPS, BPS);
    BpsIs(margin, LIQUIDATION_PENALTY_BPS, x);
  }

  /** A position can be liquidated exactly when its margin and unsettled gain are less than the floored maintenance requirement, and its margin is there. */
  lemma LiquidationIff(m: Market, t: Trader, oraclePrice: nat, now: nat)
    requires Inv(m, now)
    ensures Liquidating(m, t, oraclePrice).Some?
            <==> IsOpen(m, t) && m.positions[t].margin <= m.cash
                 && var p := m.positions[t];
                    var price := if m.mark == 0 then oraclePrice else m.mark;
                    var worth := p.margin + Pnl(m.spec, p.side, p.lastSettlement, price, p.size);
                    worth < 0 || (worth + 1) * 10000 <= Notional(m.spec, p.size, price) * m.spec.maintenanceBps
  {
    if IsOpen(m, t) {
      BelowMaintenanceIff(m, m.positions[t], oraclePrice);
      SeizureGoesThrough(m, t, now);
    }
  }

  lemma BelowMaintenanceIff(m: Market, p: Position, oraclePrice: nat)
    ensures var price := if m.mark == 0 then oraclePrice else m.mark;
            var worth := p.margin + Pnl(m.spec, p.side, p.lastSettlement, price, p.size);
            Liquidatable(m, p, oraclePrice) <==> worth < 0 || (worth + 1) * 10000 <= Notional(m.spec, p.size, price) * m.spec.maintenanceBps
  {
    var price := if m.mark == 0 then oraclePrice else m.mark;
    var worth := p.margin + Pnl(m.spec, p.side, p.lastSettlement, price, p.size);
    if worth >= 0 { BpsIs(Notional(m.spec, p.size, price), m.spec.maintenanceBps, worth + 1); }
  }

  lemma SeizureGoesThrough(m: Market, t: Trader, now: nat)
    requires Inv(m, now) && IsOpen(m, t)
    ensures Shrunk(m, t, Seized(m.positions[t])).Some?
  {
    ShrinkKeeps(m, t, Seized(m.positions[t]), now);
  }

  /** A liquidation pays out all of the margin, ends the position, and touches no other. */
  lemma LiquidationTakes(m: Market, t: Trader, oraclePrice: nat)
    requires Liquidating(m, t, oraclePrice).Some?
    ensures var n, p := Liquidating(m, t, oraclePrice).value, m.positions[t];
            && n.cash == m.cash - p.margin && Interest(n, p.side) == Interest(m, p.side) - p.size
            && n.positions == m.positions[t := p.(size := 0, margin := 0, status := Liquidated)]
  {
  }
}
