/** Bilateral currency forwards: collateral from both sides, cash settled out of it at maturity. */
module ForwardModel {
  import opened Options
  import opened Numbers
  import opened MapSums

  const PRECISION := 1_000_000_000_000_000_000
  const BPS := 10000
  const MIN_MATURITY := 3600
  const MAX_MATURITY := 365 * 86400

  type Token = nat
  type Account = nat

  /** The account of the contract itself; 0 is the zero address. */
  const SELF: Account := 1

  datatype Pair = Pair(base: Token, quote: Token)

  datatype Status = Open | Active | Settled | Cancelled

  datatype Forward = Forward(pairId: nat, buyer: Account, seller: Account, rate: nat, baseAmount: nat, maturity: nat,
                             buyerCollateral: nat, sellerCollateral: nat, status: Status)

  type Balances = map<(Token, Account), nat>

  datatype Desk = Desk(pairs: map<nat, Pair>, ratioBps: nat, feeReceiver: Account, feeBps: nat, paused: bool,
                       forwards: map<nat, Forward>, nextId: nat, balances: Balances)

  datatype Op =
    | Create(caller: Account, pairId: nat, rate: nat, baseAmount: nat, maturity: nat)
    | Accept(caller: Account, id: nat)
    | Settle(keeper: bool, id: nat, currentRate: nat)
    | Cancel(caller: Account, id: nat)
    | TopUp(caller: Account, id: nat, amount: nat)
    | BatchSettle(keeper: bool, ids: seq<nat>, rates: seq<nat>)
    | SetRatio(bps: nat)
    | SetFeeReceiver(receiver: Account)
    | SetFee(bps: nat)
    | SetPaused(paused: bool)
    | Send(sender: Account, to: Account, token: Token, amount: nat)

  // ---------------------------------------------------------------- tokens

  function Bal(b: Balances, t: Token, a: Account): nat { if (t, a) in b then b[(t, a)] else 0 }

  function Move(b: Balances, t: Token, from: Account, to: Account, x: nat): Option<Balances> {
    if Bal(b, t, from) < x then None
    else if x == 0 then Some(b)
    else
      var taken := b[(t, from) := Bal(b, t, from) - x];
      Some(taken[(t, to) := Bal(taken, t, to) + x])
  }

  datatype Payment = Payment(token: Token, to: Account, amount: nat)

  /** Payments out of the contract, in order; None as soon as one is not covered. */
  function Pay(b: Balances, ps: seq<Payment>): Option<Balances>
    decreases |ps|
  {
    if ps == [] then Some(b)
    else match Move(b, ps[0].token, SELF, ps[0].to, ps[0].amount)
         case None => None
         case Some(c) => Pay(c, ps[1..])
  }

  function PaidOut(ps: seq<Payment>, t: Token): nat {
    if ps == [] then 0 else (if ps[0].token == t then ps[0].amount else 0) + PaidOut(ps[1..], t)
  }

  function PaidTo(ps: seq<Payment>, t: Token, a: Account): nat {
    if ps == [] then 0 else (if ps[0].token == t && ps[0].to == a then ps[0].amount else 0) + PaidTo(ps[1..], t, a)
  }

  /** What the contract holds covers the payments: they all go through, and everybody gets theirs. */
  lemma {:induction false} PayDelivers(b: Balances, ps: seq<Payment>)
    requires forall t :: PaidOut(ps, t) <= Bal(b, t, SELF)
    ensures Pay(b, ps).Some?
    ensures forall t, a :: Bal(Pay(b, ps).value, t, a) == Bal(b, t, a) + PaidTo(ps, t, a) - if a == SELF then PaidOut(ps, t) else 0
    decreases |ps|
  {
    if ps != [] {
      var p := ps[0];
      assert PaidOut(ps, p.token) <= Bal(b, p.token, SELF);
      var c := Move(b, p.token, SELF, p.to, p.amount).value;
      forall t ensures PaidOut(ps[1..], t) <= Bal(c, t, SELF) { assert PaidOut(ps, t) <= Bal(b, t, SELF); }
      PayDelivers(c, ps[1..]);
    }
  }

  // ---------------------------------------------------------------- settlement

  function QuoteCollateral(baseAmount: nat, rate: nat, ratioBps: nat): nat { baseAmount * rate * ratioBps / (PRECISION * BPS) }

  function BaseCollateral(baseAmount: nat, ratioBps: nat): nat { baseAmount * ratioBps / BPS }

  predicate BuyerWins(f: Forward, currentRate: nat) { currentRate >= f.rate }

  /** The winner's full gain: the buyer's in base, the seller's in quote. */
  function Gain(f: Forward, currentRate: nat): nat
    requires f.rate > 0
  {
    if BuyerWins(f, currentRate) then Share(f.baseAmount, currentRate - f.rate, currentRate)
    else Share(f.baseAmount, f.rate - currentRate, PRECISION)
  }

  /** The collateral the gain is paid from. */
  function LoserCollateral(f: Forward, currentRate: nat): nat {
    if BuyerWins(f, currentRate) then f.sellerCollateral else f.buyerCollateral
  }

  function CappedGain(f: Forward, currentRate: nat): nat
    requires f.rate > 0
  {
    if Gain(f, currentRate) > LoserCollateral(f, currentRate) then LoserCollateral(f, currentRate) else Gain(f, currentRate)
  }

  function Fee(gain: nat, feeBps: nat): nat { gain * feeBps / BPS }

  /** All payments of a settlement, in the order they are made. */
  function Payments(f: Forward, pair: Pair, gain: nat, fee: nat, receiver: Account, currentRate: nat): seq<Payment>
    requires fee <= gain <= LoserCollateral(f, currentRate)
  {
    var toReceiver := fee > 0 && receiver != 0;
    if BuyerWins(f, currentRate) then
      [Payment(pair.quote, f.buyer, f.buyerCollateral), Payment(pair.base, f.buyer, gain - fee),
       Payment(pair.base, f.seller, f.sellerCollateral - gain)] + if toReceiver then [Payment(pair.base, receiver, fee)] else []
    else
      [Payment(pair.base, f.seller, f.sellerCollateral), Payment(pair.quote, f.seller, gain - fee),
       Payment(pair.quote, f.buyer, f.buyerCollateral - gain)] + if toReceiver then [Payment(pair.quote, receiver, fee)] else []
  }

  function Closed(f: Forward): Forward { f.(status := Settled, buyerCollateral := 0, sellerCollateral := 0) }

  predicate Known(d: Desk, id: nat) { id in d.forwards && d.forwards[id].pairId in d.pairs && d.forwards[id].rate > 0 }

  predicate WellFormed(d: Desk) { forall id :: id in d.forwards ==> Known(d, id) }

  /** `_settleInternal`. A fee above the gain underflows. */
  function SettleInternal(d: Desk, id: nat, currentRate: nat): Option<Desk>
    requires Known(d, id)
  {
    var f := d.forwards[id];
    var gain := CappedGain(f, currentRate);
    var fee := Fee(gain, d.feeBps);
    if fee > gain then None
    else match Pay(d.balances, Payments(f, d.pairs[f.pairId], gain, fee, d.feeReceiver, currentRate))
         case None => None
         case Some(b) => Some(d.(balances := b, forwards := d.forwards[id := Closed(f)]))
  }

  predicate Due(d: Desk, id: nat, now: nat) { id in d.forwards && d.forwards[id].status.Active? && now >= d.forwards[id].maturity }

  lemma SettleKeepsForm(d: Desk, id: nat, currentRate: nat)
    requires WellFormed(d) && Known(d, id) && SettleInternal(d, id, currentRate).Some?
    ensures WellFormed(SettleInternal(d, id, currentRate).value)
  {
    forall k | k in d.forwards ensures Known(SettleInternal(d, id, currentRate).value, k) { assert Known(d, k); }
  }

  /** The loop of `batchSettle` from i on. */
  function BatchFrom(d: Desk, ids: seq<nat>, rates: seq<nat>, now: nat, i: nat): Option<Desk>
    requires WellFormed(d) && |ids| == |rates| && i <= |ids|
    decreases |ids| - i
  {
    if i == |ids| then Some(d)
    else if !Due(d, ids[i], now) then BatchFrom(d, ids, rates, now, i + 1)
    else
      assert Known(d, ids[i]);
      match SettleInternal(d, ids[i], rates[i])
      case None => None
      case Some(e) => SettleKeepsForm(d, ids[i], rates[i]); BatchFrom(e, ids, rates, now, i + 1)
  }

  // ---------------------------------------------------------------- operations

  function Created(d: Desk, caller: Account, pairId: nat, rate: nat, baseAmount: nat, maturity: nat, now: nat): Option<Desk> {
    if d.paused || rate == 0 || baseAmount == 0 || maturity <= now + MIN_MATURITY || maturity > now + MAX_MATURITY then None
    else if pairId !in d.pairs then None
    else
      var collateral := QuoteCollateral(baseAmount, rate, d.ratioBps);
      match Move(d.balances, d.pairs[pairId].quote, caller, SELF, collateral)
      case None => None
      case Some(b) =>
        var f := Forward(pairId, caller, 0, rate, baseAmount, maturity, collateral, 0, Open);
        Some(d.(balances := b, nextId := d.nextId + 1, forwards := d.forwards[d.nextId := f]))
  }

  function Accepted(d: Desk, caller: Account, id: nat): Option<Desk>
    requires WellFormed(d)
  {
    if d.paused || id !in d.forwards || !d.forwards[id].status.Open? then None
    else
      assert Known(d, id);
      var f := d.forwards[id];
      var collateral := BaseCollateral(f.baseAmount, d.ratioBps);
      match Move(d.balances, d.pairs[f.pairId].base, caller, SELF, collateral)
      case None => None
      case Some(b) =>
        Some(d.(balances := b, forwards := d.forwards[id := f.(seller := caller, sellerCollateral := collateral, status := Active)]))
  }

  function SettledBy(d: Desk, keeper: bool, id: nat, currentRate: nat, now: nat): Option<Desk>
    requires WellFormed(d)
  {
    if id !in d.forwards || !d.forwards[id].status.Active? || (now < d.forwards[id].maturity && !keeper) then None
    else assert Known(d, id); SettleInternal(d, id, currentRate)
  }

  function CancelledBy(d: Desk, caller: Account, id: nat): Option<Desk>
    requires WellFormed(d)
  {
    if id !in d.forwards || !d.forwards[id].status.Open? || caller != d.forwards[id].buyer then None
    else
      assert Known(d, id);
      var f := d.forwards[id];
      match Pay(d.balances, [Payment(d.pairs[f.pairId].quote, f.buyer, f.buyerCollateral)])
      case None => None
      case Some(b) => Some(d.(balances := b, forwards := d.forwards[id := f.(buyerCollateral := 0, status := Cancelled)]))
  }

  /** The buyer's test comes first, so someone on both sides tops up the buyer's collateral. */
  function ToppedUp(d: Desk, caller: Account, id: nat, amount: nat): Option<Desk>
    requires WellFormed(d)
  {
    if amount == 0 || id !in d.forwards || !d.forwards[id].status.Active? then None
    else
      assert Known(d, id);
      var f := d.forwards[id];
      var pair := d.pairs[f.pairId];
      if caller != f.buyer && caller != f.seller then None
      else
        match Move(d.balances, if caller == f.buyer then pair.quote else pair.base, caller, SELF, amount)
        case None => None
        case Some(b) =>
          var g := if caller == f.buyer then f.(buyerCollateral := f.buyerCollateral + amount)
                   else f.(sellerCollateral := f.sellerCollateral + amount);
          Some(d.(balances := b, forwards := d.forwards[id := g]))
  }

  /** Who is calling: the contract itself never does. */
  function CallerOf(op: Op): Account {
    match op
    case Create(caller, _, _, _, _) => caller
    case Accept(caller, _) => caller
    case Cancel(caller, _) => caller
    case TopUp(caller, _, _) => caller
    case Send(sender, _, _, _) => sender
    case _ => 0
  }

  /** The desk after a committed call; None when it reverts. */
  function Apply(d: Desk, op: Op, now: nat): Option<Desk>
    requires WellFormed(d)
  {
    if CallerOf(op) == SELF then None
    else match op
      case Create(caller, pairId, rate, baseAmount, maturity) => Created(d, caller, pairId, rate, baseAmount, maturity, now)
      case Accept(caller, id) => Accepted(d, caller, id)
      case Settle(keeper, id, currentRate) => SettledBy(d, keeper, id, currentRate, now)
      case Cancel(caller, id) => CancelledBy(d, caller, id)
      case TopUp(caller, id, amount) => ToppedUp(d, caller, id, amount)
      case BatchSettle(keeper, ids, rates) => if !keeper || |ids| != |rates| then None else BatchFrom(d, ids, rates, now, 0)
      case SetRatio(bps) => Some(d.(ratioBps := bps))
      case SetFeeReceiver(receiver) => Some(d.(feeReceiver := receiver))
      case SetFee(bps) => Some(d.(feeBps := bps))
      case SetPaused(paused) => Some(d.(paused := paused))
      case Send(sender, to, token, amount) =>
        match Move(d.balances, token, sender, to, amount) case None => None case Some(b) => Some(d.(balances := b))
  }

  // ---------------------------------------------------------------- what the contract owes

  /** The recorded collateral of a forward in one token. */
  function CollateralOf(f: Forward, pair: Pair, t: Token): nat {
    (if pair.quote == t then f.buyerCollateral else 0) + if pair.base == t then f.sellerCollateral else 0
  }

  ghost function CollateralIn(pairs: map<nat, Pair>, t: Token): (nat, Forward) -> int {
    (id: nat, f: Forward) =>
      if f.pairId in pairs && (f.status.Open? || f.status.Active?) then CollateralOf(f, pairs[f.pairId], t) else 0
  }

  ghost function Owed(d: Desk, t: Token): int { Sum(d.forwards, CollateralIn(d.pairs, t)) }

  /** A forward as its status allows it to be. */
  predicate Sound(f: Forward) {
    && f.baseAmount > 0 && f.buyer != SELF
    && (f.status.Open? ==> f.sellerCollateral == 0)
    && (f.status.Active? ==> f.seller != SELF)
    && (f.status.Settled? || f.status.Cancelled? ==> f.buyerCollateral == 0 && f.sellerCollateral == 0)
  }

  /** A desk with, token by token, what it holds beyond collateral: fees nobody collected, and tokens sent to it. */
  datatype Books = Books(desk: Desk, surplus: Token -> nat)

  ghost predicate Backed(b: Books, t: Token) { Bal(b.desk.balances, t, SELF) == Owed(b.desk, t) + b.surplus(t) }

  ghost predicate Inv(b: Books) {
    && WellFormed(b.desk)
    && (forall id :: id in b.desk.forwards ==> Sound(b.desk.forwards[id]) && id < b.desk.nextId)
    && (forall t :: Backed(b, t))
  }

  /** The fee of one settlement when it stays with the contract. */
  function KeptFee(d: Desk, id: nat, currentRate: nat, t: Token): nat
    requires Known(d, id)
  {
    var f := d.forwards[id];
    var pair := d.pairs[f.pairId];
    if (if BuyerWins(f, currentRate) then pair.base else pair.quote) == t && (d.feeReceiver == 0 || d.feeReceiver == SELF)
    then Fee(CappedGain(f, currentRate), d.feeBps) else 0
  }

  function KeptFrom(d: Desk, ids: seq<nat>, rates: seq<nat>, now: nat, i: nat, t: Token): nat
    requires WellFormed(d) && |ids| == |rates| && i <= |ids|
    decreases |ids| - i
  {
    if i == |ids| then 0
    else if !Due(d, ids[i], now) then KeptFrom(d, ids, rates, now, i + 1, t)
    else
      assert Known(d, ids[i]);
      match SettleInternal(d, ids[i], rates[i])
      case None => 0
      case Some(e) => SettleKeepsForm(d, ids[i], rates[i]); KeptFee(d, ids[i], rates[i], t) + KeptFrom(e, ids, rates, now, i + 1, t)
  }

  /** What a committed call adds to the surplus. */
  function Extra(d: Desk, op: Op, now: nat, t: Token): nat
    requires WellFormed(d) && Apply(d, op, now).Some?
  {
    match op
    case Settle(_, id, currentRate) => assert Known(d, id); KeptFee(d, id, currentRate, t)
    case BatchSettle(_, ids, rates) => KeptFrom(d, ids, rates, now, 0, t)
    case Send(_, to, token, amount) => if to == SELF && token == t then amount else 0
    case _ => 0
  }

  ghost function Record(b: Books, op: Op, now: nat): Books
    requires WellFormed(b.desk)
  {
    match Apply(b.desk, op, now)
    case None => b
    case Some(d) => Books(d, t => if WellFormed(b.desk) && Apply(b.desk, op, now).Some? then b.surplus(t) + Extra(b.desk, op, now, t) else 0)
  }

  // ---------------------------------------------------------------- every call keeps it backed

  /** Replacing one forward moves what is owed by the change in its collateral. */
  lemma OwedMoves(d: Desk, id: nat, f: Forward, t: Token)
    ensures Sum(d.forwards[id := f], CollateralIn(d.pairs, t))
            == Owed(d, t) - At(d.forwards, CollateralIn(d.pairs, t), id) + CollateralIn(d.pairs, t)(id, f)
  {
    SumUpdate(d.forwards, CollateralIn(d.pairs, t), id, f);
  }

  /** The contract holds at least one forward's collateral, in both tokens at once. */
  lemma CollateralHeld(b: Books, id: nat, t: Token)
    requires Inv(b) && id in b.desk.forwards && (b.desk.forwards[id].status.Open? || b.desk.forwards[id].status.Active?)
    ensures var f := b.desk.forwards[id];
            Known(b.desk, id) && CollateralOf(f, b.desk.pairs[f.pairId], t) <= Bal(b.desk.balances, t, SELF)
  {
    assert Known(b.desk, id) && Backed(b, t);
    SumBounds(b.desk.forwards, CollateralIn(b.desk.pairs, t), id);
  }

  lemma PaidUnrolled(ps: seq<Payment>, t: Token, a: Account)
    requires |ps| >= 3
    ensures PaidOut(ps, t) == PaidOut([ps[0]], t) + PaidOut([ps[1]], t) + PaidOut([ps[2]], t) + PaidOut(ps[3..], t)
    ensures PaidTo(ps, t, a) == PaidTo([ps[0]], t, a) + PaidTo([ps[1]], t, a) + PaidTo([ps[2]], t, a) + PaidTo(ps[3..], t, a)
  {
    var p1, p2 := ps[1..], ps[2..];
    assert p1[1..] == p2 && p2[1..] == ps[3..];
    assert PaidOut(ps, t) == PaidOut([ps[0]], t) + PaidOut(p1, t) && PaidTo(ps, t, a) == PaidTo([ps[0]], t, a) + PaidTo(p1, t, a);
    assert PaidOut(p1, t) == PaidOut([ps[1]], t) + PaidOut(p2, t) && PaidTo(p1, t, a) == PaidTo([ps[1]], t, a) + PaidTo(p2, t, a);
  }

  /** A settlement pays out all the collateral, but for a fee that has no receiver. */
  lemma PaymentsAddUp(f: Forward, pair: Pair, gain: nat, fee: nat, receiver: Account, currentRate: nat, t: Token)
    requires fee <= gain <= LoserCollateral(f, currentRate) && f.buyer != SELF && f.seller != SELF
    ensures var ps := Payments(f, pair, gain, fee, receiver, currentRate);
            var feeHere := if (if BuyerWins(f, currentRate) then pair.base else pair.quote) == t then fee else 0;
            && PaidOut(ps, t) == CollateralOf(f, pair, t) - (if receiver == 0 then feeHere else 0)
            && PaidTo(ps, t, SELF) == if receiver == SELF then feeHere else 0
  {
    var ps := Payments(f, pair, gain, fee, receiver, currentRate);
    PaidUnrolled(ps, t, SELF);
  }

  lemma SettlementKeeps(b: Books, id: nat, currentRate: nat, surplus: Token -> nat)
    requires Inv(b) && id in b.desk.forwards && b.desk.forwards[id].status.Active? && Known(b.desk, id)
    requires Fee(CappedGain(b.desk.forwards[id], currentRate), b.desk.feeBps) <= CappedGain(b.desk.forwards[id], currentRate)
    requires forall t :: surplus(t) == b.surplus(t) + KeptFee(b.desk, id, currentRate, t)
    ensures SettleInternal(b.desk, id, currentRate).Some?
    ensures Inv(Books(SettleInternal(b.desk, id, currentRate).value, surplus))
  {
    var d, f := b.desk, b.desk.forwards[id];
    var pair, gain := d.pairs[f.pairId], CappedGain(f, currentRate);
    var fee := Fee(gain, d.feeBps);
    var ps := Payments(f, pair, gain, fee, d.feeReceiver, currentRate);
    forall t ensures PaidOut(ps, t) <= Bal(d.balances, t, SELF) {
      CollateralHeld(b, id, t);
      PaymentsAddUp(f, pair, gain, fee, d.feeReceiver, currentRate, t);
    }
    PayDelivers(d.balances, ps);
    SettleKeepsForm(d, id, currentRate);
    var e := SettleInternal(d, id, currentRate).value;
    forall t ensures Backed(Books(e, surplus), t) {
      assert Backed(b, t);
      PaymentsAddUp(f, pair, gain, fee, d.feeReceiver, currentRate, t);
      OwedMoves(d, id, Closed(f), t);
    }
  }

  lemma {:induction false} BatchKeeps(b: Books, ids: seq<nat>, rates: seq<nat>, now: nat, i: nat, surplus: Token -> nat)
    requires Inv(b) && |ids| == |rates| && i <= |ids| && BatchFrom(b.desk, ids, rates, now, i).Some?
    requires forall t :: surplus(t) == b.surplus(t) + KeptFrom(b.desk, ids, rates, now, i, t)
    ensures Inv(Books(BatchFrom(b.desk, ids, rates, now, i).value, surplus))
    decreases |ids| - i
  {
    if i == |ids| {
      forall t ensures Backed(Books(b.desk, surplus), t) { assert Backed(b, t); }
    } else if !Due(b.desk, ids[i], now) {
      BatchKeeps(b, ids, rates, now, i + 1, surplus);
    } else {
      var d := b.desk;
      assert Known(d, ids[i]);
      var between := (t: Token) => b.surplus(t) + if Known(d, ids[i]) then KeptFee(d, ids[i], rates[i], t) else 0;
      SettlementKeeps(b, ids[i], rates[i], between);
      BatchKeeps(Books(SettleInternal(d, ids[i], rates[i]).value, between), ids, rates, now, i + 1, surplus);
    }
  }

  /** A call that moves `x` of a token in from a caller and records it on one forward. */
  lemma IntakeKeeps(b: Books, id: nat, f: Forward, t: Token, caller: Account, x: nat, d: Desk)
    requires Inv(b) && caller != SELF && Move(b.desk.balances, t, caller, SELF, x).Some?
    requires d == b.desk.(balances := Move(b.desk.balances, t, caller, SELF, x).value, forwards := b.desk.forwards[id := f],
                          nextId := d.nextId)
    requires id < d.nextId && b.desk.nextId <= d.nextId && f.pairId in d.pairs && f.rate > 0 && Sound(f) && (f.status.Open? || f.status.Active?)
    requires forall u :: CollateralIn(d.pairs, u)(id, f) == At(b.desk.forwards, CollateralIn(d.pairs, u), id) + if u == t then x else 0
    ensures Inv(Books(d, b.surplus))
  {
    forall k | k in d.forwards ensures Known(d, k) { assert k != id ==> Known(b.desk, k); }
    forall u ensures Backed(Books(d, b.surplus), u) {
      assert Backed(b, u);
      OwedMoves(b.desk, id, f, u);
    }
  }

  lemma CreateKeeps(b: Books, caller: Account, pairId: nat, rate: nat, baseAmount: nat, maturity: nat, now: nat)
    requires Inv(b) && caller != SELF && Created(b.desk, caller, pairId, rate, baseAmount, maturity, now).Some?
    ensures Inv(Books(Created(b.desk, caller, pairId, rate, baseAmount, maturity, now).value, b.surplus))
  {
    var d, e := b.desk, Created(b.desk, caller, pairId, rate, baseAmount, maturity, now).value;
    var x := QuoteCollateral(baseAmount, rate, d.ratioBps);
    IntakeKeeps(b, d.nextId, e.forwards[d.nextId], d.pairs[pairId].quote, caller, x, e);
  }

  lemma AcceptKeeps(b: Books, caller: Account, id: nat)
    requires Inv(b) && caller != SELF && Accepted(b.desk, caller, id).Some?
    ensures Inv(Books(Accepted(b.desk, caller, id).value, b.surplus))
  {
    var d, e := b.desk, Accepted(b.desk, caller, id).value;
    assert Known(d, id) && Sound(d.forwards[id]);
    var f := d.forwards[id];
    IntakeKeeps(b, id, e.forwards[id], d.pairs[f.pairId].base, caller, BaseCollateral(f.baseAmount, d.ratioBps), e);
  }

  lemma TopUpKeeps(b: Books, caller: Account, id: nat, amount: nat)
    requires Inv(b) && caller != SELF && ToppedUp(b.desk, caller, id, amount).Some?
    ensures Inv(Books(ToppedUp(b.desk, caller, id, amount).value, b.surplus))
  {
    var d, e := b.desk, ToppedUp(b.desk, caller, id, amount).value;
    assert Known(d, id) && Sound(d.forwards[id]);
    var f := d.forwards[id];
    var pair := d.pairs[f.pairId];
    IntakeKeeps(b, id, e.forwards[id], if caller == f.buyer then pair.quote else pair.base, caller, amount, e);
  }

  /** An offer nobody took can always be cancelled: its collateral is there. */
  lemma CancelKeeps(b: Books, id: nat)
    requires Inv(b) && id in b.desk.forwards && b.desk.forwards[id].status.Open?
    ensures CancelledBy(b.desk, b.desk.forwards[id].buyer, id).Some?
    ensures Inv(Books(CancelledBy(b.desk, b.desk.forwards[id].buyer, id).value, b.surplus))
  {
    var d, f := b.desk, b.desk.forwards[id];
    assert Known(d, id) && Sound(f);
    var ps := [Payment(d.pairs[f.pairId].quote, f.buyer, f.buyerCollateral)];
    assert ps[1..] == [];
    forall t ensures PaidOut(ps, t) <= Bal(d.balances, t, SELF) { CollateralHeld(b, id, t); }
    PayDelivers(d.balances, ps);
    var e := CancelledBy(d, f.buyer, id).value;
    forall k | k in e.forwards ensures Known(e, k) { assert Known(d, k); }
    forall t ensures Backed(Books(e, b.surplus), t) {
      assert Backed(b, t);
      OwedMoves(d, id, e.forwards[id], t);
    }
  }

  lemma SendKeeps(b: Books, sender: Account, to: Account, token: Token, amount: nat, surplus: Token -> nat)
    requires Inv(b) && sender != SELF && Move(b.desk.balances, token, sender, to, amount).Some?
    requires forall t :: surplus(t) == b.surplus(t) + if to == SELF && token == t then amount else 0
    ensures Inv(Books(b.desk.(balances := Move(b.desk.balances, token, sender, to, amount).value), surplus))
  {
    var e := b.desk.(balances := Move(b.desk.balances, token, sender, to, amount).value);
    forall k | k in e.forwards ensures Known(e, k) { assert Known(b.desk, k); }
    forall t ensures Backed(Books(e, surplus), t) { assert Backed(b, t); }
  }

  lemma SettingKeeps(b: Books, d: Desk)
    requires Inv(b) && d == b.desk.(ratioBps := d.ratioBps, feeReceiver := d.feeReceiver, feeBps := d.feeBps, paused := d.paused)
    ensures Inv(Books(d, b.surplus))
  {
    forall k | k in d.forwards ensures Known(d, k) { assert Known(b.desk, k); }
    forall t ensures Backed(Books(d, b.surplus), t) { assert Backed(b, t); }
  }

  lemma SettleCallKeeps(b: Books, keeper: bool, id: nat, currentRate: nat, now: nat, surplus: Token -> nat)
    requires Inv(b) && SettledBy(b.desk, keeper, id, currentRate, now).Some? && Known(b.desk, id)
    requires forall t :: surplus(t) == b.surplus(t) + KeptFee(b.desk, id, currentRate, t)
    ensures Inv(Books(SettledBy(b.desk, keeper, id, currentRate, now).value, surplus))
  {
    SettlementKeeps(b, id, currentRate, surplus);
  }

  lemma RecordKeeps(b: Books, op: Op, now: nat)
    requires Inv(b)
    ensures Inv(Record(b, op, now))
  {
    if Apply(b.desk, op, now).Some? {
      var c := Record(b, op, now);
      match op
      case Create(caller, pairId, rate, baseAmount, maturity) =>
        CreateKeeps(b, caller, pairId, rate, baseAmount, maturity, now);
        SameSurplus(c.desk, b.surplus, c.surplus);
      case Accept(caller, id) => AcceptKeeps(b, caller, id); SameSurplus(c.desk, b.surplus, c.surplus);
      case Settle(keeper, id, currentRate) => assert Known(b.desk, id); SettleCallKeeps(b, keeper, id, currentRate, now, c.surplus);
      case Cancel(caller, id) => CancelKeeps(b, id); SameSurplus(c.desk, b.surplus, c.surplus);
      case TopUp(caller, id, amount) => TopUpKeeps(b, caller, id, amount); SameSurplus(c.desk, b.surplus, c.surplus);
      case BatchSettle(_, ids, rates) => BatchKeeps(b, ids, rates, now, 0, c.surplus);
      case Send(sender, to, token, amount) => SendKeeps(b, sender, to, token, amount, c.surplus);
      case _ => SettingKeeps(b, c.desk); SameSurplus(c.desk, b.surplus, c.surplus);
    }
  }

  lemma SameSurplus(d: Desk, before: Token -> nat, after: Token -> nat)
    requires Inv(Books(d, before)) && forall t :: after(t) == before(t)
    ensures Inv(Books(d, after))
  {
    forall t ensures Backed(Books(d, after), t) { assert Backed(Books(d, before), t); }
  }

  // ---------------------------------------------------------------- whole runs

  datatype Event = Tick(seconds: nat) | Call(op: Op)

  datatype World = World(books: Books, now: nat)

  ghost function Step(w: World, e: Event): World
    requires Inv(w.books)
  {
    match e case Tick(seconds) => w.(now := w.now + seconds) case Call(op) => w.(books := Record(w.books, op, w.now))
  }

  ghost function Run(w: World, events: seq<Event>): (r: World)
    requires Inv(w.books)
    ensures Inv(r.books)
    decreases |events|
  {
    if events == [] then w else StepKeeps(w, events[0]); Run(Step(w, events[0]), events[1..])
  }

  lemma StepKeeps(w: World, e: Event)
    requires Inv(w.books)
    ensures Inv(Step(w, e).books)
  {
    if e.Call? { RecordKeeps(w.books, e.op, w.now); }
  }

  /** The contract holds at least the collateral it records. */
  ghost predicate Solvent(d: Desk) {
    && WellFormed(d)
    && (forall id :: id in d.forwards ==> Sound(d.forwards[id]) && id < d.nextId)
    && (forall t :: Owes(d, t))
  }

  ghost predicate Owes(d: Desk, t: Token) { Bal(d.balances, t, SELF) >= Owed(d, t) }

  /** Every call by someone else keeps that. */
  lemma CallKeeps(d: Desk, op: Op, now: nat)
    requires WellFormed(d)
    ensures Solvent(d) && Apply(d, op, now).Some? ==> Solvent(Apply(d, op, now).value)
  {
    if Solvent(d) && Apply(d, op, now).Some? {
      var b := Books(d, t => if Owes(d, t) then Bal(d.balances, t, SELF) - Owed(d, t) else 0);
      forall t ensures Backed(b, t) { assert Owes(d, t); }
      RecordKeeps(b, op, now);
      var c := Record(b, op, now);
      forall t ensures Owes(c.desk, t) { assert Backed(c, t); }
    }
  }

  lemma DeployedInv(pairs: map<nat, Pair>, receiver: Account, balances: Balances)
    requires forall t :: Bal(balances, t, SELF) == 0
    ensures Inv(Books(Desk(pairs, BPS, receiver, 5, false, map[], 1, balances), t => 0))
  {
  }

  /** In every run, token by token: what the contract holds is the collateral it records plus its surplus. */
  lemma RunStaysBacked(w: World, events: seq<Event>, t: Token)
    requires Inv(w.books)
    ensures var b := Run(w, events).books; Bal(b.desk.balances, t, SELF) == Owed(b.desk, t) + b.surplus(t)
  {
    assert Backed(Run(w, events).books, t);
  }

  /** So a settlement never lacks tokens: it commits exactly when it is due, or a keeper asks, and the fee fits in the gain. */
  lemma SettlesIff(w: World, events: seq<Event>, keeper: bool, id: nat, currentRate: nat)
    requires Inv(w.books)
    ensures var r := Run(w, events); var d := r.books.desk;
            SettledBy(d, keeper, id, currentRate, r.now).Some?
            <==> id in d.forwards && d.forwards[id].status.Active? && (keeper || r.now >= d.forwards[id].maturity)
                 && var gain := CappedGain(d.forwards[id], currentRate); Fee(gain, d.feeBps) <= gain
  {
    var r := Run(w, events);
    var d := r.books.desk;
    if id in d.forwards && d.forwards[id].status.Active? {
      assert Known(d, id);
      var gain := CappedGain(d.forwards[id], currentRate);
      if Fee(gain, d.feeBps) <= gain {
        var surplus := (t: Token) => r.books.surplus(t) + if Known(d, id) then KeptFee(d, id, currentRate, t) else 0;
        SettlementKeeps(r.books, id, currentRate, surplus);
      }
    }
  }

  /** A fee rate within 100% always fits. */
  lemma FeeFits(gain: nat, feeBps: nat)
    requires feeBps <= BPS
    ensures Fee(gain, feeBps) <= gain
  {
    ShareAtMost(gain, feeBps, BPS);
  }

  /** It exceeds the gain exactly from one whole unit more on. */
  lemma FeeExceedsIff(gain: nat, feeBps: nat)
    ensures Fee(gain, feeBps) > gain <==> gain * feeBps >= (gain + 1) * BPS
  {
    DivAtLeast(gain * feeBps, BPS, gain + 1);
  }

  /** Rates within 100% are the only ones at which no gain can block a settlement. */
  lemma FeeFitsIff(feeBps: nat)
    ensures (forall gain: nat :: Fee(gain, feeBps) <= gain) <==> feeBps <= BPS
  {
    if feeBps <= BPS {
      forall gain: nat ensures Fee(gain, feeBps) <= gain { FeeFits(gain, feeBps); }
    } else {
      FeeExceedsIff(BPS, feeBps);
      assert Fee(BPS, feeBps) > BPS;
    }
  }

  const BUYER: Account := 5
  const SELLER: Account := 6
  const PAIR := Pair(10, 20)
  const OPENED := Desk(map[7 := PAIR], BPS, 0, 5, false, map[], 1, map[(20, BUYER) := 100, (10, SELLER) := 100])
  const DEAL := [Call(Create(BUYER, 7, PRECISION, 100, 3601)), Call(Accept(SELLER, 1)), Tick(4000)]

  /** The deal of these events, agreed at a rate of 1. */
  const AGREED := Forward(7, BUYER, SELLER, PRECISION, 100, 3601, 100, 100, Active)

  /** A doubled rate gives the buyer 50 of the seller's 100. */
  lemma DoubledRate()
    ensures QuoteCollateral(100, PRECISION, BPS) == 100 && BaseCollateral(100, BPS) == 100
    ensures CappedGain(AGREED, 2 * PRECISION) == 50 && Fee(50, 5) == 0 && Fee(50, 20_000) == 100
  {
    assert Share(100, PRECISION, 2 * PRECISION) == 50 by { DivUnique(100 * PRECISION, 2 * PRECISION, 50); }
  }

  lemma DealIsOn() returns (w: World)
    ensures Inv(Books(OPENED, t => 0))
    ensures w == Run(World(Books(OPENED, t => 0), 0), DEAL)
    ensures 1 in w.books.desk.forwards && w.books.desk.forwards[1] == AGREED && w.books.desk.feeBps == 5 && w.now == 4000
  {
    DoubledRate();
    DeployedInv(map[7 := PAIR], 0, OPENED.balances);
    var w0 := World(Books(OPENED, t => 0), 0);
    var w1 := Step(w0, DEAL[0]);
    StepKeeps(w0, DEAL[0]);
    assert w1.books.desk.forwards[1] == AGREED.(seller := 0, sellerCollateral := 0, status := Open);
    assert Known(w1.books.desk, 1) && Bal(w1.books.desk.balances, 10, SELLER) == 100;
    var w2 := Step(w1, DEAL[1]);
    StepKeeps(w1, DEAL[1]);
    w := Step(w2, DEAL[2]);
    StepKeeps(w2, DEAL[2]);
    assert DEAL[1..] == [DEAL[1], DEAL[2]] && DEAL[1..][1..] == [DEAL[2]] && DEAL[1..][1..][1..] == [];
    assert Run(w, []) == w;
    assert Run(w2, DEAL[1..][1..]) == w;
    assert Run(w1, DEAL[1..]) == w;
  }

  /** After the owner sets a fee, a due forward settles exactly at the rates where that fee fits in the gain. */
  lemma SettlesAtFeeIff(w: World, feeBps: nat, id: nat, currentRate: nat)
    requires Inv(w.books) && Known(w.books.desk, id) && Due(w.books.desk, id, w.now)
    ensures Inv(Step(w, Call(SetFee(feeBps))).books)
    ensures var z := Step(w, Call(SetFee(feeBps))); var gain := CappedGain(w.books.desk.forwards[id], currentRate);
            SettledBy(z.books.desk, false, id, currentRate, z.now).Some? <==> Fee(gain, feeBps) <= gain
  {
    var z := Step(w, Call(SetFee(feeBps)));
    StepKeeps(w, Call(SetFee(feeBps)));
    assert z.books.desk == w.books.desk.(feeBps := feeBps) && Run(z, []) == z;
    SettlesIff(z, [], false, id, currentRate);
  }

  /** From deployment: at a doubled rate the due deal settles under a fee of 5, and cannot under one of 20000. */
  lemma FeeAboveAllBlocks()
    ensures Inv(Books(OPENED, t => 0))
    ensures var w := Run(World(Books(OPENED, t => 0), 0), DEAL);
            && Due(w.books.desk, 1, w.now)
            && SettledBy(Step(w, Call(SetFee(5))).books.desk, false, 1, 2 * PRECISION, w.now).Some?
            && SettledBy(Step(w, Call(SetFee(20_000))).books.desk, false, 1, 2 * PRECISION, w.now) == None
  {
    DoubledRate();
    var w := DealIsOn();
    SettlesAtFeeIff(w, 5, 1, 2 * PRECISION);
    SettlesAtFeeIff(w, 20_000, 1, 2 * PRECISION);
  }

  // ---------------------------------------------------------------- who gets what

  /** Every account but the contract ends with exactly the payments made out to it. */
  lemma SettlementDelivers(b: Books, id: nat, currentRate: nat)
    requires Inv(b) && Known(b.desk, id) && b.desk.forwards[id].status.Active?
    requires SettleInternal(b.desk, id, currentRate).Some?
    ensures var d, e := b.desk, SettleInternal(b.desk, id, currentRate).value;
            var f := d.forwards[id];
            var gain := CappedGain(f, currentRate);
            var ps := Payments(f, d.pairs[f.pairId], gain, Fee(gain, d.feeBps), d.feeReceiver, currentRate);
            forall t, a :: a != SELF ==> Bal(e.balances, t, a) == Bal(d.balances, t, a) + PaidTo(ps, t, a)
  {
    var d, f := b.desk, b.desk.forwards[id];
    var gain := CappedGain(f, currentRate);
    var fee := Fee(gain, d.feeBps);
    var ps := Payments(f, d.pairs[f.pairId], gain, fee, d.feeReceiver, currentRate);
    forall t ensures PaidOut(ps, t) <= Bal(d.balances, t, SELF) {
      CollateralHeld(b, id, t);
      PaymentsAddUp(f, d.pairs[f.pairId], gain, fee, d.feeReceiver, currentRate, t);
    }
    PayDelivers(d.balances, ps);
  }

  /** The ways the two sides and the fee receiver can be told apart. */
  predicate Apart(d: Desk, f: Forward)
    requires f.pairId in d.pairs
  {
    f.buyer != f.seller && d.feeReceiver != f.buyer && d.feeReceiver != f.seller && d.pairs[f.pairId].base != d.pairs[f.pairId].quote
  }

  /** The winner gets all collateral back, and of the loser's the gain, or all of it if that is less, without the fee; the loser gets the rest. */
  lemma WinnerIsPaid(b: Books, id: nat, currentRate: nat)
    requires Inv(b) && Known(b.desk, id) && b.desk.forwards[id].status.Active?
    requires SettleInternal(b.desk, id, currentRate).Some? && Apart(b.desk, b.desk.forwards[id])
    ensures var d, e := b.desk, SettleInternal(b.desk, id, currentRate).value;
            var f := d.forwards[id];
            var pair, whole, most := d.pairs[f.pairId], Gain(f, currentRate), LoserCollateral(f, currentRate);
            var gain := if whole <= most then whole else most;
            if BuyerWins(f, currentRate) then
              && Bal(e.balances, pair.quote, f.buyer) == Bal(d.balances, pair.quote, f.buyer) + f.buyerCollateral
              && Bal(e.balances, pair.base, f.buyer) == Bal(d.balances, pair.base, f.buyer) + gain - Fee(gain, d.feeBps)
              && Bal(e.balances, pair.base, f.seller) == Bal(d.balances, pair.base, f.seller) + f.sellerCollateral - gain
            else
              && Bal(e.balances, pair.base, f.seller) == Bal(d.balances, pair.base, f.seller) + f.sellerCollateral
              && Bal(e.balances, pair.quote, f.seller) == Bal(d.balances, pair.quote, f.seller) + gain - Fee(gain, d.feeBps)
              && Bal(e.balances, pair.quote, f.buyer) == Bal(d.balances, pair.quote, f.buyer) + f.buyerCollateral - gain
  {
    SettlementDelivers(b, id, currentRate);
    var d, f := b.desk, b.desk.forwards[id];
    assert Sound(f);
    var pair, gain := d.pairs[f.pairId], CappedGain(f, currentRate);
    var ps := Payments(f, pair, gain, Fee(gain, d.feeBps), d.feeReceiver, currentRate);
    PaidUnrolled(ps, pair.quote, f.buyer);
    PaidUnrolled(ps, pair.base, f.buyer);
    PaidUnrolled(ps, pair.quote, f.seller);
    PaidUnrolled(ps, pair.base, f.seller);
  }

  // ---------------------------------------------------------------- the amounts

  /** The buyer's gain is the most base whose worth at the current rate the fall of the quote price covers; the seller's is in quote. */
  lemma GainIs(f: Forward, currentRate: nat, x: nat)
    requires f.rate > 0
    ensures currentRate >= f.rate ==> (x <= Gain(f, currentRate) <==> x * currentRate <= f.baseAmount * (currentRate - f.rate))
    ensures currentRate < f.rate ==> (x <= Gain(f, currentRate) <==> x * PRECISION <= f.baseAmount * (f.rate - currentRate))
  {
    if currentRate >= f.rate { DivAtLeast(f.baseAmount * (currentRate - f.rate), currentRate, x); }
    else { DivAtLeast(f.baseAmount * (f.rate - currentRate), PRECISION, x); }
  }

  lemma FeeIs(gain: nat, feeBps: nat, x: nat)
    ensures x <= Fee(gain, feeBps) <==> x * BPS <= gain * feeBps
  {
    DivAtLeast(gain * feeBps, BPS, x);
  }

  /**
   An offer goes in exactly when nothing is paused, its amounts are positive, its maturity is more than an hour and
   at most a year away, the pair is known and the buyer has the collateral: the floored worth of the base at the rate,
   times the ratio. It is taken from the buyer and from nobody else, and recorded with the terms given.
   */
  lemma CreateTakes(d: Desk, caller: Account, pairId: nat, rate: nat, baseAmount: nat, maturity: nat, now: nat, x: nat)
    requires x * (PRECISION * BPS) <= baseAmount * rate * d.ratioBps < (x + 1) * (PRECISION * BPS)
    ensures Created(d, caller, pairId, rate, baseAmount, maturity, now).Some?
            <==> !d.paused && rate > 0 && baseAmount > 0 && now + 3600 < maturity <= now + 365 * 86400 && pairId in d.pairs
                 && x <= Bal(d.balances, d.pairs[pairId].quote, caller)
    ensures Created(d, caller, pairId, rate, baseAmount, maturity, now).Some? && caller != SELF ==>
              var e := Created(d, caller, pairId, rate, baseAmount, maturity, now).value;
              && e.forwards == d.forwards[d.nextId := Forward(pairId, caller, 0, rate, baseAmount, maturity, x, 0, Open)] && e.nextId == d.nextId + 1
              && forall t, a :: Bal(e.balances, t, a) == Bal(d.balances, t, a) + Moved(t == d.pairs[pairId].quote, caller, SELF, a, x)
  {
    DivUnique(baseAmount * rate * d.ratioBps, PRECISION * BPS, x);
  }

  /** The ratio that is set is the ratio the next offer is collateralised at. */
  lemma RatioGovernsNext(d: Desk, bps: nat, caller: Account, pairId: nat, rate: nat, baseAmount: nat, maturity: nat, now: nat, x: nat)
    requires WellFormed(d) && x * (PRECISION * BPS) <= baseAmount * rate * bps < (x + 1) * (PRECISION * BPS)
    ensures Apply(d, SetRatio(bps), now).Some?
    ensures var e := Apply(d, SetRatio(bps), now).value; var r := Created(e, caller, pairId, rate, baseAmount, maturity, now);
            r.Some? ==> d.nextId in r.value.forwards && r.value.forwards[d.nextId].buyerCollateral == x
  {
    DivUnique(baseAmount * rate * bps, PRECISION * BPS, x);
  }

  /** By how much a transfer of x changes an account. */
  function Moved(ofToken: bool, from: Account, to: Account, a: Account, x: nat): int {
    if !ofToken then 0 else (if a == to then x else 0) - if a == from then x else 0
  }

  /** Taking an offer asks the seller for the floored ratio of the base, makes it active, and changes nothing else of it. */
  lemma AcceptTakes(d: Desk, caller: Account, id: nat, x: nat)
    requires WellFormed(d) && id in d.forwards && Known(d, id)
    requires x * BPS <= d.forwards[id].baseAmount * d.ratioBps < (x + 1) * BPS
    ensures var f := d.forwards[id]; var base := d.pairs[f.pairId].base;
            && (Accepted(d, caller, id).Some? <==> !d.paused && f.status.Open? && x <= Bal(d.balances, base, caller))
            && (Accepted(d, caller, id).Some? && caller != SELF ==>
                  var e := Accepted(d, caller, id).value;
                  && e.forwards == d.forwards[id := f.(seller := caller, sellerCollateral := x, status := Active)]
                  && forall t, a :: Bal(e.balances, t, a) == Bal(d.balances, t, a) + Moved(t == base, caller, SELF, a, x))
  {
    DivUnique(d.forwards[id].baseAmount * d.ratioBps, BPS, x);
  }

  /** A top-up goes to the side of the caller, the buyer's first, in its token, and to nothing else. */
  lemma TopUpAdds(d: Desk, caller: Account, id: nat, amount: nat)
    requires WellFormed(d) && id in d.forwards && Known(d, id)
    ensures var f := d.forwards[id]; var pair := d.pairs[f.pairId];
            var token := if caller == f.buyer then pair.quote else pair.base;
            && (ToppedUp(d, caller, id, amount).Some?
                <==> amount > 0 && f.status.Active? && (caller == f.buyer || caller == f.seller) && amount <= Bal(d.balances, token, caller))
            && (ToppedUp(d, caller, id, amount).Some? && caller != SELF ==>
                  var e := ToppedUp(d, caller, id, amount).value;
                  && e.forwards == d.forwards[id := if caller == f.buyer then f.(buyerCollateral := f.buyerCollateral + amount)
                                                    else f.(sellerCollateral := f.sellerCollateral + amount)]
                  && forall t, a :: Bal(e.balances, t, a) == Bal(d.balances, t, a) + Moved(t == token, caller, SELF, a, amount))
  {
  }

  /** Cancelling gives the buyer exactly the collateral back. */
  lemma CancelReturns(b: Books, id: nat)
    requires Inv(b) && id in b.desk.forwards && b.desk.forwards[id].status.Open?
    ensures Known(b.desk, id)
    ensures var d, f := b.desk, b.desk.forwards[id];
            var r := CancelledBy(d, f.buyer, id);
            && (forall caller :: CancelledBy(d, caller, id).Some? <==> caller == f.buyer)
            && r.value.forwards == d.forwards[id := f.(buyerCollateral := 0, status := Cancelled)]
            && forall t, a :: Bal(r.value.balances, t, a) == Bal(d.balances, t, a) + Moved(t == d.pairs[f.pairId].quote, SELF, f.buyer, a, f.buyerCollateral)
  {
    CancelKeeps(b, id);
    var d, f := b.desk, b.desk.forwards[id];
    assert Known(d, id) && Sound(f);
    var ps := [Payment(d.pairs[f.pairId].quote, f.buyer, f.buyerCollateral)];
    assert ps[1..] == [];
    assert forall c :: Pay(c, []) == Some(c);
  }

  // ---------------------------------------------------------------- when the caps bind

  ghost predicate Uncapped(f: Forward, currentRate: nat)
    requires f.rate > 0
  {
    Gain(f, currentRate) <= LoserCollateral(f, currentRate)
  }

  lemma ShortOfAll(amount: nat, rate: nat, currentRate: nat)
    requires 0 < rate <= currentRate && amount > 0
    ensures Share(amount, currentRate - rate, currentRate) <= amount - 1
  {
    var n := amount * (currentRate - rate);
    assert n < amount * currentRate by { assert n == amount * currentRate - amount * rate && amount * rate > 0; }
    DivAtLeast(n, currentRate, amount);
  }

  lemma AlmostAll(amount: nat, rate: nat)
    requires rate > 0 && amount > 0
    ensures rate <= amount * rate && Share(amount, amount * rate - rate, amount * rate) == amount - 1
  {
    MulMono(1, amount, rate, rate);
    var worst := amount * rate;
    var n := amount * (worst - rate);
    assert n == amount * worst - amount * rate;
    assert (amount - 1) * worst == amount * worst - worst;
    DivUnique(n, worst, amount - 1);
  }

  /** The buyer's gain stays below the base amount, and comes within one of it as the rate rises. */
  lemma BuyerGainBounds(f: Forward, currentRate: nat)
    requires f.rate > 0 && f.baseAmount > 0
    ensures BuyerWins(f, currentRate) ==> Gain(f, currentRate) <= f.baseAmount - 1
    ensures BuyerWins(f, f.baseAmount * f.rate) && Gain(f, f.baseAmount * f.rate) == f.baseAmount - 1
  {
    if BuyerWins(f, currentRate) { ShortOfAll(f.baseAmount, f.rate, currentRate); }
    AlmostAll(f.baseAmount, f.rate);
  }

  /** The seller's gain is largest when the rate falls to nothing. */
  lemma SellerGainBounds(f: Forward, currentRate: nat)
    requires f.rate > 0
    ensures !BuyerWins(f, currentRate) ==> Gain(f, currentRate) <= Share(f.baseAmount, f.rate, PRECISION)
    ensures !BuyerWins(f, 0) && Gain(f, 0) == Share(f.baseAmount, f.rate, PRECISION)
  {
    if !BuyerWins(f, currentRate) {
      MulMono(f.baseAmount, f.baseAmount, f.rate - currentRate, f.rate);
      DivMono(f.baseAmount * (f.rate - currentRate), f.baseAmount * f.rate, PRECISION);
    }
  }

  /** No rate makes a cap bind exactly when each side's collateral reaches its worst case. */
  lemma CapsNeverBindIff(f: Forward)
    requires f.rate > 0 && f.baseAmount > 0
    ensures (forall currentRate: nat :: Uncapped(f, currentRate))
            <==> f.sellerCollateral >= f.baseAmount - 1 && f.buyerCollateral >= Share(f.baseAmount, f.rate, PRECISION)
  {
    BuyerGainBounds(f, 0);
    SellerGainBounds(f, 0);
    if forall currentRate: nat :: Uncapped(f, currentRate) {
      assert Uncapped(f, f.baseAmount * f.rate) && Uncapped(f, 0);
    }
    if f.sellerCollateral >= f.baseAmount - 1 && f.buyerCollateral >= Share(f.baseAmount, f.rate, PRECISION) {
      forall currentRate: nat ensures Uncapped(f, currentRate) {
        BuyerGainBounds(f, currentRate);
        SellerGainBounds(f, currentRate);
      }
    }
  }

  /** Full collateral on the sides that have paid in. */
  predicate Collateralised(f: Forward) {
    && (f.status.Open? || f.status.Active? ==> f.buyerCollateral >= Share(f.baseAmount, f.rate, PRECISION))
    && (f.status.Active? ==> f.sellerCollateral >= f.baseAmount)
  }

  ghost predicate AllCollateralised(d: Desk) { d.ratioBps >= BPS && forall id :: id in d.forwards ==> Collateralised(d.forwards[id]) }

  /** The owner never sets the collateral ratio below 100%. */
  predicate KeepsRatio(e: Event) { e.Call? && e.op.SetRatio? ==> e.op.bps >= BPS }

  lemma FullRatioCovers(baseAmount: nat, rate: nat, ratioBps: nat)
    requires ratioBps >= BPS
    ensures QuoteCollateral(baseAmount, rate, ratioBps) >= Share(baseAmount, rate, PRECISION)
    ensures BaseCollateral(baseAmount, ratioBps) >= baseAmount
  {
    FractionMono(baseAmount * rate, 1, PRECISION, ratioBps, PRECISION * BPS);
    MulMono(baseAmount, baseAmount, BPS, ratioBps);
    DivAtLeast(baseAmount * ratioBps, BPS, baseAmount);
  }

  lemma {:induction false} BatchCollateralised(d: Desk, ids: seq<nat>, rates: seq<nat>, now: nat, i: nat)
    requires WellFormed(d) && AllCollateralised(d) && |ids| == |rates| && i <= |ids| && BatchFrom(d, ids, rates, now, i).Some?
    ensures AllCollateralised(BatchFrom(d, ids, rates, now, i).value)
    decreases |ids| - i
  {
    if i < |ids| {
      if Due(d, ids[i], now) {
        assert Known(d, ids[i]);
        SettleKeepsForm(d, ids[i], rates[i]);
        BatchCollateralised(SettleInternal(d, ids[i], rates[i]).value, ids, rates, now, i + 1);
      } else {
        BatchCollateralised(d, ids, rates, now, i + 1);
      }
    }
  }

  lemma StepCollateralised(w: World, e: Event)
    requires Inv(w.books) && AllCollateralised(w.books.desk) && KeepsRatio(e)
    ensures AllCollateralised(Step(w, e).books.desk)
  {
    if e.Call? && Apply(w.books.desk, e.op, w.now).Some? {
      var d := w.books.desk;
      match e.op
      case Create(_, _, rate, baseAmount, _) => FullRatioCovers(baseAmount, rate, d.ratioBps);
      case Accept(_, id) => FullRatioCovers(d.forwards[id].baseAmount, d.forwards[id].rate, d.ratioBps);
      case BatchSettle(_, ids, rates) => BatchCollateralised(d, ids, rates, w.now, 0);
      case _ =>
    }
  }

  lemma {:induction false} RunCollateralised(w: World, events: seq<Event>)
    requires Inv(w.books) && AllCollateralised(w.books.desk) && forall e :: e in events ==> KeepsRatio(e)
    ensures AllCollateralised(Run(w, events).books.desk)
    decreases |events|
  {
    if events != [] {
      StepKeeps(w, events[0]);
      StepCollateralised(w, events[0]);
      RunCollateralised(Step(w, events[0]), events[1..]);
    }
  }

  /** While the ratio is never below 100%, no cap ever binds, at any rate: the full gain is always there to be paid. */
  lemma FullRatioNeverCaps(w: World, events: seq<Event>, id: nat, currentRate: nat)
    requires Inv(w.books) && AllCollateralised(w.books.desk) && forall e :: e in events ==> KeepsRatio(e)
    requires id in Run(w, events).books.desk.forwards && Run(w, events).books.desk.forwards[id].status.Active?
    ensures var f := Run(w, events).books.desk.forwards[id]; f.rate > 0 && CappedGain(f, currentRate) == Gain(f, currentRate)
  {
    RunCollateralised(w, events);
    var d := Run(w, events).books.desk;
    assert Known(d, id) && Sound(d.forwards[id]) && Collateralised(d.forwards[id]);
    CapsNeverBindIff(d.forwards[id]);
    assert Uncapped(d.forwards[id], currentRate);
  }

  // ---------------------------------------------------------------- batches

  /** A batch settles exactly the listed forwards that are due, each once, and leaves every other as it was. */
  lemma {:induction false} BatchSettlesExactlyDue(d: Desk, ids: seq<nat>, rates: seq<nat>, now: nat, i: nat, id: nat)
    requires WellFormed(d) && |ids| == |rates| && i <= |ids| && BatchFrom(d, ids, rates, now, i).Some?
    ensures var e := BatchFrom(d, ids, rates, now, i).value;
            && e.forwards.Keys == d.forwards.Keys
            && (id in d.forwards ==> e.forwards[id] == if id in ids[i..] && Due(d, id, now) then Closed(d.forwards[id]) else d.forwards[id])
    decreases |ids| - i
  {
    if i < |ids| {
      assert ids[i..] == [ids[i]] + ids[i + 1..];
      if Due(d, ids[i], now) {
        assert Known(d, ids[i]);
        SettleKeepsForm(d, ids[i], rates[i]);
        BatchSettlesExactlyDue(SettleInternal(d, ids[i], rates[i]).value, ids, rates, now, i + 1, id);
      } else {
        BatchSettlesExactlyDue(d, ids, rates, now, i + 1, id);
      }
    }
  }

  /** Entry k of a batch from i on would revert: it is the first of its forward, which is due, and its fee exceeds the gain. */
  predicate Blocked(d: Desk, ids: seq<nat>, rates: seq<nat>, now: nat, i: nat, k: nat)
    requires WellFormed(d) && |ids| == |rates| && i <= k < |ids|
  {
    && Due(d, ids[k], now) && (forall j :: i <= j < k ==> ids[j] != ids[k])
    && assert Known(d, ids[k]); var gain := CappedGain(d.forwards[ids[k]], rates[k]); Fee(gain, d.feeBps) > gain
  }

  /** Looking from the next entry on changes nothing for later ones, if this one is not due. */
  lemma SkippedBlocks(d: Desk, ids: seq<nat>, rates: seq<nat>, now: nat, i: nat, k: nat)
    requires WellFormed(d) && |ids| == |rates| && i < k < |ids| && !Due(d, ids[i], now)
    ensures Blocked(d, ids, rates, now, i, k) <==> Blocked(d, ids, rates, now, i + 1, k)
  {
  }

  /** Nor after it has been settled: a repeat of it is no longer due. */
  lemma SettledBlocks(d: Desk, e: Desk, ids: seq<nat>, rates: seq<nat>, now: nat, i: nat, k: nat)
    requires WellFormed(d) && WellFormed(e) && |ids| == |rates| && i < k < |ids| && Due(d, ids[i], now)
    requires e.feeBps == d.feeBps && e.forwards == d.forwards[ids[i] := Closed(d.forwards[ids[i]])]
    ensures Blocked(d, ids, rates, now, i, k) <==> Blocked(e, ids, rates, now, i + 1, k)
  {
  }

  ghost predicate NoneBlocked(d: Desk, ids: seq<nat>, rates: seq<nat>, now: nat, i: nat)
    requires WellFormed(d) && |ids| == |rates|
  {
    forall k :: i <= k < |ids| ==> !Blocked(d, ids, rates, now, i, k)
  }

  lemma SkippedAll(d: Desk, ids: seq<nat>, rates: seq<nat>, now: nat, i: nat)
    requires WellFormed(d) && |ids| == |rates| && i < |ids| && !Due(d, ids[i], now)
    ensures NoneBlocked(d, ids, rates, now, i) <==> NoneBlocked(d, ids, rates, now, i + 1)
  {
    var next := i + 1;
    if NoneBlocked(d, ids, rates, now, i) {
      forall k | next <= k < |ids| ensures !Blocked(d, ids, rates, now, next, k) { SkippedBlocks(d, ids, rates, now, i, k); }
    }
    if NoneBlocked(d, ids, rates, now, next) {
      forall k | i <= k < |ids| ensures !Blocked(d, ids, rates, now, i, k) { if k > i { SkippedBlocks(d, ids, rates, now, i, k); } }
    }
  }

  lemma SettledAll(d: Desk, e: Desk, ids: seq<nat>, rates: seq<nat>, now: nat, i: nat)
    requires WellFormed(d) && WellFormed(e) && |ids| == |rates| && i < |ids| && Due(d, ids[i], now) && !Blocked(d, ids, rates, now, i, i)
    requires e.feeBps == d.feeBps && e.forwards == d.forwards[ids[i] := Closed(d.forwards[ids[i]])]
    ensures NoneBlocked(d, ids, rates, now, i) <==> NoneBlocked(e, ids, rates, now, i + 1)
  {
    var next := i + 1;
    if NoneBlocked(d, ids, rates, now, i) {
      forall k | next <= k < |ids| ensures !Blocked(e, ids, rates, now, next, k) { SettledBlocks(d, e, ids, rates, now, i, k); }
    }
    if NoneBlocked(e, ids, rates, now, next) {
      forall k | i <= k < |ids| ensures !Blocked(d, ids, rates, now, i, k) { if k > i { SettledBlocks(d, e, ids, rates, now, i, k); } }
    }
  }

  /** A batch goes through exactly when none of its entries is blocked: those not due, and repeats, are skipped. */
  lemma {:induction false} BatchCommitsIff(b: Books, ids: seq<nat>, rates: seq<nat>, now: nat, i: nat)
    requires Inv(b) && |ids| == |rates| && i <= |ids|
    ensures BatchFrom(b.desk, ids, rates, now, i).Some? <==> NoneBlocked(b.desk, ids, rates, now, i)
    decreases |ids| - i
  {
    if i < |ids| {
      var d := b.desk;
      if !Due(d, ids[i], now) {
        SkippedAll(d, ids, rates, now, i);
        BatchCommitsIff(b, ids, rates, now, i + 1);
      } else {
        assert Known(d, ids[i]);
        if !Blocked(d, ids, rates, now, i, i) {
          var between := (t: Token) => b.surplus(t) + if Known(d, ids[i]) then KeptFee(d, ids[i], rates[i], t) else 0;
          SettlementKeeps(b, ids[i], rates[i], between);
          var e := SettleInternal(d, ids[i], rates[i]).value;
          SettledAll(d, e, ids, rates, now, i);
          BatchCommitsIff(Books(e, between), ids, rates, now, i + 1);
        }
      }
    }
  }

  /** The receiver that is set gets the fees of later settlements; a pause stops offers and takings alone. */
  lemma SettingsGovernNext(d: Desk, receiver: Account, caller: Account, id: nat, pairId: nat, rate: nat, baseAmount: nat, maturity: nat, now: nat)
    requires WellFormed(d)
    ensures Apply(d, SetFeeReceiver(receiver), now) == Some(d.(feeReceiver := receiver))
    ensures var p := d.(paused := true);
            && Apply(d, SetPaused(true), now) == Some(p) && WellFormed(p)
            && Created(p, caller, pairId, rate, baseAmount, maturity, now) == None && Accepted(p, caller, id) == None
  {
    forall k | k in d.forwards ensures Known(d.(paused := true), k) { assert Known(d, k); }
  }
}

/** The forward desk as an object, over the token balances. */
module ForwardContract {
  import opened Options
  import opened ForwardModel

  class ForexForward {
    var pairs: map<nat, Pair>
    var collateralRatioBps: nat
    var feeReceiver: Account
    var settlementFeeBps: nat
    var paused: bool
    var forwards: map<nat, Forward>
    var nextForwardId: nat
    var balances: Balances // of all tokens

    function State(): Desk
      reads this
    {
      Desk(pairs, collateralRatioBps, feeReceiver, settlementFeeBps, paused, forwards, nextForwardId, balances)
    }

    constructor (pairs: map<nat, Pair>, receiver: Account, balances: Balances)
      requires forall t :: Bal(balances, t, SELF) == 0
      ensures Inv(Books(State(), t => 0)) && AllCollateralised(State())
    {
      this.pairs, collateralRatioBps, feeReceiver, settlementFeeBps, paused := pairs, BPS, receiver, 5, false;
      forwards, nextForwardId, this.balances := map[], 1, balances;
      new;
      DeployedInv(pairs, receiver, balances);
    }

    /** A token transfer; no effect when it fails. */
    method Transfer(t: Token, from: Account, to: Account, x: nat) returns (ok: bool)
      modifies this`balances
      ensures ok == Move(old(balances), t, from, to, x).Some?
      ensures balances == if ok then Move(old(balances), t, from, to, x).value else old(balances)
    {
      if Bal(balances, t, from) < x { return false; }
      if x > 0 {
        balances := balances[(t, from) := Bal(balances, t, from) - x];
        balances := balances[(t, to) := Bal(balances, t, to) + x];
      }
      ok := true;
    }

    method CreateForward(caller: Account, pairId: nat, rate: nat, baseAmount: nat, maturity: nat, now: nat) returns (ok: bool, id: nat)
      modifies this
      ensures ok == Created(old(State()), caller, pairId, rate, baseAmount, maturity, now).Some?
      ensures State() == if ok then Created(old(State()), caller, pairId, rate, baseAmount, maturity, now).value else old(State())
      ensures ok ==> id == old(nextForwardId)
      ensures caller != SELF && Solvent(old(State())) ==> Solvent(State())
    {
      if WellFormed(State()) { CallKeeps(State(), Create(caller, pairId, rate, baseAmount, maturity), now); }
      ok, id := false, 0;
      if paused || rate == 0 || baseAmount == 0 || maturity <= now + MIN_MATURITY || maturity > now + MAX_MATURITY { return; }
      if pairId !in pairs { return; }
      var collateral := QuoteCollateral(baseAmount, rate, collateralRatioBps);
      ok := Transfer(pairs[pairId].quote, caller, SELF, collateral);
      if !ok { return; }
      id := nextForwardId;
      nextForwardId := nextForwardId + 1;
      forwards := forwards[id := Forward(pairId, caller, 0, rate, baseAmount, maturity, collateral, 0, Open)];
    }

    method AcceptForward(caller: Account, id: nat) returns (ok: bool)
      requires WellFormed(State())
      modifies this
      ensures ok == Accepted(old(State()), caller, id).Some?
      ensures State() == if ok then Accepted(old(State()), caller, id).value else old(State())
      ensures caller != SELF && Solvent(old(State())) ==> Solvent(State())
    {
      CallKeeps(State(), Accept(caller, id), 0);
      if paused || id !in forwards || !forwards[id].status.Open? { return false; }
      assert Known(State(), id);
      var fwd := forwards[id];
      var collateral := BaseCollateral(fwd.baseAmount, collateralRatioBps);
      ok := Transfer(pairs[fwd.pairId].base, caller, SELF, collateral);
      if ok { forwards := forwards[id := fwd.(seller := caller, sellerCollateral := collateral, status := Active)]; }
    }

    method CancelForward(caller: Account, id: nat) returns (ok: bool)
      requires WellFormed(State())
      modifies this
      ensures ok == CancelledBy(old(State()), caller, id).Some?
      ensures State() == if ok then CancelledBy(old(State()), caller, id).value else old(State())
      ensures caller != SELF && Solvent(old(State())) ==> Solvent(State())
    {
      CallKeeps(State(), Cancel(caller, id), 0);
      if id !in forwards || !forwards[id].status.Open? || caller != forwards[id].buyer { return false; }
      assert Known(State(), id);
      var fwd := forwards[id];
      ghost var ps := [Payment(pairs[fwd.pairId].quote, fwd.buyer, fwd.buyerCollateral)];
      assert ps[1..] == [] && forall b :: Pay(b, []) == Some(b);
      ok := Transfer(pairs[fwd.pairId].quote, SELF, fwd.buyer, fwd.buyerCollateral);
      if ok { forwards := forwards[id := fwd.(buyerCollateral := 0, status := Cancelled)]; }
    }

    method TopUpCollateral(caller: Account, id: nat, amount: nat) returns (ok: bool)
      requires WellFormed(State())
      modifies this
      ensures ok == ToppedUp(old(State()), caller, id, amount).Some?
      ensures State() == if ok then ToppedUp(old(State()), caller, id, amount).value else old(State())
      ensures caller != SELF && Solvent(old(State())) ==> Solvent(State())
    {
      CallKeeps(State(), TopUp(caller, id, amount), 0);
      if amount == 0 || id !in forwards || !forwards[id].status.Active? { return false; }
      assert Known(State(), id);
      var fwd := forwards[id];
      if caller == fwd.buyer {
        ok := Transfer(pairs[fwd.pairId].quote, caller, SELF, amount);
        if ok { forwards := forwards[id := fwd.(buyerCollateral := fwd.buyerCollateral + amount)]; }
      } else if caller == fwd.seller {
        ok := Transfer(pairs[fwd.pairId].base, caller, SELF, amount);
        if ok { forwards := forwards[id := fwd.(sellerCollateral := fwd.sellerCollateral + amount)]; }
      } else {
        ok := false;
      }
    }

    /** One payment out of the contract, at the head of those still to be made. */
    method PayNext(ghost ps: seq<Payment>, t: Token, to: Account, x: nat) returns (ok: bool)
      requires ps != [] && ps[0] == Payment(t, to, x)
      modifies this`balances
      ensures ok ==> Pay(old(balances), ps) == Pay(balances, ps[1..])
      ensures !ok ==> Pay(old(balances), ps).None?
    {
      ok := Transfer(t, SELF, to, x);
    }

    /** The payments of a settlement in order, up to the first that fails. */
    method PayOut(fwd: Forward, pair: Pair, gain: nat, fee: nat, currentRate: nat) returns (ok: bool)
      requires fee <= gain <= LoserCollateral(fwd, currentRate)
      modifies this`balances
      ensures var r := Pay(old(balances), Payments(fwd, pair, gain, fee, feeReceiver, currentRate));
              ok == r.Some? && (ok ==> balances == r.value)
    {
      ghost var ps := Payments(fwd, pair, gain, fee, feeReceiver, currentRate);
      assert ps[1..][1..] == ps[2..] && ps[2..][1..] == ps[3..] && (|ps| == 4 ==> ps[3..][1..] == []);
      if currentRate >= fwd.rate {
        ok := PayNext(ps, pair.quote, fwd.buyer, fwd.buyerCollateral);
        if ok { ok := PayNext(ps[1..], pair.base, fwd.buyer, gain - fee); }
        if ok { ok := PayNext(ps[2..], pair.base, fwd.seller, fwd.sellerCollateral - gain); }
        if ok && fee > 0 && feeReceiver != 0 { ok := PayNext(ps[3..], pair.base, feeReceiver, fee); }
      } else {
        ok := PayNext(ps, pair.base, fwd.seller, fwd.sellerCollateral);
        if ok { ok := PayNext(ps[1..], pair.quote, fwd.seller, gain - fee); }
        if ok { ok := PayNext(ps[2..], pair.quote, fwd.buyer, fwd.buyerCollateral - gain); }
        if ok && fee > 0 && feeReceiver != 0 { ok := PayNext(ps[3..], pair.quote, feeReceiver, fee); }
      }
    }

    method SettleInternal(id: nat, currentRate: nat) returns (ok: bool)
      requires Known(State(), id)
      modifies this`balances, this`forwards
      ensures ok == ForwardModel.SettleInternal(old(State()), id, currentRate).Some?
      ensures State() == if ok then ForwardModel.SettleInternal(old(State()), id, currentRate).value else old(State())
    {
      ok := false;
      var fwd := forwards[id];
      var pair, before := pairs[fwd.pairId], balances;
      var gain := Gain(fwd, currentRate);
      if currentRate >= fwd.rate {
        if gain > fwd.sellerCollateral { gain := fwd.sellerCollateral; }
      } else if gain > fwd.buyerCollateral {
        gain := fwd.buyerCollateral;
      }
      var fee := Fee(gain, settlementFeeBps);
      if fee > gain { return; }
      ok := PayOut(fwd, pair, gain, fee, currentRate);
      if !ok {
        balances := before;
        return;
      }
      forwards := forwards[id := fwd.(status := Settled, buyerCollateral := 0, sellerCollateral := 0)];
    }

    method SettleForward(keeper: bool, id: nat, currentRate: nat, now: nat) returns (ok: bool)
      requires WellFormed(State())
      modifies this
      ensures ok == SettledBy(old(State()), keeper, id, currentRate, now).Some?
      ensures State() == if ok then SettledBy(old(State()), keeper, id, currentRate, now).value else old(State())
      ensures Solvent(old(State())) ==> Solvent(State())
    {
      CallKeeps(State(), Settle(keeper, id, currentRate), now);
      if id !in forwards || !forwards[id].status.Active? { return false; }
      if now < forwards[id].maturity && !keeper { return false; }
      assert Known(State(), id);
      ok := SettleInternal(id, currentRate);
    }

    /** All the due ones, or, when one of them reverts, none. */
    method BatchSettle(ids: seq<nat>, rates: seq<nat>, now: nat) returns (ok: bool)
      requires WellFormed(State()) && |ids| == |rates|
      modifies this
      ensures ok == BatchFrom(old(State()), ids, rates, now, 0).Some?
      ensures State() == if ok then BatchFrom(old(State()), ids, rates, now, 0).value else old(State())
      ensures ok ==> forall id :: id in old(forwards) ==>
                id in forwards && forwards[id] == if id in ids && Due(old(State()), id, now) then Closed(old(forwards)[id]) else old(forwards)[id]
      ensures Solvent(old(State())) ==> Solvent(State())
    {
      CallKeeps(State(), Op.BatchSettle(true, ids, rates), now);
      ghost var before := State();
      var balances0, forwards0 := balances, forwards;
      for i := 0 to |ids|
        invariant WellFormed(State()) && State() == before.(balances := balances, forwards := forwards)
        invariant BatchFrom(before, ids, rates, now, 0) == BatchFrom(State(), ids, rates, now, i)
      {
        if ids[i] in forwards && forwards[ids[i]].status.Active? && now >= forwards[ids[i]].maturity {
          assert Known(State(), ids[i]);
          ghost var d := State();
          ok := SettleInternal(ids[i], rates[i]);
          if !ok {
            balances, forwards := balances0, forwards0;
            return;
          }
          SettleKeepsForm(d, ids[i], rates[i]);
        }
      }
      ok := true;
      assert ids[0..] == ids;
      forall id | id in before.forwards
        ensures id in forwards && forwards[id] == if id in ids && Due(before, id, now) then Closed(before.forwards[id]) else before.forwards[id]
      {
        BatchSettlesExactlyDue(before, ids, rates, now, 0, id);
      }
    }
  }
}
