/** The tick ledger of a concentrated-liquidity pool and the positions it summarises. */
module TickLedger {
  import opened Options
  import opened MapSums

  const MIN_TICK := -887272
  const MAX_TICK := 887272
  const U128 := 0x1_0000_0000_0000_0000_0000_0000_0000_0000
  const HALF128 := 0x8000_0000_0000_0000_0000_0000_0000_0000

  type Owner = nat

  datatype PositionKey = PositionKey(owner: Owner, lower: int, upper: int)

  datatype TickInfo = TickInfo(gross: nat, net: int)

  datatype Pool = Pool(spacing: int, positions: map<PositionKey, nat>, ticks: map<int, TickInfo>)

  datatype Op =
    | Mint(recipient: Owner, lower: int, upper: int, amount: nat)
    | Burn(owner: Owner, lower: int, upper: int, amount: nat)

  function LiquidityOf(p: Pool, k: PositionKey): nat { if k in p.positions then p.positions[k] else 0 }

  function TickOf(ticks: map<int, TickInfo>, t: int): TickInfo { if t in ticks then ticks[t] else TickInfo(0, 0) }

  /** `int128(uint128(amount))`: the unchecked cast wraps in the upper half. */
  function ToInt128(amount: nat): int { if amount < HALF128 then amount else amount - U128 }

  predicate FitsInt128(x: int) { -HALF128 <= x < HALF128 }

  /** `_updateTick`: gross grows by the size of the change either way, net by the change itself. */
  function UpdateTick(ticks: map<int, TickInfo>, t: int, delta: int): Option<map<int, TickInfo>> {
    var info := TickOf(ticks, t);
    var size := if delta > 0 then delta else -delta;
    if !FitsInt128(delta) || (delta <= 0 && !FitsInt128(-delta)) || info.gross + size >= U128 || !FitsInt128(info.net + delta)
    then None
    else Some(ticks[t := TickInfo(info.gross + size, info.net + delta)])
  }

  /** Both ends of a range; None when either update, or the negation before it, reverts. */
  function UpdateRange(ticks: map<int, TickInfo>, lower: int, upper: int, atLower: int, atUpper: int): Option<map<int, TickInfo>> {
    match UpdateTick(ticks, lower, atLower)
    case None => None
    case Some(half) => UpdateTick(half, upper, atUpper)
  }

  /** A position's new liquidity with the change at both ends of its range. */
  function Shifted(p: Pool, k: PositionKey, liquidity: nat, delta: int): Option<Pool> {
    match UpdateRange(p.ticks, k.lower, k.upper, delta, -delta)
    case None => None
    case Some(ticks) => Some(p.(positions := p.positions[k := liquidity], ticks := ticks))
  }

  predicate Aligned(spacing: int, lower: int, upper: int) { spacing != 0 && lower % spacing == 0 && upper % spacing == 0 }

  /** The ledger after a committed call; amounts are 128-bit words. */
  function Apply(p: Pool, op: Op): Option<Pool> {
    match op
    case Mint(recipient, lower, upper, amount) =>
      var k := PositionKey(recipient, lower, upper);
      var delta := ToInt128(amount);
      if amount == 0 || amount >= U128 || lower >= upper || lower < MIN_TICK || upper > MAX_TICK then None
      else if !Aligned(p.spacing, lower, upper) then None
      else if LiquidityOf(p, k) + amount >= U128 then None
      else Shifted(p, k, LiquidityOf(p, k) + amount, delta)
    case Burn(owner, lower, upper, amount) =>
      var k := PositionKey(owner, lower, upper);
      var delta := ToInt128(amount);
      if amount >= U128 || LiquidityOf(p, k) < amount then None
      else Shifted(p, k, LiquidityOf(p, k) - amount, -delta)
  }

  function Run(p: Pool, ops: seq<Op>): Pool
    decreases |ops|
  {
    if ops == [] then p
    else match Apply(p, ops[0])
         case None => Run(p, ops[1..])
         case Some(q) => Run(q, ops[1..])
  }

  // ---------------------------------------------------------------- the ledger invariant

  ghost function NetUpTo(t: int): (int, TickInfo) -> int { (k: int, v: TickInfo) => if k <= t then v.net else 0 }
  ghost function NetEverywhere(k: int, v: TickInfo): int { v.net }
  ghost function ActiveAt(t: int): (PositionKey, nat) -> int {
    (k: PositionKey, v: nat) => if k.lower <= t < k.upper then v else 0
  }

  /** Crossing ticks from the left adds up to the liquidity of the positions that contain the tick. */
  ghost predicate Balanced(p: Pool) {
    && (forall t :: Sum(p.ticks, NetUpTo(t)) == Sum(p.positions, ActiveAt(t)))
    && Sum(p.ticks, NetEverywhere) == 0
  }

  /** Liquidity sits only in proper ranges. */
  ghost predicate Ranged(p: Pool) {
    forall k :: k in p.positions && p.positions[k] > 0 ==> k.lower < k.upper
  }

  /** A range update shifts the prefix sums by its first amount at or past the lower end, by its second past the upper. */
  lemma RangeShifts(ticks: map<int, TickInfo>, lower: int, upper: int, atLower: int, atUpper: int, t: int)
    requires UpdateRange(ticks, lower, upper, atLower, atUpper).Some?
    ensures var after := UpdateRange(ticks, lower, upper, atLower, atUpper).value;
            && Sum(after, NetUpTo(t)) == Sum(ticks, NetUpTo(t)) + (if lower <= t then atLower else 0) + (if upper <= t then atUpper else 0)
            && Sum(after, NetEverywhere) == Sum(ticks, NetEverywhere) + atLower + atUpper
  {
    var half := UpdateTick(ticks, lower, atLower).value;
    var after := UpdateTick(half, upper, atUpper).value;
    SumUpdate(ticks, NetUpTo(t), lower, half[lower]);
    SumUpdate(half, NetUpTo(t), upper, after[upper]);
    SumUpdate(ticks, NetEverywhere, lower, half[lower]);
    SumUpdate(half, NetEverywhere, upper, after[upper]);
  }

  /** A mint adds, a burn takes away. */
  function Signed(op: Op, x: int): int { if op.Mint? then x else -x }

  /** A committed call is a shift of its own position by its signed amounts; only an empty burn can have no range. */
  lemma ApplyShifts(p: Pool, op: Op)
    requires Ranged(p) && Apply(p, op).Some?
    ensures LiquidityOf(p, KeyOf(op)) + Signed(op, op.amount) >= 0
    ensures Apply(p, op) == Shifted(p, KeyOf(op), LiquidityOf(p, KeyOf(op)) + Signed(op, op.amount), Signed(op, ToInt128(op.amount)))
    ensures op.lower < op.upper || op.amount == 0
  {
    if op.Burn? && op.amount > 0 { assert KeyOf(op) in p.positions && p.positions[KeyOf(op)] > 0; }
  }

  function KeyOf(op: Op): PositionKey { PositionKey(if op.Mint? then op.recipient else op.owner, op.lower, op.upper) }

  /** By how much a committed call changes the two sides of the balance at tick t. */
  lemma StepShifts(p: Pool, op: Op, t: int)
    requires Ranged(p) && Apply(p, op).Some?
    ensures var q, inside := Apply(p, op).value, op.lower <= t < op.upper;
            && Sum(q.positions, ActiveAt(t)) == Sum(p.positions, ActiveAt(t)) + (if inside then Signed(op, op.amount) else 0)
            && Sum(q.ticks, NetUpTo(t)) == Sum(p.ticks, NetUpTo(t)) + (if inside then Signed(op, ToInt128(op.amount)) else 0)
            && Sum(q.ticks, NetEverywhere) == Sum(p.ticks, NetEverywhere)
  {
    ApplyShifts(p, op);
    var k := KeyOf(op);
    ShiftShifts(p, k, LiquidityOf(p, k) + Signed(op, op.amount), Signed(op, ToInt128(op.amount)), t, Apply(p, op).value);
  }

  lemma ShiftShifts(p: Pool, k: PositionKey, liquidity: nat, delta: int, t: int, q: Pool)
    requires (k.lower < k.upper || (delta == 0 && liquidity == LiquidityOf(p, k))) && Shifted(p, k, liquidity, delta) == Some(q)
    ensures var inside := k.lower <= t < k.upper;
            && Sum(q.positions, ActiveAt(t)) == Sum(p.positions, ActiveAt(t)) + (if inside then liquidity - LiquidityOf(p, k) else 0)
            && Sum(q.ticks, NetUpTo(t)) == Sum(p.ticks, NetUpTo(t)) + (if inside then delta else 0)
            && Sum(q.ticks, NetEverywhere) == Sum(p.ticks, NetEverywhere)
  {
    SumUpdate<PositionKey, nat>(p.positions, ActiveAt(t), k, liquidity);
    RangeShifts(p.ticks, k.lower, k.upper, delta, -delta, t);
  }

  /** One tick's update moves every prefix sum from that tick on by the change. */
  lemma TickShifts(ticks: map<int, TickInfo>, t: int, delta: int)
    requires UpdateTick(ticks, t, delta).Some?
    ensures var after := UpdateTick(ticks, t, delta).value;
            && Sum(after, NetEverywhere) == Sum(ticks, NetEverywhere) + delta
            && forall u :: Sum(after, NetUpTo(u)) == Sum(ticks, NetUpTo(u)) + if t <= u then delta else 0
  {
    var after := UpdateTick(ticks, t, delta).value;
    SumUpdate(ticks, NetEverywhere, t, after[t]);
    forall u ensures Sum(after, NetUpTo(u)) == Sum(ticks, NetUpTo(u)) + if t <= u then delta else 0 {
      SumUpdate(ticks, NetUpTo(u), t, after[t]);
    }
  }

  lemma StepRanged(p: Pool, op: Op)
    requires Ranged(p) && Apply(p, op).Some?
    ensures Ranged(Apply(p, op).value)
  {
  }

  /**
   A committed mint or burn keeps the tick ledger in balance exactly when its amount is below 2^127:
   from there on the cast to a signed word changes the sign of what the ticks record.
   */
  lemma StepBalancedIff(p: Pool, op: Op)
    requires Balanced(p) && Ranged(p) && Apply(p, op).Some?
    ensures Balanced(Apply(p, op).value) <==> op.amount < HALF128
  {
    var q := Apply(p, op).value;
    if op.amount < HALF128 {
      forall t ensures Sum(q.ticks, NetUpTo(t)) == Sum(q.positions, ActiveAt(t)) {
        StepShifts(p, op, t);
        assert Sum(p.ticks, NetUpTo(t)) == Sum(p.positions, ActiveAt(t));
      }
      StepShifts(p, op, 0);
    } else {
      StepShifts(p, op, op.lower);
      assert Sum(p.ticks, NetUpTo(op.lower)) == Sum(p.positions, ActiveAt(op.lower));
      assert Sum(q.ticks, NetUpTo(op.lower)) != Sum(q.positions, ActiveAt(op.lower));
    }
  }

  /**
   After any sequence of mints and burns below 2^127, reverted calls included: at every tick the net
   changes up to it sum to the liquidity in range there, and all net changes together cancel.
   */
  lemma {:induction false} RunBalanced(p: Pool, ops: seq<Op>)
    requires Balanced(p) && Ranged(p)
    requires forall op :: op in ops ==> op.amount < HALF128
    ensures Balanced(Run(p, ops)) && Ranged(Run(p, ops))
    decreases |ops|
  {
    if ops != [] {
      assert ops[0] in ops;
      match Apply(p, ops[0])
      case None => RunBalanced(p, ops[1..]);
      case Some(q) =>
        StepBalancedIff(p, ops[0]);
        StepRanged(p, ops[0]);
        RunBalanced(q, ops[1..]);
    }
  }

  /** Undoing a mint puts every net change and the position back; only gross keeps counting. */
  lemma BurnUndoesMint(p: Pool, owner: Owner, lower: int, upper: int, amount: nat)
    requires Apply(p, Mint(owner, lower, upper, amount)).Some? && amount < HALF128
    requires Apply(Apply(p, Mint(owner, lower, upper, amount)).value, Burn(owner, lower, upper, amount)).Some?
    ensures var q := Apply(Apply(p, Mint(owner, lower, upper, amount)).value, Burn(owner, lower, upper, amount)).value;
            && (forall k :: LiquidityOf(q, k) == LiquidityOf(p, k))
            && (forall t :: TickOf(q.ticks, t).net == TickOf(p.ticks, t).net)
            && (forall t :: TickOf(q.ticks, t).gross
                            == TickOf(p.ticks, t).gross + if t == lower || t == upper then 2 * amount else 0)
  {
  }

  lemma EmptyBalanced(spacing: int)
    ensures Balanced(Deployed(spacing)) && Ranged(Deployed(spacing)) && Words(Deployed(spacing))
  {
  }

  function Deployed(spacing: int): Pool { Pool(spacing, map[], map[]) }

  /** The first mint of a pool can already break the balance: its amount is a legal 128-bit word. */
  lemma HugeMintUnbalances()
    ensures var r := Apply(Deployed(1), Mint(7, 0, 1, HALF128 + 1)); r.Some? && !Balanced(r.value)
  {
    EmptyBalanced(1);
    StepBalancedIff(Deployed(1), Mint(7, 0, 1, HALF128 + 1));
  }

  // ---------------------------------------------------------------- gross only grows

  /** Ticks hold 128-bit words, and no net change outweighs what was counted there. */
  ghost predicate Words(p: Pool) { AllCounted(p.ticks) }

  ghost predicate AllCounted(ticks: map<int, TickInfo>) { forall t :: t in ticks ==> Counted(ticks[t]) }

  predicate Counted(i: TickInfo) { i.gross < U128 && FitsInt128(i.net) && -(i.gross as int) <= i.net <= i.gross }

  lemma TickCounts(ticks: map<int, TickInfo>, t: int, delta: int)
    requires AllCounted(ticks) && UpdateTick(ticks, t, delta).Some?
    ensures var after := UpdateTick(ticks, t, delta).value;
            AllCounted(after) && forall u :: TickOf(after, u).gross >= TickOf(ticks, u).gross
  {
  }

  lemma RangeCounts(ticks: map<int, TickInfo>, lower: int, upper: int, atLower: int, atUpper: int)
    requires AllCounted(ticks) && UpdateRange(ticks, lower, upper, atLower, atUpper).Some?
    ensures var after := UpdateRange(ticks, lower, upper, atLower, atUpper).value;
            AllCounted(after) && forall u :: TickOf(after, u).gross >= TickOf(ticks, u).gross
  {
    var half := UpdateTick(ticks, lower, atLower).value;
    TickCounts(ticks, lower, atLower);
    TickCounts(half, upper, atUpper);
    forall u ensures TickOf(UpdateTick(half, upper, atUpper).value, u).gross >= TickOf(ticks, u).gross {
      assert TickOf(half, u).gross >= TickOf(ticks, u).gross;
    }
  }

  lemma StepWords(p: Pool, op: Op)
    requires Words(p) && Ranged(p) && Apply(p, op).Some?
    ensures Words(Apply(p, op).value)
    ensures forall t :: TickOf(Apply(p, op).value.ticks, t).gross >= TickOf(p.ticks, t).gross
  {
    ApplyShifts(p, op);
    var delta := Signed(op, ToInt128(op.amount));
    RangeCounts(p.ticks, op.lower, op.upper, delta, -delta);
  }

  /** What the cast makes of an amount, as a size. */
  function Size(amount: nat): nat { if amount < HALF128 then amount else if amount < U128 then U128 - amount else amount }

  /**
   When a burn within its position's liquidity commits: the amount has a signed negation, gross has room
   for it at both ticks, and the nets stay words. The last is implied where gross plus size is at most 2^127.
   */
  lemma BurnCommitsIff(p: Pool, owner: Owner, lower: int, upper: int, amount: nat)
    requires Words(p) && lower != upper
    requires amount <= LiquidityOf(p, PositionKey(owner, lower, upper)) < U128
    ensures var atLower, atUpper, d := TickOf(p.ticks, lower), TickOf(p.ticks, upper), ToInt128(amount);
            && (Apply(p, Burn(owner, lower, upper, amount)).Some?
                <==> amount != HALF128 && atLower.gross + Size(amount) < U128 && atUpper.gross + Size(amount) < U128
                     && FitsInt128(atLower.net - d) && FitsInt128(atUpper.net + d))
            && (atLower.gross + Size(amount) < HALF128 && atUpper.gross + Size(amount) < HALF128
                ==> FitsInt128(atLower.net - d) && FitsInt128(atUpper.net + d))
  {
  }

  /** The same for a mint within the bounds of the pool. */
  lemma MintCommitsIff(p: Pool, owner: Owner, lower: int, upper: int, amount: nat)
    requires Words(p)
    ensures var atLower, atUpper, d := TickOf(p.ticks, lower), TickOf(p.ticks, upper), ToInt128(amount);
            Apply(p, Mint(owner, lower, upper, amount)).Some?
            <==> 0 < amount < U128 && MIN_TICK <= lower < upper <= MAX_TICK && Aligned(p.spacing, lower, upper)
                 && LiquidityOf(p, PositionKey(owner, lower, upper)) + amount < U128
                 && amount != HALF128 && atLower.gross + Size(amount) < U128 && atUpper.gross + Size(amount) < U128
                 && FitsInt128(atLower.net + d) && FitsInt128(atUpper.net - d)
  {
  }

  // ---------------------------------------------------------------- positions over a whole run

  /** What the committed mints of a run put into a position, and what its burns took out. */
  function PutIn(p: Pool, ops: seq<Op>, k: PositionKey): nat
    decreases |ops|
  {
    if ops == [] then 0
    else match Apply(p, ops[0])
         case None => PutIn(p, ops[1..], k)
         case Some(q) =>
           (match ops[0]
            case Mint(owner, lower, upper, amount) => if k == PositionKey(owner, lower, upper) then amount else 0
            case _ => 0) + PutIn(q, ops[1..], k)
  }

  function TakenOut(p: Pool, ops: seq<Op>, k: PositionKey): nat
    decreases |ops|
  {
    if ops == [] then 0
    else match Apply(p, ops[0])
         case None => TakenOut(p, ops[1..], k)
         case Some(q) =>
           (match ops[0]
            case Burn(owner, lower, upper, amount) => if k == PositionKey(owner, lower, upper) then amount else 0
            case _ => 0) + TakenOut(q, ops[1..], k)
  }

  /** In every run a position holds what its owner put in and has not taken out, whatever others do. */
  lemma {:induction false} PositionIsItsLedger(p: Pool, ops: seq<Op>, k: PositionKey)
    ensures LiquidityOf(Run(p, ops), k) == LiquidityOf(p, k) + PutIn(p, ops, k) - TakenOut(p, ops, k)
    decreases |ops|
  {
    if ops != [] {
      match Apply(p, ops[0])
      case None => PositionIsItsLedger(p, ops[1..], k);
      case Some(q) => PositionIsItsLedger(q, ops[1..], k);
    }
  }

  /** A tick whose gross has no room left for one more unit. */
  predicate Exhausted(p: Pool, t: int) { TickOf(p.ticks, t).gross >= U128 - 1 }

  lemma ExhaustedBlocks(p: Pool, op: Op)
    requires (Exhausted(p, op.lower) || Exhausted(p, op.upper)) && op.amount > 0 && op.lower != op.upper
    ensures Apply(p, op) == None
  {
  }

  /** Every position with an end at an exhausted tick is stuck: no run changes its liquidity again. */
  lemma {:induction false} ExhaustedForGood(p: Pool, ops: seq<Op>, k: PositionKey)
    requires Words(p) && Ranged(p) && (Exhausted(p, k.lower) || Exhausted(p, k.upper)) && k.lower != k.upper
    ensures var q := Run(p, ops);
            LiquidityOf(q, k) == LiquidityOf(p, k) && forall amount: nat :: amount > 0 ==> Apply(q, Burn(k.owner, k.lower, k.upper, amount)) == None
    decreases |ops|
  {
    if ops != [] {
      match Apply(p, ops[0])
      case None => ExhaustedForGood(p, ops[1..], k);
      case Some(q) =>
        StepWords(p, ops[0]);
        StepRanged(p, ops[0]);
        if KeyOf(ops[0]) == k && ops[0].amount > 0 { ExhaustedBlocks(p, ops[0]); }
        ExhaustedForGood(q, ops[1..], k);
    } else {
      forall amount: nat | amount > 0 ensures Apply(p, Burn(k.owner, k.lower, k.upper, amount)) == None {
        ExhaustedBlocks(p, Burn(k.owner, k.lower, k.upper, amount));
      }
    }
  }

  /** The run below: a mint and burn of almost 2^127, then a mint of one. */
  function Wearing(owner: Owner): seq<Op> {
    [Mint(owner, 0, 1, HALF128 - 1), Burn(owner, 0, 1, HALF128 - 1), Mint(owner, 0, 1, 1)]
  }

  /** A deposit, its withdrawal and one unit more: that unit can never be taken out again. */
  lemma WornTickStrandsLiquidity(owner: Owner, ops: seq<Op>)
    ensures var k, p := PositionKey(owner, 0, 1), Run(Deployed(1), Wearing(owner));
            && LiquidityOf(p, k) == 1
            && LiquidityOf(Run(p, ops), k) == 1 && Apply(Run(p, ops), Burn(owner, 0, 1, 1)) == None
  {
    var k, all := PositionKey(owner, 0, 1), Wearing(owner);
    EmptyBalanced(1);
    var p1 := Apply(Deployed(1), all[0]).value;
    var p2 := Apply(p1, all[1]).value;
    var p3 := Apply(p2, all[2]).value;
    StepWords(Deployed(1), all[0]); StepWords(p1, all[1]); StepWords(p2, all[2]);
    StepRanged(Deployed(1), all[0]); StepRanged(p1, all[1]); StepRanged(p2, all[2]);
    assert all[1..] == [all[1], all[2]] && all[1..][1..] == [all[2]] && all[1..][1..][1..] == [];
    assert Run(p3, []) == p3;
    assert Run(p2, all[1..][1..]) == p3;
    assert Run(p1, all[1..]) == p3;
    ExhaustedForGood(p3, ops, k);
  }

  ghost predicate Sound(p: Pool) { Balanced(p) && Ranged(p) && Words(p) }

  /** A call below 2^127 keeps the ledger sound, whether or not it reverts. */
  lemma CallKeeps(p: Pool, op: Op)
    ensures op.amount < HALF128 && Sound(p) && Apply(p, op).Some? ==> Sound(Apply(p, op).value)
  {
    if op.amount < HALF128 && Sound(p) && Apply(p, op).Some? {
      StepBalancedIff(p, op);
      StepRanged(p, op);
      StepWords(p, op);
    }
  }

  class AMMV3Pool {
    const tickSpacing: int
    var positions: map<PositionKey, nat>
    var ticks: map<int, TickInfo>

    function State(): Pool
      reads this
    {
      Pool(tickSpacing, positions, ticks)
    }

    constructor (spacing: int)
      ensures State() == Deployed(spacing) && Sound(State())
    {
      tickSpacing, positions, ticks := spacing, map[], map[];
      new;
      EmptyBalanced(spacing);
    }

    method ChangeTick(t: int, delta: int) returns (ok: bool)
      modifies this`ticks
      ensures ok == UpdateTick(old(ticks), t, delta).Some?
      ensures ticks == if ok then UpdateTick(old(ticks), t, delta).value else old(ticks)
      ensures ok ==> Sum(ticks, NetEverywhere) == Sum(old(ticks), NetEverywhere) + delta
      ensures ok ==> forall u :: Sum(ticks, NetUpTo(u)) == Sum(old(ticks), NetUpTo(u)) + if t <= u then delta else 0
    {
      if UpdateTick(ticks, t, delta).Some? { TickShifts(ticks, t, delta); }
      if !FitsInt128(delta) || (delta <= 0 && !FitsInt128(-delta)) { return false; }
      var info := TickOf(ticks, t);
      var absDelta := if delta > 0 then delta else -delta;
      if info.gross + absDelta >= U128 || !FitsInt128(info.net + delta) { return false; }
      ticks := ticks[t := TickInfo(info.gross + absDelta, info.net + delta)];
      ok := true;
    }

    /** Both ends of a range, or neither. */
    method ChangeRange(lower: int, upper: int, delta: int) returns (ok: bool)
      modifies this`ticks
      ensures ok == UpdateRange(old(ticks), lower, upper, delta, -delta).Some?
      ensures ticks == if ok then UpdateRange(old(ticks), lower, upper, delta, -delta).value else old(ticks)
    {
      var ticks0 := ticks;
      ok := ChangeTick(lower, delta);
      if ok { ok := ChangeTick(upper, -delta); }
      if !ok { ticks := ticks0; }
    }

    method MintPosition(recipient: Owner, lower: int, upper: int, amount: nat) returns (ok: bool)
      modifies this
      ensures ok == Apply(old(State()), Mint(recipient, lower, upper, amount)).Some?
      ensures State() == if ok then Apply(old(State()), Mint(recipient, lower, upper, amount)).value else old(State())
      ensures amount < HALF128 && Sound(old(State())) ==> Sound(State())
    {
      CallKeeps(State(), Mint(recipient, lower, upper, amount));
      if amount == 0 || amount >= U128 || lower >= upper || lower < MIN_TICK || upper > MAX_TICK { return false; }
      if !Aligned(tickSpacing, lower, upper) { return false; }
      var k := PositionKey(recipient, lower, upper);
      var liquidity := if k in positions then positions[k] else 0;
      if liquidity + amount >= U128 { return false; }
      ok := ChangeRange(lower, upper, ToInt128(amount));
      if !ok { return; }
      positions := positions[k := liquidity + amount];
    }

    method BurnPosition(owner: Owner, lower: int, upper: int, amount: nat) returns (ok: bool)
      modifies this
      ensures ok == Apply(old(State()), Burn(owner, lower, upper, amount)).Some?
      ensures State() == if ok then Apply(old(State()), Burn(owner, lower, upper, amount)).value else old(State())
      ensures amount < HALF128 && Sound(old(State())) ==> Sound(State())
    {
      CallKeeps(State(), Burn(owner, lower, upper, amount));
      var k := PositionKey(owner, lower, upper);
      var liquidity := if k in positions then positions[k] else 0;
      if amount >= U128 || !(liquidity >= amount) { return false; }
      ok := ChangeRange(lower, upper, -ToInt128(amount));
      if !ok { return; }
      positions := positions[k := liquidity - amount];
    }
  }
}
