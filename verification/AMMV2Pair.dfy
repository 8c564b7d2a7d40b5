/**
 A constant-product pair. The pool holds two reserves it remembers, the token balances it really
 owns (anyone may send it more), and the supply of its liquidity token.
 */
module PairModel {
  import opened Options
  import opened Numbers

  const MINIMUM_LIQUIDITY := 1000
  const MAX_UINT112 := 0xFFFF_FFFF_FFFF_FFFF_FFFF_FFFF_FFFF

  /** `own` is the liquidity-token balance of the pair itself; 1000 units of the supply are dead. */
  datatype Pool = Pool(reserve0: nat, reserve1: nat, balance0: nat, balance1: nat, supply: nat, own: nat)

  /** Where a payment goes: back to the pair, to one of its two token contracts, or to any other account. */
  datatype Payee = ThePair | OwnToken | Elsewhere

  datatype Op =
    | Mint(to: Payee)
    | Burn(to: Payee)
    | Swap(amount0Out: nat, amount1Out: nat, to: Payee)
    | Skim(to: Payee)
    | Sync
    | SendTokens(amount0: nat, amount1: nat)
    | SendLiquidity(amount: nat)

  const EMPTY := Pool(0, 0, 0, 0, 0, 0)

  // ---------------------------------------------------------------- integer square root

  predicate IsFloorSqrt(y: nat, z: nat) {
    z * z <= y < (z + 1) * (z + 1)
  }

  /** Reference definition, by counting up. */
  function FloorSqrt(y: nat): (z: nat)
    ensures IsFloorSqrt(y, z)
  {
    if y == 0 then 0
    else
      var r := FloorSqrt(y - 1);
      if (r + 1) * (r + 1) <= y then r + 1 else r
  }

  lemma FloorSqrtUnique(y: nat, z: nat)
    requires IsFloorSqrt(y, z)
    ensures z == FloorSqrt(y)
  {
    var r := FloorSqrt(y);
    if r < z { MulMono(r + 1, z, r + 1, z); } else if z < r { MulMono(z + 1, r, z + 1, r); }
  }

  lemma FourProductsBelowSquare(a: int, b: int)
    ensures 4 * (a * b) <= (a + b) * (a + b)
  {
    assert (a + b) * (a + b) == 4 * (a * b) + (a - b) * (a - b);
  }

  /** One Newton step from any positive x stays at or above the root. */
  lemma NewtonStepAboveRoot(y: nat, x: nat)
    requires x > 0
    ensures var n := (y / x + x) / 2; y < (n + 1) * (n + 1)
  {
    var q := y / x;
    var n := (q + x) / 2;
    DivBounds(y, x);
    FourProductsBelowSquare(q + 1, x);
    MulMono(q + 1 + x, 2 * (n + 1), q + 1 + x, 2 * (n + 1));
    assert 2 * (n + 1) * (2 * (n + 1)) == 4 * ((n + 1) * (n + 1));
  }

  /** The start value y/2 + 1 is above the root as well. */
  lemma NewtonStartAboveRoot(y: nat)
    ensures var x := y / 2 + 1; y < (x + 1) * (x + 1)
  {
    var x := y / 2 + 1;
    assert (x + 1) * (x + 1) >= (x + 1) * 2 by { MulMono(2, x + 1, x + 1, x + 1); }
  }

  /** Newton's iteration as the pair runs it returns the exact floor of the root. */
  method Sqrt(y: nat) returns (z: nat)
    ensures IsFloorSqrt(y, z)
    ensures z == FloorSqrt(y)
  {
    z := 0;
    if y > 3 {
      z := y;
      var x := y / 2 + 1;
      NewtonStartAboveRoot(y);
      while x < z
        invariant x > 0 && z > 0
        invariant y > 0 && y < (x + 1) * (x + 1) && y < (z + 1) * (z + 1)
        invariant x >= z ==> z * z <= y
        decreases z
      {
        z := x;
        NewtonStepAboveRoot(y, x);
        x := (y / x + x) / 2;
        DivBounds(y, z);
        if x >= z { MulMono(z, y / z, z, z); }
      }
    } else if y != 0 {
      z := 1;
    }
    FloorSqrtUnique(y, z);
  }

  // ---------------------------------------------------------------- the operations as functions

  function Min(x: nat, y: nat): nat { if x < y then x else y }

  /** `_update`: the remembered reserves become the real balances, if they fit in 112 bits. */
  function Update(p: Pool): Option<Pool> {
    if p.balance0 <= MAX_UINT112 && p.balance1 <= MAX_UINT112
    then Some(p.(reserve0 := p.balance0, reserve1 := p.balance1))
    else None
  }

  /** Liquidity created by `mint`, or None where the source reverts. */
  function MintedLiquidity(p: Pool): Option<nat> {
    if p.balance0 < p.reserve0 || p.balance1 < p.reserve1 then None
    else
      var a0, a1 := p.balance0 - p.reserve0, p.balance1 - p.reserve1;
      if p.supply == 0 then
        var root := FloorSqrt(a0 * a1);
        if root <= MINIMUM_LIQUIDITY then None else Some(root - MINIMUM_LIQUIDITY)
      else if p.reserve0 == 0 || p.reserve1 == 0 then None
      else
        var liquidity := Min(Share(a0, p.supply, p.reserve0), Share(a1, p.supply, p.reserve1));
        if liquidity == 0 then None else Some(liquidity)
  }

  /** Input amount of a swap on one side: what the balance has over the reserve less the output. */
  function AmountIn(balance: nat, reserve: nat, out: nat): nat
    requires out <= reserve
  {
    if balance > reserve - out then balance - (reserve - out) else 0
  }

  /** The state after a call that commits; None when the call reverts. */
  function Apply(p: Pool, op: Op): Option<Pool> {
    match op
    case Mint(to) =>
      (match MintedLiquidity(p)
       case None => None
       case Some(liquidity) =>
         var locked := if p.supply == 0 then MINIMUM_LIQUIDITY else 0;
         Update(p.(supply := p.supply + locked + liquidity,
                   own := p.own + if to == ThePair then liquidity else 0)))
    case Burn(to) =>
      if p.supply == 0 || p.own > p.supply then None
      else
        var a0, a1 := Share(p.own, p.balance0, p.supply), Share(p.own, p.balance1, p.supply);
        if a0 == 0 || a1 == 0 || a0 > p.balance0 || a1 > p.balance1 then None
        else
          var q := p.(supply := p.supply - p.own, own := 0);
          Update(if to == ThePair then q else q.(balance0 := p.balance0 - a0, balance1 := p.balance1 - a1))
    case Swap(o0, o1, to) =>
      if to == OwnToken || (o0 == 0 && o1 == 0) || o0 >= p.reserve0 || o1 >= p.reserve1 || o0 > p.balance0 || o1 > p.balance1 then None
      else
        var b0 := if to == ThePair then p.balance0 else p.balance0 - o0;
        var b1 := if to == ThePair then p.balance1 else p.balance1 - o1;
        var i0, i1 := AmountIn(b0, p.reserve0, o0), AmountIn(b1, p.reserve1, o1);
        if i0 == 0 && i1 == 0 then None
        else if (b0 * 1000 - i0 * 3) * (b1 * 1000 - i1 * 3) < p.reserve0 * p.reserve1 * 1000000 then None
        else Update(p.(balance0 := b0, balance1 := b1))
    case Skim(to) =>
      if p.balance0 < p.reserve0 || p.balance1 < p.reserve1 then None
      else if to == ThePair then Some(p)
      else Some(p.(balance0 := p.reserve0, balance1 := p.reserve1))
    case Sync => Update(p)
    case SendTokens(a0, a1) => Some(p.(balance0 := p.balance0 + a0, balance1 := p.balance1 + a1))
    case SendLiquidity(a) =>
      if p.own + a + MINIMUM_LIQUIDITY > p.supply then None else Some(p.(own := p.own + a))
  }

  /** Calls in order; one that reverts leaves the state as it was. */
  function Run(p: Pool, ops: seq<Op>): Pool
    decreases |ops|
  {
    if ops == [] then p
    else match Apply(p, ops[0])
         case None => Run(p, ops[1..])
         case Some(q) => Run(q, ops[1..])
  }

  // ---------------------------------------------------------------- the pool invariant

  function K(p: Pool): nat { p.reserve0 * p.reserve1 }

  ghost predicate Sound(p: Pool) {
    && p.reserve0 <= p.balance0 && p.reserve1 <= p.balance1
    && p.reserve0 <= MAX_UINT112 && p.reserve1 <= MAX_UINT112
    && (if p.supply == 0 then p.own == 0 else p.own + MINIMUM_LIQUIDITY <= p.supply)
    && p.supply * p.supply <= K(p)
  }

  /** reserve0 * reserve1 / supply^2 is no lower in q than in p. */
  ghost predicate ShareValueKept(p: Pool, q: Pool) {
    K(q) * (p.supply * p.supply) >= K(p) * (q.supply * q.supply)
  }

  /** Scaling both sides: x <= b0*s and y <= b1*s, x = t*r0, y = t*r1, give t^2 r0 r1 <= s^2 b0 b1. */
  lemma ScaledProducts(r0: nat, r1: nat, b0: nat, b1: nat, s: nat, t: nat)
    requires t * r0 <= s * b0 && t * r1 <= s * b1
    ensures r0 * r1 * (t * t) <= b0 * b1 * (s * s)
  {
    MulMono(t * r0, s * b0, t * r1, s * b1);
    assert t * r0 * (t * r1) == r0 * r1 * (t * t);
    assert s * b0 * (s * b1) == b0 * b1 * (s * s);
  }

  /** If K per squared share is kept and p had K >= supply^2 > 0, then so has q. */
  lemma CoverFollows(p: Pool, q: Pool)
    requires p.supply > 0 && p.supply * p.supply <= K(p) && ShareValueKept(p, q)
    ensures q.supply * q.supply <= K(q)
  {
    var s2, t2 := p.supply * p.supply, q.supply * q.supply;
    assert s2 > 0;
    assert s2 * t2 <= K(p) * t2 by { MulMono(s2, K(p), t2, t2); }
    MulCancel(t2, K(q), s2);
  }

  /** Shares bought with a deposit grow the supply by no more than the reserve grows. */
  lemma SharesWithinDeposit(reserve: nat, amount: nat, supply: nat, liquidity: nat)
    requires reserve > 0 && liquidity <= Share(amount, supply, reserve)
    ensures (supply + liquidity) * reserve <= supply * (reserve + amount)
  {
    DivAtLeast(amount * supply, reserve, liquidity);
    assert (supply + liquidity) * reserve == supply * reserve + liquidity * reserve;
    assert supply * (reserve + amount) == supply * reserve + amount * supply;
  }

  lemma BoughtLargest(amount: nat, supply: nat, reserve: nat, shares: nat)
    requires reserve > 0
    ensures shares <= Share(amount, supply, reserve) <==> shares * reserve <= amount * supply
  {
    DivAtLeast(amount * supply, reserve, shares);
  }

  /** And no fewer than that: a later deposit hands out the most shares its smaller side pays for. */
  lemma MintGivesAllItCan(p: Pool, q: Pool, to: Payee, shares: nat)
    requires p.supply > 0 && Apply(p, Mint(to)) == Some(q)
    ensures q.supply > p.supply && p.reserve0 <= p.balance0 && p.reserve1 <= p.balance1
    ensures shares <= q.supply - p.supply
            <==> shares * p.reserve0 <= (p.balance0 - p.reserve0) * p.supply && shares * p.reserve1 <= (p.balance1 - p.reserve1) * p.supply
    ensures q.own == p.own + (if to == ThePair then q.supply - p.supply else 0)
    ensures q == p.(supply := q.supply, own := q.own, reserve0 := p.balance0, reserve1 := p.balance1)
  {
    BoughtLargest(p.balance0 - p.reserve0, p.supply, p.reserve0, shares);
    BoughtLargest(p.balance1 - p.reserve1, p.supply, p.reserve1, shares);
  }

  /** The first deposit makes the floor root of its product, of which 1000 stay locked. */
  lemma FirstMintGives(p: Pool, q: Pool, to: Payee)
    requires p.supply == 0 && Apply(p, Mint(to)) == Some(q)
    ensures p.reserve0 <= p.balance0 && p.reserve1 <= p.balance1 && q.supply > MINIMUM_LIQUIDITY
    ensures IsFloorSqrt((p.balance0 - p.reserve0) * (p.balance1 - p.reserve1), q.supply)
    ensures q.own == p.own + if to == ThePair then q.supply - MINIMUM_LIQUIDITY else 0
    ensures q == p.(supply := q.supply, own := q.own, reserve0 := p.balance0, reserve1 := p.balance1)
  {
  }

  /**
   A redemption pays the most of each balance that the liquidity of the pair is worth, and takes exactly that
   liquidity out of the supply; paid to the pair itself, it only does the latter.
   */
  lemma BurnPaysAllItCan(p: Pool, q: Pool, to: Payee, amount: nat)
    requires Apply(p, Burn(to)) == Some(q)
    ensures q.balance0 <= p.balance0 && q.balance1 <= p.balance1
    ensures to != ThePair ==> (amount <= p.balance0 - q.balance0 <==> amount * p.supply <= p.own * p.balance0)
    ensures to != ThePair ==> (amount <= p.balance1 - q.balance1 <==> amount * p.supply <= p.own * p.balance1)
    ensures to == ThePair ==> q.balance0 == p.balance0 && q.balance1 == p.balance1
    ensures p.own <= p.supply && q.supply == p.supply - p.own && q.own == 0
    ensures q.reserve0 == q.balance0 && q.reserve1 == q.balance1
  {
    DivAtLeast(p.own * p.balance0, p.supply, amount);
    DivAtLeast(p.own * p.balance1, p.supply, amount);
  }

  /** It commits exactly when both payments are of something and what is left of the balances fits in 112 bits. */
  lemma BurnCommitsIff(p: Pool)
    requires Sound(p)
    ensures Apply(p, Burn(Elsewhere)).Some?
            <==> p.supply > 0 && p.own * p.balance0 >= p.supply && p.own * p.balance1 >= p.supply
                 && p.balance0 - p.own * p.balance0 / p.supply <= MAX_UINT112 && p.balance1 - p.own * p.balance1 / p.supply <= MAX_UINT112
  {
    if p.supply > 0 {
      BurnLeaves(p.own, p.balance0, p.supply, p.reserve0);
      BurnLeaves(p.own, p.balance1, p.supply, p.reserve1);
      DivAtLeast(p.own * p.balance0, p.supply, 1);
      DivAtLeast(p.own * p.balance1, p.supply, 1);
    }
  }

  /** A swap takes out exactly what was asked for, unless it goes back to the pair, and leaves the shares alone. */
  lemma SwapTakesOut(p: Pool, q: Pool, o0: nat, o1: nat, to: Payee)
    requires Apply(p, Swap(o0, o1, to)) == Some(q)
    ensures to != OwnToken && q.supply == p.supply && q.own == p.own
    ensures q.balance0 + (if to == ThePair then 0 else o0) == p.balance0 && q.balance1 + (if to == ThePair then 0 else o1) == p.balance1
    ensures q.reserve0 == q.balance0 && q.reserve1 == q.balance1
  {
  }

  /** Skimming brings the balances down to the reserves, syncing the reserves up to the balances. */
  lemma SkimAndSyncMeet(p: Pool, to: Payee)
    requires Sound(p)
    ensures Apply(p, Skim(to)) == Some(if to == ThePair then p else p.(balance0 := p.reserve0, balance1 := p.reserve1))
    ensures Apply(p, Sync).Some? <==> p.balance0 <= MAX_UINT112 && p.balance1 <= MAX_UINT112
    ensures Apply(p, Sync).Some? ==> Apply(p, Sync).value == p.(reserve0 := p.balance0, reserve1 := p.balance1)
  {
  }

  lemma MintKeeps(p: Pool, q: Pool, to: Payee)
    requires Sound(p) && Apply(p, Mint(to)) == Some(q)
    ensures Sound(q)
    ensures p.supply > 0 ==> ShareValueKept(p, q)
    ensures q.supply > p.supply
  {
    var a0, a1 := p.balance0 - p.reserve0, p.balance1 - p.reserve1;
    if p.supply == 0 {
      assert q.supply == FloorSqrt(a0 * a1);
      MulMono(a0, p.balance0, a1, p.balance1);
    } else {
      var liquidity := q.supply - p.supply;
      SharesWithinDeposit(p.reserve0, a0, p.supply, liquidity);
      SharesWithinDeposit(p.reserve1, a1, p.supply, liquidity);
      ScaledProducts(p.reserve0, p.reserve1, q.reserve0, q.reserve1, p.supply, q.supply);
      CoverFollows(p, q);
    }
  }

  /** Paying out the floored share of a balance leaves at least the remaining share. */
  lemma BurnLeaves(own: nat, balance: nat, supply: nat, reserve: nat)
    requires own <= supply && supply > 0 && reserve <= balance
    ensures Share(own, balance, supply) <= balance
    ensures (supply - own) * reserve <= supply * (balance - Share(own, balance, supply))
  {
    var a := Share(own, balance, supply);
    DivBounds(own * balance, supply);
    MulMono(own, supply, balance, balance);
    MulCancel(a, balance, supply);
    assert (supply - own) * reserve <= (supply - own) * balance by { MulMono(supply - own, supply - own, reserve, balance); }
    assert (supply - own) * balance == supply * balance - own * balance;
    assert supply * (balance - a) == supply * balance - a * supply;
  }

  lemma BurnKeeps(p: Pool, q: Pool, to: Payee)
    requires Sound(p) && Apply(p, Burn(to)) == Some(q)
    ensures Sound(q) && ShareValueKept(p, q)
    ensures 0 < q.supply < p.supply
  {
    BurnLeaves(p.own, p.balance0, p.supply, p.reserve0);
    BurnLeaves(p.own, p.balance1, p.supply, p.reserve1);
    if to == ThePair {
      MulMono(p.supply - p.own, p.supply, p.reserve0, p.balance0);
      MulMono(p.supply - p.own, p.supply, p.reserve1, p.balance1);
    }
    ScaledProducts(p.reserve0, p.reserve1, q.reserve0, q.reserve1, p.supply, q.supply);
    CoverFollows(p, q);
    if p.own == 0 { DivUnique(0, p.supply, 0); }
  }

  /** The fee-adjusted check implies the plain product does not fall. */
  lemma FeeCheckCovers(b0: nat, b1: nat, i0: nat, i1: nat, k: nat)
    requires i0 <= b0 && i1 <= b1
    requires (b0 * 1000 - i0 * 3) * (b1 * 1000 - i1 * 3) >= k * 1000000
    ensures b0 * b1 >= k
  {
    MulMono(b0 * 1000 - i0 * 3, b0 * 1000, b1 * 1000 - i1 * 3, b1 * 1000);
    assert b0 * 1000 * (b1 * 1000) == b0 * b1 * 1000000;
  }

  lemma SwapKeeps(p: Pool, q: Pool, o0: nat, o1: nat, to: Payee)
    requires Sound(p) && Apply(p, Swap(o0, o1, to)) == Some(q)
    ensures Sound(q) && q.supply == p.supply && K(q) >= K(p)
  {
    var b0 := if to == ThePair then p.balance0 else p.balance0 - o0;
    var b1 := if to == ThePair then p.balance1 else p.balance1 - o1;
    FeeCheckCovers(b0, b1, AmountIn(b0, p.reserve0, o0), AmountIn(b1, p.reserve1, o1), K(p));
  }

  /** No committed call lowers the value behind a share, and every one keeps the pool sound. */
  lemma StepKeeps(p: Pool, op: Op, q: Pool)
    requires Sound(p) && Apply(p, op) == Some(q)
    ensures Sound(q)
    ensures p.supply > 0 ==> q.supply > 0 && ShareValueKept(p, q)
  {
    match op
    case Mint(to) => MintKeeps(p, q, to);
    case Burn(to) => BurnKeeps(p, q, to);
    case Swap(o0, o1, to) =>
      SwapKeeps(p, q, o0, o1, to);
      MulMono(K(p), K(q), p.supply * p.supply, p.supply * p.supply);
    case Sync =>
      MulMono(p.reserve0, q.reserve0, p.reserve1, q.reserve1);
      MulMono(K(p), K(q), p.supply * p.supply, p.supply * p.supply);
    case _ =>
  }

  lemma ShareValueTransitive(p: Pool, q: Pool, r: Pool)
    requires q.supply > 0 && ShareValueKept(p, q) && ShareValueKept(q, r)
    ensures ShareValueKept(p, r)
  {
    assert q.supply * q.supply > 0;
    FractionTransitive(K(p), p.supply * p.supply, K(q), q.supply * q.supply, K(r), r.supply * r.supply);
  }

  /** Over any run from a sound pool: still sound, and no share ever loses value. */
  lemma {:induction false} RunKeeps(p: Pool, ops: seq<Op>)
    requires Sound(p)
    ensures Sound(Run(p, ops))
    ensures p.supply > 0 ==> Run(p, ops).supply > 0 && ShareValueKept(p, Run(p, ops))
    decreases |ops|
  {
    if ops != [] {
      match Apply(p, ops[0])
      case None => RunKeeps(p, ops[1..]);
      case Some(q) =>
        StepKeeps(p, ops[0], q);
        RunKeeps(q, ops[1..]);
        if p.supply > 0 { ShareValueTransitive(p, q, Run(q, ops[1..])); }
    }
  }

  /**
   Every reachable pool: reserve0 * reserve1 >= supply^2. Once there is liquidity, neither reserve
   is ever zero again, whatever happens next.
   */
  lemma ReachableReservesCoverSupply(before: seq<Op>, after: seq<Op>)
    ensures var p := Run(EMPTY, before); p.supply * p.supply <= K(p)
    ensures var p := Run(EMPTY, before);
            p.supply > 0 ==> Run(p, after).reserve0 > 0 && Run(p, after).reserve1 > 0
  {
    RunKeeps(EMPTY, before);
    var p := Run(EMPTY, before);
    RunKeeps(p, after);
    if p.supply > 0 { LiquidityHasReserves(Run(p, after)); }
  }

  lemma LiquidityHasReserves(p: Pool)
    requires Sound(p) && p.supply > 0
    ensures p.reserve0 > 0 && p.reserve1 > 0
  {
    assert 0 < p.supply * p.supply <= K(p);
  }
}

/** The contract object: the fields of the source, each method with its revert. */
module PairContract {
  import opened Options
  import opened Numbers
  import opened PairModel

  class AMMV2Pair {
    var reserve0: nat
    var reserve1: nat
    var totalSupply: nat
    var ownLiquidity: nat  // liquidity tokens the pair holds
    var token0Balance: nat // balanceOf(this) of the two tokens
    var token1Balance: nat

    function State(): Pool
      reads this
    {
      Pool(reserve0, reserve1, token0Balance, token1Balance, totalSupply, ownLiquidity)
    }

    /** These are the most of both balances that the liquidity of the pair is worth. */
    static ghost predicate Redeems(p: Pool, amount0: nat, amount1: nat) {
      && amount0 * p.supply <= p.own * p.balance0 < (amount0 + 1) * p.supply
      && amount1 * p.supply <= p.own * p.balance1 < (amount1 + 1) * p.supply
    }

    /** The call committed with the specified state, or reverted and changed nothing. */
    ghost predicate Outcome(before: Pool, op: Op, ok: bool)
      reads this
    {
      && ok == Apply(before, op).Some?
      && State() == if ok then Apply(before, op).value else before
    }

    constructor ()
      ensures State() == EMPTY && Sound(State())
    {
      reserve0, reserve1, totalSupply, ownLiquidity, token0Balance, token1Balance := 0, 0, 0, 0, 0, 0;
    }

    /** The branch of `mint` that prices the deposit; None is a revert. */
    method LiquidityFor(amount0: nat, amount1: nat) returns (minted: Option<nat>)
      requires reserve0 + amount0 == token0Balance && reserve1 + amount1 == token1Balance
      ensures minted == MintedLiquidity(State())
    {
      var liquidity;
      if totalSupply == 0 {
        var root := Sqrt(amount0 * amount1);
        if root < MINIMUM_LIQUIDITY { return None; }
        liquidity := root - MINIMUM_LIQUIDITY;
      } else {
        if reserve0 == 0 || reserve1 == 0 { return None; }
        liquidity := Min(Share(amount0, totalSupply, reserve0), Share(amount1, totalSupply, reserve1));
      }
      return if liquidity > 0 then Some(liquidity) else None;
    }

    method Mint(to: Payee) returns (ok: bool, liquidity: nat)
      requires Sound(State())
      modifies this
      ensures Sound(State()) && Outcome(old(State()), Op.Mint(to), ok)
      ensures ok ==> totalSupply == old(totalSupply) + liquidity + if old(totalSupply) == 0 then MINIMUM_LIQUIDITY else 0
    {
      ghost var before := State();
      ok, liquidity := false, 0;
      var minted := LiquidityFor(token0Balance - reserve0, token1Balance - reserve1);
      if minted == None { return; }
      if token0Balance > MAX_UINT112 || token1Balance > MAX_UINT112 { return; }
      liquidity := minted.value;
      totalSupply := totalSupply + liquidity + if totalSupply == 0 then MINIMUM_LIQUIDITY else 0;
      if to == ThePair { ownLiquidity := ownLiquidity + liquidity; }
      reserve0, reserve1 := token0Balance, token1Balance;
      ok := true;
      MintKeeps(before, State(), to);
    }

    method Burn(to: Payee) returns (ok: bool, amount0: nat, amount1: nat)
      requires Sound(State())
      modifies this
      ensures Sound(State()) && Outcome(old(State()), Op.Burn(to), ok)
      ensures ok && to != ThePair ==>
                token0Balance + amount0 == old(token0Balance) && token1Balance + amount1 == old(token1Balance)
      ensures ok ==> totalSupply == old(totalSupply) - old(ownLiquidity) && Redeems(old(State()), amount0, amount1)
    {
      ghost var before := State();
      ok, amount0, amount1 := false, 0, 0;
      if totalSupply == 0 { return; }
      BurnLeaves(ownLiquidity, token0Balance, totalSupply, reserve0);
      BurnLeaves(ownLiquidity, token1Balance, totalSupply, reserve1);
      amount0 := Share(ownLiquidity, token0Balance, totalSupply);
      amount1 := Share(ownLiquidity, token1Balance, totalSupply);
      if !(amount0 > 0 && amount1 > 0) { return; }
      DivBounds(ownLiquidity * token0Balance, totalSupply);
      DivBounds(ownLiquidity * token1Balance, totalSupply);
      var b0 := if to == ThePair then token0Balance else token0Balance - amount0;
      var b1 := if to == ThePair then token1Balance else token1Balance - amount1;
      if b0 > MAX_UINT112 || b1 > MAX_UINT112 { return; }
      totalSupply, ownLiquidity := totalSupply - ownLiquidity, 0;
      token0Balance, token1Balance := b0, b1;
      reserve0, reserve1 := b0, b1;
      ok := true;
      BurnKeeps(before, State(), to);
    }

    method Swap(amount0Out: nat, amount1Out: nat, to: Payee) returns (ok: bool)
      requires Sound(State())
      modifies this
      ensures Sound(State()) && Outcome(old(State()), Op.Swap(amount0Out, amount1Out, to), ok)
      ensures reserve0 * reserve1 >= old(reserve0 * reserve1)
    {
      ghost var before := State();
      ok := false;
      if !(amount0Out > 0 || amount1Out > 0) { return; }
      if !(amount0Out < reserve0 && amount1Out < reserve1) { return; }
      if to == OwnToken { return; }
      var b0 := if to == ThePair then token0Balance else token0Balance - amount0Out;
      var b1 := if to == ThePair then token1Balance else token1Balance - amount1Out;
      var amount0In := AmountIn(b0, reserve0, amount0Out);
      var amount1In := AmountIn(b1, reserve1, amount1Out);
      if !(amount0In > 0 || amount1In > 0) { return; }
      var adjusted0, adjusted1 := b0 * 1000 - amount0In * 3, b1 * 1000 - amount1In * 3;
      if !(adjusted0 * adjusted1 >= reserve0 * reserve1 * 1000000) { return; }
      if b0 > MAX_UINT112 || b1 > MAX_UINT112 { return; }
      token0Balance, token1Balance := b0, b1;
      reserve0, reserve1 := b0, b1;
      ok := true;
      SwapKeeps(before, State(), amount0Out, amount1Out, to);
    }

    method Skim(to: Payee)
      requires Sound(State())
      modifies this`token0Balance, this`token1Balance
      ensures Sound(State()) && Outcome(old(State()), Op.Skim(to), true)
    {
      if to != ThePair {
        token0Balance := token0Balance - (token0Balance - reserve0);
        token1Balance := token1Balance - (token1Balance - reserve1);
      }
    }

    method Sync() returns (ok: bool)
      requires Sound(State())
      modifies this`reserve0, this`reserve1
      ensures Sound(State()) && Outcome(old(State()), Op.Sync, ok)
    {
      ghost var before := State();
      ok := false;
      if token0Balance > MAX_UINT112 || token1Balance > MAX_UINT112 { return; }
      reserve0, reserve1 := token0Balance, token1Balance;
      ok := true;
      StepKeeps(before, Op.Sync, State());
    }
  }
}
