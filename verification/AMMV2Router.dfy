/** Quotes for one pool: the two prices of the router and how they relate. */
module RouterQuotes {
  import opened Options
  import opened Numbers

  /** The most that can leave for `amountIn`; None where the source reverts. */
  function GetAmountOut(amountIn: nat, reserveIn: nat, reserveOut: nat): Option<nat> {
    if amountIn == 0 || reserveIn == 0 || reserveOut == 0 then None
    else Some(Over(amountIn * 997 * reserveOut, reserveIn * 1000 + amountIn * 997))
  }

  /** The input asked for `amountOut`; draining the reserve divides by zero or underflows. */
  function GetAmountIn(amountOut: nat, reserveIn: nat, reserveOut: nat): Option<nat> {
    if amountOut == 0 || reserveIn == 0 || reserveOut == 0 || amountOut >= reserveOut then None
    else Some(reserveIn * amountOut * 1000 / ((reserveOut - amountOut) * 997) + 1)
  }

  /** The product rule with the 0.3% fee on the input, over exact integers. */
  predicate Affords(amountIn: nat, amountOut: nat, reserveIn: nat, reserveOut: nat) {
    amountOut < reserveOut
    && (reserveIn * 1000 + amountIn * 997) * (reserveOut - amountOut) >= reserveIn * reserveOut * 1000
  }

  /** Affordable is the same as: the output times the denominator fits in the numerator. */
  lemma AffordsAsQuotient(amountIn: nat, amountOut: nat, reserveIn: nat, reserveOut: nat)
    requires reserveIn > 0 && reserveOut > 0
    ensures Affords(amountIn, amountOut, reserveIn, reserveOut)
            <==> amountOut * (reserveIn * 1000 + amountIn * 997) <= amountIn * 997 * reserveOut
  {
    var fee, scaled := amountIn * 997, reserveIn * 1000;
    var den := scaled + fee;
    assert den * (reserveOut - amountOut) == scaled * reserveOut + fee * reserveOut - amountOut * den by {
      assert den * (reserveOut - amountOut) == den * reserveOut - amountOut * den;
      assert den * reserveOut == scaled * reserveOut + fee * reserveOut;
    }
    assert scaled * reserveOut == reserveIn * reserveOut * 1000;
    assert scaled * reserveOut > 0 && reserveOut * den == scaled * reserveOut + fee * reserveOut;
    MulCancel(reserveOut, amountOut, den);
  }

  /** The quote is exactly the largest affordable output. */
  lemma AmountOutIsLargest(amountIn: nat, reserveIn: nat, reserveOut: nat, out: nat)
    requires amountIn > 0 && reserveIn > 0 && reserveOut > 0
    ensures Affords(amountIn, out, reserveIn, reserveOut)
            <==> out <= GetAmountOut(amountIn, reserveIn, reserveOut).value
  {
    AffordsAsQuotient(amountIn, out, reserveIn, reserveOut);
    DivAtLeast(amountIn * 997 * reserveOut, reserveIn * 1000 + amountIn * 997, out);
  }

  /** An input suffices for an output exactly when it reaches this quotient, rounded up. */
  lemma AffordsAsInput(amountIn: nat, amountOut: nat, reserveIn: nat, reserveOut: nat)
    requires reserveIn > 0 && amountOut < reserveOut
    ensures Affords(amountIn, amountOut, reserveIn, reserveOut)
            <==> reserveIn * amountOut * 1000 <= amountIn * ((reserveOut - amountOut) * 997)
  {
    var left := reserveOut - amountOut;
    assert (reserveIn * 1000 + amountIn * 997) * left == reserveIn * left * 1000 + amountIn * (left * 997);
    assert reserveIn * reserveOut == reserveIn * left + reserveIn * amountOut;
  }

  lemma MoreInputStillAffords(x: nat, y: nat, out: nat, reserveIn: nat, reserveOut: nat)
    requires x <= y && Affords(x, out, reserveIn, reserveOut)
    ensures Affords(y, out, reserveIn, reserveOut)
  {
    MulMono(reserveIn * 1000 + x * 997, reserveIn * 1000 + y * 997, reserveOut - out, reserveOut - out);
  }

  /** The asked input buys the output, and is over the least sufficient input by at most one. */
  lemma AmountInWithinOneOfLeast(amountOut: nat, reserveIn: nat, reserveOut: nat, least: nat)
    requires GetAmountIn(amountOut, reserveIn, reserveOut).Some?
    requires Affords(least, amountOut, reserveIn, reserveOut)
    requires forall x: nat :: x < least ==> !Affords(x, amountOut, reserveIn, reserveOut)
    ensures var asked := GetAmountIn(amountOut, reserveIn, reserveOut).value;
            && Affords(asked, amountOut, reserveIn, reserveOut)
            && least <= asked <= least + 1
            && (asked == least + 1 <==> reserveIn * amountOut * 1000 % ((reserveOut - amountOut) * 997) == 0)
  {
    var n, d := reserveIn * amountOut * 1000, (reserveOut - amountOut) * 997;
    var q := n / d;
    DivBounds(n, d);
    AffordsAsInput(q + 1, amountOut, reserveIn, reserveOut);
    AffordsAsInput(q, amountOut, reserveIn, reserveOut);
    AffordsAsInput(least, amountOut, reserveIn, reserveOut);
    MulCancel(q, least, d);
    assert n == q * d + n % d;
  }

  /** Asking for an output and feeding the asked input back yields at least that output. */
  lemma QuoteRoundTrip(amountOut: nat, reserveIn: nat, reserveOut: nat, paid: nat)
    requires GetAmountIn(amountOut, reserveIn, reserveOut).Some?
    requires paid >= GetAmountIn(amountOut, reserveIn, reserveOut).value
    ensures GetAmountOut(paid, reserveIn, reserveOut).Some?
    ensures GetAmountOut(paid, reserveIn, reserveOut).value >= amountOut
  {
    var n, d := reserveIn * amountOut * 1000, (reserveOut - amountOut) * 997;
    DivBounds(n, d);
    AffordsAsInput(n / d + 1, amountOut, reserveIn, reserveOut);
    MoreInputStillAffords(n / d + 1, paid, amountOut, reserveIn, reserveOut);
    AmountOutIsLargest(paid, reserveIn, reserveOut, amountOut);
  }
}

/** Paths of pools: chained quotes and the hops that execute them. */
module RouterPaths {
  import opened Options
  import opened Numbers
  import opened PairModel
  import opened RouterQuotes

  /** Token addresses; 0 is the zero address. A pool is named by its sorted pair of tokens. */
  type Token = nat
  type PoolName = (Token, Token)
  type Pools = map<PoolName, Pool>

  /** All pools of the factory, and what the recipient of the swap has been sent. */
  datatype Exchange = Exchange(pools: Pools, received: nat)

  function NameOf(a: Token, b: Token): PoolName { if a < b then (a, b) else (b, a) }

  function NameAt(path: seq<Token>, i: nat): PoolName
    requires i + 1 < |path|
  {
    NameOf(path[i], path[i + 1])
  }

  function ReserveIn(p: Pool, zeroForOne: bool): nat { if zeroForOne then p.reserve0 else p.reserve1 }
  function ReserveOut(p: Pool, zeroForOne: bool): nat { if zeroForOne then p.reserve1 else p.reserve0 }
  function BalanceIn(p: Pool, zeroForOne: bool): nat { if zeroForOne then p.balance0 else p.balance1 }
  function BalanceOut(p: Pool, zeroForOne: bool): nat { if zeroForOne then p.balance1 else p.balance0 }

  /** `_sortTokens` accepts the pair. */
  predicate ValidTokens(a: Token, b: Token) { a != b && a != 0 && b != 0 }

  /** `_getReserves`: a pool that does not exist reads as empty. */
  function Reserves(pools: Pools, a: Token, b: Token): Option<(nat, nat)> {
    if !ValidTokens(a, b) then None
    else if NameOf(a, b) !in pools then Some((0, 0))
    else
      var p := pools[NameOf(a, b)];
      Some((ReserveIn(p, a < b), ReserveOut(p, a < b)))
  }

  function QuoteOut(pools: Pools, a: Token, b: Token, amountIn: nat): Option<nat> {
    match Reserves(pools, a, b)
    case None => None
    case Some((rIn, rOut)) => GetAmountOut(amountIn, rIn, rOut)
  }

  function QuoteIn(pools: Pools, a: Token, b: Token, amountOut: nat): Option<nat> {
    match Reserves(pools, a, b)
    case None => None
    case Some((rIn, rOut)) => GetAmountIn(amountOut, rIn, rOut)
  }

  /** Every amount is the output quote of the one before. */
  ghost predicate ForwardQuotes(pools: Pools, path: seq<Token>, amounts: seq<nat>, upTo: nat) {
    && upTo < |amounts| <= |path|
    && forall i :: 0 <= i < upTo ==> QuoteOut(pools, path[i], path[i + 1], amounts[i]) == Some(amounts[i + 1])
  }

  /** Every amount is the input quote of the one after. */
  ghost predicate BackwardQuotes(pools: Pools, path: seq<Token>, amounts: seq<nat>, from: nat) {
    && |amounts| == |path| && from < |path|
    && forall i :: from <= i < |path| - 1 ==> QuoteIn(pools, path[i], path[i + 1], amounts[i + 1]) == Some(amounts[i])
  }

  /**
   For any path and fixed reserves: paying what `getAmountsIn` asks makes `getAmountsOut` deliver at
   least the wanted amount, at the end and at every pool on the way.
   */
  lemma PathRoundTrip(pools: Pools, path: seq<Token>, asked: seq<nat>) returns (delivered: seq<nat>)
    requires |path| >= 2 && BackwardQuotes(pools, path, asked, 0)
    ensures |delivered| == |path| && delivered[0] == asked[0]
    ensures ForwardQuotes(pools, path, delivered, |path| - 1)
    ensures forall i :: 0 <= i < |path| ==> delivered[i] >= asked[i]
  {
    delivered := [asked[0]];
    while |delivered| < |path|
      invariant 1 <= |delivered| <= |path| && delivered[0] == asked[0]
      invariant ForwardQuotes(pools, path, delivered, |delivered| - 1)
      invariant forall i :: 0 <= i < |delivered| ==> delivered[i] >= asked[i]
    {
      var i := |delivered| - 1;
      assert QuoteIn(pools, path[i], path[i + 1], asked[i + 1]) == Some(asked[i]);
      var (rIn, rOut) := Reserves(pools, path[i], path[i + 1]).value;
      QuoteRoundTrip(asked[i + 1], rIn, rOut, delivered[i]);
      delivered := delivered + [GetAmountOut(delivered[i], rIn, rOut).value];
    }
  }

  /** Two chains of quotes from the same input agree as far as both go. */
  lemma {:induction false} ForwardAgree(pools: Pools, path: seq<Token>, a: seq<nat>, b: seq<nat>, n: nat)
    requires ForwardQuotes(pools, path, a, n) && ForwardQuotes(pools, path, b, n) && a[0] == b[0]
    ensures a[n] == b[n]
  {
    if n > 0 {
      ForwardAgree(pools, path, a, b, n - 1);
      assert QuoteOut(pools, path[n - 1], path[n - 1 + 1], a[n - 1]) == Some(a[n - 1 + 1]);
      assert QuoteOut(pools, path[n - 1], path[n - 1 + 1], b[n - 1]) == Some(b[n - 1 + 1]);
    }
  }

  /** A chain that cannot be continued rules out every complete chain from its input. */
  lemma ForwardStuck(pools: Pools, path: seq<Token>, a: seq<nat>, i: nat, b: seq<nat>)
    requires i + 1 < |path| == |b| && ForwardQuotes(pools, path, a, i) && a[0] == b[0]
    requires QuoteOut(pools, path[i], path[i + 1], a[i]) == None
    ensures !ForwardQuotes(pools, path, b, |path| - 1)
  {
    if ForwardQuotes(pools, path, b, i) { ForwardAgree(pools, path, a, b, i); }
  }

  /** The same, from the far end, for input quotes. */
  lemma {:induction false} BackwardAgree(pools: Pools, path: seq<Token>, a: seq<nat>, b: seq<nat>, i: nat)
    requires BackwardQuotes(pools, path, a, i) && BackwardQuotes(pools, path, b, i) && a[|path| - 1] == b[|path| - 1]
    ensures a[i] == b[i]
    decreases |path| - i
  {
    if i + 1 < |path| {
      BackwardAgree(pools, path, a, b, i + 1);
      assert QuoteIn(pools, path[i], path[i + 1], a[i + 1]) == Some(a[i]);
      assert QuoteIn(pools, path[i], path[i + 1], b[i + 1]) == Some(b[i]);
    }
  }

  lemma BackwardStuck(pools: Pools, path: seq<Token>, a: seq<nat>, i: nat, b: seq<nat>)
    requires i + 1 < |path| == |b| && BackwardQuotes(pools, path, a, i + 1) && a[|path| - 1] == b[|path| - 1]
    requires QuoteIn(pools, path[i], path[i + 1], a[i + 1]) == None
    ensures !BackwardQuotes(pools, path, b, 0)
  {
    if BackwardQuotes(pools, path, b, i + 1) { BackwardAgree(pools, path, a, b, i + 1); }
  }

  // ---------------------------------------------------------------- one hop

  function SwapOp(zeroForOne: bool, amountOut: nat, to: Payee): Op {
    if zeroForOne then Swap(0, amountOut, to) else Swap(amountOut, 0, to)
  }

  /** A pool after `amount` of a token has been sent to it. */
  function Credited(p: Pool, name: PoolName, token: Token, amount: nat): Pool {
    if token == name.0 then p.(balance0 := p.balance0 + amount) else p.(balance1 := p.balance1 + amount)
  }

  /** Delivery of a hop's output: to the next pool of the path, or to the final recipient. */
  function Deliver(w: Exchange, next: Option<PoolName>, token: Token, amount: nat): Option<Exchange> {
    match next
    case None => Some(w.(received := w.received + amount))
    case Some(n) =>
      if n in w.pools then Some(w.(pools := w.pools[n := Credited(w.pools[n], n, token, amount)])) else None
  }

  /** The swap call of hop i, with the transfer it makes; None when anything in it reverts. */
  function Hop(w: Exchange, path: seq<Token>, amounts: seq<nat>, i: nat): Option<Exchange>
    requires |amounts| == |path| && i + 1 < |path|
  {
    var name := NameAt(path, i);
    if !ValidTokens(path[i], path[i + 1]) || name !in w.pools then None
    else
      var next := if i + 2 < |path| then Some(NameAt(path, i + 1)) else None;
      var to := if next == Some(name) then ThePair else Elsewhere;
      match Apply(w.pools[name], SwapOp(path[i] < path[i + 1], amounts[i + 1], to))
      case None => None
      case Some(q) =>
        var sent := w.(pools := w.pools[name := q]);
        if to == ThePair then Some(sent) else Deliver(sent, next, path[i + 1], amounts[i + 1])
  }

  /** The loop of `_swap` from hop i on. */
  function Hops(w: Exchange, path: seq<Token>, amounts: seq<nat>, i: nat): Option<Exchange>
    requires |amounts| == |path| && i < |path|
    decreases |path| - i
  {
    if i + 1 == |path| then Some(w)
    else match Hop(w, path, amounts, i)
         case None => None
         case Some(v) => Hops(v, path, amounts, i + 1)
  }

  /** The pool can serve the hop: the amounts are positive and affordable, and fit in 112 bits. */
  ghost predicate Serves(p: Pool, zeroForOne: bool, amountIn: nat, amountOut: nat, paid: bool) {
    && p.reserve0 <= p.balance0 && p.reserve1 <= p.balance1
    && amountIn > 0 && amountOut > 0 && ReserveIn(p, zeroForOne) > 0
    && Affords(amountIn, amountOut, ReserveIn(p, zeroForOne), ReserveOut(p, zeroForOne))
    && (paid ==> BalanceIn(p, zeroForOne) >= ReserveIn(p, zeroForOne) + amountIn)
    && BalanceIn(p, zeroForOne) + (if paid then 0 else amountIn) <= MAX_UINT112
    && BalanceOut(p, zeroForOne) <= MAX_UINT112
  }

  /** The pool once a hop that had been paid for is over. */
  function Served(p: Pool, zeroForOne: bool, amountOut: nat): Pool {
    var q := if zeroForOne then p.(balance1 := Sub(p.balance1, amountOut)) else p.(balance0 := Sub(p.balance0, amountOut));
    q.(reserve0 := q.balance0, reserve1 := q.balance1)
  }

  function Sub(a: nat, b: nat): nat { if b <= a then a - b else 0 }

  /** A paid hop with an affordable output passes the pair's liquidity, input and K checks. */
  lemma PairAcceptsQuote(p: Pool, zeroForOne: bool, amountIn: nat, amountOut: nat)
    requires Serves(p, zeroForOne, amountIn, amountOut, true)
    ensures Apply(p, SwapOp(zeroForOne, amountOut, Elsewhere)) == Some(Served(p, zeroForOne, amountOut))
  {
    var rIn, rOut := ReserveIn(p, zeroForOne), ReserveOut(p, zeroForOne);
    var bIn, bOut := BalanceIn(p, zeroForOne), BalanceOut(p, zeroForOne) - amountOut;
    var iIn, iOut := AmountIn(bIn, rIn, 0), AmountIn(bOut, rOut, amountOut);
    ProductSuffices(bIn * 1000 - iIn * 3, bOut * 1000 - iOut * 3, rIn, rOut, amountIn, amountOut);
  }

  /** Adjusted balances at least the paid-in reserve and what is left of the other pass the K check. */
  lemma ProductSuffices(x: nat, y: nat, rIn: nat, rOut: nat, amountIn: nat, out: nat)
    requires Affords(amountIn, out, rIn, rOut)
    requires x >= rIn * 1000 + amountIn * 997 && y >= (rOut - out) * 1000
    ensures x * y >= rIn * rOut * 1000000 && y * x >= rOut * rIn * 1000000
  {
    var left := rOut - out;
    MulMono(rIn * 1000 + amountIn * 997, x, left * 1000, y);
    assert (rIn * 1000 + amountIn * 997) * (left * 1000) == (rIn * 1000 + amountIn * 997) * left * 1000;
  }

  /** The pair's fee-adjusted check, in either order of its factors, is the router's product rule. */
  lemma CheckIsAffords(rIn: nat, rOut: nat, amountIn: nat, out: nat)
    requires out < rOut
    ensures var x, y := (rIn + amountIn) * 1000 - amountIn * 3, (rOut - out) * 1000;
            && x * y == y * x && rIn * rOut == rOut * rIn
            && (x * y >= rIn * rOut * 1000000 <==> Affords(amountIn, out, rIn, rOut))
  {
    var x, left := (rIn + amountIn) * 1000 - amountIn * 3, rOut - out;
    assert x == rIn * 1000 + amountIn * 997;
    assert x * (left * 1000) == x * left * 1000;
  }

  /**
   The router's quote is exactly the pair's limit. On a pool whose balances are its reserves, paid
   exactly `amountIn`, the pair lets an output out if and only if it is at most the quote.
   */
  lemma QuoteIsPairLimit(p: Pool, amountIn: nat, out: nat, zeroForOne: bool)
    requires p.balance0 == p.reserve0 && p.balance1 == p.reserve1 && p.reserve0 > 0 && p.reserve1 > 0
    requires amountIn > 0 && p.balance0 + amountIn <= MAX_UINT112 && p.balance1 + amountIn <= MAX_UINT112
    requires 0 < out
    ensures var paid := if zeroForOne then p.(balance0 := p.balance0 + amountIn) else p.(balance1 := p.balance1 + amountIn);
            Apply(paid, SwapOp(zeroForOne, out, Elsewhere)).Some?
            <==> out <= GetAmountOut(amountIn, ReserveIn(p, zeroForOne), ReserveOut(p, zeroForOne)).value
  {
    var rIn, rOut := ReserveIn(p, zeroForOne), ReserveOut(p, zeroForOne);
    AmountOutIsLargest(amountIn, rIn, rOut, out);
    if out < rOut { CheckIsAffords(rIn, rOut, amountIn, out); }
  }

  // ---------------------------------------------------------------- whole paths

  /** Pool j of the path exists and can serve its hop. */
  ghost predicate CanHop(pools: Pools, path: seq<Token>, amounts: seq<nat>, j: nat, paid: bool) {
    && j + 1 < |path| && |amounts| == |path|
    && ValidTokens(path[j], path[j + 1]) && NameAt(path, j) in pools
    && Serves(pools[NameAt(path, j)], path[j] < path[j + 1], amounts[j], amounts[j + 1], paid)
  }

  /** Pools i, i+1, ... of the path are distinct, exist, and can serve their hops in turn. */
  ghost predicate Ready(pools: Pools, path: seq<Token>, amounts: seq<nat>, i: nat) {
    && |amounts| == |path|
    && (i + 1 < |path| ==> CanHop(pools, path, amounts, i, true))
    && (forall j :: i < j < |path| - 1 ==> CanHop(pools, path, amounts, j, false))
    && (forall j, k :: i <= j < k < |path| - 1 ==> NameAt(path, j) != NameAt(path, k))
  }

  /** No pool holds less than its reserves: an invariant of every pool (`RunKeeps`). */
  ghost predicate Backed(pools: Pools) {
    forall n :: n in pools ==> pools[n].reserve0 <= pools[n].balance0 && pools[n].reserve1 <= pools[n].balance1
  }

  ghost predicate AllSound(pools: Pools) { forall n :: n in pools ==> Sound(pools[n]) }

  /** Whatever the hops, committed ones keep every pool sound. */
  lemma {:induction false} HopsKeepSound(w: Exchange, path: seq<Token>, amounts: seq<nat>, i: nat)
    requires |amounts| == |path| && i < |path| && AllSound(w.pools) && Hops(w, path, amounts, i).Some?
    ensures AllSound(Hops(w, path, amounts, i).value.pools)
    decreases |path| - i
  {
    if i + 1 < |path| {
      HopKeepsSound(w, path, amounts, i);
      HopsKeepSound(Hop(w, path, amounts, i).value, path, amounts, i + 1);
    }
  }

  lemma HopKeepsSound(w: Exchange, path: seq<Token>, amounts: seq<nat>, i: nat)
    requires |amounts| == |path| && i + 1 < |path| && AllSound(w.pools) && Hop(w, path, amounts, i).Some?
    ensures AllSound(Hop(w, path, amounts, i).value.pools)
  {
    var name, z := NameAt(path, i), path[i] < path[i + 1];
    var to := if i + 2 < |path| && NameAt(path, i + 1) == name then ThePair else Elsewhere;
    StepKeeps(w.pools[name], SwapOp(z, amounts[i + 1], to), Apply(w.pools[name], SwapOp(z, amounts[i + 1], to)).value);
  }

  /** Positive amounts over pairwise distinct pools with room in 112 bits. */
  ghost predicate Carries(pools: Pools, path: seq<Token>, amounts: seq<nat>) {
    && |amounts| == |path|
    && (forall i :: 0 <= i < |path| ==> 0 < amounts[i])
    && (forall i, j :: 0 <= i < j < |path| - 1 ==> NameAt(path, i) != NameAt(path, j))
    && (forall i {:trigger NameAt(path, i)} :: 0 <= i < |path| - 1 && NameAt(path, i) in pools ==>
          && BalanceIn(pools[NameAt(path, i)], path[i] < path[i + 1]) + amounts[i] <= MAX_UINT112
          && BalanceOut(pools[NameAt(path, i)], path[i] < path[i + 1]) <= MAX_UINT112)
  }

  /** Hop j goes through a pool that exists and can afford it. */
  ghost predicate AffordableHop(pools: Pools, path: seq<Token>, a: seq<nat>, j: nat) {
    && j + 1 < |path| == |a| && ValidTokens(path[j], path[j + 1]) && NameAt(path, j) in pools
    && var p, z := pools[NameAt(path, j)], path[j] < path[j + 1];
       a[j] > 0 && ReserveIn(p, z) > 0 && Affords(a[j], a[j + 1], ReserveIn(p, z), ReserveOut(p, z))
  }

  /** Output quotes chain affordable hops. */
  lemma ForwardAffordable(pools: Pools, path: seq<Token>, a: seq<nat>)
    requires |a| == |path| >= 2 && ForwardQuotes(pools, path, a, |path| - 1)
    ensures forall j :: 0 <= j < |path| - 1 ==> AffordableHop(pools, path, a, j)
  {
    forall j | 0 <= j < |path| - 1 ensures AffordableHop(pools, path, a, j) {
      assert QuoteOut(pools, path[j], path[j + 1], a[j]) == Some(a[j + 1]);
      var p, z := pools[NameAt(path, j)], path[j] < path[j + 1];
      AmountOutIsLargest(a[j], ReserveIn(p, z), ReserveOut(p, z), a[j + 1]);
    }
  }

  /** So do input quotes. */
  lemma BackwardAffordable(pools: Pools, path: seq<Token>, a: seq<nat>)
    requires |a| == |path| >= 2 && BackwardQuotes(pools, path, a, 0)
    ensures forall j :: 0 <= j < |path| - 1 ==> AffordableHop(pools, path, a, j)
  {
    forall j | 0 <= j < |path| - 1 ensures AffordableHop(pools, path, a, j) {
      assert QuoteIn(pools, path[j], path[j + 1], a[j + 1]) == Some(a[j]);
      var p, z := pools[NameAt(path, j)], path[j] < path[j + 1];
      QuoteRoundTrip(a[j + 1], ReserveIn(p, z), ReserveOut(p, z), a[j]);
      AmountOutIsLargest(a[j], ReserveIn(p, z), ReserveOut(p, z), a[j + 1]);
    }
  }

  /** Paying the first pool of a path it can carry makes the path ready. */
  lemma PaidPathReady(pools: Pools, paid: Pools, path: seq<Token>, a: seq<nat>)
    requires |a| == |path| >= 2 && forall j :: 0 <= j < |path| - 1 ==> AffordableHop(pools, path, a, j)
    requires Backed(pools) && Carries(pools, path, a) && NameAt(path, 0) in pools
    requires paid == pools[NameAt(path, 0) := Credited(pools[NameAt(path, 0)], NameAt(path, 0), path[0], a[0])]
    ensures Ready(paid, path, a, 0)
  {
    assert AffordableHop(pools, path, a, 0) && a[1] > 0;
    forall j | 0 < j < |path| - 1
      ensures CanHop(paid, path, a, j, false)
    {
      assert AffordableHop(pools, path, a, j) && a[j + 1] > 0;
      assert NameAt(path, 0) != NameAt(path, j);
    }
  }

  /** The pools once the caller has paid the first one of the path. */
  function PaidIn(pools: Pools, path: seq<Token>, amounts: seq<nat>): Pools
    requires |amounts| == |path| >= 2 && NameAt(path, 0) in pools
  {
    var first := NameAt(path, 0);
    pools[first := Credited(pools[first], first, path[0], amounts[0])]
  }

  /** Whatever the hops, the recipient of committed ones gets exactly the last amount. */
  lemma {:induction false} HopsDeliver(w: Exchange, path: seq<Token>, amounts: seq<nat>, i: nat)
    requires |amounts| == |path| && i + 1 < |path| && Hops(w, path, amounts, i).Some?
    ensures Hops(w, path, amounts, i).value.received == w.received + amounts[|path| - 1]
    decreases |path| - i
  {
    var v := Hop(w, path, amounts, i).value;
    if i + 2 < |path| { HopsDeliver(v, path, amounts, i + 1); } else { assert NameAt(path, i) in w.pools; }
  }

  /** What pool j of the path looks like when the whole swap is over. */
  function Final(p: Pool, path: seq<Token>, amounts: seq<nat>, j: nat, paid: bool): Pool
    requires |amounts| == |path| && j + 1 < |path|
  {
    var q := if paid then p else Credited(p, NameAt(path, j), path[j], amounts[j]);
    Served(q, path[j] < path[j + 1], amounts[j + 1])
  }

  /** The state after hop i of a ready path. */
  function AfterHop(w: Exchange, path: seq<Token>, amounts: seq<nat>, i: nat): Exchange
    requires |amounts| == |path| && i + 1 < |path| && NameAt(path, i) in w.pools
    requires i + 2 < |path| ==> NameAt(path, i + 1) in w.pools
  {
    var name := NameAt(path, i);
    var pools := w.pools[name := Served(w.pools[name], path[i] < path[i + 1], amounts[i + 1])];
    if i + 2 == |path| then Exchange(pools, w.received + amounts[i + 1])
    else
      var next := NameAt(path, i + 1);
      Exchange(pools[next := Credited(pools[next], next, path[i + 1], amounts[i + 1])], w.received)
  }

  lemma HopCommits(w: Exchange, path: seq<Token>, amounts: seq<nat>, i: nat)
    requires i + 1 < |path| && Ready(w.pools, path, amounts, i)
    ensures NameAt(path, i) in w.pools && (i + 2 < |path| ==> NameAt(path, i + 1) in w.pools)
    ensures Hop(w, path, amounts, i) == Some(AfterHop(w, path, amounts, i))
  {
    if i + 2 < |path| {
      assert CanHop(w.pools, path, amounts, i + 1, false);
      assert NameAt(path, i) != NameAt(path, i + 1);
    }
    PairAcceptsQuote(w.pools[NameAt(path, i)], path[i] < path[i + 1], amounts[i], amounts[i + 1]);
  }

  /** One hop leaves the rest of the path ready, its next pool paid. */
  lemma HopKeepsReady(w: Exchange, path: seq<Token>, amounts: seq<nat>, i: nat)
    requires i + 1 < |path| && Ready(w.pools, path, amounts, i)
    ensures NameAt(path, i) in w.pools && (i + 2 < |path| ==> NameAt(path, i + 1) in w.pools)
    ensures Ready(AfterHop(w, path, amounts, i).pools, path, amounts, i + 1)
  {
    if i + 2 < |path| {
      assert CanHop(w.pools, path, amounts, i + 1, false);
      assert NameAt(path, i) != NameAt(path, i + 1);
    }
    var v := AfterHop(w, path, amounts, i);
    forall j | i + 1 < j < |path| - 1
      ensures CanHop(v.pools, path, amounts, j, false)
    {
      assert CanHop(w.pools, path, amounts, j, false);
      assert NameAt(path, i) != NameAt(path, j) && NameAt(path, i + 1) != NameAt(path, j);
    }
  }

  /** Pool j of the path went from its state in `before` to its final state in `after`. */
  ghost predicate EndsAsQuoted(before: Pools, after: Pools, path: seq<Token>, amounts: seq<nat>, j: nat, paid: bool) {
    && j + 1 < |path| == |amounts| && NameAt(path, j) in before && NameAt(path, j) in after
    && after[NameAt(path, j)] == Final(before[NameAt(path, j)], path, amounts, j, paid)
  }

  /** As quoted: the pool has taken in its amount of one token, given out the next one of the other, and remembers both balances. */
  lemma QuotedMeans(before: Pools, after: Pools, path: seq<Token>, amounts: seq<nat>, j: nat)
    requires EndsAsQuoted(before, after, path, amounts, j, false) && path[j] != path[j + 1]
    requires amounts[j + 1] <= BalanceOut(before[NameAt(path, j)], path[j] < path[j + 1])
    ensures var p, q, z := before[NameAt(path, j)], after[NameAt(path, j)], path[j] < path[j + 1];
            && BalanceIn(q, z) == BalanceIn(p, z) + amounts[j] && BalanceOut(q, z) == BalanceOut(p, z) - amounts[j + 1]
            && ReserveIn(q, z) == BalanceIn(q, z) && ReserveOut(q, z) == BalanceOut(q, z)
            && q.supply == p.supply && q.own == p.own
  {
  }

  /** Pool n is none of the pools i, i+1, ... of the path. */
  ghost predicate OffPath(path: seq<Token>, i: nat, n: PoolName) {
    forall j :: i <= j < |path| - 1 ==> n != NameAt(path, j)
  }

  /**
   On any ready path every swap of `_swap` commits; the recipient gets exactly the last amount; each
   pool on the path ends as quoted and every other pool is untouched.
   */
  lemma {:induction false} PathExecutes(w: Exchange, path: seq<Token>, amounts: seq<nat>, i: nat)
    requires i + 1 < |path| && |amounts| == |path| && Ready(w.pools, path, amounts, i)
    ensures Hops(w, path, amounts, i).Some?
    ensures var v := Hops(w, path, amounts, i).value;
            && v.pools.Keys == w.pools.Keys
            && v.received == w.received + amounts[|path| - 1]
            && EndsAsQuoted(w.pools, v.pools, path, amounts, i, true)
            && (forall j :: i < j < |path| - 1 ==> EndsAsQuoted(w.pools, v.pools, path, amounts, j, false))
            && (forall n :: n in w.pools && OffPath(path, i, n) ==> v.pools[n] == w.pools[n])
    decreases |path| - i
  {
    HopCommits(w, path, amounts, i);
    HopKeepsReady(w, path, amounts, i);
    var u := AfterHop(w, path, amounts, i);
    assert Hops(w, path, amounts, i) == Hops(u, path, amounts, i + 1);
    if i + 2 < |path| {
      PathExecutes(u, path, amounts, i + 1);
      PathJoins(w, u, Hops(u, path, amounts, i + 1).value, path, amounts, i);
    }
  }

  /** The views of the rest of the path, read back from the state before hop i. */
  lemma PathJoins(w: Exchange, u: Exchange, v: Exchange, path: seq<Token>, amounts: seq<nat>, i: nat)
    requires i + 2 < |path| && |amounts| == |path| && Ready(w.pools, path, amounts, i)
    requires NameAt(path, i) in w.pools && NameAt(path, i + 1) in w.pools
    requires u == AfterHop(w, path, amounts, i) && v.pools.Keys == u.pools.Keys
    requires EndsAsQuoted(u.pools, v.pools, path, amounts, i + 1, true)
    requires forall j :: i + 1 < j < |path| - 1 ==> EndsAsQuoted(u.pools, v.pools, path, amounts, j, false)
    requires forall n :: n in u.pools && OffPath(path, i + 1, n) ==> v.pools[n] == u.pools[n]
    ensures EndsAsQuoted(w.pools, v.pools, path, amounts, i, true)
    ensures forall j :: i < j < |path| - 1 ==> EndsAsQuoted(w.pools, v.pools, path, amounts, j, false)
    ensures forall n :: n in w.pools && OffPath(path, i, n) ==> v.pools[n] == w.pools[n]
  {
    assert OffPath(path, i + 1, NameAt(path, i));
    assert NameAt(path, i) != NameAt(path, i + 1);
    forall j | i < j < |path| - 1 ensures EndsAsQuoted(w.pools, v.pools, path, amounts, j, false) {
      assert NameAt(path, i) != NameAt(path, j);
      if j > i + 1 {
        assert EndsAsQuoted(u.pools, v.pools, path, amounts, j, false);
        assert NameAt(path, i + 1) != NameAt(path, j);
      }
    }
    forall n | n in w.pools && OffPath(path, i, n) ensures v.pools[n] == w.pools[n] {
      assert OffPath(path, i + 1, n);
      assert n != NameAt(path, i) && n != NameAt(path, i + 1);
    }
  }

  /** The first pool takes in the first amount, and then the hops run in order. */
  function Ran(w: Exchange, path: seq<Token>, amounts: seq<nat>): Option<Exchange>
    requires |amounts| == |path| >= 2 && NameAt(path, 0) in w.pools
  {
    Hops(Exchange(PaidIn(w.pools, path, amounts), w.received), path, amounts, 0)
  }

  /** Every pool of the path ends as quoted, from its state before anything was paid; every other is untouched. */
  ghost predicate AllAsQuoted(before: Pools, after: Pools, path: seq<Token>, amounts: seq<nat>) {
    && (forall j :: 0 <= j < |path| - 1 ==> EndsAsQuoted(before, after, path, amounts, j, false))
    && (forall n :: n in before && OffPath(path, 0, n) ==> n in after && after[n] == before[n])
  }

  /** A path of affordable hops that its pools can carry runs to its end, and leaves them as quoted. */
  lemma CarriedPathRuns(w: Exchange, path: seq<Token>, amounts: seq<nat>)
    requires |amounts| == |path| >= 2 && Backed(w.pools) && Carries(w.pools, path, amounts)
    requires forall j :: 0 <= j < |path| - 1 ==> AffordableHop(w.pools, path, amounts, j)
    ensures NameAt(path, 0) in w.pools && Ran(w, path, amounts).Some?
    ensures AllAsQuoted(w.pools, Ran(w, path, amounts).value.pools, path, amounts)
  {
    assert AffordableHop(w.pools, path, amounts, 0);
    var paid := Exchange(PaidIn(w.pools, path, amounts), w.received);
    PaidPathReady(w.pools, paid.pools, path, amounts);
    PathExecutes(paid, path, amounts, 0);
    var after := Ran(w, path, amounts).value.pools;
    forall j | 0 <= j < |path| - 1 ensures EndsAsQuoted(w.pools, after, path, amounts, j, false) {
      assert AffordableHop(w.pools, path, amounts, j);
      if j == 0 {
        assert EndsAsQuoted(paid.pools, after, path, amounts, 0, true);
      } else {
        assert EndsAsQuoted(paid.pools, after, path, amounts, j, false) && NameAt(path, 0) != NameAt(path, j);
      }
    }
    assert forall n :: OffPath(path, 0, n) ==> n != NameAt(path, 0);
  }
}

/** The router object over the factory's pools. */
module RouterContract {
  import opened Options
  import opened PairModel
  import opened RouterPaths

  class AMMV2Router {
    var pools: Pools
    var received: nat // what the recipient, an account outside all pools, has been sent

    function State(): Exchange
      reads this
    {
      Exchange(pools, received)
    }

    constructor (factoryPools: Pools)
      ensures State() == Exchange(factoryPools, 0)
    {
      pools, received := factoryPools, 0;
    }

    method GetAmountsOut(amountIn: nat, path: seq<Token>) returns (amounts: Option<seq<nat>>)
      ensures amounts.Some? ==>
                && |amounts.value| == |path| >= 2 && amounts.value[0] == amountIn
                && ForwardQuotes(pools, path, amounts.value, |path| - 1)
      ensures amounts.None? && |path| >= 2 ==>
                forall a :: |a| == |path| && a[0] == amountIn ==> !ForwardQuotes(pools, path, a, |path| - 1)
    {
      if |path| < 2 { return None; }
      var a := [amountIn];
      for i := 0 to |path| - 1
        invariant |a| == i + 1 && a[0] == amountIn
        invariant ForwardQuotes(pools, path, a, i)
      {
        var quote := QuoteOut(pools, path[i], path[i + 1], a[i]);
        if quote == None {
          forall b | |b| == |path| && b[0] == amountIn ensures !ForwardQuotes(pools, path, b, |path| - 1) {
            ForwardStuck(pools, path, a, i, b);
          }
          return None;
        }
        a := a + [quote.value];
      }
      return Some(a);
    }

    method GetAmountsIn(amountOut: nat, path: seq<Token>) returns (amounts: Option<seq<nat>>)
      ensures amounts.Some? ==>
                && |amounts.value| == |path| >= 2 && amounts.value[|path| - 1] == amountOut
                && BackwardQuotes(pools, path, amounts.value, 0)
      ensures amounts.None? && |path| >= 2 ==>
                forall a :: |a| == |path| && a[|path| - 1] == amountOut ==> !BackwardQuotes(pools, path, a, 0)
    {
      if |path| < 2 { return None; }
      var a: seq<nat> := seq(|path|, _ => 0)[|path| - 1 := amountOut];
      var i := |path| - 1;
      while i > 0
        invariant 0 <= i < |path| && |a| == |path| && a[|path| - 1] == amountOut
        invariant BackwardQuotes(pools, path, a, i)
      {
        var quote := QuoteIn(pools, path[i - 1], path[i], a[i]);
        if quote == None {
          forall b | |b| == |path| && b[|path| - 1] == amountOut ensures !BackwardQuotes(pools, path, b, 0) {
            BackwardStuck(pools, path, a, i - 1, b);
          }
          return None;
        }
        i, a := i - 1, a[i - 1 := quote.value];
      }
      return Some(a);
    }

    /** One hop over the pools: the pair is told where its output goes, and swaps; None is a revert. */
    method SwapHop(ps: Pools, got: nat, amounts: seq<nat>, path: seq<Token>, i: nat) returns (ok: bool, qs: Pools, paid: nat)
      requires |amounts| == |path| && i + 1 < |path|
      ensures Hop(Exchange(ps, got), path, amounts, i) == if ok then Some(Exchange(qs, paid)) else None
    {
      ok, qs, paid := false, ps, got;
      var input, output := path[i], path[i + 1];
      if !ValidTokens(input, output) || NameOf(input, output) !in ps { return; }
      var name := NameOf(input, output);
      var last := i + 2 == |path|;
      var toSelf := !last && NameOf(output, path[i + 2]) == name;
      var swapped := Apply(ps[name], SwapOp(input < output, amounts[i + 1], if toSelf then ThePair else Elsewhere));
      if swapped == None { return; }
      qs := ps[name := swapped.value];
      if last {
        paid := got + amounts[i + 1];
      } else if !toSelf {
        var next := NameOf(output, path[i + 2]);
        if next !in qs { return; }
        qs := qs[next := Credited(qs[next], next, output, amounts[i + 1])];
      }
      ok := true;
    }

    /** `_swap`: hop by hop over the stored pools. */
    method SwapAlong(amounts: seq<nat>, path: seq<Token>) returns (ok: bool)
      requires |amounts| == |path| >= 2
      modifies this
      ensures ok == Hops(old(State()), path, amounts, 0).Some?
      ensures State() == if ok then Hops(old(State()), path, amounts, 0).value else old(State())
      ensures AllSound(old(pools)) ==> AllSound(pools)
    {
      if AllSound(pools) && Hops(State(), path, amounts, 0).Some? { HopsKeepSound(State(), path, amounts, 0); }
      var ps, got := pools, received;
      var i := 0;
      while i < |path| - 1
        invariant 0 <= i < |path| && State() == old(State())
        invariant Hops(old(State()), path, amounts, 0) == Hops(Exchange(ps, got), path, amounts, i)
      {
        ok, ps, got := SwapHop(ps, got, amounts, path, i);
        if !ok { return; }
        i := i + 1;
      }
      pools, received := ps, got;
      return true;
    }

    /** The caller pays the first pool and the hops run; a revert in any of them undoes the payment. */
    method PayAndSwap(amounts: seq<nat>, path: seq<Token>) returns (ok: bool)
      requires |amounts| == |path| >= 2 && Backed(pools)
      requires forall j :: 0 <= j < |path| - 1 ==> AffordableHop(pools, path, amounts, j)
      modifies this
      ensures !ok ==> State() == old(State())
      ensures AllSound(old(pools)) ==> AllSound(pools)
      ensures NameAt(path, 0) in old(pools) && ok == Ran(old(State()), path, amounts).Some?
      ensures ok ==> Ran(old(State()), path, amounts) == Some(State()) && received == old(received) + amounts[|path| - 1]
      ensures Carries(old(pools), path, amounts) ==> ok && AllAsQuoted(old(pools), pools, path, amounts)
    {
      var before := pools;
      var first := NameOf(path[0], path[1]);
      assert AffordableHop(pools, path, amounts, 0) && pools[first].reserve0 <= pools[first].balance0;
      if Carries(pools, path, amounts) { CarriedPathRuns(State(), path, amounts); }
      pools := pools[first := Credited(pools[first], first, path[0], amounts[0])];
      ghost var paid := State();
      ok := SwapAlong(amounts, path);
      if ok { HopsDeliver(paid, path, amounts, 0); } else { pools := before; }
    }

    /**
     Exact input. When the output quotes exist and meet the minimum and the pools can carry them, the
     call cannot fail, and the recipient is paid exactly the last quote.
     */
    method SwapExactTokensForTokens(amountIn: nat, amountOutMin: nat, path: seq<Token>)
      returns (ok: bool, quoted: Option<seq<nat>>)
      requires Backed(pools)
      modifies this
      ensures quoted.Some? ==> |path| >= 2 && |quoted.value| == |path| && quoted.value[0] == amountIn
                               && ForwardQuotes(old(pools), path, quoted.value, |path| - 1)
      ensures quoted.None? && |path| >= 2 ==>
                forall a :: |a| == |path| && a[0] == amountIn ==> !ForwardQuotes(old(pools), path, a, |path| - 1)
      ensures !ok ==> State() == old(State())
      ensures AllSound(old(pools)) ==> AllSound(pools)
      ensures ok ==> quoted.Some? && quoted.value[|path| - 1] >= amountOutMin
      ensures ok ==> received == old(received) + quoted.value[|path| - 1]
                     && NameAt(path, 0) in old(pools) && Ran(old(State()), path, quoted.value) == Some(State())
      ensures quoted.Some? && quoted.value[|path| - 1] >= amountOutMin && Carries(old(pools), path, quoted.value)
              ==> ok && AllAsQuoted(old(pools), pools, path, quoted.value)
    {
      ok := false;
      quoted := GetAmountsOut(amountIn, path);
      if quoted == None { return; }
      var amounts := quoted.value;
      if amounts[|path| - 1] < amountOutMin { return; }
      ForwardAffordable(pools, path, amounts);
      ok := PayAndSwap(amounts, path);
    }

    /** Exact output: the recipient is paid exactly what was asked, for at most the maximum. */
    method SwapTokensForExactTokens(amountOut: nat, amountInMax: nat, path: seq<Token>)
      returns (ok: bool, quoted: Option<seq<nat>>)
      requires Backed(pools)
      modifies this
      ensures quoted.Some? ==> |path| >= 2 && |quoted.value| == |path| && quoted.value[|path| - 1] == amountOut
                               && BackwardQuotes(old(pools), path, quoted.value, 0)
      ensures quoted.None? && |path| >= 2 ==>
                forall a :: |a| == |path| && a[|path| - 1] == amountOut ==> !BackwardQuotes(old(pools), path, a, 0)
      ensures !ok ==> State() == old(State())
      ensures AllSound(old(pools)) ==> AllSound(pools)
      ensures ok ==> quoted.Some? && quoted.value[0] <= amountInMax
      ensures ok ==> received == old(received) + amountOut
                     && NameAt(path, 0) in old(pools) && Ran(old(State()), path, quoted.value) == Some(State())
      ensures quoted.Some? && quoted.value[0] <= amountInMax && Carries(old(pools), path, quoted.value)
              ==> ok && AllAsQuoted(old(pools), pools, path, quoted.value)
    {
      ok := false;
      quoted := GetAmountsIn(amountOut, path);
      if quoted == None { return; }
      var amounts := quoted.value;
      if amounts[0] > amountInMax { return; }
      BackwardAffordable(pools, path, amounts);
      ok := PayAndSwap(amounts, path);
    }
  }
}
