/** The swap curve of a stable pool: the solver for D, and the solver for y, whatever D it was given. */
module StableCurve {
  import opened Options
  import opened Numbers

  const MAX_ITERATIONS := 255

  /** Entry k of the curve's inputs: x stands in for token i, and token j, the one solved for, is skipped. */
  function Input(xp: seq<nat>, i: nat, j: nat, x: nat, k: nat): Option<nat>
    requires k < |xp|
  {
    if k == i then Some(x) else if k != j then Some(xp[k]) else None
  }

  /** Sum of the first k inputs. */
  function InputSum(xp: seq<nat>, i: nat, j: nat, x: nat, k: nat): nat
    requires k <= |xp|
  {
    if k == 0 then 0
    else InputSum(xp, i, j, x, k - 1) + match Input(xp, i, j, x, k - 1) case None => 0 case Some(v) => v
  }

  /** D^(k+1) / (n^k * product of the first k inputs), floored at each factor; None on a zero divisor. */
  function InputProduct(xp: seq<nat>, i: nat, j: nat, x: nat, d: nat, k: nat): Option<nat>
    requires k <= |xp|
  {
    if k == 0 then Some(d)
    else match InputProduct(xp, i, j, x, d, k - 1)
         case None => None
         case Some(c) =>
           (match Input(xp, i, j, x, k - 1)
            case None => Some(c)
            case Some(v) => if v * |xp| == 0 then None else Some(Over(c * d, v * |xp|)))
  }

  /** The integers b and c of the curve equation y^2 + (b - D) y = c, as the solver computes them. */
  datatype Coefficients = Coefficients(b: nat, c: nat)

  function CurveCoefficients(xp: seq<nat>, i: nat, j: nat, x: nat, amp: nat, d: nat): Option<Coefficients> {
    match InputProduct(xp, i, j, x, d, |xp|)
    case None => None
    case Some(c) =>
      var ann := amp * |xp|;
      if ann * |xp| == 0 then None
      else Some(Coefficients(InputSum(xp, i, j, x, |xp|) + Over(d, ann), Over(c * d, ann * |xp|)))
  }

  /** The curve polynomial: negative below its positive root, positive above. */
  function F(k: Coefficients, d: nat, t: int): int { t * t + (k.b - d) * t - k.c }

  /** y brackets the root from above to within the solver's tolerance, and nothing past y is below it. */
  ghost predicate SolvesCurve(k: Coefficients, d: nat, y: nat) {
    && F(k, d, y) <= 1
    && forall t: nat :: t > y ==> F(k, d, t) > 0
  }

  /** F at a neighbour of t, through the slope. */
  lemma FStep(k: Coefficients, d: nat, t: int, e: int)
    ensures F(k, d, t + e) == F(k, d, t) + e * (2 * t + k.b - d) + e * e
  {
    assert (t + e) * (t + e) == t * t + 2 * (e * t) + e * e;
    assert (k.b - d) * (t + e) == (k.b - d) * t + e * (k.b - d);
    assert e * (2 * t + k.b - d) == 2 * (e * t) + e * (k.b - d);
  }

  /** F keeps rising once its slope is positive. */
  lemma {:induction false} FRises(k: Coefficients, d: nat, t: nat, u: nat)
    requires t <= u && 2 * t + k.b - d >= 0 && F(k, d, t) > 0
    ensures F(k, d, u) > 0
    decreases u
  {
    if t < u {
      FRises(k, d, t, u - 1);
      FStep(k, d, u - 1, 1);
    }
  }

  /** The step of a floored quotient: where the numerator is y*den - f, the step e has e*den <= -f < (e+1)*den. */
  lemma FlooredStep(y: nat, den: nat, f: int, numerator: nat)
    requires den > 0 && numerator == y * den - f
    ensures var e := Over(numerator, den) - y; e * den <= -f < (e + 1) * den
  {
    var next := Over(numerator, den);
    DivBounds(numerator, den);
    assert (next - y) * den == next * den - y * den;
    assert (next - y + 1) * den == (next + 1) * den - y * den;
  }

  lemma NumeratorIsSlopeLessF(k: Coefficients, d: nat, y: nat)
    ensures y * y + k.c == y * (2 * y + k.b - d) - F(k, d, y)
  {
    assert y * (2 * y + k.b - d) == 2 * (y * y) + (k.b - d) * y;
  }

  /**
   The exit test is enough. One floored Newton step that moves by at most one unit lands on a y that
   solves the curve: no claim about convergence is needed.
   */
  lemma ExitTestSuffices(k: Coefficients, d: nat, y: nat, next: nat)
    requires 2 * y + k.b > d
    requires next == Over(y * y + k.c, 2 * y + k.b - d)
    requires -1 <= next - y <= 1
    ensures SolvesCurve(k, d, next)
  {
    var den := 2 * y + k.b - d;
    var e := next - y;
    NumeratorIsSlopeLessF(k, d, y);
    FlooredStep(y, den, F(k, d, y), y * y + k.c);
    FStep(k, d, y, e);
    FStep(k, d, y, e + 1);
    SmallSquares(e);
    assert F(k, d, next + 1) > 0;
    forall t: nat | t > next ensures F(k, d, t) > 0 { FRises(k, d, next + 1, t); }
  }

  lemma SmallSquares(e: int)
    requires -1 <= e <= 1
    ensures 0 <= e * e <= 1 && 0 <= (e + 1) * (e + 1)
  {
    if e == -1 {} else if e == 0 {} else {}
  }

  /** Newton's method as the solver runs it: None on a zero or negative divisor, or out of iterations. */
  function Newton(k: Coefficients, d: nat, y: nat, fuel: nat): Option<nat>
    decreases fuel, d
  {
    if fuel == 0 || 2 * y + k.b <= d then None
    else
      var next := Over(y * y + k.c, 2 * y + k.b - d);
      if -1 <= next - y <= 1 then Some(next) else Newton(k, d, next, fuel - 1)
  }

  /** What `_getY` returns once it has D; None where it reverts. */
  function Solved(xp: seq<nat>, i: nat, j: nat, x: nat, amp: nat, d: nat): Option<nat> {
    match CurveCoefficients(xp, i, j, x, amp, d)
    case None => None
    case Some(k) => Newton(k, d, d, MAX_ITERATIONS)
  }

  lemma {:induction false} NewtonSolves(k: Coefficients, d: nat, y: nat, fuel: nat)
    requires Newton(k, d, y, fuel).Some?
    ensures SolvesCurve(k, d, Newton(k, d, y, fuel).value)
    decreases fuel
  {
    var next := Over(y * y + k.c, 2 * y + k.b - d);
    if -1 <= next - y <= 1 {
      ExitTestSuffices(k, d, y, next);
    } else {
      assert Newton(k, d, y, fuel) == Newton(k, d, next, fuel - 1);
      NewtonSolves(k, d, next, fuel - 1);
    }
  }

  /** Whenever the solver answers, its answer solves the curve with the coefficients it computed. */
  lemma AnswersSolveCurve(xp: seq<nat>, i: nat, j: nat, x: nat, amp: nat, d: nat)
    requires Solved(xp, i, j, x, amp, d).Some?
    ensures CurveCoefficients(xp, i, j, x, amp, d).Some?
    ensures SolvesCurve(CurveCoefficients(xp, i, j, x, amp, d).value, d, Solved(xp, i, j, x, amp, d).value)
  {
    NewtonSolves(CurveCoefficients(xp, i, j, x, amp, d).value, d, d, MAX_ITERATIONS);
  }

  // ---------------------------------------------------------------- the solver converges

  /** The denominator of a Newton step: the slope of the curve polynomial. */
  function Slope(k: Coefficients, d: nat, y: nat): int { 2 * y + k.b - d }

  /** How far one floored step moves. */
  function Move(k: Coefficients, d: nat, y: nat): int
    requires Slope(k, d, y) > 0
  {
    Over(y * y + k.c, Slope(k, d, y)) - y
  }

  /** The square of the slope is four times the polynomial, and more. */
  lemma SlopeSquared(k: Coefficients, d: nat, y: nat)
    ensures Slope(k, d, y) * Slope(k, d, y) >= 4 * F(k, d, y)
  {
    var beta := k.b - d;
    assert (2 * y + beta) * (2 * y + beta) == 4 * (y * y + beta * y) + beta * beta;
    assert beta * beta >= 0;
  }

  /** A step of e leaves the polynomial at e^2 less a rest smaller than the slope. */
  lemma StepLeaves(k: Coefficients, d: nat, y: nat)
    requires Slope(k, d, y) > 0 && y + Move(k, d, y) >= 0
    ensures var e, m := Move(k, d, y), Slope(k, d, y);
            Slope(k, d, y + e) == m + 2 * e && e * e - m < F(k, d, y + e) <= e * e
  {
    var e, m := Move(k, d, y), Slope(k, d, y);
    NumeratorIsSlopeLessF(k, d, y);
    FlooredStep(y, m, F(k, d, y), y * y + k.c);
    FStep(k, d, y, e);
    assert (e + 1) * m == e * m + m;
  }

  lemma SteepEnough(g: int, m: int, r: int)
    requires m > 0 && r < m && m * m >= 4 * (g * m) - 4 * r
    ensures m >= 4 * g - 3
  {
    assert m * m > (4 * g - 4) * m by { assert (4 * g - 4) * m == 4 * (g * m) - 4 * m; }
    MulCancel(m, 4 * g - 4, m);
  }

  lemma RestIsLarge(g: int, m: int, r: int)
    requires m > 0 && r >= 0 && m * m >= 4 * (g * m) - 4 * r && 4 * g - 3 <= m && g >= 2
    ensures g * (4 * g - m) <= 2 * r
  {
    var t := 4 * g - m;
    if t <= 0 {
      assert g * t <= 0 by { MulCancel(t, 0, g); }
    } else {
      assert m * t == 4 * (g * m) - m * m;
      MulCancel(2 * g, m, t);
      assert 2 * g * t == 2 * (g * t);
    }
  }

  lemma SquareOverFour(g: int)
    requires g >= 2
    ensures g * g >= 4 * g - 4
  {
    assert g * g - (4 * g - 4) == (g - 2) * (g - 2);
  }

  /** Integer core of a step down by g >= 2 at slope m with rest r: the slope stays positive, and the next step is at most half. */
  lemma DownwardHalves(g: int, m: int, r: int)
    requires g >= 2 && m > 0 && 0 <= r < m && m * m >= 4 * (g * m) - 4 * r
    ensures m - 2 * g > 0 && 2 * (g * g - r) <= g * (m - 2 * g) && m - g * g <= 2 * (m - 2 * g)
  {
    SteepEnough(g, m, r);
    RestIsLarge(g, m, r);
    SquareOverFour(g);
    assert g * (4 * g - m) == 4 * (g * g) - g * m;
    assert g * (m - 2 * g) == g * m - 2 * (g * g);
  }

  lemma MoveBounds(g: int, m: int, f: int, e: int)
    requires m > 0 && e * m <= -f < (e + 1) * m && 2 * f <= g * m && -f < 2 * m
    ensures e <= 1 && 2 * e >= -g - 1
  {
    MulCancel(2, e, m);
    assert 2 * ((e + 1) * m) == (2 * e + 2) * m;
    assert (2 * e + 2) * m > -g * m by { assert -g * m == -(g * m); }
    MulCancel(2 * e + 2, -g, m);
  }

  function Length(e: int): nat { if e >= 0 then e else -e }

  /** A step e of two or more at slope m, from value f to value h: what the slope and the value are after it. */
  lemma AfterLongStep(e: int, m: int, f: int, h: int)
    requires m > 0 && Length(e) >= 2 && m * m >= 4 * f
    requires h == f + e * m + e * e && e * e - m < h <= e * e
    ensures m + 2 * e > 0 && 2 * h <= Length(e) * (m + 2 * e) && -h < 2 * (m + 2 * e)
  {
    if e > 0 {
      UpwardHalves(e, m);
    } else {
      var g := -e;
      assert g * g == e * e && g * m == -(e * m);
      DownwardHalves(g, m, g * g - h);
    }
  }

  lemma UpwardHalves(e: int, m: int)
    requires e > 0 && m > 0
    ensures 2 * (e * e) <= e * (m + 2 * e)
  {
    assert e * (m + 2 * e) == e * m + 2 * (e * e) && e * m > 0;
  }

  /** After a step of two or more, up or down, the next one is at most half as long, and up by one at most. */
  lemma StepHalves(k: Coefficients, d: nat, y: nat)
    requires Slope(k, d, y) > 0 && Length(Move(k, d, y)) >= 2
    ensures var e := Move(k, d, y);
            && y + e >= 0 && Slope(k, d, y + e) > 0
            && Move(k, d, y + e) <= 1 && 2 * Move(k, d, y + e) >= -(Length(e) as int) - 1
  {
    var e, m := Move(k, d, y), Slope(k, d, y);
    var next: nat := y + e;
    StepLeaves(k, d, y);
    FStep(k, d, y, e);
    SlopeSquared(k, d, y);
    AfterLongStep(e, m, F(k, d, y), F(k, d, next));
    NextMove(k, d, next, Length(e));
  }

  lemma NextMove(k: Coefficients, d: nat, y: nat, g: nat)
    requires Slope(k, d, y) > 0 && 2 * F(k, d, y) <= g * Slope(k, d, y) && -F(k, d, y) < 2 * Slope(k, d, y)
    ensures Move(k, d, y) <= 1 && 2 * Move(k, d, y) >= -(g as int) - 1
  {
    NumeratorIsSlopeLessF(k, d, y);
    FlooredStep(y, Slope(k, d, y), F(k, d, y), y * y + k.c);
    MoveBounds(g, Slope(k, d, y), F(k, d, y), Move(k, d, y));
  }

  function Pow2(n: nat): nat { if n == 0 then 1 else 2 * Pow2(n - 1) }

  /** Started anywhere with a positive slope, Newton's method answers within one step more than the bits of its first move. */
  lemma {:induction false} Converges(k: Coefficients, d: nat, y: nat, fuel: nat, bits: nat)
    requires Slope(k, d, y) > 0 && Length(Move(k, d, y)) <= Pow2(bits) && fuel > bits
    ensures Newton(k, d, y, fuel).Some?
    decreases bits
  {
    var e := Move(k, d, y);
    if !(-1 <= e <= 1) {
      StepHalves(k, d, y);
      Converges(k, d, y + e, fuel - 1, bits - 1);
    }
  }

  lemma FirstMove(k: Coefficients, d: nat, bits: nat)
    requires d + k.b >= 4 && d * d + k.c < 4 * Pow2(bits) && bits >= 2
    ensures Slope(k, d, d) > 0 && Length(Move(k, d, d)) <= Pow2(bits)
  {
    var m := d + k.b;
    var next := Over(d * d + k.c, m);
    DivBounds(d * d + k.c, m);
    assert next * 4 <= next * m by { MulMono(next, next, 4, m); }
    assert Pow2(bits) == 4 * Pow2(bits - 2) && Pow2(bits - 2) >= 1;
    if d > Pow2(bits) { MulMono(4, d, Pow2(bits), d); }
  }

  /**
   The solver answers whenever its first numerator fits a 256-bit word (take 254 bits) and the pool is more
   than dust: a zero divisor among the coefficients is the only way it can fail. In particular 255 iterations
   are always enough.
   */
  lemma SolverAnswersIff(xp: seq<nat>, i: nat, j: nat, x: nat, amp: nat, d: nat, bits: nat)
    requires 2 <= bits < MAX_ITERATIONS
    requires match CurveCoefficients(xp, i, j, x, amp, d) case None => true
             case Some(k) => d * d + k.c < 4 * Pow2(bits) && d + k.b >= 4
    ensures Solved(xp, i, j, x, amp, d).Some? <==> CurveCoefficients(xp, i, j, x, amp, d).Some?
  {
    match CurveCoefficients(xp, i, j, x, amp, d)
    case None =>
    case Some(k) =>
      FirstMove(k, d, bits);
      Converges(k, d, d, MAX_ITERATIONS, bits);
  }

  /** A zero divisor anywhere makes the whole product fail. */
  lemma {:induction false} ProductStaysNone(xp: seq<nat>, i: nat, j: nat, x: nat, d: nat, k: nat, m: nat)
    requires k <= m <= |xp| && InputProduct(xp, i, j, x, d, k) == None
    ensures InputProduct(xp, i, j, x, d, m) == None
    decreases m
  {
    if k < m { ProductStaysNone(xp, i, j, x, d, k, m - 1); }
  }

  // ---------------------------------------------------------------- D

  function SumOf(xp: seq<nat>, k: nat): nat
    requires k <= |xp|
  {
    if k == 0 then 0 else SumOf(xp, k - 1) + xp[k - 1]
  }

  /** D times D / (n x + 1) for the first k balances, floored at each factor. */
  function ProductOf(xp: seq<nat>, d: nat, k: nat): nat
    requires k <= |xp|
  {
    if k == 0 then d else Over(ProductOf(xp, d, k - 1) * d, xp[k - 1] * |xp| + 1)
  }

  function NextD(n: nat, ann: nat, s: nat, d: nat, p: nat): Option<nat> {
    if ann == 0 || (ann - 1) * d + (n + 1) * p == 0 then None
    else Some(Over((ann * s + p * n) * d, (ann - 1) * d + (n + 1) * p))
  }

  function NewtonD(xp: seq<nat>, ann: nat, s: nat, d: nat, fuel: nat): Option<nat>
    decreases fuel, s
  {
    if fuel == 0 then None
    else match NextD(|xp|, ann, s, d, ProductOf(xp, d, |xp|))
         case None => None
         case Some(next) => if -1 <= next - d <= 1 then Some(next) else NewtonD(xp, ann, s, next, fuel - 1)
  }

  /** What `_getD` returns; None where it reverts. */
  function SolveD(xp: seq<nat>, amp: nat): Option<nat> {
    var s := SumOf(xp, |xp|);
    if s == 0 then Some(0) else NewtonD(xp, amp * |xp|, s, s, MAX_ITERATIONS)
  }

  /** What `_getY` returns; None where it reverts. */
  function Answer(xp: seq<nat>, i: nat, j: nat, x: nat, amp: nat): Option<nat> {
    match SolveD(xp, amp)
    case None => None
    case Some(d) => Solved(xp, i, j, x, amp, d)
  }

  // ---------------------------------------------------------------- how good D is

  /** What the equation of D leaves over at z: positive below its root, negative above. */
  function Level(xp: seq<nat>, ann: nat, z: nat): int {
    ann * SumOf(xp, |xp|) - (ann - 1) * z - ProductOf(xp, z, |xp|)
  }

  /** The divisor of a step from z. */
  function StepDivisor(xp: seq<nat>, ann: nat, z: nat): int { (ann - 1) * z + (|xp| + 1) * ProductOf(xp, z, |xp|) }

  /** d is within one unit of a z at which what is left over, times z, is less than two divisors, in the direction of d. */
  ghost predicate NearD(xp: seq<nat>, ann: nat, d: nat, z: nat) {
    var m, e := StepDivisor(xp, ann, z), d - z;
    -1 <= e <= 1 && m > 0 && e * m <= z * Level(xp, ann, z) < (e + 1) * m
  }

  ghost predicate SolvesD(xp: seq<nat>, ann: nat, d: nat) { exists z: nat :: NearD(xp, ann, d, z) }

  lemma StepSplits(n: nat, ann: nat, s: nat, z: nat, p: nat, m: int, left: int)
    requires m == (ann - 1) * z + (n + 1) * p && left == ann * s - (ann - 1) * z - p
    ensures (ann * s + p * n) * z == z * m + z * left
  {
    assert m + left == ann * s + p * n by { assert (n + 1) * p == p * n + p; }
    Distributes(z, m, left);
  }

  lemma Distributes(z: int, a: int, b: int)
    ensures (a + b) * z == z * a + z * b
  {
  }

  lemma NextDIs(n: nat, ann: nat, s: nat, z: nat, p: nat, next: nat, m: int, left: int)
    requires NextD(n, ann, s, z, p) == Some(next)
    requires m == (ann - 1) * z + (n + 1) * p && left == ann * s - (ann - 1) * z - p
    ensures m > 0 && exists numerator: nat :: numerator == z * m + z * left && next == Over(numerator, m)
  {
    StepSplits(n, ann, s, z, p, m, left);
    var numerator: nat := (ann * s + p * n) * z;
    assert numerator == z * m + z * left;
    assert next == Over(numerator, m);
  }

  /** The exit test is enough here too. */
  lemma ExitTestSufficesForD(xp: seq<nat>, ann: nat, z: nat, next: nat)
    requires NextD(|xp|, ann, SumOf(xp, |xp|), z, ProductOf(xp, z, |xp|)) == Some(next) && -1 <= next - z <= 1
    ensures NearD(xp, ann, next, z)
  {
    var m, left := StepDivisor(xp, ann, z), Level(xp, ann, z);
    NextDIs(|xp|, ann, SumOf(xp, |xp|), z, ProductOf(xp, z, |xp|), next, m, left);
    var numerator: nat :| numerator == z * m + z * left && next == Over(numerator, m);
    FlooredStep(z, m, -(z * left), numerator);
  }

  /** So is every answer of the loop, whatever steps led to it. */
  lemma {:induction false} NewtonDSolves(xp: seq<nat>, ann: nat, z: nat, fuel: nat)
    requires NewtonD(xp, ann, SumOf(xp, |xp|), z, fuel).Some?
    ensures SolvesD(xp, ann, NewtonD(xp, ann, SumOf(xp, |xp|), z, fuel).value)
    decreases fuel
  {
    var next := NextD(|xp|, ann, SumOf(xp, |xp|), z, ProductOf(xp, z, |xp|)).value;
    if -1 <= next - z <= 1 { ExitTestSufficesForD(xp, ann, z, next); } else { NewtonDSolves(xp, ann, next, fuel - 1); }
  }

  /** Whenever `_getD` answers for a pool that is not empty, its answer solves the equation of D. */
  lemma AnswersSolveD(xp: seq<nat>, amp: nat)
    requires SolveD(xp, amp).Some? && SumOf(xp, |xp|) > 0
    ensures SolvesD(xp, amp * |xp|, SolveD(xp, amp).value)
  {
    NewtonDSolves(xp, amp * |xp|, SumOf(xp, |xp|), MAX_ITERATIONS);
  }

  lemma {:induction false} ProductGrows(xp: seq<nat>, t: nat, u: nat, k: nat)
    requires t <= u && k <= |xp|
    ensures ProductOf(xp, t, k) <= ProductOf(xp, u, k)
  {
    if k > 0 {
      ProductGrows(xp, t, u, k - 1);
      MulMono(ProductOf(xp, t, k - 1), ProductOf(xp, u, k - 1), t, u);
      DivMono(ProductOf(xp, t, k - 1) * t, ProductOf(xp, u, k - 1) * u, xp[k - 1] * |xp| + 1);
    }
  }

  /** What is left over falls by at least ann - 1 a unit, so it changes sign once. */
  lemma LevelFalls(xp: seq<nat>, ann: nat, t: nat, u: nat)
    requires t <= u
    ensures Level(xp, ann, u) <= Level(xp, ann, t) - (ann - 1) * (u - t)
  {
    ProductGrows(xp, t, u, |xp|);
    assert (ann - 1) * u == (ann - 1) * t + (ann - 1) * (u - t);
  }

  ghost predicate RootOfD(xp: seq<nat>, ann: nat, r: nat) { Level(xp, ann, r) >= 0 > Level(xp, ann, r + 1) }

  /** How far such a z can be from the root: two divisors over (ann - 1) z, rounded by a unit. */
  lemma RootIsNear(xp: seq<nat>, ann: nat, d: nat, z: nat, r: nat)
    requires NearD(xp, ann, d, z) && RootOfD(xp, ann, r) && ann > 0
    ensures z <= r ==> (ann - 1) * (r - z) * z <= 2 * StepDivisor(xp, ann, z)
    ensures z > r ==> (ann - 1) * (z - r - 1) * z <= StepDivisor(xp, ann, z)
  {
    var m, e, level := StepDivisor(xp, ann, z), d - z, Level(xp, ann, z);
    assert -m <= e * m && (e + 1) * m <= 2 * m by { if e == -1 {} else if e == 0 {} else {} }
    if z <= r {
      LevelFalls(xp, ann, z, r);
      ScaledBy((ann - 1) * (r - z), level, z);
    } else {
      LevelFalls(xp, ann, r + 1, z);
      ScaledBy((ann - 1) * (z - (r + 1)), -level, z);
    }
  }

  lemma ScaledBy(a: int, b: int, z: nat)
    requires a <= b
    ensures a * z <= z * b && z * -b == -(z * b)
  {
  }

  /** The floored product against the exact one: at most D^(k+1) over the product of the n x + 1, and how much less. */
  function Divisors(xp: seq<nat>, k: nat): (p: nat)
    requires k <= |xp|
    ensures p > 0
  {
    if k == 0 then 1 else Divisors(xp, k - 1) * (xp[k - 1] * |xp| + 1)
  }

  function PowerOf(d: nat, k: nat): nat { if k == 0 then 1 else PowerOf(d, k - 1) * d }

  /** What the floors can lose, over the product of the divisors. */
  function Lost(xp: seq<nat>, d: nat, k: nat): nat
    requires k <= |xp|
  {
    if k == 0 then 0 else Lost(xp, d, k - 1) * d + Divisors(xp, k)
  }

  lemma {:induction false} ProductBrackets(xp: seq<nat>, d: nat, k: nat)
    requires k <= |xp|
    ensures ProductOf(xp, d, k) * Divisors(xp, k) <= PowerOf(d, k + 1) <= ProductOf(xp, d, k) * Divisors(xp, k) + Lost(xp, d, k)
  {
    if k == 0 {
      assert PowerOf(d, 1) == PowerOf(d, 0) * d == d;
    } else {
      ProductBrackets(xp, d, k - 1);
      BracketStep(ProductOf(xp, d, k - 1), Divisors(xp, k - 1), PowerOf(d, k), Lost(xp, d, k - 1), d, xp[k - 1] * |xp| + 1);
    }
  }

  lemma BracketStep(p: nat, q: nat, power: nat, lost: nat, d: nat, b: nat)
    requires b > 0 && p * q <= power <= p * q + lost
    ensures Over(p * d, b) * (q * b) <= power * d <= Over(p * d, b) * (q * b) + (lost * d + q * b)
  {
    var next := Over(p * d, b);
    DivBounds(p * d, b);
    ScaledFloor(next, b, p * d, q);
    ScaledPower(p, q, power, lost, d);
  }

  lemma ScaledFloor(next: nat, b: nat, n: nat, q: nat)
    requires next * b <= n <= (next + 1) * b
    ensures next * (q * b) <= n * q <= next * (q * b) + q * b
  {
    MulMono(next * b, n, q, q);
    MulMono(n, (next + 1) * b, q, q);
    assert next * b * q == next * (q * b);
    assert (next + 1) * b * q == (next + 1) * (q * b);
  }

  lemma ScaledPower(p: nat, q: nat, power: nat, lost: nat, d: nat)
    requires p * q <= power <= p * q + lost
    ensures p * d * q <= power * d <= p * d * q + lost * d
  {
    MulMono(p * q, power, d, d);
    MulMono(power, p * q + lost, d, d);
    assert p * d * q == p * q * d;
  }

  method ProductLoop(xp: seq<nat>, d: nat) returns (p: nat)
    ensures p == ProductOf(xp, d, |xp|)
  {
    p := d;
    for i := 0 to |xp|
      invariant p == ProductOf(xp, d, i)
    {
      p := Over(p * d, xp[i] * |xp| + 1);
    }
  }

  /** `_getD`. */
  method GetD(xp: seq<nat>, amp: nat) returns (d: Option<nat>)
    ensures d == SolveD(xp, amp)
    ensures SumOf(xp, |xp|) == 0 ==> d == Some(0)
    ensures d.Some? && SumOf(xp, |xp|) > 0 ==> SolvesD(xp, amp * |xp|, d.value)
  {
    if SolveD(xp, amp).Some? && SumOf(xp, |xp|) > 0 { AnswersSolveD(xp, amp); }
    var s := 0;
    for i := 0 to |xp|
      invariant s == SumOf(xp, i)
    {
      s := s + xp[i];
    }
    if s == 0 { return Some(0); }
    var ann := amp * |xp|;
    var z: nat := s;
    for iter := 0 to MAX_ITERATIONS
      invariant NewtonD(xp, ann, s, z, MAX_ITERATIONS - iter) == NewtonD(xp, ann, s, s, MAX_ITERATIONS)
    {
      var p := ProductLoop(xp, z);
      var next := NextD(|xp|, ann, s, z, p);
      if next == None { return None; }
      if -1 <= next.value - z <= 1 { return next; }
      z := next.value;
    }
    return None;
  }

  // ---------------------------------------------------------------- the solver

  method GetCoefficients(xp: seq<nat>, i: nat, j: nat, x: nat, amp: nat, d: nat) returns (k: Option<Coefficients>)
    ensures k == CurveCoefficients(xp, i, j, x, amp, d)
  {
    var n := |xp|;
    var ann := amp * n;
    var c, s := d, 0;
    for k := 0 to n
      invariant s == InputSum(xp, i, j, x, k)
      invariant InputProduct(xp, i, j, x, d, k) == Some(c)
    {
      var v;
      if k == i { v := x; } else if k != j { v := xp[k]; } else { continue; }
      s := s + v;
      if v * n == 0 {
        ProductStaysNone(xp, i, j, x, d, k + 1, n);
        return None;
      }
      c := Over(c * d, v * n);
    }
    if ann * n == 0 { return None; }
    return Some(Coefficients(s + Over(d, ann), Over(c * d, ann * n)));
  }

  /** The loop of Newton's method, from D. */
  method Iterate(k: Coefficients, d: nat) returns (y: Option<nat>)
    ensures y == Newton(k, d, d, MAX_ITERATIONS)
  {
    var z: nat := d;
    for iter := 0 to MAX_ITERATIONS
      invariant Newton(k, d, z, MAX_ITERATIONS - iter) == Newton(k, d, d, MAX_ITERATIONS)
    {
      var prev: nat := z;
      if 2 * z + k.b <= d { return None; }
      z := Over(z * z + k.c, 2 * z + k.b - d);
      if -1 <= z - prev <= 1 { return Some(z); }
    }
    return None;
  }

  /** `_getY`: D, the coefficient loop, then Newton's method with its exit test. */
  method GetY(xp: seq<nat>, i: nat, j: nat, x: nat, amp: nat) returns (y: Option<nat>, d: Option<nat>)
    ensures d == SolveD(xp, amp) && y == Answer(xp, i, j, x, amp)
    ensures y.Some? ==> d.Some? && CurveCoefficients(xp, i, j, x, amp, d.value).Some?
                        && SolvesCurve(CurveCoefficients(xp, i, j, x, amp, d.value).value, d.value, y.value)
  {
    y := None;
    d := GetD(xp, amp);
    if d == None { return; }
    var k := GetCoefficients(xp, i, j, x, amp, d.value);
    if k == None { return; }
    y := Iterate(k.value, d.value);
    if y.Some? { AnswersSolveCurve(xp, i, j, x, amp, d.value); }
  }
}

/** Who owns the tokens of a stable pool: the liquidity balances, the admin's fees, and what is held. */
module StableLedger {
  import opened Options
  import opened Numbers
  import opened StableCurve

  const FEE_DENOMINATOR := 10000000000
  const MAX_FEE := 500000000
  const MAX_ADMIN_FEE := 10000000000

  function Pow10(n: nat): (r: nat)
    ensures r > 0
  {
    if n == 0 then 1 else 10 * Pow10(n - 1)
  }

  function Times(a: nat, b: nat): nat { a * b }

  function ScaleUp(amount: nat, digits: nat): nat { Times(amount, Pow10(digits)) }

  function ScaleDown(amount: nat, digits: nat): nat { Over(amount, Pow10(digits)) }

  /** `_normalize`: token units to 18 decimals. */
  function Normalize(amount: nat, decimals: nat): nat {
    if decimals < 18 then ScaleUp(amount, 18 - decimals)
    else if decimals > 18 then ScaleDown(amount, decimals - 18)
    else amount
  }

  /** `_denormalize`: 18 decimals to token units. */
  function Denormalize(amount: nat, decimals: nat): nat {
    if decimals < 18 then ScaleDown(amount, 18 - decimals)
    else if decimals > 18 then ScaleUp(amount, decimals - 18)
    else amount
  }

  /** One token of the pool: recorded balance and admin fees at 18 decimals, tokens held in token units. */
  datatype Slot = Slot(balance: nat, admin: nat, held: nat)

  datatype Ledger = Ledger(decimals: seq<nat>, slots: seq<Slot>, fee: nat, adminFee: nat, supply: nat, killed: bool)

  /** Operations with the values the Newton solvers returned in them: y, the ideal balances, dy, LP amounts. */
  datatype Op =
    | Exchange(i: nat, j: nat, dx: nat, y: nat)
    | AddLiquidity(amounts: seq<nat>, ideal: seq<nat>, minted: nat)
    | RemoveLiquidity(amount: nat)
    | RemoveLiquidityOneCoin(tokenAmount: nat, i: nat, dy: nat, dyFee: nat)
    | RemoveLiquidityImbalance(amounts: seq<nat>, ideal: seq<nat>, burned: nat)
    | CollectAdminFees
    | SetFee(rate: nat)
    | SetAdminFee(rate: nat)
    | SetKilled(value: bool)
    | SendTokens(i: nat, amount: nat)

  // ---------------------------------------------------------------- one token of one operation

  function Portion(amount: nat, rate: nat): nat { amount * rate / FEE_DENOMINATOR }

  /** The fee on the distance of a balance from its ideal. */
  function ImbalanceFee(rate: nat, ideal: nat, balance: nat): nat {
    Portion(if ideal > balance then ideal - balance else balance - ideal, rate)
  }

  function Received(s: Slot, decimals: nat, amount: nat): Slot {
    s.(balance := s.balance + Normalize(amount, decimals), held := s.held + amount)
  }

  function Paid(s: Slot, amount: nat): Option<Slot> {
    if amount > s.held then None else Some(s.(held := s.held - amount))
  }

  /** The bought side of `_exchange`: note the admin share added to both records. */
  function Bought(s: Slot, decimals: nat, y: nat, fee: nat, adminFee: nat): Option<Slot> {
    if s.balance < y + 1 then None
    else
      var gross := s.balance - y - 1;
      var dyFee := Portion(gross, fee);
      if dyFee > gross then None
      else
        var share := Portion(dyFee, adminFee);
        Paid(Slot(y + share, s.admin + share, s.held), Denormalize(gross - dyFee, decimals))
  }

  function Added(s: Slot, decimals: nat, amount: nat, ideal: nat, rate: nat, adminFee: nat, first: bool): Option<Slot> {
    var r := Received(s, decimals, amount);
    if first then Some(r)
    else
      var fee := ImbalanceFee(rate, ideal, r.balance);
      if fee > r.balance then None
      else Some(r.(balance := r.balance - fee, admin := r.admin + Portion(fee, adminFee)))
  }

  function Redeemed(s: Slot, decimals: nat, amount: nat, supply: nat): Option<Slot>
    requires supply > 0
  {
    var value := Share(s.balance, amount, supply);
    if value > s.balance then None
    else Paid(s.(balance := s.balance - value), Denormalize(value, decimals))
  }

  function TakenOne(s: Slot, decimals: nat, dy: nat, dyFee: nat, adminFee: nat): Option<Slot> {
    var share := Portion(dyFee, adminFee);
    if dy + share > s.balance then None
    else Paid(s.(balance := s.balance - (dy + share), admin := s.admin + share), Denormalize(dy, decimals))
  }

  function TakenExact(s: Slot, decimals: nat, amount: nat, ideal: nat, rate: nat, adminFee: nat): Option<Slot> {
    if Normalize(amount, decimals) > s.balance then None
    else
      var left := s.balance - Normalize(amount, decimals);
      var fee := ImbalanceFee(rate, ideal, left);
      if fee > left then None
      else Paid(s.(balance := left - fee, admin := s.admin + Portion(fee, adminFee)), amount)
  }

  function Collected(s: Slot, decimals: nat): Option<Slot> {
    var amount := Denormalize(s.admin, decimals);
    if amount == 0 then Some(s) else Paid(s.(admin := 0), amount)
  }

  // ---------------------------------------------------------------- whole operations

  /** A pool of two to four tokens, as the constructor insists. */
  predicate WellFormed(l: Ledger) {
    2 <= |l.slots| <= 4 && |l.decimals| == |l.slots| && l.fee <= MAX_FEE && l.adminFee <= MAX_ADMIN_FEE
  }

  function ImbalanceRate(l: Ledger): nat
    requires WellFormed(l)
  {
    l.fee * |l.slots| / (4 * (|l.slots| - 1))
  }

  /** What operation op does to token k, for the operations that touch every token. */
  function Touched(l: Ledger, op: Op, k: nat): Option<Slot>
    requires WellFormed(l) && k < |l.slots|
    requires op.AddLiquidity? || op.RemoveLiquidityImbalance? ==> |op.amounts| == |op.ideal| == |l.slots|
    requires op.RemoveLiquidity? ==> l.supply > 0
  {
    var s, d := l.slots[k], l.decimals[k];
    match op
    case AddLiquidity(amounts, ideal, _) => Added(s, d, amounts[k], ideal[k], ImbalanceRate(l), l.adminFee, l.supply == 0)
    case RemoveLiquidity(amount) => Redeemed(s, d, amount, l.supply)
    case RemoveLiquidityImbalance(amounts, ideal, _) => TakenExact(s, d, amounts[k], ideal[k], ImbalanceRate(l), l.adminFee)
    case CollectAdminFees => Collected(s, d)
    case _ => Some(s)
  }

  predicate AllTouched(l: Ledger, op: Op)
    requires WellFormed(l)
    requires op.AddLiquidity? || op.RemoveLiquidityImbalance? ==> |op.amounts| == |op.ideal| == |l.slots|
    requires op.RemoveLiquidity? ==> l.supply > 0
  {
    forall k :: 0 <= k < |l.slots| ==> Touched(l, op, k).Some?
  }

  function TouchAll(l: Ledger, op: Op): seq<Slot>
    requires WellFormed(l)
    requires op.AddLiquidity? || op.RemoveLiquidityImbalance? ==> |op.amounts| == |op.ideal| == |l.slots|
    requires op.RemoveLiquidity? ==> l.supply > 0
    requires AllTouched(l, op)
  {
    seq(|l.slots|, k requires 0 <= k < |l.slots| => Touched(l, op, k).value)
  }

  /** The state after a committed operation; None when it reverts. */
  function Apply(l: Ledger, op: Op): Option<Ledger>
    requires WellFormed(l)
  {
    match op
    case Exchange(i, j, dx, y) =>
      if l.killed || dx == 0 || i >= |l.slots| || j >= |l.slots| || i == j then None
      else
        (match Bought(l.slots[j], l.decimals[j], y, l.fee, l.adminFee)
         case None => None
         case Some(out) => Some(l.(slots := l.slots[i := Received(l.slots[i], l.decimals[i], dx)][j := out])))
    case AddLiquidity(amounts, ideal, minted) =>
      if l.killed || |amounts| != |l.slots| || |ideal| != |l.slots| || !AllTouched(l, op) then None
      else Some(l.(slots := TouchAll(l, op), supply := l.supply + minted))
    case RemoveLiquidity(amount) =>
      if l.supply == 0 || amount > l.supply || !AllTouched(l, op) then None
      else Some(l.(slots := TouchAll(l, op), supply := l.supply - amount))
    case RemoveLiquidityOneCoin(tokenAmount, i, dy, dyFee) =>
      if i >= |l.slots| || tokenAmount > l.supply then None
      else
        (match TakenOne(l.slots[i], l.decimals[i], dy, dyFee, l.adminFee)
         case None => None
         case Some(s) => Some(l.(slots := l.slots[i := s], supply := l.supply - tokenAmount)))
    case RemoveLiquidityImbalance(amounts, ideal, burned) =>
      if |amounts| != |l.slots| || |ideal| != |l.slots| || burned > l.supply || !AllTouched(l, op) then None
      else Some(l.(slots := TouchAll(l, op), supply := l.supply - burned))
    case CollectAdminFees =>
      if !AllTouched(l, op) then None else Some(l.(slots := TouchAll(l, op)))
    case SetFee(rate) => if rate > MAX_FEE then None else Some(l.(fee := rate))
    case SetAdminFee(rate) => if rate > MAX_ADMIN_FEE then None else Some(l.(adminFee := rate))
    case SetKilled(value) => Some(l.(killed := value))
    case SendTokens(i, amount) =>
      if i >= |l.slots| then None
      else Some(l.(slots := l.slots[i := l.slots[i].(held := l.slots[i].held + amount)]))
  }

  function BalancesOf(slots: seq<Slot>): (b: seq<nat>)
    ensures |b| == |slots|
  {
    seq(|slots|, k requires 0 <= k < |slots| => slots[k].balance)
  }

  /** `exchange`: y is what `_getY` returns for the recorded balances. */
  function Exchanged(l: Ledger, i: nat, j: nat, dx: nat, amp: nat): Option<Ledger>
    requires WellFormed(l)
  {
    if i >= |l.slots| || j >= |l.slots| then None
    else match Answer(BalancesOf(l.slots), i, j, l.slots[i].balance + Normalize(dx, l.decimals[i]), amp)
         case None => None
         case Some(y) => Apply(l, Exchange(i, j, dx, y))
  }

  /** The balances an exact withdrawal leaves before its fees. */
  function Left(l: Ledger, amounts: seq<nat>): (b: seq<nat>)
    requires |amounts| == |l.slots| == |l.decimals|
    ensures |b| == |amounts|
  {
    seq(|amounts|, k requires 0 <= k < |amounts| =>
      var amount := Normalize(amounts[k], l.decimals[k]);
      if amount <= l.slots[k].balance then l.slots[k].balance - amount else 0)
  }

  /** The balances a deposit makes before its fees. */
  function Filled(l: Ledger, amounts: seq<nat>): (b: seq<nat>)
    requires |amounts| == |l.slots| == |l.decimals|
    ensures |b| == |amounts|
  {
    seq(|amounts|, k requires 0 <= k < |amounts| => l.slots[k].balance + Normalize(amounts[k], l.decimals[k]))
  }

  /** Balances scaled from one invariant to another. */
  function Ideals(b: seq<nat>, d1: nat, d0: nat): (r: seq<nat>)
    requires d0 > 0
    ensures |r| == |b|
  {
    seq(|b|, k requires 0 <= k < |b| => Share(b[k], d1, d0))
  }

  /** `addLiquidity` with the numbers its three calls of the D solver give it; None when it reverts over them. */
  function DepositOp(l: Ledger, amounts: seq<nat>, amp: nat): Option<Op>
    requires WellFormed(l)
  {
    if |amounts| != |l.slots| then None
    else match (if l.supply > 0 then SolveD(BalancesOf(l.slots), amp) else Some(0), SolveD(Filled(l, amounts), amp))
         case (Some(d0), Some(d1)) =>
           if d1 <= d0 then None
           else if l.supply == 0 then Some(AddLiquidity(amounts, BalancesOf(l.slots), d1))
           else if d0 == 0 then None
           else MintOp(l, AddLiquidity(amounts, Ideals(BalancesOf(l.slots), d1, d0), 0), d0, amp)
         case _ => None
  }

  /** The shares a deposit is worth once its fees are taken. */
  function MintOp(l: Ledger, op: Op, d0: nat, amp: nat): Option<Op>
    requires WellFormed(l) && op.AddLiquidity? && |op.amounts| == |op.ideal| == |l.slots| && d0 > 0
  {
    if !AllTouched(l, op) then None
    else match SolveD(BalancesOf(TouchAll(l, op)), amp)
         case None => None
         case Some(d2) => if d2 < d0 then None else Some(op.(minted := Share(l.supply, d2 - d0, d0)))
  }

  /** `removeLiquidityImbalance` with the numbers of its solver calls. */
  function ImbalanceOp(l: Ledger, amounts: seq<nat>, amp: nat): Option<Op>
    requires WellFormed(l)
  {
    if |amounts| != |l.slots| then None
    else match (SolveD(BalancesOf(l.slots), amp), SolveD(Left(l, amounts), amp))
         case (Some(d0), Some(d1)) =>
           if d0 == 0 then None
           else BurnOp(l, RemoveLiquidityImbalance(amounts, Ideals(BalancesOf(l.slots), d1, d0), 0), d0, amp)
         case _ => None
  }

  function BurnOp(l: Ledger, op: Op, d0: nat, amp: nat): Option<Op>
    requires WellFormed(l) && op.RemoveLiquidityImbalance? && |op.amounts| == |op.ideal| == |l.slots| && d0 > 0
  {
    if !AllTouched(l, op) then None
    else match SolveD(BalancesOf(TouchAll(l, op)), amp)
         case None => None
         case Some(d2) => if d2 > d0 then None else Some(op.(burned := Share(l.supply, d0 - d2, d0) + 1))
  }

  /** Entry k of `xpReduced`: the balance less the fee on how far it will be from its ideal. */
  function ReducedAt(xp: seq<nat>, i: nat, k: nat, d0: nat, d1: nat, rate: nat, amp: nat): Option<nat>
    requires k < |xp| && d0 > 0
  {
    match ExpectedAt(xp, i, k, d0, d1, amp)
    case None => None
    case Some(dx) => if Portion(dx, rate) > xp[k] then None else Some(xp[k] - Portion(dx, rate))
  }

  /** `dxExpected`. The y solver is always asked with token 0 as the input. */
  function ExpectedAt(xp: seq<nat>, i: nat, k: nat, d0: nat, d1: nat, amp: nat): Option<nat>
    requires k < |xp| && d0 > 0
  {
    var ideal := Share(xp[k], d1, d0);
    if k == i then
      match Answer(xp, 0, k, d1, amp)
      case None => None
      case Some(y) => if y > ideal then None else Some(ideal - y)
    else if ideal > xp[k] then None else Some(xp[k] - ideal)
  }

  predicate AllReduced(xp: seq<nat>, i: nat, d0: nat, d1: nat, rate: nat, amp: nat)
    requires d0 > 0
  {
    forall k :: 0 <= k < |xp| ==> ReducedAt(xp, i, k, d0, d1, rate, amp).Some?
  }

  /** `_calcWithdrawOneCoinWithFee` once D0 and D1 are known: dy and its fee. */
  function OneCoin(xp: seq<nat>, i: nat, d0: nat, d1: nat, rate: nat, amp: nat): Option<(nat, nat)>
    requires i < |xp| && d0 > 0
  {
    if !AllReduced(xp, i, d0, d1, rate, amp) then None
    else
      var reduced := seq(|xp|, k requires 0 <= k < |xp| => ReducedAt(xp, i, k, d0, d1, rate, amp).value);
      OneCoinFrom(xp, reduced, i, d1, amp)
  }

  function OneCoinFrom(xp: seq<nat>, reduced: seq<nat>, i: nat, d1: nat, amp: nat): Option<(nat, nat)>
    requires i < |xp| == |reduced|
  {
    match (Answer(reduced, 0, i, d1, amp), Answer(xp, 0, i, d1, amp))
    case (Some(y), Some(plain)) =>
      if reduced[i] < y + 1 || xp[i] < plain || xp[i] - plain < reduced[i] - y - 1 then None
      else Some((reduced[i] - y - 1, xp[i] - plain - (reduced[i] - y - 1)))
    case _ => None
  }

  lemma OneCoinIs(xp: seq<nat>, reduced: seq<nat>, i: nat, d0: nat, d1: nat, rate: nat, amp: nat)
    requires i < |xp| == |reduced| && d0 > 0
    requires forall k :: 0 <= k < |xp| ==> ReducedAt(xp, i, k, d0, d1, rate, amp) == Some(reduced[k])
    ensures OneCoin(xp, i, d0, d1, rate, amp) == OneCoinFrom(xp, reduced, i, d1, amp)
  {
    assert reduced == seq(|xp|, k requires 0 <= k < |xp| => ReducedAt(xp, i, k, d0, d1, rate, amp).value);
  }

  /** `removeLiquidityOneCoin` with the numbers of its solver calls. */
  function OneCoinOp(l: Ledger, tokenAmount: nat, i: nat, amp: nat): Option<Op>
    requires WellFormed(l)
  {
    var xp := BalancesOf(l.slots);
    match SolveD(xp, amp)
    case None => None
    case Some(d0) =>
      if i >= |xp| || l.supply == 0 || d0 == 0 || Share(tokenAmount, d0, l.supply) > d0 then None
      else match OneCoin(xp, i, d0, d0 - Share(tokenAmount, d0, l.supply), ImbalanceRate(l), amp)
           case None => None
           case Some(r) => Some(RemoveLiquidityOneCoin(tokenAmount, i, r.0, r.1))
  }

  /** The operation the solvers make of a call, applied. */
  function Performed(l: Ledger, op: Option<Op>): Option<Ledger>
    requires WellFormed(l)
  {
    match op case None => None case Some(o) => Apply(l, o)
  }

  /** What happens to the tokens does not depend on the shares minted or burned. */
  lemma TouchIgnoresSupply(l: Ledger, op: Op, other: Op)
    requires WellFormed(l) && (op.AddLiquidity? || op.RemoveLiquidityImbalance?) && |op.amounts| == |op.ideal| == |l.slots|
    requires other == (if op.AddLiquidity? then op.(minted := if other.AddLiquidity? then other.minted else 0)
                       else op.(burned := if other.RemoveLiquidityImbalance? then other.burned else 0))
    ensures AllTouched(l, op) <==> AllTouched(l, other)
    ensures AllTouched(l, op) ==> TouchAll(l, op) == TouchAll(l, other)
  {
    assert forall k :: 0 <= k < |l.slots| ==> Touched(l, op, k) == Touched(l, other, k);
  }

  /** Deciding the shares after the tokens have moved gives the same state as knowing them before. */
  lemma SupplyFollows(l: Ledger, op: Op, other: Op)
    requires WellFormed(l) && (op.AddLiquidity? || op.RemoveLiquidityImbalance?) && Apply(l, op).Some?
    requires if op.AddLiquidity? then op.minted == 0 && other.AddLiquidity? && other == op.(minted := other.minted)
             else op.burned == 0 && other.RemoveLiquidityImbalance? && other == op.(burned := other.burned) && other.burned <= l.supply
    ensures Apply(l, other) == Some(Apply(l, op).value.(supply := if op.AddLiquidity? then l.supply + other.minted else l.supply - other.burned))
  {
    TouchIgnoresSupply(l, op, other);
  }

  lemma ApplyWellFormed(l: Ledger, op: Op)
    requires WellFormed(l) && Apply(l, op).Some?
    ensures WellFormed(Apply(l, op).value) && Apply(l, op).value.decimals == l.decimals
  {
  }

  function Run(l: Ledger, ops: seq<Op>): Ledger
    requires WellFormed(l)
    decreases |ops|
  {
    if ops == [] then l
    else match Apply(l, ops[0])
         case None => Run(l, ops[1..])
         case Some(q) => ApplyWellFormed(l, ops[0]); Run(q, ops[1..])
  }

  // ---------------------------------------------------------------- solvency

  /** Tokens held, scaled to 18 decimals, cover what is recorded for the pool and for the admin. */
  ghost predicate Covered(s: Slot, decimals: nat) {
    Normalize(s.held, decimals) >= s.balance + s.admin
  }

  ghost predicate Solvent(l: Ledger)
    requires WellFormed(l)
  {
    forall k :: 0 <= k < |l.slots| ==> Covered(l.slots[k], l.decimals[k])
  }

  /** The admin takes at most half of each fee. */
  const HALF := 5000000000

  ghost predicate SafeConfig(l: Ledger) {
    l.adminFee <= HALF && forall k :: 0 <= k < |l.decimals| ==> l.decimals[k] <= 18
  }

  lemma NormalizeAdds(a: nat, b: nat, decimals: nat)
    requires decimals <= 18
    ensures Normalize(a + b, decimals) == Normalize(a, decimals) + Normalize(b, decimals)
  {
  }

  /** Converting down and paying that out never costs more than the recorded amount. */
  lemma DenormalizeFloors(amount: nat, decimals: nat)
    requires decimals <= 18
    ensures Normalize(Denormalize(amount, decimals), decimals) <= amount
  {
    DivBounds(amount, Pow10(18 - decimals));
  }

  /** Paying within the recorded cover is always possible, and lowers the cover by exactly that much. */
  lemma PayingIsCovered(s: Slot, decimals: nat, amount: nat)
    requires decimals <= 18 && Normalize(amount, decimals) <= Normalize(s.held, decimals)
    ensures Paid(s, amount).Some?
    ensures Normalize(Paid(s, amount).value.held, decimals) == Normalize(s.held, decimals) - Normalize(amount, decimals)
  {
    MulCancel(amount, s.held, Pow10(18 - decimals));
    NormalizeAdds(s.held - amount, amount, decimals);
  }

  lemma PortionAtMost(amount: nat, rate: nat)
    requires rate <= FEE_DENOMINATOR
    ensures Portion(amount, rate) <= amount
  {
    ShareAtMost(amount, rate, FEE_DENOMINATOR);
  }

  /** Twice a share of at most half is at most the fee it came from. */
  lemma TwiceHalf(dyFee: nat, adminFee: nat)
    requires adminFee <= HALF
    ensures 2 * Portion(dyFee, adminFee) <= dyFee
  {
    DivBounds(dyFee * adminFee, FEE_DENOMINATOR);
    MulMono(dyFee, dyFee, adminFee, HALF);
  }

  lemma BoughtCovered(s: Slot, decimals: nat, y: nat, fee: nat, adminFee: nat)
    requires decimals <= 18 && Covered(s, decimals) && Bought(s, decimals, y, fee, adminFee).Some? && adminFee <= HALF
    ensures Covered(Bought(s, decimals, y, fee, adminFee).value, decimals)
  {
    var gross := s.balance - y - 1;
    var dyFee := Portion(gross, fee);
    TwiceHalf(dyFee, adminFee);
    DenormalizeFloors(gross - dyFee, decimals);
    PayingIsCovered(s, decimals, Denormalize(gross - dyFee, decimals));
  }

  /** Exchanges keep every covered token covered exactly when the admin's part is at most half. */
  lemma ExchangeSolventIffHalf(adminFee: nat)
    ensures (forall s: Slot, y: nat, fee: nat :: fee <= MAX_FEE && Covered(s, 18) && Bought(s, 18, y, fee, adminFee).Some?
               ==> Covered(Bought(s, 18, y, fee, adminFee).value, 18))
            <==> adminFee <= HALF
  {
    if adminFee <= HALF {
      forall s: Slot, y: nat, fee: nat | fee <= MAX_FEE && Covered(s, 18) && Bought(s, 18, y, fee, adminFee).Some?
        ensures Covered(Bought(s, 18, y, fee, adminFee).value, 18)
      {
        BoughtCovered(s, 18, y, fee, adminFee);
      }
    } else {
      var gross := 20 * FEE_DENOMINATOR;
      var s := Slot(gross + 1, 0, gross + 1);
      DivUnique(gross * MAX_FEE, FEE_DENOMINATOR, FEE_DENOMINATOR);
      DivUnique(FEE_DENOMINATOR * adminFee, FEE_DENOMINATOR, adminFee);
      assert Portion(gross, MAX_FEE) == FEE_DENOMINATOR && Portion(FEE_DENOMINATOR, adminFee) == adminFee;
      assert Covered(s, 18) && Bought(s, 18, 0, MAX_FEE, adminFee) == Some(Slot(adminFee, adminFee, 1 + FEE_DENOMINATOR));
    }
  }

  lemma AddedCovered(s: Slot, decimals: nat, amount: nat, ideal: nat, rate: nat, adminFee: nat, first: bool)
    requires decimals <= 18 && Covered(s, decimals) && adminFee <= FEE_DENOMINATOR
    requires Added(s, decimals, amount, ideal, rate, adminFee, first).Some?
    ensures Covered(Added(s, decimals, amount, ideal, rate, adminFee, first).value, decimals)
  {
    NormalizeAdds(s.held, amount, decimals);
    PortionAtMost(ImbalanceFee(rate, ideal, Received(s, decimals, amount).balance), adminFee);
  }

  /** A proportional withdrawal within the supply always goes through. */
  lemma RedeemedCovered(s: Slot, decimals: nat, amount: nat, supply: nat)
    requires decimals <= 18 && Covered(s, decimals) && supply > 0 && amount <= supply
    ensures Redeemed(s, decimals, amount, supply).Some?
    ensures Covered(Redeemed(s, decimals, amount, supply).value, decimals)
  {
    ShareAtMost(s.balance, amount, supply);
    var value := Share(s.balance, amount, supply);
    DenormalizeFloors(value, decimals);
    PayingIsCovered(s.(balance := s.balance - value), decimals, Denormalize(value, decimals));
  }

  lemma TakenOneCovered(s: Slot, decimals: nat, dy: nat, dyFee: nat, adminFee: nat)
    requires decimals <= 18 && Covered(s, decimals) && TakenOne(s, decimals, dy, dyFee, adminFee).Some?
    ensures Covered(TakenOne(s, decimals, dy, dyFee, adminFee).value, decimals)
  {
    DenormalizeFloors(dy, decimals);
    PayingIsCovered(s, decimals, Denormalize(dy, decimals));
  }

  lemma TakenExactCovered(s: Slot, decimals: nat, amount: nat, ideal: nat, rate: nat, adminFee: nat)
    requires decimals <= 18 && Covered(s, decimals) && adminFee <= FEE_DENOMINATOR
    requires TakenExact(s, decimals, amount, ideal, rate, adminFee).Some?
    ensures Covered(TakenExact(s, decimals, amount, ideal, rate, adminFee).value, decimals)
  {
    PayingIsCovered(s, decimals, amount);
    PortionAtMost(ImbalanceFee(rate, ideal, s.balance - Normalize(amount, decimals)), adminFee);
  }

  /** Collecting the admin's fees always goes through. */
  lemma CollectedCovered(s: Slot, decimals: nat)
    requires decimals <= 18 && Covered(s, decimals)
    ensures Collected(s, decimals).Some? && Covered(Collected(s, decimals).value, decimals)
  {
    DenormalizeFloors(s.admin, decimals);
    PayingIsCovered(s, decimals, Denormalize(s.admin, decimals));
  }

  /** Every committed operation keeps the pool solvent, whatever the solvers returned. */
  lemma StepSolvent(l: Ledger, op: Op)
    requires WellFormed(l) && Solvent(l) && SafeConfig(l) && Apply(l, op).Some?
    ensures WellFormed(Apply(l, op).value) && Solvent(Apply(l, op).value)
  {
    var q := Apply(l, op).value;
    forall k | 0 <= k < |q.slots| ensures Covered(q.slots[k], q.decimals[k]) {
      var s, d := l.slots[k], l.decimals[k];
      assert Covered(s, d);
      match op
      case Exchange(i, j, dx, y) =>
        if k == j { BoughtCovered(s, d, y, l.fee, l.adminFee); } else if k == i { NormalizeAdds(s.held, dx, d); }
      case AddLiquidity(amounts, ideal, _) =>
        assert Touched(l, op, k).Some?;
        AddedCovered(s, d, amounts[k], ideal[k], ImbalanceRate(l), l.adminFee, l.supply == 0);
      case RemoveLiquidity(amount) => RedeemedCovered(s, d, amount, l.supply);
      case RemoveLiquidityOneCoin(_, i, dy, dyFee) => if k == i { TakenOneCovered(s, d, dy, dyFee, l.adminFee); }
      case RemoveLiquidityImbalance(amounts, ideal, _) =>
        assert Touched(l, op, k).Some?;
        TakenExactCovered(s, d, amounts[k], ideal[k], ImbalanceRate(l), l.adminFee);
      case CollectAdminFees => CollectedCovered(s, d);
      case SendTokens(i, amount) => NormalizeAdds(s.held, amount, d);
      case _ =>
    }
  }

  /** A call that may commit: if it does, a safely configured pool stays solvent. */
  lemma CallSolvent(l: Ledger, op: Op)
    requires WellFormed(l)
    ensures Solvent(l) && SafeConfig(l) && Apply(l, op).Some? ==> WellFormed(Apply(l, op).value) && Solvent(Apply(l, op).value)
  {
    if Solvent(l) && SafeConfig(l) && Apply(l, op).Some? { StepSolvent(l, op); }
  }

  lemma PerformedSolvent(l: Ledger, op: Option<Op>)
    requires WellFormed(l)
    ensures Solvent(l) && SafeConfig(l) && Performed(l, op).Some? ==> WellFormed(Performed(l, op).value) && Solvent(Performed(l, op).value)
  {
    if op.Some? { CallSolvent(l, op.value); }
  }

  /** Whatever runs, with the admin fee kept at no more than half, the pool stays solvent. */
  lemma {:induction false} RunSolvent(l: Ledger, ops: seq<Op>)
    requires WellFormed(l) && Solvent(l) && SafeConfig(l)
    requires forall op :: op in ops && op.SetAdminFee? ==> op.rate <= HALF
    ensures WellFormed(Run(l, ops)) && Solvent(Run(l, ops))
    decreases |ops|
  {
    if ops != [] {
      match Apply(l, ops[0])
      case None => RunSolvent(l, ops[1..]);
      case Some(q) =>
        StepSolvent(l, ops[0]);
        ApplyWellFormed(l, ops[0]);
        assert ops[0] in ops;
        RunSolvent(q, ops[1..]);
    }
  }

  /** So no exit is ever blocked by missing tokens: proportional withdrawal and fee collection commit. */
  lemma ExitsAlwaysPaid(l: Ledger, ops: seq<Op>, amount: nat)
    requires WellFormed(l) && Solvent(l) && SafeConfig(l)
    requires forall op :: op in ops && op.SetAdminFee? ==> op.rate <= HALF
    ensures WellFormed(Run(l, ops))
    ensures 0 < amount <= Run(l, ops).supply ==> Apply(Run(l, ops), RemoveLiquidity(amount)).Some?
    ensures Apply(Run(l, ops), CollectAdminFees).Some?
  {
    RunSolvent(l, ops);
    RunDecimals(l, ops);
    var q := Run(l, ops);
    forall k | 0 <= k < |q.slots| ensures Touched(q, CollectAdminFees, k).Some? {
      CollectedCovered(q.slots[k], q.decimals[k]);
    }
    if 0 < amount <= q.supply {
      forall k | 0 <= k < |q.slots| ensures Touched(q, RemoveLiquidity(amount), k).Some? {
        RedeemedCovered(q.slots[k], q.decimals[k], amount, q.supply);
      }
    }
  }

  lemma {:induction false} RunDecimals(l: Ledger, ops: seq<Op>)
    requires WellFormed(l)
    ensures Run(l, ops).decimals == l.decimals
    decreases |ops|
  {
    if ops != [] {
      match Apply(l, ops[0])
      case None => RunDecimals(l, ops[1..]);
      case Some(q) => ApplyWellFormed(l, ops[0]); RunDecimals(q, ops[1..]);
    }
  }
}

/** The pool object, with the per-token loops of the source. */
module StableContract {
  import opened Options
  import opened Numbers
  import opened StableCurve
  import opened StableLedger

  class StableSwap {
    const tokenDecimals: seq<nat>
    var balances: seq<nat>
    var adminBalances: seq<nat>
    var tokenHeld: seq<nat> // balanceOf(this) of each token
    var fee: nat
    var adminFee: nat
    var supply: nat
    var isKilled: bool

    predicate Shaped()
      reads this
    {
      |balances| == |adminBalances| == |tokenHeld| == |tokenDecimals| && WellFormed(State())
    }

    function State(): Ledger
      reads this
      requires |balances| == |adminBalances| == |tokenHeld|
    {
      Ledger(tokenDecimals, Slots(balances, adminBalances, tokenHeld), fee, adminFee, supply, isKilled)
    }

    static function Slots(balance: seq<nat>, admin: seq<nat>, held: seq<nat>): seq<Slot>
      requires |balance| == |admin| == |held|
    {
      seq(|balance|, k requires 0 <= k < |balance| => Slot(balance[k], admin[k], held[k]))
    }

    /** Committed with the specified state, or reverted and changed nothing. */
    ghost predicate Reached(before: Ledger, op: Op, ok: bool)
      reads this
      requires WellFormed(before)
    {
      && Shaped() && ok == Apply(before, op).Some?
      && State() == (if ok then Apply(before, op).value else before)
    }

    /** And a safely configured pool stays solvent. */
    ghost predicate Outcome(before: Ledger, op: Op, ok: bool)
      reads this
      requires WellFormed(before)
    {
      && Reached(before, op, ok)
      && (Solvent(before) && SafeConfig(before) ==> Solvent(State()))
    }

    /** The same for a call whose operation the solvers complete. */
    ghost predicate PerformedBy(before: Ledger, op: Option<Op>, ok: bool)
      reads this
      requires WellFormed(before)
    {
      && Shaped() && ok == Performed(before, op).Some?
      && State() == (if ok then Performed(before, op).value else before)
      && (Solvent(before) && SafeConfig(before) ==> Solvent(State()))
    }

    constructor (decimals: seq<nat>, rate: nat, adminRate: nat)
      requires 2 <= |decimals| <= 4 && rate <= MAX_FEE && adminRate <= MAX_ADMIN_FEE
      ensures Shaped() && Solvent(State()) && tokenDecimals == decimals && adminFee == adminRate
    {
      tokenDecimals := decimals;
      balances, adminBalances, tokenHeld := seq(|decimals|, _ => 0), seq(|decimals|, _ => 0), seq(|decimals|, _ => 0);
      fee, adminFee, supply, isKilled := rate, adminRate, 0, false;
    }

    /** `exchange` with `_exchange`, the solver included. */
    method Exchange(i: nat, j: nat, dx: nat, amp: nat) returns (ok: bool)
      requires Shaped()
      modifies this
      ensures Shaped() && ok == Exchanged(old(State()), i, j, dx, amp).Some?
      ensures State() == if ok then Exchanged(old(State()), i, j, dx, amp).value else old(State())
      ensures Solvent(old(State())) && SafeConfig(old(State())) ==> Solvent(State())
    {
      ok := false;
      if isKilled || dx == 0 || i >= |balances| || j >= |balances| || i == j { return; }
      ghost var before := State();
      assert balances == BalancesOf(before.slots);
      var x := balances[i] + Normalize(dx, tokenDecimals[i]);
      var y, d := GetY(balances, i, j, x, amp);
      if y == None { return; }
      CallSolvent(before, Op.Exchange(i, j, dx, y.value));
      ok := ExchangeAt(i, j, dx, y.value);
    }

    /** The part after the solver. */
    method ExchangeAt(i: nat, j: nat, dx: nat, y: nat) returns (ok: bool)
      requires Shaped() && !isKilled && dx > 0 && i < |balances| && j < |balances| && i != j
      modifies this
      ensures Outcome(old(State()), Op.Exchange(i, j, dx, y), ok)
    {
      CallSolvent(State(), Op.Exchange(i, j, dx, y));
      ok := false;
      var x := balances[i] + Normalize(dx, tokenDecimals[i]);
      if balances[j] < y + 1 { return; }
      var dy := balances[j] - y - 1;
      var dyFee := Portion(dy, fee);
      if dyFee > dy { return; }
      dy := dy - dyFee;
      var dyActual := Denormalize(dy, tokenDecimals[j]);
      if dyActual > tokenHeld[j] { return; }
      adminBalances := adminBalances[j := adminBalances[j] + Portion(dyFee, adminFee)];
      balances := balances[i := x][j := y + Portion(dyFee, adminFee)];
      tokenHeld := tokenHeld[i := tokenHeld[i] + dx][j := tokenHeld[j] - dyActual];
      ok := true;
    }

    /** The deposit loop of `addLiquidity`. */
    method ReceiveAll(amounts: seq<nat>) returns (newBalances: seq<nat>, newHeld: seq<nat>)
      requires Shaped() && |amounts| == |balances|
      ensures |newBalances| == |newHeld| == |balances|
      ensures forall k :: 0 <= k < |balances| ==>
                Slot(newBalances[k], adminBalances[k], newHeld[k]) == Received(State().slots[k], tokenDecimals[k], amounts[k])
    {
      newBalances, newHeld := balances, tokenHeld;
      for i := 0 to |balances|
        invariant |newBalances| == |newHeld| == |balances|
        invariant forall k :: 0 <= k < i ==>
          Slot(newBalances[k], adminBalances[k], newHeld[k]) == Received(State().slots[k], tokenDecimals[k], amounts[k])
        invariant forall k :: i <= k < |balances| ==> newBalances[k] == balances[k] && newHeld[k] == tokenHeld[k]
      {
        newHeld := newHeld[i := newHeld[i] + amounts[i]];
        newBalances := newBalances[i := newBalances[i] + Normalize(amounts[i], tokenDecimals[i])];
      }
    }

    /** `addLiquidity`: three calls of the D solver around the deposit and its fees. */
    method AddLiquidity(amounts: seq<nat>, amp: nat) returns (ok: bool)
      requires Shaped()
      modifies this
      ensures PerformedBy(old(State()), DepositOp(old(State()), amounts, amp), ok)
    {
      PerformedSolvent(State(), DepositOp(State(), amounts, amp));
      ok := false;
      if isKilled || |amounts| != |balances| { return; }
      ghost var before := State();
      assert balances == BalancesOf(before.slots);
      var d0: nat := 0;
      if supply > 0 {
        var r := GetD(balances, amp);
        if r == None { return; }
        d0 := r.value;
      }
      var newBalances, newHeld := ReceiveAll(amounts);
      assert newBalances == Filled(before, amounts);
      var d1 := GetD(newBalances, amp);
      if d1 == None || d1.value <= d0 { return; }
      if supply == 0 {
        ok := AddLiquidityAt(amounts, balances, d1.value);
      } else if d0 > 0 {
        ok := AddAndMint(amounts, Ideals(balances, d1.value, d0), d0, amp);
      }
    }

    /** The fees and the third solver call, whose answer decides what is minted. */
    method AddAndMint(amounts: seq<nat>, ideal: seq<nat>, d0: nat, amp: nat) returns (ok: bool)
      requires Shaped() && !isKilled && |amounts| == |ideal| == |balances| && d0 > 0
      modifies this
      ensures PerformedBy(old(State()), MintOp(old(State()), Op.AddLiquidity(amounts, ideal, 0), d0, amp), ok)
    {
      ghost var before := State();
      ghost var op := Op.AddLiquidity(amounts, ideal, 0);
      PerformedSolvent(before, MintOp(before, op, d0, amp));
      var balances0, admin0, held0 := balances, adminBalances, tokenHeld;
      ok := AddLiquidityAt(amounts, ideal, 0);
      if !ok { return; }
      ok := MintShares(before, op, d0, amp);
      if !ok { balances, adminBalances, tokenHeld := balances0, admin0, held0; }
    }

    /** The third solver call, once the tokens have moved. */
    method MintShares(ghost before: Ledger, ghost op: Op, d0: nat, amp: nat) returns (ok: bool)
      requires Shaped() && WellFormed(before) && op.AddLiquidity? && op.minted == 0 && Apply(before, op) == Some(State())
      requires |op.amounts| == |op.ideal| == |before.slots| && d0 > 0
      modifies this`supply
      ensures Shaped() && ok == Performed(before, MintOp(before, op, d0, amp)).Some?
      ensures if ok then Performed(before, MintOp(before, op, d0, amp)) == Some(State()) else State() == old(State())
    {
      assert balances == BalancesOf(TouchAll(before, op));
      var d2 := GetD(balances, amp);
      if d2 == None || d2.value < d0 { return false; }
      var minted := Share(supply, d2.value - d0, d0);
      SupplyFollows(before, op, op.(minted := minted));
      supply := supply + minted;
      ok := true;
    }

    /** With the ideal balances and the shares given. */
    method AddLiquidityAt(amounts: seq<nat>, ideal: seq<nat>, minted: nat) returns (ok: bool)
      requires Shaped()
      modifies this
      ensures Reached(old(State()), Op.AddLiquidity(amounts, ideal, minted), ok)
    {
      ok := false;
      if isKilled || |amounts| != |balances| || |ideal| != |balances| { return; }
      ghost var op := Op.AddLiquidity(amounts, ideal, minted);
      ghost var before := State();
      var newBalances, newHeld := ReceiveAll(amounts);
      var newAdmin: seq<nat> := adminBalances;
      if supply > 0 {
        var rate := ImbalanceRate(State());
        for i := 0 to |balances|
          invariant |newBalances| == |newAdmin| == |newHeld| == |balances| && State() == before
          invariant forall k :: 0 <= k < i ==>
            Touched(before, op, k) == Some(Slot(newBalances[k], newAdmin[k], newHeld[k]))
          invariant forall k :: i <= k < |balances| ==>
            Slot(newBalances[k], newAdmin[k], newHeld[k]) == Received(before.slots[k], before.decimals[k], amounts[k])
        {
          var charged := ImbalanceFee(rate, ideal[i], newBalances[i]);
          if charged > newBalances[i] {
            assert Touched(before, op, i) == None;
            return;
          }
          newAdmin := newAdmin[i := newAdmin[i] + Portion(charged, adminFee)];
          newBalances := newBalances[i := newBalances[i] - charged];
        }
      }
      assert forall k :: 0 <= k < |balances| ==> Touched(before, op, k) == Some(Slot(newBalances[k], newAdmin[k], newHeld[k]));
      balances, adminBalances, tokenHeld := newBalances, newAdmin, newHeld;
      supply := supply + minted;
      ok := true;
      assert State().slots == TouchAll(before, op);
    }

    method RemoveLiquidity(amount: nat) returns (ok: bool)
      requires Shaped()
      modifies this
      ensures Outcome(old(State()), Op.RemoveLiquidity(amount), ok)
    {
      CallSolvent(State(), Op.RemoveLiquidity(amount));
      ok := false;
      if supply == 0 || amount > supply { return; }
      ghost var op := Op.RemoveLiquidity(amount);
      ghost var before := State();
      var newBalances: seq<nat>, newHeld: seq<nat> := balances, tokenHeld;
      for i := 0 to |balances|
        invariant |newBalances| == |newHeld| == |balances| && State() == before
        invariant forall k :: 0 <= k < i ==>
          Touched(before, op, k) == Some(Slot(newBalances[k], adminBalances[k], newHeld[k]))
        invariant forall k :: i <= k < |balances| ==> Slot(newBalances[k], adminBalances[k], newHeld[k]) == before.slots[k]
      {
        var value := Share(newBalances[i], amount, supply);
        if value > newBalances[i] || Denormalize(value, tokenDecimals[i]) > newHeld[i] {
          assert Touched(before, op, i) == None;
          return;
        }
        newBalances := newBalances[i := newBalances[i] - value];
        newHeld := newHeld[i := newHeld[i] - Denormalize(value, tokenDecimals[i])];
      }
      balances, tokenHeld := newBalances, newHeld;
      supply := supply - amount;
      ok := true;
      assert State().slots == TouchAll(before, op);
    }

    /** `removeLiquidityOneCoin`, with the solver calls of `_calcWithdrawOneCoinWithFee`. */
    method RemoveLiquidityOneCoin(tokenAmount: nat, i: nat, amp: nat) returns (ok: bool)
      requires Shaped()
      modifies this
      ensures PerformedBy(old(State()), OneCoinOp(old(State()), tokenAmount, i, amp), ok)
    {
      ok := false;
      assert balances == BalancesOf(State().slots);
      if i >= |balances| { return; }
      var d0 := GetD(balances, amp);
      if d0 == None || supply == 0 || d0.value == 0 || Share(tokenAmount, d0.value, supply) > d0.value { return; }
      var r := CalcOneCoin(i, d0.value, d0.value - Share(tokenAmount, d0.value, supply), amp);
      if r == None { return; }
      ok := RemoveLiquidityOneCoinAt(tokenAmount, i, r.value.0, r.value.1);
    }

    /** The answer of `_getY` alone. */
    method AnswerOf(xp: seq<nat>, i: nat, j: nat, x: nat, amp: nat) returns (y: Option<nat>)
      ensures y == Answer(xp, i, j, x, amp)
    {
      var d;
      y, d := GetY(xp, i, j, x, amp);
    }

    /** One entry of `xpReduced`. */
    method Reduce(xp: seq<nat>, i: nat, k: nat, d0: nat, d1: nat, rate: nat, amp: nat) returns (r: Option<nat>)
      requires k < |xp| && d0 > 0
      ensures r == ReducedAt(xp, i, k, d0, d1, rate, amp)
    {
      var ideal := Share(xp[k], d1, d0);
      var expected: nat;
      if k == i {
        var y := AnswerOf(xp, 0, k, d1, amp);
        if y == None || y.value > ideal { return None; }
        expected := ideal - y.value;
      } else {
        if ideal > xp[k] { return None; }
        expected := xp[k] - ideal;
      }
      r := if Portion(expected, rate) > xp[k] then None else Some(xp[k] - Portion(expected, rate));
    }

    /** The loop over `xpReduced`, and the two answers past it. */
    method CalcOneCoin(i: nat, d0: nat, d1: nat, amp: nat) returns (r: Option<(nat, nat)>)
      requires Shaped() && i < |balances| && d0 > 0
      ensures r == OneCoin(balances, i, d0, d1, ImbalanceRate(State()), amp)
    {
      var rate := ImbalanceRate(State());
      var xp, reduced: seq<nat> := balances, [];
      for k := 0 to |xp|
        invariant |reduced| == k
        invariant forall j :: 0 <= j < k ==> ReducedAt(xp, i, j, d0, d1, rate, amp) == Some(reduced[j])
      {
        var entry := Reduce(xp, i, k, d0, d1, rate, amp);
        if entry == None { return None; }
        reduced := reduced + [entry.value];
      }
      OneCoinIs(xp, reduced, i, d0, d1, rate, amp);
      r := FinishOneCoin(xp, reduced, i, d1, amp);
    }

    method FinishOneCoin(xp: seq<nat>, reduced: seq<nat>, i: nat, d1: nat, amp: nat) returns (r: Option<(nat, nat)>)
      requires i < |xp| == |reduced|
      ensures r == OneCoinFrom(xp, reduced, i, d1, amp)
    {
      var y := AnswerOf(reduced, 0, i, d1, amp);
      var plain := AnswerOf(xp, 0, i, d1, amp);
      if y == None || plain == None || reduced[i] < y.value + 1 || xp[i] < plain.value { return None; }
      var dy := reduced[i] - y.value - 1;
      r := if xp[i] - plain.value < dy then None else Some((dy, xp[i] - plain.value - dy));
    }

    /** With dy and its fee given. */
    method RemoveLiquidityOneCoinAt(tokenAmount: nat, i: nat, dy: nat, dyFee: nat) returns (ok: bool)
      requires Shaped()
      modifies this
      ensures Outcome(old(State()), Op.RemoveLiquidityOneCoin(tokenAmount, i, dy, dyFee), ok)
    {
      CallSolvent(State(), Op.RemoveLiquidityOneCoin(tokenAmount, i, dy, dyFee));
      ok := false;
      if i >= |balances| { return; }
      var share := Portion(dyFee, adminFee);
      if dy + share > balances[i] || tokenAmount > supply { return; }
      var actualAmount := Denormalize(dy, tokenDecimals[i]);
      if actualAmount > tokenHeld[i] { return; }
      balances := balances[i := balances[i] - (dy + share)];
      adminBalances := adminBalances[i := adminBalances[i] + share];
      supply := supply - tokenAmount;
      tokenHeld := tokenHeld[i := tokenHeld[i] - actualAmount];
      ok := true;
    }

    /** `removeLiquidityImbalance`: three calls of the D solver around the fees. */
    method RemoveLiquidityImbalance(amounts: seq<nat>, amp: nat) returns (ok: bool)
      requires Shaped()
      modifies this
      ensures PerformedBy(old(State()), ImbalanceOp(old(State()), amounts, amp), ok)
    {
      ok := false;
      if |amounts| != |balances| { return; }
      ghost var before := State();
      assert balances == BalancesOf(before.slots);
      var d0 := GetD(balances, amp);
      if d0 == None || d0.value == 0 { return; }
      var d1 := GetD(Left(State(), amounts), amp);
      if d1 == None { return; }
      ok := TakeAndBurn(amounts, Ideals(balances, d1.value, d0.value), d0.value, amp);
    }

    /** The fees and the third solver call, whose answer decides what is burned. */
    method TakeAndBurn(amounts: seq<nat>, ideal: seq<nat>, d0: nat, amp: nat) returns (ok: bool)
      requires Shaped() && |amounts| == |ideal| == |balances| && d0 > 0
      modifies this
      ensures PerformedBy(old(State()), BurnOp(old(State()), Op.RemoveLiquidityImbalance(amounts, ideal, 0), d0, amp), ok)
    {
      ghost var before := State();
      ghost var op := Op.RemoveLiquidityImbalance(amounts, ideal, 0);
      PerformedSolvent(before, BurnOp(before, op, d0, amp));
      var balances0, admin0, held0 := balances, adminBalances, tokenHeld;
      ok := RemoveLiquidityImbalanceAt(amounts, ideal, 0);
      if !ok { return; }
      ok := BurnShares(before, op, d0, amp);
      if !ok { balances, adminBalances, tokenHeld := balances0, admin0, held0; }
    }

    /** The third solver call, once the tokens have moved. */
    method BurnShares(ghost before: Ledger, ghost op: Op, d0: nat, amp: nat) returns (ok: bool)
      requires Shaped() && WellFormed(before) && op.RemoveLiquidityImbalance? && op.burned == 0 && Apply(before, op) == Some(State())
      requires |op.amounts| == |op.ideal| == |before.slots| && d0 > 0
      modifies this`supply
      ensures Shaped() && ok == Performed(before, BurnOp(before, op, d0, amp)).Some?
      ensures if ok then Performed(before, BurnOp(before, op, d0, amp)) == Some(State()) else State() == old(State())
    {
      assert balances == BalancesOf(TouchAll(before, op));
      var d2 := GetD(balances, amp);
      if d2 == None || d2.value > d0 { return false; }
      var burned := Share(supply, d0 - d2.value, d0) + 1;
      if burned > supply { return false; }
      SupplyFollows(before, op, op.(burned := burned));
      supply := supply - burned;
      ok := true;
    }

    /** With the ideal balances and the shares given. */
    method RemoveLiquidityImbalanceAt(amounts: seq<nat>, ideal: seq<nat>, burned: nat) returns (ok: bool)
      requires Shaped()
      modifies this
      ensures Reached(old(State()), Op.RemoveLiquidityImbalance(amounts, ideal, burned), ok)
    {
      ok := false;
      if |amounts| != |balances| || |ideal| != |balances| || burned > supply { return; }
      ghost var op := Op.RemoveLiquidityImbalance(amounts, ideal, burned);
      ghost var before := State();
      var rate := ImbalanceRate(State());
      var newBalances: seq<nat>, newAdmin: seq<nat>, newHeld: seq<nat> := balances, adminBalances, tokenHeld;
      for i := 0 to |balances|
        invariant |newBalances| == |newAdmin| == |newHeld| == |balances| && State() == before
        invariant forall k :: 0 <= k < i ==>
          Touched(before, op, k) == Some(Slot(newBalances[k], newAdmin[k], newHeld[k]))
        invariant forall k :: i <= k < |balances| ==> Slot(newBalances[k], newAdmin[k], newHeld[k]) == before.slots[k]
      {
        var amountNorm := Normalize(amounts[i], tokenDecimals[i]);
        var charged := if amountNorm <= newBalances[i] then ImbalanceFee(rate, ideal[i], newBalances[i] - amountNorm) else 0;
        if amountNorm > newBalances[i] || charged > newBalances[i] - amountNorm || amounts[i] > newHeld[i] {
          assert Touched(before, op, i) == None;
          return;
        }
        newAdmin := newAdmin[i := newAdmin[i] + Portion(charged, adminFee)];
        newBalances := newBalances[i := newBalances[i] - amountNorm - charged];
        newHeld := newHeld[i := newHeld[i] - amounts[i]];
      }
      balances, adminBalances, tokenHeld := newBalances, newAdmin, newHeld;
      supply := supply - burned;
      ok := true;
      assert State().slots == TouchAll(before, op);
    }

    method CollectAdminFees() returns (ok: bool)
      requires Shaped()
      modifies this
      ensures Outcome(old(State()), Op.CollectAdminFees, ok)
    {
      CallSolvent(State(), Op.CollectAdminFees);
      ok := false;
      ghost var op := Op.CollectAdminFees;
      ghost var before := State();
      var newAdmin: seq<nat>, newHeld: seq<nat> := adminBalances, tokenHeld;
      for i := 0 to |balances|
        invariant |newAdmin| == |newHeld| == |balances| && State() == before
        invariant forall k :: 0 <= k < i ==> Touched(before, op, k) == Some(Slot(balances[k], newAdmin[k], newHeld[k]))
        invariant forall k :: i <= k < |balances| ==> Slot(balances[k], newAdmin[k], newHeld[k]) == before.slots[k]
      {
        var amount := Denormalize(newAdmin[i], tokenDecimals[i]);
        if amount > 0 {
          if amount > newHeld[i] {
            assert Touched(before, op, i) == None;
            return;
          }
          newAdmin := newAdmin[i := 0];
          newHeld := newHeld[i := newHeld[i] - amount];
        }
      }
      adminBalances, tokenHeld := newAdmin, newHeld;
      ok := true;
      assert State().slots == TouchAll(before, op);
    }
  }
}
