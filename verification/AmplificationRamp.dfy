/** The amplification coefficient of a stable pool while the admin moves it. */
module AmplificationRamp {
  import opened Options
  import opened Numbers

  const MAX_A := 1_000_000
  const A_PRECISION := 100
  const MIN_RAMP_TIME := 86400
  const MAX_A_CHANGE := 10
  const HIGHEST := MAX_A * A_PRECISION

  datatype Ramp = Ramp(initial: nat, future: nat, start: nat, end: nat)

  datatype Op = RampA(target: nat, futureTime: nat) | StopRampA

  /** `_A`; the time is never before the start. */
  function Current(r: Ramp, now: nat): nat
    requires r.start <= now
  {
    if now >= r.end then r.future
    else if r.future > r.initial then r.initial + Share(r.future - r.initial, now - r.start, r.end - r.start)
    else
      var down := Share(r.initial - r.future, now - r.start, r.end - r.start);
      CoveredWithin(r.initial - r.future, now - r.start, r.end - r.start);
      r.initial - down
  }

  lemma CoveredWithin(distance: nat, elapsed: nat, span: nat)
    requires elapsed <= span && span > 0
    ensures Share(distance, elapsed, span) <= distance
    ensures elapsed == 0 ==> Share(distance, elapsed, span) == 0
  {
    ShareAtMost(distance, elapsed, span);
    if elapsed == 0 { DivUnique(0, span, 0); }
  }

  lemma CoveredGrows(distance: nat, elapsed: nat, later: nat, span: nat)
    requires elapsed <= later && span > 0
    ensures Share(distance, elapsed, span) <= Share(distance, later, span)
  {
    MulMono(distance, distance, elapsed, later);
    DivMono(distance * elapsed, distance * later, span);
  }

  /**
   Between its ends the coefficient is the straight line, floored towards the initial value: it has moved by the
   most that the elapsed part of the time gives of the whole distance.
   */
  lemma CurrentIsLinear(r: Ramp, now: nat, moved: nat)
    requires r.start <= now < r.end
    ensures r.future >= r.initial ==>
              Current(r, now) >= r.initial
              && (moved <= Current(r, now) - r.initial <==> moved * (r.end - r.start) <= (r.future - r.initial) * (now - r.start))
    ensures r.future <= r.initial ==>
              Current(r, now) <= r.initial
              && (moved <= r.initial - Current(r, now) <==> moved * (r.end - r.start) <= (r.initial - r.future) * (now - r.start))
  {
    var span, elapsed := r.end - r.start, now - r.start;
    var distance := if r.future >= r.initial then r.future - r.initial else r.initial - r.future;
    CoveredWithin(distance, elapsed, span);
    DivAtLeast(distance * elapsed, span, moved);
    if distance == 0 { DivUnique(0 * elapsed, span, 0); }
  }

  /** The ramp after a committed call; None when it reverts. */
  function Apply(r: Ramp, op: Op, now: nat): Option<Ramp>
    requires r.start <= now
  {
    var current := Current(r, now);
    match op
    case StopRampA => Some(Ramp(current, current, now, now))
    case RampA(target, futureTime) =>
      var future := target * A_PRECISION;
      if now < r.start + MIN_RAMP_TIME || futureTime < now + MIN_RAMP_TIME then None
      else if future == 0 || future > HIGHEST then None
      else if (future > current && future > current * MAX_A_CHANGE) || (future < current && current > future * MAX_A_CHANGE) then None
      else Some(Ramp(current, future, now, futureTime))
  }

  /** Between two values, whichever is larger. */
  predicate Between(x: nat, a: nat, b: nat) { a <= x <= b || b <= x <= a }

  /** The coefficient starts at the initial value, ends at the future one, and only moves towards it. */
  lemma CurrentMovesTowardsFuture(r: Ramp, now: nat, later: nat)
    requires r.start <= now <= later
    ensures Between(Current(r, later), Current(r, now), r.future)
    ensures Between(Current(r, now), r.initial, r.future)
    ensures r.start < r.end ==> Current(r, r.start) == r.initial
    ensures r.end <= now ==> Current(r, now) == r.future
  {
    if now < r.end {
      var span, distance := r.end - r.start, if r.future > r.initial then r.future - r.initial else r.initial - r.future;
      CoveredWithin(distance, now - r.start, span);
      CoveredWithin(distance, 0, span);
      if later < r.end {
        CoveredWithin(distance, later - r.start, span);
        CoveredGrows(distance, now - r.start, later - r.start, span);
      }
    }
  }

  /** Starting or stopping a ramp never makes the coefficient jump: at that instant it reads the same. */
  lemma NoJump(r: Ramp, op: Op, now: nat)
    requires r.start <= now && Apply(r, op, now).Some?
    ensures var s := Apply(r, op, now).value; s.start <= now && Current(s, now) == Current(r, now)
  {
    var s := Apply(r, op, now).value;
    CurrentMovesTowardsFuture(s, now, now);
  }

  /**
   A ramp starts exactly a day or more after the last call, to end a day or more from now, towards a legal value within
   a factor of ten of the present one; left alone it then arrives there, at its time.
   */
  lemma RampArrives(r: Ramp, target: nat, futureTime: nat, now: nat, later: nat)
    requires r.start <= now
    ensures Apply(r, RampA(target, futureTime), now).Some?
            <==> now - r.start >= 86400 && futureTime >= now + 86400 && 0 < target <= 1_000_000
                 && target * 100 <= Current(r, now) * 10 && Current(r, now) <= target * 100 * 10
    ensures Apply(r, RampA(target, futureTime), now).Some? && later >= futureTime ==>
              Current(Apply(r, RampA(target, futureTime), now).value, later) == target * 100
  {
  }

  // ---------------------------------------------------------------- runs

  datatype Event = Tick(seconds: nat) | Call(op: Op)

  datatype World = World(ramp: Ramp, now: nat)

  predicate Legal(a: nat) { 0 < a <= HIGHEST }

  ghost predicate Inv(w: World) { w.ramp.start <= w.now && Legal(w.ramp.initial) && Legal(w.ramp.future) }

  function Step(w: World, e: Event): World
    requires w.ramp.start <= w.now
  {
    match e
    case Tick(seconds) => w.(now := w.now + seconds)
    case Call(op) => match Apply(w.ramp, op, w.now) case None => w case Some(r) => w.(ramp := r)
  }

  lemma StepKeeps(w: World, e: Event)
    requires Inv(w)
    ensures Inv(Step(w, e))
  {
    CurrentMovesTowardsFuture(w.ramp, w.now, w.now);
  }

  ghost function Run(w: World, events: seq<Event>): (r: World)
    requires Inv(w)
    ensures Inv(r)
    decreases |events|
  {
    if events == [] then w else StepKeeps(w, events[0]); Run(Step(w, events[0]), events[1..])
  }

  /** In every run the coefficient stays positive and within its maximum. */
  lemma AlwaysLegal(w: World, events: seq<Event>)
    requires Inv(w)
    ensures Legal(Current(Run(w, events).ramp, Run(w, events).now))
  {
    CurrentMovesTowardsFuture(Run(w, events).ramp, Run(w, events).now, Run(w, events).now);
  }

  /** One ramp changes the coefficient at most tenfold, up or down, however long one waits. */
  lemma AtMostTenfold(r: Ramp, target: nat, futureTime: nat, now: nat, later: nat)
    requires r.start <= now <= later && Apply(r, RampA(target, futureTime), now).Some?
    ensures var s := Apply(r, RampA(target, futureTime), now).value;
            && Current(s, later) <= MAX_A_CHANGE * Current(r, now)
            && Current(r, now) <= MAX_A_CHANGE * Current(s, later)
  {
    var s := Apply(r, RampA(target, futureTime), now).value;
    CurrentMovesTowardsFuture(s, later, later);
  }

  // ---------------------------------------------------------------- a whole run

  function Power(n: nat): (p: nat)
    ensures p > 0
  {
    if n == 0 then 1 else MAX_A_CHANGE * Power(n - 1)
  }

  lemma {:induction false} PowerGrows(m: nat, n: nat)
    requires m <= n
    ensures Power(m) <= Power(n)
  {
    if m < n { PowerGrows(m, n - 1); }
  }

  /** How many ramps one event starts. */
  function Starts(w: World, e: Event): nat
    requires w.ramp.start <= w.now
  {
    if e.Call? && e.op.RampA? && Apply(w.ramp, e.op, w.now).Some? then 1 else 0
  }

  /** How many ramps a run starts. */
  ghost function Started(w: World, events: seq<Event>): nat
    requires Inv(w)
    decreases |events|
  {
    if events == [] then 0
    else
      StepKeeps(w, events[0]); Starts(w, events[0]) + Started(Step(w, events[0]), events[1..])
  }

  /** The largest and least value the coefficient can still take without another call. */
  function Highest(w: World): nat
    requires w.ramp.start <= w.now
  {
    var a := Current(w.ramp, w.now); if a < w.ramp.future then w.ramp.future else a
  }

  function Lowest(w: World): nat
    requires w.ramp.start <= w.now
  {
    var a := Current(w.ramp, w.now); if a < w.ramp.future then a else w.ramp.future
  }

  lemma TickScales(w: World, later: nat)
    requires Inv(w) && later >= w.now
    ensures Highest(World(w.ramp, later)) <= Highest(w) && Lowest(w) <= Lowest(World(w.ramp, later))
  {
    CurrentMovesTowardsFuture(w.ramp, w.now, later);
  }

  /** A call leaves the coefficient where it is; stopping aims nowhere else, and a ramp at most tenfold away. */
  lemma CallScales(w: World, op: Op)
    requires Inv(w) && Apply(w.ramp, op, w.now).Some?
    ensures var z := World(Apply(w.ramp, op, w.now).value, w.now); var factor := if op.RampA? then MAX_A_CHANGE else 1;
            && z.ramp.start == w.now
            && Highest(z) <= factor * Highest(w) && Lowest(w) <= factor * Lowest(z)
            && (op.RampA? ==> w.now >= w.ramp.start + MIN_RAMP_TIME)
  {
    NoJump(w.ramp, op, w.now);
  }

  lemma StepScales(w: World, e: Event)
    requires Inv(w)
    ensures Inv(Step(w, e))
    ensures var z, n := Step(w, e), Starts(w, e);
            && Highest(z) <= Power(n) * Highest(w) && Lowest(w) <= Power(n) * Lowest(z)
            && z.ramp.start >= w.ramp.start + n * MIN_RAMP_TIME
  {
    StepKeeps(w, e);
    assert Power(0) == 1 && Power(1) == MAX_A_CHANGE;
    match e
    case Tick(seconds) => TickScales(w, w.now + seconds);
    case Call(op) => if Apply(w.ramp, op, w.now).Some? { CallScales(w, op); }
  }

  lemma {:induction false} PowerAdds(m: nat, n: nat)
    ensures Power(m + n) == Power(m) * Power(n)
  {
    if m > 0 { PowerAdds(m - 1, n); }
  }

  lemma Chained(x: nat, y: nat, z: nat, p: nat, q: nat)
    requires y <= p * x && z <= q * y
    ensures z <= q * p * x
  {
    MulMono(q, q, y, p * x);
  }

  /** Over a whole run: one factor of ten per ramp started, either way, and a day between ramps. */
  lemma {:induction false} TenfoldPerRamp(w: World, events: seq<Event>)
    requires Inv(w)
    ensures var r, n := Run(w, events), Started(w, events);
            && Highest(r) <= Power(n) * Highest(w) && Lowest(w) <= Power(n) * Lowest(r)
            && r.ramp.start >= w.ramp.start + n * MIN_RAMP_TIME
    decreases |events|
  {
    if events != [] {
      var e, rest := events[0], events[1..];
      StepScales(w, e);
      var z := Step(w, e);
      TenfoldPerRamp(z, rest);
      var m, n := Starts(w, e), Started(z, rest);
      PowerAdds(m, n);
      var r := Run(w, events);
      Chained(Highest(w), Highest(z), Highest(r), Power(m), Power(n));
      Chained(Lowest(r), Lowest(z), Lowest(w), Power(n), Power(m));
    }
  }

  /** So the days since the last call before the run bound how far the coefficient can have moved at its end. */
  lemma TenfoldPerDay(w: World, events: seq<Event>)
    requires Inv(w)
    ensures var r := Run(w, events); var days := (r.now - w.ramp.start) / MIN_RAMP_TIME;
            && days >= 0
            && Current(r.ramp, r.now) <= Power(days) * Highest(w) && Lowest(w) <= Power(days) * Current(r.ramp, r.now)
  {
    TenfoldPerRamp(w, events);
    var r, n := Run(w, events), Started(w, events);
    var days := (r.now - w.ramp.start) / MIN_RAMP_TIME;
    DivAtLeast(r.now - w.ramp.start, MIN_RAMP_TIME, n);
    PowerGrows(n, days);
    MulMono(Power(n), Power(days), Highest(w), Highest(w));
    MulMono(Power(n), Power(days), Lowest(r), Current(r.ramp, r.now));
  }

  class Amplification {
    var initialA: nat
    var futureA: nat
    var initialATime: nat
    var futureATime: nat

    function State(): Ramp
      reads this
    {
      Ramp(initialA, futureA, initialATime, futureATime)
    }

    constructor (a: nat, now: nat)
      requires 0 < a <= MAX_A
      ensures Inv(World(State(), now)) && Current(State(), now) == a * A_PRECISION
    {
      initialA, futureA, initialATime, futureATime := a * A_PRECISION, a * A_PRECISION, now, now;
    }

    method StartRamp(target: nat, futureTime: nat, now: nat) returns (ok: bool)
      requires initialATime <= now
      modifies this
      ensures ok == Apply(old(State()), RampA(target, futureTime), now).Some?
      ensures State() == if ok then Apply(old(State()), RampA(target, futureTime), now).value else old(State())
      ensures Current(State(), now) == old(Current(State(), now))
    {
      ok := false;
      if now < initialATime + MIN_RAMP_TIME || futureTime < now + MIN_RAMP_TIME { return; }
      var currentA := Current(State(), now);
      var future := target * A_PRECISION;
      if future == 0 || future > HIGHEST { return; }
      if (future > currentA && future > currentA * MAX_A_CHANGE) || (future < currentA && currentA > future * MAX_A_CHANGE) { return; }
      NoJump(State(), RampA(target, futureTime), now);
      initialA, futureA, initialATime, futureATime := currentA, future, now, futureTime;
      ok := true;
    }

    method StopRamp(now: nat)
      requires initialATime <= now
      modifies this
      ensures Apply(old(State()), StopRampA, now) == Some(State())
      ensures forall later :: later >= now ==> Current(State(), later) == old(Current(State(), now))
    {
      var currentA := Current(State(), now);
      initialA, futureA, initialATime, futureATime := currentA, currentA, now, now;
    }
  }
}
