/** The daily mint limit shared by the bridges: a counter that restarts a day after its period began. */
module DailyLimit {
  import opened Options

  const DAY := 86400

  /** `limit` 0 means unlimited. */
  datatype Limiter = Limiter(limit: nat, minted: nat, start: int)

  /** The period in force at `now`. */
  function Rolled(l: Limiter, now: int): Limiter {
    if now >= l.start + DAY then l.(minted := 0, start := now) else l
  }

  /** The limiter after accepting an amount; None when it refuses. */
  function Check(l: Limiter, amount: nat, now: int): Option<Limiter> {
    if l.limit == 0 then Some(l)
    else
      var r := Rolled(l, now);
      if r.minted + amount > r.limit then None else Some(r.(minted := r.minted + amount))
  }

  class TokenConfig {
    var dailyMintLimit: nat
    var dailyMinted: nat
    var periodStart: int

    function State(): Limiter
      reads this
    {
      Limiter(dailyMintLimit, dailyMinted, periodStart)
    }

    constructor (limit: nat, now: int)
      ensures State() == Limiter(limit, 0, now)
    {
      dailyMintLimit, dailyMinted, periodStart := limit, 0, now;
    }

    /** On refusal the period may have been rolled already; the failing transaction discards that. */
    method CheckDailyLimit(amount: nat, now: int) returns (ok: bool)
      modifies this`dailyMinted, this`periodStart
      ensures ok == Check(old(State()), amount, now).Some?
      ensures ok ==> State() == Check(old(State()), amount, now).value
      ensures !ok ==> State() == Rolled(old(State()), now)
    {
      if dailyMintLimit == 0 { return true; }
      if now >= periodStart + DAY {
        dailyMinted, periodStart := 0, now;
      }
      var newTotal := dailyMinted + amount;
      if newTotal > dailyMintLimit { return false; }
      dailyMinted := newTotal;
      ok := true;
    }
  }

  // ---------------------------------------------------------------- runs

  datatype Request = Request(amount: nat, now: int)

  /** An accepted request, with the number of the period it was counted in. */
  datatype Grant = Grant(amount: nat, now: int, period: nat)

  datatype Trace = Trace(limiter: Limiter, period: nat, granted: seq<Grant>)

  function Serve(t: Trace, r: Request): Trace {
    match Check(t.limiter, r.amount, r.now)
    case None => t
    case Some(l) =>
      var p := if t.limiter.limit > 0 && r.now >= t.limiter.start + DAY then t.period + 1 else t.period;
      Trace(l, p, t.granted + [Grant(r.amount, r.now, p)])
  }

  function ServeAll(t: Trace, rs: seq<Request>): Trace
    decreases |rs|
  {
    if rs == [] then t else ServeAll(Serve(t, rs[0]), rs[1..])
  }

  /** Requests come in order of time, none before `from`. */
  ghost predicate InOrder(rs: seq<Request>, from: int)
    decreases |rs|
  {
    rs == [] || (rs[0].now >= from && InOrder(rs[1..], rs[0].now))
  }

  /** The total of the grants that satisfy a test. */
  ghost function TotalOf(gs: seq<Grant>, test: Grant -> bool): nat {
    if gs == [] then 0
    else
      var last := gs[|gs| - 1];
      TotalOf(gs[..|gs| - 1], test) + if test(last) then last.amount else 0
  }

  ghost function InPeriod(p: int): Grant -> bool { (g: Grant) => g.period == p }
  ghost function Between(a: int, b: int): Grant -> bool { (g: Grant) => a <= g.now <= b }

  lemma TotalAppend(gs: seq<Grant>, g: Grant, test: Grant -> bool)
    ensures TotalOf(gs + [g], test) == TotalOf(gs, test) + if test(g) then g.amount else 0
  {
    assert (gs + [g])[..|gs|] == gs;
  }

  /** If every grant that passes one test passes one of two others, their totals cover it. */
  lemma {:induction false} TotalCovered(gs: seq<Grant>, test: Grant -> bool, one: Grant -> bool, two: Grant -> bool)
    requires forall g :: g in gs && test(g) ==> one(g) || two(g)
    ensures TotalOf(gs, test) <= TotalOf(gs, one) + TotalOf(gs, two)
  {
    if gs != [] {
      assert gs[|gs| - 1] in gs;
      TotalCovered(gs[..|gs| - 1], test, one, two);
    }
  }

  /** Where a grant stands relative to the period in force. */
  ghost predicate Placed(l: Limiter, period: nat, g: Grant) {
    && g.period <= period
    && (g.period == period ==> g.now < l.start + DAY)
    && (g.period + 1 == period ==> g.now < l.start)
    && (g.period + 1 < period ==> g.now + DAY < l.start)
  }

  ghost predicate PeriodsWithin(t: Trace) {
    forall p :: TotalOf(t.granted, InPeriod(p)) <= t.limiter.limit
  }

  ghost predicate DaysWithin(t: Trace) {
    forall a, b :: b - a <= DAY ==> TotalOf(t.granted, Between(a, b)) <= 2 * t.limiter.limit
  }

  ghost predicate Inv(t: Trace, last: int) {
    && t.limiter.limit > 0
    && (t.period > 0 ==> t.limiter.start <= last)
    && TotalOf(t.granted, InPeriod(t.period)) <= t.limiter.minted
    && (forall g :: g in t.granted ==> Placed(t.limiter, t.period, g))
    && PeriodsWithin(t) && DaysWithin(t)
  }

  /** A period nobody was granted anything in totals zero. */
  lemma {:induction false} EmptyPeriod(gs: seq<Grant>, p: nat)
    requires forall g :: g in gs ==> g.period < p
    ensures TotalOf(gs, InPeriod(p)) == 0
  {
    if gs != [] {
      assert gs[|gs| - 1] in gs;
      EmptyPeriod(gs[..|gs| - 1], p);
    }
  }

  lemma ServeKeeps(t: Trace, r: Request, last: int)
    requires Inv(t, last) && r.now >= last
    ensures Inv(Serve(t, r), r.now)
  {
    if Check(t.limiter, r.amount, r.now).Some? {
      var u := Serve(t, r);
      var g := u.granted[|u.granted| - 1];
      assert u.granted == t.granted + [g];
      if u.period > t.period { EmptyPeriod(t.granted, u.period); }
      forall p ensures TotalOf(u.granted, InPeriod(p)) <= u.limiter.limit {
        TotalAppend(t.granted, g, InPeriod(p));
      }
      TotalAppend(t.granted, g, InPeriod(u.period));
      forall h | h in u.granted ensures Placed(u.limiter, u.period, h) {
        if h in t.granted { assert Placed(t.limiter, t.period, h); }
      }
      forall a, b | b - a <= DAY ensures TotalOf(u.granted, Between(a, b)) <= 2 * u.limiter.limit {
        TotalAppend(t.granted, g, Between(a, b));
        if a <= r.now <= b { DayCovered(u, r.now, a, b); }
      }
    }
  }

  /** A day around the latest grant reaches into at most two periods. */
  lemma DayCovered(u: Trace, now: int, a: int, b: int)
    requires b - a <= DAY && a <= now <= b && (u.period > 0 ==> u.limiter.start <= now)
    requires forall h :: h in u.granted ==> Placed(u.limiter, u.period, h)
    requires PeriodsWithin(u)
    ensures TotalOf(u.granted, Between(a, b)) <= 2 * u.limiter.limit
  {
    forall h | h in u.granted && Between(a, b)(h) ensures InPeriod(u.period)(h) || InPeriod(u.period - 1)(h) {
      assert Placed(u.limiter, u.period, h);
    }
    TotalCovered(u.granted, Between(a, b), InPeriod(u.period), InPeriod(u.period - 1));
  }

  /** An accepted request adds its amount to exactly the stretches that contain its time. */
  lemma ServeAdds(t: Trace, r: Request, a: int, b: int)
    requires Check(t.limiter, r.amount, r.now).Some?
    ensures TotalOf(Serve(t, r).granted, Between(a, b)) == TotalOf(t.granted, Between(a, b)) + if a <= r.now <= b then r.amount else 0
  {
    var gs := Serve(t, r).granted;
    TotalAppend(t.granted, gs[|gs| - 1], Between(a, b));
  }

  lemma {:induction false} ServeAllKeeps(t: Trace, rs: seq<Request>, last: int)
    requires Inv(t, last) && InOrder(rs, last)
    ensures ServeAll(t, rs).limiter.limit == t.limiter.limit
    ensures PeriodsWithin(ServeAll(t, rs)) && DaysWithin(ServeAll(t, rs))
    decreases |rs|
  {
    if rs != [] {
      ServeKeeps(t, rs[0], last);
      ServeAllKeeps(Serve(t, rs[0]), rs[1..], rs[0].now);
    }
  }

  /**
   With a fixed non-zero limit and time that never goes back: every period grants at most the limit,
   and any stretch of a day, wherever it starts, at most twice the limit.
   */
  lemma DayGrantsAtMostTwice(limit: nat, start: int, rs: seq<Request>, from: int)
    requires limit > 0 && InOrder(rs, from)
    ensures var t := ServeAll(Trace(Limiter(limit, 0, start), 0, []), rs);
            && (forall p :: TotalOf(t.granted, InPeriod(p)) <= limit)
            && (forall a, b :: b - a <= DAY ==> TotalOf(t.granted, Between(a, b)) <= 2 * limit)
  {
    ServeAllKeeps(Trace(Limiter(limit, 0, start), 0, []), rs, from);
  }

  /** Twice is really reached: the limit just before a period ends and again just after. */
  lemma TwiceIsReached(limit: nat)
    requires limit > 0
    ensures var t := ServeAll(Trace(Limiter(limit, 0, 0), 0, []), [Request(limit, DAY - 1), Request(limit, DAY)]);
            TotalOf(t.granted, Between(DAY - 1, DAY)) == 2 * limit
  {
    var a, b := Request(limit, DAY - 1), Request(limit, DAY);
    var t := Trace(Limiter(limit, 0, 0), 0, []);
    assert Serve(t, a) == Trace(Limiter(limit, limit, 0), 0, [Grant(limit, DAY - 1, 0)]);
    var u := Serve(t, a);
    assert Serve(u, b).granted == u.granted + [Grant(limit, DAY, 1)];
    assert ServeAll(t, [a, b]) == ServeAll(u, [b]) == Serve(u, b) by { assert [a, b][1..] == [b] && [b][1..] == []; }
    TotalAppend(u.granted, Grant(limit, DAY, 1), Between(DAY - 1, DAY));
    TotalAppend([], Grant(limit, DAY - 1, 0), Between(DAY - 1, DAY));
    assert u.granted == [] + [Grant(limit, DAY - 1, 0)];
  }
}
