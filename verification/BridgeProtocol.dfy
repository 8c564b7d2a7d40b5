/**
 The Solana bridge program on two chains that exchange signed messages. One asset is native at home,
 where it is locked and released, and wrapped away, where it is minted and burned.
 */
module BridgeModel {
  import opened Options
  import opened DailyLimit
  import opened NonceTracking

  const U64 := 0x1_0000_0000_0000_0000
  const MAX_FEE_BPS := 500

  type Account = nat

  /** An outbound event; its nonce is its position. `Foreign` is an event of another asset: the counter is shared. */
  datatype Event =
    | Lock(dest: nat, recipient: Account, amount: nat)
    | Burn(dest: nat, recipient: Account, amount: nat)
    | Foreign

  /** What the signers attest: an inbound transfer, by the source chain's nonce. */
  datatype Message = Message(nonce: nat, recipient: Account, amount: nat)

  /** One chain: the shared configuration, the inbound nonce bitmap, and the asset's registration and accounts there. */
  datatype Program = Program(chainId: nat, paused: bool, feeBps: nat, events: seq<Event>, processed: Bitmap,
                             native: bool, vault: nat, supply: nat, limiter: Limiter)

  /** What the sender brings: tokens, and perhaps an account for the fee, without which it is not charged. */
  datatype Payer = Payer(funds: nat, feeAccount: bool)

  // ---------------------------------------------------------------- the four instructions

  function Fee(amount: nat, feeBps: nat): nat { amount * feeBps / 10000 }

  /** `next_nonce`: the event takes the current nonce and the counter moves on. */
  function Emit(p: Program, e: Event): Option<Program> {
    if |p.events| + 1 >= U64 then None else Some(p.(events := p.events + [e]))
  }

  /** Only the amount less the fee reaches the vault, and only that amount is in the event. */
  function LockAndBridge(p: Program, amount: nat, dest: nat, recipient: Account, payer: Payer): Option<Program> {
    if p.paused || amount == 0 || amount * p.feeBps >= U64 || Fee(amount, p.feeBps) > amount then None
    else
      var bridged := amount - Fee(amount, p.feeBps);
      if p.vault + bridged >= U64 || payer.funds < bridged + (if payer.feeAccount then Fee(amount, p.feeBps) else 0) then None
      else Emit(p.(vault := p.vault + bridged), Lock(dest, recipient, bridged))
  }

  function BurnBridged(p: Program, amount: nat, dest: nat, recipient: Account, funds: nat): Option<Program> {
    if p.paused || amount == 0 || amount > p.supply || amount > funds then None
    else Emit(p.(supply := p.supply - amount), Burn(dest, recipient, amount))
  }

  function MintBridged(p: Program, m: Message, signed: bool, now: int): Option<Program> {
    if p.paused || IsProcessed(p.processed, m.nonce) || !signed then None
    else match (Check(p.limiter, m.amount, now), Mark(p.processed, m.nonce))
         case (Some(l), Some(b)) =>
           if p.supply + m.amount >= U64 then None
           else Some(p.(supply := p.supply + m.amount, limiter := l, processed := b))
         case _ => None
  }

  function Release(p: Program, m: Message, signed: bool): Option<Program> {
    if p.paused || !p.native || IsProcessed(p.processed, m.nonce) || !signed || p.vault < m.amount then None
    else match Mark(p.processed, m.nonce)
         case None => None
         case Some(b) => Some(p.(vault := p.vault - m.amount, processed := b))
  }

  /** A mint or release of another asset, under a nonce of the same source chain. */
  function MarkForeign(p: Program, nonce: nat): Option<Program> {
    if IsProcessed(p.processed, nonce) then None
    else match Mark(p.processed, nonce)
         case None => None
         case Some(b) => Some(p.(processed := b))
  }

  // ---------------------------------------------------------------- two chains and their signers

  /**
   The sets hold every message the signers have signed so far; relayers may replay any of them. The surplus
   is what nobody can claim: tokens sent straight to the vault, and wrapped ones burned past the bridge.
   */
  datatype System = System(home: Program, away: Program, mints: set<Message>, releases: set<Message>, surplus: nat)

  datatype Step =
    | LockHome(amount: nat, dest: nat, recipient: Account, payer: Payer)
    | BurnAway(amount: nat, dest: nat, recipient: Account, funds: nat)
    | SendToVault(amount: nat)
    | BurnPast(amount: nat)
    | SignMint(nonce: nat)
    | SignRelease(nonce: nat)
    | MintAway(m: Message, now: int)
    | ReleaseHome(m: Message)
    | ForeignEvent(atHome: bool)
    | ForeignInbound(atHome: bool, nonce: nat)
    | Configure(atHome: bool, paused: bool, feeBps: nat, dailyLimit: nat)

  /** Honest signers sign a mint only for a lock that was emitted for the away chain, with its own fields. */
  function MintFor(s: System, nonce: nat): Option<Message> {
    if nonce < |s.home.events| && s.home.events[nonce].Lock? && s.home.events[nonce].dest == s.away.chainId
    then Some(Message(nonce, s.home.events[nonce].recipient, s.home.events[nonce].amount))
    else None
  }

  function ReleaseFor(s: System, nonce: nat): Option<Message> {
    if nonce < |s.away.events| && s.away.events[nonce].Burn? && s.away.events[nonce].dest == s.home.chainId
    then Some(Message(nonce, s.away.events[nonce].recipient, s.away.events[nonce].amount))
    else None
  }

  function AtHome(s: System, p: Option<Program>): Option<System> {
    match p case None => None case Some(q) => Some(s.(home := q))
  }

  function AtAway(s: System, p: Option<Program>): Option<System> {
    match p case None => None case Some(q) => Some(s.(away := q))
  }

  /** The system after a step that commits; None when the instruction fails. */
  function Apply(s: System, step: Step): Option<System> {
    match step
    case LockHome(amount, dest, recipient, payer) => AtHome(s, LockAndBridge(s.home, amount, dest, recipient, payer))
    case BurnAway(amount, dest, recipient, funds) => AtAway(s, BurnBridged(s.away, amount, dest, recipient, funds))
    case SendToVault(amount) =>
      if s.home.vault + amount >= U64 then None else Some(s.(home := s.home.(vault := s.home.vault + amount), surplus := s.surplus + amount))
    case BurnPast(amount) =>
      if amount > s.away.supply then None else Some(s.(away := s.away.(supply := s.away.supply - amount), surplus := s.surplus + amount))
    case SignMint(nonce) =>
      (match MintFor(s, nonce) case None => None case Some(m) => Some(s.(mints := s.mints + {m})))
    case SignRelease(nonce) =>
      (match ReleaseFor(s, nonce) case None => None case Some(m) => Some(s.(releases := s.releases + {m})))
    case MintAway(m, now) => AtAway(s, MintBridged(s.away, m, m in s.mints, now))
    case ReleaseHome(m) => AtHome(s, Release(s.home, m, m in s.releases))
    case ForeignEvent(atHome) => if atHome then AtHome(s, Emit(s.home, Foreign)) else AtAway(s, Emit(s.away, Foreign))
    case ForeignInbound(atHome, nonce) =>
      if atHome then
        if nonce < |s.away.events| && s.away.events[nonce].Foreign? then AtHome(s, MarkForeign(s.home, nonce)) else None
      else
        if nonce < |s.home.events| && s.home.events[nonce].Foreign? then AtAway(s, MarkForeign(s.away, nonce)) else None
    case Configure(atHome, paused, feeBps, dailyLimit) =>
      if feeBps > MAX_FEE_BPS then None
      else if atHome then Some(s.(home := s.home.(paused := paused, feeBps := feeBps, limiter := s.home.limiter.(limit := dailyLimit))))
      else Some(s.(away := s.away.(paused := paused, feeBps := feeBps, limiter := s.away.limiter.(limit := dailyLimit))))
  }

  function Run(s: System, steps: seq<Step>): System
    decreases |steps|
  {
    if steps == [] then s
    else match Apply(s, steps[0])
         case None => Run(s, steps[1..])
         case Some(t) => Run(t, steps[1..])
  }

  // ---------------------------------------------------------------- conservation

  function Value(e: Event): nat { if e.Foreign? then 0 else e.amount }

  /** Total of the events whose nonce the other chain has not processed. */
  function Pending(events: seq<Event>, processed: Bitmap): nat {
    if events == [] then 0
    else
      var n := |events| - 1;
      Pending(events[..n], processed) + if IsProcessed(processed, n) then 0 else Value(events[n])
  }

  ghost predicate OnlyEmitted(processed: Bitmap, events: seq<Event>) {
    |processed| == BYTES && forall n: nat :: IsProcessed(processed, n) ==> n < |events|
  }

  /** A new event is pending. */
  lemma PendingEmit(events: seq<Event>, e: Event, processed: Bitmap)
    requires OnlyEmitted(processed, events)
    ensures Pending(events + [e], processed) == Pending(events, processed) + Value(e)
  {
    assert (events + [e])[..|events|] == events;
    assert !IsProcessed(processed, |events|);
  }

  /** Marking a nonce takes exactly its event out of what is pending. */
  lemma {:induction false} PendingMark(events: seq<Event>, processed: Bitmap, nonce: nat)
    requires nonce < 8 * |processed| && !IsProcessed(processed, nonce)
    ensures Mark(processed, nonce).Some?
    ensures Pending(events, Mark(processed, nonce).value)
            == Pending(events, processed) - if nonce < |events| then Value(events[nonce]) else 0
  {
    if events != [] {
      var n := |events| - 1;
      MarkInserts(processed, nonce, n);
      PendingMark(events[..n], processed, nonce);
    }
  }

  lemma MarkOnlyEmitted(processed: Bitmap, events: seq<Event>, nonce: nat)
    requires OnlyEmitted(processed, events) && nonce < |events| && Mark(processed, nonce).Some?
    ensures OnlyEmitted(Mark(processed, nonce).value, events)
  {
    forall n: nat | IsProcessed(Mark(processed, nonce).value, n) ensures n < |events| { MarkInserts(processed, nonce, n); }
  }

  /** An event that is not yet processed is among the pending ones. */
  lemma {:induction false} PendingHas(events: seq<Event>, processed: Bitmap, n: nat)
    requires n < |events| && !IsProcessed(processed, n)
    ensures Value(events[n]) <= Pending(events, processed)
  {
    if n < |events| - 1 { PendingHas(events[..|events| - 1], processed, n); }
  }

  ghost predicate Attested(s: System) {
    && (forall m :: m in s.mints ==> MintFor(s, m.nonce) == Some(m))
    && (forall m :: m in s.releases ==> ReleaseFor(s, m.nonce) == Some(m))
  }

  /** Events are only ever appended, so what was signed stays true. */
  lemma AttestedFollows(s: System, t: System)
    requires Attested(s) && s.mints == t.mints && s.releases == t.releases
    requires s.home.events <= t.home.events && s.away.events <= t.away.events
    requires s.home.chainId == t.home.chainId && s.away.chainId == t.away.chainId
    ensures Attested(t)
  {
    forall m | m in t.mints ensures MintFor(t, m.nonce) == Some(m) { assert MintFor(s, m.nonce) == Some(m); }
    forall m | m in t.releases ensures ReleaseFor(t, m.nonce) == Some(m) { assert ReleaseFor(s, m.nonce) == Some(m); }
  }

  ghost predicate Conserved(s: System) {
    && OnlyEmitted(s.away.processed, s.home.events) && OnlyEmitted(s.home.processed, s.away.events)
    && s.home.vault < U64
    && s.home.vault == s.away.supply + Pending(s.home.events, s.away.processed) + Pending(s.away.events, s.home.processed) + s.surplus
  }

  ghost predicate Inv(s: System) { Conserved(s) && Attested(s) }

  /** Emitting keeps the bitmap to emitted nonces. */
  lemma EmitOnlyEmitted(processed: Bitmap, events: seq<Event>, e: Event)
    requires OnlyEmitted(processed, events)
    ensures OnlyEmitted(processed, events + [e])
  {
  }

  /** A lock, a burn or another asset's event, given only what it does to the books. */
  lemma EmitConserves(s: System, t: System, e: Event, atHome: bool)
    requires Conserved(s) && s.home.processed == t.home.processed && s.away.processed == t.away.processed
    requires t.home.events == s.home.events + (if atHome then [e] else []) && t.away.events == s.away.events + (if atHome then [] else [e])
    requires t.home.vault - t.away.supply == s.home.vault - s.away.supply + Value(e) && t.home.vault < U64 && t.surplus == s.surplus
    ensures Conserved(t)
  {
    if atHome {
      PendingEmit(s.home.events, e, s.away.processed);
      EmitOnlyEmitted(s.away.processed, s.home.events, e);
      assert t.away.events == s.away.events;
    } else {
      PendingEmit(s.away.events, e, s.home.processed);
      EmitOnlyEmitted(s.home.processed, s.away.events, e);
      assert t.home.events == s.home.events;
    }
  }

  /** Locks and burns move their amount between the books and what is pending. */
  lemma OutboundConserves(s: System, step: Step)
    requires Conserved(s) && (step.LockHome? || step.BurnAway? || step.ForeignEvent?) && Apply(s, step).Some?
    ensures Conserved(Apply(s, step).value)
  {
    match step
    case LockHome(amount, dest, recipient, _) =>
      EmitConserves(s, Apply(s, step).value, Lock(dest, recipient, amount - Fee(amount, s.home.feeBps)), true);
    case BurnAway(amount, dest, recipient, _) => EmitConserves(s, Apply(s, step).value, Burn(dest, recipient, amount), false);
    case ForeignEvent(atHome) => EmitConserves(s, Apply(s, step).value, Foreign, atHome);
  }

  /** Mints and releases consume the one event their nonce names. */
  lemma InboundConserves(s: System, step: Step)
    requires Conserved(s) && Attested(s) && (step.MintAway? || step.ReleaseHome? || step.ForeignInbound?)
    requires Apply(s, step).Some?
    ensures Conserved(Apply(s, step).value)
  {
    match step
    case MintAway(m, _) =>
      assert MintFor(s, m.nonce) == Some(m);
      PendingMark(s.home.events, s.away.processed, m.nonce);
      MarkOnlyEmitted(s.away.processed, s.home.events, m.nonce);
    case ReleaseHome(m) =>
      assert ReleaseFor(s, m.nonce) == Some(m);
      PendingMark(s.away.events, s.home.processed, m.nonce);
      MarkOnlyEmitted(s.home.processed, s.away.events, m.nonce);
    case ForeignInbound(atHome, nonce) =>
      if atHome {
        PendingMark(s.away.events, s.home.processed, nonce);
        MarkOnlyEmitted(s.home.processed, s.away.events, nonce);
      } else {
        PendingMark(s.home.events, s.away.processed, nonce);
        MarkOnlyEmitted(s.away.processed, s.home.events, nonce);
      }
  }

  lemma StepKeeps(s: System, step: Step)
    requires Inv(s) && Apply(s, step).Some?
    ensures Inv(Apply(s, step).value)
  {
    var t := Apply(s, step).value;
    OnlyAppends(s, step);
    if step.LockHome? || step.BurnAway? || step.ForeignEvent? {
      OutboundConserves(s, step);
      AttestedFollows(s, t);
    } else if step.MintAway? || step.ReleaseHome? || step.ForeignInbound? {
      InboundConserves(s, step);
      AttestedFollows(s, t);
    } else if step.Configure? || step.SendToVault? || step.BurnPast? {
      AttestedFollows(s, t);
    }
  }

  lemma OnlyAppends(s: System, step: Step)
    requires Apply(s, step).Some?
    ensures var t := Apply(s, step).value;
            && s.home.events <= t.home.events && s.away.events <= t.away.events
            && s.home.chainId == t.home.chainId && s.away.chainId == t.away.chainId
            && (step.SignMint? || step.SignRelease? || (s.mints == t.mints && s.releases == t.releases))
  {
  }

  /** Two freshly deployed programs. */
  ghost predicate Fresh(s: System) {
    && s.home.events == [] && s.away.events == [] && s.mints == {} && s.releases == {}
    && |s.home.processed| == BYTES && |s.away.processed| == BYTES
    && (forall n: nat :: !IsProcessed(s.home.processed, n)) && (forall n: nat :: !IsProcessed(s.away.processed, n))
    && s.home.vault == s.away.supply == s.surplus == 0
  }

  /** In every interleaving: vault = wrapped supply + locks not yet minted + burns not yet released + surplus. */
  lemma {:induction false} RunConserves(s: System, steps: seq<Step>)
    requires Inv(s)
    ensures Inv(Run(s, steps))
    ensures var t := Run(s, steps);
            t.home.vault == t.away.supply + Pending(t.home.events, t.away.processed) + Pending(t.away.events, t.home.processed) + t.surplus
    decreases |steps|
  {
    if steps != [] {
      match Apply(s, steps[0])
      case None => RunConserves(s, steps[1..]);
      case Some(t) =>
        StepKeeps(s, steps[0]);
        RunConserves(t, steps[1..]);
    }
  }

  lemma PaysWhenSigned(t: System, m: Message)
    requires Inv(t) && m in t.releases
    ensures Apply(t, ReleaseHome(m)).Some?
            <==> !t.home.paused && t.home.native && !IsProcessed(t.home.processed, m.nonce) && m.nonce < CAPACITY
  {
    assert ReleaseFor(t, m.nonce) == Some(m);
    if !IsProcessed(t.home.processed, m.nonce) { PendingHas(t.away.events, t.home.processed, m.nonce); }
  }

  lemma MintsWhenSigned(t: System, m: Message, now: int)
    requires Inv(t) && m in t.mints
    ensures Apply(t, MintAway(m, now)).Some?
            <==> !t.away.paused && !IsProcessed(t.away.processed, m.nonce) && m.nonce < CAPACITY
                 && Check(t.away.limiter, m.amount, now).Some?
  {
    assert MintFor(t, m.nonce) == Some(m);
    if !IsProcessed(t.away.processed, m.nonce) { PendingHas(t.home.events, t.away.processed, m.nonce); }
  }

  /**
   So a signed release is never short of funds: in every reachable state it commits exactly when the
   program is running, the asset is native, its nonce is new and the bitmap reaches that far.
   */
  lemma SignedReleasesArePaid(s: System, steps: seq<Step>, m: Message)
    requires Fresh(s) && m in Run(s, steps).releases
    ensures var t := Run(s, steps);
            Apply(t, ReleaseHome(m)).Some?
            <==> !t.home.paused && t.home.native && !IsProcessed(t.home.processed, m.nonce) && m.nonce < CAPACITY
  {
    RunConserves(s, steps);
    PaysWhenSigned(Run(s, steps), m);
  }

  /**
   Its twin: a signed mint commits exactly when the program is running, its nonce is new, the bitmap reaches
   that far and the daily limit has room. The supply never overflows: the vault covers it.
   */
  lemma SignedMintsAreMinted(s: System, steps: seq<Step>, m: Message, now: int)
    requires Fresh(s) && m in Run(s, steps).mints
    ensures var t := Run(s, steps);
            Apply(t, MintAway(m, now)).Some?
            <==> !t.away.paused && !IsProcessed(t.away.processed, m.nonce) && m.nonce < CAPACITY
                 && Check(t.away.limiter, m.amount, now).Some?
  {
    RunConserves(s, steps);
    MintsWhenSigned(Run(s, steps), m, now);
  }

  // ---------------------------------------------------------------- whole crossings

  /** The message of a lock is new at the other side: its nonce has not been processed there. */
  lemma NextIsNew(s: System)
    requires Conserved(s)
    ensures !IsProcessed(s.away.processed, |s.home.events|) && !IsProcessed(s.home.processed, |s.away.events|)
  {
  }

  /** While a program is paused it locks, burns, mints and releases nothing. */
  lemma PausedMovesNothing(s: System, step: Step)
    ensures s.home.paused && (step.LockHome? || step.ReleaseHome?) ==> Apply(s, step) == None
    ensures s.away.paused && (step.BurnAway? || step.MintAway?) ==> Apply(s, step) == None
  {
  }

  /** Configuration sets exactly what it is given, with a fee of at most 5%. */
  lemma SettingsTakeEffect(s: System, atHome: bool, paused: bool, feeBps: nat, dailyLimit: nat)
    ensures var r := Apply(s, Configure(atHome, paused, feeBps, dailyLimit));
            && (r.Some? <==> feeBps * 20 <= 10000)
            && (r.Some? ==>
                  var p, q := if atHome then r.value.home else r.value.away, if atHome then r.value.away else r.value.home;
                  && p.paused == paused && p.feeBps == feeBps && p.limiter.limit == dailyLimit && q == (if atHome then s.away else s.home)
                  && p.vault == (if atHome then s.home else s.away).vault && p.supply == (if atHome then s.home else s.away).supply)
  {
  }

  /** A lock takes the amount less the fee into the vault, and says so under the next nonce. */
  lemma LockEmits(s: System, amount: nat, dest: nat, recipient: Account, payer: Payer)
    requires Apply(s, LockHome(amount, dest, recipient, payer)).Some?
    ensures amount * s.home.feeBps / 10000 <= amount
    ensures var t := Apply(s, LockHome(amount, dest, recipient, payer)).value;
            var n, bridged := |s.home.events|, amount - amount * s.home.feeBps / 10000;
            && |t.home.events| == n + 1 && t.home.events[n] == Lock(dest, recipient, bridged)
            && t == s.(home := s.home.(vault := s.home.vault + bridged, events := t.home.events))
            && (dest == s.away.chainId ==> MintFor(t, n) == Some(Message(n, recipient, bridged)))
  {
  }

  /** Once signed, a new mint of the other chain goes through under the usual conditions, and creates its amount. */
  lemma SignedLockMints(t: System, n: nat, m: Message, now: int)
    requires Inv(t) && MintFor(t, n) == Some(m) && m.nonce == n && !IsProcessed(t.away.processed, n)
    ensures Apply(t, SignMint(n)) == Some(t.(mints := t.mints + {m}))
    ensures var r := Apply(t.(mints := t.mints + {m}), MintAway(m, now));
            && (r.Some? <==> !t.away.paused && n < CAPACITY && Check(t.away.limiter, m.amount, now).Some?)
            && (r.Some? ==> r.value.away.supply == t.away.supply + m.amount && r.value.home == t.home)
  {
    var u := t.(mints := t.mints + {m});
    StepKeeps(t, SignMint(n));
    MintsWhenSigned(u, m, now);
  }

  /**
   A lock for the other chain: the vault takes in the amount less the fee, and under the next nonce the
   signers can attest exactly that amount, for that recipient. Once they do, the mint goes through whenever
   the program runs, the bitmap reaches that far and the daily limit has room, and creates that amount.
   */
  lemma LockCrosses(s: System, amount: nat, dest: nat, recipient: Account, payer: Payer, now: int)
    requires Inv(s) && dest == s.away.chainId && Apply(s, LockHome(amount, dest, recipient, payer)).Some?
    ensures amount * s.home.feeBps / 10000 <= amount
    ensures var t := Apply(s, LockHome(amount, dest, recipient, payer)).value;
            var n, bridged := |s.home.events|, amount - amount * s.home.feeBps / 10000;
            && MintFor(t, n) == Some(Message(n, recipient, bridged))
            && t.home.vault == s.home.vault + bridged && t.away == s.away && t.surplus == s.surplus
            && Apply(t, SignMint(n)).Some?
            && var r := Apply(Apply(t, SignMint(n)).value, MintAway(Message(n, recipient, bridged), now));
               && (r.Some? <==> !s.away.paused && n < CAPACITY && Check(s.away.limiter, bridged, now).Some?)
               && (r.Some? ==> r.value.away.supply == s.away.supply + bridged && r.value.home == t.home)
  {
    var step := LockHome(amount, dest, recipient, payer);
    var t := Apply(s, step).value;
    LockEmits(s, amount, dest, recipient, payer);
    StepKeeps(s, step);
    NextIsNew(s);
    SignedLockMints(t, |s.home.events|, MintFor(t, |s.home.events|).value, now);
  }

  /**
   A burn for the home chain: the supply falls by the amount, and under the next nonce the signers can attest
   exactly that amount, for that recipient. Once they do, the release goes through whenever the program runs,
   the asset is native and the bitmap reaches that far, and pays that amount out of the vault.
   */
  lemma BurnCrosses(s: System, amount: nat, dest: nat, recipient: Account, funds: nat)
    requires Inv(s) && dest == s.home.chainId && Apply(s, BurnAway(amount, dest, recipient, funds)).Some?
    ensures var t := Apply(s, BurnAway(amount, dest, recipient, funds)).value;
            var n := |s.away.events|;
            && ReleaseFor(t, n) == Some(Message(n, recipient, amount))
            && t.away.supply == s.away.supply - amount && t.home == s.home && t.surplus == s.surplus
            && Apply(t, SignRelease(n)).Some?
            && var u := Apply(t, SignRelease(n)).value;
               var m := ReleaseHome(Message(n, recipient, amount));
               && (Apply(u, m).Some? <==> !s.home.paused && s.home.native && n < CAPACITY)
               && (Apply(u, m).Some? ==> Apply(u, m).value.home.vault == s.home.vault - amount && Apply(u, m).value.away == t.away)
  {
    var step := BurnAway(amount, dest, recipient, funds);
    var t := Apply(s, step).value;
    var n := |s.away.events|;
    StepKeeps(s, step);
    NextIsNew(s);
    var u := Apply(t, SignRelease(n)).value;
    StepKeeps(t, SignRelease(n));
    PaysWhenSigned(u, ReleaseFor(t, n).value);
  }

  /** A nonce once processed stays processed. */
  lemma {:induction false} ProcessedForever(s: System, steps: seq<Step>, n: nat)
    ensures IsProcessed(s.home.processed, n) ==> IsProcessed(Run(s, steps).home.processed, n)
    ensures IsProcessed(s.away.processed, n) ==> IsProcessed(Run(s, steps).away.processed, n)
    decreases |steps|
  {
    if steps != [] {
      match Apply(s, steps[0])
      case None => ProcessedForever(s, steps[1..], n);
      case Some(t) =>
        match steps[0] {
          case MintAway(m, _) => MarkInserts(s.away.processed, m.nonce, n);
          case ReleaseHome(m) => MarkInserts(s.home.processed, m.nonce, n);
          case ForeignInbound(atHome, nonce) =>
            if atHome { MarkInserts(s.home.processed, nonce, n); } else { MarkInserts(s.away.processed, nonce, n); }
          case _ =>
        }
        ProcessedForever(t, steps[1..], n);
    }
  }

  /** However often a signed message is replayed, it is honoured at most once. */
  lemma NoReplay(s: System, m: Message, now: int, steps: seq<Step>, later: int)
    ensures Apply(s, MintAway(m, now)).Some? ==>
              Apply(Run(Apply(s, MintAway(m, now)).value, steps), MintAway(m, later)) == None
    ensures Apply(s, ReleaseHome(m)).Some? ==>
              Apply(Run(Apply(s, ReleaseHome(m)).value, steps), ReleaseHome(m)) == None
  {
    if Apply(s, MintAway(m, now)).Some? {
      MarkInserts(s.away.processed, m.nonce, m.nonce);
      ProcessedForever(Apply(s, MintAway(m, now)).value, steps, m.nonce);
    }
    if Apply(s, ReleaseHome(m)).Some? {
      MarkInserts(s.home.processed, m.nonce, m.nonce);
      ProcessedForever(Apply(s, ReleaseHome(m)).value, steps, m.nonce);
    }
  }
}

/** The program's accounts on one chain, with the instruction handlers. */
module BridgeProgram {
  import opened DailyLimit
  import opened NonceTracking
  import M = BridgeModel

  class KntBridge {
    const chainId: nat
    const isNative: bool
    const tokenConfig: TokenConfig
    const nonceTracker: NonceTracker
    var paused: bool
    var feeBps: nat
    var outboundNonce: nat
    var vaultAmount: nat
    var wrappedSupply: nat
    ghost var emitted: seq<M.Event>

    ghost predicate Valid()
      reads this, nonceTracker
    {
      nonceTracker.Valid() && outboundNonce == |emitted|
    }

    ghost function State(): M.Program
      reads this, tokenConfig, nonceTracker, nonceTracker.bitmap
    {
      M.Program(chainId, paused, feeBps, emitted, nonceTracker.bitmap[..], isNative, vaultAmount, wrappedSupply, tokenConfig.State())
    }

    constructor (id: nat, native: bool, fee: nat, config: TokenConfig, tracker: NonceTracker)
      requires tracker.Valid()
      ensures Valid() && chainId == id && tokenConfig == config && nonceTracker == tracker
      ensures State() == M.Program(id, false, fee, [], tracker.bitmap[..], native, 0, 0, config.State())
    {
      chainId, isNative, tokenConfig, nonceTracker := id, native, config, tracker;
      paused, feeBps, outboundNonce, vaultAmount, wrappedSupply := false, fee, 0, 0, 0;
      emitted := [];
    }

    /** `next_nonce`: the old value, and the counter one further. */
    method NextNonce(ghost e: M.Event) returns (nonce: nat)
      requires Valid()
      modifies this`outboundNonce, this`emitted
      ensures Valid() && nonce == old(outboundNonce) && emitted == old(emitted) + [e] && emitted[nonce] == e
    {
      nonce := outboundNonce;
      outboundNonce := outboundNonce + 1;
      emitted := emitted + [e];
    }

    method LockAndBridge(amount: nat, dest: nat, recipient: M.Account, payer: M.Payer) returns (ok: bool)
      requires Valid()
      modifies this
      ensures Valid() && ok == M.LockAndBridge(old(State()), amount, dest, recipient, payer).Some?
      ensures State() == if ok then M.LockAndBridge(old(State()), amount, dest, recipient, payer).value else old(State())
      ensures ok ==> amount * feeBps / 10000 <= amount && vaultAmount == old(vaultAmount) + (amount - amount * feeBps / 10000)
                     && emitted == old(emitted) + [M.Lock(dest, recipient, amount - amount * feeBps / 10000)]
    {
      ok := false;
      if paused || !(amount > 0) || amount * feeBps >= M.U64 { return; }
      var fee := M.Fee(amount, feeBps);
      if fee > amount { return; }
      var bridgeAmount := amount - fee;
      if payer.funds < bridgeAmount || (payer.feeAccount && payer.funds - bridgeAmount < fee) { return; }
      if vaultAmount + bridgeAmount >= M.U64 || outboundNonce + 1 >= M.U64 { return; }
      vaultAmount := vaultAmount + bridgeAmount;
      var nonce := NextNonce(M.Lock(dest, recipient, bridgeAmount));
      ok := true;
    }

    method BurnBridged(amount: nat, dest: nat, recipient: M.Account, funds: nat) returns (ok: bool)
      requires Valid()
      modifies this
      ensures Valid() && ok == M.BurnBridged(old(State()), amount, dest, recipient, funds).Some?
      ensures State() == if ok then M.BurnBridged(old(State()), amount, dest, recipient, funds).value else old(State())
      ensures ok ==> wrappedSupply == old(wrappedSupply) - amount && emitted == old(emitted) + [M.Burn(dest, recipient, amount)]
    {
      ok := false;
      if paused || !(amount > 0) || amount > wrappedSupply || amount > funds || outboundNonce + 1 >= M.U64 { return; }
      wrappedSupply := wrappedSupply - amount;
      var nonce := NextNonce(M.Burn(dest, recipient, amount));
      ok := true;
    }

    /** A failing instruction writes no account back, so the limiter's update is undone. */
    method MintBridged(m: M.Message, signed: bool, now: int) returns (ok: bool)
      requires Valid()
      modifies this, tokenConfig, nonceTracker.bitmap
      ensures Valid() && ok == M.MintBridged(old(State()), m, signed, now).Some?
      ensures State() == if ok then M.MintBridged(old(State()), m, signed, now).value else old(State())
      ensures ok ==> wrappedSupply == old(wrappedSupply) + m.amount && vaultAmount == old(vaultAmount)
                     && forall n: nat :: IsProcessed(nonceTracker.bitmap[..], n) <==> IsProcessed(old(nonceTracker.bitmap[..]), n) || n == m.nonce
    {
      ok := false;
      MembersHas(nonceTracker.bitmap[..], m.nonce);
      var seen := nonceTracker.IsProcessedNonce(m.nonce);
      if paused || seen || !signed { return; }
      var minted0, start0 := tokenConfig.dailyMinted, tokenConfig.periodStart;
      var within := tokenConfig.CheckDailyLimit(m.amount, now);
      var fits := within && wrappedSupply + m.amount < M.U64;
      if fits {
        fits := nonceTracker.MarkProcessed(m.nonce);
      }
      if !fits {
        tokenConfig.dailyMinted, tokenConfig.periodStart := minted0, start0;
        return;
      }
      wrappedSupply := wrappedSupply + m.amount;
      ok := true;
    }

    method Release(m: M.Message, signed: bool) returns (ok: bool)
      requires Valid()
      modifies this, nonceTracker.bitmap
      ensures Valid() && ok == M.Release(old(State()), m, signed).Some?
      ensures State() == if ok then M.Release(old(State()), m, signed).value else old(State())
      ensures ok ==> vaultAmount == old(vaultAmount) - m.amount && wrappedSupply == old(wrappedSupply)
                     && forall n: nat :: IsProcessed(nonceTracker.bitmap[..], n) <==> IsProcessed(old(nonceTracker.bitmap[..]), n) || n == m.nonce
    {
      ok := false;
      MembersHas(nonceTracker.bitmap[..], m.nonce);
      var seen := nonceTracker.IsProcessedNonce(m.nonce);
      if paused || !isNative || seen || !signed || vaultAmount < m.amount { return; }
      ok := nonceTracker.MarkProcessed(m.nonce);
      if ok { vaultAmount := vaultAmount - m.amount; }
    }
  }
}
