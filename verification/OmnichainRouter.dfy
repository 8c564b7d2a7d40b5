/** The EVM bridge router: signed deposits mint bridge tokens, singly or in batches; burns send them back. */
module OmnichainModel {
  import opened Options
  import opened Numbers
  import opened MapSums
  import opened DailyLimit

  type Token = nat
  type Account = nat

  const MAX_BRIDGE_FEE_BPS := 100

  datatype Deposit = Deposit(source: nat, nonce: nat, token: Token, recipient: Account, amount: nat)

  /** The signed digest, as its preimage: it binds the destination chain. */
  datatype Digest = Digest(chainId: nat, deposit: Deposit)

  /** A signature names who made it and over what; recovery over anything else gives the zero address. */
  datatype Signature = Signature(signer: Account, over: Digest)

  function Recover(digest: Digest, s: Signature): Account { if s.over == digest then s.signer else 0 }

  datatype Config = Config(chainId: nat, feeBps: nat, shareBps: nat, stakeholders: Account, treasury: Account, mpcGroup: Account)

  datatype Router = Router(
    config: Config, autoPaused: bool, manualPaused: bool, registered: set<Token>,
    processed: set<(nat, nat)>, outboundNonce: nat, totalMinted: map<Token, nat>,
    dailyLimit: map<Token, nat>, dailyMinted: map<Token, nat>, periodStart: map<Token, nat>,
    balances: map<(Token, Account), nat>)

  /** A Solidity mapping reads zero where nothing was written. */
  function Get<K>(m: map<K, nat>, k: K): nat { if k in m then m[k] else 0 }

  // ---------------------------------------------------------------- one deposit

  function LimiterOf(r: Router, t: Token): Limiter { Limiter(Get(r.dailyLimit, t), Get(r.dailyMinted, t), Get(r.periodStart, t)) }

  function CheckDailyLimit(r: Router, t: Token, amount: nat, now: nat): Option<Router> {
    if Get(r.dailyLimit, t) == 0 then Some(r)
    else
      var rolled := if now >= Get(r.periodStart, t) + DAY
                    then r.(dailyMinted := r.dailyMinted[t := 0], periodStart := r.periodStart[t := now]) else r;
      var total := Get(rolled.dailyMinted, t) + amount;
      if total > Get(r.dailyLimit, t) then None else Some(rolled.(dailyMinted := rolled.dailyMinted[t := total]))
  }

  /** The router's limiter is the common one, token by token. */
  lemma LimiterRefines(r: Router, t: Token, amount: nat, now: nat, other: Token)
    ensures CheckDailyLimit(r, t, amount, now).Some? <==> Check(LimiterOf(r, t), amount, now).Some?
    ensures CheckDailyLimit(r, t, amount, now).Some? ==>
              var q := CheckDailyLimit(r, t, amount, now).value;
              LimiterOf(q, other) == if other == t then Check(LimiterOf(r, t), amount, now).value else LimiterOf(r, other)
  {
  }

  /** `bridgeMint`. */
  function Credit(b: map<(Token, Account), nat>, t: Token, a: Account, x: nat): map<(Token, Account), nat> {
    b[(t, a) := Get(b, (t, a)) + x]
  }

  /** The recipient's part, then the two fee shares, each minted only when it is not zero. */
  function MintSplit(r: Router, d: Deposit): map<(Token, Account), nat>
    requires r.config.feeBps <= 10000 && r.config.shareBps <= 10000
  {
    ShareAtMost(d.amount, r.config.feeBps, 10000);
    var fee := Bps(d.amount, r.config.feeBps);
    ShareAtMost(fee, r.config.shareBps, 10000);
    var toStakeholders := Bps(fee, r.config.shareBps);
    var b0 := Credit(r.balances, d.token, d.recipient, d.amount - fee);
    var b1 := if fee > 0 && toStakeholders > 0 then Credit(b0, d.token, r.config.stakeholders, toStakeholders) else b0;
    if fee > 0 && fee - toStakeholders > 0 then Credit(b1, d.token, r.config.treasury, fee - toStakeholders) else b1
  }

  predicate WellFormed(r: Router) {
    r.config.feeBps <= MAX_BRIDGE_FEE_BPS && r.config.shareBps <= 10000 && r.config.mpcGroup != 0
  }

  /** The body shared by the single and the batched mint, after the pause check. */
  function MintUnpaused(r: Router, d: Deposit, sig: Signature, now: nat): Option<Router>
    requires WellFormed(r)
  {
    if d.token !in r.registered || (d.source, d.nonce) in r.processed || d.amount == 0 then None
    else if Recover(Digest(r.config.chainId, d), sig) != r.config.mpcGroup then None
    else match CheckDailyLimit(r, d.token, d.amount, now)
         case None => None
         case Some(q) =>
           Some(q.(processed := q.processed + {(d.source, d.nonce)}, balances := MintSplit(r, d),
                   totalMinted := q.totalMinted[d.token := Get(q.totalMinted, d.token) + d.amount]))
  }

  function Paused(r: Router): bool { r.autoPaused || r.manualPaused }

  /** `mintDeposit`. */
  function MintDeposit(r: Router, d: Deposit, sig: Signature, now: nat): Option<Router>
    requires WellFormed(r)
  {
    if Paused(r) then None else MintUnpaused(r, d, sig, now)
  }

  lemma MintKeepsForm(r: Router, d: Deposit, sig: Signature, now: nat)
    requires WellFormed(r) && MintUnpaused(r, d, sig, now).Some?
    ensures var q := MintUnpaused(r, d, sig, now).value; WellFormed(q) && q.config == r.config && Paused(q) == Paused(r)
  {
  }

  // ---------------------------------------------------------------- batches

  /** The loop of `batchMintDeposit` from deposit i on. */
  function BatchFrom(r: Router, ds: seq<Deposit>, sigs: seq<Signature>, now: nat, i: nat): Option<Router>
    requires WellFormed(r) && |ds| == |sigs| && i <= |ds|
    decreases |ds| - i
  {
    if i == |ds| then Some(r)
    else match MintUnpaused(r, ds[i], sigs[i], now)
         case None => None
         case Some(q) => MintKeepsForm(r, ds[i], sigs[i], now); BatchFrom(q, ds, sigs, now, i + 1)
  }

  /** `batchMintDeposit`: the pause is looked at once, and all deposits go through or none. */
  function BatchMintDeposit(r: Router, ds: seq<Deposit>, sigs: seq<Signature>, now: nat): Option<Router>
    requires WellFormed(r)
  {
    if |ds| != |sigs| || Paused(r) then None else BatchFrom(r, ds, sigs, now, 0)
  }

  /** The same deposits as successive `mintDeposit` calls; None when any of them reverts. */
  function Successively(r: Router, ds: seq<Deposit>, sigs: seq<Signature>, now: nat): Option<Router>
    requires WellFormed(r) && |ds| == |sigs|
    decreases |ds|
  {
    if ds == [] then Some(r)
    else match MintDeposit(r, ds[0], sigs[0], now)
         case None => None
         case Some(q) => MintKeepsForm(r, ds[0], sigs[0], now); Successively(q, ds[1..], sigs[1..], now)
  }

  lemma {:induction false} BatchTail(r: Router, ds: seq<Deposit>, sigs: seq<Signature>, now: nat, i: nat)
    requires WellFormed(r) && |ds| == |sigs| && i <= |ds| && !Paused(r)
    ensures BatchFrom(r, ds, sigs, now, i) == Successively(r, ds[i..], sigs[i..], now)
    decreases |ds| - i
  {
    if i < |ds| {
      assert ds[i..][0] == ds[i] && ds[i..][1..] == ds[i + 1..];
      assert sigs[i..][0] == sigs[i] && sigs[i..][1..] == sigs[i + 1..];
      match MintUnpaused(r, ds[i], sigs[i], now)
      case None =>
      case Some(q) =>
        MintKeepsForm(r, ds[i], sigs[i], now);
        BatchTail(q, ds, sigs, now, i + 1);
    }
  }

  /**
   A non-empty batch succeeds exactly when the same deposits one by one all succeed, and ends in the
   same state. Only the empty batch differs: paused, it reverts while no calls at all trivially succeed.
   */
  lemma BatchRefinesSingles(r: Router, ds: seq<Deposit>, sigs: seq<Signature>, now: nat)
    requires WellFormed(r) && |ds| == |sigs|
    ensures ds != [] || !Paused(r) <==> BatchMintDeposit(r, ds, sigs, now) == Successively(r, ds, sigs, now)
  {
    if !Paused(r) {
      BatchTail(r, ds, sigs, now, 0);
      assert ds[0..] == ds && sigs[0..] == sigs;
    }
  }

  // ---------------------------------------------------------------- runs

  datatype Op =
    | Mint(d: Deposit, sig: Signature, now: nat)
    | BatchMint(ds: seq<Deposit>, sigs: seq<Signature>, now: nat)
    | BurnForWithdrawal(token: Token, sender: Account, amount: nat)
    | Transfer(token: Token, sender: Account, to: Account, amount: nat)
    | Register(token: Token, limit: nat)
    | SetLimit(token: Token, limit: nat)
    | SetPaused(auto: bool, manual: bool)
    | SetFees(feeBps: nat, shareBps: nat, stakeholders: Account, treasury: Account)

  function Burned(r: Router, token: Token, sender: Account, amount: nat): Option<Router> {
    if token !in r.registered || amount == 0 || Get(r.balances, (token, sender)) < amount
       || Get(r.totalMinted, token) < amount then None
    else Some(r.(balances := r.balances[(token, sender) := Get(r.balances, (token, sender)) - amount],
                 outboundNonce := r.outboundNonce + 1,
                 totalMinted := r.totalMinted[token := Get(r.totalMinted, token) - amount]))
  }

  function Apply(r: Router, op: Op): Option<Router>
    requires WellFormed(r)
  {
    match op
    case Mint(d, sig, now) => MintDeposit(r, d, sig, now)
    case BatchMint(ds, sigs, now) => BatchMintDeposit(r, ds, sigs, now)
    case BurnForWithdrawal(token, sender, amount) => Burned(r, token, sender, amount)
    case Transfer(token, sender, to, amount) =>
      if Get(r.balances, (token, sender)) < amount then None
      else
        var b := r.balances[(token, sender) := Get(r.balances, (token, sender)) - amount];
        Some(r.(balances := Credit(b, token, to, amount)))
    case Register(token, limit) =>
      if token in r.registered then None
      else Some(r.(registered := r.registered + {token}, dailyLimit := r.dailyLimit[token := limit]))
    case SetLimit(token, limit) =>
      if token !in r.registered then None else Some(r.(dailyLimit := r.dailyLimit[token := limit]))
    case SetPaused(auto, manual) => Some(r.(autoPaused := auto, manualPaused := manual))
    case SetFees(feeBps, shareBps, stakeholders, treasury) =>
      if feeBps > MAX_BRIDGE_FEE_BPS || shareBps > 10000 then None
      else Some(r.(config := r.config.(feeBps := feeBps, shareBps := shareBps, stakeholders := stakeholders, treasury := treasury)))
  }

  /** A router with the deposits it has processed and the burns it has emitted, in order. */
  datatype Books = Books(router: Router, deposits: seq<Deposit>, burns: seq<(Token, nat)>)

  function Record(b: Books, op: Op): Books
    requires WellFormed(b.router)
  {
    match Apply(b.router, op)
    case None => b
    case Some(r) =>
      Books(r,
            b.deposits + (match op case Mint(d, _, _) => [d] case BatchMint(ds, _, _) => ds case _ => []),
            b.burns + (match op case BurnForWithdrawal(t, _, amount) => [(t, amount)] case _ => []))
  }

  function Run(b: Books, ops: seq<Op>): Books
    requires WellFormed(b.router)
    decreases |ops|
  {
    if ops == [] then b
    else ApplyKeepsForm(b.router, ops[0]); Run(Record(b, ops[0]), ops[1..])
  }

  lemma ApplyKeepsForm(r: Router, op: Op)
    requires WellFormed(r)
    ensures Apply(r, op).Some? ==> WellFormed(Apply(r, op).value)
  {
    if op.BatchMint? && Apply(r, op).Some? { BatchKeepsForm(r, op.ds, op.sigs, op.now, 0); }
  }

  lemma {:induction false} BatchKeepsForm(r: Router, ds: seq<Deposit>, sigs: seq<Signature>, now: nat, i: nat)
    requires WellFormed(r) && |ds| == |sigs| && i <= |ds| && BatchFrom(r, ds, sigs, now, i).Some?
    ensures WellFormed(BatchFrom(r, ds, sigs, now, i).value)
    decreases |ds| - i
  {
    if i < |ds| {
      MintKeepsForm(r, ds[i], sigs[i], now);
      BatchKeepsForm(MintUnpaused(r, ds[i], sigs[i], now).value, ds, sigs, now, i + 1);
    }
  }

  /** Totals of one token over deposits, burns and accounts. */
  function Deposited(ds: seq<Deposit>, t: Token): nat {
    if ds == [] then 0 else Deposited(ds[..|ds| - 1], t) + if ds[|ds| - 1].token == t then ds[|ds| - 1].amount else 0
  }

  function BurnedTotal(bs: seq<(Token, nat)>, t: Token): nat {
    if bs == [] then 0 else BurnedTotal(bs[..|bs| - 1], t) + if bs[|bs| - 1].0 == t then bs[|bs| - 1].1 else 0
  }

  ghost function Holding(t: Token): ((Token, Account), nat) -> int {
    (k: (Token, Account), v: nat) => if k.0 == t then v else 0
  }

  ghost function Circulating(r: Router, t: Token): int { Sum(r.balances, Holding(t)) }

  /** totalMinted of one token is processed deposits less burns, and is what circulates. */
  ghost predicate TotalsAgree(b: Books, t: Token) {
    && Get(b.router.totalMinted, t) == Deposited(b.deposits, t) - BurnedTotal(b.burns, t)
    && Get(b.router.totalMinted, t) == Circulating(b.router, t)
  }

  /** No deposit was processed twice, and each is remembered. */
  ghost predicate ProcessedOnce(b: Books) {
    && (forall i, j :: 0 <= i < j < |b.deposits| ==>
          (b.deposits[i].source, b.deposits[i].nonce) != (b.deposits[j].source, b.deposits[j].nonce))
    && (forall d :: d in b.deposits ==> (d.source, d.nonce) in b.router.processed)
  }

  ghost predicate Balanced(b: Books) { (forall t :: TotalsAgree(b, t)) && ProcessedOnce(b) }

  lemma CreditSum(b: map<(Token, Account), nat>, t: Token, a: Account, x: nat, other: Token)
    ensures Sum(Credit(b, t, a, x), Holding(other)) == Sum(b, Holding(other)) + if t == other then x else 0
  {
    SumUpdate<(Token, Account), nat>(b, Holding(other), (t, a), Get(b, (t, a)) + x);
  }

  /** The recipient's part and the two fee shares together create the amount, each credited only when not zero. */
  lemma PartsCreate(b: map<(Token, Account), nat>, d: Deposit, fee: nat, shared: nat, stakeholders: Account, treasury: Account, other: Token)
    requires shared <= fee <= d.amount
    ensures var b0 := Credit(b, d.token, d.recipient, d.amount - fee);
            var b1 := if fee > 0 && shared > 0 then Credit(b0, d.token, stakeholders, shared) else b0;
            var b2 := if fee > 0 && fee - shared > 0 then Credit(b1, d.token, treasury, fee - shared) else b1;
            Sum(b2, Holding(other)) == Sum(b, Holding(other)) + if d.token == other then d.amount else 0
  {
    var b0 := Credit(b, d.token, d.recipient, d.amount - fee);
    CreditSum(b, d.token, d.recipient, d.amount - fee, other);
    CreditSum(b0, d.token, stakeholders, shared, other);
    var b1 := if fee > 0 && shared > 0 then Credit(b0, d.token, stakeholders, shared) else b0;
    CreditSum(b1, d.token, treasury, fee - shared, other);
  }

  /** Whatever the split, exactly the deposited amount is created. */
  lemma SplitCreatesAmount(r: Router, d: Deposit, other: Token)
    requires WellFormed(r)
    ensures Sum(MintSplit(r, d), Holding(other)) == Sum(r.balances, Holding(other)) + if d.token == other then d.amount else 0
  {
    ShareAtMost(d.amount, r.config.feeBps, 10000);
    var fee := Bps(d.amount, r.config.feeBps);
    ShareAtMost(fee, r.config.shareBps, 10000);
    PartsCreate(r.balances, d, fee, Bps(fee, r.config.shareBps), r.config.stakeholders, r.config.treasury, other);
  }

  /** One committed mint, given only what it does to the books. */
  lemma MintBooks(b: Books, d: Deposit, c: Books)
    requires Balanced(b) && c.deposits == b.deposits + [d] && c.burns == b.burns
    requires (d.source, d.nonce) !in b.router.processed && c.router.processed == b.router.processed + {(d.source, d.nonce)}
    requires c.router.totalMinted == b.router.totalMinted[d.token := Get(b.router.totalMinted, d.token) + d.amount]
    requires forall t :: Circulating(c.router, t) == Circulating(b.router, t) + if d.token == t then d.amount else 0
    ensures Balanced(c)
  {
    assert c.deposits[..|b.deposits|] == b.deposits;
    forall t ensures TotalsAgree(c, t) { assert TotalsAgree(b, t); }
    forall i, j | 0 <= i < j < |c.deposits|
      ensures (c.deposits[i].source, c.deposits[i].nonce) != (c.deposits[j].source, c.deposits[j].nonce)
    {
      assert c.deposits[i] in b.deposits;
    }
  }

  lemma MintBalances(b: Books, d: Deposit, sig: Signature, now: nat)
    requires WellFormed(b.router) && Balanced(b) && MintUnpaused(b.router, d, sig, now).Some?
    ensures Balanced(b.(router := MintUnpaused(b.router, d, sig, now).value, deposits := b.deposits + [d]))
  {
    var c := b.(router := MintUnpaused(b.router, d, sig, now).value, deposits := b.deposits + [d]);
    forall t ensures Circulating(c.router, t) == Circulating(b.router, t) + if d.token == t then d.amount else 0 {
      SplitCreatesAmount(b.router, d, t);
    }
    MintBooks(b, d, c);
  }

  lemma {:induction false} BatchBalances(b: Books, ds: seq<Deposit>, sigs: seq<Signature>, now: nat, i: nat)
    requires WellFormed(b.router) && Balanced(b) && |ds| == |sigs| && i <= |ds|
    requires BatchFrom(b.router, ds, sigs, now, i).Some?
    ensures Balanced(b.(router := BatchFrom(b.router, ds, sigs, now, i).value, deposits := b.deposits + ds[i..]))
    decreases |ds| - i
  {
    if i == |ds| {
      assert b.deposits + ds[i..] == b.deposits;
    } else {
      var q := MintUnpaused(b.router, ds[i], sigs[i], now).value;
      MintKeepsForm(b.router, ds[i], sigs[i], now);
      MintBalances(b, ds[i], sigs[i], now);
      BatchBalances(b.(router := q, deposits := b.deposits + [ds[i]]), ds, sigs, now, i + 1);
      assert b.deposits + [ds[i]] + ds[i + 1..] == b.deposits + ds[i..];
    }
  }

  lemma BurnBalances(b: Books, token: Token, sender: Account, amount: nat)
    requires Balanced(b) && Burned(b.router, token, sender, amount).Some?
    ensures Balanced(b.(router := Burned(b.router, token, sender, amount).value, burns := b.burns + [(token, amount)]))
  {
    var c := b.(router := Burned(b.router, token, sender, amount).value, burns := b.burns + [(token, amount)]);
    assert c.burns[..|b.burns|] == b.burns;
    forall t ensures TotalsAgree(c, t) {
      assert TotalsAgree(b, t);
      SumUpdate<(Token, Account), nat>(b.router.balances, Holding(t), (token, sender), Get(b.router.balances, (token, sender)) - amount);
    }
  }

  lemma TransferBalances(b: Books, op: Op)
    requires WellFormed(b.router) && Balanced(b) && op.Transfer? && Apply(b.router, op).Some?
    ensures Balanced(b.(router := Apply(b.router, op).value))
  {
    var c := b.(router := Apply(b.router, op).value);
    var left := Get(b.router.balances, (op.token, op.sender)) - op.amount;
    forall t ensures TotalsAgree(c, t) {
      assert TotalsAgree(b, t);
      SumUpdate<(Token, Account), nat>(b.router.balances, Holding(t), (op.token, op.sender), left);
      CreditSum(b.router.balances[(op.token, op.sender) := left], op.token, op.to, op.amount, t);
    }
  }

  /** Registration and the owner's settings touch no balance. */
  lemma SettingBalances(b: Books, r: Router)
    requires Balanced(b) && r.totalMinted == b.router.totalMinted && r.balances == b.router.balances && r.processed == b.router.processed
    ensures Balanced(b.(router := r))
  {
    forall t ensures TotalsAgree(b.(router := r), t) { assert TotalsAgree(b, t); }
  }

  lemma RecordBalances(b: Books, op: Op)
    requires WellFormed(b.router) && Balanced(b)
    ensures Balanced(Record(b, op))
  {
    if Apply(b.router, op).Some? {
      var c := Record(b, op);
      match op
      case Mint(d, sig, now) =>
        MintBalances(b, d, sig, now);
        assert c == b.(router := c.router, deposits := b.deposits + [d]);
      case BatchMint(ds, sigs, now) =>
        BatchBalances(b, ds, sigs, now, 0);
        assert ds[0..] == ds;
        assert c == b.(router := c.router, deposits := b.deposits + ds);
      case BurnForWithdrawal(token, sender, amount) =>
        BurnBalances(b, token, sender, amount);
        assert c == b.(router := c.router, burns := b.burns + [(token, amount)]);
      case Transfer(_, _, _, _) =>
        TransferBalances(b, op);
        assert c == b.(router := c.router);
      case _ =>
        SettingBalances(b, c.router);
        assert c == b.(router := c.router);
    }
  }

  /** In every run, token by token: totalMinted == processed deposits - burns == tokens in circulation. */
  lemma {:induction false} RunBalances(b: Books, ops: seq<Op>)
    requires WellFormed(b.router) && Balanced(b)
    ensures Balanced(Run(b, ops))
    decreases |ops|
  {
    if ops != [] {
      ApplyKeepsForm(b.router, ops[0]);
      RecordBalances(b, ops[0]);
      RunBalances(Record(b, ops[0]), ops[1..]);
    }
  }

  /** So no burn is ever refused by the counter: a holder can always exit, paused or not. */
  lemma ExitGuaranteed(b: Books, ops: seq<Op>, token: Token, sender: Account, amount: nat)
    requires WellFormed(b.router) && Balanced(b)
    ensures var r := Run(b, ops).router;
            token in r.registered && 0 < amount <= Get(r.balances, (token, sender)) ==> Burned(r, token, sender, amount).Some?
  {
    RunBalances(b, ops);
    var r := Run(b, ops).router;
    assert TotalsAgree(Run(b, ops), token);
    SumBounds(r.balances, Holding(token), (token, sender));
  }

  // ---------------------------------------------------------------- who gets what

  /**
   A mint gives the recipient the amount less the floored fee, the stakeholders their floored share of the fee
   and the treasury the rest, in that token, and nobody else anything; an account in several roles gets all of them.
   */
  lemma MintPays(r: Router, d: Deposit, sig: Signature, now: nat, fee: nat, shared: nat, t: Token, a: Account)
    requires WellFormed(r) && MintUnpaused(r, d, sig, now).Some?
    requires fee * 10000 <= d.amount * r.config.feeBps < (fee + 1) * 10000
    requires shared * 10000 <= fee * r.config.shareBps < (shared + 1) * 10000
    ensures shared <= fee <= d.amount
    ensures Get(MintUnpaused(r, d, sig, now).value.balances, (t, a))
            == Get(r.balances, (t, a))
               + if t != d.token then 0
                 else (if a == d.recipient then d.amount - fee else 0) + (if a == r.config.stakeholders then shared else 0)
                      + (if a == r.config.treasury then fee - shared else 0)
  {
    DivUnique(d.amount * r.config.feeBps, 10000, fee);
    DivUnique(fee * r.config.shareBps, 10000, shared);
    ShareAtMost(d.amount, r.config.feeBps, 10000);
    ShareAtMost(fee, r.config.shareBps, 10000);
  }

  /** It commits exactly for an unprocessed deposit of a registered token that the group signed for this chain, within the limit. */
  lemma MintCommitsIff(r: Router, d: Deposit, sig: Signature, now: nat)
    requires WellFormed(r)
    ensures MintDeposit(r, d, sig, now).Some?
            <==> !r.autoPaused && !r.manualPaused && d.token in r.registered && (d.source, d.nonce) !in r.processed && d.amount > 0
                 && sig == Signature(r.config.mpcGroup, Digest(r.config.chainId, d)) && Check(LimiterOf(r, d.token), d.amount, now).Some?
    ensures MintDeposit(r, d, sig, now).Some? ==>
              var q := MintDeposit(r, d, sig, now).value;
              && q.processed == r.processed + {(d.source, d.nonce)} && Get(q.totalMinted, d.token) == Get(r.totalMinted, d.token) + d.amount
              && forall t :: t != d.token ==> Get(q.totalMinted, t) == Get(r.totalMinted, t)
  {
    LimiterRefines(r, d.token, d.amount, now, d.token);
  }

  /** A burn takes exactly the amount from the sender and from nobody else, and uses one outbound nonce. */
  lemma BurnTakes(r: Router, token: Token, sender: Account, amount: nat, t: Token, a: Account)
    requires Burned(r, token, sender, amount).Some?
    ensures var q := Burned(r, token, sender, amount).value;
            && Get(r.balances, (t, a)) == Get(q.balances, (t, a)) + (if t == token && a == sender then amount else 0)
            && Get(r.totalMinted, t) == Get(q.totalMinted, t) + (if t == token then amount else 0)
            && q.outboundNonce == r.outboundNonce + 1 && q.processed == r.processed
  {
  }

  /** A limit set, or given at registration, is the limit of that token's next mint, and of no other's; registering is done once. */
  lemma LimitsTakeEffect(r: Router, token: Token, limit: nat, other: Token)
    requires WellFormed(r)
    ensures Apply(r, Register(token, limit)).Some? <==> token !in r.registered
    ensures Apply(r, SetLimit(token, limit)).Some? <==> token in r.registered
    ensures var s := Apply(r, if token in r.registered then SetLimit(token, limit) else Register(token, limit));
            && s.Some? && s.value.registered == r.registered + {token}
            && LimiterOf(s.value, other) == if other == token then LimiterOf(r, token).(limit := limit) else LimiterOf(r, other)
  {
  }

  /** In every run fees never exceed 1%, whatever is set, and the signing group stays. */
  lemma {:induction false} FeesStayCapped(b: Books, ops: seq<Op>)
    requires WellFormed(b.router)
    ensures var r := Run(b, ops).router; r.config.feeBps * 100 <= 10000 && r.config.shareBps <= 10000 && r.config.mpcGroup == b.router.config.mpcGroup
    decreases |ops|
  {
    if ops != [] {
      ApplyKeepsForm(b.router, ops[0]);
      GroupStays(b.router, ops[0]);
      FeesStayCapped(Record(b, ops[0]), ops[1..]);
    }
  }

  lemma GroupStays(r: Router, op: Op)
    requires WellFormed(r)
    ensures Apply(r, op).Some? ==> Apply(r, op).value.config.mpcGroup == r.config.mpcGroup
  {
    if op.BatchMint? && Apply(r, op).Some? { BatchKeepsConfig(r, op.ds, op.sigs, op.now, 0); }
  }

  lemma {:induction false} BatchKeepsConfig(r: Router, ds: seq<Deposit>, sigs: seq<Signature>, now: nat, i: nat)
    requires WellFormed(r) && |ds| == |sigs| && i <= |ds| && BatchFrom(r, ds, sigs, now, i).Some?
    ensures BatchFrom(r, ds, sigs, now, i).value.config == r.config
    decreases |ds| - i
  {
    if i < |ds| {
      MintKeepsForm(r, ds[i], sigs[i], now);
      BatchKeepsConfig(MintUnpaused(r, ds[i], sigs[i], now).value, ds, sigs, now, i + 1);
    }
  }

  /** Either pause stops mints. */
  lemma PauseStopsMints(r: Router, d: Deposit, sig: Signature, now: nat, auto: bool, manual: bool)
    requires WellFormed(r)
    ensures var s := Apply(r, SetPaused(auto, manual));
            && s.Some? && WellFormed(s.value) && (auto || manual ==> MintDeposit(s.value, d, sig, now) == None)
            && (!auto && !manual ==> MintDeposit(s.value, d, sig, now).Some? == MintUnpaused(s.value, d, sig, now).Some?)
  {
  }

  /** What the router alone keeps, token by token: its counter is what circulates. */
  ghost predicate Circulates(r: Router) { forall t :: Counts(r, t) }

  ghost predicate Counts(r: Router, t: Token) { Get(r.totalMinted, t) == Circulating(r, t) }

  lemma MintCirculates(r: Router, d: Deposit, sig: Signature, now: nat)
    requires WellFormed(r) && Circulates(r) && MintUnpaused(r, d, sig, now).Some?
    ensures Circulates(MintUnpaused(r, d, sig, now).value)
  {
    forall t ensures Counts(MintUnpaused(r, d, sig, now).value, t) {
      assert Counts(r, t);
      SplitCreatesAmount(r, d, t);
    }
  }

  lemma {:induction false} BatchCirculates(r: Router, ds: seq<Deposit>, sigs: seq<Signature>, now: nat, i: nat)
    requires WellFormed(r) && Circulates(r) && |ds| == |sigs| && i <= |ds| && BatchFrom(r, ds, sigs, now, i).Some?
    ensures Circulates(BatchFrom(r, ds, sigs, now, i).value)
    decreases |ds| - i
  {
    if i < |ds| {
      MintKeepsForm(r, ds[i], sigs[i], now);
      MintCirculates(r, ds[i], sigs[i], now);
      BatchCirculates(MintUnpaused(r, ds[i], sigs[i], now).value, ds, sigs, now, i + 1);
    }
  }

  lemma BurnCirculates(r: Router, token: Token, sender: Account, amount: nat)
    requires Circulates(r) && Burned(r, token, sender, amount).Some?
    ensures Circulates(Burned(r, token, sender, amount).value)
  {
    forall t ensures Counts(Burned(r, token, sender, amount).value, t) {
      assert Counts(r, t);
      SumUpdate<(Token, Account), nat>(r.balances, Holding(t), (token, sender), Get(r.balances, (token, sender)) - amount);
    }
  }

  // ---------------------------------------------------------------- the daily limit over a run

  /** Mints come in order of time, none before `from`. */
  ghost predicate Chronological(ops: seq<Op>, from: int)
    decreases |ops|
  {
    ops == [] || (if ops[0].Mint? || ops[0].BatchMint? then ops[0].now >= from && Chronological(ops[1..], ops[0].now)
                  else Chronological(ops[1..], from))
  }

  predicate SetsLimit(op: Op, t: Token) { (op.SetLimit? || op.Register?) && op.token == t }

  /** What a committed call deposits of a token, if it falls between two times. */
  function DepositedBy(op: Op, t: Token, a: int, b: int): nat {
    match op
    case Mint(d, _, now) => if a <= now <= b then Deposited([d], t) else 0
    case BatchMint(ds, _, now) => if a <= now <= b then Deposited(ds, t) else 0
    case _ => 0
  }

  function DepositedBetween(r: Router, ops: seq<Op>, t: Token, a: int, b: int): nat
    requires WellFormed(r)
    decreases |ops|
  {
    if ops == [] then 0
    else match Apply(r, ops[0])
         case None => DepositedBetween(r, ops[1..], t, a, b)
         case Some(q) => ApplyKeepsForm(r, ops[0]); DepositedBy(ops[0], t, a, b) + DepositedBetween(q, ops[1..], t, a, b)
  }

  lemma {:induction false} DepositedFront(d: Deposit, ds: seq<Deposit>, t: Token)
    ensures Deposited([d] + ds, t) == Deposited([d], t) + Deposited(ds, t)
  {
    if ds == [] {
      assert [d] + ds == [d];
    } else {
      assert ([d] + ds)[..|ds|] == [d] + ds[..|ds| - 1];
      DepositedFront(d, ds[..|ds| - 1], t);
    }
  }

  /** The trace stands for the router's limiter of a token. */
  ghost predicate Traces(tr: Trace, r: Router, t: Token) { tr.limiter == LimiterOf(r, t) }

  /** What a trace has granted between two times. */
  ghost function Total(tr: Trace, a: int, b: int): nat { TotalOf(tr.granted, Between(a, b)) }

  lemma MintLimits(r: Router, d: Deposit, sig: Signature, now: nat, t: Token)
    requires WellFormed(r) && MintUnpaused(r, d, sig, now).Some?
    ensures Check(LimiterOf(r, d.token), d.amount, now).Some?
    ensures LimiterOf(MintUnpaused(r, d, sig, now).value, t)
            == if t == d.token then Check(LimiterOf(r, t), d.amount, now).value else LimiterOf(r, t)
  {
    LimiterRefines(r, d.token, d.amount, now, t);
  }

  lemma MintTraces(r: Router, d: Deposit, sig: Signature, now: nat, t: Token, tr: Trace, last: int, a: int, b: int) returns (z: Trace)
    requires WellFormed(r) && MintUnpaused(r, d, sig, now).Some? && Traces(tr, r, t) && Inv(tr, last) && last <= now
    ensures Traces(z, MintUnpaused(r, d, sig, now).value, t) && Inv(z, now) && z.limiter.limit == tr.limiter.limit
    ensures Total(z, a, b) == Total(tr, a, b) + if a <= now <= b then Deposited([d], t) else 0
  {
    MintLimits(r, d, sig, now, t);
    assert Deposited([d], t) == if d.token == t then d.amount else 0 by { assert [d][..0] == []; }
    z := tr;
    if d.token == t {
      z := Serve(tr, Request(d.amount, now));
      ServeKeeps(tr, Request(d.amount, now), last);
      ServeAdds(tr, Request(d.amount, now), a, b);
    }
  }

  lemma {:induction false} BatchTraces(r: Router, ds: seq<Deposit>, sigs: seq<Signature>, now: nat, i: nat, t: Token, tr: Trace, last: int, a: int, b: int)
    returns (z: Trace)
    requires WellFormed(r) && |ds| == |sigs| && i <= |ds| && BatchFrom(r, ds, sigs, now, i).Some?
    requires Traces(tr, r, t) && Inv(tr, last) && last <= now
    ensures Traces(z, BatchFrom(r, ds, sigs, now, i).value, t) && Inv(z, now) && z.limiter.limit == tr.limiter.limit
    ensures Total(z, a, b) == Total(tr, a, b) + if a <= now <= b then Deposited(ds[i..], t) else 0
    decreases |ds| - i
  {
    if i == |ds| {
      z := tr;
    } else {
      MintKeepsForm(r, ds[i], sigs[i], now);
      var y := MintTraces(r, ds[i], sigs[i], now, t, tr, last, a, b);
      z := BatchTraces(MintUnpaused(r, ds[i], sigs[i], now).value, ds, sigs, now, i + 1, t, y, now, a, b);
      assert ds[i..] == [ds[i]] + ds[i + 1..];
      DepositedFront(ds[i], ds[i + 1..], t);
    }
  }

  function TimeOf(op: Op, last: int): int { if op.Mint? || op.BatchMint? then op.now else last }

  lemma OpTraces(r: Router, op: Op, t: Token, tr: Trace, last: int, a: int, b: int) returns (z: Trace)
    requires WellFormed(r) && Apply(r, op).Some? && !SetsLimit(op, t)
    requires Traces(tr, r, t) && Inv(tr, last) && last <= TimeOf(op, last)
    ensures Traces(z, Apply(r, op).value, t) && Inv(z, TimeOf(op, last)) && z.limiter.limit == tr.limiter.limit
    ensures Total(z, a, b) == Total(tr, a, b) + DepositedBy(op, t, a, b)
  {
    match op
    case Mint(d, sig, now) => z := MintTraces(r, d, sig, now, t, tr, last, a, b);
    case BatchMint(ds, sigs, now) =>
      z := BatchTraces(r, ds, sigs, now, 0, t, tr, last, a, b);
      assert ds[0..] == ds;
    case _ => z := tr;
  }

  lemma Waits(tr: Trace, last: int, now: int)
    requires Inv(tr, last) && last <= now
    ensures Inv(tr, now)
  {
  }

  lemma DaysHold(tr: Trace, last: int, a: int, b: int)
    requires Inv(tr, last) && b - a <= DAY
    ensures Total(tr, a, b) <= 2 * tr.limiter.limit
  {
  }

  /** From any state, while the limit of a token is fixed: what was granted before and is deposited during a day is at most twice it. */
  lemma {:induction false} RunWithinLimit(r: Router, ops: seq<Op>, t: Token, tr: Trace, last: int, a: int, b: int)
    requires WellFormed(r) && Traces(tr, r, t) && Inv(tr, last) && Chronological(ops, last) && b - a <= DAY
    requires forall op :: op in ops ==> !SetsLimit(op, t)
    ensures Total(tr, a, b) + DepositedBetween(r, ops, t, a, b) <= 2 * tr.limiter.limit
    decreases |ops|
  {
    if ops == [] {
      DaysHold(tr, last, a, b);
    } else {
      var op := ops[0];
      assert !SetsLimit(op, t);
      ApplyKeepsForm(r, op);
      match Apply(r, op)
      case None =>
        Waits(tr, last, TimeOf(op, last));
        RunWithinLimit(r, ops[1..], t, tr, TimeOf(op, last), a, b);
      case Some(q) =>
        var z := OpTraces(r, op, t, tr, last, a, b);
        RunWithinLimit(q, ops[1..], t, z, TimeOf(op, last), a, b);
    }
  }

  /**
   In every run whose mints come in order of time, while the limit of a token is fixed and not zero: the
   deposits of it processed within any 86400 seconds total at most twice the limit.
   */
  lemma DayProcessesAtMostTwice(r: Router, ops: seq<Op>, t: Token, from: int, a: int, b: int)
    requires WellFormed(r) && Get(r.dailyLimit, t) > 0 && b - a <= DAY
    requires Chronological(ops, from) && forall op :: op in ops ==> !SetsLimit(op, t)
    ensures DepositedBetween(r, ops, t, a, b) <= 2 * Get(r.dailyLimit, t)
  {
    RunWithinLimit(r, ops, t, Trace(LimiterOf(r, t), 0, []), from, a, b);
  }

  lemma DeployedBalanced(config: Config)
    ensures Balanced(Books(Router(config, false, false, {}, {}, 0, map[], map[], map[], map[], map[]), [], []))
  {
  }
}

/** The router object; the batch repeats the single mint's code in its loop. */
module OmnichainContract {
  import opened Options
  import opened Numbers
  import opened DailyLimit
  import opened OmnichainModel

  class OmnichainRouter {
    var config: Config
    var autoPaused: bool
    var manualPaused: bool
    var registeredTokens: set<Token>
    var processedDeposits: set<(nat, nat)>
    var outboundNonce: nat
    var totalMinted: map<Token, nat>
    var dailyMintLimit: map<Token, nat>
    var dailyMinted: map<Token, nat>
    var mintPeriodStart: map<Token, nat>
    var balances: map<(Token, Account), nat> // of all bridge tokens

    function State(): Router
      reads this
    {
      Router(config, autoPaused, manualPaused, registeredTokens, processedDeposits, outboundNonce, totalMinted,
             dailyMintLimit, dailyMinted, mintPeriodStart, balances)
    }

    constructor (c: Config)
      requires c.feeBps <= MAX_BRIDGE_FEE_BPS && c.shareBps <= 10000 && c.mpcGroup != 0
      ensures WellFormed(State()) && Balanced(Books(State(), [], []))
    {
      config, autoPaused, manualPaused, registeredTokens, processedDeposits := c, false, false, {}, {};
      outboundNonce, totalMinted, dailyMintLimit, dailyMinted, mintPeriodStart, balances := 0, map[], map[], map[], map[], map[];
      new;
      DeployedBalanced(c);
    }

    /** `_checkDailyLimit`, without the revert's undoing: the callers do that. */
    method CheckLimit(t: Token, amount: nat, now: nat) returns (ok: bool)
      modifies this`dailyMinted, this`mintPeriodStart
      ensures ok == CheckDailyLimit(old(State()), t, amount, now).Some?
      ensures ok ==> State() == CheckDailyLimit(old(State()), t, amount, now).value
    {
      var limit := Get(dailyMintLimit, t);
      if limit == 0 { return true; }
      if now >= Get(mintPeriodStart, t) + DAY {
        dailyMinted := dailyMinted[t := 0];
        mintPeriodStart := mintPeriodStart[t := now];
      }
      dailyMinted := dailyMinted[t := Get(dailyMinted, t) + amount];
      ok := Get(dailyMinted, t) <= limit;
    }

    method MintTo(t: Token, a: Account, x: nat)
      modifies this`balances
      ensures balances == Credit(old(balances), t, a, x)
    {
      balances := balances[(t, a) := Get(balances, (t, a)) + x];
    }

    /** The recipient's part and the fee shares. */
    method MintParts(d: Deposit)
      requires WellFormed(State())
      modifies this`balances
      ensures balances == MintSplit(old(State()), d)
    {
      ShareAtMost(d.amount, config.feeBps, 10000);
      var fee := Bps(d.amount, config.feeBps);
      MintTo(d.token, d.recipient, d.amount - fee);
      if fee > 0 {
        ShareAtMost(fee, config.shareBps, 10000);
        var toStakeholders := Bps(fee, config.shareBps);
        var toTreasury := fee - toStakeholders;
        if toStakeholders > 0 { MintTo(d.token, config.stakeholders, toStakeholders); }
        if toTreasury > 0 { MintTo(d.token, config.treasury, toTreasury); }
      }
    }

    /** What the single mint and the batch loop both do to a deposit after the pause check. */
    method Process(d: Deposit, sig: Signature, now: nat) returns (ok: bool)
      requires WellFormed(State())
      modifies this`processedDeposits, this`totalMinted, this`dailyMinted, this`mintPeriodStart, this`balances
      ensures ok == MintUnpaused(old(State()), d, sig, now).Some?
      ensures ok ==> State() == MintUnpaused(old(State()), d, sig, now).value
      ensures !ok ==> unchanged(`processedDeposits, `totalMinted, `balances)
    {
      if d.token !in registeredTokens || (d.source, d.nonce) in processedDeposits || !(d.amount > 0) { return false; }
      if Recover(Digest(config.chainId, d), sig) != config.mpcGroup { return false; }
      ok := CheckLimit(d.token, d.amount, now);
      if !ok { return; }
      processedDeposits := processedDeposits + {(d.source, d.nonce)};
      MintParts(d);
      totalMinted := totalMinted[d.token := Get(totalMinted, d.token) + d.amount];
    }

    method MintDeposit(d: Deposit, sig: Signature, now: nat) returns (ok: bool)
      requires WellFormed(State())
      modifies this
      ensures ok == OmnichainModel.MintDeposit(old(State()), d, sig, now).Some?
      ensures State() == if ok then OmnichainModel.MintDeposit(old(State()), d, sig, now).value else old(State())
      ensures Circulates(old(State())) ==> Circulates(State())
    {
      if Circulates(State()) && MintUnpaused(State(), d, sig, now).Some? { MintCirculates(State(), d, sig, now); }
      if autoPaused || manualPaused { return false; }
      var minted0, start0 := dailyMinted, mintPeriodStart;
      ok := Process(d, sig, now);
      if !ok { dailyMinted, mintPeriodStart := minted0, start0; }
    }

    method BatchMintDeposit(ds: seq<Deposit>, sigs: seq<Signature>, now: nat) returns (ok: bool)
      requires WellFormed(State())
      modifies this
      ensures ok == OmnichainModel.BatchMintDeposit(old(State()), ds, sigs, now).Some?
      ensures State() == if ok then OmnichainModel.BatchMintDeposit(old(State()), ds, sigs, now).value else old(State())
      ensures ds != [] && |ds| == |sigs| ==> ok == Successively(old(State()), ds, sigs, now).Some?
      ensures ok && ds != [] ==> Some(State()) == Successively(old(State()), ds, sigs, now)
      ensures Circulates(old(State())) ==> Circulates(State())
    {
      if |ds| == |sigs| && Circulates(State()) && BatchFrom(State(), ds, sigs, now, 0).Some? { BatchCirculates(State(), ds, sigs, now, 0); }
      if |ds| != |sigs| { return false; }
      BatchRefinesSingles(State(), ds, sigs, now);
      if autoPaused || manualPaused { return false; }
      ghost var before := State();
      var minted0, start0, processed0, balances0, total0 := dailyMinted, mintPeriodStart, processedDeposits, balances, totalMinted;
      var i := 0;
      while i < |ds|
        invariant 0 <= i <= |ds| && WellFormed(State())
        invariant BatchFrom(before, ds, sigs, now, 0) == BatchFrom(State(), ds, sigs, now, i)
        invariant unchanged(`config, `autoPaused, `manualPaused, `registeredTokens, `outboundNonce, `dailyMintLimit)
      {
        ok := Process(ds[i], sigs[i], now);
        if !ok {
          dailyMinted, mintPeriodStart, processedDeposits, balances, totalMinted := minted0, start0, processed0, balances0, total0;
          return;
        }
        i := i + 1;
      }
      ok := true;
    }

    /** Never looks at the pause flags. */
    method BurnForWithdrawal(token: Token, sender: Account, amount: nat) returns (ok: bool)
      modifies this
      ensures ok == Burned(old(State()), token, sender, amount).Some?
      ensures State() == if ok then Burned(old(State()), token, sender, amount).value else old(State())
      ensures Circulates(old(State())) ==> Circulates(State())
    {
      if Circulates(State()) && Burned(State(), token, sender, amount).Some? { BurnCirculates(State(), token, sender, amount); }
      ok := false;
      if token !in registeredTokens || !(amount > 0) || Get(balances, (token, sender)) < amount { return; }
      if Get(totalMinted, token) < amount { return; }
      balances := balances[(token, sender) := Get(balances, (token, sender)) - amount];
      outboundNonce := outboundNonce + 1;
      totalMinted := totalMinted[token := Get(totalMinted, token) - amount];
      ok := true;
    }
  }
}
