/** A vault that releases tokens against burn proofs signed by a threshold of oracles. */
module VaultProofs {
  type Address = nat

  /** What a signature that is over another message recovers to: an address nobody has. */
  const NOBODY: Address := 0

  /** A vault id is a hash; here it is the preimage, unique by its counter. */
  datatype VaultId = VaultId(token: nat, depositor: Address, counter: nat)

  /** What the oracles sign: a burn on a source chain, for one vault. */
  datatype Burned = Burned(sourceChain: nat, id: VaultId, amount: nat, burnNonce: nat)

  datatype Signature = Made(signer: Address, message: Burned) | Malformed

  type Threshold = n: nat | n > 0 witness 1

  /** `ECDSA.recover` of a signature that is not malformed. */
  function Recover(s: Signature, m: Burned): Address
    requires s.Made?
  {
    if s.message == m then s.signer else NOBODY
  }

  ghost predicate Readable(sigs: seq<Signature>, n: nat)
    requires n <= |sigs|
  {
    forall k :: 0 <= k < n ==> sigs[k].Made?
  }

  /** The distinct oracles among the signers of the first n signatures. */
  ghost function Valid(sigs: seq<Signature>, m: Burned, oracles: set<Address>, n: nat): set<Address>
    requires n <= |sigs|
  {
    set k | 0 <= k < n && sigs[k].Made? && Recover(sigs[k], m) in oracles :: Recover(sigs[k], m)
  }

  /** Some readable prefix carries enough distinct oracles: a malformed signature reverts only when it is reached. */
  ghost predicate Sufficient(sigs: seq<Signature>, m: Burned, oracles: set<Address>, threshold: nat) {
    exists n: nat :: n <= |sigs| && Readable(sigs, n) && |Valid(sigs, m, oracles, n)| >= threshold
  }

  /** The oracles that signed this very message. */
  ghost function Endorsers(sigs: seq<Signature>, m: Burned, oracles: set<Address>): set<Address> {
    set a | a in oracles && Made(a, m) in sigs
  }

  /** An accepted proof carries that many oracles' signatures over exactly its chain, vault, amount and nonce. */
  lemma SufficientIsEndorsed(sigs: seq<Signature>, m: Burned, oracles: set<Address>, threshold: nat)
    requires Sufficient(sigs, m, oracles, threshold) && NOBODY !in oracles
    ensures |Endorsers(sigs, m, oracles)| >= threshold
  {
    var n: nat :| n <= |sigs| && Readable(sigs, n) && |Valid(sigs, m, oracles, n)| >= threshold;
    var some, all := Valid(sigs, m, oracles, n), Endorsers(sigs, m, oracles);
    forall a | a in some ensures a in all {
      var k :| 0 <= k < n && Recover(sigs[k], m) == a;
      assert sigs[k] == Made(a, m);
    }
    SubsetSize(some, all);
  }

  /** Without a malformed one the order does not matter. */
  lemma SufficientIff(sigs: seq<Signature>, m: Burned, oracles: set<Address>, threshold: nat)
    requires NOBODY !in oracles && Readable(sigs, |sigs|)
    ensures Sufficient(sigs, m, oracles, threshold) <==> |Endorsers(sigs, m, oracles)| >= threshold
  {
    if Sufficient(sigs, m, oracles, threshold) { SufficientIsEndorsed(sigs, m, oracles, threshold); }
    var all := Valid(sigs, m, oracles, |sigs|);
    forall a | a in Endorsers(sigs, m, oracles) ensures a in all {
      var k :| 0 <= k < |sigs| && sigs[k] == Made(a, m);
      assert Recover(sigs[k], m) == a;
    }
    SubsetSize(Endorsers(sigs, m, oracles), all);
  }

  lemma SubsetSize(a: set<Address>, b: set<Address>)
    requires a <= b
    ensures |a| <= |b|
  {
    assert b == a + (b - a);
  }

  ghost function Elements(s: seq<Address>): set<Address> { set a | a in s }

  lemma ElementsAppend(s: seq<Address>, a: Address)
    requires a !in s
    ensures Elements(s + [a]) == Elements(s) + {a}
    ensures |Elements(s + [a])| == |Elements(s)| + 1
  {
    assert Elements(s + [a]) == Elements(s) + {a};
  }

  lemma ValidGrows(sigs: seq<Signature>, m: Burned, oracles: set<Address>, n: nat)
    requires n < |sigs| && sigs[n].Made?
    ensures var signer := Recover(sigs[n], m);
            Valid(sigs, m, oracles, n + 1) == Valid(sigs, m, oracles, n) + if signer in oracles then {signer} else {}
  {
    var grown := Valid(sigs, m, oracles, n) + if Recover(sigs[n], m) in oracles then {Recover(sigs[n], m)} else {};
    forall a | a in grown ensures a in Valid(sigs, m, oracles, n + 1) {
      if a in Valid(sigs, m, oracles, n) { var k :| 0 <= k < n && sigs[k].Made? && Recover(sigs[k], m) == a; }
    }
  }

  lemma ValidIncreasing(sigs: seq<Signature>, m: Burned, oracles: set<Address>, i: nat, j: nat)
    requires i <= j <= |sigs|
    ensures |Valid(sigs, m, oracles, i)| <= |Valid(sigs, m, oracles, j)|
  {
    SubsetSize(Valid(sigs, m, oracles, i), Valid(sigs, m, oracles, j));
  }

  /** Distinct signers are no more than signatures. */
  lemma {:induction false} ValidAtMost(sigs: seq<Signature>, m: Burned, oracles: set<Address>, n: nat)
    requires n <= |sigs| && Readable(sigs, n)
    ensures |Valid(sigs, m, oracles, n)| <= n
  {
    if n > 0 {
      ValidAtMost(sigs, m, oracles, n - 1);
      ValidGrows(sigs, m, oracles, n - 1);
    } else {
      assert Valid(sigs, m, oracles, 0) == {};
    }
  }

  /** What a scan up to the first unreadable signature, or the end, can conclude. */
  lemma NotSufficient(sigs: seq<Signature>, m: Burned, oracles: set<Address>, threshold: nat, i: nat)
    requires i <= |sigs| && |Valid(sigs, m, oracles, i)| < threshold && (i == |sigs| || sigs[i].Malformed?)
    ensures !Sufficient(sigs, m, oracles, threshold)
  {
    forall n: nat | n <= |sigs| && Readable(sigs, n) ensures |Valid(sigs, m, oracles, n)| < threshold {
      ValidIncreasing(sigs, m, oracles, n, i);
    }
  }

  lemma TooFew(sigs: seq<Signature>, m: Burned, oracles: set<Address>, threshold: nat)
    requires |sigs| < threshold
    ensures !Sufficient(sigs, m, oracles, threshold)
  {
    forall n: nat | n <= |sigs| && Readable(sigs, n) ensures |Valid(sigs, m, oracles, n)| < threshold {
      ValidAtMost(sigs, m, oracles, n);
    }
  }

  /** The inner loop: whether the signer was counted before. */
  method Scan(usedSigners: seq<Address>, signer: Address) returns (isDuplicate: bool)
    ensures isDuplicate <==> signer in usedSigners
  {
    isDuplicate := false;
    for j := 0 to |usedSigners|
      invariant !isDuplicate && forall k :: 0 <= k < j ==> usedSigners[k] != signer
    {
      if usedSigners[j] == signer { return true; }
    }
  }

  /** The signers counted so far are the distinct oracles of the signatures read. */
  ghost predicate Counted(used: seq<Address>, sigs: seq<Signature>, m: Burned, oracles: set<Address>, n: nat) {
    n <= |sigs| && Readable(sigs, n) && Elements(used) == Valid(sigs, m, oracles, n) && |Elements(used)| == |used|
  }

  lemma CountsNext(used: seq<Address>, sigs: seq<Signature>, m: Burned, oracles: set<Address>, n: nat)
    requires n < |sigs| && sigs[n].Made? && Counted(used, sigs, m, oracles, n)
    ensures var signer := Recover(sigs[n], m);
            Counted(if signer in oracles && signer !in used then used + [signer] else used, sigs, m, oracles, n + 1)
  {
    ValidGrows(sigs, m, oracles, n);
    var signer := Recover(sigs[n], m);
    if signer !in used { ElementsAppend(used, signer); } else { assert signer in Elements(used); }
  }

  /** The counted signers decide, once they reach the threshold or no further signature can be read. */
  lemma CountDecides(used: seq<Address>, sigs: seq<Signature>, m: Burned, oracles: set<Address>, threshold: nat, n: nat)
    requires Counted(used, sigs, m, oracles, n)
    ensures |used| >= threshold ==> Sufficient(sigs, m, oracles, threshold)
    ensures |used| < threshold && (n == |sigs| || sigs[n].Malformed?) ==> !Sufficient(sigs, m, oracles, threshold)
  {
    if |used| < threshold && (n == |sigs| || sigs[n].Malformed?) { NotSufficient(sigs, m, oracles, threshold, n); }
  }

  /**
   The signature loops of `_verifyBurnProof`: early exit, duplicate scan, malformed signatures and all,
   they accept exactly the sufficient proofs.
   */
  method CountSignatures(sigs: seq<Signature>, m: Burned, oracles: set<Address>, threshold: Threshold) returns (ok: bool)
    ensures ok <==> Sufficient(sigs, m, oracles, threshold)
  {
    var usedSigners: seq<Address> := [];
    for i := 0 to |sigs|
      invariant Counted(usedSigners, sigs, m, oracles, i) && |usedSigners| < threshold
    {
      CountDecides(usedSigners, sigs, m, oracles, threshold, i);
      if sigs[i].Malformed? { return false; }
      CountsNext(usedSigners, sigs, m, oracles, i);
      var signer := Recover(sigs[i], m);
      if signer !in oracles { continue; }
      var isDuplicate := Scan(usedSigners, signer);
      if isDuplicate { continue; }
      usedSigners := usedSigners + [signer];
      CountDecides(usedSigners, sigs, m, oracles, threshold, i + 1);
      if |usedSigners| >= threshold { return true; }
    }
    CountDecides(usedSigners, sigs, m, oracles, threshold, |sigs|);
    ok := false;
  }
}

/** The ERC20 vaults: deposits, releases, and what the contract holds. */
module CrossChainVault {
  import opened Options
  import opened MapSums
  import opened VaultProofs

  type Token = nat

  /** A burn proof as decoded from its bytes. */
  datatype Proof = Proof(burnNonce: nat, sourceChain: nat, signatures: seq<Signature>)

  /** The message its signatures are checked against. */
  function BurnOf(id: VaultId, amount: nat, proof: Proof): Burned { Burned(proof.sourceChain, id, amount, proof.burnNonce) }

  datatype Vault = Vault(
    owner: Address, bridge: Address, supportedTokens: set<Token>, supportedChains: set<nat>, oracles: set<Address>, threshold: Threshold,
    amounts: map<VaultId, nat>, used: set<(VaultId, nat)>, counter: nat, held: map<Token, nat>)

  datatype Op =
    | VaultERC20(caller: Address, token: Token, amount: nat, chain: nat)
    | Release(caller: Address, id: VaultId, amount: nat, proof: Option<Proof>)
    | SetOracle(caller: Address, oracle: Address, authorized: bool)
    | SetThreshold(caller: Address, threshold: nat)
    | SetSupported(caller: Address, token: Token, supported: bool)
    | SetChain(caller: Address, chain: nat, supported: bool)
    | SetBridge(caller: Address, bridge: Address)

  function Held(v: Vault, t: Token): nat { if t in v.held then v.held[t] else 0 }

  /** `_verifyBurnProof` says yes. */
  ghost predicate Accepts(v: Vault, id: VaultId, amount: nat, proof: Option<Proof>) {
    && proof.Some? && (id, proof.value.burnNonce) !in v.used
    && Sufficient(proof.value.signatures, BurnOf(id, amount, proof.value), v.oracles, v.threshold)
  }

  /** The state after a committed call; None when it reverts. */
  ghost function Apply(v: Vault, op: Op): Option<Vault> {
    match op
    case VaultERC20(caller, token, amount, chain) =>
      if token !in v.supportedTokens || chain !in v.supportedChains || amount == 0 then None
      else
        var id := VaultId(token, caller, v.counter);
        Some(v.(amounts := v.amounts[id := amount], counter := v.counter + 1, held := v.held[token := Held(v, token) + amount]))
    case Release(caller, id, amount, proof) =>
      if caller != v.bridge || id !in v.amounts || !Accepts(v, id, amount, proof) then None
      else if v.amounts[id] < amount || Held(v, id.token) < amount then None
      else Some(v.(amounts := v.amounts[id := v.amounts[id] - amount], used := v.used + {(id, proof.value.burnNonce)},
                   held := v.held[id.token := Held(v, id.token) - amount]))
    case SetOracle(caller, oracle, authorized) =>
      if caller != v.owner || oracle == 0 then None
      else Some(v.(oracles := if authorized then v.oracles + {oracle} else v.oracles - {oracle}))
    case SetThreshold(caller, threshold) =>
      if caller != v.owner || threshold == 0 then None else Some(v.(threshold := threshold))
    case SetSupported(caller, token, supported) =>
      if caller != v.owner then None
      else Some(v.(supportedTokens := if supported then v.supportedTokens + {token} else v.supportedTokens - {token}))
    case SetChain(caller, chain, supported) =>
      if caller != v.owner then None
      else Some(v.(supportedChains := if supported then v.supportedChains + {chain} else v.supportedChains - {chain}))
    case SetBridge(caller, bridge) =>
      if caller != v.owner then None else Some(v.(bridge := bridge))
  }

  // ---------------------------------------------------------------- runs

  datatype Released = Released(id: VaultId, burnNonce: nat, amount: nat)

  /** A vault contract with what was put in each vault and every release so far. */
  datatype Books = Books(vault: Vault, deposited: map<VaultId, nat>, releases: seq<Released>)

  ghost function Record(b: Books, op: Op): Books {
    match Apply(b.vault, op)
    case None => b
    case Some(v) =>
      match op
      case VaultERC20(caller, token, amount, _) =>
        b.(vault := v, deposited := b.deposited[VaultId(token, caller, b.vault.counter) := amount])
      case Release(_, id, amount, proof) => b.(vault := v, releases := b.releases + [Released(id, proof.value.burnNonce, amount)])
      case _ => b.(vault := v)
  }

  ghost function Run(b: Books, ops: seq<Op>): Books
    decreases |ops|
  {
    if ops == [] then b else Run(Record(b, ops[0]), ops[1..])
  }

  function ReleasedFrom(rs: seq<Released>, id: VaultId): nat {
    if rs == [] then 0
    else ReleasedFrom(rs[..|rs| - 1], id) + if rs[|rs| - 1].id == id then rs[|rs| - 1].amount else 0
  }

  ghost function OfToken(t: Token): (VaultId, nat) -> int { (id: VaultId, amount: nat) => if id.token == t then amount else 0 }

  ghost predicate Inv(b: Books) {
    && NOBODY !in b.vault.oracles
    && b.deposited.Keys == b.vault.amounts.Keys
    && (forall id :: id in b.vault.amounts ==> id.counter < b.vault.counter)
    && (forall r :: r in b.releases ==> r.id in b.vault.amounts && (r.id, r.burnNonce) in b.vault.used)
    && (forall i, j :: 0 <= i < j < |b.releases| ==>
          (b.releases[i].id, b.releases[i].burnNonce) != (b.releases[j].id, b.releases[j].burnNonce))
    && (forall id :: id in b.vault.amounts ==> Accounted(b, id))
    && (forall t :: Backed(b.vault, t))
  }

  /** What was put in a vault is what is left in it and what was released from it. */
  ghost predicate Accounted(b: Books, id: VaultId)
    requires id in b.vault.amounts && b.deposited.Keys == b.vault.amounts.Keys
  {
    b.vault.amounts[id] + ReleasedFrom(b.releases, id) == b.deposited[id]
  }

  /** The contract holds what its vaults of a token add up to. */
  ghost predicate Backed(v: Vault, t: Token) { Held(v, t) == Sum(v.amounts, OfToken(t)) }

  /** Nothing was released from a vault no release names. */
  lemma {:induction false} NothingReleased(rs: seq<Released>, id: VaultId)
    requires forall r :: r in rs ==> r.id != id
    ensures ReleasedFrom(rs, id) == 0
  {
    if rs != [] {
      assert rs[|rs| - 1] in rs;
      NothingReleased(rs[..|rs| - 1], id);
    }
  }

  lemma DepositKeeps(b: Books, op: Op)
    requires Inv(b) && op.VaultERC20? && Apply(b.vault, op).Some?
    ensures Inv(Record(b, op))
  {
    var c, id := Record(b, op), VaultId(op.token, op.caller, b.vault.counter);
    NothingReleased(b.releases, id);
    forall k | k in c.vault.amounts ensures Accounted(c, k) { assert k != id ==> Accounted(b, k); }
    forall t ensures Backed(c.vault, t) {
      SumUpdate<VaultId, nat>(b.vault.amounts, OfToken(t), id, op.amount);
      assert Backed(b.vault, t);
    }
  }

  /** A release, given only what it does to the books. */
  lemma ReleaseBooks(b: Books, c: Books, r: Released)
    requires Inv(b) && r.id in b.vault.amounts && (r.id, r.burnNonce) !in b.vault.used
    requires r.amount <= b.vault.amounts[r.id] && r.amount <= Held(b.vault, r.id.token)
    requires c.releases == b.releases + [r] && c.deposited == b.deposited
    requires c.vault == b.vault.(amounts := b.vault.amounts[r.id := b.vault.amounts[r.id] - r.amount],
                                 used := b.vault.used + {(r.id, r.burnNonce)},
                                 held := b.vault.held[r.id.token := Held(b.vault, r.id.token) - r.amount])
    ensures Inv(c)
  {
    LogStaysDistinct(b, r);
    forall id | id in c.vault.amounts ensures Accounted(c, id) {
      ReleasedAppend(b.releases, r, id);
      assert Accounted(b, id);
    }
    forall t ensures Backed(c.vault, t) {
      SumUpdate<VaultId, nat>(b.vault.amounts, OfToken(t), r.id, b.vault.amounts[r.id] - r.amount);
      assert Backed(b.vault, t);
    }
  }

  lemma ReleaseKeeps(b: Books, op: Op)
    requires Inv(b) && op.Release? && Apply(b.vault, op).Some?
    ensures Inv(Record(b, op))
  {
    ReleaseBooks(b, Record(b, op), Released(op.id, op.proof.value.burnNonce, op.amount));
  }

  lemma ReleasedAppend(rs: seq<Released>, r: Released, id: VaultId)
    ensures ReleasedFrom(rs + [r], id) == ReleasedFrom(rs, id) + if r.id == id then r.amount else 0
  {
    assert (rs + [r])[..|rs|] == rs;
  }

  /** A release under an unused nonce differs from every earlier one. */
  lemma LogStaysDistinct(b: Books, r: Released)
    requires Inv(b) && (r.id, r.burnNonce) !in b.vault.used
    ensures var rs := b.releases + [r];
            forall i, j :: 0 <= i < j < |rs| ==> (rs[i].id, rs[i].burnNonce) != (rs[j].id, rs[j].burnNonce)
  {
    var rs := b.releases + [r];
    forall i, j | 0 <= i < j < |rs| ensures (rs[i].id, rs[i].burnNonce) != (rs[j].id, rs[j].burnNonce) {
      assert rs[i] in b.releases;
    }
  }

  lemma {:induction false} RunKeeps(b: Books, ops: seq<Op>)
    requires Inv(b)
    ensures Inv(Run(b, ops))
    decreases |ops|
  {
    if ops != [] {
      if Apply(b.vault, ops[0]).Some? {
        match ops[0]
        case VaultERC20(_, _, _, _) => DepositKeeps(b, ops[0]);
        case Release(_, _, _, _) => ReleaseKeeps(b, ops[0]);
        case _ =>
          var c := Record(b, ops[0]);
          forall k | k in c.vault.amounts ensures Accounted(c, k) { assert Accounted(b, k); }
          forall t ensures Backed(c.vault, t) { assert Backed(b.vault, t); }
      }
      RunKeeps(Record(b, ops[0]), ops[1..]);
    }
  }

  /**
   In every run: no burn nonce of a vault releases twice, and what leaves a vault, over all its
   releases, never exceeds what was put in.
   */
  lemma ReleasesWithinDeposits(b: Books, ops: seq<Op>, id: VaultId)
    requires Inv(b)
    ensures var c := Run(b, ops);
            && (id in c.deposited ==> ReleasedFrom(c.releases, id) <= c.deposited[id])
            && (id !in c.deposited ==> ReleasedFrom(c.releases, id) == 0)
            && forall i, j :: 0 <= i < j < |c.releases| ==>
                 (c.releases[i].id, c.releases[i].burnNonce) != (c.releases[j].id, c.releases[j].burnNonce)
  {
    RunKeeps(b, ops);
    var c := Run(b, ops);
    if id in c.deposited { assert Accounted(c, id); } else { NothingReleased(c.releases, id); }
  }

  /** An accepted release within the vault's amount is never short of tokens. */
  lemma ReleaseIsFunded(b: Books, ops: seq<Op>, id: VaultId, amount: nat, proof: Option<Proof>)
    requires Inv(b)
    ensures var v := Run(b, ops).vault;
            (Apply(v, Release(v.bridge, id, amount, proof)).Some?
             <==> id in v.amounts && Accepts(v, id, amount, proof) && amount <= v.amounts[id])
  {
    RunKeeps(b, ops);
    var v := Run(b, ops).vault;
    SumBounds<VaultId, nat>(v.amounts, OfToken(id.token), id);
    assert Backed(v, id.token);
  }

  /** In every run a release takes that many oracles' signatures over exactly its chain, vault, amount and nonce. */
  lemma ReleaseIsSigned(b: Books, ops: seq<Op>, op: Op)
    requires Inv(b) && op.Release? && Apply(Run(b, ops).vault, op).Some?
    ensures var v, p := Run(b, ops).vault, op.proof.value;
            |Endorsers(p.signatures, BurnOf(op.id, op.amount, p), v.oracles)| >= v.threshold > 0
  {
    RunKeeps(b, ops);
    var v, p := Run(b, ops).vault, op.proof.value;
    SufficientIsEndorsed(p.signatures, BurnOf(op.id, op.amount, p), v.oracles, v.threshold);
  }

  /** So signatures collected for one burn are refused, in every run, for any other vault, amount, chain or nonce. */
  lemma ProofBindsBurn(b: Books, ops: seq<Op>, m: Burned, op: Op)
    requires Inv(b) && op.Release? && op.proof.Some? && BurnOf(op.id, op.amount, op.proof.value) != m
    requires forall s :: s in op.proof.value.signatures && s.Made? ==> s.message == m
    ensures Apply(Run(b, ops).vault, op) == None
  {
    if Apply(Run(b, ops).vault, op).Some? { ReleaseIsSigned(b, ops, op); }
  }

  /** Once the owner sets a threshold, every release takes that many oracles until it is set again. */
  lemma {:induction false} ThresholdHolds(b: Books, ops: seq<Op>, op: Op)
    requires Inv(b) && forall o :: o in ops ==> !o.SetThreshold?
    requires op.Release? && Apply(Run(b, ops).vault, op).Some?
    ensures var v, p := Run(b, ops).vault, op.proof.value;
            v.threshold == b.vault.threshold
            && |Endorsers(p.signatures, BurnOf(op.id, op.amount, p), v.oracles)| >= b.vault.threshold
    decreases |ops|
  {
    if ops == [] {
      ReleaseIsSigned(b, ops, op);
    } else {
      RunKeeps(b, [ops[0]]);
      assert [ops[0]][1..] == [] && Run(Record(b, ops[0]), []) == Record(b, ops[0]);
      ThresholdHolds(Record(b, ops[0]), ops[1..], op);
    }
  }

  /** Nonces are kept per vault and not per chain: after one release the same number is refused whatever chain it is from. */
  lemma {:induction false} NonceServesOneChain(b: Books, ops: seq<Op>, op: Op)
    requires op.Release? && op.proof.Some? && (op.id, op.proof.value.burnNonce) in b.vault.used
    ensures Apply(Run(b, ops).vault, op) == None
    decreases |ops|
  {
    if ops != [] { NonceServesOneChain(Record(b, ops[0]), ops[1..], op); }
  }

  // ---------------------------------------------------------------- who may do what

  /** A deposit goes in exactly for a supported token, a supported chain and a positive amount, into a new vault of its own. */
  lemma DepositCommitsIff(b: Books, caller: Address, token: Token, amount: nat, chain: nat)
    requires Inv(b)
    ensures var v, r, id := b.vault, Apply(b.vault, VaultERC20(caller, token, amount, chain)), VaultId(token, caller, b.vault.counter);
            && (r.Some? <==> token in v.supportedTokens && chain in v.supportedChains && amount > 0)
            && (r.Some? ==>
                  && id !in v.amounts && r.value.amounts.Keys == v.amounts.Keys + {id} && r.value.amounts[id] == amount
                  && Held(r.value, token) == Held(v, token) + amount && r.value.counter == v.counter + 1)
  {
  }

  /** Only the bridge releases, and a release takes exactly its amount from exactly its vault. */
  lemma OnlyBridgeReleases(v: Vault, op: Op)
    requires op.Release? && Apply(v, op).Some?
    ensures op.caller == v.bridge && op.id in v.amounts && op.amount <= v.amounts[op.id] && op.amount <= Held(v, op.id.token)
    ensures var w := Apply(v, op).value;
            && w.amounts == v.amounts[op.id := v.amounts[op.id] - op.amount]
            && forall t :: Held(w, t) == Held(v, t) - if t == op.id.token then op.amount else 0
  {
  }

  /** The settings of the owner. */
  predicate SameSettings(v: Vault, w: Vault) {
    && w.owner == v.owner && w.bridge == v.bridge && w.supportedTokens == v.supportedTokens && w.supportedChains == v.supportedChains
    && w.oracles == v.oracles && w.threshold == v.threshold
  }

  /** A run without calls of the owner leaves them all as they are. */
  lemma {:induction false} OnlyOwnerSets(b: Books, ops: seq<Op>)
    requires forall op :: op in ops ==> op.caller != b.vault.owner
    ensures SameSettings(b.vault, Run(b, ops).vault)
    decreases |ops|
  {
    if ops != [] {
      assert ops[0] in ops;
      OnlyOwnerSets(Record(b, ops[0]), ops[1..]);
    }
  }

  /** An oracle the owner has revoked counts for no release until it is authorised again. */
  lemma {:induction false} RevokedDoesNotCount(b: Books, ops: seq<Op>, oracle: Address)
    requires oracle !in b.vault.oracles && forall op :: op in ops ==> op != SetOracle(b.vault.owner, oracle, true)
    ensures oracle !in Run(b, ops).vault.oracles
    decreases |ops|
  {
    if ops != [] {
      var c := Record(b, ops[0]);
      assert ops[0] in ops && c.vault.owner == b.vault.owner && oracle !in c.vault.oracles;
      forall op | op in ops[1..] ensures op != SetOracle(c.vault.owner, oracle, true) { assert op in ops; }
      RevokedDoesNotCount(Record(b, ops[0]), ops[1..], oracle);
    }
  }

  /** What the owner sets holds at once: who is an oracle, what is supported, and who the bridge is. */
  lemma SettingsTakeEffect(v: Vault, a: Address, t: Token, chain: nat, on: bool)
    ensures a != NOBODY ==>
              var r := Apply(v, SetOracle(v.owner, a, on));
              r.Some? && (a in r.value.oracles <==> on) && forall o :: o != a ==> (o in r.value.oracles <==> o in v.oracles)
    ensures Apply(v, SetOracle(v.owner, NOBODY, on)) == None
    ensures var r := Apply(v, SetSupported(v.owner, t, on));
            r.Some? && (t in r.value.supportedTokens <==> on) && forall u :: u != t ==> (u in r.value.supportedTokens <==> u in v.supportedTokens)
    ensures var r := Apply(v, SetChain(v.owner, chain, on));
            r.Some? && (chain in r.value.supportedChains <==> on) && forall c :: c != chain ==> (c in r.value.supportedChains <==> c in v.supportedChains)
    ensures var r := Apply(v, SetBridge(v.owner, a)); r.Some? && r.value.bridge == a
  {
  }

  /** A call keeps the vaults backed and the books in agreement. */
  lemma CallKeeps(b: Books, op: Op)
    requires Inv(b)
    ensures Inv(Record(b, op))
  {
    RunKeeps(b, [op]);
    assert [op][1..] == [] && Run(Record(b, op), []) == Record(b, op);
  }

  /** What the contract alone keeps. */
  ghost predicate Sound(v: Vault) {
    NOBODY !in v.oracles && (forall id :: id in v.amounts ==> id.counter < v.counter) && forall t :: Backed(v, t)
  }

  lemma SoundKeeps(v: Vault, op: Op)
    ensures Sound(v) && Apply(v, op).Some? ==> Sound(Apply(v, op).value)
  {
    if Sound(v) && Apply(v, op).Some? {
      var b := Books(v, v.amounts, []);
      forall id | id in v.amounts ensures Accounted(b, id) {}
      CallKeeps(b, op);
    }
  }

  // ---------------------------------------------------------------- the contract

  class XChainVault {
    const owner: Address
    var bridge: Address
    var supportedTokens: set<Token>
    var supportedChains: set<nat>
    var isMpcOracle: set<Address>
    var mpcThreshold: Threshold
    var vaults: map<VaultId, nat>
    var usedBurnNonces: set<(VaultId, nat)>
    var nonce: nat
    var tokenHeld: map<Token, nat>

    function State(): Vault
      reads this
    {
      Vault(owner, bridge, supportedTokens, supportedChains, isMpcOracle, mpcThreshold, vaults, usedBurnNonces, nonce, tokenHeld)
    }

    constructor (sender: Address, bridgeAddress: Address)
      ensures State() == Vault(sender, bridgeAddress, {}, {}, {}, 2, map[], {}, 0, map[])
      ensures Inv(Books(State(), map[], []))
    {
      owner, bridge, supportedTokens, supportedChains, isMpcOracle, mpcThreshold := sender, bridgeAddress, {}, {}, {}, 2;
      vaults, usedBurnNonces, nonce, tokenHeld := map[], {}, 0, map[];
    }

    /** `_verifyBurnProof`: marks the nonce exactly when it accepts. */
    method VerifyBurnProof(id: VaultId, amount: nat, proof: Option<Proof>) returns (ok: bool)
      modifies this`usedBurnNonces
      ensures ok <==> Accepts(old(State()), id, amount, proof)
      ensures usedBurnNonces == old(usedBurnNonces) + if ok then {(id, proof.value.burnNonce)} else {}
    {
      if proof == None { return false; }
      var p := proof.value;
      if |p.signatures| < mpcThreshold {
        TooFew(p.signatures, BurnOf(id, amount, p), isMpcOracle, mpcThreshold);
        return false;
      }
      if (id, p.burnNonce) in usedBurnNonces { return false; }
      ok := CountSignatures(p.signatures, BurnOf(id, amount, p), isMpcOracle, mpcThreshold);
      if ok { usedBurnNonces := usedBurnNonces + {(id, p.burnNonce)}; }
    }

    method DepositERC20(caller: Address, token: Token, amount: nat, chain: nat) returns (ok: bool)
      modifies this
      ensures ok == Apply(old(State()), VaultERC20(caller, token, amount, chain)).Some?
      ensures State() == if ok then Apply(old(State()), VaultERC20(caller, token, amount, chain)).value else old(State())
      ensures Sound(old(State())) ==> Sound(State())
    {
      SoundKeeps(State(), VaultERC20(caller, token, amount, chain));
      if token !in supportedTokens || chain !in supportedChains || !(amount > 0) { return false; }
      tokenHeld := tokenHeld[token := (if token in tokenHeld then tokenHeld[token] else 0) + amount];
      var id := VaultId(token, caller, nonce);
      nonce := nonce + 1;
      vaults := vaults[id := amount];
      ok := true;
    }

    /** The ERC20 branch of `releaseFromVault`; a revert also forgets the nonce it had marked. */
    method ReleaseFromVault(caller: Address, id: VaultId, amount: nat, proof: Option<Proof>) returns (ok: bool)
      modifies this
      ensures ok == Apply(old(State()), Release(caller, id, amount, proof)).Some?
      ensures State() == if ok then Apply(old(State()), Release(caller, id, amount, proof)).value else old(State())
      ensures Sound(old(State())) ==> Sound(State())
    {
      SoundKeeps(State(), Release(caller, id, amount, proof));
      if caller != bridge || id !in vaults { return false; }
      var used0 := usedBurnNonces;
      var accepted := VerifyBurnProof(id, amount, proof);
      var held := if id.token in tokenHeld then tokenHeld[id.token] else 0;
      if !accepted || !(vaults[id] >= amount) || held < amount {
        usedBurnNonces := used0;
        return false;
      }
      vaults := vaults[id := vaults[id] - amount];
      tokenHeld := tokenHeld[id.token := held - amount];
      ok := true;
    }

    method SetMpcThreshold(caller: Address, threshold: nat) returns (ok: bool)
      modifies this`mpcThreshold
      ensures ok == Apply(old(State()), SetThreshold(caller, threshold)).Some?
      ensures State() == if ok then Apply(old(State()), SetThreshold(caller, threshold)).value else old(State())
      ensures Sound(old(State())) ==> Sound(State())
    {
      SoundKeeps(State(), SetThreshold(caller, threshold));
      if caller != owner || !(threshold > 0) { return false; }
      mpcThreshold := threshold;
      ok := true;
    }
  }
}
