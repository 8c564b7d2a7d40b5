/** Bits of a byte. */
module Bits {
  predicate Bit(b: bv8, i: nat)
    requires i < 8
  {
    (b >> i) & 1 == 1
  }

  function SetBit(b: bv8, i: nat): bv8
    requires i < 8
  {
    b | (1 << i)
  }

  lemma SetBitSets(b: bv8, i: nat, j: nat)
    requires i < 8 && j < 8
    ensures Bit(SetBit(b, i), j) <==> i == j || Bit(b, j)
  {
    if i == 0 {} else if i == 1 {} else if i == 2 {} else if i == 3 {}
    else if i == 4 {} else if i == 5 {} else if i == 6 {} else {}
  }
}

/** The Solana tracker: 1024 bytes, one bit per inbound nonce. */
module NonceTracking {
  import opened Options
  import opened Bits

  const BYTES := 1024
  const CAPACITY := 8192

  type Bitmap = seq<bv8>

  function IsProcessed(bitmap: Bitmap, nonce: nat): bool {
    nonce / 8 < |bitmap| && Bit(bitmap[nonce / 8], nonce % 8)
  }

  /** None where the nonce is past the end. */
  function Mark(bitmap: Bitmap, nonce: nat): Option<Bitmap> {
    if nonce / 8 >= |bitmap| then None
    else Some(bitmap[nonce / 8 := SetBit(bitmap[nonce / 8], nonce % 8)])
  }

  /** The plain set the bitmap stands for. */
  ghost function Members(bitmap: Bitmap): set<nat> {
    set n: nat | 0 <= n < 8 * |bitmap| && IsProcessed(bitmap, n)
  }

  lemma MembersHas(bitmap: Bitmap, n: nat)
    ensures n in Members(bitmap) <==> IsProcessed(bitmap, n)
  {
  }

  /** Marking inserts that nonce and no other. */
  lemma MarkInserts(bitmap: Bitmap, nonce: nat, n: nat)
    requires Mark(bitmap, nonce).Some?
    ensures IsProcessed(Mark(bitmap, nonce).value, n) <==> n == nonce || IsProcessed(bitmap, n)
  {
    if n / 8 == nonce / 8 { SetBitSets(bitmap[nonce / 8], nonce % 8, n % 8); }
  }

  function MarkAll(bitmap: Bitmap, nonces: seq<nat>): Bitmap
    decreases |nonces|
  {
    if nonces == [] then bitmap
    else MarkAll(match Mark(bitmap, nonces[0]) case None => bitmap case Some(b) => b, nonces[1..])
  }

  /**
   Over any run the bitmap is exactly a plain set: a nonce is processed if and only if it was
   before or was marked in the run, except that nonces past the capacity never are.
   */
  lemma {:induction false} RunRefinesSet(bitmap: Bitmap, nonces: seq<nat>, n: nat)
    requires |bitmap| == BYTES
    ensures |MarkAll(bitmap, nonces)| == BYTES
    ensures IsProcessed(MarkAll(bitmap, nonces), n) <==> IsProcessed(bitmap, n) || (n in nonces && n < CAPACITY)
    decreases |nonces|
  {
    if nonces != [] {
      match Mark(bitmap, nonces[0])
      case None => RunRefinesSet(bitmap, nonces[1..], n);
      case Some(b) =>
        MarkInserts(bitmap, nonces[0], n);
        RunRefinesSet(b, nonces[1..], n);
    }
  }

  class NonceTracker {
    var bitmap: array<bv8>

    ghost predicate Valid()
      reads this
    {
      bitmap.Length == BYTES
    }

    ghost function Processed(): set<nat>
      reads this, bitmap
    {
      Members(bitmap[..])
    }

    constructor ()
      ensures Valid() && fresh(bitmap) && Processed() == {}
    {
      bitmap := new bv8[BYTES](_ => 0);
      new;
      forall n: nat | n / 8 < BYTES ensures !IsProcessed(bitmap[..], n) {
        assert bitmap[..][n / 8] == 0;
        ZeroHasNoBits(n % 8);
      }
    }

    method IsProcessedNonce(nonce: nat) returns (processed: bool)
      requires Valid()
      ensures processed <==> nonce in Processed()
    {
      MembersHas(bitmap[..], nonce);
      var idx, bit := nonce / 8, nonce % 8;
      if idx >= bitmap.Length { return false; }
      return (bitmap[idx] >> bit) & 1 == 1;
    }

    method MarkProcessed(nonce: nat) returns (ok: bool)
      requires Valid()
      modifies bitmap
      ensures Valid() && ok == (nonce < CAPACITY)
      ensures Processed() == if ok then old(Processed()) + {nonce} else old(Processed())
      ensures ok == Mark(old(bitmap[..]), nonce).Some?
      ensures bitmap[..] == if ok then Mark(old(bitmap[..]), nonce).value else old(bitmap[..])
    {
      var idx, bit := nonce / 8, nonce % 8;
      if idx >= bitmap.Length { return false; }
      ghost var before := bitmap[..];
      bitmap[idx] := bitmap[idx] | (1 << bit);
      ok := true;
      assert Mark(before, nonce) == Some(bitmap[..]);
      forall n: nat ensures n in Processed() <==> n in Members(before) + {nonce} {
        MembersHas(before, n);
        MembersHas(bitmap[..], n);
        MarkInserts(before, nonce, n);
      }
    }
  }

  lemma ZeroHasNoBits(i: nat)
    requires i < 8
    ensures !Bit(0, i)
  {
  }
}

/** The XRPL hook: 32-byte bitmaps in hook state, under a key that truncates source and bucket to 32 bits. */
module HookNonces {
  import opened Bits

  const WORD := 0x1_0000_0000
  const NONCES := 0x100_0000_0000

  /** `0x20 || src_chain(4) || bucket(4)`. */
  datatype Key = Key(source: nat, bucket: nat)

  type HookState = map<Key, seq<bv8>>

  function KeyOf(source: nat, nonce: nat): Key { Key(source % WORD, nonce / 256 % WORD) }

  /** A zeroed buffer. */
  function Zeros(n: nat): (z: seq<bv8>)
    ensures |z| == n && forall i :: 0 <= i < n ==> z[i] == 0
  {
    if n == 0 then [] else Zeros(n - 1) + [0]
  }

  /** The stored bitmap, or the zeroed buffer when the key is absent. */
  function Stored(s: HookState, key: Key): (bitmap: seq<bv8>)
    ensures |bitmap| == 32
  {
    if key in s && |s[key]| == 32 then s[key] else Zeros(32)
  }

  function ByteOf(nonce: nat): (i: nat)
    ensures i < 32
  {
    nonce % 256 / 8
  }

  function BitOf(nonce: nat): (i: nat)
    ensures i < 8
  {
    nonce % 256 % 8
  }

  predicate Seen(s: HookState, source: nat, nonce: nat) {
    Bit(Stored(s, KeyOf(source, nonce))[ByteOf(nonce)], BitOf(nonce))
  }

  function Remember(s: HookState, source: nat, nonce: nat): HookState {
    var key := KeyOf(source, nonce);
    var bitmap := Stored(s, key);
    s[key := bitmap[ByteOf(nonce) := SetBit(bitmap[ByteOf(nonce)], BitOf(nonce))]]
  }

  /** Two deposits the hook cannot tell apart: sources equal in 32 bits, nonces equal in 40. */
  predicate Collide(source: nat, nonce: nat, source': nat, nonce': nat) {
    source % WORD == source' % WORD && nonce % NONCES == nonce' % NONCES
  }

  lemma NonceParts(nonce: nat)
    ensures nonce % NONCES == nonce / 256 % WORD * 256 + nonce % 256
    ensures nonce % 256 == ByteOf(nonce) * 8 + BitOf(nonce)
  {
    var h, l := nonce / 256, nonce % 256;
    var q, r := h / WORD, h % WORD;
    assert nonce == (q * WORD + r) * 256 + l;
    assert nonce == q * NONCES + (r * 256 + l);
    assert r * 256 + l < NONCES;
  }

  /** Two nonces agree in 40 bits exactly when their words and their last bytes do. */
  lemma SameParts(h: nat, l: nat, h': nat, l': nat)
    requires l < 256 && l' < 256
    ensures h * 256 + l == h' * 256 + l' <==> h == h' && l == l'
  {
  }

  lemma SameByteAndBit(nonce: nat, nonce': nat)
    ensures nonce % 256 == nonce' % 256 <==> ByteOf(nonce) == ByteOf(nonce') && BitOf(nonce) == BitOf(nonce')
  {
    NonceParts(nonce);
    NonceParts(nonce');
  }

  /** Key, byte and bit agree exactly when the two deposits collide. */
  lemma CollideIffSameBit(source: nat, nonce: nat, source': nat, nonce': nat)
    ensures Collide(source, nonce, source', nonce') <==>
            && KeyOf(source, nonce) == KeyOf(source', nonce')
            && ByteOf(nonce) == ByteOf(nonce') && BitOf(nonce) == BitOf(nonce')
  {
    NonceParts(nonce);
    NonceParts(nonce');
    SameParts(nonce / 256 % WORD, nonce % 256, nonce' / 256 % WORD, nonce' % 256);
    SameByteAndBit(nonce, nonce');
  }

  /** Remembering one deposit marks exactly the deposits that collide with it. */
  lemma RememberMarks(s: HookState, source: nat, nonce: nat, source': nat, nonce': nat)
    ensures Seen(Remember(s, source, nonce), source', nonce')
            <==> Seen(s, source', nonce') || Collide(source, nonce, source', nonce')
  {
    CollideIffSameBit(source, nonce, source', nonce');
    var bitmap := Stored(s, KeyOf(source, nonce));
    SetBitSets(bitmap[ByteOf(nonce)], BitOf(nonce), BitOf(nonce'));
  }

  function RememberAll(s: HookState, deposits: seq<(nat, nat)>): HookState
    decreases |deposits|
  {
    if deposits == [] then s else RememberAll(Remember(s, deposits[0].0, deposits[0].1), deposits[1..])
  }

  /** Over any run, a deposit is seen exactly when it, or one that collides with it, was remembered. */
  lemma {:induction false} RunMarks(s: HookState, deposits: seq<(nat, nat)>, source: nat, nonce: nat)
    ensures Seen(RememberAll(s, deposits), source, nonce)
            <==> Seen(s, source, nonce) || exists d :: d in deposits && Collide(d.0, d.1, source, nonce)
    decreases |deposits|
  {
    if deposits != [] {
      var d := deposits[0];
      RememberMarks(s, d.0, d.1, source, nonce);
      RunMarks(Remember(s, d.0, d.1), deposits[1..], source, nonce);
      assert forall e :: e in deposits <==> e == d || e in deposits[1..];
    }
  }

  lemma BlankUnseen(source: nat, nonce: nat)
    ensures !Seen(map[], source, nonce)
  {
    assert Stored(map[], KeyOf(source, nonce))[ByteOf(nonce)] == 0;
  }

  lemma CollideInRange(source: nat, nonce: nat, source': nat, nonce': nat)
    requires source < WORD && nonce < NONCES && source' < WORD && nonce' < NONCES
    ensures Collide(source, nonce, source', nonce') <==> source == source' && nonce == nonce'
  {
  }

  /** For sources below 2^32 and nonces below 2^40 the bitmaps are exactly a plain set of pairs. */
  lemma RefinesSetInRange(deposits: seq<(nat, nat)>, source: nat, nonce: nat)
    requires forall d :: d in deposits ==> d.0 < WORD && d.1 < NONCES
    requires source < WORD && nonce < NONCES
    ensures Seen(RememberAll(map[], deposits), source, nonce) <==> (source, nonce) in deposits
  {
    RunMarks(map[], deposits, source, nonce);
    BlankUnseen(source, nonce);
    forall d | d in deposits ensures Collide(d.0, d.1, source, nonce) <==> d == (source, nonce) {
      CollideInRange(d.0, d.1, source, nonce);
    }
  }

  /** And only there: any other pair is already seen after remembering a pair in range that is not it. */
  lemma AliasedOutOfRange(source: nat, nonce: nat)
    requires !(source < WORD && nonce < NONCES)
    ensures var twin := (source % WORD, nonce % NONCES);
            twin != (source, nonce) && Seen(RememberAll(map[], [twin]), source, nonce)
  {
    var twin := (source % WORD, nonce % NONCES);
    RunMarks(map[], [twin], source, nonce);
    assert twin in [twin] && Collide(twin.0, twin.1, source, nonce);
  }

  class XrplHook {
    var hookState: HookState

    constructor ()
      ensures hookState == map[]
    {
      hookState := map[];
    }

    /** The nonce part of OP_MINT; false is the rollback. */
    method CheckNonce(source: nat, nonce: nat) returns (ok: bool)
      modifies this
      ensures ok <==> !Seen(old(hookState), source, nonce)
      ensures hookState == if ok then Remember(old(hookState), source, nonce) else old(hookState)
    {
      var key := KeyOf(source, nonce);
      var bitmap := Zeros(32);
      if key in hookState && |hookState[key]| == 32 { bitmap := hookState[key]; }
      var byteIdx, bitIdx := ByteOf(nonce), BitOf(nonce);
      if (bitmap[byteIdx] >> bitIdx) & 1 == 1 { return false; }
      bitmap := bitmap[byteIdx := bitmap[byteIdx] | (1 << bitIdx)];
      hookState := hookState[key := bitmap];
      ok := true;
    }
  }
}
