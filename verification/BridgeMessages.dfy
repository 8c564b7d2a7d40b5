/** The byte strings the bridge signers sign, and a decoder for them. */
module BridgeMessages {
  import opened Options

  newtype byte = x: int | 0 <= x < 256
  type Bytes = seq<byte>

  function Ascii(s: string): Bytes
    requires forall i :: 0 <= i < |s| ==> s[i] < 128 as char
  {
    seq(|s|, i requires 0 <= i < |s| => s[i] as int as byte)
  }

  const MINT_PREFIX := Ascii("KNT_BRIDGE_MINT")
  const RELEASE_PREFIX := Ascii("KNT_BRIDGE_RELEASE")

  function Power256(n: nat): nat { if n == 0 then 1 else 256 * Power256(n - 1) }

  /** `to_le_bytes` at a width in bytes. */
  function LittleEndian(n: nat, width: nat): (b: Bytes)
    ensures |b| == width
  {
    if width == 0 then [] else [(n % 256) as byte] + LittleEndian(n / 256, width - 1)
  }

  function FromLittleEndian(b: Bytes): nat {
    if b == [] then 0 else b[0] as int + 256 * FromLittleEndian(b[1..])
  }

  lemma {:induction false} ReadsBack(n: nat, width: nat)
    requires n < Power256(width)
    ensures FromLittleEndian(LittleEndian(n, width)) == n
  {
    if width > 0 { ReadsBack(n / 256, width - 1); }
  }

  lemma LowByte(n: nat, low: nat, high: nat)
    requires n == low + 256 * high && low < 256
    ensures n % 256 == low && n / 256 == high
  {
  }

  lemma {:induction false} WritesBack(b: Bytes)
    ensures FromLittleEndian(b) < Power256(|b|)
    ensures LittleEndian(FromLittleEndian(b), |b|) == b
  {
    if b != [] {
      WritesBack(b[1..]);
      var n := FromLittleEndian(b);
      LowByte(n, b[0] as int, FromLittleEndian(b[1..]));
      assert b == [b[0]] + b[1..];
    }
  }

  /** `payload` is the recipient on Cosmos, of any length, and recipient then token mint on Solana. */
  datatype Transfer = Transfer(chain: nat, nonce: nat, payload: Bytes, amount: nat)

  /** The fields fit their machine words; amounts take `width` bytes. */
  predicate Fits(t: Transfer, width: nat) {
    t.chain < Power256(8) && t.nonce < Power256(8) && t.amount < Power256(width)
  }

  function Message(prefix: Bytes, t: Transfer, width: nat): Bytes {
    prefix + LittleEndian(t.chain, 8) + LittleEndian(t.nonce, 8) + t.payload + LittleEndian(t.amount, width)
  }

  function Decode(prefix: Bytes, msg: Bytes, width: nat): Option<Transfer> {
    var p := |prefix|;
    if |msg| < p + 16 + width || msg[..p] != prefix then None
    else Some(Transfer(FromLittleEndian(msg[p..p + 8]), FromLittleEndian(msg[p + 8..p + 16]),
                       msg[p + 16..|msg| - width], FromLittleEndian(msg[|msg| - width..])))
  }

  /** The decoder inverts the builder, though nothing in the message says how long the payload is. */
  lemma DecodeInverts(prefix: Bytes, t: Transfer, width: nat)
    requires Fits(t, width)
    ensures Decode(prefix, Message(prefix, t, width), width) == Some(t)
  {
    var msg, p := Message(prefix, t, width), |prefix|;
    assert msg[..p] == prefix;
    assert msg[p..p + 8] == LittleEndian(t.chain, 8);
    assert msg[p + 8..p + 16] == LittleEndian(t.nonce, 8);
    assert msg[p + 16..|msg| - width] == t.payload;
    assert msg[|msg| - width..] == LittleEndian(t.amount, width);
    ReadsBack(t.chain, 8);
    ReadsBack(t.nonce, 8);
    ReadsBack(t.amount, width);
  }

  /** And the builder inverts the decoder: whatever decodes was built from exactly that transfer. */
  lemma BuildInverts(prefix: Bytes, msg: Bytes, width: nat)
    requires Decode(prefix, msg, width).Some?
    ensures var t := Decode(prefix, msg, width).value; Fits(t, width) && Message(prefix, t, width) == msg
  {
    var p, q := |prefix|, |msg| - width;
    Rewritten(prefix, msg[p..p + 8], msg[p + 8..p + 16], msg[p + 16..q], msg[q..], 8, width);
    Joined(msg, prefix, msg[p..p + 8], msg[p + 8..p + 16], msg[p + 16..q], msg[q..], p, p + 8, p + 16, q);
  }

  /** Reading words and writing them again changes nothing. */
  lemma Rewritten(prefix: Bytes, b: Bytes, c: Bytes, d: Bytes, e: Bytes, word: nat, width: nat)
    requires |b| == |c| == word && |e| == width
    ensures FromLittleEndian(b) < Power256(word) && FromLittleEndian(c) < Power256(word) && FromLittleEndian(e) < Power256(width)
    ensures prefix + LittleEndian(FromLittleEndian(b), word) + LittleEndian(FromLittleEndian(c), word) + d
            + LittleEndian(FromLittleEndian(e), width) == prefix + b + c + d + e
  {
    WordBack(b, word);
    WordBack(c, word);
    WordBack(e, width);
  }

  lemma WordBack(b: Bytes, width: nat)
    requires |b| == width
    ensures FromLittleEndian(b) < Power256(width) && LittleEndian(FromLittleEndian(b), width) == b
  {
    WritesBack(b);
  }

  lemma Joined(msg: Bytes, a: Bytes, b: Bytes, c: Bytes, d: Bytes, e: Bytes, i: nat, j: nat, k: nat, l: nat)
    requires i <= j <= k <= l <= |msg|
    requires a == msg[..i] && b == msg[i..j] && c == msg[j..k] && d == msg[k..l] && e == msg[l..]
    ensures a + b + c + d + e == msg
  {
  }

  /** Two transfers with the same message are the same transfer. */
  lemma MessagesInjective(prefix: Bytes, t: Transfer, u: Transfer, width: nat)
    requires Fits(t, width) && Fits(u, width) && Message(prefix, t, width) == Message(prefix, u, width)
    ensures t == u
  {
    DecodeInverts(prefix, t, width);
    DecodeInverts(prefix, u, width);
  }

  /** No mint message is ever a release message, at any widths. */
  lemma MintIsNeverRelease(t: Transfer, u: Transfer, width: nat, width': nat)
    ensures Message(MINT_PREFIX, t, width) != Message(RELEASE_PREFIX, u, width')
  {
    assert Message(MINT_PREFIX, t, width)[11] == MINT_PREFIX[11] == 'M' as int as byte;
    assert Message(RELEASE_PREFIX, u, width')[11] == RELEASE_PREFIX[11] == 'R' as int as byte;
  }

  // ---------------------------------------------------------------- the builders

  /** Cosmos: amounts are 128 bits wide. */
  method BuildMintMessage(chainId: nat, nonce: nat, recipient: Bytes, amount: nat) returns (msg: Bytes)
    requires Fits(Transfer(chainId, nonce, recipient, amount), 16)
    ensures Decode(MINT_PREFIX, msg, 16) == Some(Transfer(chainId, nonce, recipient, amount))
    ensures Decode(RELEASE_PREFIX, msg, 16) == None
  {
    msg := MINT_PREFIX;
    msg := msg + LittleEndian(chainId, 8);
    msg := msg + LittleEndian(nonce, 8);
    msg := msg + recipient;
    msg := msg + LittleEndian(amount, 16);
    DecodeInverts(MINT_PREFIX, Transfer(chainId, nonce, recipient, amount), 16);
    NeverBoth(msg, 16);
  }

  method BuildReleaseMessage(chainId: nat, nonce: nat, recipient: Bytes, amount: nat) returns (msg: Bytes)
    requires Fits(Transfer(chainId, nonce, recipient, amount), 16)
    ensures Decode(RELEASE_PREFIX, msg, 16) == Some(Transfer(chainId, nonce, recipient, amount))
    ensures Decode(MINT_PREFIX, msg, 16) == None
  {
    msg := RELEASE_PREFIX;
    msg := msg + LittleEndian(chainId, 8);
    msg := msg + LittleEndian(nonce, 8);
    msg := msg + recipient;
    msg := msg + LittleEndian(amount, 16);
    DecodeInverts(RELEASE_PREFIX, Transfer(chainId, nonce, recipient, amount), 16);
    NeverBoth(msg, 16);
  }

  /** Solana: a 32-byte recipient, a 32-byte mint and 64-bit amounts. */
  method BuildSolanaMessage(prefix: Bytes, chainId: nat, nonce: nat, recipient: Bytes, mint: Bytes, amount: nat)
    returns (msg: Bytes)
    requires |recipient| == 32 && |mint| == 32 && Fits(Transfer(chainId, nonce, recipient + mint, amount), 8)
    ensures Decode(prefix, msg, 8) == Some(Transfer(chainId, nonce, recipient + mint, amount))
    ensures |msg| == |prefix| + 88
  {
    msg := prefix;
    msg := msg + LittleEndian(chainId, 8);
    msg := msg + LittleEndian(nonce, 8);
    msg := msg + recipient;
    msg := msg + mint;
    msg := msg + LittleEndian(amount, 8);
    var t := Transfer(chainId, nonce, recipient + mint, amount);
    assert msg == Message(prefix, t, 8);
    DecodeInverts(prefix, t, 8);
  }

  /** A message decodes under at most one of the two prefixes. */
  lemma NeverBoth(msg: Bytes, width: nat)
    ensures Decode(MINT_PREFIX, msg, width) == None || Decode(RELEASE_PREFIX, msg, width) == None
  {
    if Decode(MINT_PREFIX, msg, width).Some? && Decode(RELEASE_PREFIX, msg, width).Some? {
      BuildInverts(MINT_PREFIX, msg, width);
      BuildInverts(RELEASE_PREFIX, msg, width);
      MintIsNeverRelease(Decode(MINT_PREFIX, msg, width).value, Decode(RELEASE_PREFIX, msg, width).value, width, width);
    }
  }
}
