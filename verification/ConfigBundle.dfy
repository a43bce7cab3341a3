/** Hashing and signing of config bundles. SHA-256 and HMAC are function values:
    nothing is assumed of them unless a lemma says so. */
module ConfigBundle {
  import opened Text
  import opened Json

  type Byte = x: int | 0 <= x < 256

  /** digest and hash: hex of SHA-256 over JSON text and over any text; mac:
      HMAC-SHA256 under the key that the panel and the agent share. */
  datatype Crypto = Crypto(digest: Doc -> string, hash: string -> string, mac: string -> seq<Byte>)

  /** What holds of SHA-256 in hex and of an HMAC-SHA256: some text on one line, some bytes. */
  ghost predicate Proper(c: Crypto) {
    (forall d :: c.digest(d) != "" && OneLine(c.digest(d))) && (forall t :: c.mac(t) != [])
  }

  /** Two different inputs have the same result. */
  predicate Collides<X(==), Y(==)>(f: X -> Y, x: X, x': X) {
    x != x' && f(x) == f(x')
  }

  const DEFAULT_SIGNER := "lenker-dev-hmac-sha256"

  datatype Bundle = Bundle(
    nodeId: string,
    revisionNumber: int,
    status: string,
    bundleHash: string,
    signature: string,
    signer: string,
    rollbackTarget: int,
    payload: Json)

  // ---- hexadecimal ----

  function HexDigit(d: nat): char
    requires d < 16
  {
    if d < 10 then '0' + d as char else 'a' + (d - 10) as char
  }

  function EncodeHex(bytes: seq<Byte>): string {
    if bytes == [] then ""
    else [HexDigit(bytes[0] / 16), HexDigit(bytes[0] % 16)] + EncodeHex(bytes[1..])
  }

  function HexValue(c: char): (v: Option<nat>)
    ensures v.Some? ==> v.value < 16
  {
    if '0' <= c <= '9' then Some((c - '0') as nat)
    else if 'a' <= c <= 'f' then Some((c - 'a') as nat + 10)
    else if 'A' <= c <= 'F' then Some((c - 'A') as nat + 10)
    else None
  }

  function DecodeHex(s: string): Option<seq<Byte>> {
    if s == "" then Some([])
    else if |s| == 1 then None
    else
      match (HexValue(s[0]), HexValue(s[1]), DecodeHex(s[2..]))
      case (Some(hi), Some(lo), Some(rest)) => Some([hi * 16 + lo] + rest)
      case _ => None
  }

  lemma {:induction false} DecodeInvertsEncode(bytes: seq<Byte>)
    ensures DecodeHex(EncodeHex(bytes)) == Some(bytes)
  {
    if bytes != [] {
      var s := EncodeHex(bytes);
      assert s[2..] == EncodeHex(bytes[1..]);
      DecodeInvertsEncode(bytes[1..]);
      assert bytes == [bytes[0]] + bytes[1..];
    }
  }

  // ---- signing ----

  /** The string both sides authenticate. */
  function SigningText(nodeId: string, number: int, hash: string, target: int): string {
    nodeId + "\n" + IntText(number) + "\n" + hash + "\n" + IntText(target)
  }

  function HashPayload(c: Crypto, payload: Json): string {
    c.digest(Marshal(payload))
  }

  function Sign(c: Crypto, b: Bundle): string {
    EncodeHex(c.mac(SigningText(b.nodeId, b.revisionNumber, b.bundleHash, b.rollbackTarget)))
  }

  predicate SignatureMatches(c: Crypto, signature: string, text: string) {
    DecodeHex(signature) == Some(c.mac(text))
  }

  datatype Verdict = Verified | InvalidHash | InvalidSignature

  function Verify(c: Crypto, b: Bundle): Verdict {
    if b.bundleHash != HashPayload(c, b.payload) then InvalidHash
    else if !SignatureMatches(c, b.signature,
              SigningText(b.nodeId, b.revisionNumber, b.bundleHash, b.rollbackTarget)) then
      InvalidSignature
    else Verified
  }

  /** A bundle hashed and signed here verifies, whatever SHA-256 and HMAC are. */
  lemma SignedVerifies(c: Crypto, b: Bundle)
    requires b.bundleHash == HashPayload(c, b.payload) && b.signature == Sign(c, b)
    ensures Verify(c, b) == Verified
  {
    DecodeInvertsEncode(c.mac(SigningText(b.nodeId, b.revisionNumber, b.bundleHash, b.rollbackTarget)));
  }

  predicate OneLine(s: string) {
    '\n' !in s
  }

  /** The last newline splits a text in one way only. */
  lemma LastNewlineSplits(a: string, b: string, a': string, b': string)
    requires OneLine(b) && OneLine(b')
    requires a + "\n" + b == a' + "\n" + b'
    ensures a == a' && b == b'
  {
    var s, s' := a + "\n" + b, a' + "\n" + b';
    assert s[|a|] == '\n' && s'[|a'|] == '\n';
    assert a == s[..|a|] && a' == s'[..|a'|];
    assert b == s[|a| + 1..] && b' == s'[|a'| + 1..];
  }

  /** The signed string determines all four signed fields; the node id may hold
      anything, newlines included, because it is read from the right. */
  lemma SigningTextInjective(
    node: string, number: int, hash: string, target: int,
    node': string, number': int, hash': string, target': int)
    requires OneLine(hash) && OneLine(hash')
    requires SigningText(node, number, hash, target) == SigningText(node', number', hash', target')
    ensures node == node' && number == number' && hash == hash' && target == target'
  {
    var a, a' := node + "\n" + IntText(number), node' + "\n" + IntText(number');
    LastNewlineSplits(a + "\n" + hash, IntText(target), a' + "\n" + hash', IntText(target'));
    LastNewlineSplits(a, hash, a', hash');
    LastNewlineSplits(node, IntText(number), node', IntText(number'));
    IntTextInjective(number, number');
    IntTextInjective(target, target');
  }

  function SignedText(b: Bundle): string {
    SigningText(b.nodeId, b.revisionNumber, b.bundleHash, b.rollbackTarget)
  }

  /** A verified bundle that carries a signature made for another bundle agrees
      with it on every signed field, and on the payload text too, unless the two
      signed texts or the two payload texts are a collision. */
  lemma VerifiedSignatureBindsFields(c: Crypto, signed: Bundle, b: Bundle)
    requires Proper(c) && !Collides(c.mac, SignedText(signed), SignedText(b))
    requires signed.bundleHash == HashPayload(c, signed.payload)
    requires b.signature == Sign(c, signed) && Verify(c, b) == Verified
    ensures b.nodeId == signed.nodeId && b.revisionNumber == signed.revisionNumber
    ensures b.bundleHash == signed.bundleHash && b.rollbackTarget == signed.rollbackTarget
    ensures Marshal(b.payload) == Marshal(signed.payload) || Collides(c.digest, Marshal(signed.payload), Marshal(b.payload))
  {
    DecodeInvertsEncode(c.mac(SignedText(signed)));
    SigningTextInjective(
      signed.nodeId, signed.revisionNumber, signed.bundleHash, signed.rollbackTarget,
      b.nodeId, b.revisionNumber, b.bundleHash, b.rollbackTarget);
  }
}
