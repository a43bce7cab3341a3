/** When the agent accepts what the panel made: the payload a revision was made
    from, through the hash, the signature and JSON text, to the agent's checks. */
module Acceptance {
  import opened Text
  import opened Json
  import opened ConfigBundle
  import opened XrayChecks
  import opened AgentCheck
  import opened DecodingTheorems
  import opened ValidatorTheorems
  import R = Render
  import P = PanelValidator
  import A = AgentValidator

  /** The shape of every payload the panel signs. */
  predicate Deployable(payload: Fields, number: int) {
    && StandardHeader(payload) && Get(payload, RevisionNumber) == Some(Int(number))
    && GetObj(payload, Node).Some? && GetObj(payload, Transport).Some?
    && GetArr(payload, SubscriptionInputs).Some? && GetArr(payload, AccessEntries).Some?
    && GetObj(payload, Config).Some? && TameFields(GetObj(payload, Config).value)
    && A.CheckConfig(GetObj(payload, Config).value).Ok?
    && WellFormed(Obj(payload))
  }

  /** The revision the agent decodes when the panel made it from payload. */
  function Issued(c: Crypto, id: string, nodeId: string, number: int, target: int, payload: Fields): Revision {
    var hash := HashPayload(c, Obj(payload));
    Revision(
      id, nodeId, number, hash, EncodeHex(c.mac(SigningText(nodeId, number, hash, target))),
      DEFAULT_SIGNER, target, RoundTrip(Obj(payload)))
  }

  lemma DecodedBundlePasses(payload: Fields, number: int)
    requires Deployable(payload, number) && 0 < number <= MAX_INT32
    ensures CheckBundle(Decoded(payload), number).None?
  {
    var config := GetObj(payload, Config).value;
    DecodedHeaderPasses(payload);
    DecodedMember(payload, RevisionNumber);
    NumberAsIntIsStable(Int(number));
    DecodedTree(payload, Node);
    DecodedTree(payload, Transport);
    DecodedTree(payload, SubscriptionInputs);
    DecodedTree(payload, AccessEntries);
    DecodedTree(payload, Config);
    AgentVerdictIsStable(config);
  }

  lemma DecodedHeaderPasses(payload: Fields)
    requires StandardHeader(payload)
    ensures HeaderStringsMatch(Decoded(payload)) && OperationKnown(Decoded(payload))
  {
    DecodedText(payload, SchemaVersion);
    DecodedText(payload, GeneratedBy);
    DecodedText(payload, Protocol);
    DecodedText(payload, CoreType);
    DecodedText(payload, ConfigKind);
    DecodedText(payload, OperationKind);
  }

  lemma EncodedIsNotEmpty(c: Crypto, text: string)
    requires Proper(c)
    ensures EncodeHex(c.mac(text)) != ""
  {
    assert c.mac(text) != [];
  }

  /** Apart from the hash, nothing can fail: the agent's verdict is decided by
      whether the decoded payload hashes to what was signed. */
  lemma AcceptedIffHashMatches(
    c: Crypto, agentNode: string, id: string, nodeId: string, number: int, target: int, payload: Fields)
    requires Proper(c) && Deployable(payload, number) && 0 < number <= MAX_INT32
    requires nodeId != "" && (agentNode == "" || agentNode == nodeId)
    ensures CheckRevision(c, agentNode, Issued(c, id, nodeId, number, target, payload)) ==
            if HashPayload(c, RoundTrip(Obj(payload))) == HashPayload(c, Obj(payload)) then None else Some(BadBundleHash)
  {
    var rev := Issued(c, id, nodeId, number, target, payload);
    IssuedIsSigned(c, id, nodeId, number, target, payload);
    DecodedBundlePasses(payload, number);
    SignedVerdict(c, agentNode, rev);
  }

  lemma IssuedIsSigned(c: Crypto, id: string, nodeId: string, number: int, target: int, payload: Fields)
    requires Proper(c)
    ensures
      var rev := Issued(c, id, nodeId, number, target, payload);
      && rev.bundleHash != "" && rev.signature != "" && rev.bundle == Obj(Decoded(payload))
      && SignatureMatches(c, rev.signature, SigningText(nodeId, number, rev.bundleHash, target))
  {
    var hash := HashPayload(c, Obj(payload));
    var text := SigningText(nodeId, number, hash, target);
    assert hash != "";
    EncodedIsNotEmpty(c, text);
    DecodeInvertsEncode(c.mac(text));
  }

  /** What is left to decide for a signed revision with a bundle that passes. */
  lemma SignedVerdict(c: Crypto, agentNode: string, rev: Revision)
    requires rev.nodeId != "" && rev.revisionNumber > 0 && rev.bundleHash != "" && rev.signature != ""
    requires rev.signer == DEFAULT_SIGNER && (agentNode == "" || agentNode == rev.nodeId)
    requires SignatureMatches(c, rev.signature, SigningText(rev.nodeId, rev.revisionNumber, rev.bundleHash, rev.rollbackTarget))
    requires rev.bundle.Obj? && CheckBundle(rev.bundle.fields, rev.revisionNumber).None?
    ensures CheckRevision(c, agentNode, rev) ==
      if rev.bundleHash == HashPayload(c, rev.bundle) then None else Some(BadBundleHash)
  {
    assert DEFAULT_SIGNER != "";
  }

  /** The agent accepts exactly when every integer of the payload survives JSON text,
      or the payload and what becomes of it are a collision. */
  lemma AcceptedIffIntsSurvive(
    c: Crypto, agentNode: string, id: string, nodeId: string, number: int, target: int, payload: Fields)
    requires Proper(c) && Deployable(payload, number) && 0 < number <= MAX_INT32
    requires nodeId != "" && (agentNode == "" || agentNode == nodeId)
    ensures CheckRevision(c, agentNode, Issued(c, id, nodeId, number, target, payload)) ==
            if IntsSurvive(Obj(payload)) || Collides(c.digest, Marshal(Obj(payload)), Marshal(RoundTrip(Obj(payload))))
            then None else Some(BadBundleHash)
  {
    AcceptedIffHashMatches(c, agentNode, id, nodeId, number, target, payload);
    TextIsStableIff(Obj(payload));
  }

  /** The agent accepts only what was signed: a revision that carries a signature
      the panel made for some bundle names the same node, number and rollback
      target and has the same payload text, unless these texts are a collision. */
  lemma AcceptedIsWhatWasSigned(c: Crypto, agentNode: string, rev: Revision, signed: Bundle)
    requires Proper(c) && CheckRevision(c, agentNode, rev).None?
    requires signed.bundleHash == HashPayload(c, signed.payload) && rev.signature == Sign(c, signed)
    requires !Collides(c.mac, SignedText(signed), SignedText(BundleOf(rev)))
    ensures rev.nodeId == signed.nodeId && rev.revisionNumber == signed.revisionNumber
    ensures rev.rollbackTarget == signed.rollbackTarget
    ensures Marshal(rev.bundle) == Marshal(signed.payload) || Collides(c.digest, Marshal(signed.payload), Marshal(rev.bundle))
  {
    AcceptedIsVerified(c, agentNode, rev);
    VerifiedSignatureBindsFields(c, signed, BundleOf(rev));
  }
}
