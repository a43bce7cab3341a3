/** What the agent checks before it stores a fetched revision (service.go). */
module AgentCheck {
  import opened Text
  import opened Json
  import opened ConfigBundle
  import opened XrayChecks
  import A = AgentValidator

  /** A revision as the agent decodes it; a missing bundle is Null. */
  datatype Revision = Revision(
    id: string, nodeId: string, revisionNumber: int, bundleHash: string, signature: string,
    signer: string, rollbackTarget: int, bundle: Json)

  datatype AgentError =
    | InvalidRevision
    | BadBundleHash
    | BadSignature
    | InvalidPayload
    | InvalidXrayConfig(reason: string)
    | DryRunFailed(reason: string)
    | StateDirRequired
    | ArtifactWrite
    | PrepareFailed

  function ErrorMessage(e: AgentError): string {
    match e
    case BadBundleHash => "invalid config bundle hash"
    case BadSignature => "invalid config bundle signature"
    case InvalidXrayConfig(reason) =>
      if reason != "" then "invalid_xray_config:" + reason else "invalid_xray_config"
    case DryRunFailed(reason) =>
      if reason != "" then "xray_dry_run_failed:" + reason else "xray_dry_run_failed"
    case InvalidPayload => "invalid config payload"
    case InvalidRevision => "invalid config revision"
    case StateDirRequired => "state dir is required"
    case ArtifactWrite => "config artifact write failed"
    case PrepareFailed => "config revision apply failed"
  }

  predicate HeaderStringsMatch(bundle: Fields) {
    && GetStr(bundle, SchemaVersion) == Some("config-bundle.v1alpha1")
    && GetStr(bundle, GeneratedBy) == Some("panel-api")
    && GetStr(bundle, Protocol) == Some("vless-reality-xtls-vision")
    && GetStr(bundle, CoreType) == Some("xray")
    && GetStr(bundle, ConfigKind) == Some("xray-config-compatible-skeleton")
  }

  predicate OperationKnown(bundle: Fields) {
    GetStr(bundle, OperationKind) == Some("deploy") || GetStr(bundle, OperationKind) == Some("rollback")
  }

  function CheckBundle(bundle: Fields, number: int): Option<AgentError> {
    if !HeaderStringsMatch(bundle) then Some(InvalidPayload)
    else if NumberAsInt(Get(bundle, RevisionNumber)) != Some(number) then Some(InvalidPayload)
    else if GetObj(bundle, Node).None? || GetObj(bundle, Transport).None? then Some(InvalidPayload)
    else
      match GetObj(bundle, Config)
      case None => Some(InvalidPayload)
      case Some(config) =>
        if !OperationKnown(bundle) then Some(InvalidPayload)
        else if GetArr(bundle, SubscriptionInputs).None? || GetArr(bundle, AccessEntries).None? then
          Some(InvalidPayload)
        else
          match A.CheckConfig(config)
          case Ok(_) => None
          case Rejected(reason) => Some(InvalidXrayConfig(reason))
  }

  /** None when the revision is stored. An agent without a node id accepts any node's. */
  function CheckRevision(c: Crypto, nodeId: string, rev: Revision): Option<AgentError> {
    if rev.nodeId == "" || rev.revisionNumber <= 0 || rev.bundleHash == "" || rev.signature == "" || rev.signer == "" then
      Some(InvalidRevision)
    else if nodeId != "" && rev.nodeId != nodeId then Some(InvalidRevision)
    else if rev.signer != DEFAULT_SIGNER then Some(BadSignature)
    else if rev.bundleHash != HashPayload(c, rev.bundle) then Some(BadBundleHash)
    else if !SignatureMatches(c, rev.signature,
              SigningText(rev.nodeId, rev.revisionNumber, rev.bundleHash, rev.rollbackTarget)) then
      Some(BadSignature)
    else if !rev.bundle.Obj? then Some(InvalidPayload)
    else CheckBundle(rev.bundle.fields, rev.revisionNumber)
  }

  /** The agent's check and the panel's own verifier read a bundle alike. */
  function BundleOf(rev: Revision): Bundle {
    Bundle(rev.nodeId, rev.revisionNumber, "pending", rev.bundleHash, rev.signature, rev.signer,
           rev.rollbackTarget, rev.bundle)
  }

  lemma AcceptedIsVerified(c: Crypto, nodeId: string, rev: Revision)
    requires CheckRevision(c, nodeId, rev).None?
    ensures Verify(c, BundleOf(rev)) == Verified
  {
  }
}
