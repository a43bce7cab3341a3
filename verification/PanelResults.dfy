/** Results about every reachable state of the panel's tables. */
module PanelResults {
  import opened Text
  import opened Json
  import opened ConfigBundle
  import opened AgentCheck
  import opened XrayChecks
  import opened DecodingTheorems
  import opened ValidatorTheorems
  import opened Acceptance
  import opened RenderTheorems
  import opened Panel
  import opened PanelTheorems
  import R = Render
  import P = PanelValidator
  import A = AgentValidator

  // ---- acceptance ----

  lemma FetchedIsIssued(cfg: PanelConfig, db: Db, i: nat)
    requires PanelOk(cfg, db) && i < |db.revisions|
    ensures
      var row := db.revisions[i];
      Fetched(row) == Issued(cfg.crypto, row.id, row.nodeId, row.number, row.rollbackTarget, db.origins[i].payload)
  {
    var row, payload := db.revisions[i], db.origins[i].payload;
    ScanIsDecoded(cfg, db, i);
    RoundTripIsIdempotent(Obj(payload));
    RowIsIssued(cfg, db, i);
    IssuedIsNewRow(cfg, Seal(row), db.origins[i], SourceAt(db, i));
    NewRowIsIssued(cfg.crypto, row.id, row.nodeId, row.number, row.rollbackTarget, payload);
  }

  lemma NewRowIsIssued(c: Crypto, id: string, nodeId: string, number: int, target: int, payload: Fields)
    ensures
      var row := NewRow(c, id, nodeId, number, target, payload);
      var rev := Issued(c, id, nodeId, number, target, payload);
      && row.hash == rev.bundleHash && row.signature == rev.signature && row.signer == rev.signer
      && rev.bundle == RoundTrip(Obj(payload))
  {
  }

  lemma IssuedFacts(cfg: PanelConfig, row: RevisionRow, origin: Origin, source: Option<(RevisionRow, Fields)>)
    requires Issuance(cfg, row, origin, source)
    ensures Deployable(origin.payload, row.number) && P.CheckPayload(origin.payload).Ok?
    ensures 0 < row.number <= MAX_INT32 && 0 <= row.rollbackTarget <= MAX_INT32
    ensures MadeFrom(cfg, row, origin, source)
  {
  }

  /** The limits a row was rendered with survive JSON text; a rollback carries none of its own. */
  predicate RowLimitsSurvive(origin: Origin) {
    origin.how.Deployed? ==> AllLimitsSurvive(origin.how.input.subscriptions)
  }

  lemma DeploySurvivesIff(cfg: PanelConfig, row: RevisionRow, origin: Origin)
    requires SanePanel(cfg) && Issuance(cfg, row, origin, None) && origin.how.Deployed?
    ensures IntsSurvive(Obj(origin.payload)) <==> AllLimitsSurvive(origin.how.input.subscriptions)
  {
    IssuedFacts(cfg, row, origin, None);
    RenderedSurvivesIff(origin.how.input, cfg.reality);
  }

  lemma RollbackSurvives(
    cfg: PanelConfig, row: RevisionRow, origin: Origin, source: (RevisionRow, Fields))
    requires Issuance(cfg, row, origin, Some(source)) && origin.how.RolledBack?
    requires Deployable(source.1, source.0.number) && 0 < source.0.number <= MAX_INT32
    ensures IntsSurvive(Obj(origin.payload))
  {
    IssuedFacts(cfg, row, origin, Some(source));
    RollbackIsDeployable(
      source.1, source.0.number,
      R.RollbackInput(row.number, row.rollbackTarget, source.0.id, source.0.number));
  }

  lemma RowSurvivesIff(cfg: PanelConfig, db: Db, i: nat)
    requires SanePanel(cfg) && PanelOk(cfg, db) && i < |db.revisions|
    ensures IntsSurvive(Obj(db.origins[i].payload)) <==> RowLimitsSurvive(db.origins[i])
  {
    RowIsIssued(cfg, db, i);
    assert RowOk(IssuanceFacts(cfg), db, i);
    match db.origins[i].how
    case Deployed(_) => DeploySurvivesIff(cfg, Seal(db.revisions[i]), db.origins[i]);
    case RolledBack(source) =>
      RowIsIssued(cfg, db, source);
      IssuedFacts(cfg, Seal(db.revisions[source]), db.origins[source], SourceAt(db, source));
      RollbackSurvives(
        cfg, Seal(db.revisions[i]), db.origins[i], (Seal(db.revisions[source]), db.origins[source].payload));
  }

  /** The row's bundle hashes to the same as the different text that its agent makes of it. */
  predicate RowCollides(c: Crypto, row: RevisionRow) {
    Collides(c.digest, row.bundle, Marshal(Fetched(row).bundle))
  }

  /** In every reachable state, every row, fetched at any time, passes every check
      of its agent exactly when the limits it was rendered with survive JSON text,
      or its own two texts are a collision. A rollback always passes. */
  lemma EveryRowIsAcceptedIff(cfg: PanelConfig, ops: seq<PanelOp>, i: nat, agentNode: string)
    requires SanePanel(cfg) && Proper(cfg.crypto)
    requires i < |Run(cfg, EmptyDb, ops).revisions|
    requires
      var row := Run(cfg, EmptyDb, ops).revisions[i];
      row.nodeId != "" && (agentNode == "" || agentNode == row.nodeId)
    ensures
      var db := Run(cfg, EmptyDb, ops);
      |db.origins| == |db.revisions| &&
      CheckRevision(cfg.crypto, agentNode, Fetched(db.revisions[i])) ==
        if RowLimitsSurvive(db.origins[i]) || RowCollides(cfg.crypto, db.revisions[i]) then None else Some(BadBundleHash)
  {
    EmptyIsOk(cfg);
    RunKeepsTable(cfg, EmptyDb, ops);
    RowIsAcceptedIff(cfg, Run(cfg, EmptyDb, ops), i, agentNode);
  }

  lemma RowIsAcceptedIff(cfg: PanelConfig, db: Db, i: nat, agentNode: string)
    requires SanePanel(cfg) && Proper(cfg.crypto) && PanelOk(cfg, db) && i < |db.revisions|
    requires db.revisions[i].nodeId != "" && (agentNode == "" || agentNode == db.revisions[i].nodeId)
    ensures CheckRevision(cfg.crypto, agentNode, Fetched(db.revisions[i])) ==
      if RowLimitsSurvive(db.origins[i]) || RowCollides(cfg.crypto, db.revisions[i]) then None else Some(BadBundleHash)
  {
    var row, payload := db.revisions[i], db.origins[i].payload;
    FetchedIsIssued(cfg, db, i);
    RowBundle(cfg, db, i);
    RowSurvivesIff(cfg, db, i);
    RowIsIssued(cfg, db, i);
    IssuedFacts(cfg, Seal(row), db.origins[i], SourceAt(db, i));
    assert Seal(row).number == row.number;
    AcceptedIffIntsSurvive(
      cfg.crypto, agentNode, row.id, row.nodeId, row.number, row.rollbackTarget, payload);
  }

  // ---- rollback chains ----

  /** The deploy a row goes back to, through any number of rollbacks. */
  function RootOf(db: Db, i: nat): nat
    requires |db.revisions| == |db.origins| && i < |db.revisions|
    requires forall j :: 0 <= j < |db.origins| && db.origins[j].how.RolledBack? ==> db.origins[j].how.source < j
    decreases i
  {
    match db.origins[i].how
    case Deployed(_) => i
    case RolledBack(source) => RootOf(db, source)
  }

  lemma SourcesDescend(facts: Facts, db: Db)
    requires RowsOk(facts, db)
    ensures forall j :: 0 <= j < |db.origins| && db.origins[j].how.RolledBack? ==> db.origins[j].how.source < j
  {
    forall j | 0 <= j < |db.origins| && db.origins[j].how.RolledBack? ensures db.origins[j].how.source < j {
      assert RowOk(facts, db, j);
    }
  }

  lemma RollbackRowKeepsMeaning(
    cfg: PanelConfig, row: RevisionRow, origin: Origin, source: (RevisionRow, Fields))
    requires Issuance(cfg, row, origin, Some(source)) && origin.how.RolledBack?
    ensures R.SameMeaning(Decoded(origin.payload), Decoded(source.1))
  {
    IssuedFacts(cfg, row, origin, Some(source));
    R.RollbackKeepsMeaning(
      source.1, R.RollbackInput(row.number, row.rollbackTarget, source.0.id, source.0.number));
  }

  lemma SameMeaningIsTransitive(a: Fields, b: Fields, c: Fields)
    requires R.SameMeaning(a, b) && R.SameMeaning(b, c)
    ensures R.SameMeaning(a, c)
  {
    forall k | k in a && k !in R.OVERWRITTEN ensures k in c && a[k] == c[k] {
      assert k in b && b[k] == c[k];
    }
  }

  /** One rollback: the source is an earlier, applied row of the node, and only
      the overwritten keys differ. */
  lemma RollbackStep(cfg: PanelConfig, db: Db, i: nat)
    requires PanelOk(cfg, db) && i < |db.revisions| && db.origins[i].how.RolledBack?
    ensures
      var source := db.origins[i].how.source;
      && source < i && db.revisions[source].nodeId == db.revisions[i].nodeId
      && db.revisions[source].status.RowApplied?
      && R.SameMeaning(Decoded(db.origins[i].payload), Decoded(db.origins[source].payload))
      && db.revisions[source].number < db.revisions[i].number
  {
    var source := db.origins[i].how.source;
    RowSource(IssuanceFacts(cfg), db, i);
    RowIsIssued(cfg, db, i);
    RollbackRowKeepsMeaning(
      cfg, Seal(db.revisions[i]), db.origins[i], (Seal(db.revisions[source]), db.origins[source].payload));
    NumbersRise(db.revisions, source, i);
  }

  lemma RowSource(facts: Facts, db: Db, i: nat)
    requires RowsOk(facts, db) && i < |db.revisions| && db.origins[i].how.RolledBack?
    ensures
      var source := db.origins[i].how.source;
      && source < i && db.revisions[source].nodeId == db.revisions[i].nodeId
      && db.revisions[source].status.RowApplied?
      && SourceAt(db, i) == Some((Seal(db.revisions[source]), db.origins[source].payload))
  {
    assert RowOk(facts, db, i);
  }

  /** What links a row to an earlier one it can be traced back to. */
  ghost predicate Traced(db: Db, root: nat, i: nat)
    requires root <= i < |db.revisions| == |db.origins|
  {
    && db.revisions[root].nodeId == db.revisions[i].nodeId
    && R.SameMeaning(Decoded(db.origins[i].payload), Decoded(db.origins[root].payload))
    && (root < i ==> db.revisions[root].number < db.revisions[i].number && db.revisions[root].status.RowApplied?)
  }

  lemma TracedIsTransitive(db: Db, root: nat, source: nat, i: nat)
    requires root <= source <= i < |db.revisions| == |db.origins|
    requires Traced(db, root, source) && Traced(db, source, i)
    ensures Traced(db, root, i)
  {
    SameMeaningIsTransitive(
      Decoded(db.origins[i].payload), Decoded(db.origins[source].payload), Decoded(db.origins[root].payload));
  }

  /** Every row stores its root deploy's payload on all but the overwritten keys;
      config, access entries and subscription summary are the deploy's. The root
      is an applied row of the same node with a smaller number. */
  lemma {:induction false} RowsKeepTheirRootsMeaning(cfg: PanelConfig, db: Db, i: nat)
    requires PanelOk(cfg, db) && i < |db.revisions|
    ensures forall j :: 0 <= j < |db.origins| && db.origins[j].how.RolledBack? ==> db.origins[j].how.source < j
    ensures
      var root := RootOf(db, i);
      root <= i && db.origins[root].how.Deployed? && Traced(db, root, i)
    decreases i
  {
    SourcesDescend(IssuanceFacts(cfg), db);
    if db.origins[i].how.RolledBack? {
      var source := db.origins[i].how.source;
      RollbackStep(cfg, db, i);
      RowsKeepTheirRootsMeaning(cfg, db, source);
      TracedIsTransitive(db, RootOf(db, i), source, i);
    }
  }

  // ---- a rollback is never refused by the panel's own check ----

  lemma DecodedConfigPasses(config: Fields)
    requires TameFields(config) && A.CheckConfig(config).Ok? && P.CheckConfig(config).Ok?
    ensures P.CheckConfig(Decoded(config)).Ok?
  {
    AgentVerdictIsStable(config);
    SupportedStaysSupported(config);
    ValidatorsAgreeUpTo(Decoded(config));
  }

  lemma SupportedStaysSupported(config: Fields)
    requires P.CheckConfig(config).Ok?
    ensures OutboundsSupported(Decoded(config))
  {
    var outbounds := GetArr(config, Outbounds).value;
    OutboundScansAgree(outbounds);
    DecodedTree(config, Outbounds);
    forall i | 0 <= i < |outbounds| ensures A.CheckOutbound(RoundTrip(outbounds[i])) == A.CheckOutbound(outbounds[i]) {
      OutboundIsStable(outbounds[i]);
    }
  }

  lemma IssuedConfigPasses(cfg: PanelConfig, row: RevisionRow, origin: Origin, source: Option<(RevisionRow, Fields)>)
    requires Issuance(cfg, row, origin, source)
    ensures GetObj(origin.payload, Config).Some?
    ensures P.CheckConfig(Decoded(GetObj(origin.payload, Config).value)).Ok?
  {
    IssuedFacts(cfg, row, origin, source);
    DeployableConfigPasses(origin.payload, row.number);
  }

  lemma DeployableConfigPasses(payload: Fields, number: int)
    requires Deployable(payload, number) && P.CheckPayload(payload).Ok?
    ensures GetObj(payload, Config).Some? && P.CheckConfig(Decoded(GetObj(payload, Config).value)).Ok?
  {
    var config := GetObj(payload, Config).value;
    PassedPayloadConfig(payload);
    DecodedConfigPasses(config);
  }

  lemma PassedPayloadConfig(payload: Fields)
    requires P.CheckPayload(payload).Ok?
    ensures GetObj(payload, Config).Some? && P.CheckConfig(GetObj(payload, Config).value).Ok?
  {
  }

  lemma RollbackPayloadPasses(
    cfg: PanelConfig, row: RevisionRow, origin: Origin, source: Option<(RevisionRow, Fields)>, input: R.RollbackInput)
    requires Issuance(cfg, row, origin, source)
    requires 0 < input.revisionNumber <= MAX_INT32 && 0 <= input.rollbackTarget <= MAX_INT32
    requires input.sourceRevisionNumber == row.number
    ensures P.CheckPayload(R.RollbackPayload(Decoded(origin.payload), input)).Ok?
  {
    IssuedFacts(cfg, row, origin, source);
    IssuedConfigPasses(cfg, row, origin, source);
    RollbackIsDeployable(origin.payload, row.number, input);
  }

  lemma InsertSucceedsIff(
    c: Crypto, db: Db, id: string, nodeId: string, number: int, target: int, origin: Origin)
    requires Insertable(db, id, number, target) ==> P.CheckPayload(origin.payload).Ok?
    ensures InsertRevision(c, db, id, nodeId, number, target, origin).1.Success? <==> Insertable(db, id, number, target)
  {
  }

  /** A rollback of an applied row of an enabled node that is not draining is never
      refused by the panel's own validator: only the columns can refuse it. */
  lemma RollbackSucceedsIff(cfg: PanelConfig, db: Db, nodeId: string, revisionId: string, id: string)
    requires PanelOk(cfg, db) && CheckCreation(db, nodeId).None?
    requires FindRow(db.revisions, nodeId, revisionId).Some?
    requires db.revisions[FindRow(db.revisions, nodeId, revisionId).value].status.RowApplied?
    ensures CreateRollback(cfg.crypto, db, nodeId, revisionId, id).1.Success? <==>
      Insertable(db, id, MaxNumber(db.revisions, nodeId) + 1, db.nodes[nodeId].activeRevision)
  {
    var source := FindRow(db.revisions, nodeId, revisionId).value;
    var number, target := MaxNumber(db.revisions, nodeId) + 1, db.nodes[nodeId].activeRevision;
    RollbackPayloadFor(cfg, db, nodeId, source);
    var origin := RollbackOrigin(db, nodeId, source);
    if Insertable(db, id, number, target) { RollbackOriginPasses(cfg, db, nodeId, source); }
    InsertSucceedsIff(cfg.crypto, db, id, nodeId, number, target, origin);
    CreatedRollback(cfg.crypto, db, nodeId, revisionId, id, source, origin);
  }

  lemma RollbackOriginPasses(cfg: PanelConfig, db: Db, nodeId: string, source: nat)
    requires PanelOk(cfg, db) && nodeId in db.nodes && source < |db.revisions|
    requires MaxNumber(db.revisions, nodeId) + 1 <= MAX_INT32 && 0 <= db.nodes[nodeId].activeRevision
    ensures ScanBundle(db.revisions[source]).Obj?
    ensures P.CheckPayload(RollbackOrigin(db, nodeId, source).payload).Ok?
  {
    RollbackPayloadFor(cfg, db, nodeId, source);
    RowIsIssued(cfg, db, source);
    NodeNumberFits(cfg, db, nodeId);
    RollbackPayloadPasses(
      cfg, Seal(db.revisions[source]), db.origins[source], SourceAt(db, source), RollbackInputFor(db, nodeId, source));
  }

  lemma NodeNumberFits(cfg: PanelConfig, db: Db, nodeId: string)
    requires PanelOk(cfg, db) && nodeId in db.nodes
    ensures FitsInt32(db.nodes[nodeId].activeRevision)
  {
  }

  // ---- deploying ----

  /** The row and its origin that a deploy adds. */
  predicate DeployAdds(
    c: Crypto, db: Db, now: Db, reality: R.RealityConfig, nodeId: string, id: string, input: R.RenderInput)
  {
    var payload := R.RenderPayload(input, reality);
    && now.revisions == db.revisions + [NewRow(c, id, nodeId, input.revisionNumber, input.rollbackTarget, payload)]
    && now.origins == db.origins + [Origin(payload, Deployed(input))]
  }

  /** A deploy that the node's state permits fails only for an input that does not
      render to a valid payload, a taken row id or a number the column cannot hold. */
  lemma DeploySucceedsIff(
    c: Crypto, db: Db, reality: R.RealityConfig, nodeId: string, id: string, inputs: seq<R.SubscriptionInput>)
    requires CheckCreation(db, nodeId).None?
    ensures
      var input := DeployInput(db, nodeId, inputs);
      var (now, result) := CreateDeploy(c, db, reality, nodeId, id, inputs);
      && (result.Success? <==>
          Renderable(input, reality) && Insertable(db, id, input.revisionNumber, input.rollbackTarget))
      && (result.Success? ==> DeployAdds(c, db, now, reality, nodeId, id, input))
  {
    RenderedPayloadPassesIff(DeployInput(db, nodeId, inputs), reality);
  }

  // ---- a revision that is refused ----

  function LostRun(nodeId: string, s: R.SubscriptionInput): seq<PanelOp> {
    [OpBootstrap(nodeId, "token", "host", "eu", "DE", 1), OpDeploy(nodeId, "revision", [s])]
  }

  /** A subscription with a traffic limit of 2^53 + 1 bytes. */
  const LostLimit: R.SubscriptionInput := R.SubscriptionInput(
    "subscription", "user", "plan", "active", "active", "eu", "plan", 1, Some(TWO53 + 1), "from", "to")

  function LostInput(nodeId: string): R.RenderInput {
    R.RenderInput(nodeId, 1, "host", "eu", "DE", [LostLimit], [], None, None, 0)
  }

  lemma LostIsRenderable(nodeId: string, reality: R.RealityConfig)
    requires !Blank(reality.WithDefaults().dest) && !Blank(reality.WithDefaults().privateKey)
    ensures Renderable(LostInput(nodeId), reality)
  {
    StartsVisible(LostLimit.subscriptionId);
  }

  lemma RunOfTwo(cfg: PanelConfig, db: Db, a: PanelOp, b: PanelOp)
    ensures Run(cfg, db, [a, b]) == Step(cfg, Step(cfg, db, a), b)
  {
    assert [a, b][..1] == [a] && [a][..0] == [];
    assert Run(cfg, db, [a]) == Step(cfg, Run(cfg, db, []), a);
  }

  /** Bootstrapping a node and deploying to it makes one row, for that input. */
  lemma LostRunDeploys(cfg: PanelConfig, nodeId: string)
    requires !Blank(cfg.reality.WithDefaults().dest) && !Blank(cfg.reality.WithDefaults().privateKey)
    ensures
      var db := Run(cfg, EmptyDb, LostRun(nodeId, LostLimit));
      && |db.revisions| == |db.origins| == 1 && db.revisions[0].nodeId == nodeId
      && db.origins[0] == Origin(R.RenderPayload(LostInput(nodeId), cfg.reality), Deployed(LostInput(nodeId)))
  {
    Bootstrapped(cfg, nodeId);
    LostIsRenderable(nodeId, cfg.reality);
    RunDeploys(cfg, LostRun(nodeId, LostLimit), nodeId, "revision", [LostLimit], LostInput(nodeId));
  }

  lemma Bootstrapped(cfg: PanelConfig, nodeId: string)
    ensures
      var first := Step(cfg, EmptyDb, LostRun(nodeId, LostLimit)[0]);
      && first.revisions == [] && first.origins == [] && CheckCreation(first, nodeId).None?
      && DeployInput(first, nodeId, [LostLimit]) == LostInput(nodeId)
  {
  }

  /** A step that makes no revision, and a deploy. */
  lemma RunDeploys(
    cfg: PanelConfig, ops: seq<PanelOp>, nodeId: string, id: string, inputs: seq<R.SubscriptionInput>,
    input: R.RenderInput)
    requires |ops| == 2 && ops[1] == OpDeploy(nodeId, id, inputs)
    requires
      var first := Step(cfg, EmptyDb, ops[0]);
      && first.revisions == [] && first.origins == [] && CheckCreation(first, nodeId).None?
      && DeployInput(first, nodeId, inputs) == input
    requires Renderable(input, cfg.reality) && input.revisionNumber <= MAX_INT32 && 0 <= input.rollbackTarget
    ensures
      var db := Run(cfg, EmptyDb, ops);
      && |db.revisions| == |db.origins| == 1 && db.revisions[0].nodeId == nodeId
      && db.origins[0] == Origin(R.RenderPayload(input, cfg.reality), Deployed(input))
  {
    assert ops == [ops[0], ops[1]];
    RunOfTwo(cfg, EmptyDb, ops[0], ops[1]);
    FirstDeploy(cfg.crypto, Step(cfg, EmptyDb, ops[0]), cfg.reality, nodeId, id, inputs, input);
  }

  /** The first deploy into an empty revision table. */
  lemma FirstDeploy(
    c: Crypto, first: Db, reality: R.RealityConfig, nodeId: string, id: string, inputs: seq<R.SubscriptionInput>,
    input: R.RenderInput)
    requires first.revisions == [] && first.origins == [] && CheckCreation(first, nodeId).None?
    requires DeployInput(first, nodeId, inputs) == input && Renderable(input, reality)
    requires input.revisionNumber <= MAX_INT32 && 0 <= input.rollbackTarget
    ensures
      var db := CreateDeploy(c, first, reality, nodeId, id, inputs).0;
      && |db.revisions| == |db.origins| == 1 && db.revisions[0].nodeId == nodeId
      && db.origins[0] == Origin(R.RenderPayload(input, reality), Deployed(input))
  {
    assert !IdTaken(first.revisions, id);
    DeploySucceedsIff(c, first, reality, nodeId, id, inputs);
  }

  /** A digest that tells one document from all others. */
  function Telling(doc: Doc): Crypto {
    Crypto(d => if d == doc then "a" else "b", t => t, t => [0])
  }

  /** The panel signs, and its own node refuses: with a digest that does not collide
      on the row, a deploy of a limit of 2^53 + 1 is a bad bundle hash. */
  lemma SignedRowIsRefused(reality: R.RealityConfig, nodeId: string)
    requires reality.vlessPort < TWO53 && nodeId != ""
    requires !Blank(reality.WithDefaults().dest) && !Blank(reality.WithDefaults().privateKey)
    ensures
      var cfg := PanelConfig(Telling(Marshal(Obj(R.RenderPayload(LostInput(nodeId), reality)))), reality);
      var db := Run(cfg, EmptyDb, LostRun(nodeId, LostLimit));
      && SanePanel(cfg) && Proper(cfg.crypto) && |db.revisions| == 1
      && CheckRevision(cfg.crypto, nodeId, Fetched(db.revisions[0])) == Some(BadBundleHash)
  {
    var payload := R.RenderPayload(LostInput(nodeId), reality);
    var cfg := PanelConfig(Telling(Marshal(Obj(payload))), reality);
    LostRunDeploys(cfg, nodeId);
    LimitIsLost(nodeId, payload);
    TellingDoesNotCollide(Marshal(Obj(payload)), Marshal(Obj(payload)));
    LostRowIsRefused(cfg, LostRun(nodeId, LostLimit), nodeId, Origin(payload, Deployed(LostInput(nodeId))));
  }

  lemma LimitIsLost(nodeId: string, payload: Fields)
    ensures !RowLimitsSurvive(Origin(payload, Deployed(LostInput(nodeId))))
  {
    RoundedIntIsLost();
    assert !LimitsSurvive(LostInput(nodeId).subscriptions[0]);
  }

  lemma LostRowIsRefused(cfg: PanelConfig, ops: seq<PanelOp>, nodeId: string, origin: Origin)
    requires SanePanel(cfg) && nodeId != "" && cfg.crypto == Telling(Marshal(Obj(origin.payload)))
    requires |Run(cfg, EmptyDb, ops).revisions| == 1 && Run(cfg, EmptyDb, ops).origins == [origin]
    requires Run(cfg, EmptyDb, ops).revisions[0].nodeId == nodeId && !RowLimitsSurvive(origin)
    ensures CheckRevision(cfg.crypto, nodeId, Fetched(Run(cfg, EmptyDb, ops).revisions[0])) == Some(BadBundleHash)
  {
    var db := Run(cfg, EmptyDb, ops);
    TellingDoesNotCollide(Marshal(Obj(origin.payload)), Marshal(Fetched(db.revisions[0]).bundle));
    EmptyIsOk(cfg);
    RunKeepsTable(cfg, EmptyDb, ops);
    RowIsAcceptedIff(cfg, db, 0, nodeId);
    RowBundle(cfg, db, 0);
  }

  lemma TellingDoesNotCollide(doc: Doc, other: Doc)
    ensures Proper(Telling(doc)) && !Collides(Telling(doc).digest, doc, other)
  {
  }
}
