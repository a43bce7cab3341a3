/** The panel's node, bootstrap token and config revision tables
    (storage/nodes.go). Each repository call is one transaction; the functions
    give its effect on the tables and the class carries it out in place. */
module Panel {
  import opened Text
  import opened Json
  import opened ConfigBundle
  import AgentCheck
  import R = Render
  import P = PanelValidator

  // ---- tables ----

  datatype NodeStatus = Pending | Active | Unhealthy | Drained | Disabled
  datatype DrainState = NotDraining | Draining | FullyDrained

  datatype NodeRow = NodeRow(
    hostname: string, region: string, countryCode: string, status: NodeStatus, drainState: DrainState,
    authTokenHash: Option<string>, registered: bool, activeRevision: int)

  datatype TokenStatus = TokenActive | TokenUsed | TokenRevoked
  datatype BootstrapRow = BootstrapRow(nodeId: string, status: TokenStatus, expiresAt: int)
  datatype RegistrationRow = RegistrationRow(nodeId: string, tokenHash: string)

  datatype RowStatus = RowPending | RowApplied | RowFailed
  datatype RevisionRow = RevisionRow(
    id: string, nodeId: string, number: int, hash: string, signature: string, signer: string,
    status: RowStatus, rollbackTarget: int, bundle: Doc, errorMessage: string)

  datatype How = Deployed(input: R.RenderInput) | RolledBack(source: nat)

  /** How a row was made: the payload that was hashed and signed, and what it was
      rendered from or the position of the row it rolls back to. A history variable. */
  datatype Origin = Origin(payload: Fields, how: How)

  datatype Db = Db(
    nodes: map<string, NodeRow>,
    bootstraps: map<string, BootstrapRow>,
    registrations: seq<RegistrationRow>,
    revisions: seq<RevisionRow>,
    origins: seq<Origin>)

  datatype PanelError =
    | NotFound | InvalidTransition | InvalidStatus
    | InvalidBootstrapToken | ExpiredBootstrapToken | BootstrapTokenUsed
    | StorageError

  datatype Result<+T> = Success(value: T) | Failure(error: PanelError)

  const EmptyDb := Db(map[], map[], [], [], [])

  // ---- queries ----

  function MaxNumber(rows: seq<RevisionRow>, nodeId: string): (m: int)
    ensures m >= 0
    ensures forall i :: 0 <= i < |rows| && rows[i].nodeId == nodeId ==> rows[i].number <= m
  {
    if rows == [] then 0
    else
      var last, rest := rows[|rows| - 1], MaxNumber(rows[..|rows| - 1], nodeId);
      if last.nodeId == nodeId && last.number > rest then last.number else rest
  }

  predicate PendingFor(row: RevisionRow, nodeId: string) {
    row.nodeId == nodeId && row.status.RowPending?
  }

  /** The position of the node's pending row with the highest number. */
  function LatestPending(rows: seq<RevisionRow>, nodeId: string): (r: Option<nat>)
    ensures r.Some? ==> r.value < |rows| && PendingFor(rows[r.value], nodeId)
    ensures r.Some? ==> forall i :: 0 <= i < |rows| && PendingFor(rows[i], nodeId) ==>
              rows[i].number <= rows[r.value].number
    ensures r.None? ==> forall i :: 0 <= i < |rows| ==> !PendingFor(rows[i], nodeId)
  {
    if rows == [] then None
    else
      var k := |rows| - 1;
      var rest := LatestPending(rows[..k], nodeId);
      if PendingFor(rows[k], nodeId) && (rest.None? || rows[rest.value].number < rows[k].number) then Some(k)
      else rest
  }

  /** The position of the node's row with this id. */
  function FindRow(rows: seq<RevisionRow>, nodeId: string, id: string): (r: Option<nat>)
    ensures r.Some? ==> r.value < |rows| && rows[r.value].nodeId == nodeId && rows[r.value].id == id
    ensures r.None? ==> forall i :: 0 <= i < |rows| ==> !(rows[i].nodeId == nodeId && rows[i].id == id)
  {
    if rows == [] then None
    else
      var k := |rows| - 1;
      if rows[k].nodeId == nodeId && rows[k].id == id then Some(k) else FindRow(rows[..k], nodeId, id)
  }

  predicate IdTaken(rows: seq<RevisionRow>, id: string) {
    exists i :: 0 <= i < |rows| && rows[i].id == id
  }

  /** The condition every agent-facing query puts on the node. */
  predicate Authorised(c: Crypto, db: Db, nodeId: string, token: string) {
    && nodeId in db.nodes
    && db.nodes[nodeId].authTokenHash == Some(c.hash(token))
    && db.nodes[nodeId].registered
    && !db.nodes[nodeId].status.Disabled?
  }

  // ---- bootstrap and registration ----

  function CreateBootstrap(
    c: Crypto, db: Db, nodeId: string, token: string, hostname: string, region: string, countryCode: string,
    expiresAt: int): (Db, Result<string>)
  {
    if nodeId in db.nodes || c.hash(token) in db.bootstraps then (db, Failure(StorageError))
    else
      (db.(nodes := db.nodes[nodeId := NodeRow(hostname, region, countryCode, Pending, NotDraining, None, false, 0)],
           bootstraps := db.bootstraps[c.hash(token) := BootstrapRow(nodeId, TokenActive, expiresAt)]),
       Success(nodeId))
  }

  function CheckBootstrap(db: Db, hash: string, nodeId: string, now: int): Option<PanelError> {
    if hash !in db.bootstraps then Some(InvalidBootstrapToken)
    else
      var row := db.bootstraps[hash];
      if row.status.TokenUsed? then Some(BootstrapTokenUsed)
      else if !row.status.TokenActive? then Some(InvalidBootstrapToken)
      else if row.expiresAt <= now then Some(ExpiredBootstrapToken)
      else if nodeId != "" && nodeId != row.nodeId then Some(InvalidBootstrapToken)
      else if row.nodeId !in db.nodes || db.nodes[row.nodeId].status.Disabled? then Some(InvalidBootstrapToken)
      else None
  }

  function Registered(c: Crypto, row: NodeRow, hostname: string, nodeToken: string): NodeRow {
    row.(hostname := if hostname == "" then row.hostname else hostname,
         authTokenHash := Some(c.hash(nodeToken)), status := Active, registered := true)
  }

  /** auth_token_hash is UNIQUE. */
  predicate AuthHashTaken(db: Db, hash: string, nodeId: string) {
    exists n :: n in db.nodes && n != nodeId && db.nodes[n].authTokenHash == Some(hash)
  }

  function Register(
    c: Crypto, db: Db, nodeId: string, token: string, hostname: string, nodeToken: string, now: int): (Db, Result<string>)
  {
    var hash := c.hash(token);
    match CheckBootstrap(db, hash, nodeId, now)
    case Some(e) => (db, Failure(e))
    case None =>
      var id := db.bootstraps[hash].nodeId;
      if AuthHashTaken(db, c.hash(nodeToken), id) then (db, Failure(StorageError))
      else
        (db.(nodes := db.nodes[id := Registered(c, db.nodes[id], hostname, nodeToken)],
             bootstraps := db.bootstraps[hash := db.bootstraps[hash].(status := TokenUsed)],
             registrations := db.registrations + [RegistrationRow(id, hash)]),
         Success(nodeToken))
  }

  // ---- heartbeat and lifecycle ----

  function ParseStatus(s: string): Option<NodeStatus> {
    if s == "pending" then Some(Pending)
    else if s == "active" then Some(Active)
    else if s == "unhealthy" then Some(Unhealthy)
    else if s == "drained" then Some(Drained)
    else if s == "disabled" then Some(Disabled)
    else None
  }

  predicate FitsInt32(n: int) {
    -MAX_INT32 - 1 <= n <= MAX_INT32
  }

  /** The untrimmed status is stored, so the column's CHECK refuses padded ones. */
  function Heartbeat(
    c: Crypto, db: Db, nodeId: string, token: string, status: string, activeRevision: int): (Db, Result<NodeRow>)
  {
    if ParseStatus(TrimSpace(status)).None? then (db, Failure(InvalidStatus))
    else if !Authorised(c, db, nodeId, token) then (db, Failure(NotFound))
    else if !FitsInt32(activeRevision) then (db, Failure(StorageError))
    else
      var row := db.nodes[nodeId];
      if !row.drainState.FullyDrained? && ParseStatus(status).None? then (db, Failure(StorageError))
      else
        var updated := row.(
          status := if row.drainState.FullyDrained? then Drained else ParseStatus(status).value,
          activeRevision := activeRevision);
        (db.(nodes := db.nodes[nodeId := updated]), Success(updated))
  }

  datatype Lifecycle = Drain | Undrain | Disable | Enable

  function Decide(action: Lifecycle, row: NodeRow): Result<NodeRow> {
    match action
    case Drain =>
      if row.status.Disabled? || row.drainState.Draining? then Failure(InvalidTransition)
      else Success(row.(drainState := Draining))
    case Undrain =>
      if row.status.Disabled? || row.drainState.NotDraining? then Failure(InvalidTransition)
      else Success(row.(drainState := NotDraining))
    case Disable =>
      if row.status.Disabled? then Failure(InvalidTransition) else Success(row.(status := Disabled))
    case Enable =>
      if !row.status.Disabled? then Failure(InvalidTransition) else Success(row.(status := Unhealthy))
  }

  function Transition(db: Db, nodeId: string, action: Lifecycle): (Db, Result<NodeRow>) {
    if nodeId !in db.nodes then (db, Failure(NotFound))
    else
      match Decide(action, db.nodes[nodeId])
      case Failure(e) => (db, Failure(e))
      case Success(row) => (db.(nodes := db.nodes[nodeId := row]), Success(row))
  }

  // ---- making revisions ----

  /** The node must exist, be enabled and not be draining. */
  function CheckCreation(db: Db, nodeId: string): Option<PanelError> {
    if nodeId !in db.nodes then Some(NotFound)
    else if db.nodes[nodeId].status.Disabled? || !db.nodes[nodeId].drainState.NotDraining? then
      Some(InvalidTransition)
    else None
  }

  function NewRow(c: Crypto, id: string, nodeId: string, number: int, target: int, payload: Fields): RevisionRow {
    var hash := HashPayload(c, Obj(payload));
    var bundle := Bundle(nodeId, number, "pending", hash, "", DEFAULT_SIGNER, target, Obj(payload));
    RevisionRow(id, nodeId, number, hash, Sign(c, bundle), DEFAULT_SIGNER, RowPending, target, Marshal(Obj(payload)), "")
  }

  /** Column ranges and the primary key. */
  predicate Insertable(db: Db, id: string, number: int, target: int) {
    !IdTaken(db.revisions, id) && number <= MAX_INT32 && 0 <= target
  }

  function InsertRevision(
    c: Crypto, db: Db, id: string, nodeId: string, number: int, target: int, origin: Origin): (Db, Result<RevisionRow>)
  {
    if P.CheckPayload(origin.payload).Rejected? then (db, Failure(InvalidTransition))
    else if !Insertable(db, id, number, target) then (db, Failure(StorageError))
    else
      var row := NewRow(c, id, nodeId, number, target, origin.payload);
      (db.(revisions := db.revisions + [row], origins := db.origins + [origin]), Success(row))
  }

  function DeployInput(db: Db, nodeId: string, inputs: seq<R.SubscriptionInput>): R.RenderInput
    requires nodeId in db.nodes
  {
    var node := db.nodes[nodeId];
    R.RenderInput(
      nodeId, MaxNumber(db.revisions, nodeId) + 1, node.hostname, node.region, node.countryCode,
      inputs, [], None, None, node.activeRevision)
  }

  /** inputs are the rows that the subscription query returned. */
  function CreateDeploy(
    c: Crypto, db: Db, reality: R.RealityConfig, nodeId: string, id: string,
    inputs: seq<R.SubscriptionInput>): (Db, Result<RevisionRow>)
  {
    match CheckCreation(db, nodeId)
    case Some(e) => (db, Failure(e))
    case None =>
      var input := DeployInput(db, nodeId, inputs);
      InsertRevision(
        c, db, id, nodeId, input.revisionNumber, input.rollbackTarget,
        Origin(R.RenderPayload(input, reality), Deployed(input)))
  }

  /** What scanning a stored bundle returns. */
  function ScanBundle(row: RevisionRow): Json {
    Unmarshal(row.bundle)
  }

  function RollbackOrigin(db: Db, nodeId: string, source: nat): Origin
    requires nodeId in db.nodes && source < |db.revisions| && ScanBundle(db.revisions[source]).Obj?
  {
    var target := db.revisions[source];
    Origin(
      R.RollbackPayload(
        ScanBundle(target).fields,
        R.RollbackInput(
          MaxNumber(db.revisions, nodeId) + 1, db.nodes[nodeId].activeRevision, target.id, target.number)),
      RolledBack(source))
  }

  function CreateRollback(
    c: Crypto, db: Db, nodeId: string, revisionId: string, id: string): (Db, Result<RevisionRow>)
  {
    match CheckCreation(db, nodeId)
    case Some(e) => (db, Failure(e))
    case None =>
      match FindRow(db.revisions, nodeId, revisionId)
      case None => (db, Failure(NotFound))
      case Some(source) =>
        if !db.revisions[source].status.RowApplied? then (db, Failure(InvalidTransition))
        else if !ScanBundle(db.revisions[source]).Obj? then (db, Failure(StorageError))
        else
          InsertRevision(
            c, db, id, nodeId, MaxNumber(db.revisions, nodeId) + 1, db.nodes[nodeId].activeRevision,
            RollbackOrigin(db, nodeId, source))
  }

  // ---- handing out and reporting ----

  function FindLatestPending(c: Crypto, db: Db, nodeId: string, token: string): Result<RevisionRow> {
    if !Authorised(c, db, nodeId, token) then Failure(NotFound)
    else
      match LatestPending(db.revisions, nodeId)
      case None => Failure(NotFound)
      case Some(i) => Success(db.revisions[i])
  }

  /** The revision as the agent decodes it from the panel's answer. */
  function Fetched(row: RevisionRow): AgentCheck.Revision {
    AgentCheck.Revision(
      row.id, row.nodeId, row.number, row.hash, row.signature, row.signer, row.rollbackTarget,
      RoundTrip(ScanBundle(row)))
  }

  datatype ReportStatus = ReportApplied | ReportFailed | ReportOther

  function Report(
    c: Crypto, db: Db, nodeId: string, token: string, revisionId: string, status: ReportStatus,
    errorMessage: string): (Db, Result<RevisionRow>)
  {
    if status.ReportOther? then (db, Failure(InvalidTransition))
    else
      match FindRow(db.revisions, nodeId, revisionId)
      case None => (db, Failure(NotFound))
      case Some(i) =>
        if !Authorised(c, db, nodeId, token) || !db.revisions[i].status.RowPending? then (db, Failure(NotFound))
        else if status.ReportApplied? then
          var row := db.revisions[i].(status := RowApplied, errorMessage := "");
          (db.(revisions := db.revisions[i := row],
               nodes := db.nodes[nodeId := db.nodes[nodeId].(activeRevision := row.number)]),
           Success(row))
        else
          var row := db.revisions[i].(status := RowFailed, errorMessage := errorMessage);
          (db.(revisions := db.revisions[i := row]), Success(row))
  }

  // ---- the repository ----

  class NodesRepository {
    const crypto: Crypto
    const reality: R.RealityConfig
    var nodes: map<string, NodeRow>
    var bootstraps: map<string, BootstrapRow>
    var registrations: seq<RegistrationRow>
    var revisions: seq<RevisionRow>
    ghost var origins: seq<Origin>

    ghost function Tables(): Db
      reads this
    {
      Db(nodes, bootstraps, registrations, revisions, origins)
    }

    constructor (crypto: Crypto, reality: R.RealityConfig)
      ensures Tables() == EmptyDb
      ensures this.crypto == crypto && this.reality == reality.WithDefaults()
    {
      this.crypto := crypto;
      this.reality := reality.WithDefaults();
      nodes, bootstraps, registrations, revisions, origins := map[], map[], [], [], [];
    }

    method CreateBootstrapToken(
      nodeId: string, token: string, hostname: string, region: string, countryCode: string, expiresAt: int)
      returns (result: Result<string>)
      modifies this
      ensures (Tables(), result) ==
        CreateBootstrap(crypto, old(Tables()), nodeId, token, hostname, region, countryCode, expiresAt)
    {
      var hash := crypto.hash(token);
      if nodeId in nodes || hash in bootstraps {
        return Failure(StorageError);
      }
      nodes := nodes[nodeId := NodeRow(hostname, region, countryCode, Pending, NotDraining, None, false, 0)];
      bootstraps := bootstraps[hash := BootstrapRow(nodeId, TokenActive, expiresAt)];
      return Success(nodeId);
    }

    method RegisterNode(nodeId: string, token: string, hostname: string, nodeToken: string, now: int)
      returns (result: Result<string>)
      modifies this
      ensures (Tables(), result) == Register(crypto, old(Tables()), nodeId, token, hostname, nodeToken, now)
    {
      var hash := crypto.hash(token);
      if hash !in bootstraps {
        return Failure(InvalidBootstrapToken);
      }
      var row := bootstraps[hash];
      if row.status.TokenUsed? {
        return Failure(BootstrapTokenUsed);
      }
      if !row.status.TokenActive? {
        return Failure(InvalidBootstrapToken);
      }
      if row.expiresAt <= now {
        return Failure(ExpiredBootstrapToken);
      }
      if nodeId != "" && nodeId != row.nodeId {
        return Failure(InvalidBootstrapToken);
      }
      if row.nodeId !in nodes || nodes[row.nodeId].status.Disabled? {
        return Failure(InvalidBootstrapToken);
      }
      if exists n :: n in nodes && n != row.nodeId && nodes[n].authTokenHash == Some(crypto.hash(nodeToken)) {
        return Failure(StorageError);
      }
      nodes := nodes[row.nodeId := Registered(crypto, nodes[row.nodeId], hostname, nodeToken)];
      bootstraps := bootstraps[hash := row.(status := TokenUsed)];
      registrations := registrations + [RegistrationRow(row.nodeId, hash)];
      return Success(nodeToken);
    }

    predicate TokenAccepted(nodeId: string, token: string)
      reads this
      ensures TokenAccepted(nodeId, token) <==> Authorised(crypto, Tables(), nodeId, token)
    {
      && nodeId in nodes && nodes[nodeId].authTokenHash == Some(crypto.hash(token))
      && nodes[nodeId].registered && !nodes[nodeId].status.Disabled?
    }

    method RecordHeartbeat(nodeId: string, token: string, status: string, activeRevision: int)
      returns (result: Result<NodeRow>)
      modifies this
      ensures (Tables(), result) == Heartbeat(crypto, old(Tables()), nodeId, token, status, activeRevision)
    {
      if ParseStatus(TrimSpace(status)).None? {
        return Failure(InvalidStatus);
      }
      if !TokenAccepted(nodeId, token) {
        return Failure(NotFound);
      }
      var row := nodes[nodeId];
      if !FitsInt32(activeRevision) || (!row.drainState.FullyDrained? && ParseStatus(status).None?) {
        return Failure(StorageError);
      }
      row := row.(status := if row.drainState.FullyDrained? then Drained else ParseStatus(status).value);
      row := row.(activeRevision := activeRevision);
      nodes := nodes[nodeId := row];
      return Success(row);
    }

    method ChangeLifecycle(nodeId: string, action: Lifecycle) returns (result: Result<NodeRow>)
      modifies this
      ensures (Tables(), result) == Transition(old(Tables()), nodeId, action)
    {
      if nodeId !in nodes {
        return Failure(NotFound);
      }
      result := Decide(action, nodes[nodeId]);
      if result.Success? {
        nodes := nodes[nodeId := result.value];
      }
    }

    method Insert(id: string, nodeId: string, number: int, target: int, payload: Fields, ghost how: How)
      returns (result: Result<RevisionRow>)
      modifies this
      ensures (Tables(), result) ==
        InsertRevision(crypto, old(Tables()), id, nodeId, number, target, Origin(payload, how))
    {
      if P.CheckPayload(payload).Rejected? {
        return Failure(InvalidTransition);
      }
      if IdTaken(revisions, id) || number > MAX_INT32 || target < 0 {
        return Failure(StorageError);
      }
      var row := NewRow(crypto, id, nodeId, number, target, payload);
      revisions := revisions + [row];
      origins := origins + [Origin(payload, how)];
      return Success(row);
    }

    method CreateDummyConfigRevision(nodeId: string, id: string, inputs: seq<R.SubscriptionInput>)
      returns (result: Result<RevisionRow>)
      modifies this
      ensures (Tables(), result) == CreateDeploy(crypto, old(Tables()), reality, nodeId, id, inputs)
    {
      if nodeId !in nodes {
        return Failure(NotFound);
      }
      var node := nodes[nodeId];
      if node.status.Disabled? || !node.drainState.NotDraining? {
        return Failure(InvalidTransition);
      }
      var next := MaxNumber(revisions, nodeId) + 1;
      var input := R.RenderInput(
        nodeId, next, node.hostname, node.region, node.countryCode, inputs, [], None, None, node.activeRevision);
      assert input == DeployInput(Tables(), nodeId, inputs);
      var payload := R.RenderVLESSRealityPayload(input, reality);
      result := Insert(id, nodeId, next, node.activeRevision, payload, Deployed(input));
      assert CreateDeploy(crypto, old(Tables()), reality, nodeId, id, inputs) ==
        InsertRevision(crypto, old(Tables()), id, nodeId, next, node.activeRevision, Origin(payload, Deployed(input)));
    }

    method CreateRollbackConfigRevision(nodeId: string, revisionId: string, id: string)
      returns (result: Result<RevisionRow>)
      modifies this
      ensures (Tables(), result) == CreateRollback(crypto, old(Tables()), nodeId, revisionId, id)
    {
      if nodeId !in nodes {
        return Failure(NotFound);
      }
      var node := nodes[nodeId];
      if node.status.Disabled? || !node.drainState.NotDraining? {
        return Failure(InvalidTransition);
      }
      var source := FindRow(revisions, nodeId, revisionId);
      if source.None? {
        return Failure(NotFound);
      }
      var target := revisions[source.value];
      if !target.status.RowApplied? {
        return Failure(InvalidTransition);
      }
      var bundle := ScanBundle(target);
      if !bundle.Obj? {
        return Failure(StorageError);
      }
      var next := MaxNumber(revisions, nodeId) + 1;
      var payload := R.RollbackPayload(
        bundle.fields, R.RollbackInput(next, node.activeRevision, target.id, target.number));
      result := Insert(id, nodeId, next, node.activeRevision, payload, RolledBack(source.value));
    }

    method FindLatestPendingConfigRevision(nodeId: string, token: string) returns (result: Result<RevisionRow>)
      ensures result == FindLatestPending(crypto, Tables(), nodeId, token)
    {
      if !TokenAccepted(nodeId, token) {
        return Failure(NotFound);
      }
      var found := LatestPending(revisions, nodeId);
      if found.None? {
        return Failure(NotFound);
      }
      return Success(revisions[found.value]);
    }

    method ReportConfigRevision(
      nodeId: string, token: string, revisionId: string, status: ReportStatus, errorMessage: string)
      returns (result: Result<RevisionRow>)
      modifies this
      ensures (Tables(), result) == Report(crypto, old(Tables()), nodeId, token, revisionId, status, errorMessage)
    {
      if status.ReportOther? {
        return Failure(InvalidTransition);
      }
      var found := FindRow(revisions, nodeId, revisionId);
      if found.None? || !TokenAccepted(nodeId, token) || !revisions[found.value].status.RowPending? {
        return Failure(NotFound);
      }
      var row := revisions[found.value];
      if status.ReportApplied? {
        row := row.(status := RowApplied, errorMessage := "");
        revisions := revisions[found.value := row];
        nodes := nodes[nodeId := nodes[nodeId].(activeRevision := row.number)];
      } else {
        row := row.(status := RowFailed, errorMessage := errorMessage);
        revisions := revisions[found.value := row];
      }
      return Success(row);
    }
  }
}
