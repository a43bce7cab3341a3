/** What every sequence of panel transactions keeps. */
module PanelTheorems {
  import opened Text
  import opened Json
  import opened ConfigBundle
  import opened AgentCheck
  import opened DecodingTheorems
  import opened ValidatorTheorems
  import opened Acceptance
  import opened RenderTheorems
  import opened Panel
  import R = Render
  import P = PanelValidator
  import A = AgentValidator

  datatype PanelConfig = PanelConfig(crypto: Crypto, reality: R.RealityConfig)

  datatype PanelOp =
    | OpBootstrap(nodeId: string, token: string, hostname: string, region: string, countryCode: string, expiresAt: int)
    | OpRegister(nodeId: string, token: string, hostname: string, nodeToken: string, now: int)
    | OpHeartbeat(nodeId: string, token: string, status: string, activeRevision: int)
    | OpLifecycle(nodeId: string, action: Lifecycle)
    | OpDeploy(nodeId: string, id: string, inputs: seq<R.SubscriptionInput>)
    | OpRollback(nodeId: string, revisionId: string, id: string)
    | OpReport(nodeId: string, token: string, revisionId: string, reported: ReportStatus, errorMessage: string)

  function Step(cfg: PanelConfig, db: Db, op: PanelOp): Db {
    match op
    case OpBootstrap(nodeId, token, hostname, region, countryCode, expiresAt) =>
      CreateBootstrap(cfg.crypto, db, nodeId, token, hostname, region, countryCode, expiresAt).0
    case OpRegister(nodeId, token, hostname, nodeToken, now) =>
      Register(cfg.crypto, db, nodeId, token, hostname, nodeToken, now).0
    case OpHeartbeat(nodeId, token, status, activeRevision) =>
      Heartbeat(cfg.crypto, db, nodeId, token, status, activeRevision).0
    case OpLifecycle(nodeId, action) => Transition(db, nodeId, action).0
    case OpDeploy(nodeId, id, inputs) => CreateDeploy(cfg.crypto, db, cfg.reality, nodeId, id, inputs).0
    case OpRollback(nodeId, revisionId, id) => CreateRollback(cfg.crypto, db, nodeId, revisionId, id).0
    case OpReport(nodeId, token, revisionId, reported, errorMessage) =>
      Report(cfg.crypto, db, nodeId, token, revisionId, reported, errorMessage).0
  }

  function Run(cfg: PanelConfig, db: Db, ops: seq<PanelOp>): Db {
    if ops == [] then db else Step(cfg, Run(cfg, db, ops[..|ops| - 1]), ops[|ops| - 1])
  }

  // ---- numbering ----

  function CountOf(rows: seq<RevisionRow>, nodeId: string): nat {
    if rows == [] then 0
    else CountOf(rows[..|rows| - 1], nodeId) + if rows[|rows| - 1].nodeId == nodeId then 1 else 0
  }

  /** Each row has the next number of its node: the numbers are 1, 2, ..., k. */
  predicate Numbered(rows: seq<RevisionRow>) {
    forall i :: 0 <= i < |rows| ==> rows[i].number == CountOf(rows[..i], rows[i].nodeId) + 1
  }

  lemma {:induction false} MaxIsCount(rows: seq<RevisionRow>, nodeId: string)
    requires Numbered(rows)
    ensures MaxNumber(rows, nodeId) == CountOf(rows, nodeId)
  {
    if rows != [] {
      var front := rows[..|rows| - 1];
      forall i | 0 <= i < |front| ensures front[i].number == CountOf(front[..i], front[i].nodeId) + 1 {
        assert front[..i] == rows[..i];
      }
      MaxIsCount(front, nodeId);
    }
  }

  lemma {:induction false} CountGrows(rows: seq<RevisionRow>, i: nat, j: nat, nodeId: string)
    requires i <= j <= |rows|
    ensures CountOf(rows[..i], nodeId) <= CountOf(rows[..j], nodeId)
    ensures i < j && rows[j - 1].nodeId == nodeId ==> CountOf(rows[..i], nodeId) < CountOf(rows[..j], nodeId)
    decreases j
  {
    if i < j {
      CountGrows(rows, i, j - 1, nodeId);
      assert rows[..j][..j - 1] == rows[..j - 1];
    }
  }

  /** Numbers rise along the table, so a node never has two rows of one number. */
  lemma NumbersRise(rows: seq<RevisionRow>, i: nat, j: nat)
    requires Numbered(rows) && i < j < |rows| && rows[i].nodeId == rows[j].nodeId
    ensures rows[i].number < rows[j].number
  {
    var n := rows[i].nodeId;
    CountGrows(rows, i + 1, j, n);
    CountGrows(rows, i, i + 1, n);
  }

  /** Every number from 1 to the node's highest is that of one of its rows. */
  lemma {:induction false} NumbersHaveNoGap(rows: seq<RevisionRow>, nodeId: string, number: int)
    requires Numbered(rows) && 1 <= number <= MaxNumber(rows, nodeId)
    ensures exists i :: 0 <= i < |rows| && rows[i].nodeId == nodeId && rows[i].number == number
  {
    MaxIsCount(rows, nodeId);
    var front := rows[..|rows| - 1];
    var last := rows[|rows| - 1];
    if !(last.nodeId == nodeId && last.number == number) {
      NumberedPrefix(rows, |rows| - 1);
      MaxIsCount(front, nodeId);
      NumbersHaveNoGap(front, nodeId, number);
      var i :| 0 <= i < |front| && front[i].nodeId == nodeId && front[i].number == number;
      assert rows[i] == front[i];
    }
  }

  lemma NumberedPrefix(rows: seq<RevisionRow>, n: nat)
    requires Numbered(rows) && n <= |rows|
    ensures Numbered(rows[..n])
  {
    forall i | 0 <= i < n ensures rows[..n][i].number == CountOf(rows[..n][..i], rows[..n][i].nodeId) + 1 {
      assert rows[..n][..i] == rows[..i];
    }
  }

  // ---- the invariant of the revision table ----

  predicate UniqueIds(rows: seq<RevisionRow>) {
    forall i, j :: 0 <= i < j < |rows| ==> rows[i].id != rows[j].id
  }

  /** A row without its verdict: the part that never changes. */
  function Seal(row: RevisionRow): RevisionRow {
    row.(status := RowPending, errorMessage := "")
  }

  /** What is claimed of a sealed row, its origin, and the sealed row and payload it rolls back to. */
  type Facts = (RevisionRow, Origin, Option<(RevisionRow, Fields)>) -> bool

  function SourceAt(db: Db, i: nat): Option<(RevisionRow, Fields)>
    requires i < |db.revisions| == |db.origins|
  {
    match db.origins[i].how
    case Deployed(_) => None
    case RolledBack(source) =>
      if source < |db.revisions| then Some((Seal(db.revisions[source]), db.origins[source].payload)) else None
  }

  predicate RowOk(facts: Facts, db: Db, i: nat)
    requires i < |db.revisions| == |db.origins|
  {
    && facts(Seal(db.revisions[i]), db.origins[i], SourceAt(db, i))
    && (db.origins[i].how.RolledBack? ==>
         var source := db.origins[i].how.source;
         source < i && db.revisions[source].nodeId == db.revisions[i].nodeId && db.revisions[source].status.RowApplied?)
  }

  predicate RowsOk(facts: Facts, db: Db) {
    && |db.revisions| == |db.origins|
    && forall i :: 0 <= i < |db.revisions| ==> RowOk(facts, db, i)
  }

  predicate NodesOk(db: Db) {
    && (forall n :: n in db.nodes ==> FitsInt32(db.nodes[n].activeRevision))
    && (forall i :: 0 <= i < |db.revisions| ==> db.revisions[i].nodeId in db.nodes)
  }

  predicate TableOk(facts: Facts, db: Db) {
    RowsOk(facts, db) && Numbered(db.revisions) && UniqueIds(db.revisions) && NodesOk(db)
  }

  /** The row as it was, or with a verdict in place of pending. */
  predicate RowKept(row: RevisionRow, now: RevisionRow) {
    now == row || (row.status.RowPending? && Seal(now) == Seal(row) && !now.status.RowPending?)
  }

  /** Rows are only added, and change at most once, from pending to a verdict. */
  ghost predicate RowsKept(db: Db, now: Db) {
    && |db.revisions| <= |now.revisions| && db.origins <= now.origins
    && (forall i :: 0 <= i < |db.revisions| ==> RowKept(db.revisions[i], now.revisions[i]))
    && db.nodes.Keys <= now.nodes.Keys
  }

  lemma RowsKeptIsTransitive(a: Db, b: Db, c: Db)
    requires RowsKept(a, b) && RowsKept(b, c)
    ensures RowsKept(a, c)
  {
    forall i | 0 <= i < |a.revisions| ensures RowKept(a.revisions[i], c.revisions[i]) {
      assert RowKept(b.revisions[i], c.revisions[i]);
    }
  }

  lemma {:induction false} CountIgnoresVerdict(rows: seq<RevisionRow>, i: nat, row: RevisionRow, nodeId: string)
    requires i < |rows| && row.nodeId == rows[i].nodeId
    ensures CountOf(rows[i := row], nodeId) == CountOf(rows, nodeId)
  {
    var k := |rows| - 1;
    if i == k {
      assert rows[i := row][..k] == rows[..k];
    } else {
      assert rows[i := row][..k] == rows[..k][i := row];
      CountIgnoresVerdict(rows[..k], i, row, nodeId);
    }
  }

  lemma NumberedKept(rows: seq<RevisionRow>, i: nat, row: RevisionRow)
    requires Numbered(rows) && i < |rows| && row.nodeId == rows[i].nodeId && row.number == rows[i].number
    ensures Numbered(rows[i := row])
  {
    var now := rows[i := row];
    forall j | 0 <= j < |now| ensures now[j].number == CountOf(now[..j], now[j].nodeId) + 1 {
      if i < j {
        assert now[..j] == rows[..j][i := row];
        CountIgnoresVerdict(rows[..j], i, row, now[j].nodeId);
      } else {
        assert now[..j] == rows[..j];
      }
    }
  }

  lemma VerdictKeepsRows(facts: Facts, db: Db, now: Db, i: nat, row: RevisionRow)
    requires RowsOk(facts, db) && i < |db.revisions| && RowKept(db.revisions[i], row)
    requires now.revisions == db.revisions[i := row] && now.origins == db.origins
    ensures RowsOk(facts, now)
  {
    forall j | 0 <= j < |now.revisions| ensures RowOk(facts, now, j) {
      assert RowOk(facts, db, j);
      assert Seal(now.revisions[j]) == Seal(db.revisions[j]);
      assert SourceAt(now, j) == SourceAt(db, j);
    }
  }

  lemma VerdictKeepsTable(facts: Facts, db: Db, now: Db, i: nat, row: RevisionRow)
    requires TableOk(facts, db) && i < |db.revisions| && RowKept(db.revisions[i], row)
    requires now.revisions == db.revisions[i := row] && now.origins == db.origins && now.nodes.Keys == db.nodes.Keys
    requires forall n :: n in now.nodes ==> FitsInt32(now.nodes[n].activeRevision)
    ensures TableOk(facts, now) && RowsKept(db, now)
  {
    VerdictKeepsRows(facts, db, now, i, row);
    assert row.nodeId == Seal(row).nodeId && row.number == Seal(row).number && row.id == Seal(row).id;
    NumberedKept(db.revisions, i, row);
  }

  lemma AppendKeepsNumbers(rows: seq<RevisionRow>, row: RevisionRow)
    requires Numbered(rows) && row.number == MaxNumber(rows, row.nodeId) + 1
    ensures Numbered(rows + [row])
  {
    MaxIsCount(rows, row.nodeId);
    var now := rows + [row];
    forall i | 0 <= i < |now| ensures now[i].number == CountOf(now[..i], now[i].nodeId) + 1 {
      if i < |rows| {
        assert now[..i] == rows[..i];
      } else {
        assert now[..i] == rows;
      }
    }
  }

  lemma AppendKeepsRows(facts: Facts, db: Db, now: Db, row: RevisionRow, origin: Origin)
    requires RowsOk(facts, db)
    requires now.revisions == db.revisions + [row] && now.origins == db.origins + [origin]
    requires RowOk(facts, now, |db.revisions|)
    ensures RowsOk(facts, now)
  {
    forall i | 0 <= i < |now.revisions| ensures RowOk(facts, now, i) {
      if i < |db.revisions| {
        assert RowOk(facts, db, i);
        assert SourceAt(now, i) == SourceAt(db, i);
      }
    }
  }

  lemma AppendKeepsTable(facts: Facts, db: Db, now: Db, row: RevisionRow, origin: Origin)
    requires TableOk(facts, db) && row.nodeId in db.nodes && !IdTaken(db.revisions, row.id)
    requires row.number == MaxNumber(db.revisions, row.nodeId) + 1
    requires now == db.(revisions := db.revisions + [row], origins := db.origins + [origin])
    requires RowOk(facts, now, |db.revisions|)
    ensures TableOk(facts, now) && RowsKept(db, now)
  {
    AppendKeepsNumbers(db.revisions, row);
    AppendKeepsRows(facts, db, now, row, origin);
  }

  // ---- what is claimed of each row ----

  /** Made by a deploy: rendered. Made by a rollback: the source's stored payload, overwritten. */
  predicate MadeFrom(cfg: PanelConfig, row: RevisionRow, origin: Origin, source: Option<(RevisionRow, Fields)>) {
    match origin.how
    case Deployed(input) =>
      && origin.payload == R.RenderPayload(input, cfg.reality)
      && input.revisionNumber == row.number && input.rollbackTarget == row.rollbackTarget
    case RolledBack(_) =>
      && source.Some?
      && origin.payload ==
         R.RollbackPayload(
           Decoded(source.value.1),
           R.RollbackInput(row.number, row.rollbackTarget, source.value.0.id, source.value.0.number))
  }

  /** The sealed row was issued for a payload that both validators accept. */
  predicate Issuance(cfg: PanelConfig, row: RevisionRow, origin: Origin, source: Option<(RevisionRow, Fields)>) {
    && row == NewRow(cfg.crypto, row.id, row.nodeId, row.number, row.rollbackTarget, origin.payload)
    && 0 < row.number <= MAX_INT32 && 0 <= row.rollbackTarget <= MAX_INT32
    && Deployable(origin.payload, row.number) && P.CheckPayload(origin.payload).Ok?
    && MadeFrom(cfg, row, origin, source)
  }

  function IssuanceFacts(cfg: PanelConfig): Facts {
    (row, origin, source) => Issuance(cfg, row, origin, source)
  }

  ghost predicate PanelOk(cfg: PanelConfig, db: Db) {
    TableOk(IssuanceFacts(cfg), db)
  }

  ghost predicate SanePanel(cfg: PanelConfig) {
    cfg.reality.vlessPort < TWO53
  }

  lemma InsertKeepsTable(
    facts: Facts, c: Crypto, db: Db, id: string, nodeId: string, number: int, target: int, origin: Origin)
    requires TableOk(facts, db) && nodeId in db.nodes && number == MaxNumber(db.revisions, nodeId) + 1
    requires
      number <= MAX_INT32 && 0 <= target && P.CheckPayload(origin.payload).Ok? ==>
        var row := NewRow(c, id, nodeId, number, target, origin.payload);
        RowOk(facts, db.(revisions := db.revisions + [row], origins := db.origins + [origin]), |db.revisions|)
    ensures
      var now := InsertRevision(c, db, id, nodeId, number, target, origin).0;
      TableOk(facts, now) && RowsKept(db, now)
  {
    if P.CheckPayload(origin.payload).Ok? && Insertable(db, id, number, target) {
      var row := NewRow(c, id, nodeId, number, target, origin.payload);
      AppendKeepsTable(
        facts, db, db.(revisions := db.revisions + [row], origins := db.origins + [origin]), row, origin);
    }
  }

  lemma DeployIssuance(cfg: PanelConfig, id: string, nodeId: string, input: R.RenderInput)
    requires SanePanel(cfg) && P.CheckPayload(R.RenderPayload(input, cfg.reality)).Ok?
    requires 0 < input.revisionNumber <= MAX_INT32 && 0 <= input.rollbackTarget <= MAX_INT32
    ensures
      var payload := R.RenderPayload(input, cfg.reality);
      Issuance(
        cfg, NewRow(cfg.crypto, id, nodeId, input.revisionNumber, input.rollbackTarget, payload),
        Origin(payload, Deployed(input)), None)
  {
    RenderedPayloadPassesIff(input, cfg.reality);
    RenderedIsDeployable(input, cfg.reality);
  }

  lemma RollbackIssuance(
    cfg: PanelConfig, id: string, nodeId: string, input: R.RollbackInput, i: nat,
    source: (RevisionRow, Fields))
    requires Deployable(source.1, source.0.number)
    requires input.sourceRevisionId == source.0.id && input.sourceRevisionNumber == source.0.number
    requires 0 < input.revisionNumber <= MAX_INT32 && 0 <= input.rollbackTarget <= MAX_INT32
    requires 0 < source.0.number <= MAX_INT32
    requires P.CheckPayload(R.RollbackPayload(Decoded(source.1), input)).Ok?
    ensures
      var payload := R.RollbackPayload(Decoded(source.1), input);
      Issuance(
        cfg, NewRow(cfg.crypto, id, nodeId, input.revisionNumber, input.rollbackTarget, payload),
        Origin(payload, RolledBack(i)), Some(source))
  {
    RollbackIsDeployable(source.1, source.0.number, input);
  }

  // ---- every transaction keeps the invariant ----

  lemma DeployKeepsTable(cfg: PanelConfig, db: Db, nodeId: string, id: string, inputs: seq<R.SubscriptionInput>)
    requires SanePanel(cfg) && PanelOk(cfg, db)
    ensures
      var now := CreateDeploy(cfg.crypto, db, cfg.reality, nodeId, id, inputs).0;
      PanelOk(cfg, now) && RowsKept(db, now)
  {
    if CheckCreation(db, nodeId).None? {
      var input := DeployInput(db, nodeId, inputs);
      var payload := R.RenderPayload(input, cfg.reality);
      var origin := Origin(payload, Deployed(input));
      if input.revisionNumber <= MAX_INT32 && 0 <= input.rollbackTarget && P.CheckPayload(payload).Ok? {
        DeployIssuance(cfg, id, nodeId, input);
      }
      InsertDeployKeepsTable(cfg, db, id, nodeId, input, payload);
      assert CreateDeploy(cfg.crypto, db, cfg.reality, nodeId, id, inputs) ==
        InsertRevision(cfg.crypto, db, id, nodeId, input.revisionNumber, input.rollbackTarget, origin);
    }
  }

  lemma InsertDeployKeepsTable(
    cfg: PanelConfig, db: Db, id: string, nodeId: string, input: R.RenderInput, payload: Fields)
    requires PanelOk(cfg, db) && nodeId in db.nodes
    requires input.revisionNumber == MaxNumber(db.revisions, nodeId) + 1
    requires input.revisionNumber <= MAX_INT32 && 0 <= input.rollbackTarget && P.CheckPayload(payload).Ok? ==>
      Issuance(
        cfg, NewRow(cfg.crypto, id, nodeId, input.revisionNumber, input.rollbackTarget, payload),
        Origin(payload, Deployed(input)), None)
    ensures
      var now := InsertRevision(
        cfg.crypto, db, id, nodeId, input.revisionNumber, input.rollbackTarget, Origin(payload, Deployed(input))).0;
      PanelOk(cfg, now) && RowsKept(db, now)
  {
    InsertDeployedKeepsTable(
      IssuanceFacts(cfg), cfg.crypto, db, id, nodeId, input.revisionNumber, input.rollbackTarget,
      Origin(payload, Deployed(input)));
  }

  lemma InsertDeployedKeepsTable(
    facts: Facts, c: Crypto, db: Db, id: string, nodeId: string, number: int, target: int, origin: Origin)
    requires TableOk(facts, db) && nodeId in db.nodes && number == MaxNumber(db.revisions, nodeId) + 1
    requires origin.how.Deployed?
    requires number <= MAX_INT32 && 0 <= target && P.CheckPayload(origin.payload).Ok? ==>
      facts(NewRow(c, id, nodeId, number, target, origin.payload), origin, None)
    ensures
      var now := InsertRevision(c, db, id, nodeId, number, target, origin).0;
      TableOk(facts, now) && RowsKept(db, now)
  {
    InsertKeepsTable(facts, c, db, id, nodeId, number, target, origin);
  }

  lemma IssuedIsNewRow(cfg: PanelConfig, row: RevisionRow, origin: Origin, source: Option<(RevisionRow, Fields)>)
    requires Issuance(cfg, row, origin, source)
    ensures row == NewRow(cfg.crypto, row.id, row.nodeId, row.number, row.rollbackTarget, origin.payload)
    ensures 0 < row.number <= MAX_INT32
  {
  }

  lemma NewRowBundle(c: Crypto, id: string, nodeId: string, number: int, target: int, payload: Fields)
    ensures NewRow(c, id, nodeId, number, target, payload).bundle == Marshal(Obj(payload))
  {
  }

  lemma RowIsIssued(cfg: PanelConfig, db: Db, i: nat)
    requires PanelOk(cfg, db) && i < |db.revisions|
    ensures Issuance(cfg, Seal(db.revisions[i]), db.origins[i], SourceAt(db, i))
  {
    assert RowOk(IssuanceFacts(cfg), db, i);
  }

  lemma RowNumberFits(cfg: PanelConfig, db: Db, i: nat)
    requires PanelOk(cfg, db) && i < |db.revisions|
    ensures 0 < db.revisions[i].number <= MAX_INT32
  {
    RowIsIssued(cfg, db, i);
    IssuedIsNewRow(cfg, Seal(db.revisions[i]), db.origins[i], SourceAt(db, i));
  }

  lemma RowBundle(cfg: PanelConfig, db: Db, i: nat)
    requires PanelOk(cfg, db) && i < |db.revisions|
    ensures db.revisions[i].bundle == Marshal(Obj(db.origins[i].payload))
  {
    var row := Seal(db.revisions[i]);
    RowIsIssued(cfg, db, i);
    IssuedIsNewRow(cfg, row, db.origins[i], SourceAt(db, i));
    NewRowBundle(cfg.crypto, row.id, row.nodeId, row.number, row.rollbackTarget, db.origins[i].payload);
  }

  lemma ScanOfMarshal(row: RevisionRow, payload: Fields)
    requires row.bundle == Marshal(Obj(payload))
    ensures ScanBundle(row) == Obj(Decoded(payload))
  {
  }

  /** Scanning a stored bundle gives the decoded payload. */
  lemma ScanIsDecoded(cfg: PanelConfig, db: Db, i: nat)
    requires PanelOk(cfg, db) && i < |db.revisions|
    ensures ScanBundle(db.revisions[i]) == Obj(Decoded(db.origins[i].payload))
  {
    RowBundle(cfg, db, i);
    ScanOfMarshal(db.revisions[i], db.origins[i].payload);
  }

  lemma InsertRollbackKeepsTable(
    facts: Facts, c: Crypto, db: Db, id: string, nodeId: string, number: int, target: int, source: nat, payload: Fields)
    requires TableOk(facts, db) && nodeId in db.nodes && source < |db.revisions|
    requires db.revisions[source].nodeId == nodeId && db.revisions[source].status.RowApplied?
    requires number == MaxNumber(db.revisions, nodeId) + 1
    requires number <= MAX_INT32 && 0 <= target && P.CheckPayload(payload).Ok? ==>
      facts(
        NewRow(c, id, nodeId, number, target, payload), Origin(payload, RolledBack(source)),
        Some((Seal(db.revisions[source]), db.origins[source].payload)))
    ensures
      var now := InsertRevision(c, db, id, nodeId, number, target, Origin(payload, RolledBack(source))).0;
      TableOk(facts, now) && RowsKept(db, now)
  {
    InsertKeepsTable(facts, c, db, id, nodeId, number, target, Origin(payload, RolledBack(source)));
  }

  function RollbackInputFor(db: Db, nodeId: string, source: nat): R.RollbackInput
    requires nodeId in db.nodes && source < |db.revisions|
  {
    R.RollbackInput(
      MaxNumber(db.revisions, nodeId) + 1, db.nodes[nodeId].activeRevision,
      db.revisions[source].id, db.revisions[source].number)
  }

  lemma RollbackPayloadFor(cfg: PanelConfig, db: Db, nodeId: string, source: nat)
    requires PanelOk(cfg, db) && nodeId in db.nodes && source < |db.revisions|
    ensures ScanBundle(db.revisions[source]).Obj?
    ensures RollbackOrigin(db, nodeId, source) ==
      Origin(
        R.RollbackPayload(Decoded(db.origins[source].payload), RollbackInputFor(db, nodeId, source)), RolledBack(source))
  {
    ScanIsDecoded(cfg, db, source);
  }

  lemma RollbackIssued(cfg: PanelConfig, db: Db, nodeId: string, source: nat, id: string, payload: Fields)
    requires PanelOk(cfg, db) && nodeId in db.nodes && source < |db.revisions|
    requires payload == R.RollbackPayload(Decoded(db.origins[source].payload), RollbackInputFor(db, nodeId, source))
    requires P.CheckPayload(payload).Ok?
    requires MaxNumber(db.revisions, nodeId) + 1 <= MAX_INT32 && 0 <= db.nodes[nodeId].activeRevision
    ensures
      Issuance(
        cfg,
        NewRow(
          cfg.crypto, id, nodeId, MaxNumber(db.revisions, nodeId) + 1, db.nodes[nodeId].activeRevision, payload),
        Origin(payload, RolledBack(source)), Some((Seal(db.revisions[source]), db.origins[source].payload)))
  {
    RowIsIssued(cfg, db, source);
    assert FitsInt32(db.nodes[nodeId].activeRevision);
    RollbackIssuance(
      cfg, id, nodeId, RollbackInputFor(db, nodeId, source), source,
      (Seal(db.revisions[source]), db.origins[source].payload));
  }

  lemma RollbackFacts(cfg: PanelConfig, db: Db, nodeId: string, source: nat, id: string, payload: Fields)
    requires PanelOk(cfg, db) && nodeId in db.nodes && source < |db.revisions|
    requires payload == R.RollbackPayload(Decoded(db.origins[source].payload), RollbackInputFor(db, nodeId, source))
    ensures
      var number, target := MaxNumber(db.revisions, nodeId) + 1, db.nodes[nodeId].activeRevision;
      number <= MAX_INT32 && 0 <= target && P.CheckPayload(payload).Ok? ==>
        IssuanceFacts(cfg)(
          NewRow(cfg.crypto, id, nodeId, number, target, payload), Origin(payload, RolledBack(source)),
          Some((Seal(db.revisions[source]), db.origins[source].payload)))
  {
    if MaxNumber(db.revisions, nodeId) + 1 <= MAX_INT32 && 0 <= db.nodes[nodeId].activeRevision
       && P.CheckPayload(payload).Ok? {
      RollbackIssued(cfg, db, nodeId, source, id, payload);
    }
  }

  lemma OriginFacts(cfg: PanelConfig, db: Db, nodeId: string, source: nat, id: string, origin: Origin)
    requires PanelOk(cfg, db) && nodeId in db.nodes && source < |db.revisions| && ScanBundle(db.revisions[source]).Obj?
    requires origin == RollbackOrigin(db, nodeId, source)
    ensures origin.how == RolledBack(source)
    ensures
      var number, target := MaxNumber(db.revisions, nodeId) + 1, db.nodes[nodeId].activeRevision;
      number <= MAX_INT32 && 0 <= target && P.CheckPayload(origin.payload).Ok? ==>
        IssuanceFacts(cfg)(
          NewRow(cfg.crypto, id, nodeId, number, target, origin.payload), origin,
          Some((Seal(db.revisions[source]), db.origins[source].payload)))
  {
    RollbackPayloadFor(cfg, db, nodeId, source);
    RollbackFacts(cfg, db, nodeId, source, id, origin.payload);
  }

  lemma CreatedRollback(
    c: Crypto, db: Db, nodeId: string, revisionId: string, id: string, source: nat, origin: Origin)
    requires CheckCreation(db, nodeId).None? && FindRow(db.revisions, nodeId, revisionId) == Some(source)
    requires db.revisions[source].status.RowApplied? && ScanBundle(db.revisions[source]).Obj?
    requires origin == RollbackOrigin(db, nodeId, source)
    ensures CreateRollback(c, db, nodeId, revisionId, id) ==
      InsertRevision(
        c, db, id, nodeId, MaxNumber(db.revisions, nodeId) + 1, db.nodes[nodeId].activeRevision, origin)
  {
  }

  predicate Rollbackable(db: Db, nodeId: string, revisionId: string) {
    && CheckCreation(db, nodeId).None? && FindRow(db.revisions, nodeId, revisionId).Some?
    && db.revisions[FindRow(db.revisions, nodeId, revisionId).value].status.RowApplied?
    && ScanBundle(db.revisions[FindRow(db.revisions, nodeId, revisionId).value]).Obj?
  }

  lemma NoRollback(c: Crypto, db: Db, nodeId: string, revisionId: string, id: string)
    requires !Rollbackable(db, nodeId, revisionId)
    ensures CreateRollback(c, db, nodeId, revisionId, id).0 == db
  {
  }

  lemma RollbackMade(
    facts: Facts, c: Crypto, db: Db, nodeId: string, revisionId: string, id: string, source: nat, origin: Origin)
    requires TableOk(facts, db) && Rollbackable(db, nodeId, revisionId)
    requires FindRow(db.revisions, nodeId, revisionId) == Some(source)
    requires origin == RollbackOrigin(db, nodeId, source)
    requires
      var number, target := MaxNumber(db.revisions, nodeId) + 1, db.nodes[nodeId].activeRevision;
      number <= MAX_INT32 && 0 <= target && P.CheckPayload(origin.payload).Ok? ==>
        facts(
          NewRow(c, id, nodeId, number, target, origin.payload), origin,
          Some((Seal(db.revisions[source]), db.origins[source].payload)))
    ensures
      var now := CreateRollback(c, db, nodeId, revisionId, id).0;
      TableOk(facts, now) && RowsKept(db, now)
  {
    CreatedRollback(c, db, nodeId, revisionId, id, source, origin);
    InsertRollbackKeepsTable(
      facts, c, db, id, nodeId, MaxNumber(db.revisions, nodeId) + 1, db.nodes[nodeId].activeRevision, source,
      origin.payload);
  }

  lemma RollbackKeepsTable(cfg: PanelConfig, db: Db, nodeId: string, revisionId: string, id: string)
    requires PanelOk(cfg, db)
    ensures
      var now := CreateRollback(cfg.crypto, db, nodeId, revisionId, id).0;
      PanelOk(cfg, now) && RowsKept(db, now)
  {
    if Rollbackable(db, nodeId, revisionId) {
      var source := FindRow(db.revisions, nodeId, revisionId).value;
      var origin := RollbackOrigin(db, nodeId, source);
      OriginFacts(cfg, db, nodeId, source, id, origin);
      RollbackMade(IssuanceFacts(cfg), cfg.crypto, db, nodeId, revisionId, id, source, origin);
    } else {
      NoRollback(cfg.crypto, db, nodeId, revisionId, id);
      SameRevisionsKeepTable(IssuanceFacts(cfg), db, db);
    }
  }

  lemma ReportKeepsTable(
    cfg: PanelConfig, db: Db, nodeId: string, token: string, revisionId: string, reported: ReportStatus, message: string)
    requires PanelOk(cfg, db)
    ensures
      var now := Report(cfg.crypto, db, nodeId, token, revisionId, reported, message).0;
      PanelOk(cfg, now) && RowsKept(db, now)
  {
    var now := Report(cfg.crypto, db, nodeId, token, revisionId, reported, message).0;
    var found := FindRow(db.revisions, nodeId, revisionId);
    if found.Some? && Authorised(cfg.crypto, db, nodeId, token) && db.revisions[found.value].status.RowPending?
       && !reported.ReportOther? {
      RowNumberFits(cfg, db, found.value);
      VerdictKeepsTable(IssuanceFacts(cfg), db, now, found.value, now.revisions[found.value]);
    } else {
      SameRevisionsKeepTable(IssuanceFacts(cfg), db, db);
    }
  }

  lemma SameRevisionsKeepTable(facts: Facts, db: Db, now: Db)
    requires TableOk(facts, db) && now.revisions == db.revisions && now.origins == db.origins
    requires db.nodes.Keys <= now.nodes.Keys
    requires forall n :: n in now.nodes ==> FitsInt32(now.nodes[n].activeRevision)
    ensures TableOk(facts, now) && RowsKept(db, now)
  {
    forall i | 0 <= i < |now.revisions| ensures RowOk(facts, now, i) {
      assert RowOk(facts, db, i);
      assert SourceAt(now, i) == SourceAt(db, i);
    }
  }

  predicate ChangesNodes(op: PanelOp) {
    op.OpBootstrap? || op.OpRegister? || op.OpHeartbeat? || op.OpLifecycle?
  }

  lemma NodeStepKeepsRevisions(cfg: PanelConfig, db: Db, op: PanelOp)
    requires ChangesNodes(op)
    ensures Step(cfg, db, op).revisions == db.revisions && Step(cfg, db, op).origins == db.origins
    ensures db.nodes.Keys <= Step(cfg, db, op).nodes.Keys
    ensures (forall n :: n in db.nodes ==> FitsInt32(db.nodes[n].activeRevision)) ==>
      forall n :: n in Step(cfg, db, op).nodes ==> FitsInt32(Step(cfg, db, op).nodes[n].activeRevision)
  {
    match op
    case OpBootstrap(_, _, _, _, _, _) =>
    case OpRegister(_, _, _, _, _) =>
    case OpHeartbeat(_, _, _, _) =>
    case OpLifecycle(_, _) =>
  }

  /** Every transaction keeps the table invariant and, of each row, everything
      but one verdict. */
  lemma StepKeepsTable(cfg: PanelConfig, db: Db, op: PanelOp)
    requires SanePanel(cfg) && PanelOk(cfg, db)
    ensures PanelOk(cfg, Step(cfg, db, op)) && RowsKept(db, Step(cfg, db, op))
  {
    if op.OpDeploy? {
      DeployKeepsTable(cfg, db, op.nodeId, op.id, op.inputs);
    } else if op.OpRollback? {
      RollbackKeepsTable(cfg, db, op.nodeId, op.revisionId, op.id);
    } else if op.OpReport? {
      ReportKeepsTable(cfg, db, op.nodeId, op.token, op.revisionId, op.reported, op.errorMessage);
    } else {
      NodeStepKeepsRevisions(cfg, db, op);
      SameRevisionsKeepTable(IssuanceFacts(cfg), db, Step(cfg, db, op));
    }
  }

  lemma {:induction false} RunKeepsTable(cfg: PanelConfig, db: Db, ops: seq<PanelOp>)
    requires SanePanel(cfg) && PanelOk(cfg, db)
    ensures PanelOk(cfg, Run(cfg, db, ops)) && RowsKept(db, Run(cfg, db, ops))
  {
    if ops != [] {
      var before := Run(cfg, db, ops[..|ops| - 1]);
      RunKeepsTable(cfg, db, ops[..|ops| - 1]);
      StepKeepsTable(cfg, before, ops[|ops| - 1]);
      RowsKeptIsTransitive(db, before, Run(cfg, db, ops));
    }
  }

  lemma EmptyIsOk(cfg: PanelConfig)
    ensures PanelOk(cfg, EmptyDb)
  {
  }
}
