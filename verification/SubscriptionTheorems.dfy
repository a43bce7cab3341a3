/** What every sequence of token, invite and subscription operations keeps, and
    how an access export compares with the deployed config. */
module SubscriptionTheorems {
  import opened Text
  import opened ConfigBundle
  import opened Json
  import opened XrayChecks
  import opened DecodingTheorems
  import opened ValidatorTheorems
  import opened RenderTheorems
  import opened Panel
  import opened PanelTheorems
  import opened PanelResults
  import opened Subscriptions
  import R = Render

  datatype StoreOp =
    | OpUser(id: string, user: User)
    | OpPlan(id: string, name: string)
    | OpCreate(id: string, subscription: Subscription)
    | OpUpdate(id: string, status: Option<string>, limit: Option<Option<int>>, deviceLimit: Option<int>, region: Option<string>)
    | OpRenew(id: string, days: nat, now: Time)
    | OpIssue(id: string, token: string, now: Time)
    | OpRevokeToken(id: string)
    | OpInvite(id: string, token: string, now: Time)
    | OpRevokeInvite(id: string)
    | OpClaim(nodes: Nodes, token: string, accessToken: string, now: Time)

  function Step(c: Crypto, st: Store, op: StoreOp): Store {
    match op
    case OpUser(id, user) => PutUser(st, id, user)
    case OpPlan(id, name) => PutPlan(st, id, name)
    case OpCreate(id, s) => CreateSubscription(st, id, s).0
    case OpUpdate(id, status, limit, deviceLimit, region) => UpdateSubscription(st, id, status, limit, deviceLimit, region).0
    case OpRenew(id, days, now) => Renew(st, id, days, now).0
    case OpIssue(id, token, now) => IssueToken(c, st, id, token, now).0
    case OpRevokeToken(id) => RevokeToken(st, id).0
    case OpInvite(id, token, now) => CreateInvite(c, st, id, token, now).0
    case OpRevokeInvite(id) => RevokeInvite(st, id).0
    case OpClaim(nodes, token, accessToken, now) => ClaimInvite(c, st, nodes, token, accessToken, now).0
  }

  function Run(c: Crypto, st: Store, ops: seq<StoreOp>): Store {
    if ops == [] then st else Step(c, Run(c, st, ops[..|ops| - 1]), ops[|ops| - 1])
  }

  // ---- the invariant of a grant table ----

  type Expiries = map<string, Time>

  function ExpiriesOf(st: Store): Expiries {
    map id | id in st.subscriptions :: st.subscriptions[id].expiresAt
  }

  /** Unique hashes, one active grant per subscription, and no grant outlives its subscription. */
  predicate GrantsOk(grants: seq<Grant>, expiries: Expiries) {
    && (forall i, j :: 0 <= i < j < |grants| ==> grants[i].hash != grants[j].hash)
    && (forall i, j :: 0 <= i < j < |grants| && grants[i].status.GrantActive? && grants[j].status.GrantActive? ==>
          grants[i].subscriptionId != grants[j].subscriptionId)
    && (forall i :: 0 <= i < |grants| ==>
          grants[i].subscriptionId in expiries && grants[i].expiresAt <= expiries[grants[i].subscriptionId])
  }

  predicate StoreOk(st: Store) {
    GrantsOk(st.tokens, ExpiriesOf(st)) && GrantsOk(st.invites, ExpiriesOf(st))
  }

  /** Subscriptions stay, and expire no earlier than before. */
  predicate Later(before: Expiries, now: Expiries) {
    forall id :: id in before ==> id in now && before[id] <= now[id]
  }

  /** The grant as it was, or ended: revoked or claimed, once and for all. */
  predicate GrantKept(g: Grant, now: Grant) {
    now == g || (g.status.GrantActive? && !now.status.GrantActive? && now == g.(status := now.status))
  }

  predicate GrantsKept(grants: seq<Grant>, now: seq<Grant>) {
    && |grants| <= |now|
    && forall i :: 0 <= i < |grants| ==> GrantKept(grants[i], now[i])
  }

  lemma GrantsKeptIsTransitive(a: seq<Grant>, b: seq<Grant>, c: seq<Grant>)
    requires GrantsKept(a, b) && GrantsKept(b, c)
    ensures GrantsKept(a, c)
  {
    forall i | 0 <= i < |a| ensures GrantKept(a[i], c[i]) { assert GrantKept(b[i], c[i]); }
  }

  lemma RevokeKeeps(grants: seq<Grant>, id: string, expiries: Expiries)
    requires GrantsOk(grants, expiries)
    ensures GrantsOk(RevokeAll(grants, id), expiries) && GrantsKept(grants, RevokeAll(grants, id))
    ensures forall i :: 0 <= i < |grants| ==> !ActiveFor(RevokeAll(grants, id)[i], id)
  {
  }

  lemma ReplaceKeeps(grants: seq<Grant>, id: string, hash: string, expiresAt: Time, now: Time, expiries: Expiries)
    requires GrantsOk(grants, expiries) && Replace(grants, id, hash, expiresAt, now).Answered?
    requires id in expiries && expiresAt <= expiries[id]
    ensures
      var replaced := Replace(grants, id, hash, expiresAt, now).value;
      GrantsOk(replaced, expiries) && GrantsKept(grants, replaced)
  {
    RevokeKeeps(grants, id, expiries);
    var revoked := RevokeAll(grants, id);
    var replaced := revoked + [Grant(id, hash, GrantActive, expiresAt, now)];
    forall i | 0 <= i < |grants| ensures replaced[i].hash != hash && GrantKept(grants[i], replaced[i]) {
      assert grants[i].hash != hash;
      assert GrantKept(grants[i], revoked[i]);
    }
  }

  lemma LaterKeeps(grants: seq<Grant>, before: Expiries, now: Expiries)
    requires GrantsOk(grants, before) && Later(before, now)
    ensures GrantsOk(grants, now)
  {
  }

  lemma ClaimKeeps(grants: seq<Grant>, i: nat, expiries: Expiries)
    requires GrantsOk(grants, expiries) && i < |grants| && grants[i].status.GrantActive?
    ensures
      var now := grants[i := grants[i].(status := GrantClaimed)];
      GrantsOk(now, expiries) && GrantsKept(grants, now)
  {
  }

  /** What a step keeps of grants and expiries. */
  predicate StepOk(st: Store, now: Store) {
    && StoreOk(now) && Later(ExpiriesOf(st), ExpiriesOf(now))
    && GrantsKept(st.tokens, now.tokens) && GrantsKept(st.invites, now.invites)
  }

  lemma SubscriptionsStepOk(st: Store, now: Store)
    requires StoreOk(st) && now == st.(subscriptions := now.subscriptions)
    requires Later(ExpiriesOf(st), ExpiriesOf(now))
    ensures StepOk(st, now)
  {
    LaterKeeps(st.tokens, ExpiriesOf(st), ExpiriesOf(now));
    LaterKeeps(st.invites, ExpiriesOf(st), ExpiriesOf(now));
  }

  lemma GrantsStepOk(st: Store, now: Store)
    requires StoreOk(st) && now == st.(tokens := now.tokens, invites := now.invites)
    requires GrantsOk(now.tokens, ExpiriesOf(st)) && GrantsKept(st.tokens, now.tokens)
    requires GrantsOk(now.invites, ExpiriesOf(st)) && GrantsKept(st.invites, now.invites)
    ensures StepOk(st, now)
  {
    assert ExpiriesOf(now) == ExpiriesOf(st);
  }

  lemma SameGrantsStepOk(st: Store, now: Store)
    requires StoreOk(st) && now == st.(users := now.users, plans := now.plans)
    ensures StepOk(st, now)
  {
    assert ExpiriesOf(now) == ExpiriesOf(st);
  }

  lemma IssueStepOk(c: Crypto, st: Store, id: string, token: string, at: Time)
    requires StoreOk(st)
    ensures StepOk(st, IssueToken(c, st, id, token, at).0)
  {
    var (now, answer) := IssueToken(c, st, id, token, at);
    if answer.Answered? {
      ReplaceKeeps(st.tokens, id, c.hash(token), st.subscriptions[id].expiresAt, at, ExpiriesOf(st));
    }
    GrantsStepOk(st, now);
  }

  lemma InviteStepOk(c: Crypto, st: Store, id: string, token: string, at: Time)
    requires StoreOk(st)
    ensures StepOk(st, CreateInvite(c, st, id, token, at).0)
  {
    var (now, answer) := CreateInvite(c, st, id, token, at);
    if answer.Answered? {
      ReplaceKeeps(st.invites, id, c.hash(token), InviteExpiry(st.subscriptions[id], at), at, ExpiriesOf(st));
    }
    GrantsStepOk(st, now);
  }

  lemma ClaimStepOk(c: Crypto, st: Store, nodes: Nodes, token: string, accessToken: string, at: Time)
    requires StoreOk(st)
    ensures StepOk(st, ClaimInvite(c, st, nodes, token, accessToken, at).0)
  {
    var (now, answer) := ClaimInvite(c, st, nodes, token, accessToken, at);
    if answer.Answered? {
      ClaimedStore(c, st, nodes, token, accessToken, at);
      var i := FindGrant(st.invites, c.hash(TrimSpace(token)), at).value;
      ClaimedStepOk(st, now, i, answer.value.subscriptionId, c.hash(accessToken), at);
    } else {
      DeniedClaim(c, st, nodes, token, accessToken, at);
      SameGrantsStepOk(st, st);
    }
  }

  /** What a claim that succeeds has done. */
  predicate Claimed(st: Store, now: Store, i: nat, id: string, hash: string, at: Time) {
    && i < |st.invites| && st.invites[i].status.GrantActive? && id in st.subscriptions
    && Replace(st.tokens, id, hash, st.subscriptions[id].expiresAt, at) == Answered(now.tokens)
    && now == st.(tokens := now.tokens, invites := st.invites[i := st.invites[i].(status := GrantClaimed)])
  }

  lemma ClaimedStore(c: Crypto, st: Store, nodes: Nodes, token: string, accessToken: string, at: Time)
    requires ClaimInvite(c, st, nodes, token, accessToken, at).1.Answered?
    ensures FindGrant(st.invites, c.hash(TrimSpace(token)), at).Some?
    ensures
      var (now, answer) := ClaimInvite(c, st, nodes, token, accessToken, at);
      var i := FindGrant(st.invites, c.hash(TrimSpace(token)), at).value;
      Claimed(st, now, i, answer.value.subscriptionId, c.hash(accessToken), at)
  {
  }

  lemma DeniedClaim(c: Crypto, st: Store, nodes: Nodes, token: string, accessToken: string, at: Time)
    requires ClaimInvite(c, st, nodes, token, accessToken, at).1.Denied?
    ensures ClaimInvite(c, st, nodes, token, accessToken, at).0 == st
  {
  }

  lemma ClaimedStepOk(st: Store, now: Store, i: nat, id: string, hash: string, at: Time)
    requires StoreOk(st) && Claimed(st, now, i, id, hash, at)
    ensures StepOk(st, now)
  {
    ReplaceKeeps(st.tokens, id, hash, st.subscriptions[id].expiresAt, at, ExpiriesOf(st));
    ClaimKeeps(st.invites, i, ExpiriesOf(st));
    GrantsStepOk(st, now);
  }

  lemma RevokeStepOk(st: Store, id: string)
    requires StoreOk(st)
    ensures StepOk(st, RevokeToken(st, id).0) && StepOk(st, RevokeInvite(st, id).0)
  {
    RevokeKeeps(st.tokens, id, ExpiriesOf(st));
    RevokeKeeps(st.invites, id, ExpiriesOf(st));
    GrantsStepOk(st, RevokeToken(st, id).0);
    GrantsStepOk(st, RevokeInvite(st, id).0);
  }

  lemma StepKeepsStore(c: Crypto, st: Store, op: StoreOp)
    requires StoreOk(st)
    ensures StepOk(st, Step(c, st, op))
  {
    match op
    case OpUser(_, _) => SameGrantsStepOk(st, Step(c, st, op));
    case OpPlan(_, _) => SameGrantsStepOk(st, Step(c, st, op));
    case OpCreate(_, _) => SubscriptionsStepOk(st, Step(c, st, op));
    case OpUpdate(_, _, _, _, _) => SubscriptionsStepOk(st, Step(c, st, op));
    case OpRenew(_, _, _) => SubscriptionsStepOk(st, Step(c, st, op));
    case OpIssue(id, token, now) => IssueStepOk(c, st, id, token, now);
    case OpRevokeToken(id) => RevokeStepOk(st, id);
    case OpInvite(id, token, now) => InviteStepOk(c, st, id, token, now);
    case OpRevokeInvite(id) => RevokeStepOk(st, id);
    case OpClaim(nodes, token, accessToken, now) => ClaimStepOk(c, st, nodes, token, accessToken, now);
  }

  /** Over every run: at most one active token and one active invite per subscription,
      none outliving it; expiries never decrease; a grant ends at most once. */
  lemma {:induction false} RunKeepsStore(c: Crypto, st: Store, ops: seq<StoreOp>)
    requires StoreOk(st)
    ensures StepOk(st, Run(c, st, ops))
  {
    if ops == [] {
      GrantsStepOk(st, st);
    } else {
      var before := Run(c, st, ops[..|ops| - 1]);
      RunKeepsStore(c, st, ops[..|ops| - 1]);
      StepKeepsStore(c, before, ops[|ops| - 1]);
      GrantsKeptIsTransitive(st.tokens, before.tokens, Run(c, st, ops).tokens);
      GrantsKeptIsTransitive(st.invites, before.invites, Run(c, st, ops).invites);
    }
  }

  // ---- one cell per subscription ----

  /** The subscription's active grant. */
  function Cell(grants: seq<Grant>, id: string): Option<Grant> {
    if grants == [] then None
    else if ActiveFor(grants[|grants| - 1], id) then Some(grants[|grants| - 1])
    else Cell(grants[..|grants| - 1], id)
  }

  lemma {:induction false} CellIsActive(grants: seq<Grant>, id: string)
    ensures Cell(grants, id).Some? ==> Cell(grants, id).value in grants && ActiveFor(Cell(grants, id).value, id)
    ensures Cell(grants, id).None? <==> forall i :: 0 <= i < |grants| ==> !ActiveFor(grants[i], id)
  {
    if grants != [] { CellIsActive(grants[..|grants| - 1], id); }
  }

  /** With one active grant per subscription the cell is any active grant of it. */
  lemma CellIsTheActive(grants: seq<Grant>, expiries: Expiries, i: nat)
    requires GrantsOk(grants, expiries) && i < |grants| && grants[i].status.GrantActive?
    ensures Cell(grants, grants[i].subscriptionId) == Some(grants[i])
  {
    var id := grants[i].subscriptionId;
    CellIsActive(grants, id);
    var j :| 0 <= j < |grants| && grants[j] == Cell(grants, id).value;
    assert i == j;
  }

  /** A token leads to a subscription exactly when it is the current, unexpired one. */
  lemma TokenFindsIff(c: Crypto, st: Store, token: string, now: Time, id: string)
    requires StoreOk(st)
    ensures SubscriptionByToken(c, st, token, now) == Answered(id) <==>
      && TrimSpace(token) != "" && Cell(st.tokens, id).Some?
      && Cell(st.tokens, id).value.hash == c.hash(TrimSpace(token)) && Cell(st.tokens, id).value.expiresAt > now
  {
    var hash := c.hash(TrimSpace(token));
    var found := FindGrant(st.tokens, hash, now);
    CellIsActive(st.tokens, id);
    if found.Some? { CellIsTheActive(st.tokens, ExpiriesOf(st), found.value); }
    if Cell(st.tokens, id).Some? {
      var j :| 0 <= j < |st.tokens| && st.tokens[j] == Cell(st.tokens, id).value;
      if Usable(st.tokens[j], hash, now) { assert found.Some?; assert found.value == j; }
    }
  }

  lemma {:induction false} CellAfterRevoke(grants: seq<Grant>, id: string, other: string)
    ensures Cell(RevokeAll(grants, id), other) == if other == id then None else Cell(grants, other)
  {
    if grants != [] {
      var k := |grants| - 1;
      assert RevokeAll(grants, id)[..k] == RevokeAll(grants[..k], id);
      CellAfterRevoke(grants[..k], id, other);
    }
  }

  lemma CellAfterReplace(grants: seq<Grant>, id: string, hash: string, expiresAt: Time, now: Time, other: string)
    requires Replace(grants, id, hash, expiresAt, now).Answered?
    ensures Cell(Replace(grants, id, hash, expiresAt, now).value, other) ==
      if other == id then Some(Grant(id, hash, GrantActive, expiresAt, now)) else Cell(grants, other)
  {
    CellAfterRevoke(grants, id, other);
    var revoked, g := RevokeAll(grants, id), Grant(id, hash, GrantActive, expiresAt, now);
    assert (revoked + [g])[..|revoked|] == revoked;
  }

  /** Issuing, rotating and claiming set one cell, revoking empties one; every
      other subscription's cell stays. */
  lemma TokensAreCells(c: Crypto, st: Store, op: StoreOp, other: string)
    requires op.OpIssue? || op.OpRevokeToken? || op.OpClaim?
    ensures
      var now := Cell(Step(c, st, op).tokens, other);
      match op
      case OpIssue(id, token, at) =>
        if other == id && IssueToken(c, st, id, token, at).1.Answered? then
          now == Some(Grant(id, c.hash(token), GrantActive, st.subscriptions[id].expiresAt, at))
        else now == Cell(st.tokens, other)
      case OpRevokeToken(id) =>
        now == if other == id && id in st.subscriptions then None else Cell(st.tokens, other)
      case OpClaim(nodes, token, accessToken, at) =>
        (var answer := ClaimInvite(c, st, nodes, token, accessToken, at).1;
         if answer.Answered? && answer.value.subscriptionId == other then
           other in st.subscriptions &&
           now == Some(Grant(other, c.hash(accessToken), GrantActive, st.subscriptions[other].expiresAt, at))
         else now == Cell(st.tokens, other))
      case _ => true
  {
    match op
    case OpIssue(id, token, at) =>
      if IssueToken(c, st, id, token, at).1.Answered? {
        CellAfterReplace(st.tokens, id, c.hash(token), st.subscriptions[id].expiresAt, at, other);
      }
    case OpRevokeToken(id) => CellAfterRevoke(st.tokens, id, other);
    case OpClaim(nodes, token, accessToken, at) =>
      var answer := ClaimInvite(c, st, nodes, token, accessToken, at).1;
      if answer.Answered? {
        var id := answer.value.subscriptionId;
        CellAfterReplace(st.tokens, id, c.hash(accessToken), st.subscriptions[id].expiresAt, at, other);
      }
    case _ =>
  }

  // ---- invites are claimed once ----

  lemma EndedIsNeverFound(grants: seq<Grant>, now: seq<Grant>, expiries: Expiries, i: nat, hash: string, at: Time)
    requires GrantsKept(grants, now) && GrantsOk(now, expiries)
    requires i < |grants| && grants[i].hash == hash && !grants[i].status.GrantActive?
    ensures FindGrant(now, hash, at).None?
  {
    assert GrantKept(grants[i], now[i]);
  }

  /** After an invite was claimed its token is refused for good. */
  lemma InviteIsClaimedOnce(
    c: Crypto, st: Store, nodes: Nodes, token: string, accessToken: string, at: Time,
    ops: seq<StoreOp>, nodes': Nodes, accessToken': string, at': Time)
    requires StoreOk(st) && ClaimInvite(c, st, nodes, token, accessToken, at).1.Answered?
    ensures
      var later := Run(c, ClaimInvite(c, st, nodes, token, accessToken, at).0, ops);
      ClaimInvite(c, later, nodes', token, accessToken', at').1 == Denied(InvalidToken)
  {
    var claimed := ClaimInvite(c, st, nodes, token, accessToken, at).0;
    var hash := c.hash(TrimSpace(token));
    var i := FindGrant(st.invites, hash, at).value;
    ClaimStepOk(c, st, nodes, token, accessToken, at);
    RunKeepsStore(c, claimed, ops);
    var later := Run(c, claimed, ops);
    EndedIsNeverFound(claimed.invites, later.invites, ExpiriesOf(later), i, hash, at');
  }

  // ---- an export and the config of its node ----

  lemma {:induction false} InputsMembers(st: Store, ids: seq<string>, region: string, now: Time, id: string)
    requires id in ids && ServedIn(st, id, region, now)
    ensures ConfigInput(st, id) in InputsOf(st, ids, region, now)
  {
    var k := |ids| - 1;
    if ids[k] != id {
      assert ids == ids[..k] + [ids[k]];
      InputsMembers(st, ids[..k], region, now, id);
    }
  }

  lemma SortedKeeps(inputs: seq<R.SubscriptionInput>, x: R.SubscriptionInput)
    requires x in inputs
    ensures x in R.SortInputs(inputs)
  {
    assert x in multiset(R.SortInputs(inputs));
  }

  /** The config has a client and an inbound that a device with this export can use. */
  predicate ServesExport(config: Fields, e: AccessExport) {
    && GetArr(config, Inbounds).Some? && |GetArr(config, Inbounds).value| == 1
    && GetArr(config, Inbounds).value[0].Obj?
    && InboundServes(GetArr(config, Inbounds).value[0].fields, e)
  }

  predicate InboundServes(inbound: Fields, e: AccessExport) {
    && NumberAsInt(Get(inbound, Port)) == Some(e.port)
    && GetObj(inbound, Settings).Some? && GetObj(inbound, StreamSettings).Some?
    && ClientsServe(GetObj(inbound, Settings).value, e) && StreamServes(GetObj(inbound, StreamSettings).value, e)
  }

  predicate ClientsServe(settings: Fields, e: AccessExport) {
    && GetArr(settings, Clients).Some?
    && exists i :: 0 <= i < |GetArr(settings, Clients).value| && ClientServes(GetArr(settings, Clients).value[i], e)
  }

  predicate ClientServes(client: Json, e: AccessExport) {
    && client.Obj? && GetStr(client.fields, Id) == Some(e.clientId) && GetStr(client.fields, Email) == Some(e.email)
    && GetStr(client.fields, Flow) == Some(e.flow) && NumberAsInt(Get(client.fields, Level)) == Some(e.level)
  }

  predicate StreamServes(stream: Fields, e: AccessExport) {
    && GetStr(stream, Network) == Some(e.network) && GetStr(stream, Security) == Some(e.security)
    && GetObj(stream, RealitySettings).Some?
    && StringArray(Get(GetObj(stream, RealitySettings).value, ServerNames)) == Some([e.sni])
    && StringArray(Get(GetObj(stream, RealitySettings).value, ShortIds)) == Some([e.shortId])
  }

  lemma ClientIsRendered(inputs: seq<R.SubscriptionInput>, x: R.SubscriptionInput, e: AccessExport)
    requires x in inputs && e.level == 0
    requires e.clientId == x.subscriptionId && e.email == "subscription:" + x.subscriptionId && e.flow == R.VLESS_FLOW
    ensures exists i :: 0 <= i < |R.ClientsOf(R.Entries(inputs))| && ClientServes(R.ClientsOf(R.Entries(inputs))[i], e)
  {
    R.ClientsAreAligned(inputs);
    var i :| 0 <= i < |inputs| && inputs[i] == x;
    assert ClientServes(R.ClientsOf(R.Entries(inputs))[i], e);
  }

  lemma InboundIsRendered(reality: R.RealityConfig, clients: seq<Json>, sniffing: bool, e: AccessExport)
    requires e.port == reality.vlessPort && e.network == "tcp" && e.security == "reality"
    requires e.sni == reality.sni && e.shortId == reality.shortId
    requires exists i :: 0 <= i < |clients| && ClientServes(clients[i], e)
    ensures InboundServes(R.InboundFields(reality, clients, sniffing), e)
  {
    StreamIsRendered(reality, e);
  }

  lemma StreamIsRendered(reality: R.RealityConfig, e: AccessExport)
    requires e.network == "tcp" && e.security == "reality" && e.sni == reality.sni && e.shortId == reality.shortId
    ensures StreamServes(map[
      Network := Str("tcp"), Security := Str("reality"), RealitySettings := Obj(R.RealityFields(reality))], e)
  {
    var settings := R.RealityFields(reality);
    assert Get(settings, ServerNames) == Some(Arr([Str(e.sni)])) && Get(settings, ShortIds) == Some(Arr([Str(e.shortId)]));
    OneText(e.sni);
    OneText(e.shortId);
  }

  lemma OneText(s: string)
    ensures StringArray(Some(Arr([Str(s)]))) == Some([s])
  {
    var items := [Str(s)];
    assert AllStrings(items) && StringArray(Some(Arr(items))).value == [s];
  }

  lemma ConfigHasInbound(input: R.RenderInput, reality: R.RealityConfig)
    ensures GetArr(R.RenderedConfig(input, reality), Inbounds) == Some([Obj(R.InboundFields(
      reality.WithDefaults(), R.ClientsOf(R.Entries(R.SortInputs(input.subscriptions))), R.SniffingOf(input.settings)))])
  {
  }

  // ---- through storage and the wire ----

  lemma ClientStillServes(client: Json, e: AccessExport)
    requires Tame(client) && ClientServes(client, e)
    ensures ClientServes(RoundTrip(client), e)
  {
    RoundTripKeepsShape(client);
    DecodedText(client.fields, Id);
    DecodedText(client.fields, Email);
    DecodedText(client.fields, Flow);
    DecodedNumber(client.fields, Level);
  }

  lemma ClientsStillServe(settings: Fields, e: AccessExport)
    requires TameFields(settings) && ClientsServe(settings, e)
    ensures ClientsServe(Decoded(settings), e)
  {
    var clients := GetArr(settings, Clients).value;
    var i :| 0 <= i < |clients| && ClientServes(clients[i], e);
    TameMember(settings, Clients);
    DecodedTree(settings, Clients);
    ClientStillServes(clients[i], e);
    assert DecodedItems(clients)[i] == RoundTrip(clients[i]);
  }

  lemma StreamStillServes(stream: Fields, e: AccessExport)
    requires StreamServes(stream, e)
    ensures StreamServes(Decoded(stream), e)
  {
    DecodedText(stream, Network);
    DecodedText(stream, Security);
    DecodedTree(stream, RealitySettings);
    DecodedTexts(GetObj(stream, RealitySettings).value, ServerNames);
    DecodedTexts(GetObj(stream, RealitySettings).value, ShortIds);
  }

  lemma InboundStillServes(inbound: Fields, e: AccessExport)
    requires TameFields(inbound) && InboundServes(inbound, e)
    ensures InboundServes(Decoded(inbound), e)
  {
    DecodedNumber(inbound, Port);
    DecodedTree(inbound, Settings);
    DecodedTree(inbound, StreamSettings);
    TameMember(inbound, Settings);
    ClientsStillServe(GetObj(inbound, Settings).value, e);
    StreamStillServes(GetObj(inbound, StreamSettings).value, e);
  }

  lemma ConfigStillServes(config: Fields, e: AccessExport)
    requires TameFields(config) && ServesExport(config, e)
    ensures ServesExport(Decoded(config), e)
  {
    var inbound := GetArr(config, Inbounds).value[0];
    DecodedTree(config, Inbounds);
    TameMember(config, Inbounds);
    RoundTripKeepsShape(inbound);
    InboundStillServes(inbound.fields, e);
    assert DecodedItems(GetArr(config, Inbounds).value)[0] == RoundTrip(inbound);
  }

  /** The config that the row's agent gets when it fetches the row serves the export. */
  predicate RowServes(row: RevisionRow, e: AccessExport) {
    && Fetched(row).bundle.Obj? && GetObj(Fetched(row).bundle.fields, Config).Some?
    && ServesExport(GetObj(Fetched(row).bundle.fields, Config).value, e)
  }

  lemma StoredConfigServes(row: RevisionRow, payload: Fields, config: Fields, e: AccessExport)
    requires row.bundle == Marshal(Obj(payload)) && GetObj(payload, Config) == Some(config)
    requires TameFields(config) && ServesExport(config, e)
    ensures RowServes(row, e)
  {
    ScanOfMarshal(row, payload);
    DecodedIsStable(payload);
    RoundTripKeepsShape(Obj(Decoded(payload)));
    DecodedTree(payload, Config);
    ConfigStillServes(config, e);
  }

  lemma PayloadHasConfig(input: R.RenderInput, reality: R.RealityConfig)
    ensures GetObj(R.RenderPayload(input, reality), Config) == Some(R.RenderedConfig(input, reality))
  {
    RenderedShape(
      input, R.RenderedConfig(input, reality), R.Summaries(R.SortInputs(input.subscriptions)),
      R.Entries(R.SortInputs(input.subscriptions)), R.DeployText(input));
  }

  /** The rendered config of the exported node serves the export. */
  lemma RenderedServes(st: Store, nodes: Nodes, id: string, ids: seq<string>, now: Time)
    requires id in ids && Access(st, nodes, id, now).Answered?
    ensures
      var e := Access(st, nodes, id, now).value;
      var input := DeployInput(nodes.db, e.nodeId, InputsOf(st, ids, nodes.db.nodes[e.nodeId].region, now));
      ServesExport(R.RenderedConfig(input, nodes.reality), e)
  {
    var e := Access(st, nodes, id, now).value;
    var region := nodes.db.nodes[e.nodeId].region;
    var inputs := InputsOf(st, ids, region, now);
    InputsMembers(st, ids, region, now, id);
    SortedKeeps(inputs, ConfigInput(st, id));
    ClientIsRendered(R.SortInputs(inputs), ConfigInput(st, id), e);
    var input := DeployInput(nodes.db, e.nodeId, inputs);
    var clients := R.ClientsOf(R.Entries(R.SortInputs(inputs)));
    InboundIsRendered(nodes.reality.WithDefaults(), clients, R.SniffingOf(input.settings), e);
    ConfigHasInbound(input, nodes.reality);
  }

  lemma MadeRowServes(
    c: Crypto, nodes: Nodes, node: string, revisionId: string, inputs: seq<R.SubscriptionInput>, e: AccessExport)
    requires nodes.reality.vlessPort < TWO53 && CheckCreation(nodes.db, node).None?
    requires ServesExport(R.RenderedConfig(DeployInput(nodes.db, node, inputs), nodes.reality), e)
    requires CreateDeploy(c, nodes.db, nodes.reality, node, revisionId, inputs).1.Success?
    ensures
      var (after, made) := CreateDeploy(c, nodes.db, nodes.reality, node, revisionId, inputs);
      after.revisions == nodes.db.revisions + [made.value] && RowServes(made.value, e)
  {
    var input := DeployInput(nodes.db, node, inputs);
    var payload := R.RenderPayload(input, nodes.reality);
    var row := NewRow(c, revisionId, node, input.revisionNumber, input.rollbackTarget, payload);
    NewRowBundle(c, revisionId, node, input.revisionNumber, input.rollbackTarget, payload);
    PayloadHasConfig(input, nodes.reality);
    TameRenderedConfig(input, nodes.reality);
    StoredConfigServes(row, payload, R.RenderedConfig(input, nodes.reality), e);
  }

  /** If a subscription is exported for a node, a revision may be created for that node
      from the same tables; it is, unless its input does not render to a valid payload
      or the row cannot be inserted, and what its agent fetches serves the export. */
  lemma ExportAgreesWithConfig(
    c: Crypto, st: Store, nodes: Nodes, id: string, ids: seq<string>, now: Time, revisionId: string)
    requires nodes.reality.vlessPort < TWO53
    requires id in ids && Access(st, nodes, id, now).Answered?
    ensures
      var e := Access(st, nodes, id, now).value;
      var inputs := InputsOf(st, ids, nodes.db.nodes[e.nodeId].region, now);
      var input := DeployInput(nodes.db, e.nodeId, inputs);
      var (after, made) := CreateDeploy(c, nodes.db, nodes.reality, e.nodeId, revisionId, inputs);
      && CheckCreation(nodes.db, e.nodeId).None?
      && (made.Success? <==> Renderable(input, nodes.reality)
                             && Insertable(nodes.db, revisionId, input.revisionNumber, input.rollbackTarget))
      && (made.Success? ==> after.revisions == nodes.db.revisions + [made.value] && RowServes(made.value, e))
  {
    var e := Access(st, nodes, id, now).value;
    var inputs := InputsOf(st, ids, nodes.db.nodes[e.nodeId].region, now);
    RenderedServes(st, nodes, id, ids, now);
    DeploySucceedsIff(c, nodes.db, nodes.reality, e.nodeId, revisionId, inputs);
    if CreateDeploy(c, nodes.db, nodes.reality, e.nodeId, revisionId, inputs).1.Success? {
      MadeRowServes(c, nodes, e.nodeId, revisionId, inputs, e);
    }
  }

  /** With a node query that does its job, an export succeeds exactly for a served
      subscription that some node can take. */
  lemma AccessSucceedsIff(st: Store, nodes: Nodes, id: string, now: Time)
    requires Picks(nodes.query)
    ensures Access(st, nodes, id, now).Answered? <==>
      Served(st, id, now) && exists node :: Offers(nodes.db, node, st.subscriptions[id])
  {
    if Served(st, id, now) {
      var node := nodes.query(nodes.db, st.subscriptions[id]);
      if node.Some? { assert Offers(nodes.db, node.value, st.subscriptions[id]); }
    }
  }
}
