/** Subscriptions, access tokens and handoff invites (storage/subscriptions.go).
    Each repository call is one transaction. */
module Subscriptions {
  import opened Text
  import opened ConfigBundle
  import opened Panel
  import R = Render

  type Time = int
  const DAY: int := 86400
  const INVITE_SPAN: int := 86400

  const ACTIVE := "active"

  datatype Subscription = Subscription(
    userId: string, planId: string, status: string, startsAt: Time, expiresAt: Time,
    limit: Option<int>, deviceLimit: int, preferredRegion: string)

  datatype User = User(status: string)

  datatype GrantStatus = GrantActive | GrantClaimed | GrantRevoked

  /** A row of the token table or of the invite table; tokens are never claimed. */
  datatype Grant = Grant(subscriptionId: string, hash: string, status: GrantStatus, expiresAt: Time, createdAt: Time)

  datatype Store = Store(
    users: map<string, User>, plans: map<string, string>, subscriptions: map<string, Subscription>,
    tokens: seq<Grant>, invites: seq<Grant>)

  datatype AccessError = Missing | Unavailable | InvalidToken | Conflict
  datatype Answer<+T> = Answered(value: T) | Denied(error: AccessError)

  // ---- grants ----

  predicate ActiveFor(g: Grant, id: string) {
    g.subscriptionId == id && g.status.GrantActive?
  }

  function RevokedGrant(g: Grant, id: string): Grant {
    if ActiveFor(g, id) then g.(status := GrantRevoked) else g
  }

  /** UPDATE ... SET status = 'revoked' WHERE subscription_id = id AND status = 'active'. */
  function RevokeAll(grants: seq<Grant>, id: string): seq<Grant> {
    seq(|grants|, i requires 0 <= i < |grants| => RevokedGrant(grants[i], id))
  }

  predicate HashTaken(grants: seq<Grant>, hash: string) {
    exists i :: 0 <= i < |grants| && grants[i].hash == hash
  }

  /** Revoke what is active and insert a new active grant; token_hash is UNIQUE. */
  function Replace(grants: seq<Grant>, id: string, hash: string, expiresAt: Time, now: Time): Answer<seq<Grant>> {
    if HashTaken(grants, hash) || expiresAt <= now then Denied(Conflict)
    else Answered(RevokeAll(grants, id) + [Grant(id, hash, GrantActive, expiresAt, now)])
  }

  predicate Usable(g: Grant, hash: string, now: Time) {
    g.hash == hash && g.status.GrantActive? && g.expiresAt > now
  }

  /** The active unexpired grant with this hash. */
  function FindGrant(grants: seq<Grant>, hash: string, now: Time): (r: Option<nat>)
    ensures r.Some? ==> r.value < |grants| && Usable(grants[r.value], hash, now)
    ensures r.None? ==> forall i :: 0 <= i < |grants| ==> !Usable(grants[i], hash, now)
  {
    if grants == [] then None
    else
      var k := |grants| - 1;
      if Usable(grants[k], hash, now) then Some(k)
      else FindGrant(grants[..k], hash, now)
  }

  function Eligible(st: Store, id: string, now: Time): Option<AccessError> {
    if id !in st.subscriptions then Some(Missing)
    else
      var s := st.subscriptions[id];
      if s.status == ACTIVE && s.userId in st.users && st.users[s.userId].status == ACTIVE && s.expiresAt > now then None
      else Some(Unavailable)
  }

  // ---- token and invite operations ----

  /** CreateAccessToken and RotateAccessToken. */
  function IssueToken(c: Crypto, st: Store, id: string, token: string, now: Time): (Store, Answer<Time>) {
    match Eligible(st, id, now)
    case Some(e) => (st, Denied(e))
    case None =>
      match Replace(st.tokens, id, c.hash(token), st.subscriptions[id].expiresAt, now)
      case Denied(e) => (st, Denied(e))
      case Answered(tokens) => (st.(tokens := tokens), Answered(st.subscriptions[id].expiresAt))
  }

  function RevokeToken(st: Store, id: string): (Store, Answer<()>) {
    if id !in st.subscriptions then (st, Denied(Missing))
    else (st.(tokens := RevokeAll(st.tokens, id)), Answered(()))
  }

  function SubscriptionByToken(c: Crypto, st: Store, token: string, now: Time): Answer<string> {
    if TrimSpace(token) == "" then Denied(InvalidToken)
    else
      match FindGrant(st.tokens, c.hash(TrimSpace(token)), now)
      case None => Denied(InvalidToken)
      case Some(i) => Answered(st.tokens[i].subscriptionId)
  }

  function InviteExpiry(s: Subscription, now: Time): Time {
    if s.expiresAt <= now + INVITE_SPAN then s.expiresAt else now + INVITE_SPAN
  }

  function CreateInvite(c: Crypto, st: Store, id: string, token: string, now: Time): (Store, Answer<Time>) {
    match Eligible(st, id, now)
    case Some(e) => (st, Denied(e))
    case None =>
      var expiresAt := InviteExpiry(st.subscriptions[id], now);
      match Replace(st.invites, id, c.hash(token), expiresAt, now)
      case Denied(e) => (st, Denied(e))
      case Answered(invites) => (st.(invites := invites), Answered(expiresAt))
  }

  function RevokeInvite(st: Store, id: string): (Store, Answer<()>) {
    if id !in st.subscriptions then (st, Denied(Missing))
    else (st.(invites := RevokeAll(st.invites, id)), Answered(()))
  }

  // ---- user, plan and subscription operations ----

  /** Create, SetStatus and Update of users, as far as their status goes. */
  function PutUser(st: Store, id: string, user: User): Store {
    st.(users := st.users[id := user])
  }

  function PutPlan(st: Store, id: string, name: string): Store {
    st.(plans := st.plans[id := name])
  }

  function CreateSubscription(st: Store, id: string, s: Subscription): (Store, Answer<()>) {
    if id in st.subscriptions || s.userId !in st.users || s.planId !in st.plans then (st, Denied(Conflict))
    else (st.(subscriptions := st.subscriptions[id := s]), Answered(()))
  }

  /** The handler lets only positive numbers of days through. */
  function Renew(st: Store, id: string, days: nat, now: Time): (Store, Answer<Time>) {
    if id !in st.subscriptions then (st, Denied(Missing))
    else
      var s := st.subscriptions[id];
      var expiresAt := (if s.expiresAt < now then now else s.expiresAt) + days * DAY;
      (st.(subscriptions := st.subscriptions[id := s.(status := ACTIVE, expiresAt := expiresAt)]), Answered(expiresAt))
  }

  function UpdateSubscription(
    st: Store, id: string, status: Option<string>, limit: Option<Option<int>>, deviceLimit: Option<int>,
    preferredRegion: Option<string>): (Store, Answer<()>)
  {
    if id !in st.subscriptions then (st, Denied(Missing))
    else
      var s := st.subscriptions[id];
      var updated := s.(
        status := if status.Some? then status.value else s.status,
        limit := if limit.Some? then limit.value else s.limit,
        deviceLimit := if deviceLimit.Some? then deviceLimit.value else s.deviceLimit,
        preferredRegion := if preferredRegion.Some? then preferredRegion.value else s.preferredRegion);
      (st.(subscriptions := st.subscriptions[id := updated]), Answered(()))
  }

  // ---- export and config inputs ----

  datatype AccessExport = AccessExport(
    nodeId: string, address: string, port: int, network: string, security: string, sni: string, shortId: string,
    clientId: string, email: string, flow: string, level: int)

  /** How a time stands in a config payload; RFC 3339 text in the program. */
  function TimeText(t: Time): string {
    IntText(t)
  }

  function ConfigInput(st: Store, id: string): R.SubscriptionInput
    requires id in st.subscriptions && st.subscriptions[id].userId in st.users && st.subscriptions[id].planId in st.plans
  {
    var s := st.subscriptions[id];
    R.SubscriptionInput(
      id, s.userId, s.planId, st.users[s.userId].status, s.status, s.preferredRegion, st.plans[s.planId],
      s.deviceLimit, s.limit, TimeText(s.startsAt), TimeText(s.expiresAt))
  }

  /** The join with users and plans, and the conditions on both. */
  predicate Served(st: Store, id: string, now: Time) {
    && id in st.subscriptions && st.subscriptions[id].planId in st.plans
    && Eligible(st, id, now).None?
  }

  predicate ServedIn(st: Store, id: string, region: string, now: Time) {
    Served(st, id, now) && (st.subscriptions[id].preferredRegion == "" || st.subscriptions[id].preferredRegion == region)
  }

  /** The node query of an export: the conditions, without the order of preference. */
  predicate Offers(db: Db, node: string, s: Subscription) {
    && node in db.nodes && db.nodes[node].status.Active? && db.nodes[node].drainState.NotDraining?
    && db.nodes[node].hostname != ""
    && (s.preferredRegion == "" || db.nodes[node].region == s.preferredRegion)
  }

  /** The node query: which node is offered for a subscription, if any. */
  type NodeQuery = (Db, Subscription) -> Option<string>

  /** The query returns a node that meets its conditions, and nothing only if none does. */
  ghost predicate Picks(query: NodeQuery) {
    forall db, s ::
      match query(db, s)
      case Some(node) => Offers(db, node, s)
      case None => forall node :: !Offers(db, node, s)
  }

  /** What an export looks at besides the subscription tables. */
  datatype Nodes = Nodes(db: Db, reality: R.RealityConfig, query: NodeQuery)

  function Access(st: Store, nodes: Nodes, id: string, now: Time): (a: Answer<AccessExport>)
    ensures a.Answered? ==> id in st.subscriptions && Offers(nodes.db, a.value.nodeId, st.subscriptions[id])
  {
    if id !in st.subscriptions || st.subscriptions[id].userId !in st.users || st.subscriptions[id].planId !in st.plans then
      Denied(Missing)
    else if Eligible(st, id, now).Some? then Denied(Unavailable)
    else
      match nodes.query(nodes.db, st.subscriptions[id])
      case None => Denied(Unavailable)
      case Some(node) =>
        if !Offers(nodes.db, node, st.subscriptions[id]) then Denied(Unavailable)
        else
          var entry := R.BuildAccessEntry(ConfigInput(st, id));
          var r := nodes.reality.WithDefaults();
          Answered(AccessExport(
            node, nodes.db.nodes[node].hostname, r.vlessPort, "tcp", "reality", r.sni, r.shortId,
            entry.vlessClientId, entry.email, entry.flow, 0))
  }

  datatype Claim = Claim(subscriptionId: string, expiresAt: Time, access: AccessExport)

  function ClaimInvite(c: Crypto, st: Store, nodes: Nodes, token: string, accessToken: string, now: Time):
    (Store, Answer<Claim>)
  {
    if TrimSpace(token) == "" then (st, Denied(InvalidToken))
    else
      match FindGrant(st.invites, c.hash(TrimSpace(token)), now)
      case None => (st, Denied(InvalidToken))
      case Some(i) =>
        var id := st.invites[i].subscriptionId;
        match Eligible(st, id, now)
        case Some(e) => (st, Denied(e))
        case None =>
          match Access(st, nodes, id, now)
          case Denied(e) => (st, Denied(e))
          case Answered(access) =>
            var expiresAt := st.subscriptions[id].expiresAt;
            match Replace(st.tokens, id, c.hash(accessToken), expiresAt, now)
            case Denied(e) => (st, Denied(e))
            case Answered(tokens) =>
              (st.(tokens := tokens, invites := st.invites[i := st.invites[i].(status := GrantClaimed)]),
               Answered(Claim(id, expiresAt, access)))
  }

  // ---- the repository ----

  class SubscriptionsRepository {
    const crypto: Crypto
    var users: map<string, User>
    var plans: map<string, string>
    var subscriptions: map<string, Subscription>
    var tokens: seq<Grant>
    var invites: seq<Grant>

    ghost function Tables(): Store
      reads this
    {
      Store(users, plans, subscriptions, tokens, invites)
    }

    constructor (crypto: Crypto, users: map<string, User>, plans: map<string, string>)
      ensures Tables() == Store(users, plans, map[], [], []) && this.crypto == crypto
    {
      this.crypto, this.users, this.plans := crypto, users, plans;
      subscriptions, tokens, invites := map[], [], [];
    }

    /** The eligibility query over the current tables. */
    method CheckEligible(id: string, now: Time) returns (refused: Option<AccessError>)
      ensures refused == Eligible(Tables(), id, now)
    {
      if id !in subscriptions {
        return Some(Missing);
      }
      var s := subscriptions[id];
      if s.status != ACTIVE || s.userId !in users || users[s.userId].status != ACTIVE || s.expiresAt <= now {
        return Some(Unavailable);
      }
      return None;
    }

    method ReplaceAccessToken(id: string, token: string, now: Time) returns (answer: Answer<Time>)
      modifies this`tokens
      ensures (Tables(), answer) == IssueToken(crypto, old(Tables()), id, token, now)
    {
      var refused := CheckEligible(id, now);
      if refused.Some? {
        return Denied(refused.value);
      }
      var expiresAt := subscriptions[id].expiresAt;
      var replaced := Replace(tokens, id, crypto.hash(token), expiresAt, now);
      if replaced.Denied? {
        return Denied(replaced.error);
      }
      tokens := replaced.value;
      return Answered(expiresAt);
    }

    method RevokeAccessToken(id: string) returns (answer: Answer<()>)
      modifies this`tokens
      ensures (Tables(), answer) == RevokeToken(old(Tables()), id)
    {
      if id !in subscriptions {
        return Denied(Missing);
      }
      tokens := RevokeAll(tokens, id);
      return Answered(());
    }

    method SubscriptionIDByToken(token: string, now: Time) returns (answer: Answer<string>)
      ensures answer == SubscriptionByToken(crypto, Tables(), token, now)
    {
      var trimmed := TrimSpace(token);
      if trimmed == "" {
        return Denied(InvalidToken);
      }
      var found := FindGrant(tokens, crypto.hash(trimmed), now);
      if found.None? {
        return Denied(InvalidToken);
      }
      return Answered(tokens[found.value].subscriptionId);
    }

    method CreateHandoffInvite(id: string, token: string, now: Time) returns (answer: Answer<Time>)
      modifies this`invites
      ensures (Tables(), answer) == CreateInvite(crypto, old(Tables()), id, token, now)
    {
      var refused := CheckEligible(id, now);
      if refused.Some? {
        return Denied(refused.value);
      }
      var expiresAt := InviteExpiry(subscriptions[id], now);
      var replaced := Replace(invites, id, crypto.hash(token), expiresAt, now);
      if replaced.Denied? {
        return Denied(replaced.error);
      }
      invites := replaced.value;
      return Answered(expiresAt);
    }

    method RevokeHandoffInvite(id: string) returns (answer: Answer<()>)
      modifies this`invites
      ensures (Tables(), answer) == RevokeInvite(old(Tables()), id)
    {
      if id !in subscriptions {
        return Denied(Missing);
      }
      invites := RevokeAll(invites, id);
      return Answered(());
    }

    /** The export of a subscription; it changes nothing. */
    method ExportAccess(nodes: Nodes, id: string, now: Time) returns (answer: Answer<AccessExport>)
      ensures answer == Access(Tables(), nodes, id, now)
    {
      if id !in subscriptions {
        return Denied(Missing);
      }
      var s := subscriptions[id];
      if s.userId !in users || s.planId !in plans {
        return Denied(Missing);
      }
      if s.status != ACTIVE || users[s.userId].status != ACTIVE || s.expiresAt <= now {
        return Denied(Unavailable);
      }
      var node := nodes.query(nodes.db, s);
      if node.None? || !Offers(nodes.db, node.value, s) {
        return Denied(Unavailable);
      }
      var r := nodes.reality.WithDefaults();
      var entry := R.BuildAccessEntry(R.SubscriptionInput(
        id, s.userId, s.planId, users[s.userId].status, s.status, s.preferredRegion, plans[s.planId],
        s.deviceLimit, s.limit, TimeText(s.startsAt), TimeText(s.expiresAt)));
      return Answered(AccessExport(
        node.value, nodes.db.nodes[node.value].hostname, r.vlessPort, "tcp", "reality", r.sni, r.shortId,
        entry.vlessClientId, entry.email, entry.flow, 0));
    }

    method ClaimHandoffInvite(nodes: Nodes, token: string, accessToken: string, now: Time)
      returns (answer: Answer<Claim>)
      modifies this`tokens, this`invites
      ensures (Tables(), answer) == ClaimInvite(crypto, old(Tables()), nodes, token, accessToken, now)
    {
      var trimmed := TrimSpace(token);
      if trimmed == "" {
        return Denied(InvalidToken);
      }
      var found := FindGrant(invites, crypto.hash(trimmed), now);
      if found.None? {
        return Denied(InvalidToken);
      }
      var id := invites[found.value].subscriptionId;
      var refused := CheckEligible(id, now);
      if refused.Some? {
        return Denied(refused.value);
      }
      var access := ExportAccess(nodes, id, now);
      if access.Denied? {
        return Denied(access.error);
      }
      var expiresAt := subscriptions[id].expiresAt;
      var replaced := Replace(tokens, id, crypto.hash(accessToken), expiresAt, now);
      if replaced.Denied? {
        return Denied(replaced.error);
      }
      invites := invites[found.value := invites[found.value].(status := GrantClaimed)];
      tokens := replaced.value;
      return Answered(Claim(id, expiresAt, access.value));
    }

    method RenewSubscription(id: string, days: nat, now: Time) returns (answer: Answer<Time>)
      modifies this`subscriptions
      ensures (Tables(), answer) == Renew(old(Tables()), id, days, now)
    {
      if id !in subscriptions {
        return Denied(Missing);
      }
      var s := subscriptions[id];
      var start := if s.expiresAt < now then now else s.expiresAt;
      s := s.(status := ACTIVE, expiresAt := start + days * DAY);
      subscriptions := subscriptions[id := s];
      return Answered(s.expiresAt);
    }

    /** The rows that are rendered into the node's config. */
    method ListConfigSubscriptionInputs(ids: seq<string>, region: string, now: Time)
      returns (inputs: seq<R.SubscriptionInput>)
      ensures inputs == InputsOf(Tables(), ids, region, now)
    {
      inputs := [];
      for i := 0 to |ids|
        invariant inputs == InputsOf(Tables(), ids[..i], region, now)
      {
        assert ids[..i + 1][..i] == ids[..i];
        if ServedIn(Store(users, plans, subscriptions, tokens, invites), ids[i], region, now) {
          inputs := inputs + [ConfigInput(Store(users, plans, subscriptions, tokens, invites), ids[i])];
        }
      }
      assert ids[..|ids|] == ids;
    }
  }

  /** The query result over the subscriptions in a given order of ids. */
  function InputsOf(st: Store, ids: seq<string>, region: string, now: Time): seq<R.SubscriptionInput> {
    if ids == [] then []
    else
      InputsOf(st, ids[..|ids| - 1], region, now) +
      (if ServedIn(st, ids[|ids| - 1], region, now) then [ConfigInput(st, ids[|ids| - 1])] else [])
  }
}
