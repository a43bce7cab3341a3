/** Rendering of a node's config payload (configrender/xray.go). */
module Render {
  import opened Text
  import opened Json

  const SCHEMA_VERSION := "config-bundle.v1alpha1"
  const GENERATED_BY := "panel-api"
  const PROTOCOL_VLESS := "vless-reality-xtls-vision"
  const CORE_TYPE_XRAY := "xray"
  const CONFIG_KIND := "xray-config-compatible-skeleton"
  const OPERATION_DEPLOY := "deploy"
  const OPERATION_ROLLBACK := "rollback"
  const INBOUND_TAG := "vless-reality-in"
  const OUTBOUND_TAG := "direct"
  const VLESS_FLOW := "xtls-rprx-vision"

  datatype RealityConfig = RealityConfig(
    vlessPort: int, sni: string, dest: string, shortId: string,
    privateKey: string, publicKey: string, fingerprint: string, spiderX: string)
  {
    function WithDefaults(): RealityConfig {
      RealityConfig(
        if vlessPort <= 0 then 443 else vlessPort,
        OrDefault(sni, "www.cloudflare.com"),
        OrDefault(dest, "www.cloudflare.com:443"),
        OrDefault(shortId, "lenker00"),
        OrDefault(privateKey, "lenker-placeholder-reality-private-key"),
        OrDefault(publicKey, "lenker-placeholder-reality-public-key"),
        OrDefault(fingerprint, "chrome"),
        OrDefault(spiderX, "/"))
    }
  }

  function OrDefault(s: string, default: string): string {
    if s == "" then default else s
  }

  datatype SubscriptionInput = SubscriptionInput(
    subscriptionId: string, userId: string, planId: string, userStatus: string,
    subscriptionStatus: string, preferredRegion: string, planName: string,
    deviceLimit: int, trafficLimitBytes: Option<int>, startsAt: string, expiresAt: string)

  datatype AccessEntry = AccessEntry(
    subscriptionId: string, userId: string, planId: string, vlessClientId: string,
    email: string, flow: string, deviceLimit: int, trafficLimitBytes: Option<int>,
    expiresAt: string)

  datatype RoutingRule = RoutingRule(ruleType: string, target: string, action: string)
  datatype GlobalSettings = GlobalSettings(logLevel: string, sniffing: bool, dnsServers: seq<string>)
  datatype WarpCredentials = WarpCredentials(
    privateKey: string, publicKey: string, address: string, endpoint: string)

  datatype RenderInput = RenderInput(
    nodeId: string, revisionNumber: int, hostname: string, region: string, countryCode: string,
    subscriptions: seq<SubscriptionInput>, routingRules: seq<RoutingRule>,
    settings: Option<GlobalSettings>, warp: Option<WarpCredentials>, rollbackTarget: int)

  // ---- order of subscriptions ----

  predicate Before(a: SubscriptionInput, b: SubscriptionInput) {
    if a.subscriptionId != b.subscriptionId then StringLess(a.subscriptionId, b.subscriptionId)
    else if a.userId != b.userId then StringLess(a.userId, b.userId)
    else StringLess(a.planId, b.planId)
  }

  function InsertInput(x: SubscriptionInput, sorted: seq<SubscriptionInput>): (r: seq<SubscriptionInput>)
    ensures multiset(r) == multiset(sorted) + multiset{x}
  {
    if sorted == [] || Before(x, sorted[0]) then [x] + sorted
    else
      assert sorted == [sorted[0]] + sorted[1..];
      [sorted[0]] + InsertInput(x, sorted[1..])
  }

  /** The stable sort by (subscription, user, plan). */
  function SortInputs(inputs: seq<SubscriptionInput>): (r: seq<SubscriptionInput>)
    ensures multiset(r) == multiset(inputs)
  {
    if inputs == [] then []
    else
      assert inputs == inputs[..|inputs| - 1] + [inputs[|inputs| - 1]];
      InsertInput(inputs[|inputs| - 1], SortInputs(inputs[..|inputs| - 1]))
  }

  /** No element comes before an earlier one. */
  predicate Ordered(s: seq<SubscriptionInput>) {
    forall i, j :: 0 <= i < j < |s| ==> !Before(s[j], s[i])
  }

  lemma BeforeIsTransitive(a: SubscriptionInput, b: SubscriptionInput, c: SubscriptionInput)
    ensures Before(a, b) && Before(b, c) ==> Before(a, c)
    ensures !Before(b, a) && !Before(c, b) ==> !Before(c, a)
    ensures Before(a, b) ==> !Before(b, a)
  {
    KeyOrder(a.subscriptionId, b.subscriptionId, c.subscriptionId);
    KeyOrder(a.userId, b.userId, c.userId);
    KeyOrder(a.planId, b.planId, c.planId);
  }

  lemma KeyOrder(a: string, b: string, c: string)
    ensures StringLess(a, b) && StringLess(b, c) ==> StringLess(a, c)
    ensures StringLess(c, b) && StringLess(b, a) ==> StringLess(c, a)
    ensures a != b ==> StringLess(a, b) || StringLess(b, a)
    ensures b != c ==> StringLess(b, c) || StringLess(c, b)
    ensures a != c ==> StringLess(a, c) || StringLess(c, a)
    ensures !(StringLess(a, b) && StringLess(b, a))
    ensures !(StringLess(b, c) && StringLess(c, b))
    ensures !(StringLess(a, c) && StringLess(c, a))
  {
    StringLessTotal(a, b);
    StringLessTotal(b, c);
    StringLessTotal(a, c);
    if StringLess(a, b) && StringLess(b, c) { StringLessTransitive(a, b, c); }
    if StringLess(c, b) && StringLess(b, a) { StringLessTransitive(c, b, a); }
  }

  lemma {:induction false} InsertKeepsOrder(x: SubscriptionInput, sorted: seq<SubscriptionInput>)
    requires Ordered(sorted)
    ensures Ordered(InsertInput(x, sorted))
  {
    var r := InsertInput(x, sorted);
    if sorted == [] || Before(x, sorted[0]) {
      forall i, j | 0 <= i < j < |r| ensures !Before(r[j], r[i]) {
        if i == 0 {
          BeforeIsTransitive(x, sorted[0], r[j]);
        }
      }
    } else {
      var rest := InsertInput(x, sorted[1..]);
      InsertKeepsOrder(x, sorted[1..]);
      assert r == [sorted[0]] + rest;
      forall i, j | 0 <= i < j < |r| ensures !Before(r[j], r[i]) {
        if i == 0 {
          assert r[j] in multiset(rest);
          assert r[j] == x || r[j] in sorted[1..];
        }
      }
    }
  }

  lemma {:induction false} SortIsOrdered(inputs: seq<SubscriptionInput>)
    ensures Ordered(SortInputs(inputs))
  {
    if inputs != [] {
      SortIsOrdered(inputs[..|inputs| - 1]);
      InsertKeepsOrder(inputs[|inputs| - 1], SortInputs(inputs[..|inputs| - 1]));
    }
  }

  predicate DistinctSubscriptions(s: seq<SubscriptionInput>) {
    forall i, j :: 0 <= i < j < |s| ==> s[i].subscriptionId != s[j].subscriptionId
  }

  lemma LeastAgrees(s: seq<SubscriptionInput>, t: seq<SubscriptionInput>)
    requires Ordered(s) && Ordered(t) && s != [] && t != [] && s[0] in t && t[0] in s
    requires DistinctSubscriptions(s)
    ensures s[0] == t[0]
  {
    var i :| 0 <= i < |t| && t[i] == s[0];
    var j :| 0 <= j < |s| && s[j] == t[0];
    if i != 0 && j != 0 { NeitherBefore(s[j], s[0]); }
  }

  lemma NeitherBefore(a: SubscriptionInput, b: SubscriptionInput)
    requires !Before(a, b) && !Before(b, a)
    ensures a.subscriptionId == b.subscriptionId
  {
    StringLessTotal(a.subscriptionId, b.subscriptionId);
  }

  /** An ordered arrangement of distinct subscriptions is unique. */
  lemma {:induction false} OrderedArrangementIsUnique(s: seq<SubscriptionInput>, t: seq<SubscriptionInput>)
    requires Ordered(s) && Ordered(t) && multiset(s) == multiset(t)
    requires DistinctSubscriptions(s) && DistinctSubscriptions(t)
    ensures s == t
  {
    assert |s| == |multiset(s)| == |multiset(t)| == |t|;
    if s != [] {
      assert s[0] in multiset(t) && t[0] in multiset(s);
      LeastAgrees(s, t);
      TailMultiset(s);
      TailMultiset(t);
      OrderedArrangementIsUnique(s[1..], t[1..]);
      assert s == [s[0]] + s[1..] && t == [t[0]] + t[1..];
    }
  }

  lemma TailMultiset(s: seq<SubscriptionInput>)
    requires s != []
    ensures multiset(s[1..]) == multiset(s) - multiset{s[0]}
  {
    assert s == [s[0]] + s[1..];
  }

  lemma DistinctIsAboutTheMultiset(s: seq<SubscriptionInput>, t: seq<SubscriptionInput>)
    requires multiset(s) == multiset(t) && DistinctSubscriptions(s)
    ensures DistinctSubscriptions(t)
  {
    forall i, j | 0 <= i < j < |t| ensures t[i].subscriptionId != t[j].subscriptionId {
      assert t == t[..i] + [t[i]] + t[i + 1..j] + [t[j]] + t[j + 1..];
      var pair := multiset{t[i], t[j]};
      assert pair <= multiset(t);
      assert t[i] in multiset(s) && t[j] in multiset(s);
      if t[i] == t[j] {
        assert multiset(s)[t[i]] >= 2;
        RepeatedElement(s, t[i]);
      } else {
        var a :| 0 <= a < |s| && s[a] == t[i];
        var b :| 0 <= b < |s| && s[b] == t[j];
      }
    }
  }

  lemma {:induction false} RepeatedElement(s: seq<SubscriptionInput>, x: SubscriptionInput)
    requires multiset(s)[x] >= 2
    ensures exists i, j :: 0 <= i < j < |s| && s[i] == s[j] == x
  {
    assert s == [s[0]] + s[1..];
    if s[0] == x {
      assert x in multiset(s[1..]);
      var j :| 0 <= j < |s[1..]| && s[1..][j] == x;
      assert s[0] == s[j + 1] == x;
    } else {
      RepeatedElement(s[1..], x);
      var i, j :| 0 <= i < j < |s[1..]| && s[1..][i] == s[1..][j] == x;
      assert s[i + 1] == s[j + 1] == x;
    }
  }

  /** The sorted list depends on the set of subscriptions only. */
  lemma SortForgetsInputOrder(s: seq<SubscriptionInput>, t: seq<SubscriptionInput>)
    requires multiset(s) == multiset(t) && DistinctSubscriptions(s)
    ensures SortInputs(s) == SortInputs(t)
  {
    SortIsOrdered(s);
    SortIsOrdered(t);
    DistinctIsAboutTheMultiset(s, SortInputs(s));
    DistinctIsAboutTheMultiset(s, SortInputs(t));
    OrderedArrangementIsUnique(SortInputs(s), SortInputs(t));
  }

  // ---- pieces of the payload ----

  function OptionalNumber(n: Option<int>): Json {
    match n
    case Some(v) => Int(v)
    case None => Null
  }

  function SummaryEntry(s: SubscriptionInput): Json {
    Obj(map[
      SubscriptionId := Str(s.subscriptionId), UserId := Str(s.userId), PlanId := Str(s.planId),
      UserStatus := Str(s.userStatus), SubscriptionStatus := Str(s.subscriptionStatus),
      PreferredRegion := Str(s.preferredRegion), PlanName := Str(s.planName),
      DeviceLimit := Int(s.deviceLimit), StartsAt := Str(s.startsAt), ExpiresAt := Str(s.expiresAt),
      TrafficLimitBytes := OptionalNumber(s.trafficLimitBytes)])
  }

  function BuildAccessEntry(s: SubscriptionInput): AccessEntry {
    AccessEntry(
      s.subscriptionId, s.userId, s.planId, s.subscriptionId,
      "subscription:" + s.subscriptionId, VLESS_FLOW,
      s.deviceLimit, s.trafficLimitBytes, s.expiresAt)
  }

  function AccessEntryFields(s: SubscriptionInput): Fields {
    var access := BuildAccessEntry(s);
    map[
      SubscriptionId := Str(access.subscriptionId), UserId := Str(access.userId),
      PlanId := Str(access.planId), VlessClientId := Str(access.vlessClientId),
      Email := Str(access.email), Flow := Str(access.flow),
      DeviceLimit := Int(access.deviceLimit), ExpiresAt := Str(access.expiresAt),
      TrafficLimitBytes := OptionalNumber(access.trafficLimitBytes)]
  }

  function ClientEntry(entry: Fields): Json {
    var at := (key: Key) => if key in entry then entry[key] else Null;
    Obj(map[Id := at(VlessClientId), Email := at(Email), Flow := at(Flow), Level := Int(0)])
  }

  function Summaries(inputs: seq<SubscriptionInput>): seq<Json> {
    seq(|inputs|, i requires 0 <= i < |inputs| => SummaryEntry(inputs[i]))
  }

  function Entries(inputs: seq<SubscriptionInput>): seq<Json> {
    seq(|inputs|, i requires 0 <= i < |inputs| => Obj(AccessEntryFields(inputs[i])))
  }

  /** Clients in the order of the access entries; anything that is not an object is skipped. */
  function ClientsOf(entries: seq<Json>): seq<Json> {
    if entries == [] then []
    else
      ClientsOf(entries[..|entries| - 1]) +
      (if entries[|entries| - 1].Obj? then [ClientEntry(entries[|entries| - 1].fields)] else [])
  }

  function ActionToOutbound(action: string): string {
    if action == "block" then "block"
    else if action == "warp" then "warp"
    else "direct"
  }

  function RuleMatcher(rule: RoutingRule): Option<(Key, Json)> {
    if rule.ruleType == "domain" then Some((Domain, Arr([Str(rule.target)])))
    else if rule.ruleType == "geosite" then Some((Domain, Arr([Str("geosite:" + rule.target)])))
    else if rule.ruleType == "geoip" then Some((Ip, Arr([Str("geoip:" + rule.target)])))
    else if rule.ruleType == "ip" then Some((Ip, Arr([Str(rule.target)])))
    else if rule.ruleType == "port" then Some((Port, Str(rule.target)))
    else if rule.ruleType == "protocol" then Some((Protocol, Arr([Str(rule.target)])))
    else None
  }

  predicate Recognised(rule: RoutingRule) {
    RuleMatcher(rule).Some?
  }

  function RuleFields(rule: RoutingRule): Fields
    requires Recognised(rule)
  {
    map[Type := Str("field"), OutboundTag := Str(ActionToOutbound(rule.action)),
        InboundTag := Arr([Str(INBOUND_TAG)])]
      [RuleMatcher(rule).value.0 := RuleMatcher(rule).value.1]
  }

  function CustomRules(rules: seq<RoutingRule>): seq<Json> {
    if rules == [] then []
    else
      CustomRules(rules[..|rules| - 1]) +
      (if Recognised(rules[|rules| - 1]) then [Obj(RuleFields(rules[|rules| - 1]))] else [])
  }

  const DefaultRule: Json := Obj(map[
    Type := Str("field"), InboundTag := Arr([Str(INBOUND_TAG)]), OutboundTag := Str(OUTBOUND_TAG)])

  predicate NeedsBlock(rules: seq<RoutingRule>) {
    exists i :: 0 <= i < |rules| && rules[i].action == "block"
  }

  function WarpOutbound(w: WarpCredentials): Json {
    Obj(map[
      Tag := Str("warp"), Protocol := Str("wireguard"),
      Settings := Obj(map[
        SecretKey := Str(w.privateKey), Address := Arr([Str(w.address)]),
        Peers := Arr([Obj(map[PublicKey := Str(w.publicKey), Endpoint := Str(w.endpoint)])])])])
  }

  const DirectOutbound: Json := Obj(map[Tag := Str(OUTBOUND_TAG), Protocol := Str("freedom")])
  const BlockOutbound: Json := Obj(map[Tag := Str("block"), Protocol := Str("blackhole")])

  function OutboundList(input: RenderInput): seq<Json> {
    [DirectOutbound]
    + (if NeedsBlock(input.routingRules) then [BlockOutbound] else [])
    + (match input.warp case Some(w) => [WarpOutbound(w)] case None => [])
  }

  function RealityFields(reality: RealityConfig): Fields {
    map[
      Show := Bool(false), Dest := Str(reality.dest), Xver := Int(0),
      ServerNames := Arr([Str(reality.sni)]), PrivateKey := Str(reality.privateKey),
      ShortIds := Arr([Str(reality.shortId)]), MinClientVer := Str(""), MaxClientVer := Str(""),
      MaxTimeDiff := Int(0)]
  }

  function InboundFields(reality: RealityConfig, clients: seq<Json>, sniffing: bool): Fields {
    map[
      Tag := Str(INBOUND_TAG), Listen := Str("0.0.0.0"), Port := Int(reality.vlessPort),
      Protocol := Str("vless"),
      Settings := Obj(map[Clients := Arr(clients), Decryption := Str("none"), Fallbacks := Arr([])]),
      StreamSettings := Obj(map[
        Network := Str("tcp"), Security := Str("reality"),
        RealitySettings := Obj(RealityFields(reality))]),
      Sniffing := Obj(map[
        Enabled := Bool(sniffing), DestOverride := Arr([Str("http"), Str("tls"), Str("quic")])])]
  }

  const PolicyFields: Fields := map[
    Levels := Obj(map[Other("0") := Obj(map[
      Handshake := Int(4), ConnIdle := Int(300), UplinkOnly := Int(2), DownlinkOnly := Int(5),
      StatsUserUplink := Bool(true), StatsUserDownlink := Bool(true)])]),
    System := Obj(map[
      StatsInboundUplink := Bool(true), StatsInboundDownlink := Bool(true),
      StatsOutboundUplink := Bool(true), StatsOutboundDownlink := Bool(true)])]

  function ConfigFields(
    reality: RealityConfig, clients: seq<Json>, logLevel: string, sniffing: bool,
    outbounds: seq<Json>, rules: seq<Json>, dns: seq<string>): Fields
  {
    var base: Fields := map[
      Log := Obj(map[Loglevel := Str(logLevel)]), Stats := Obj(map[]), Policy := Obj(PolicyFields),
      Inbounds := Arr([Obj(InboundFields(reality, clients, sniffing))]),
      Outbounds := Arr(outbounds),
      Routing := Obj(map[DomainStrategy := Str("AsIs"), Rules := Arr(rules)])];
    if |dns| > 0 then base[Dns := Obj(map[Servers := Arr(Strings(dns))])] else base
  }

  function Strings(texts: seq<string>): seq<Json> {
    seq(|texts|, i requires 0 <= i < |texts| => Str(texts[i]))
  }

  function LogLevelOf(settings: Option<GlobalSettings>): string {
    if settings.Some? && settings.value.logLevel != "" then settings.value.logLevel else "warning"
  }

  function SniffingOf(settings: Option<GlobalSettings>): bool {
    if settings.Some? then settings.value.sniffing else true
  }

  function DnsOf(settings: Option<GlobalSettings>): seq<string> {
    if settings.Some? then settings.value.dnsServers else []
  }

  function RenderedConfig(input: RenderInput, reality: RealityConfig): Fields {
    ConfigFields(
      reality.WithDefaults(), ClientsOf(Entries(SortInputs(input.subscriptions))),
      LogLevelOf(input.settings), SniffingOf(input.settings), OutboundList(input),
      CustomRules(input.routingRules) + [DefaultRule], DnsOf(input.settings))
  }

  function DeployText(input: RenderInput): string {
    "lenker xray vless reality skeleton node=" + input.nodeId
    + " revision=" + IntText(input.revisionNumber)
    + " protocol=" + PROTOCOL_VLESS
    + " subscriptions=" + IntText(|SortInputs(input.subscriptions)|)
  }

  function PayloadFields(
    input: RenderInput, config: Fields, summaries: seq<Json>, entries: seq<Json>, text: string): Fields
  {
    map[
      SchemaVersion := Str(SCHEMA_VERSION), GeneratedBy := Str(GENERATED_BY),
      Protocol := Str(PROTOCOL_VLESS), RevisionNumber := Int(input.revisionNumber),
      RollbackTarget := Int(input.rollbackTarget), OperationKind := Str(OPERATION_DEPLOY),
      Node := Obj(map[
        Id := Str(input.nodeId), Hostname := Str(input.hostname),
        Region := Str(input.region), CountryCode := Str(input.countryCode)]),
      CoreType := Str(CORE_TYPE_XRAY),
      Transport := Obj(map[
        Network := Str("tcp"), Security := Str("reality"), Xtls := Str("vision")]),
      ConfigKind := Str(CONFIG_KIND), Config := Obj(config),
      SubscriptionInputs := Arr(summaries), AccessEntries := Arr(entries),
      ConfigText := Str(text)]
  }

  /** The payload of a deploy revision. */
  function RenderPayload(input: RenderInput, reality: RealityConfig): Fields {
    PayloadFields(
      input, RenderedConfig(input, reality), Summaries(SortInputs(input.subscriptions)),
      Entries(SortInputs(input.subscriptions)), DeployText(input))
  }

  /** Two inputs with the same distinct subscriptions, in any order, render the
      same payload; so they have the same hash. */
  lemma RenderForgetsInputOrder(input: RenderInput, other: seq<SubscriptionInput>, reality: RealityConfig)
    requires multiset(other) == multiset(input.subscriptions)
    requires DistinctSubscriptions(input.subscriptions)
    ensures RenderPayload(input.(subscriptions := other), reality) == RenderPayload(input, reality)
  {
    SortForgetsInputOrder(input.subscriptions, other);
    SortedDecides(input, input.(subscriptions := other), reality);
  }

  /** Of the subscriptions only the sorted list is used. */
  lemma SortedDecides(input: RenderInput, again: RenderInput, reality: RealityConfig)
    requires again == input.(subscriptions := again.subscriptions)
    requires SortInputs(again.subscriptions) == SortInputs(input.subscriptions)
    ensures RenderPayload(again, reality) == RenderPayload(input, reality)
  {
    assert OutboundList(again) == OutboundList(input);
    assert RenderedConfig(again, reality) == RenderedConfig(input, reality);
  }

  lemma {:induction false} ClientsAreAligned(inputs: seq<SubscriptionInput>)
    ensures |ClientsOf(Entries(inputs))| == |inputs|
    ensures forall i :: 0 <= i < |inputs| ==>
      ClientsOf(Entries(inputs))[i] == Obj(map[
        Id := Str(inputs[i].subscriptionId), Email := Str("subscription:" + inputs[i].subscriptionId),
        Flow := Str(VLESS_FLOW), Level := Int(0)])
  {
    if inputs != [] {
      var front := inputs[..|inputs| - 1];
      ClientsAreAligned(front);
      assert Entries(inputs)[..|inputs| - 1] == Entries(front);
      var last := inputs[|inputs| - 1];
      assert ClientEntry(AccessEntryFields(last)) == Obj(map[
        Id := Str(last.subscriptionId), Email := Str("subscription:" + last.subscriptionId),
        Flow := Str(VLESS_FLOW), Level := Int(0)]);
    }
  }

  // ---- the loops that build the payload ----

  method RenderSubscriptionSummary(inputs: seq<SubscriptionInput>) returns (result: seq<Json>)
    ensures result == Summaries(inputs)
  {
    result := [];
    for i := 0 to |inputs|
      invariant result == Summaries(inputs)[..i]
    {
      result := result + [SummaryEntry(inputs[i])];
    }
  }

  method RenderAccessEntries(inputs: seq<SubscriptionInput>) returns (result: seq<Json>)
    ensures result == Entries(inputs)
  {
    result := [];
    for i := 0 to |inputs|
      invariant result == Entries(inputs)[..i]
    {
      result := result + [Obj(AccessEntryFields(inputs[i]))];
    }
  }

  method RenderClients(entries: seq<Json>) returns (result: seq<Json>)
    ensures result == ClientsOf(entries)
  {
    result := [];
    for i := 0 to |entries|
      invariant result == ClientsOf(entries[..i])
    {
      assert entries[..i + 1][..i] == entries[..i];
      if entries[i].Obj? {
        result := result + [ClientEntry(entries[i].fields)];
      }
    }
    assert entries[..|entries|] == entries;
  }

  method RenderCustomRoutingRules(rules: seq<RoutingRule>) returns (result: seq<Json>)
    ensures result == CustomRules(rules)
  {
    result := [];
    for i := 0 to |rules|
      invariant result == CustomRules(rules[..i])
    {
      assert rules[..i + 1][..i] == rules[..i];
      if Recognised(rules[i]) {
        result := result + [Obj(RuleFields(rules[i]))];
      }
    }
    assert rules[..|rules|] == rules;
  }

  method RenderOutbounds(input: RenderInput) returns (outbounds: seq<Json>)
    ensures outbounds == OutboundList(input)
  {
    outbounds := [DirectOutbound];
    var needsBlock := false;
    for i := 0 to |input.routingRules|
      invariant !needsBlock && !NeedsBlock(input.routingRules[..i])
    {
      if input.routingRules[i].action == "block" {
        needsBlock := true;
        break;
      }
    }
    if needsBlock {
      outbounds := outbounds + [BlockOutbound];
    }
    if input.warp.Some? {
      outbounds := outbounds + [WarpOutbound(input.warp.value)];
    }
  }

  method RenderVLESSRealityPayload(input: RenderInput, reality: RealityConfig) returns (payload: Fields)
    ensures payload == RenderPayload(input, reality)
  {
    var subscriptions := SortInputs(input.subscriptions);
    var entries := RenderAccessEntries(subscriptions);
    var summary := RenderSubscriptionSummary(subscriptions);
    var outbounds := RenderOutbounds(input);
    var customRules := RenderCustomRoutingRules(input.routingRules);
    var clients := RenderClients(entries);
    var config := ConfigFields(
      reality.WithDefaults(), clients, LogLevelOf(input.settings), SniffingOf(input.settings),
      outbounds, customRules + [DefaultRule], DnsOf(input.settings));
    payload := PayloadFields(input, config, summary, entries, DeployText(input));
  }

  // ---- rollback payloads ----

  datatype RollbackInput = RollbackInput(
    revisionNumber: int, rollbackTarget: int, sourceRevisionId: string, sourceRevisionNumber: int)

  /** The keys a rollback sets; every other key is the target's. */
  const OVERWRITTEN: set<Key> := {
    RevisionNumber, RollbackTarget, OperationKind, SourceRevisionId, SourceRevisionNumber,
    ConfigKind, ConfigText}

  function RollbackText(input: RollbackInput): string {
    "lenker xray vless reality rollback skeleton revision=" + IntText(input.revisionNumber)
    + " source_revision=" + IntText(input.sourceRevisionNumber)
  }

  function RollbackPayload(target: Fields, input: RollbackInput): Fields {
    Decoded(target)
      [RevisionNumber := Int(input.revisionNumber)]
      [RollbackTarget := Int(input.rollbackTarget)]
      [OperationKind := Str(OPERATION_ROLLBACK)]
      [SourceRevisionId := Str(input.sourceRevisionId)]
      [SourceRevisionNumber := Int(input.sourceRevisionNumber)]
      [ConfigKind := Str(CONFIG_KIND)]
      [ConfigText := Str(RollbackText(input))]
  }

  /** Both payloads have the same keys and values outside the overwritten keys. */
  predicate SameMeaning(a: Fields, b: Fields) {
    && a.Keys - OVERWRITTEN == b.Keys - OVERWRITTEN
    && forall k :: k in a && k !in OVERWRITTEN ==> k in b && a[k] == b[k]
  }

  /** The stored payload after a series of rollbacks, each of the one before. */
  function RollbackChain(root: Fields, inputs: seq<RollbackInput>): Fields {
    if inputs == [] then Decoded(root)
    else Decoded(RollbackPayload(RollbackChain(root, inputs[..|inputs| - 1]), inputs[|inputs| - 1]))
  }

  lemma RollbackKeepsMeaning(target: Fields, input: RollbackInput)
    ensures SameMeaning(Decoded(RollbackPayload(Decoded(target), input)), Decoded(target))
  {
    var once := RollbackPayload(Decoded(target), input);
    DecodedIsStable(target);
    forall k | k in once && k !in OVERWRITTEN
      ensures k in Decoded(target) && Decoded(once)[k] == Decoded(target)[k]
    {
      RoundTripIsIdempotent(target[k]);
    }
    assert Decoded(once).Keys == once.Keys == target.Keys + OVERWRITTEN;
  }

  /** A rollback of a rollback of ... of a deploy carries the deploy's stored
      payload, whatever the length of the series. */
  lemma {:induction false} RollbackChainKeepsMeaning(root: Fields, inputs: seq<RollbackInput>)
    ensures SameMeaning(RollbackChain(root, inputs), Decoded(root))
    ensures Decoded(RollbackChain(root, inputs)) == RollbackChain(root, inputs)
  {
    DecodedIsStable(root);
    if inputs != [] {
      var front := inputs[..|inputs| - 1];
      RollbackChainKeepsMeaning(root, front);
      RollbackKeepsMeaning(RollbackChain(root, front), inputs[|inputs| - 1]);
      DecodedIsStable(RollbackPayload(RollbackChain(root, front), inputs[|inputs| - 1]));
    }
  }
}
