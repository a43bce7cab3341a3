/** Rendered payloads and their rollbacks seen by both sides. */
module RenderTheorems {
  import opened Text
  import opened Json
  import opened XrayChecks
  import opened DecodingTheorems
  import opened ValidatorTheorems
  import opened Acceptance
  import R = Render
  import P = PanelValidator
  import A = AgentValidator

  // ---- the two validators on rendered configs ----

  predicate Tagged(rule: Json) {
    rule.Obj? && Get(rule.fields, InboundTag) == Some(Arr([Str(R.INBOUND_TAG)]))
  }

  lemma RulesAreTagged(rules: seq<R.RoutingRule>)
    ensures forall x :: x in R.CustomRules(rules) + [R.DefaultRule] ==> Tagged(x)
  {
    CustomRuleMembers(rules);
  }

  lemma TaggedConfigNamesTags(config: Fields, rules: seq<Json>)
    requires GetObj(config, Routing).Some? && Get(GetObj(config, Routing).value, Rules) == Some(Arr(rules))
    requires forall x :: x in rules ==> Tagged(x)
    ensures RulesNameTags(config) && RulesNameTags(Decoded(config))
  {
    forall i | 0 <= i < |rules| ensures NamesTags(rules[i]) && NamesTags(RoundTrip(rules[i])) {
      assert rules[i] in rules;
      TaggedRuleStaysTagged(rules[i]);
    }
    DecodedTree(config, Routing);
    DecodedTree(GetObj(config, Routing).value, Rules);
  }

  lemma RenderedRulesNameTags(input: R.RenderInput, reality: R.RealityConfig)
    ensures RulesNameTags(R.RenderedConfig(input, reality))
    ensures RulesNameTags(Decoded(R.RenderedConfig(input, reality)))
  {
    var sorted := R.SortInputs(input.subscriptions);
    var rules := R.CustomRules(input.routingRules) + [R.DefaultRule];
    ConfigLookups(
      reality.WithDefaults(), R.ClientsOf(R.Entries(sorted)), R.LogLevelOf(input.settings),
      R.SniffingOf(input.settings), R.OutboundList(input), rules, R.DnsOf(input.settings));
    RulesAreTagged(input.routingRules);
    TaggedConfigNamesTags(R.RenderedConfig(input, reality), rules);
  }

  lemma TaggedRuleStaysTagged(rule: Json)
    requires Tagged(rule)
    ensures NamesTags(rule) && NamesTags(RoundTrip(rule))
  {
    RoundTripKeepsShape(rule);
    DecodedMember(rule.fields, InboundTag);
    RoundTripKeepsShape(rule.fields[InboundTag]);
  }

  lemma RenderedOutboundsSupported(input: R.RenderInput, reality: R.RealityConfig)
    ensures OutboundsSupported(R.RenderedConfig(input, reality))
    ensures OutboundsSupported(Decoded(R.RenderedConfig(input, reality)))
  {
    var config := R.RenderedConfig(input, reality);
    var outbounds := R.OutboundList(input);
    ConfigLookups(
      reality.WithDefaults(), R.ClientsOf(R.Entries(R.SortInputs(input.subscriptions))), R.LogLevelOf(input.settings),
      R.SniffingOf(input.settings), outbounds, R.CustomRules(input.routingRules) + [R.DefaultRule],
      R.DnsOf(input.settings));
    RenderedOutboundsPass(input);
    ScannedOutboundsSupported(config, outbounds);
  }

  lemma ScannedOutboundsSupported(config: Fields, outbounds: seq<Json>)
    requires Get(config, Outbounds) == Some(Arr(outbounds))
    requires ScanOutbounds(P.CheckedOutbounds(outbounds), {}, false).Ok?
    ensures OutboundsSupported(config) && OutboundsSupported(Decoded(config))
  {
    OutboundScansAgree(outbounds);
    DecodedTree(config, Outbounds);
    forall i | 0 <= i < |outbounds| ensures A.CheckOutbound(RoundTrip(outbounds[i])) == A.CheckOutbound(outbounds[i]) {
      OutboundIsStable(outbounds[i]);
    }
  }

  /** The two validators never disagree about a rendered config, before or after
      it went through JSON text. */
  lemma ValidatorsAgreeOnRendered(input: R.RenderInput, reality: R.RealityConfig)
    ensures P.CheckConfig(R.RenderedConfig(input, reality)).Ok? <==> A.CheckConfig(R.RenderedConfig(input, reality)).Ok?
    ensures P.CheckConfig(Decoded(R.RenderedConfig(input, reality))).Ok? <==>
            A.CheckConfig(Decoded(R.RenderedConfig(input, reality))).Ok?
  {
    RenderedRulesNameTags(input, reality);
    RenderedOutboundsSupported(input, reality);
    ValidatorsAgreeUpTo(R.RenderedConfig(input, reality));
    ValidatorsAgreeUpTo(Decoded(R.RenderedConfig(input, reality)));
  }

  // ---- numbers in rendered payloads ----

  lemma TameClients(inputs: seq<R.SubscriptionInput>)
    ensures Tame(Arr(R.ClientsOf(R.Entries(inputs))))
  {
    R.ClientsAreAligned(inputs);
    var clients := R.ClientsOf(R.Entries(inputs));
    forall i | 0 <= i < |clients| ensures Tame(clients[i]) {
      TameIfParts(clients[i]);
    }
    TameIfParts(Arr(clients));
  }

  lemma TameText(s: string)
    ensures Tame(Arr([Str(s)]))
  {
    TameIfParts(Arr([Str(s)]));
  }

  lemma TameInbound(reality: R.RealityConfig, clients: seq<Json>, sniffing: bool)
    requires Tame(Arr(clients)) && 0 < reality.vlessPort < TWO53
    ensures Tame(Obj(R.InboundFields(reality, clients, sniffing)))
  {
    var inbound := R.InboundFields(reality, clients, sniffing);
    TameText(reality.sni);
    TameText(reality.shortId);
    TameIfParts(Obj(R.RealityFields(reality)));
    TameIfParts(inbound[StreamSettings]);
    TameIfParts(Arr([]));
    TameIfParts(inbound[Settings]);
    TameIfParts(inbound[Sniffing].fields[DestOverride]);
    TameIfParts(inbound[Sniffing]);
    TameIfParts(Obj(inbound));
  }

  lemma TameRule(rule: R.RoutingRule)
    requires R.Recognised(rule)
    ensures Tame(Obj(R.RuleFields(rule)))
  {
    var matcher := R.RuleMatcher(rule).value.1;
    if matcher.Arr? { TameText(matcher.items[0].s); }
    TameText(R.INBOUND_TAG);
    TameIfParts(Obj(R.RuleFields(rule)));
  }

  lemma TameRules(rules: seq<R.RoutingRule>)
    ensures Tame(Arr(R.CustomRules(rules) + [R.DefaultRule]))
  {
    CustomRuleMembers(rules);
    var all := R.CustomRules(rules) + [R.DefaultRule];
    TameText(R.INBOUND_TAG);
    TameIfParts(R.DefaultRule);
    forall i | 0 <= i < |all| ensures Tame(all[i]) {
      if i < |all| - 1 {
        assert all[i] in R.CustomRules(rules);
        var j :| 0 <= j < |rules| && R.Recognised(rules[j]) && all[i] == Obj(R.RuleFields(rules[j]));
        TameRule(rules[j]);
      }
    }
    TameIfParts(Arr(all));
  }

  lemma TameWarp(w: R.WarpCredentials)
    ensures Tame(R.WarpOutbound(w))
  {
    var settings := R.WarpOutbound(w).fields[Settings];
    TameText(w.address);
    TameIfParts(settings.fields[Peers].items[0]);
    TameIfParts(settings.fields[Peers]);
    TameIfParts(settings);
    TameIfParts(R.WarpOutbound(w));
  }

  lemma TameOutbounds(input: R.RenderInput)
    ensures Tame(Arr(R.OutboundList(input)))
  {
    TameIfParts(R.DirectOutbound);
    TameIfParts(R.BlockOutbound);
    if input.warp.Some? { TameWarp(input.warp.value); }
    TameIfParts(Arr(R.OutboundList(input)));
  }

  lemma TamePolicy()
    ensures Tame(Obj(R.PolicyFields))
  {
    TameIfParts(R.PolicyFields[Levels].fields[Other("0")]);
    TameIfParts(R.PolicyFields[Levels]);
    TameIfParts(R.PolicyFields[System]);
    TameIfParts(Obj(R.PolicyFields));
  }

  lemma TameSmallTrees(logLevel: string, rules: seq<Json>, dns: seq<string>)
    requires Tame(Arr(rules))
    ensures Tame(Obj(map[Loglevel := Str(logLevel)])) && Tame(Obj(map[]))
    ensures Tame(Obj(map[DomainStrategy := Str("AsIs"), Rules := Arr(rules)]))
    ensures Tame(Obj(map[Servers := Arr(R.Strings(dns))]))
  {
    TameIfParts(Obj(map[Loglevel := Str(logLevel)]));
    TameIfParts(Obj(map[]));
    TameIfParts(Obj(map[DomainStrategy := Str("AsIs"), Rules := Arr(rules)]));
    TameIfParts(Arr(R.Strings(dns)));
    TameIfParts(Obj(map[Servers := Arr(R.Strings(dns))]));
  }

  lemma TameConfig(
    reality: R.RealityConfig, clients: seq<Json>, logLevel: string, sniffing: bool,
    outbounds: seq<Json>, rules: seq<Json>, dns: seq<string>)
    requires Tame(Arr(clients)) && Tame(Arr(outbounds)) && Tame(Arr(rules)) && 0 < reality.vlessPort < TWO53
    ensures TameFields(R.ConfigFields(reality, clients, logLevel, sniffing, outbounds, rules, dns))
  {
    TamePolicy();
    TameInbound(reality, clients, sniffing);
    TameIfParts(Arr([Obj(R.InboundFields(reality, clients, sniffing))]));
    TameSmallTrees(logLevel, rules, dns);
    TameIfParts(Obj(R.ConfigFields(reality, clients, logLevel, sniffing, outbounds, rules, dns)));
  }

  lemma TameRenderedConfig(input: R.RenderInput, reality: R.RealityConfig)
    requires reality.vlessPort < TWO53
    ensures TameFields(R.RenderedConfig(input, reality))
  {
    var sorted := R.SortInputs(input.subscriptions);
    TameClients(sorted);
    TameOutbounds(input);
    TameRules(input.routingRules);
    TameConfig(
      reality.WithDefaults(), R.ClientsOf(R.Entries(sorted)), R.LogLevelOf(input.settings),
      R.SniffingOf(input.settings), R.OutboundList(input), R.CustomRules(input.routingRules) + [R.DefaultRule],
      R.DnsOf(input.settings));
  }

  /** The limits of a subscription as JSON text carries them. */
  predicate LimitsSurvive(s: R.SubscriptionInput) {
    IntSurvives(s.deviceLimit) && (s.trafficLimitBytes.Some? ==> IntSurvives(s.trafficLimitBytes.value))
  }

  predicate AllLimitsSurvive(inputs: seq<R.SubscriptionInput>) {
    forall i :: 0 <= i < |inputs| ==> LimitsSurvive(inputs[i])
  }

  lemma EntrySurvivesIff(s: R.SubscriptionInput)
    ensures IntsSurvive(R.SummaryEntry(s)) <==> LimitsSurvive(s)
    ensures IntsSurvive(Obj(R.AccessEntryFields(s))) <==> LimitsSurvive(s)
    ensures WellFormed(R.SummaryEntry(s)) && WellFormed(Obj(R.AccessEntryFields(s)))
  {
    SummarySurvivesIff(s);
    AccessSurvivesIff(s);
  }

  lemma SummarySurvivesIff(s: R.SubscriptionInput)
    ensures IntsSurvive(R.SummaryEntry(s)) <==> LimitsSurvive(s)
    ensures WellFormed(R.SummaryEntry(s))
  {
    LimitedFieldsSurviveIff(R.SummaryEntry(s).fields, s);
  }

  lemma AccessSurvivesIff(s: R.SubscriptionInput)
    ensures IntsSurvive(Obj(R.AccessEntryFields(s))) <==> LimitsSurvive(s)
    ensures WellFormed(Obj(R.AccessEntryFields(s)))
  {
    LimitedFieldsSurviveIff(R.AccessEntryFields(s), s);
  }

  lemma LimitedFieldsSurviveIff(fields: Fields, s: R.SubscriptionInput)
    requires Get(fields, DeviceLimit) == Some(Int(s.deviceLimit))
    requires Get(fields, TrafficLimitBytes) == Some(R.OptionalNumber(s.trafficLimitBytes))
    requires forall k :: k in fields && k != DeviceLimit && k != TrafficLimitBytes ==> fields[k].Str?
    ensures IntsSurvive(Obj(fields)) <==> LimitsSurvive(s)
    ensures WellFormed(Obj(fields))
  {
    TwoMembersDecide(fields, DeviceLimit, TrafficLimitBytes);
  }

  lemma EntriesSurviveIff(inputs: seq<R.SubscriptionInput>)
    ensures IntsSurvive(Arr(R.Summaries(inputs))) <==> AllLimitsSurvive(inputs)
    ensures IntsSurvive(Arr(R.Entries(inputs))) <==> AllLimitsSurvive(inputs)
    ensures WellFormed(Arr(R.Summaries(inputs))) && WellFormed(Arr(R.Entries(inputs)))
  {
    var summaries, entries := R.Summaries(inputs), R.Entries(inputs);
    forall i | 0 <= i < |inputs|
      ensures IntsSurvive(summaries[i]) <==> LimitsSurvive(inputs[i])
      ensures IntsSurvive(entries[i]) <==> LimitsSurvive(inputs[i])
      ensures WellFormed(summaries[i]) && WellFormed(entries[i])
    {
      EntrySurvivesIff(inputs[i]);
    }
  }

  lemma LimitsForgetOrder(s: seq<R.SubscriptionInput>, t: seq<R.SubscriptionInput>)
    requires multiset(s) == multiset(t) && AllLimitsSurvive(s)
    ensures AllLimitsSurvive(t)
  {
    forall i | 0 <= i < |t| ensures LimitsSurvive(t[i]) {
      assert t[i] in multiset(s);
      var j :| 0 <= j < |s| && s[j] == t[i];
    }
  }

  lemma NodeIsTame(id: string, hostname: string, region: string, countryCode: string)
    ensures Tame(Obj(map[
      Id := Str(id), Hostname := Str(hostname), Region := Str(region), CountryCode := Str(countryCode)]))
  {
    TameIfParts(Obj(map[
      Id := Str(id), Hostname := Str(hostname), Region := Str(region), CountryCode := Str(countryCode)]));
  }

  lemma TransportIsTame()
    ensures Tame(Obj(map[Network := Str("tcp"), Security := Str("reality"), Xtls := Str("vision")]))
  {
    TameIfParts(Obj(map[Network := Str("tcp"), Security := Str("reality"), Xtls := Str("vision")]));
  }

  /** Every member of a rendered payload but the two lists is a leaf, or one of three trees. */
  lemma PayloadKinds(
    input: R.RenderInput, config: Fields, summaries: seq<Json>, entries: seq<Json>, text: string)
    requires 0 < input.revisionNumber <= MAX_INT32 && 0 <= input.rollbackTarget <= MAX_INT32
    ensures
      var payload := R.PayloadFields(input, config, summaries, entries, text);
      && Get(payload, SubscriptionInputs) == Some(Arr(summaries)) && Get(payload, AccessEntries) == Some(Arr(entries))
      && forall k :: k in payload && k != SubscriptionInputs && k != AccessEntries ==>
           || Leaf(payload[k])
           || (k == Node && payload[k] == Obj(map[
                 Id := Str(input.nodeId), Hostname := Str(input.hostname),
                 Region := Str(input.region), CountryCode := Str(input.countryCode)]))
           || (k == Transport && payload[k] == Obj(map[
                 Network := Str("tcp"), Security := Str("reality"), Xtls := Str("vision")]))
           || (k == Config && payload[k] == Obj(config))
  {
  }

  lemma ListsDecide(payload: Fields, summaries: seq<Json>, entries: seq<Json>)
    requires Get(payload, SubscriptionInputs) == Some(Arr(summaries)) && Get(payload, AccessEntries) == Some(Arr(entries))
    requires WellFormed(Arr(summaries)) && WellFormed(Arr(entries))
    requires forall k :: k in payload && k != SubscriptionInputs && k != AccessEntries ==>
      Leaf(payload[k]) || Tame(payload[k])
    ensures WellFormed(Obj(payload))
    ensures IntsSurvive(Obj(payload)) <==> IntsSurvive(Arr(summaries)) && IntsSurvive(Arr(entries))
  {
    TwoMembersDecide(payload, SubscriptionInputs, AccessEntries);
  }

  lemma PayloadSurvivesIff(
    input: R.RenderInput, config: Fields, summaries: seq<Json>, entries: seq<Json>, text: string)
    requires TameFields(config) && WellFormed(Arr(summaries)) && WellFormed(Arr(entries))
    requires 0 < input.revisionNumber <= MAX_INT32 && 0 <= input.rollbackTarget <= MAX_INT32
    ensures WellFormed(Obj(R.PayloadFields(input, config, summaries, entries, text)))
    ensures IntsSurvive(Obj(R.PayloadFields(input, config, summaries, entries, text))) <==>
            IntsSurvive(Arr(summaries)) && IntsSurvive(Arr(entries))
  {
    PayloadKinds(input, config, summaries, entries, text);
    NodeIsTame(input.nodeId, input.hostname, input.region, input.countryCode);
    TransportIsTame();
    ListsDecide(R.PayloadFields(input, config, summaries, entries, text), summaries, entries);
  }

  /** A rendered payload survives JSON text exactly when every limit in it does. */
  lemma RenderedSurvivesIff(input: R.RenderInput, reality: R.RealityConfig)
    requires reality.vlessPort < TWO53
    requires 0 < input.revisionNumber <= MAX_INT32 && 0 <= input.rollbackTarget <= MAX_INT32
    ensures WellFormed(Obj(R.RenderPayload(input, reality)))
    ensures IntsSurvive(Obj(R.RenderPayload(input, reality))) <==> AllLimitsSurvive(input.subscriptions)
  {
    var sorted := R.SortInputs(input.subscriptions);
    TameRenderedConfig(input, reality);
    EntriesSurviveIff(sorted);
    PayloadSurvivesIff(
      input, R.RenderedConfig(input, reality), R.Summaries(sorted), R.Entries(sorted), R.DeployText(input));
    if AllLimitsSurvive(sorted) { LimitsForgetOrder(sorted, input.subscriptions); }
    if AllLimitsSurvive(input.subscriptions) { LimitsForgetOrder(input.subscriptions, sorted); }
  }

  lemma RenderedShape(
    input: R.RenderInput, config: Fields, summaries: seq<Json>, entries: seq<Json>, text: string)
    ensures
      var payload := R.PayloadFields(input, config, summaries, entries, text);
      && StandardHeader(payload) && Get(payload, RevisionNumber) == Some(Int(input.revisionNumber))
      && GetObj(payload, Node).Some? && GetObj(payload, Transport).Some?
      && GetArr(payload, SubscriptionInputs).Some? && GetArr(payload, AccessEntries).Some?
      && GetObj(payload, Config) == Some(config)
  {
  }

  lemma RenderedIsDeployable(input: R.RenderInput, reality: R.RealityConfig)
    requires reality.vlessPort < TWO53 && Renderable(input, reality)
    requires 0 < input.revisionNumber <= MAX_INT32 && 0 <= input.rollbackTarget <= MAX_INT32
    ensures Deployable(R.RenderPayload(input, reality), input.revisionNumber)
  {
    var sorted := R.SortInputs(input.subscriptions);
    RenderedShape(
      input, R.RenderedConfig(input, reality), R.Summaries(sorted), R.Entries(sorted), R.DeployText(input));
    TameRenderedConfig(input, reality);
    RenderedSurvivesIff(input, reality);
    RenderedConfigPassesIff(input, reality);
    ValidatorsAgreeOnRendered(input, reality);
  }

  // ---- rollbacks ----

  lemma OverwrittenMembers(clone: Fields, input: R.RollbackInput, payload: Fields)
    requires payload == clone
      [RevisionNumber := Int(input.revisionNumber)]
      [RollbackTarget := Int(input.rollbackTarget)]
      [OperationKind := Str(R.OPERATION_ROLLBACK)]
      [SourceRevisionId := Str(input.sourceRevisionId)]
      [SourceRevisionNumber := Int(input.sourceRevisionNumber)]
      [ConfigKind := Str(R.CONFIG_KIND)]
      [ConfigText := Str(R.RollbackText(input))]
    requires 0 < input.revisionNumber <= MAX_INT32 && 0 <= input.rollbackTarget <= MAX_INT32
    requires 0 < input.sourceRevisionNumber <= MAX_INT32
    ensures forall k :: k !in R.OVERWRITTEN ==> Get(payload, k) == Get(clone, k)
    ensures forall k :: k in R.OVERWRITTEN ==> k in payload && Leaf(payload[k])
    ensures Get(payload, RevisionNumber) == Some(Int(input.revisionNumber))
    ensures Get(payload, OperationKind) == Some(Str(R.OPERATION_ROLLBACK))
    ensures Get(payload, ConfigKind) == Some(Str(R.CONFIG_KIND))
  {
  }

  /** Overwriting members by leaves keeps a decoded object well formed and surviving. */
  lemma OverwrittenSurvives(clone: Fields, payload: Fields, keys: set<Key>)
    requires WellFormed(Obj(clone)) && IntsSurvive(Obj(clone))
    requires forall k :: k !in keys ==> Get(payload, k) == Get(clone, k)
    requires forall k :: k in keys ==> k in payload && Leaf(payload[k])
    ensures WellFormed(Obj(payload)) && IntsSurvive(Obj(payload))
  {
    MembersSurviveIff(clone);
    forall k | k in payload ensures WellFormed(payload[k]) && IntsSurvive(payload[k]) {
      if k in keys { LeafIsTame(payload[k]); } else { assert Get(clone, k) == Some(payload[k]); }
    }
    MembersSurviveIff(payload);
  }

  lemma DecodedSurvives(fields: Fields)
    ensures WellFormed(Obj(Decoded(fields))) && IntsSurvive(Obj(Decoded(fields)))
    ensures SmallInts(Obj(Decoded(fields)))
  {
    MarshalIsProper(Obj(fields));
    DecodedIsWellFormed(Marshal(Obj(fields)));
    NoIntsAfterDecoding(Marshal(Obj(fields)));
  }

  lemma DecodedHeader(target: Fields)
    requires StandardHeader(target)
    ensures GetStr(Decoded(target), SchemaVersion) == Some(R.SCHEMA_VERSION)
    ensures GetStr(Decoded(target), GeneratedBy) == Some(R.GENERATED_BY)
    ensures GetStr(Decoded(target), Protocol) == Some(R.PROTOCOL_VLESS)
    ensures GetStr(Decoded(target), CoreType) == Some(R.CORE_TYPE_XRAY)
  {
    DecodedText(target, SchemaVersion);
    DecodedText(target, GeneratedBy);
    DecodedText(target, Protocol);
    DecodedText(target, CoreType);
  }

  lemma DecodedParts(target: Fields, number: int)
    requires Deployable(target, number)
    ensures
      var stored := Decoded(target);
      && GetObj(stored, Node).Some? && GetObj(stored, Transport).Some?
      && GetArr(stored, SubscriptionInputs).Some? && GetArr(stored, AccessEntries).Some?
      && GetObj(stored, Config) == Some(Decoded(GetObj(target, Config).value))
      && TameFields(GetObj(stored, Config).value)
      && A.CheckConfig(GetObj(stored, Config).value).Ok?
  {
    DecodedTree(target, Node);
    DecodedTree(target, Transport);
    DecodedTree(target, SubscriptionInputs);
    DecodedTree(target, AccessEntries);
    DecodedTree(target, Config);
    AgentVerdictIsStable(GetObj(target, Config).value);
    DecodedSurvives(GetObj(target, Config).value);
  }

  /** The members a rollback changes, and those it keeps. */
  ghost predicate Overwrites(stored: Fields, payload: Fields, next: int) {
    && Get(payload, RevisionNumber) == Some(Int(next))
    && Get(payload, OperationKind) == Some(Str(R.OPERATION_ROLLBACK))
    && Get(payload, ConfigKind) == Some(Str(R.CONFIG_KIND))
    && (forall k :: k !in R.OVERWRITTEN ==> Get(payload, k) == Get(stored, k))
    && (forall k :: k in R.OVERWRITTEN ==> k in payload && Leaf(payload[k]))
  }

  lemma OverwrittenHeader(target: Fields, payload: Fields, next: int)
    requires StandardHeader(target) && Overwrites(Decoded(target), payload, next)
    ensures StandardHeader(payload)
  {
    DecodedHeader(target);
    assert Get(payload, SchemaVersion) == Get(Decoded(target), SchemaVersion);
    assert Get(payload, GeneratedBy) == Get(Decoded(target), GeneratedBy);
    assert Get(payload, Protocol) == Get(Decoded(target), Protocol);
    assert Get(payload, CoreType) == Get(Decoded(target), CoreType);
  }

  lemma KeptParts(stored: Fields, payload: Fields, next: int)
    requires Overwrites(stored, payload, next)
    ensures GetObj(payload, Node) == GetObj(stored, Node)
    ensures GetObj(payload, Transport) == GetObj(stored, Transport)
    ensures GetObj(payload, Config) == GetObj(stored, Config)
    ensures GetArr(payload, SubscriptionInputs) == GetArr(stored, SubscriptionInputs)
    ensures GetArr(payload, AccessEntries) == GetArr(stored, AccessEntries)
  {
    assert Get(payload, Config) == Get(stored, Config);
    assert Get(payload, Node) == Get(stored, Node);
    assert Get(payload, Transport) == Get(stored, Transport);
    assert Get(payload, SubscriptionInputs) == Get(stored, SubscriptionInputs);
    assert Get(payload, AccessEntries) == Get(stored, AccessEntries);
  }

  lemma OverwrittenParts(target: Fields, number: int, payload: Fields, next: int)
    requires Deployable(target, number) && Overwrites(Decoded(target), payload, next)
    ensures GetObj(payload, Node).Some? && GetObj(payload, Transport).Some?
    ensures GetArr(payload, SubscriptionInputs).Some? && GetArr(payload, AccessEntries).Some?
    ensures GetObj(payload, Config) == Some(Decoded(GetObj(target, Config).value))
    ensures TameFields(GetObj(payload, Config).value) && A.CheckConfig(GetObj(payload, Config).value).Ok?
  {
    DecodedParts(target, number);
    KeptParts(Decoded(target), payload, next);
  }

  lemma OverwrittenIsDeployable(target: Fields, number: int, payload: Fields, next: int)
    requires Deployable(target, number) && Overwrites(Decoded(target), payload, next)
    ensures Deployable(payload, next) && IntsSurvive(Obj(payload))
  {
    OverwrittenHeader(target, payload, next);
    OverwrittenParts(target, number, payload, next);
    DecodedSurvives(target);
    OverwrittenSurvives(Decoded(target), payload, R.OVERWRITTEN);
  }

  /** A rollback of a stored deployable payload is deployable, always survives
      JSON text, and passes the panel's check when the stored config does. */
  lemma RollbackIsDeployable(target: Fields, number: int, input: R.RollbackInput)
    requires Deployable(target, number)
    requires 0 < input.revisionNumber <= MAX_INT32 && 0 <= input.rollbackTarget <= MAX_INT32
    requires 0 < input.sourceRevisionNumber <= MAX_INT32
    ensures Deployable(R.RollbackPayload(Decoded(target), input), input.revisionNumber)
    ensures IntsSurvive(Obj(R.RollbackPayload(Decoded(target), input)))
    ensures P.CheckPayload(R.RollbackPayload(Decoded(target), input)) ==
            P.CheckConfig(Decoded(GetObj(target, Config).value))
  {
    var payload := R.RollbackPayload(Decoded(target), input);
    RollbackOverwrites(target, input);
    OverwrittenIsDeployable(target, number, payload, input.revisionNumber);
    OverwrittenParts(target, number, payload, input.revisionNumber);
    HeaderedPayloadPassesIff(payload, GetObj(payload, Config).value);
  }

  lemma RollbackOverwrites(target: Fields, input: R.RollbackInput)
    requires 0 < input.revisionNumber <= MAX_INT32 && 0 <= input.rollbackTarget <= MAX_INT32
    requires 0 < input.sourceRevisionNumber <= MAX_INT32
    ensures Overwrites(Decoded(target), R.RollbackPayload(Decoded(target), input), input.revisionNumber)
  {
    DecodedIsStable(target);
    OverwrittenMembers(Decoded(target), input, R.RollbackPayload(Decoded(target), input));
  }

  lemma {:induction false} NoIntsAfterDecoding(d: Doc)
    ensures SmallInts(Unmarshal(d))
  {
    match d
    case DocArray(items) =>
      forall i | 0 <= i < |items| ensures SmallInts(Unmarshal(items[i])) { NoIntsAfterDecoding(items[i]); }
    case DocObject(fields) =>
      forall k | k in fields ensures SmallInts(Unmarshal(fields[k])) { NoIntsAfterDecoding(fields[k]); }
    case _ =>
  }
}
