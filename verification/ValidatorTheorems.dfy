/** How the two validators compare, on any config and on rendered ones. */
module ValidatorTheorems {
  import opened Text
  import opened Json
  import opened XrayChecks
  import R = Render
  import P = PanelValidator
  import A = AgentValidator

  // ---- the two validators on any config ----

  /** What only the panel asks for: known outbound protocols. */
  predicate OutboundsSupported(config: Fields) {
    var outbounds := GetArr(config, Outbounds);
    outbounds.Some? ==>
      forall i :: 0 <= i < |outbounds.value| && A.CheckOutbound(outbounds.value[i]).Ok? ==>
        P.Supported(A.CheckOutbound(outbounds.value[i]).value.1)
  }

  predicate NamesTags(rule: Json) {
    rule.Obj? ==>
      InboundTag in rule.fields && (rule.fields[InboundTag].Arr? ==> |rule.fields[InboundTag].items| > 0)
  }

  /** What only the agent asks for: every routing rule lists inbound tags. */
  predicate RulesNameTags(config: Fields) {
    var routing := GetObj(config, Routing);
    routing.Some? ==>
      var rules := GetArr(routing.value, Rules);
      rules.Some? ==> forall i :: 0 <= i < |rules.value| ==> NamesTags(rules.value[i])
  }

  lemma OutboundChecksAgree(outbound: Json)
    ensures P.CheckOutbound(outbound).Ok? <==>
      A.CheckOutbound(outbound).Ok? && P.Supported(A.CheckOutbound(outbound).value.1)
    ensures P.CheckOutbound(outbound).Ok? ==> P.CheckOutbound(outbound) == A.CheckOutbound(outbound)
  {
  }

  lemma OutboundScansAgree(outbounds: seq<Json>)
    ensures ScanOutbounds(P.CheckedOutbounds(outbounds), {}, false).Ok? <==>
      && ScanOutbounds(A.CheckedOutbounds(outbounds), {}, false).Ok?
      && forall i :: 0 <= i < |outbounds| && A.CheckOutbound(outbounds[i]).Ok? ==>
           P.Supported(A.CheckOutbound(outbounds[i]).value.1)
    ensures ScanOutbounds(P.CheckedOutbounds(outbounds), {}, false).Ok? ==>
      ScanOutbounds(P.CheckedOutbounds(outbounds), {}, false) == ScanOutbounds(A.CheckedOutbounds(outbounds), {}, false)
  {
    var p, a := P.CheckedOutbounds(outbounds), A.CheckedOutbounds(outbounds);
    forall i | 0 <= i < |outbounds|
      ensures p[i].Ok? <==> a[i].Ok? && P.Supported(a[i].value.1)
      ensures p[i].Ok? ==> p[i] == a[i]
    {
      OutboundChecksAgree(outbounds[i]);
    }
    ScanAccepts(p, {}, false);
    ScanAccepts(a, {}, false);
    if forall i :: 0 <= i < |outbounds| ==> p[i].Ok? {
      assert p == a;
    }
    if ScanOutbounds(a, {}, false).Ok? {
      assert forall i :: 0 <= i < |outbounds| ==> a[i].Ok? && a[i] == A.CheckOutbound(outbounds[i]);
    }
  }

  lemma RuleChecksAgree(rule: Json, inboundTags: set<string>, outboundTags: set<string>)
    ensures P.CheckRule(rule, inboundTags, outboundTags).Ok? && NamesTags(rule) <==>
            A.CheckRule(rule, inboundTags, outboundTags).Ok?
  {
    var head := CheckRuleHead(rule, outboundTags);
    if head.Ok? {
      var tags := StringArray(Get(head.value, InboundTag));
      assert tags.Some? ==> |tags.value| == |head.value[InboundTag].items|;
    }
  }

  lemma RuleListsAgree(rules: seq<Json>, inboundTags: set<string>, outboundTags: set<string>)
    ensures P.CheckRules(rules, inboundTags, outboundTags).Ok?
            && (forall i :: 0 <= i < |rules| ==> NamesTags(rules[i])) <==>
            A.CheckRules(rules, inboundTags, outboundTags).Ok?
  {
    var p := seq(|rules|, i requires 0 <= i < |rules| => P.CheckRule(rules[i], inboundTags, outboundTags));
    var a := seq(|rules|, i requires 0 <= i < |rules| => A.CheckRule(rules[i], inboundTags, outboundTags));
    forall i | 0 <= i < |rules| ensures p[i].Ok? && NamesTags(rules[i]) <==> a[i].Ok? {
      RuleChecksAgree(rules[i], inboundTags, outboundTags);
    }
    FirstFailureIff(p);
    FirstFailureIff(a);
  }

  lemma TailsAgree(config: Fields, tag: string)
    ensures P.CheckTail(config, tag).Ok? && RulesNameTags(config) <==>
            A.CheckTail(config, tag).Ok? && OutboundsSupported(config)
  {
    var outbounds := GetArr(config, Outbounds);
    if outbounds.Some? {
      OutboundScansAgree(outbounds.value);
      var scan := ScanOutbounds(A.CheckedOutbounds(outbounds.value), {}, false);
      var routing := GetObj(config, Routing);
      if scan.Ok? && routing.Some? && GetArr(routing.value, Rules).Some? {
        RuleListsAgree(GetArr(routing.value, Rules).value, {tag}, scan.value);
      }
    }
  }

  /** On any config at all: the panel accepts and every rule lists inbound tags,
      exactly when the agent accepts and every outbound protocol is supported. */
  lemma ValidatorsAgreeUpTo(config: Fields)
    ensures P.CheckConfig(config).Ok? && RulesNameTags(config) <==>
            A.CheckConfig(config).Ok? && OutboundsSupported(config)
  {
    var head := CheckConfigHead(config);
    if head.Ok? && CheckInbound(head.value).Ok? {
      TailsAgree(config, CheckInbound(head.value).value);
    }
  }

  // ---- the panel's verdict on a rendered payload ----

  lemma StartsVisible(s: string)
    requires s != "" && !IsSpace(s[0])
    ensures !Blank(s)
  {
  }

  lemma ClientPassesIff(fields: Fields, id: string)
    requires Get(fields, Id) == Some(Str(id)) && Get(fields, Email) == Some(Str("subscription:" + id))
    requires Get(fields, Flow) == Some(Str(R.VLESS_FLOW)) && Get(fields, Level) == Some(Int(0))
    ensures CheckClientItem(Obj(fields)).Ok? <==> !Blank(id)
  {
    StartsVisible("subscription:" + id);
    StartsVisible(R.VLESS_FLOW);
  }

  lemma RenderedClientsPassIff(inputs: seq<R.SubscriptionInput>)
    ensures CheckClients(R.ClientsOf(R.Entries(inputs))).Ok? <==>
            AllIdsVisible(inputs)
  {
    var clients := R.ClientsOf(R.Entries(inputs));
    R.ClientsAreAligned(inputs);
    var verdicts := seq(|clients|, i requires 0 <= i < |clients| => CheckClientItem(clients[i]));
    forall i | 0 <= i < |inputs| ensures verdicts[i].Ok? <==> !Blank(inputs[i].subscriptionId) {
      ClientPassesIff(clients[i].fields, inputs[i].subscriptionId);
    }
    FirstFailureIff(verdicts);
  }

  lemma RenderedRealityPassesIff(reality: R.RealityConfig)
    ensures CheckReality(R.RealityFields(reality)).Ok? <==> !Blank(reality.dest) && !Blank(reality.privateKey)
  {
    var fields := R.RealityFields(reality);
    assert StringArray(Get(fields, ServerNames)).value == [reality.sni];
    assert StringArray(Get(fields, ShortIds)).Some?;
  }

  lemma InboundPassesIff(inbound: Fields, settings: Fields, stream: Fields, clients: seq<Json>, reality: Fields, port: int)
    requires Get(inbound, Tag) == Some(Str(R.INBOUND_TAG)) && Get(inbound, Protocol) == Some(Str("vless"))
    requires Get(inbound, Port) == Some(Int(port)) && port > 0
    requires Get(inbound, Settings) == Some(Obj(settings)) && Get(inbound, StreamSettings) == Some(Obj(stream))
    requires Get(settings, Decryption) == Some(Str("none")) && Get(settings, Clients) == Some(Arr(clients))
    requires Get(stream, Network) == Some(Str("tcp")) && Get(stream, Security) == Some(Str("reality"))
    requires Get(stream, RealitySettings) == Some(Obj(reality))
    ensures CheckInbound(inbound).Ok? <==> CheckClients(clients).Ok? && CheckReality(reality).Ok?
    ensures CheckInbound(inbound).Ok? ==> CheckInbound(inbound).value == R.INBOUND_TAG
  {
    StartsVisible(R.INBOUND_TAG);
    StartsVisible("vless");
    StartsVisible("none");
    StartsVisible("tcp");
    StartsVisible("reality");
    assert CheckSettings(inbound) == Ok(clients);
    assert CheckInboundHead(inbound) == Ok(clients);
    assert CheckStream(inbound) == CheckReality(reality);
  }

  lemma RenderedInboundPassesIff(reality: R.RealityConfig, clients: seq<Json>, sniffing: bool)
    requires reality.vlessPort > 0
    ensures CheckInbound(R.InboundFields(reality, clients, sniffing)).Ok? <==>
            CheckClients(clients).Ok? && !Blank(reality.dest) && !Blank(reality.privateKey)
    ensures CheckInbound(R.InboundFields(reality, clients, sniffing)).Ok? ==>
            CheckInbound(R.InboundFields(reality, clients, sniffing)).value == R.INBOUND_TAG
  {
    var inbound := R.InboundFields(reality, clients, sniffing);
    RenderedRealityPassesIff(reality);
    InboundPassesIff(
      inbound, inbound[Settings].fields, inbound[StreamSettings].fields, clients,
      R.RealityFields(reality), reality.vlessPort);
  }

  /** The tags of the rendered outbounds. */
  function TagsOf(input: R.RenderInput): set<string> {
    {"direct"}
    + (if R.NeedsBlock(input.routingRules) then {"block"} else {})
    + (if input.warp.Some? then {"warp"} else {})
  }

  lemma OutboundChecks(outbound: Json, tag: string, protocol: string)
    requires outbound.Obj? && Get(outbound.fields, Tag) == Some(Str(tag)) && !Blank(tag)
    requires Get(outbound.fields, Protocol) == Some(Str(protocol)) && !Blank(protocol) && P.Supported(protocol)
    ensures P.CheckOutbound(outbound) == Ok((tag, protocol))
  {
  }

  lemma DirectChecks()
    ensures P.CheckOutbound(R.DirectOutbound) == Ok(DirectFreedom)
  {
    StartsVisible("direct");
    StartsVisible("freedom");
    OutboundChecks(R.DirectOutbound, "direct", "freedom");
  }

  lemma BlockChecks()
    ensures P.CheckOutbound(R.BlockOutbound) == Ok(("block", "blackhole"))
  {
    StartsVisible("block");
    StartsVisible("blackhole");
    OutboundChecks(R.BlockOutbound, "block", "blackhole");
  }

  lemma WarpChecks(w: R.WarpCredentials)
    ensures P.CheckOutbound(R.WarpOutbound(w)) == Ok(("warp", "wireguard"))
  {
    StartsVisible("warp");
    StartsVisible("wireguard");
    OutboundChecks(R.WarpOutbound(w), "warp", "wireguard");
  }

  lemma OutboundsPass(outbounds: seq<Json>, block: seq<Json>, warp: seq<Json>, direct: Json)
    requires outbounds == [direct] + block + warp && |block| <= 1 && |warp| <= 1
    requires P.CheckOutbound(direct) == Ok(DirectFreedom)
    requires forall x :: x in block ==> P.CheckOutbound(x) == Ok(("block", "blackhole"))
    requires forall x :: x in warp ==> P.CheckOutbound(x) == Ok(("warp", "wireguard"))
    ensures ScanOutbounds(P.CheckedOutbounds(outbounds), {}, false) ==
            Ok({"direct"} + (if block != [] then {"block"} else {}) + (if warp != [] then {"warp"} else {}))
  {
    var checks := P.CheckedOutbounds(outbounds);
    assert checks[0] == Ok(DirectFreedom);
    if block != [] { assert block[0] in block && checks[1] == P.CheckOutbound(block[0]); }
    if warp != [] { assert warp[0] in warp && checks[1 + |block|] == P.CheckOutbound(warp[0]); }
    assert checks == [Ok(DirectFreedom)] + (if block != [] then [Ok(("block", "blackhole"))] else [])
      + (if warp != [] then [Ok(("warp", "wireguard"))] else []);
    KnownChecks(checks, block != [], warp != []);
  }

  lemma KnownChecks(checks: seq<Checked<Outbound>>, block: bool, warp: bool)
    requires checks == [Ok(DirectFreedom)] + (if block then [Ok(("block", "blackhole"))] else [])
      + (if warp then [Ok(("warp", "wireguard"))] else [])
    ensures ScanOutbounds(checks, {}, false) ==
            Ok({"direct"} + (if block then {"block"} else {}) + (if warp then {"warp"} else {}))
  {
    ScanAccepts(checks, {}, false);
    assert checks[0] == Ok(DirectFreedom);
    assert block ==> checks[1] == Ok(("block", "blackhole"));
    assert warp ==> checks[|checks| - 1] == Ok(("warp", "wireguard"));
    var tags := ScanOutbounds(checks, {}, false).value;
    assert tags == {"direct"} + (if block then {"block"} else {}) + (if warp then {"warp"} else {});
  }

  lemma RenderedOutboundsPass(input: R.RenderInput)
    ensures ScanOutbounds(P.CheckedOutbounds(R.OutboundList(input)), {}, false) == Ok(TagsOf(input))
  {
    DirectChecks();
    BlockChecks();
    if input.warp.Some? { WarpChecks(input.warp.value); }
    var block := if R.NeedsBlock(input.routingRules) then [R.BlockOutbound] else [];
    var warp := if input.warp.Some? then [R.WarpOutbound(input.warp.value)] else [];
    OutboundsPass(R.OutboundList(input), block, warp, R.DirectOutbound);
  }

  lemma RenderedRulePassesIff(fields: Fields, action: string, tags: set<string>)
    requires Type in fields && fields[Type] == Str("field")
    requires OutboundTag in fields && fields[OutboundTag] == Str(R.ActionToOutbound(action))
    requires InboundTag in fields && fields[InboundTag] == Arr([Str(R.INBOUND_TAG)])
    ensures P.CheckRule(Obj(fields), {R.INBOUND_TAG}, tags).Ok? <==> R.ActionToOutbound(action) in tags
  {
    StartsVisible("field");
    StartsVisible(R.ActionToOutbound(action));
    assert StringArray(Get(fields, InboundTag)).value == [R.INBOUND_TAG];
  }

  lemma {:induction false} CustomRuleMembers(rules: seq<R.RoutingRule>)
    ensures forall x :: x in R.CustomRules(rules) <==>
      exists i :: 0 <= i < |rules| && R.Recognised(rules[i]) && x == Obj(R.RuleFields(rules[i]))
  {
    if rules != [] {
      CustomRuleMembers(rules[..|rules| - 1]);
      assert rules == rules[..|rules| - 1] + [rules[|rules| - 1]];
    }
  }

  /** No recognised rule routes to a WARP outbound that is not there. */
  predicate WarpRulesCovered(input: R.RenderInput) {
    input.warp.None? ==>
      forall i :: 0 <= i < |input.routingRules| ==>
        !(R.Recognised(input.routingRules[i]) && input.routingRules[i].action == "warp")
  }

  lemma ActionIsCovered(input: R.RenderInput, i: nat)
    requires i < |input.routingRules|
    ensures R.ActionToOutbound(input.routingRules[i].action) in TagsOf(input) <==>
            (input.routingRules[i].action == "warp" ==> input.warp.Some?)
  {
    assert "warp" != "direct" && "warp" != "block" && "block" != "direct";
  }

  lemma RenderedRulesPassIff(input: R.RenderInput)
    ensures P.CheckRules(R.CustomRules(input.routingRules) + [R.DefaultRule], {R.INBOUND_TAG}, TagsOf(input)).Ok?
            <==> WarpRulesCovered(input)
  {
    var custom, tags := R.CustomRules(input.routingRules), TagsOf(input);
    var passes := PassesWith(tags);
    RulesPassIff(custom, R.DefaultRule, tags);
    DefaultRulePasses(input);
    CustomRuleMembers(input.routingRules);
    forall i | 0 <= i < |input.routingRules| && R.Recognised(input.routingRules[i])
      ensures passes(Obj(R.RuleFields(input.routingRules[i]))) <==>
              (input.routingRules[i].action == "warp" ==> input.warp.Some?)
    {
      CustomRulePassesIff(input, i);
    }
    RecognisedPassIff(input, custom, passes);
  }

  lemma DefaultRulePasses(input: R.RenderInput)
    ensures PassesWith(TagsOf(input))(R.DefaultRule)
  {
    RenderedRulePassesIff(R.DefaultRule.fields, "direct", TagsOf(input));
  }

  lemma CustomRulePassesIff(input: R.RenderInput, i: nat)
    requires i < |input.routingRules| && R.Recognised(input.routingRules[i])
    ensures PassesWith(TagsOf(input))(Obj(R.RuleFields(input.routingRules[i]))) <==>
      (input.routingRules[i].action == "warp" ==> input.warp.Some?)
  {
    RenderedRulePassesIff(R.RuleFields(input.routingRules[i]), input.routingRules[i].action, TagsOf(input));
    ActionIsCovered(input, i);
  }

  function PassesWith(tags: set<string>): Json -> bool {
    rule => RulePasses(rule, tags)
  }

  predicate RulePasses(rule: Json, tags: set<string>) {
    P.CheckRule(rule, {R.INBOUND_TAG}, tags).Ok?
  }

  lemma RulesPassIff(custom: seq<Json>, last: Json, tags: set<string>)
    ensures P.CheckRules(custom + [last], {R.INBOUND_TAG}, tags).Ok? <==>
      PassesWith(tags)(last) && forall x :: x in custom ==> PassesWith(tags)(x)
  {
    var rules := custom + [last];
    var verdicts := seq(|rules|, i requires 0 <= i < |rules| => P.CheckRule(rules[i], {R.INBOUND_TAG}, tags));
    FirstFailureIff(verdicts);
    forall i | 0 <= i < |rules| ensures verdicts[i].Ok? == RulePasses(rules[i], tags) {}
    assert rules[|custom|] == last;
    if forall x :: x in custom ==> RulePasses(x, tags) {
      forall i | 0 <= i < |custom| ensures verdicts[i].Ok? { assert rules[i] == custom[i] && custom[i] in custom; }
    }
    if forall i :: 0 <= i < |rules| ==> verdicts[i].Ok? {
      forall x | x in custom ensures RulePasses(x, tags) {
        var i :| 0 <= i < |custom| && custom[i] == x;
        assert rules[i] == x && verdicts[i].Ok?;
      }
    }
  }

  lemma RecognisedPassIff(input: R.RenderInput, custom: seq<Json>, passes: Json -> bool)
    requires forall x :: x in custom <==>
      exists i :: 0 <= i < |input.routingRules| && R.Recognised(input.routingRules[i])
        && x == Obj(R.RuleFields(input.routingRules[i]))
    requires forall i :: 0 <= i < |input.routingRules| && R.Recognised(input.routingRules[i]) ==>
      (passes(Obj(R.RuleFields(input.routingRules[i]))) <==>
       (input.routingRules[i].action == "warp" ==> input.warp.Some?))
    ensures (forall x :: x in custom ==> passes(x)) <==> WarpRulesCovered(input)
  {
    if !WarpRulesCovered(input) {
      var i :| 0 <= i < |input.routingRules| && R.Recognised(input.routingRules[i])
        && input.routingRules[i].action == "warp" && input.warp.None?;
      assert Obj(R.RuleFields(input.routingRules[i])) in custom;
    }
  }

  /** What the render input must satisfy for the panel to accept its payload. */
  predicate Renderable(input: R.RenderInput, reality: R.RealityConfig) {
    && AllIdsVisible(input.subscriptions)
    && !Blank(reality.WithDefaults().dest) && !Blank(reality.WithDefaults().privateKey)
    && WarpRulesCovered(input)
  }

  lemma RearrangedKeepsMembers(s: seq<R.SubscriptionInput>, t: seq<R.SubscriptionInput>)
    requires multiset(s) == multiset(t) && forall i :: 0 <= i < |s| ==> !Blank(s[i].subscriptionId)
    ensures forall i :: 0 <= i < |t| ==> !Blank(t[i].subscriptionId)
  {
    forall i | 0 <= i < |t| ensures !Blank(t[i].subscriptionId) {
      assert t[i] in multiset(s);
      var j :| 0 <= j < |s| && s[j] == t[i];
    }
  }

  predicate AllIdsVisible(inputs: seq<R.SubscriptionInput>) {
    forall i :: 0 <= i < |inputs| ==> !Blank(inputs[i].subscriptionId)
  }

  lemma SortKeepsMembers(inputs: seq<R.SubscriptionInput>)
    ensures AllIdsVisible(inputs) <==> AllIdsVisible(R.SortInputs(inputs))
  {
    var sorted := R.SortInputs(inputs);
    if AllIdsVisible(inputs) { RearrangedKeepsMembers(inputs, sorted); }
    if AllIdsVisible(sorted) { RearrangedKeepsMembers(sorted, inputs); }
  }

  lemma ConfigPassesIff(config: Fields, inbound: Fields, routing: Fields, outbounds: seq<Json>, rules: seq<Json>, tags: set<string>)
    requires GetObj(config, Log).Some? && GetObj(config, Policy).Some? && GetObj(config, Stats).Some?
    requires Get(config, Inbounds) == Some(Arr([Obj(inbound)])) && Get(config, Outbounds) == Some(Arr(outbounds))
    requires Get(config, Routing) == Some(Obj(routing)) && Get(routing, Rules) == Some(Arr(rules))
    requires |outbounds| > 0 && |rules| > 0
    requires CheckInbound(inbound).Ok? ==> CheckInbound(inbound).value == R.INBOUND_TAG
    requires ScanOutbounds(P.CheckedOutbounds(outbounds), {}, false) == Ok(tags)
    ensures P.CheckConfig(config).Ok? <==>
            CheckInbound(inbound).Ok? && P.CheckRules(rules, {R.INBOUND_TAG}, tags).Ok?
  {
    assert CheckConfigHead(config) == Ok(inbound);
    assert P.CheckTail(config, R.INBOUND_TAG) == P.CheckRules(rules, {R.INBOUND_TAG}, tags);
  }

  lemma ConfigLookups(
    reality: R.RealityConfig, clients: seq<Json>, logLevel: string, sniffing: bool,
    outbounds: seq<Json>, rules: seq<Json>, dns: seq<string>)
    ensures
      var config := R.ConfigFields(reality, clients, logLevel, sniffing, outbounds, rules, dns);
      && GetObj(config, Log).Some? && GetObj(config, Policy).Some? && GetObj(config, Stats).Some?
      && Get(config, Inbounds) == Some(Arr([Obj(R.InboundFields(reality, clients, sniffing))]))
      && Get(config, Outbounds) == Some(Arr(outbounds))
      && GetObj(config, Routing).Some? && Get(GetObj(config, Routing).value, Rules) == Some(Arr(rules))
  {
  }

  lemma RenderedConfigPassesIff(input: R.RenderInput, reality: R.RealityConfig)
    ensures P.CheckConfig(R.RenderedConfig(input, reality)).Ok? <==> Renderable(input, reality)
  {
    var full := reality.WithDefaults();
    var sorted := R.SortInputs(input.subscriptions);
    var clients, sniffing := R.ClientsOf(R.Entries(sorted)), R.SniffingOf(input.settings);
    var outbounds, rules := R.OutboundList(input), R.CustomRules(input.routingRules) + [R.DefaultRule];
    RenderedInboundPassesIff(full, clients, sniffing);
    RenderedClientsPassIff(sorted);
    SortKeepsMembers(input.subscriptions);
    RenderedOutboundsPass(input);
    RenderedRulesPassIff(input);
    GivenConfigPassesIff(
      full, clients, R.LogLevelOf(input.settings), sniffing, outbounds, rules, R.DnsOf(input.settings), TagsOf(input));
  }

  lemma GivenConfigPassesIff(
    reality: R.RealityConfig, clients: seq<Json>, logLevel: string, sniffing: bool,
    outbounds: seq<Json>, rules: seq<Json>, dns: seq<string>, tags: set<string>)
    requires |outbounds| > 0 && |rules| > 0
    requires CheckInbound(R.InboundFields(reality, clients, sniffing)).Ok? ==>
             CheckInbound(R.InboundFields(reality, clients, sniffing)).value == R.INBOUND_TAG
    requires ScanOutbounds(P.CheckedOutbounds(outbounds), {}, false) == Ok(tags)
    ensures P.CheckConfig(R.ConfigFields(reality, clients, logLevel, sniffing, outbounds, rules, dns)).Ok? <==>
            CheckInbound(R.InboundFields(reality, clients, sniffing)).Ok? && P.CheckRules(rules, {R.INBOUND_TAG}, tags).Ok?
  {
    ConfigLookups(reality, clients, logLevel, sniffing, outbounds, rules, dns);
    var config := R.ConfigFields(reality, clients, logLevel, sniffing, outbounds, rules, dns);
    ConfigPassesIff(
      config, R.InboundFields(reality, clients, sniffing), GetObj(config, Routing).value, outbounds, rules, tags);
  }

  /** The constant strings of a payload. */
  predicate StandardHeader(payload: Fields) {
    && Get(payload, SchemaVersion) == Some(Str(R.SCHEMA_VERSION))
    && Get(payload, GeneratedBy) == Some(Str(R.GENERATED_BY))
    && Get(payload, Protocol) == Some(Str(R.PROTOCOL_VLESS))
    && Get(payload, CoreType) == Some(Str(R.CORE_TYPE_XRAY))
    && Get(payload, ConfigKind) == Some(Str(R.CONFIG_KIND))
    && (Get(payload, OperationKind) == Some(Str(R.OPERATION_DEPLOY))
        || Get(payload, OperationKind) == Some(Str(R.OPERATION_ROLLBACK)))
  }

  lemma HeaderedPayloadPassesIff(payload: Fields, config: Fields)
    requires StandardHeader(payload) && Get(payload, Config) == Some(Obj(config))
    ensures P.CheckPayload(payload) == P.CheckConfig(config)
  {
  }

  lemma RenderedHeader(
    input: R.RenderInput, config: Fields, summaries: seq<Json>, entries: seq<Json>, text: string)
    ensures StandardHeader(R.PayloadFields(input, config, summaries, entries, text))
    ensures Get(R.PayloadFields(input, config, summaries, entries, text), Config) == Some(Obj(config))
  {
  }

  /** The panel accepts what it renders exactly when the input is renderable. */
  lemma RenderedPayloadPassesIff(input: R.RenderInput, reality: R.RealityConfig)
    ensures P.CheckPayload(R.RenderPayload(input, reality)).Ok? <==> Renderable(input, reality)
  {
    var sorted := R.SortInputs(input.subscriptions);
    RenderedConfigPassesIff(input, reality);
    RenderedHeader(
      input, R.RenderedConfig(input, reality), R.Summaries(sorted), R.Entries(sorted), R.DeployText(input));
    HeaderedPayloadPassesIff(R.RenderPayload(input, reality), R.RenderedConfig(input, reality));
  }
}
