/** Each validator is stricter than the other somewhere. */
module ValidatorDifference {
  import opened Text
  import opened Json
  import opened XrayChecks
  import opened ValidatorTheorems
  import R = Render
  import P = PanelValidator
  import A = AgentValidator

  const AnyReality: R.RealityConfig := R.RealityConfig(443, "sni", "dest", "id", "private", "public", "chrome", "/")

  /** A routing rule that lists no inbound tags. */
  const UntaggedRule: Json := Obj(map[Type := Str("field"), OutboundTag := Str(R.OUTBOUND_TAG)])

  /** An outbound of a protocol that the panel does not know. */
  const SocksOutbound: Json := Obj(map[Tag := Str("proxy"), Protocol := Str("socks")])

  function ConfigWith(outbounds: seq<Json>, rules: seq<Json>): Fields {
    R.ConfigFields(AnyReality, [], "warning", true, outbounds, rules, [])
  }

  lemma InboundPasses()
    ensures CheckInbound(R.InboundFields(AnyReality, [], true)) == Ok(R.INBOUND_TAG)
  {
    StartsVisible("dest");
    StartsVisible("private");
    RenderedInboundPassesIff(AnyReality, [], true);
  }

  lemma UntaggedRulePasses()
    ensures P.CheckRules([UntaggedRule], {R.INBOUND_TAG}, {"direct"}).Ok? && !NamesTags(UntaggedRule)
  {
    StartsVisible("field");
    StartsVisible("direct");
    var rules := [UntaggedRule];
    assert P.CheckRule(UntaggedRule, {R.INBOUND_TAG}, {"direct"}) == Valid;
    FirstFailureIff(seq(|rules|, i requires 0 <= i < |rules| => P.CheckRule(rules[i], {R.INBOUND_TAG}, {"direct"})));
  }

  lemma DirectPasses()
    ensures ScanOutbounds(P.CheckedOutbounds([R.DirectOutbound]), {}, false) == Ok({"direct"})
  {
    DirectChecks();
    OutboundsPass([R.DirectOutbound], [], [], R.DirectOutbound);
  }

  lemma UntaggedConfig(config: Fields)
    requires GetObj(config, Routing).Some? && Get(GetObj(config, Routing).value, Rules) == Some(Arr([UntaggedRule]))
    ensures !RulesNameTags(config)
  {
    UntaggedRulePasses();
    assert [UntaggedRule][0] == UntaggedRule;
  }

  lemma PanelAlone()
    ensures
      var config := ConfigWith([R.DirectOutbound], [UntaggedRule]);
      P.CheckConfig(config).Ok? && A.CheckConfig(config).Rejected?
  {
    InboundPasses();
    UntaggedRulePasses();
    DirectPasses();
    GivenConfigPassesIff(AnyReality, [], "warning", true, [R.DirectOutbound], [UntaggedRule], [], {"direct"});
    ConfigLookups(AnyReality, [], "warning", true, [R.DirectOutbound], [UntaggedRule], []);
    UntaggedConfig(ConfigWith([R.DirectOutbound], [UntaggedRule]));
    ValidatorsAgreeUpTo(ConfigWith([R.DirectOutbound], [UntaggedRule]));
  }

  lemma SocksPasses()
    ensures A.CheckOutbound(R.DirectOutbound) == Ok(DirectFreedom)
    ensures A.CheckOutbound(SocksOutbound) == Ok(("proxy", "socks")) && !P.Supported("socks")
  {
    DirectChecks();
    OutboundChecksAgree(R.DirectOutbound);
    StartsVisible("proxy");
    StartsVisible("socks");
  }

  lemma BothScanned(outbounds: seq<Json>)
    requires |outbounds| == 2 && A.CheckOutbound(outbounds[0]) == Ok(DirectFreedom)
    requires A.CheckOutbound(outbounds[1]) == Ok(("proxy", "socks"))
    ensures ScanOutbounds(A.CheckedOutbounds(outbounds), {}, false).Ok?
    ensures "direct" in ScanOutbounds(A.CheckedOutbounds(outbounds), {}, false).value
  {
    var checks := A.CheckedOutbounds(outbounds);
    assert checks[0] == Ok(DirectFreedom) && checks[1] == Ok(("proxy", "socks"));
    ScanAccepts(checks, {}, false);
  }

  lemma DefaultRulePasses(tags: set<string>)
    requires "direct" in tags
    ensures A.CheckRules([R.DefaultRule], {R.INBOUND_TAG}, tags).Ok?
  {
    StartsVisible("field");
    StartsVisible("direct");
    assert StringArray(Some(Arr([Str(R.INBOUND_TAG)]))).value == [R.INBOUND_TAG];
    var rules := [R.DefaultRule];
    assert A.CheckRule(R.DefaultRule, {R.INBOUND_TAG}, tags) == Valid;
    FirstFailureIff(seq(|rules|, i requires 0 <= i < |rules| => A.CheckRule(rules[i], {R.INBOUND_TAG}, tags)));
  }

  lemma AgentPasses(config: Fields, inbound: Fields, outbounds: seq<Json>, rules: seq<Json>)
    requires GetObj(config, Log).Some? && GetObj(config, Policy).Some? && GetObj(config, Stats).Some?
    requires Get(config, Inbounds) == Some(Arr([Obj(inbound)])) && CheckInbound(inbound) == Ok(R.INBOUND_TAG)
    requires Get(config, Outbounds) == Some(Arr(outbounds)) && |outbounds| > 0
    requires GetObj(config, Routing).Some? && Get(GetObj(config, Routing).value, Rules) == Some(Arr(rules)) && |rules| > 0
    requires ScanOutbounds(A.CheckedOutbounds(outbounds), {}, false).Ok?
    requires A.CheckRules(rules, {R.INBOUND_TAG}, ScanOutbounds(A.CheckedOutbounds(outbounds), {}, false).value).Ok?
    ensures A.CheckConfig(config).Ok?
  {
    assert CheckConfigHead(config) == Ok(inbound);
  }

  lemma AgentAlone()
    ensures
      var config := ConfigWith([R.DirectOutbound, SocksOutbound], [R.DefaultRule]);
      A.CheckConfig(config).Ok? && P.CheckConfig(config).Rejected?
  {
    var outbounds := [R.DirectOutbound, SocksOutbound];
    var config := ConfigWith(outbounds, [R.DefaultRule]);
    InboundPasses();
    SocksPasses();
    BothScanned(outbounds);
    DefaultRulePasses(ScanOutbounds(A.CheckedOutbounds(outbounds), {}, false).value);
    ConfigLookups(AnyReality, [], "warning", true, outbounds, [R.DefaultRule], []);
    AgentPasses(config, R.InboundFields(AnyReality, [], true), outbounds, [R.DefaultRule]);
    PanelRefuses(config, outbounds);
  }

  lemma PanelRefuses(config: Fields, outbounds: seq<Json>)
    requires Get(config, Outbounds) == Some(Arr(outbounds)) && |outbounds| == 2
    requires A.CheckOutbound(outbounds[1]) == Ok(("proxy", "socks"))
    ensures P.CheckConfig(config).Rejected?
  {
    UnsupportedScan(outbounds);
    ScanDecides(config, outbounds);
  }

  lemma UnsupportedScan(outbounds: seq<Json>)
    requires |outbounds| == 2 && A.CheckOutbound(outbounds[1]) == Ok(("proxy", "socks"))
    ensures ScanOutbounds(P.CheckedOutbounds(outbounds), {}, false).Rejected?
  {
    OutboundScansAgree(outbounds);
  }

  lemma ScanDecides(config: Fields, outbounds: seq<Json>)
    requires Get(config, Outbounds) == Some(Arr(outbounds))
    requires ScanOutbounds(P.CheckedOutbounds(outbounds), {}, false).Rejected?
    ensures P.CheckConfig(config).Rejected?
  {
  }

  /** Neither validator implies the other. */
  lemma NeitherValidatorImpliesTheOther()
    ensures exists config: Fields :: P.CheckConfig(config).Ok? && A.CheckConfig(config).Rejected?
    ensures exists config: Fields :: A.CheckConfig(config).Ok? && P.CheckConfig(config).Rejected?
  {
    PanelAlone();
    AgentAlone();
  }
}
