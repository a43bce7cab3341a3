/** The agent's validator (xray_validator.go): like the panel's, except that any
    outbound protocol passes and that every rule must name inbound tags. */
module AgentValidator {
  import opened Text
  import opened Json
  import opened XrayChecks

  function CheckOutbound(outbound: Json): Checked<Outbound> {
    if !outbound.Obj? then Rejected("invalid_outbound")
    else
      match (StringField(outbound.fields, Tag), StringField(outbound.fields, Protocol))
      case (None, _) => Rejected("missing_outbound_tag")
      case (_, None) => Rejected("missing_outbound_protocol")
      case (Some(tag), Some(protocol)) => Ok((tag, protocol))
  }

  function CheckedOutbounds(outbounds: seq<Json>): seq<Checked<Outbound>> {
    seq(|outbounds|, i requires 0 <= i < |outbounds| => CheckOutbound(outbounds[i]))
  }

  method ValidateOutbounds(outbounds: seq<Json>) returns (result: Checked<set<string>>)
    ensures result == ScanOutbounds(CheckedOutbounds(outbounds), {}, false)
  {
    var tags: set<string> := {};
    var hasDirectFreedom := false;
    ghost var checks := CheckedOutbounds(outbounds);
    for i := 0 to |outbounds|
      invariant ScanOutbounds(checks, {}, false) == ScanOutbounds(checks[i..], tags, hasDirectFreedom)
    {
      var outbound := CheckOutbound(outbounds[i]);
      assert checks[i] == outbound && checks[i..][1..] == checks[i + 1..];
      if outbound.Rejected? {
        return Rejected(outbound.reason);
      }
      tags := tags + {outbound.value.0};
      if outbound.value == DirectFreedom {
        hasDirectFreedom := true;
      }
    }
    if !hasDirectFreedom {
      return Rejected("missing_direct_freedom_outbound");
    }
    return Ok(tags);
  }

  function CheckRule(rule: Json, inboundTags: set<string>, outboundTags: set<string>): Verdict {
    match CheckRuleHead(rule, outboundTags)
    case Rejected(reason) => Rejected(reason)
    case Ok(fields) =>
      match StringArray(Get(fields, InboundTag))
      case Some(tags) =>
        if |tags| > 0 && TagsWithin(tags, inboundTags) then Valid
        else Rejected("invalid_routing_inbound_reference")
      case None => Rejected("invalid_routing_inbound_reference")
  }

  function CheckRules(rules: seq<Json>, inboundTags: set<string>, outboundTags: set<string>): Verdict {
    FirstFailure(seq(|rules|, i requires 0 <= i < |rules| => CheckRule(rules[i], inboundTags, outboundTags)))
  }

  function CheckRouting(routing: Fields, inboundTags: set<string>, outboundTags: set<string>): Verdict {
    match GetArr(routing, Rules)
    case None => Rejected("missing_routing_rules")
    case Some(rules) =>
      if |rules| == 0 then Rejected("missing_routing_rules") else CheckRules(rules, inboundTags, outboundTags)
  }

  method ValidateRouting(routing: Fields, inboundTags: set<string>, outboundTags: set<string>)
    returns (verdict: Verdict)
    ensures verdict == CheckRouting(routing, inboundTags, outboundTags)
  {
    var rules := GetArr(routing, Rules);
    if rules.None? || |rules.value| == 0 {
      return Rejected("missing_routing_rules");
    }
    var items := rules.value;
    ghost var verdicts :=
      seq(|items|, i requires 0 <= i < |items| => CheckRule(items[i], inboundTags, outboundTags));
    for i := 0 to |items|
      invariant CheckRules(items, inboundTags, outboundTags) == FirstFailure(verdicts[i..])
    {
      verdict := CheckRule(items[i], inboundTags, outboundTags);
      assert verdicts[i] == verdict && verdicts[i..][1..] == verdicts[i + 1..];
      if verdict.Rejected? {
        return;
      }
    }
    verdict := Valid;
  }

  function CheckTail(config: Fields, inboundTag: string): Verdict {
    match GetArr(config, Outbounds)
    case None => Rejected("missing_outbounds")
    case Some(outbounds) =>
      if |outbounds| == 0 then Rejected("missing_outbounds")
      else
        match ScanOutbounds(CheckedOutbounds(outbounds), {}, false)
        case Rejected(reason) => Rejected(reason)
        case Ok(tags) =>
          match GetObj(config, Routing)
          case None => Rejected("missing_routing")
          case Some(routing) => CheckRouting(routing, {inboundTag}, tags)
  }

  function CheckConfig(config: Fields): Verdict {
    match CheckConfigHead(config)
    case Rejected(reason) => Rejected(reason)
    case Ok(inbound) =>
      match CheckInbound(inbound)
      case Rejected(reason) => Rejected(reason)
      case Ok(tag) => CheckTail(config, tag)
  }

  method ValidateXrayConfigArtifact(config: Fields) returns (verdict: Verdict)
    ensures verdict == CheckConfig(config)
  {
    var head := CheckConfigHead(config);
    if head.Rejected? {
      return Rejected(head.reason);
    }
    var tag := ValidateInbound(head.value);
    if tag.Rejected? {
      return Rejected(tag.reason);
    }
    var outbounds := GetArr(config, Outbounds);
    if outbounds.None? || |outbounds.value| == 0 {
      return Rejected("missing_outbounds");
    }
    var tags := ValidateOutbounds(outbounds.value);
    if tags.Rejected? {
      return Rejected(tags.reason);
    }
    var routing := GetObj(config, Routing);
    if routing.None? {
      return Rejected("missing_routing");
    }
    verdict := ValidateRouting(routing.value, {tag.value}, tags.value);
  }
}
