/** The checks that validate.go in the panel and xray_validator.go in the agent
    share word for word: the readers, the client, REALITY and inbound checks. */
module XrayChecks {
  import opened Text
  import opened Json

  datatype Checked<+T> = Ok(value: T) | Rejected(reason: string)
  type Verdict = Checked<()>
  const Valid: Verdict := Ok(())

  /** The verdict of a loop that returns at the first rejected item. */
  function FirstFailure(verdicts: seq<Verdict>): Verdict {
    if verdicts == [] then Valid
    else if verdicts[0].Rejected? then verdicts[0]
    else FirstFailure(verdicts[1..])
  }

  /** Such a loop passes exactly when every item does. */
  lemma {:induction false} FirstFailureIff(verdicts: seq<Verdict>)
    ensures FirstFailure(verdicts).Ok? <==> forall i :: 0 <= i < |verdicts| ==> verdicts[i].Ok?
  {
    if verdicts != [] {
      FirstFailureIff(verdicts[1..]);
      assert verdicts == [verdicts[0]] + verdicts[1..];
    }
  }

  /** An outbound's tag and protocol. */
  type Outbound = (string, string)
  const DirectFreedom: Outbound := ("direct", "freedom")

  /** The outbound loop, with the tags and the direct-freedom flag found so far. */
  function ScanOutbounds(outbounds: seq<Checked<Outbound>>, tags: set<string>, direct: bool): Checked<set<string>> {
    if outbounds == [] then
      if direct then Ok(tags) else Rejected("missing_direct_freedom_outbound")
    else if outbounds[0].Rejected? then Rejected(outbounds[0].reason)
    else
      ScanOutbounds(
        outbounds[1..], tags + {outbounds[0].value.0}, direct || outbounds[0].value == DirectFreedom)
  }

  /** The scan succeeds exactly when no outbound is rejected and one of them is
      the direct freedom outbound, and then it returns every tag. */
  lemma {:induction false} ScanAccepts(outbounds: seq<Checked<Outbound>>, tags: set<string>, direct: bool)
    ensures ScanOutbounds(outbounds, tags, direct).Ok? <==>
      && (forall i :: 0 <= i < |outbounds| ==> outbounds[i].Ok?)
      && (direct || Ok(DirectFreedom) in outbounds)
    ensures ScanOutbounds(outbounds, tags, direct).Ok? ==>
      forall t :: t in ScanOutbounds(outbounds, tags, direct).value <==>
        t in tags || exists i :: 0 <= i < |outbounds| && outbounds[i].value.0 == t
  {
    if outbounds != [] && outbounds[0].Ok? {
      var rest := outbounds[1..];
      assert outbounds == [outbounds[0]] + rest;
      ScanAccepts(rest, tags + {outbounds[0].value.0}, direct || outbounds[0].value == DirectFreedom);
    }
  }

  /** A string that is there and not blank. */
  function StringField(values: Fields, key: Key): (r: Option<string>)
    ensures r.Some? ==> !Blank(r.value)
  {
    match GetStr(values, key)
    case Some(s) => if Blank(s) then None else Some(s)
    case None => None
  }

  predicate AllStrings(items: seq<Json>) {
    forall i :: 0 <= i < |items| ==> items[i].Str?
  }

  function StringArray(value: Option<Json>): Option<seq<string>> {
    match value
    case Some(Arr(items)) =>
      if AllStrings(items) then Some(seq(|items|, i requires 0 <= i < |items| => items[i].s)) else None
    case _ => None
  }

  method ReadStringArray(value: Option<Json>) returns (result: Option<seq<string>>)
    ensures result == StringArray(value)
  {
    if value.None? || !value.value.Arr? {
      return None;
    }
    var items := value.value.items;
    var texts: seq<string> := [];
    for i := 0 to |items|
      invariant |texts| == i
      invariant forall j :: 0 <= j < i ==> items[j].Str? && texts[j] == items[j].s
    {
      if !items[i].Str? {
        return None;
      }
      texts := texts + [items[i].s];
    }
    assert texts == seq(|items|, i requires 0 <= i < |items| => items[i].s);
    return Some(texts);
  }

  function CheckClient(client: Fields): Verdict {
    if StringField(client, Id).None? then Rejected("missing_vless_client_id")
    else if StringField(client, Email).None? then Rejected("missing_vless_client_email")
    else if StringField(client, Flow) != Some("xtls-rprx-vision") then Rejected("invalid_vless_client_flow")
    else if NumberAsInt(Get(client, Level)).None? then Rejected("missing_vless_client_level")
    else Valid
  }

  function CheckClientItem(client: Json): Verdict {
    if client.Obj? then CheckClient(client.fields) else Rejected("invalid_vless_client")
  }

  function CheckClients(clients: seq<Json>): Verdict {
    FirstFailure(seq(|clients|, i requires 0 <= i < |clients| => CheckClientItem(clients[i])))
  }

  method ValidateClients(clients: seq<Json>) returns (verdict: Verdict)
    ensures verdict == CheckClients(clients)
  {
    ghost var verdicts := seq(|clients|, i requires 0 <= i < |clients| => CheckClientItem(clients[i]));
    for i := 0 to |clients|
      invariant CheckClients(clients) == FirstFailure(verdicts[i..])
    {
      verdict := CheckClientItem(clients[i]);
      assert verdicts[i] == verdict && verdicts[i..][1..] == verdicts[i + 1..];
      if verdict.Rejected? {
        return;
      }
    }
    verdict := Valid;
  }

  function CheckReality(settings: Fields): Verdict {
    if !(Show in settings && settings[Show].Bool?) then Rejected("missing_reality_show")
    else if StringField(settings, Dest).None? then Rejected("missing_reality_dest")
    else if StringField(settings, PrivateKey).None? then Rejected("missing_reality_privateKey")
    else if GetStr(settings, MinClientVer).None? then Rejected("missing_reality_minClientVer")
    else if GetStr(settings, MaxClientVer).None? then Rejected("missing_reality_maxClientVer")
    else if StringArray(Get(settings, ServerNames)).None? || |StringArray(Get(settings, ServerNames)).value| == 0 then
      Rejected("missing_reality_server_names")
    else if StringArray(Get(settings, ShortIds)).None? then Rejected("missing_reality_short_ids")
    else if NumberAsInt(Get(settings, Xver)).None? then Rejected("missing_reality_xver")
    else if NumberAsInt(Get(settings, MaxTimeDiff)).None? then Rejected("missing_reality_max_time_diff")
    else Valid
  }

  function CheckStream(inbound: Fields): Verdict {
    match GetObj(inbound, StreamSettings)
    case None => Rejected("missing_stream_settings")
    case Some(stream) =>
      if StringField(stream, Network) != Some("tcp") then Rejected("invalid_stream_network")
      else if StringField(stream, Security) != Some("reality") then Rejected("invalid_stream_security")
      else
        match GetObj(stream, RealitySettings)
        case None => Rejected("missing_reality_settings")
        case Some(reality) => CheckReality(reality)
  }

  function CheckSettings(inbound: Fields): Checked<seq<Json>> {
    match GetObj(inbound, Settings)
    case None => Rejected("missing_inbound_settings")
    case Some(settings) =>
      if StringField(settings, Decryption) != Some("none") then Rejected("invalid_vless_decryption")
      else
        match GetArr(settings, Clients)
        case None => Rejected("missing_vless_clients")
        case Some(clients) => Ok(clients)
  }

  function CheckInboundHead(inbound: Fields): Checked<seq<Json>> {
    if StringField(inbound, Tag).None? then Rejected("missing_inbound_tag")
    else if StringField(inbound, Protocol) != Some("vless") then Rejected("invalid_inbound_protocol")
    else if NumberAsInt(Get(inbound, Port)).None? || NumberAsInt(Get(inbound, Port)).value <= 0 then
      Rejected("invalid_inbound_port")
    else CheckSettings(inbound)
  }

  /** The inbound's tag, or the first check that fails. */
  function CheckInbound(inbound: Fields): Checked<string> {
    match CheckInboundHead(inbound)
    case Rejected(reason) => Rejected(reason)
    case Ok(clients) =>
      if CheckClients(clients).Rejected? then Rejected(CheckClients(clients).reason)
      else if CheckStream(inbound).Rejected? then Rejected(CheckStream(inbound).reason)
      else Ok(StringField(inbound, Tag).value)
  }

  method ValidateInbound(inbound: Fields) returns (tag: Checked<string>)
    ensures tag == CheckInbound(inbound)
  {
    var head := CheckInboundHead(inbound);
    if head.Rejected? {
      return Rejected(head.reason);
    }
    var clients := ValidateClients(head.value);
    if clients.Rejected? {
      return Rejected(clients.reason);
    }
    var stream := CheckStream(inbound);
    if stream.Rejected? {
      return Rejected(stream.reason);
    }
    return Ok(StringField(inbound, Tag).value);
  }

  /** log, policy and stats are objects and there is one inbound object. */
  function CheckConfigHead(config: Fields): Checked<Fields> {
    if GetObj(config, Log).None? then Rejected("missing_log")
    else if GetObj(config, Policy).None? then Rejected("missing_policy")
    else if GetObj(config, Stats).None? then Rejected("missing_stats")
    else
      match GetArr(config, Inbounds)
      case None => Rejected("missing_inbounds")
      case Some(inbounds) =>
        if |inbounds| != 1 then Rejected("invalid_inbound_count")
        else if !inbounds[0].Obj? then Rejected("invalid_inbound")
        else Ok(inbounds[0].fields)
  }

  predicate TagsWithin(tags: seq<string>, known: set<string>) {
    forall i :: 0 <= i < |tags| ==> tags[i] in known
  }

  /** The part of the rule check that both validators share. */
  function CheckRuleHead(rule: Json, outboundTags: set<string>): Checked<Fields> {
    if !rule.Obj? then Rejected("invalid_routing_rule")
    else if StringField(rule.fields, Type) != Some("field") then Rejected("invalid_routing_rule_type")
    else
      match StringField(rule.fields, OutboundTag)
      case Some(tag) =>
        if tag in outboundTags then Ok(rule.fields) else Rejected("invalid_routing_outbound_reference")
      case None => Rejected("invalid_routing_outbound_reference")
  }
}
