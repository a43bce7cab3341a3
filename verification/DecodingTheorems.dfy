/** The agent reads a decoded config as the panel's original. */
module DecodingTheorems {
  import opened Text
  import opened Json
  import opened XrayChecks
  import A = AgentValidator

  /** The numbers of a tree are small integers or float64 values. */
  predicate Tame(j: Json) {
    WellFormed(j) && SmallInts(j)
  }

  predicate TameFields(fields: Fields) {
    Tame(Obj(fields))
  }

  /** A value without parts whose number, if it is one, is a small integer. */
  predicate Leaf(j: Json) {
    || j.Null? || j.Bool? || j.Str?
    || (j.Int? && -(TWO53 as int) < j.n < TWO53)
  }

  lemma LeafIsTame(j: Json)
    requires Leaf(j)
    ensures Tame(j) && IntsSurvive(j)
  {
    if j.Int? { InteroperableIntSurvives(j.n); }
  }

  lemma TameIfParts(j: Json)
    requires j.Obj? ==> forall k :: k in j.fields ==> Leaf(j.fields[k]) || Tame(j.fields[k])
    requires j.Arr? ==> forall i :: 0 <= i < |j.items| ==> Leaf(j.items[i]) || Tame(j.items[i])
    requires j.Obj? || j.Arr?
    ensures Tame(j)
  {
    if j.Obj? {
      forall k | k in j.fields ensures Tame(j.fields[k]) {
        if Leaf(j.fields[k]) { LeafIsTame(j.fields[k]); }
      }
    } else {
      forall i | 0 <= i < |j.items| ensures Tame(j.items[i]) {
        if Leaf(j.items[i]) { LeafIsTame(j.items[i]); }
      }
    }
  }

  /** When all but two members are tame, those two decide. */
  lemma TwoMembersDecide(fields: Fields, a: Key, b: Key)
    requires a in fields && b in fields && WellFormed(fields[a]) && WellFormed(fields[b])
    requires forall k :: k in fields && k != a && k != b ==> Leaf(fields[k]) || Tame(fields[k])
    ensures WellFormed(Obj(fields))
    ensures IntsSurvive(Obj(fields)) <==> IntsSurvive(fields[a]) && IntsSurvive(fields[b])
  {
    forall k | k in fields ensures WellFormed(fields[k]) {
      if k != a && k != b && Leaf(fields[k]) { LeafIsTame(fields[k]); }
    }
    forall k | k in fields && k != a && k != b ensures IntsSurvive(fields[k]) {
      if Leaf(fields[k]) { LeafIsTame(fields[k]); } else { SmallIntsSurvive(fields[k]); }
    }
    MembersSurviveIff(fields);
  }

  lemma MembersSurviveIff(fields: Fields)
    ensures IntsSurvive(Obj(fields)) <==> forall k :: k in fields ==> IntsSurvive(fields[k])
    ensures WellFormed(Obj(fields)) <==> forall k :: k in fields ==> WellFormed(fields[k])
  {
  }

  lemma RoundTripKeepsShape(j: Json)
    ensures RoundTrip(j).Str? <==> j.Str?
    ensures RoundTrip(j).Bool? <==> j.Bool?
    ensures j.Str? ==> RoundTrip(j) == j
    ensures RoundTrip(j).Obj? <==> j.Obj?
    ensures j.Obj? ==> RoundTrip(j) == Obj(Decoded(j.fields))
    ensures RoundTrip(j).Arr? <==> j.Arr?
    ensures j.Arr? ==> RoundTrip(j) == Arr(DecodedItems(j.items))
  {
    if j.Arr? {
      assert RoundTrip(j).items == DecodedItems(j.items);
    }
  }

  lemma DecodedMember(fields: Fields, key: Key)
    ensures key in Decoded(fields) <==> key in fields
    ensures key in fields ==> Decoded(fields)[key] == RoundTrip(fields[key])
  {
  }

  /** Strings, flags, string arrays, objects and arrays are found where they were. */
  lemma DecodedText(fields: Fields, key: Key)
    ensures GetStr(Decoded(fields), key) == GetStr(fields, key)
    ensures StringField(Decoded(fields), key) == StringField(fields, key)
  {
    DecodedMember(fields, key);
    if key in fields { RoundTripKeepsShape(fields[key]); }
  }

  lemma DecodedTexts(fields: Fields, key: Key)
    ensures StringArray(Get(Decoded(fields), key)) == StringArray(Get(fields, key))
  {
    DecodedMember(fields, key);
    if key in fields && fields[key].Arr? {
      var items := fields[key].items;
      RoundTripKeepsShape(fields[key]);
      forall i | 0 <= i < |items|
        ensures DecodedItems(items)[i].Str? == items[i].Str?
        ensures items[i].Str? ==> DecodedItems(items)[i] == items[i]
      {
        RoundTripKeepsShape(items[i]);
      }
      if AllStrings(items) {
        assert DecodedItems(items) == items;
      }
    } else if key in fields {
      RoundTripKeepsShape(fields[key]);
    }
  }

  lemma DecodedTree(fields: Fields, key: Key)
    ensures GetObj(Decoded(fields), key) ==
            (match GetObj(fields, key) case Some(o) => Some(Decoded(o)) case None => None)
    ensures GetArr(Decoded(fields), key) ==
            (match GetArr(fields, key) case Some(items) => Some(DecodedItems(items)) case None => None)
  {
    DecodedMember(fields, key);
    if key in fields { RoundTripKeepsShape(fields[key]); }
  }

  function DecodedItems(items: seq<Json>): seq<Json> {
    seq(|items|, i requires 0 <= i < |items| => RoundTrip(items[i]))
  }

  lemma DecodedNumber(fields: Fields, key: Key)
    requires TameFields(fields)
    ensures NumberAsInt(Get(Decoded(fields), key)) == NumberAsInt(Get(fields, key))
  {
    DecodedMember(fields, key);
    if key in fields { NumberAsIntIsStable(fields[key]); }
  }

  lemma TameMember(fields: Fields, key: Key)
    requires TameFields(fields)
    ensures GetObj(fields, key).Some? ==> TameFields(GetObj(fields, key).value)
    ensures GetArr(fields, key).Some? ==>
      forall i :: 0 <= i < |GetArr(fields, key).value| ==> Tame(GetArr(fields, key).value[i])
  {
    if key in fields {
      assert WellFormed(fields[key]) && SmallInts(fields[key]);
    }
  }

  lemma ClientIsStable(client: Json)
    requires Tame(client)
    ensures CheckClientItem(RoundTrip(client)) == CheckClientItem(client)
  {
    if client.Obj? {
      var fields := client.fields;
      RoundTripKeepsShape(client);
      DecodedText(fields, Id);
      DecodedText(fields, Email);
      DecodedText(fields, Flow);
      DecodedNumber(fields, Level);
    }
  }

  lemma ClientsAreStable(clients: seq<Json>)
    requires forall i :: 0 <= i < |clients| ==> Tame(clients[i])
    ensures CheckClients(DecodedItems(clients)) == CheckClients(clients)
  {
    var again := DecodedItems(clients);
    forall i | 0 <= i < |clients| ensures CheckClientItem(again[i]) == CheckClientItem(clients[i]) {
      ClientIsStable(clients[i]);
    }
    assert seq(|clients|, i requires 0 <= i < |clients| => CheckClientItem(clients[i]))
        == seq(|again|, i requires 0 <= i < |again| => CheckClientItem(again[i]));
  }

  lemma RealityIsStable(settings: Fields)
    requires TameFields(settings)
    ensures CheckReality(Decoded(settings)) == CheckReality(settings)
  {
    DecodedMember(settings, Show);
    if Show in settings { RoundTripKeepsShape(settings[Show]); }
    DecodedText(settings, Dest);
    DecodedText(settings, PrivateKey);
    DecodedText(settings, MinClientVer);
    DecodedText(settings, MaxClientVer);
    DecodedTexts(settings, ServerNames);
    DecodedTexts(settings, ShortIds);
    DecodedNumber(settings, Xver);
    DecodedNumber(settings, MaxTimeDiff);
  }

  lemma StreamIsStable(inbound: Fields)
    requires TameFields(inbound)
    ensures CheckStream(Decoded(inbound)) == CheckStream(inbound)
  {
    DecodedTree(inbound, StreamSettings);
    TameMember(inbound, StreamSettings);
    match GetObj(inbound, StreamSettings)
    case None =>
    case Some(stream) =>
      DecodedText(stream, Network);
      DecodedText(stream, Security);
      DecodedTree(stream, RealitySettings);
      TameMember(stream, RealitySettings);
      match GetObj(stream, RealitySettings)
      case None =>
      case Some(reality) => RealityIsStable(reality);
  }

  lemma SettingsAreStable(inbound: Fields)
    requires TameFields(inbound)
    ensures CheckSettings(inbound).Rejected? ==> CheckSettings(Decoded(inbound)) == CheckSettings(inbound)
    ensures CheckSettings(inbound).Ok? ==>
      && CheckSettings(Decoded(inbound)) == Ok(DecodedItems(CheckSettings(inbound).value))
      && forall i :: 0 <= i < |CheckSettings(inbound).value| ==> Tame(CheckSettings(inbound).value[i])
  {
    DecodedTree(inbound, Settings);
    TameMember(inbound, Settings);
    match GetObj(inbound, Settings)
    case None =>
    case Some(settings) =>
      DecodedText(settings, Decryption);
      DecodedTree(settings, Clients);
      TameMember(settings, Clients);
  }

  lemma InboundHeadIsStable(inbound: Fields)
    requires TameFields(inbound)
    ensures CheckInboundHead(inbound).Rejected? ==> CheckInboundHead(Decoded(inbound)) == CheckInboundHead(inbound)
    ensures CheckInboundHead(inbound).Ok? ==>
      && CheckInboundHead(Decoded(inbound)) == Ok(DecodedItems(CheckInboundHead(inbound).value))
      && forall i :: 0 <= i < |CheckInboundHead(inbound).value| ==> Tame(CheckInboundHead(inbound).value[i])
  {
    DecodedText(inbound, Tag);
    DecodedText(inbound, Protocol);
    DecodedNumber(inbound, Port);
    SettingsAreStable(inbound);
  }

  lemma InboundIsStable(inbound: Fields)
    requires TameFields(inbound)
    ensures CheckInbound(Decoded(inbound)) == CheckInbound(inbound)
  {
    InboundHeadIsStable(inbound);
    DecodedText(inbound, Tag);
    StreamIsStable(inbound);
    if CheckInboundHead(inbound).Ok? {
      ClientsAreStable(CheckInboundHead(inbound).value);
    }
  }

  lemma OutboundIsStable(outbound: Json)
    ensures A.CheckOutbound(RoundTrip(outbound)) == A.CheckOutbound(outbound)
  {
    if outbound.Obj? {
      RoundTripKeepsShape(outbound);
      DecodedText(outbound.fields, Tag);
      DecodedText(outbound.fields, Protocol);
    }
  }

  lemma OutboundsAreStable(outbounds: seq<Json>)
    ensures A.CheckedOutbounds(DecodedItems(outbounds)) == A.CheckedOutbounds(outbounds)
  {
    forall i | 0 <= i < |outbounds| ensures A.CheckOutbound(RoundTrip(outbounds[i])) == A.CheckOutbound(outbounds[i]) {
      OutboundIsStable(outbounds[i]);
    }
  }

  lemma RuleIsStable(rule: Json, inboundTags: set<string>, outboundTags: set<string>)
    ensures A.CheckRule(RoundTrip(rule), inboundTags, outboundTags).Ok? <==>
            A.CheckRule(rule, inboundTags, outboundTags).Ok?
    ensures A.CheckRule(rule, inboundTags, outboundTags).Rejected? ==>
            A.CheckRule(RoundTrip(rule), inboundTags, outboundTags) == A.CheckRule(rule, inboundTags, outboundTags)
  {
    if rule.Obj? {
      var fields := rule.fields;
      RoundTripKeepsShape(rule);
      DecodedMember(fields, InboundTag);
      DecodedText(fields, Type);
      DecodedText(fields, OutboundTag);
      DecodedTexts(fields, InboundTag);
      var head, again := CheckRuleHead(rule, outboundTags), CheckRuleHead(RoundTrip(rule), outboundTags);
      assert head.Ok? ==> again == Ok(Decoded(fields));
      assert head.Rejected? ==> again == head;
    }
  }

  lemma RulesAreStable(rules: seq<Json>, inboundTags: set<string>, outboundTags: set<string>)
    ensures A.CheckRules(DecodedItems(rules), inboundTags, outboundTags) == A.CheckRules(rules, inboundTags, outboundTags)
  {
    var again := DecodedItems(rules);
    forall i | 0 <= i < |rules|
      ensures A.CheckRule(again[i], inboundTags, outboundTags) == A.CheckRule(rules[i], inboundTags, outboundTags)
    {
      RuleIsStable(rules[i], inboundTags, outboundTags);
    }
    assert seq(|rules|, i requires 0 <= i < |rules| => A.CheckRule(rules[i], inboundTags, outboundTags))
        == seq(|again|, i requires 0 <= i < |again| => A.CheckRule(again[i], inboundTags, outboundTags));
  }

  lemma TailIsStable(config: Fields, tag: string)
    ensures A.CheckTail(Decoded(config), tag) == A.CheckTail(config, tag)
  {
    DecodedTree(config, Outbounds);
    DecodedTree(config, Routing);
    var outbounds := GetArr(config, Outbounds);
    if outbounds.Some? {
      OutboundsAreStable(outbounds.value);
      var scan := ScanOutbounds(A.CheckedOutbounds(outbounds.value), {}, false);
      match GetObj(config, Routing)
      case None =>
      case Some(routing) =>
        DecodedTree(routing, Rules);
        if scan.Ok? && GetArr(routing, Rules).Some? {
          RulesAreStable(GetArr(routing, Rules).value, {tag}, scan.value);
        }
    }
  }

  lemma ConfigHeadIsStable(config: Fields)
    requires TameFields(config)
    ensures CheckConfigHead(config).Rejected? ==> CheckConfigHead(Decoded(config)) == CheckConfigHead(config)
    ensures CheckConfigHead(config).Ok? ==>
      && TameFields(CheckConfigHead(config).value)
      && CheckConfigHead(Decoded(config)) == Ok(Decoded(CheckConfigHead(config).value))
  {
    DecodedTree(config, Log);
    DecodedTree(config, Policy);
    DecodedTree(config, Stats);
    DecodedTree(config, Inbounds);
    TameMember(config, Inbounds);
    var inbounds := GetArr(config, Inbounds);
    if inbounds.Some? && |inbounds.value| == 1 && inbounds.value[0].Obj? {
      assert DecodedItems(inbounds.value)[0] == Obj(Decoded(inbounds.value[0].fields));
    }
  }

  /** The agent's verdict on a config, reason included, does not change when the
      config went through JSON text. */
  lemma AgentVerdictIsStable(config: Fields)
    requires TameFields(config)
    ensures A.CheckConfig(Decoded(config)) == A.CheckConfig(config)
  {
    ConfigHeadIsStable(config);
    var head := CheckConfigHead(config);
    if head.Ok? {
      InboundIsStable(head.value);
      if CheckInbound(head.value).Ok? {
        TailIsStable(config, CheckInbound(head.value).value);
      }
    }
  }
}
