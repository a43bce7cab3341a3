/** Go's dynamically typed values, their JSON text and what a trip through
    that text does to them. Numbers are the delicate part: a Go integer is
    printed exactly, read back as a float64 and printed again in the shortest
    form that reads back as the same float64. */
module Json {
  import opened Text

  /** The object keys the panel and the agent name; any other key is Other. */
  datatype Key =
    // payload
    | SchemaVersion | GeneratedBy | Protocol | RevisionNumber | RollbackTarget
    | OperationKind | Node | CoreType | Transport | ConfigKind | Config
    | SubscriptionInputs | AccessEntries | ConfigText
    | SourceRevisionId | SourceRevisionNumber
    // node and transport
    | Id | Hostname | Region | CountryCode | Network | Security | Xtls
    // subscription summary and access entries
    | SubscriptionId | UserId | PlanId | UserStatus | SubscriptionStatus
    | PreferredRegion | PlanName | DeviceLimit | StartsAt | ExpiresAt
    | TrafficLimitBytes | VlessClientId | Email | Flow | Level
    // xray config
    | Log | Loglevel | Stats | Policy | Levels | System | Handshake | ConnIdle
    | UplinkOnly | DownlinkOnly | StatsUserUplink | StatsUserDownlink
    | StatsInboundUplink | StatsInboundDownlink | StatsOutboundUplink | StatsOutboundDownlink
    | Inbounds | Outbounds | Routing | Dns | Servers | Tag | Listen | Port | Settings
    | Clients | Decryption | Fallbacks | StreamSettings | RealitySettings | Sniffing
    | Enabled | DestOverride | Show | Dest | Xver | ServerNames | PrivateKey | ShortIds
    | MinClientVer | MaxClientVer | MaxTimeDiff | SecretKey | Address | Peers | PublicKey
    | Endpoint | DomainStrategy | Rules | Type | InboundTag | OutboundTag | Domain | Ip
    // agent metadata and state files
    | RevisionId | NodeId | BundleHash | SignerName | ConfigPath | StagedConfigPath
    | ActiveConfigPath | ApplyMode | ActiveRevision | StagedRevision | LastAppliedRevision
    | LastRollbackRevision | RollbackCandidate | RuntimeMode | RuntimeProcessMode
    | RuntimeProcessState | RuntimeDesiredState | RuntimeState | LastDryRunStatus
    | LastRuntimeAttempt | LastRuntimePrepared | LastRuntimeAt | LastRuntimeError
    | LastValidationStatus | LastValidationError | LastValidationAt | ProcessControl
    | ConfigArtifactPath | MetadataArtifactPath | RevisionConfigPath | RevisionMetadataPath
    | RuntimeEvents | Status | Message | At
    | Other(name: string)

  /** A Go value of type any, as the renderer builds it or the decoder returns it. */
  datatype Json =
    | Null
    | Bool(b: bool)
    | Int(n: int)
    | Float(r: real)
    | Str(s: string)
    | Arr(items: seq<Json>)
    | Obj(fields: map<Key, Json>)

  type Fields = map<Key, Json>

  /** A number as it stands in JSON text: digits only, or the shortest text of
      the float64 r when r is not a whole number. */
  datatype Numeral = Whole(n: int) | Fraction(r: real)

  /** JSON text up to layout; object members have no order. */
  datatype Doc =
    | DocNull
    | DocBool(b: bool)
    | DocNumber(num: Numeral)
    | DocString(s: string)
    | DocArray(items: seq<Doc>)
    | DocObject(fields: map<Key, Doc>)

  // ---- float64 rounding of integers ----

  const TWO52: nat := 0x10_0000_0000_0000
  const TWO53: nat := 0x20_0000_0000_0000
  const TWO60: nat := 0x1000_0000_0000_0000
  const MAX_INT32: int := 0x7FFF_FFFF
  const MAX_INT64: int := 0x7FFF_FFFF_FFFF_FFFF

  /** The distance between neighbouring float64 values around m. */
  function Ulp(m: nat): (u: nat)
    ensures u >= 1
    ensures m >= TWO53 ==> u >= 2
  {
    if m < TWO53 then 1 else 2 * Ulp(m / 2)
  }

  /** Round to nearest, ties to even. */
  function RoundNat(m: nat): nat {
    var u := Ulp(m);
    var q, rem := m / u, m % u;
    if 2 * rem < u || (2 * rem == u && q % 2 == 0) then q * u else (q + 1) * u
  }

  function RoundInt(n: int): int {
    if n < 0 then -(RoundNat(-n) as int) else RoundNat(n)
  }

  predicate IsDouble(n: int) {
    RoundInt(n) == n
  }

  lemma HalvingDivides(m: nat, u: nat)
    requires u >= 1
    ensures m / (2 * u) == m / 2 / u
  {
    var q, r := m / 2 / u, m / 2 % u;
    assert m / 2 == q * u + r;
    assert m == q * (2 * u) + (2 * r + m % 2);
    assert 0 <= 2 * r + m % 2 < 2 * u;
    QuotientIsUnique(m, 2 * u, q, 2 * r + m % 2);
  }

  lemma MultipleAtLeast(d: nat, u: nat)
    requires d >= 1
    ensures d * u >= u
  {
    assert d * u == (d - 1) * u + u;
  }

  lemma QuotientIsUnique(m: nat, u: nat, q: nat, r: nat)
    requires u >= 1 && r < u && m == q * u + r
    ensures m / u == q && m % u == r
  {
    var d := q as int - m / u;
    assert d * u == q * u - m / u * u == m % u - r;
    if d >= 1 { MultipleAtLeast(d, u); }
  }

  lemma {:induction false} MantissaBounds(m: nat)
    requires m >= TWO53
    ensures TWO52 <= m / Ulp(m) < TWO53
  {
    HalvingDivides(m, Ulp(m / 2));
    if m / 2 >= TWO53 { MantissaBounds(m / 2); }
  }

  lemma {:induction false} UlpOfScaled(q: nat, m: nat)
    requires TWO52 <= q < TWO53 && m >= TWO53
    ensures Ulp(q * Ulp(m)) == Ulp(m)
  {
    var h := Ulp(m / 2);
    assert q * Ulp(m) == 2 * (q * h) >= TWO53 by {
      assert q * h >= q;
      assert q * (2 * h) == 2 * (q * h);
    }
    if m / 2 >= TWO53 { UlpOfScaled(q, m / 2); }
  }

  lemma MultipleOfUlpIsDouble(v: nat, q: nat)
    requires v == q * Ulp(v)
    ensures RoundNat(v) == v
  {
    QuotientIsUnique(v, Ulp(v), q, 0);
  }

  lemma RoundNatFixed(m: nat)
    ensures RoundNat(RoundNat(m)) == RoundNat(m)
  {
    if m >= TWO53 {
      var u, v := Ulp(m), RoundNat(m);
      MantissaBounds(m);
      var q := if v == m / u * u then m / u else m / u + 1;
      assert v == q * u;
      if q < TWO53 {
        UlpOfScaled(q, m);
        MultipleOfUlpIsDouble(v, q);
      } else {
        UlpOfScaled(TWO52, m);
        assert v == 2 * (TWO52 * u);
        assert Ulp(v) == 2 * u;
        MultipleOfUlpIsDouble(v, TWO52);
      }
    }
  }

  lemma RoundIntFixed(n: int)
    ensures IsDouble(RoundInt(n))
  {
    RoundNatFixed(if n < 0 then -n else n);
    if n < 0 { assert RoundNat(0) == 0; }
  }

  lemma DoubleAtLeast(q: nat, u: nat)
    requires q >= TWO52 && u >= 2
    ensures q * u >= TWO53 && (q + 1) * u >= TWO53
  {
    assert q * u >= q * 2;
  }

  /** Below 2^53 in absolute value every integer is a float64, and nothing else
      rounds to it. */
  lemma SmallResultIsExact(m: nat)
    requires RoundNat(m) < TWO53
    ensures RoundNat(m) == m
  {
    if m >= TWO53 {
      MantissaBounds(m);
      DoubleAtLeast(m / Ulp(m), Ulp(m));
    }
  }

  // ---- shortest printing of a float64 ----

  function Pow10(k: nat): (p: nat)
    ensures p >= 1
  {
    if k == 0 then 1 else 10 * Pow10(k - 1)
  }

  /** The largest multiple of p up to d. */
  function Floor(d: nat, p: nat): (r: nat)
    requires p >= 1
    ensures r <= d
  {
    d - d % p
  }

  /** The multiples of 10^k next to d. */
  type Neighbours = nat -> (nat, nat)

  function Around(d: nat): Neighbours {
    k => (Floor(d, Pow10(k)), Floor(d, Pow10(k)) + Pow10(k))
  }

  /** Among the multiples of the largest possible power of ten that read back
      as d, the one closest to d. */
  function Shortest(d: nat, k: nat, readsAs: nat -> bool, around: Neighbours): nat {
    if k == 0 then d
    else
      var (lo, hi) := around(k);
      if readsAs(lo) && (!readsAs(hi) || d - lo <= hi - d) then lo
      else if readsAs(hi) then hi
      else Shortest(d, k - 1, readsAs, around)
  }

  /** The decimal texts that are read as the float64 d. */
  function ReadAs(d: nat): nat -> bool {
    (c: nat) => RoundNat(c) == d
  }

  const MAX_DIGITS: nat := 20

  /** The digits printed for the whole float64 d; below 10^21 no exponent is used. */
  function FloatNumeral(d: int): int {
    if d < 0 then -(Shortest(-d, MAX_DIGITS, ReadAs(-d), Around(-d)) as int)
    else Shortest(d, MAX_DIGITS, ReadAs(d), Around(d))
  }

  lemma {:induction false} ShortestReadsBack(d: nat, k: nat, readsAs: nat -> bool, around: Neighbours)
    requires readsAs(d)
    ensures readsAs(Shortest(d, k, readsAs, around))
  {
    if k != 0 { ShortestReadsBack(d, k - 1, readsAs, around); }
  }

  lemma ShortestRounds(m: nat, digits: nat)
    requires RoundNat(m) == m
    ensures RoundNat(Shortest(m, digits, ReadAs(m), Around(m))) == m
  {
    ShortestReadsBack(m, digits, ReadAs(m), Around(m));
  }

  lemma RoundOfZero()
    ensures RoundNat(0) == 0
  {
  }

  /** The sign is put back. */
  lemma SignedRound(d: int, shortest: nat)
    requires RoundNat(shortest) == if d < 0 then -d else d
    ensures RoundInt(if d < 0 then -(shortest as int) else shortest) == d
  {
    RoundOfZero();
  }

  lemma FloatNumeralReadsBack(d: int)
    requires IsDouble(d)
    ensures RoundInt(FloatNumeral(d)) == d
  {
    var m: nat := if d < 0 then -d else d;
    ShortestRounds(m, MAX_DIGITS);
    SignedRound(d, Shortest(m, MAX_DIGITS, ReadAs(m), Around(m)));
  }

  lemma {:induction false} ShortestIfUnique(d: nat, k: nat, readsAs: nat -> bool, around: Neighbours)
    requires forall c: nat :: readsAs(c) ==> c == d
    ensures Shortest(d, k, readsAs, around) == d
  {
    if k != 0 { ShortestIfUnique(d, k - 1, readsAs, around); }
  }

  /** The integer n is still n after being read as a float64 and printed again. */
  predicate IntSurvives(n: int) {
    FloatNumeral(RoundInt(n)) == n
  }

  /** Every integer of the range that RFC 8259, section 6, calls interoperable survives. */
  lemma InteroperableIntSurvives(n: int)
    requires -(TWO53 as int) < n < TWO53
    ensures IntSurvives(n) && RoundInt(n) == n
  {
    var m: nat := if n < 0 then -n else n;
    SmallIsRounded(m);
    SmallIsShortest(m);
  }

  lemma SmallIsRounded(m: nat)
    requires m < TWO53
    ensures RoundNat(m) == m
  {
  }

  lemma SmallIsShortest(m: nat)
    requires m < TWO53
    ensures Shortest(m, MAX_DIGITS, ReadAs(m), Around(m)) == m
  {
    forall c: nat | ReadAs(m)(c) ensures c == m { SmallResultIsExact(c); }
    ShortestIfUnique(m, MAX_DIGITS, ReadAs(m), Around(m));
  }

  lemma MultipleOfTen(d: nat, k: nat)
    requires k >= 1
    ensures Floor(d, Pow10(k)) % 10 == 0
    ensures (Floor(d, Pow10(k)) + Pow10(k)) % 10 == 0
  {
    var q, p := d / Pow10(k), Pow10(k - 1);
    FloorIsMultiple(d, Pow10(k));
    TenTimes(q, p);
  }

  lemma FloorIsMultiple(d: nat, p: nat)
    requires p >= 1
    ensures Floor(d, p) == d / p * p
  {
  }

  lemma TenTimes(q: nat, p: nat)
    ensures q * (10 * p) % 10 == 0 && (q * (10 * p) + 10 * p) % 10 == 0
  {
    assert q * (10 * p) == 10 * (q * p);
    assert q * (10 * p) + 10 * p == 10 * (q * p + p);
  }

  ghost predicate Tens(around: Neighbours) {
    forall k: nat :: k >= 1 ==> around(k).0 % 10 == 0 && around(k).1 % 10 == 0
  }

  lemma TenAround(d: nat, k: nat)
    requires k >= 1
    ensures Around(d)(k).0 % 10 == 0 && Around(d)(k).1 % 10 == 0
  {
    MultipleOfTen(d, k);
  }

  lemma TensAround(d: nat)
    ensures Tens(Around(d))
  {
    forall k: nat | k >= 1 ensures Around(d)(k).0 % 10 == 0 && Around(d)(k).1 % 10 == 0 { TenAround(d, k); }
  }

  lemma {:induction false} ShortestForm(d: nat, k: nat, readsAs: nat -> bool, around: Neighbours)
    requires Tens(around)
    ensures Shortest(d, k, readsAs, around) == d || Shortest(d, k, readsAs, around) % 10 == 0
  {
    if k != 0 { ShortestForm(d, k - 1, readsAs, around); }
  }

  lemma {:induction false} ShorterTextIsTaken(d: nat, k: nat, j: nat, readsAs: nat -> bool, around: Neighbours)
    requires Tens(around) && 1 <= j <= k && readsAs(around(j).1)
    ensures Shortest(d, k, readsAs, around) % 10 == 0
  {
    if j < k { ShorterTextIsTaken(d, k - 1, j, readsAs, around); }
  }

  lemma RoundingAtTwo60()
    ensures RoundNat(TWO60) == TWO60
    ensures ReadAs(TWO60)(Around(TWO60)(3).1)
  {
    assert Pow10(3) == 1000;
    assert Floor(TWO60, 1000) + 1000 == 1152921504606847000;
    assert Ulp(TWO60) == 256;
    assert Ulp(1152921504606847000) == 256;
  }

  lemma RoundingAtTwo53()
    ensures RoundNat(TWO53 + 1) == TWO53
  {
    assert Ulp(TWO53 + 1) == 2 * Ulp(TWO52) == 2;
  }

  /** Outside that range an integer can be lost to rounding (2^53 + 1)... */
  lemma RoundedIntIsLost()
    ensures !IntSurvives(TWO53 + 1)
  {
    RoundingAtTwo53();
    TensAround(TWO53);
    ShortestForm(TWO53, MAX_DIGITS, ReadAs(TWO53), Around(TWO53));
  }

  /** ...and it can also be a float64 whose shortest text has other digits (2^60). */
  lemma ShortenedIntIsLost()
    ensures IsDouble(TWO60) && !IntSurvives(TWO60)
  {
    RoundingAtTwo60();
    LostWhenShortened(TWO60, 3);
  }

  lemma LostWhenShortened(d: nat, j: nat)
    requires 1 <= j <= MAX_DIGITS && d % 10 != 0 && RoundNat(d) == d && ReadAs(d)(Around(d)(j).1)
    ensures IsDouble(d) && !IntSurvives(d)
  {
    TensAround(d);
    ShorterTextIsTaken(d, MAX_DIGITS, j, ReadAs(d), Around(d));
  }

  // ---- text and back ----

  function Marshal(j: Json): Doc {
    match j
    case Null => DocNull
    case Bool(b) => DocBool(b)
    case Int(n) => DocNumber(Whole(n))
    case Float(r) =>
      DocNumber(if r == r.Floor as real then Whole(FloatNumeral(r.Floor)) else Fraction(r))
    case Str(s) => DocString(s)
    case Arr(items) => DocArray(seq(|items|, i requires 0 <= i < |items| => Marshal(items[i])))
    case Obj(fields) => DocObject(map k | k in fields :: Marshal(fields[k]))
  }

  /** Decoding into type any: every number becomes a float64. */
  function Unmarshal(d: Doc): Json {
    match d
    case DocNull => Null
    case DocBool(b) => Bool(b)
    case DocNumber(Whole(n)) => Float(RoundInt(n) as real)
    case DocNumber(Fraction(r)) => Float(r)
    case DocString(s) => Str(s)
    case DocArray(items) => Arr(seq(|items|, i requires 0 <= i < |items| => Unmarshal(items[i])))
    case DocObject(fields) => Obj(map k | k in fields :: Unmarshal(fields[k]))
  }

  function RoundTrip(j: Json): Json {
    Unmarshal(Marshal(j))
  }

  /** Every whole Float is a float64 value. */
  predicate WellFormed(j: Json) {
    match j
    case Float(r) => r == r.Floor as real ==> IsDouble(r.Floor)
    case Arr(items) => forall i :: 0 <= i < |items| ==> WellFormed(items[i])
    case Obj(fields) => forall k :: k in fields ==> WellFormed(fields[k])
    case _ => true
  }

  /** Every Go integer in the tree survives. */
  predicate IntsSurvive(j: Json) {
    match j
    case Int(n) => IntSurvives(n)
    case Arr(items) => forall i :: 0 <= i < |items| ==> IntsSurvive(items[i])
    case Obj(fields) => forall k :: k in fields ==> IntsSurvive(fields[k])
    case _ => true
  }

  /** A document value as the decoder can produce it: fractions are not whole. */
  predicate ProperDoc(d: Doc) {
    match d
    case DocNumber(Fraction(r)) => r != r.Floor as real
    case DocArray(items) => forall i :: 0 <= i < |items| ==> ProperDoc(items[i])
    case DocObject(fields) => forall k :: k in fields ==> ProperDoc(fields[k])
    case _ => true
  }

  lemma {:induction false} MarshalIsProper(j: Json)
    ensures ProperDoc(Marshal(j))
  {
    match j
    case Arr(items) =>
      forall i | 0 <= i < |items| ensures ProperDoc(Marshal(items[i])) { MarshalIsProper(items[i]); }
    case Obj(fields) =>
      forall k | k in fields ensures ProperDoc(Marshal(fields[k])) { MarshalIsProper(fields[k]); }
    case _ =>
  }

  lemma {:induction false} DecodedIsWellFormed(d: Doc)
    requires ProperDoc(d)
    ensures WellFormed(Unmarshal(d)) && IntsSurvive(Unmarshal(d))
  {
    match d
    case DocNumber(Whole(n)) => RoundIntFixed(n);
    case DocArray(items) =>
      forall i | 0 <= i < |items|
        ensures WellFormed(Unmarshal(items[i])) && IntsSurvive(Unmarshal(items[i]))
      { DecodedIsWellFormed(items[i]); }
    case DocObject(fields) =>
      forall k | k in fields
        ensures WellFormed(Unmarshal(fields[k])) && IntsSurvive(Unmarshal(fields[k]))
      { DecodedIsWellFormed(fields[k]); }
    case _ =>
  }

  /** What was decoded once is not changed by further trips. */
  lemma {:induction false} RoundTripIsIdempotent(j: Json)
    ensures RoundTrip(RoundTrip(j)) == RoundTrip(j)
  {
    match j
    case Int(_) => NumberIsIdempotent(j);
    case Float(_) => NumberIsIdempotent(j);
    case Arr(items) =>
      forall i | 0 <= i < |items| ensures RoundTrip(RoundTrip(items[i])) == RoundTrip(items[i]) {
        RoundTripIsIdempotent(items[i]);
      }
      ItemsAreIdempotent(items);
    case Obj(fields) =>
      forall k | k in fields ensures RoundTrip(RoundTrip(fields[k])) == RoundTrip(fields[k]) {
        RoundTripIsIdempotent(fields[k]);
      }
      FieldsAreIdempotent(fields);
    case _ =>
  }

  lemma NumberIsIdempotent(j: Json)
    requires j.Int? || j.Float?
    ensures RoundTrip(RoundTrip(j)) == RoundTrip(j)
  {
    if j.Int? {
      RoundIntFixed(j.n);
      FloatNumeralReadsBack(RoundInt(j.n));
    } else if j.r == j.r.Floor as real {
      var d := RoundInt(FloatNumeral(j.r.Floor));
      RoundIntFixed(FloatNumeral(j.r.Floor));
      FloatNumeralReadsBack(d);
      assert (d as real).Floor == d;
    }
  }

  lemma ItemsAreIdempotent(items: seq<Json>)
    requires forall i :: 0 <= i < |items| ==> RoundTrip(RoundTrip(items[i])) == RoundTrip(items[i])
    ensures RoundTrip(RoundTrip(Arr(items))) == RoundTrip(Arr(items))
  {
    var once, twice := RoundTrip(Arr(items)), RoundTrip(RoundTrip(Arr(items)));
    assert |once.items| == |twice.items| == |items|;
    forall i | 0 <= i < |items| ensures twice.items[i] == once.items[i] {}
  }

  lemma FieldsAreIdempotent(fields: Fields)
    requires forall k :: k in fields ==> RoundTrip(RoundTrip(fields[k])) == RoundTrip(fields[k])
    ensures RoundTrip(RoundTrip(Obj(fields))) == RoundTrip(Obj(fields))
  {
    var once, twice := RoundTrip(Obj(fields)), RoundTrip(RoundTrip(Obj(fields)));
    assert once.fields.Keys == twice.fields.Keys == fields.Keys;
    forall k | k in fields ensures twice.fields[k] == once.fields[k] {}
  }

  lemma ItemsStableIff(items: seq<Json>)
    requires forall i :: 0 <= i < |items| ==> (Marshal(RoundTrip(items[i])) == Marshal(items[i]) <==> IntsSurvive(items[i]))
    ensures Marshal(RoundTrip(Arr(items))) == Marshal(Arr(items)) <==> IntsSurvive(Arr(items))
  {
    var once, again := Marshal(Arr(items)).items, Marshal(RoundTrip(Arr(items))).items;
    assert forall i :: 0 <= i < |items| ==> again[i] == Marshal(RoundTrip(items[i])) && once[i] == Marshal(items[i]);
    assert again == once <==> forall i :: 0 <= i < |items| ==> again[i] == once[i];
  }

  lemma FieldsStableIff(fields: Fields)
    requires forall k :: k in fields ==> (Marshal(RoundTrip(fields[k])) == Marshal(fields[k]) <==> IntsSurvive(fields[k]))
    ensures Marshal(RoundTrip(Obj(fields))) == Marshal(Obj(fields)) <==> IntsSurvive(Obj(fields))
  {
    var once, again := Marshal(Obj(fields)).fields, Marshal(RoundTrip(Obj(fields))).fields;
    assert once.Keys == again.Keys == fields.Keys;
    assert forall k :: k in fields ==> again[k] == Marshal(RoundTrip(fields[k])) && once[k] == Marshal(fields[k]);
    SameMembers(once, again);
  }

  lemma SameMembers(once: map<Key, Doc>, again: map<Key, Doc>)
    requires once.Keys == again.Keys
    ensures again == once <==> forall k :: k in once ==> again[k] == once[k]
  {
  }

  lemma NumberStableIff(j: Json)
    requires WellFormed(j) && (j.Int? || j.Float?)
    ensures Marshal(RoundTrip(j)) == Marshal(j) <==> IntsSurvive(j)
  {
    match j
    case Int(n) => assert (RoundInt(n) as real).Floor == RoundInt(n);
    case Float(r) => if r == r.Floor as real { FloatNumeralReadsBack(r.Floor); }
  }

  /** The text of a value is the text of what is decoded from it exactly when
      every integer survives. */
  lemma {:induction false} TextIsStableIff(j: Json)
    requires WellFormed(j)
    ensures Marshal(RoundTrip(j)) == Marshal(j) <==> IntsSurvive(j)
  {
    match j
    case Int(_) => NumberStableIff(j);
    case Float(_) => NumberStableIff(j);
    case Arr(items) =>
      forall i | 0 <= i < |items|
        ensures Marshal(RoundTrip(items[i])) == Marshal(items[i]) <==> IntsSurvive(items[i])
      { TextIsStableIff(items[i]); }
      ItemsStableIff(items);
    case Obj(fields) =>
      forall k | k in fields
        ensures Marshal(RoundTrip(fields[k])) == Marshal(fields[k]) <==> IntsSurvive(fields[k])
      { TextIsStableIff(fields[k]); }
      FieldsStableIff(fields);
    case _ =>
  }

  /** An object after a trip through JSON text. */
  function Decoded(fields: Fields): Fields {
    RoundTrip(Obj(fields)).fields
  }

  lemma DecodedIsStable(fields: Fields)
    ensures Decoded(Decoded(fields)) == Decoded(fields)
  {
    RoundTripIsIdempotent(Obj(fields));
  }

  // ---- readers used on decoded values ----

  /** Integers stay; a float64 is accepted when it is whole and in the range of int. */
  function NumberAsInt(value: Option<Json>): Option<int> {
    match value
    case Some(Int(n)) => Some(n)
    case Some(Float(r)) =>
      if r == r.Floor as real && -MAX_INT64 - 1 <= r.Floor <= MAX_INT64 then Some(r.Floor) else None
    case _ => None
  }

  function Get(fields: Fields, key: Key): Option<Json> {
    if key in fields then Some(fields[key]) else None
  }

  function GetObj(fields: Fields, key: Key): Option<Fields> {
    if key in fields && fields[key].Obj? then Some(fields[key].fields) else None
  }

  function GetArr(fields: Fields, key: Key): Option<seq<Json>> {
    if key in fields && fields[key].Arr? then Some(fields[key].items) else None
  }

  function GetStr(fields: Fields, key: Key): Option<string> {
    if key in fields && fields[key].Str? then Some(fields[key].s) else None
  }

  /** Every Go integer in the tree is in the interoperable range. */
  predicate SmallInts(j: Json) {
    match j
    case Int(n) => -(TWO53 as int) < n < TWO53
    case Arr(items) => forall i :: 0 <= i < |items| ==> SmallInts(items[i])
    case Obj(fields) => forall k :: k in fields ==> SmallInts(fields[k])
    case _ => true
  }

  lemma {:induction false} SmallIntsSurvive(j: Json)
    requires SmallInts(j)
    ensures IntsSurvive(j)
  {
    match j
    case Int(n) => InteroperableIntSurvives(n);
    case Arr(items) => forall i | 0 <= i < |items| ensures IntsSurvive(items[i]) { SmallIntsSurvive(items[i]); }
    case Obj(fields) => forall k | k in fields ensures IntsSurvive(fields[k]) { SmallIntsSurvive(fields[k]); }
    case _ =>
  }

  /** A small integer, or a float64, is read as the same integer after the trip. */
  lemma NumberAsIntIsStable(value: Json)
    requires WellFormed(value) && SmallInts(value)
    ensures NumberAsInt(Some(RoundTrip(value))) == NumberAsInt(Some(value))
  {
    match value
    case Int(n) =>
      InteroperableIntSurvives(n);
      assert (n as real).Floor == n;
    case Float(r) =>
      if r == r.Floor as real { FloatNumeralReadsBack(r.Floor); }
    case _ =>
  }
}
