/** Reading xray's traffic counters (xray_collector.go). */
module TrafficStats {
  import opened Text
  import opened Json
  import opened Traffic

  // ---- searching text ----

  predicate At(s: string, sub: string, j: nat) {
    j + |sub| <= |s| && s[j..j + |sub|] == sub
  }

  /** The first occurrence from i on. */
  function IndexFrom(s: string, sub: string, i: nat): (r: Option<nat>)
    requires i <= |s|
    ensures r.Some? ==> i <= r.value && At(s, sub, r.value) && forall k: nat :: i <= k < r.value ==> !At(s, sub, k)
    ensures r.None? ==> forall k: nat :: i <= k ==> !At(s, sub, k)
    decreases |s| - i
  {
    if At(s, sub, i) then Some(i) else if i == |s| then None else IndexFrom(s, sub, i + 1)
  }

  function Index(s: string, sub: string): Option<nat> {
    IndexFrom(s, sub, 0)
  }

  /** The last occurrence before or at i. */
  function LastIndexFrom(s: string, sub: string, i: nat): (r: Option<nat>)
    ensures r.Some? ==> r.value <= i && At(s, sub, r.value) && forall k: nat :: r.value < k <= i ==> !At(s, sub, k)
    ensures r.None? ==> forall k: nat :: k <= i ==> !At(s, sub, k)
  {
    if At(s, sub, i) then Some(i) else if i == 0 then None else LastIndexFrom(s, sub, i - 1)
  }

  function LastIndex(s: string, sub: string): Option<nat> {
    LastIndexFrom(s, sub, |s|)
  }

  /** The text up to the first separator, and so on. */
  function Split(s: string, sep: string): seq<string>
    requires sep != ""
    decreases |s|
  {
    match Index(s, sep)
    case None => [s]
    case Some(j) => [s[..j]] + Split(s[j + |sep|..], sep)
  }

  // ---- one line ----

  function TrimClosing(s: string): string {
    if s != "" && (s[|s| - 1] == ' ' || s[|s| - 1] == '}') then TrimClosing(s[..|s| - 1]) else s
  }

  predicate IsDigit(c: char) {
    '0' <= c <= '9'
  }

  function LeadingDigits(s: string): (r: string)
    ensures forall i :: 0 <= i < |r| ==> IsDigit(r[i])
  {
    if s != "" && IsDigit(s[0]) then [s[0]] + LeadingDigits(s[1..]) else ""
  }

  /** Scanning a %d: 0 unless the text starts with an int64. */
  function ScanInt(s: string): int {
    var signed := s != "" && (s[0] == '-' || s[0] == '+');
    var digits := LeadingDigits(if signed then s[1..] else s);
    var n := if s != "" && s[0] == '-' then -(DigitsValue(digits) as int) else DigitsValue(digits);
    if digits == "" || !Fits64(n) then 0 else n
  }

  const NAME_KEY := "name: \""
  const QUOTE := "\""
  const VALUE_SPACE := "value: "
  const VALUE := "value:"

  function ParseStatLine(line: string): (string, int) {
    match Index(line, NAME_KEY)
    case Some(at) =>
      var rest := line[at + |NAME_KEY|..];
      (match Index(rest, QUOTE)
       case None => ("", 0)
       case Some(end) =>
         match Index(line, VALUE_SPACE)
         case None => (rest[..end], 0)
         case Some(v) => (rest[..end], ScanInt(TrimClosing(TrimSpace(line[v + |VALUE_SPACE|..])))))
    case None =>
      match LastIndex(line, VALUE)
      case None => ("", 0)
      case Some(v) => (TrimSpace(line[..v]), ScanInt(TrimSpace(line[v + |VALUE|..])))
  }

  function ParseIdentity(identity: string): (string, string) {
    match Index(identity, "@")
    case None => (identity, "")
    case Some(j) => (identity[..j], identity[j + 1..])
  }

  datatype Record = Record(subscriptionId: string, deviceId: string, up: int, down: int)

  const SEPARATOR := ">>>"
  const USER_PREFIX := "user>>>"

  /** What one line adds to its record; None when it is skipped. */
  function ParseLine(text: string): Option<Record> {
    var line := TrimSpace(text);
    if line == "" || Index(line, USER_PREFIX).None? then None
    else
      var (name, value) := ParseStatLine(line);
      if name == "" then None
      else
        var parts := Split(name, SEPARATOR);
        if |parts| < 4 || parts[0] != "user" || parts[2] != "traffic" then None
        else
          var (sub, device) := ParseIdentity(parts[1]);
          if sub == "" then None
          else
            Some(Record(
              sub, device, if parts[3] == "uplink" then value else 0, if parts[3] == "downlink" then value else 0))
  }

  // ---- both printed forms are read back ----

  lemma IndexIs(s: string, sub: string, j: nat)
    requires At(s, sub, j) && forall k: nat :: k < j ==> !At(s, sub, k)
    ensures Index(s, sub) == Some(j)
  {
  }

  lemma LastIndexIs(s: string, sub: string, j: nat)
    requires At(s, sub, j) && forall k: nat :: j < k <= |s| ==> !At(s, sub, k)
    ensures LastIndex(s, sub) == Some(j)
  {
  }

  predicate Without(s: string, c: char) {
    forall i :: 0 <= i < |s| ==> s[i] != c
  }

  lemma StartsElsewhere(s: string, sub: string, k: nat)
    requires sub != "" && (k >= |s| || s[k] != sub[0])
    ensures !At(s, sub, k)
  {
    if k + |sub| <= |s| { assert s[k..k + |sub|][0] == s[k]; }
  }

  lemma CrossesElsewhere(s: string, sub: string, k: nat, i: nat)
    requires i < |sub| && k + i < |s| && s[k + i] != sub[i]
    ensures !At(s, sub, k)
  {
    if k + |sub| <= |s| { assert s[k..k + |sub|][i] == s[k + i]; }
  }

  lemma {:induction false} DigitsAreLeading(s: string)
    requires forall i :: 0 <= i < |s| ==> IsDigit(s[i])
    ensures LeadingDigits(s) == s
  {
    if s != "" {
      DigitsAreLeading(s[1..]);
      assert s == [s[0]] + s[1..];
    }
  }

  lemma ScanInvertsPrint(n: int)
    requires Fits64(n)
    ensures ScanInt(IntText(n)) == n
  {
    if n < 0 {
      assert ("-" + Digits(-n))[1..] == Digits(-n);
      DigitsAreLeading(Digits(-n));
      DigitsRoundTrip(-n);
    } else {
      DigitsAreLeading(Digits(n));
      DigitsRoundTrip(n);
    }
  }

  lemma {:induction false} DigitsEndInDigit(n: nat)
    ensures IsDigit(Digits(n)[|Digits(n)| - 1]) && IsDigit(Digits(n)[0])
  {
  }

  lemma IntTextEnds(n: int)
    ensures
      var s := IntText(n);
      IsDigit(s[|s| - 1]) && (IsDigit(s[0]) || s[0] == '-')
  {
    if n < 0 {
      DigitsEndInDigit(-n);
      assert IntText(n)[|IntText(n)| - 1] == Digits(-n)[|Digits(-n)| - 1];
    } else {
      DigitsEndInDigit(n);
    }
  }

  lemma ClosingIsTrimmed(n: int)
    ensures TrimSpace(IntText(n) + " }") == IntText(n) + " }"
    ensures TrimClosing(IntText(n) + " }") == IntText(n)
  {
    var s := IntText(n) + " }";
    IntTextEnds(n);
    TrimmedIsFixed(s);
    assert s[..|s| - 1] == IntText(n) + " ";
    assert (IntText(n) + " ")[..|IntText(n)|] == IntText(n);
    assert TrimClosing(IntText(n) + " ") == TrimClosing(IntText(n));
  }

  /** stat: { name: "NAME" value: N } */
  function Quoted(name: string, n: int): string {
    "stat: { name: \"" + name + "\" value: " + IntText(n) + " }"
  }

  /** NAME  value: N */
  function Plain(name: string, n: int): string {
    name + "  value: " + IntText(n)
  }

  /** A name that can stand between quotes. */
  ghost predicate QuotableName(name: string) {
    Without(name, '"') && forall k: nat :: !At(name, VALUE, k)
  }

  /** Without quotes it has to be visible where it starts and ends, too. */
  ghost predicate PlainName(name: string) {
    name != "" && Trimmed(name) && QuotableName(name)
  }

  const HEAD := "stat: { name: \""

  lemma QuotedNameFound(name: string, tail: string, line: string)
    requires line == HEAD + name + tail && Without(name, '"') && tail != "" && tail[0] == '"'
    ensures Index(line, NAME_KEY) == Some(8) && line[8 + |NAME_KEY|..] == name + tail
    ensures Index(name + tail, QUOTE) == Some(|name|) && (name + tail)[..|name|] == name
  {
    assert line[8..15] == HEAD[8..15] == NAME_KEY;
    forall k: nat | k < 8 ensures !At(line, NAME_KEY, k) {
      assert line[k] == HEAD[k];
      StartsElsewhere(line, NAME_KEY, k);
    }
    IndexIs(line, NAME_KEY, 8);
    var rest := name + tail;
    assert rest[|name|..|name| + 1] == QUOTE;
    forall k: nat | k < |name| ensures !At(rest, QUOTE, k) { StartsElsewhere(rest, QUOTE, k); }
    IndexIs(rest, QUOTE, |name|);
  }

  /** An occurrence of VALUE_SPACE inside the name is one of VALUE in the name. */
  lemma ValueWithinName(name: string, line: string, k: nat)
    requires |HEAD| + |name| <= |line| && line[|HEAD|..|HEAD| + |name|] == name
    requires |HEAD| <= k && k + |VALUE_SPACE| <= |HEAD| + |name| && At(line, VALUE_SPACE, k)
    ensures At(name, VALUE, k - |HEAD|)
  {
    var j := k - |HEAD|;
    forall i | 0 <= i < |VALUE| ensures name[j + i] == VALUE[i] {
      assert line[k..k + |VALUE_SPACE|][i] == VALUE_SPACE[i] == VALUE[i];
      assert line[|HEAD|..|HEAD| + |name|][j + i] == line[k + i];
    }
    assert name[j..j + |VALUE|] == VALUE;
  }

  lemma ValueNotInName(name: string, line: string, k: nat)
    requires |HEAD| + |name| < |line| && line[|HEAD|..|HEAD| + |name|] == name && line[|HEAD| + |name|] == '"'
    requires QuotableName(name) && |HEAD| <= k < |HEAD| + |name|
    ensures !At(line, VALUE_SPACE, k)
  {
    var end := |HEAD| + |name|;
    if k + |VALUE_SPACE| > end {
      CrossesElsewhere(line, VALUE_SPACE, k, end - k);
    } else if At(line, VALUE_SPACE, k) {
      ValueWithinName(name, line, k);
    }
  }

  lemma QuotedValueFound(name: string, text: string, line: string)
    requires QuotableName(name) && line == HEAD + name + "\" value: " + text
    ensures Index(line, VALUE_SPACE) == Some(|HEAD| + |name| + 2)
    ensures line[|HEAD| + |name| + 2 + |VALUE_SPACE|..] == text
  {
    var v := |HEAD| + |name| + 2;
    assert line == HEAD + name + "\" " + VALUE_SPACE + text;
    assert line[v..v + |VALUE_SPACE|] == VALUE_SPACE;
    forall k: nat | k < v ensures !At(line, VALUE_SPACE, k) {
      if k < |HEAD| {
        assert line[k] == HEAD[k];
        StartsElsewhere(line, VALUE_SPACE, k);
      } else if k < |HEAD| + |name| {
        ValueNotInName(name, line, k);
      } else {
        StartsElsewhere(line, VALUE_SPACE, k);
      }
    }
    IndexIs(line, VALUE_SPACE, v);
  }

  /** The JSON-like form is read back. */
  lemma QuotedIsReadBack(name: string, n: int)
    requires QuotableName(name) && Fits64(n)
    ensures ParseStatLine(Quoted(name, n)) == (name, n)
  {
    var line, text := Quoted(name, n), IntText(n) + " }";
    var tail := "\" value: " + text;
    assert line == HEAD + name + tail;
    QuotedNameFound(name, tail, line);
    assert line == HEAD + name + "\" value: " + text;
    QuotedValueFound(name, text, line);
    ClosingIsTrimmed(n);
    ScanInvertsPrint(n);
  }

  lemma NoQuoteNoName(line: string)
    requires Without(line, '"')
    ensures Index(line, NAME_KEY).None?
  {
    forall k: nat ensures !At(line, NAME_KEY, k) {
      if k + |NAME_KEY| <= |line| { CrossesElsewhere(line, NAME_KEY, k, 6); }
    }
  }

  lemma PlainValueFound(name: string, text: string, line: string)
    requires line == name + "  " + VALUE + " " + text && Without(text, 'v')
    ensures LastIndex(line, VALUE) == Some(|name| + 2)
    ensures line[..|name| + 2] == name + "  " && line[|name| + 2 + |VALUE|..] == " " + text
  {
    var v := |name| + 2;
    assert line[v..v + |VALUE|] == VALUE;
    forall k: nat | v < k <= |line| ensures !At(line, VALUE, k) {
      if k < v + |VALUE| { assert line[k] == VALUE[k - v]; }
      StartsElsewhere(line, VALUE, k);
    }
    LastIndexIs(line, VALUE, v);
  }

  lemma PaddedIsTrimmed(s: string)
    requires s != "" && Trimmed(s)
    ensures TrimSpace(s + "  ") == s && TrimSpace(" " + s) == s
  {
    var padded := s + "  ";
    assert TrimLeft(padded) == padded;
    assert padded[..|padded| - 1] == s + " " && (s + " ")[..|s|] == s;
    assert TrimRight(padded) == TrimRight(s + " ") == TrimRight(s) == s;
    assert (" " + s)[1..] == s;
    assert TrimLeft(" " + s) == TrimLeft(s) == s;
  }

  lemma PlainParts(line: string, v: nat, left: string, right: string)
    requires Index(line, NAME_KEY).None? && LastIndex(line, VALUE) == Some(v)
    requires v + |VALUE| <= |line| && line[..v] == left && line[v + |VALUE|..] == right
    ensures ParseStatLine(line) == (TrimSpace(left), ScanInt(TrimSpace(right)))
  {
  }

  lemma PlainHasNoQuote(name: string, n: int)
    requires Without(name, '"')
    ensures Without(Plain(name, n), '"') && Without(IntText(n), 'v')
  {
  }

  /** The plain form is read back. */
  lemma PlainIsReadBack(name: string, n: int)
    requires PlainName(name) && Fits64(n)
    ensures ParseStatLine(Plain(name, n)) == (name, n)
  {
    var line, text := Plain(name, n), IntText(n);
    assert line == name + "  " + VALUE + " " + text;
    PlainHasNoQuote(name, n);
    NoQuoteNoName(line);
    PlainValueFound(name, text, line);
    PlainParts(line, |name| + 2, name + "  ", " " + text);
    PaddedIsTrimmed(name);
    IntTextIsTrimmed(n);
    PaddedIsTrimmed(text);
    ScanInvertsPrint(n);
  }

  lemma IntTextIsTrimmed(n: int)
    ensures IntText(n) != "" && Trimmed(IntText(n))
  {
    IntTextEnds(n);
  }

  // ---- from a printed line to its record ----

  /** How xray names the counter of a user, in one direction. */
  function StatName(identity: string, uplink: bool): string {
    Joined("user", identity, "traffic", if uplink then "uplink" else "downlink")
  }

  function Joined(a: string, b: string, c: string, d: string): string {
    a + SEPARATOR + (b + SEPARATOR + (c + SEPARATOR + d))
  }

  lemma SplitHead(head: string, rest: string)
    requires Without(head, '>')
    ensures Split(head + SEPARATOR + rest, SEPARATOR) == [head] + Split(rest, SEPARATOR)
  {
    var s := head + SEPARATOR + rest;
    assert s[|head|..|head| + |SEPARATOR|] == SEPARATOR;
    forall k: nat | k < |head| ensures !At(s, SEPARATOR, k) { StartsElsewhere(s, SEPARATOR, k); }
    IndexIs(s, SEPARATOR, |head|);
    assert s[..|head|] == head && s[|head| + |SEPARATOR|..] == rest;
  }

  lemma SplitLast(s: string)
    requires Without(s, '>')
    ensures Split(s, SEPARATOR) == [s]
  {
    forall k: nat ensures !At(s, SEPARATOR, k) { StartsElsewhere(s, SEPARATOR, k); }
  }

  lemma SplitFour(a: string, b: string, c: string, d: string)
    requires Without(a, '>') && Without(b, '>') && Without(c, '>') && Without(d, '>')
    ensures Split(Joined(a, b, c, d), SEPARATOR) == [a, b, c, d]
  {
    SplitHead(a, b + SEPARATOR + (c + SEPARATOR + d));
    SplitHead(b, c + SEPARATOR + d);
    SplitHead(c, d);
    SplitLast(d);
  }

  /** The parts of a counter's name. */
  lemma StatNameSplits(identity: string, direction: string, name: string)
    requires Without(identity, '>') && Without(direction, '>') && name == Joined("user", identity, "traffic", direction)
    ensures Split(name, SEPARATOR) == ["user", identity, "traffic", direction]
  {
    SplitFour("user", identity, "traffic", direction);
  }

  /** An identity without a device has no '@'. */
  function IdentityText(sub: string, device: string): string {
    if device == "" then sub else sub + "@" + device
  }

  lemma IdentityIsReadBack(sub: string, device: string)
    requires Without(sub, '@')
    ensures ParseIdentity(IdentityText(sub, device)) == (sub, device)
  {
    var text := IdentityText(sub, device);
    if device == "" {
      forall k: nat ensures !At(text, "@", k) { StartsElsewhere(text, "@", k); }
    } else {
      assert text[|sub|..|sub| + 1] == "@";
      forall k: nat | k < |sub| ensures !At(text, "@", k) { StartsElsewhere(text, "@", k); }
      IndexIs(text, "@", |sub|);
      assert text[..|sub|] == sub && text[|sub| + 1..] == device;
    }
  }

  /** The line has the name from position i on, so it has the prefix there. */
  lemma HasPrefix(line: string, identity: string, uplink: bool, i: nat)
    requires i + |StatName(identity, uplink)| <= |line|
    requires line[i..i + |StatName(identity, uplink)|] == StatName(identity, uplink)
    ensures Index(line, USER_PREFIX).Some?
  {
    var name := StatName(identity, uplink);
    assert name[..|USER_PREFIX|] == USER_PREFIX;
    assert line[i..i + |USER_PREFIX|] == line[i..i + |name|][..|USER_PREFIX|];
    assert At(line, USER_PREFIX, i);
  }

  /** What a line with this name and value adds. */
  function StatRecord(sub: string, device: string, uplink: bool, n: int): Record {
    Record(sub, device, if uplink then n else 0, if uplink then 0 else n)
  }

  lemma ParsedParts(
    line: string, name: string, n: int, parts: seq<string>, sub: string, device: string)
    requires TrimSpace(line) == line && line != "" && Index(line, USER_PREFIX).Some?
    requires ParseStatLine(line) == (name, n) && name != "" && Split(name, SEPARATOR) == parts
    requires |parts| == 4 && parts[0] == "user" && parts[2] == "traffic"
    requires ParseIdentity(parts[1]) == (sub, device) && sub != ""
    ensures ParseLine(line) == Some(Record(
      sub, device, if parts[3] == "uplink" then n else 0, if parts[3] == "downlink" then n else 0))
  {
  }

  lemma ParsedName(line: string, sub: string, device: string, uplink: bool, n: int, name: string)
    requires Trimmed(line) && line != "" && Index(line, USER_PREFIX).Some?
    requires name == StatName(IdentityText(sub, device), uplink)
    requires sub != "" && Without(sub, '@') && Without(IdentityText(sub, device), '>')
    requires ParseStatLine(line) == (name, n)
    ensures ParseLine(line) == Some(StatRecord(sub, device, uplink, n))
  {
    var identity, direction := IdentityText(sub, device), if uplink then "uplink" else "downlink";
    TrimmedIsFixed(line);
    StatNameEnds(identity, uplink, name);
    StatNameSplits(identity, direction, name);
    IdentityIsReadBack(sub, device);
    ParsedParts(line, name, n, ["user", identity, "traffic", direction], sub, device);
  }

  lemma QuotedSurrounds(name: string, n: int, line: string)
    requires line == Quoted(name, n)
    ensures |HEAD| + |name| <= |line| && line[|HEAD|..|HEAD| + |name|] == name && Trimmed(line)
  {
    assert line == HEAD + name + ("\" value: " + IntText(n) + " }");
    assert line[0] == HEAD[0] == 's' && line[|line| - 1] == '}';
  }

  lemma PlainSurrounds(name: string, n: int, line: string)
    requires line == Plain(name, n) && name != "" && Trimmed(name)
    ensures |name| <= |line| && line[0..|name|] == name && Trimmed(line)
  {
    IntTextEnds(n);
    assert line[0] == name[0] && line[|line| - 1] == IntText(n)[|IntText(n)| - 1];
  }

  /** A printed counter of a subscription and device becomes its record, in both forms
      of the line. */
  lemma PrintedLineIsRecorded(sub: string, device: string, uplink: bool, n: int, name: string)
    requires sub != "" && Without(sub, '@') && Without(IdentityText(sub, device), '>') && Fits64(n)
    requires name == StatName(IdentityText(sub, device), uplink) && QuotableName(name)
    ensures ParseLine(Quoted(name, n)) == Some(StatRecord(sub, device, uplink, n))
    ensures ParseLine(Plain(name, n)) == Some(StatRecord(sub, device, uplink, n))
  {
    var quoted, plain := Quoted(name, n), Plain(name, n);
    QuotedSurrounds(name, n, quoted);
    HasPrefix(quoted, IdentityText(sub, device), uplink, |HEAD|);
    QuotedIsReadBack(name, n);
    ParsedName(quoted, sub, device, uplink, n, name);
    StatNameEnds(IdentityText(sub, device), uplink, name);
    PlainSurrounds(name, n, plain);
    HasPrefix(plain, IdentityText(sub, device), uplink, 0);
    PlainIsReadBack(name, n);
    ParsedName(plain, sub, device, uplink, n, name);
  }

  lemma StatNameEnds(identity: string, uplink: bool, name: string)
    requires name == StatName(identity, uplink)
    ensures name != "" && Trimmed(name)
  {
    assert name[0] == 'u' && name[|name| - 1] == 'k';
  }

  // ---- sums ----

  type RecordKey = (string, string)

  function KeyOf(r: Record): RecordKey {
    (r.subscriptionId, r.deviceId)
  }

  type LineReader = string -> Option<Record>

  function SamplesBy(lines: seq<string>, read: LineReader): seq<Record> {
    if lines == [] then []
    else
      SamplesBy(lines[..|lines| - 1], read) +
      (match read(lines[|lines| - 1]) case Some(r) => [r] case None => [])
  }

  function Samples(lines: seq<string>): seq<Record> {
    SamplesBy(lines, ParseLine)
  }

  function UpSum(samples: seq<Record>, key: RecordKey): int {
    if samples == [] then 0
    else
      var last := samples[|samples| - 1];
      UpSum(samples[..|samples| - 1], key) + if KeyOf(last) == key then last.up else 0
  }

  function DownSum(samples: seq<Record>, key: RecordKey): int {
    if samples == [] then 0
    else
      var last := samples[|samples| - 1];
      DownSum(samples[..|samples| - 1], key) + if KeyOf(last) == key then last.down else 0
  }

  function Keys(samples: seq<Record>): set<RecordKey> {
    set i | 0 <= i < |samples| :: KeyOf(samples[i])
  }

  /** The record of a key: its int64 sums. */
  function Total(samples: seq<Record>, key: RecordKey): Record {
    Record(key.0, key.1, Wrap64(UpSum(samples, key)), Wrap64(DownSum(samples, key)))
  }

  predicate Positive(r: Record) {
    r.up > 0 || r.down > 0
  }

  /** Exactly the positive totals, one record a key. */
  predicate Reports(records: seq<Record>, samples: seq<Record>) {
    && (forall i :: 0 <= i < |records| ==>
          KeyOf(records[i]) in Keys(samples) && records[i] == Total(samples, KeyOf(records[i])) && Positive(records[i]))
    && (forall i, j :: 0 <= i < j < |records| ==> KeyOf(records[i]) != KeyOf(records[j]))
    && (forall k :: k in Keys(samples) && Positive(Total(samples, k)) ==> Total(samples, k) in records)
  }

  lemma WrapAdds(a: int, b: int)
    ensures Wrap64(Wrap64(a) + b) == Wrap64(a + b)
  {
    var m, h := TWO64, MAX_INT64 + 1;
    var q := (a + h) / m;
    assert Wrap64(a) == a - q * m;
    ShiftedRemainder(a + b + h, q, m);
  }

  lemma ShiftedRemainder(x: int, q: int, m: int)
    requires m > 0
    ensures (x - q * m) % m == x % m
  {
    var k, r := x / m, x % m;
    assert x - q * m == (k - q) * m + r;
    RemainderIs(x - q * m, k - q, r, m);
  }

  lemma RemainderIs(x: int, k: int, r: int, m: int)
    requires m > 0 && 0 <= r < m && x == k * m + r
    ensures x % m == r
  {
    var d := x / m - k;
    assert d * m == x / m * m - k * m == r - x % m;
    if d >= 1 { MultipleAtLeast(d, m); } else if d <= -1 { MultipleAtLeast(-d, m); }
  }

  /** The map holds the total of every key so far. */
  predicate Accumulated(accum: map<RecordKey, Record>, samples: seq<Record>) {
    accum.Keys == Keys(samples) && forall k :: k in accum ==> accum[k] == Total(samples, k)
  }

  method AddToRecord(accum: map<RecordKey, Record>, sample: Record, ghost before: seq<Record>)
    returns (now: map<RecordKey, Record>)
    requires Accumulated(accum, before)
    ensures Accumulated(now, before + [sample])
  {
    var key := KeyOf(sample);
    var r := Record(key.0, key.1, 0, 0);
    if key in accum {
      r := accum[key];
    } else {
      UnseenIsZero(before, key);
    }
    AddSample(before, before + [sample], sample);
    now := accum[key := r.(up := Wrap64(r.up + sample.up), down := Wrap64(r.down + sample.down))];
  }

  method Accumulate(lines: seq<string>, read: LineReader) returns (accum: map<RecordKey, Record>)
    ensures Accumulated(accum, SamplesBy(lines, read))
  {
    accum := map[];
    for i := 0 to |lines|
      invariant Accumulated(accum, SamplesBy(lines[..i], read))
    {
      assert lines[..i + 1][..i] == lines[..i];
      var sample := read(lines[i]);
      assert SamplesBy(lines[..i + 1], read) ==
        if sample.Some? then SamplesBy(lines[..i], read) + [sample.value] else SamplesBy(lines[..i], read);
      if sample.Some? {
        accum := AddToRecord(accum, sample.value, SamplesBy(lines[..i], read));
      }
    }
    assert lines[..|lines|] == lines;
  }

  method ParseXrayStats(lines: seq<string>) returns (records: seq<Record>)
    ensures Reports(records, Samples(lines))
  {
    var accum := Accumulate(lines, ParseLine);
    records := Positives(accum, Samples(lines));
  }

  lemma AddSample(before: seq<Record>, after: seq<Record>, r: Record)
    requires after == before + [r]
    ensures Keys(after) == Keys(before) + {KeyOf(r)}
    ensures forall k :: k != KeyOf(r) ==> Total(after, k) == Total(before, k)
    ensures Total(after, KeyOf(r)) == Record(
      r.subscriptionId, r.deviceId, Wrap64(Total(before, KeyOf(r)).up + r.up),
      Wrap64(Total(before, KeyOf(r)).down + r.down))
  {
    assert after[..|before|] == before;
    WrapAdds(UpSum(before, KeyOf(r)), r.up);
    WrapAdds(DownSum(before, KeyOf(r)), r.down);
    forall k ensures k in Keys(after) <==> k in Keys(before) + {KeyOf(r)} {
      if k in Keys(before) {
        var i :| 0 <= i < |before| && KeyOf(before[i]) == k;
        assert KeyOf(after[i]) == k;
      }
      if k == KeyOf(r) { assert KeyOf(after[|before|]) == k; }
    }
  }

  lemma {:induction false} UnseenIsZero(samples: seq<Record>, key: RecordKey)
    requires key !in Keys(samples)
    ensures UpSum(samples, key) == 0 && DownSum(samples, key) == 0
  {
    if samples != [] {
      var front := samples[..|samples| - 1];
      assert KeyOf(samples[|samples| - 1]) in Keys(samples);
      assert Keys(front) <= Keys(samples) by {
        forall k | k in Keys(front) ensures k in Keys(samples) {
          var i :| 0 <= i < |front| && KeyOf(front[i]) == k;
          assert KeyOf(samples[i]) == k;
        }
      }
      UnseenIsZero(front, key);
    }
  }

  /** The loop over the map, in whatever order. */
  method Positives(accum: map<RecordKey, Record>, ghost samples: seq<Record>) returns (records: seq<Record>)
    requires Accumulated(accum, samples)
    ensures Reports(records, samples)
  {
    records := [];
    var left := accum.Keys;
    while left != {}
      invariant left <= accum.Keys
      invariant forall i :: 0 <= i < |records| ==>
        KeyOf(records[i]) in accum.Keys - left && records[i] == accum[KeyOf(records[i])] && Positive(records[i])
      invariant forall i, j :: 0 <= i < j < |records| ==> KeyOf(records[i]) != KeyOf(records[j])
      invariant forall k :: k in accum.Keys - left && Positive(accum[k]) ==> accum[k] in records
      decreases left
    {
      var k :| k in left;
      left := left - {k};
      if Positive(accum[k]) {
        records := records + [accum[k]];
      }
    }
  }

  // ---- what the totals mean ----

  predicate NonNegativeSamples(samples: seq<Record>) {
    forall i :: 0 <= i < |samples| ==> samples[i].up >= 0 && samples[i].down >= 0
  }

  lemma {:induction false} SumsAreNonNegative(samples: seq<Record>, key: RecordKey)
    requires NonNegativeSamples(samples)
    ensures UpSum(samples, key) >= 0 && DownSum(samples, key) >= 0
  {
    if samples != [] { SumsAreNonNegative(samples[..|samples| - 1], key); }
  }

  predicate SumsFit(samples: seq<Record>) {
    forall k :: k in Keys(samples) ==> Fits64(UpSum(samples, k)) && Fits64(DownSum(samples, k))
  }

  /** For counters that are not negative and sums that fit, the records are the
      sums of the lines, and only all-zero ones are dropped. */
  lemma RecordsAreSums(records: seq<Record>, samples: seq<Record>, key: RecordKey)
    requires Reports(records, samples) && NonNegativeSamples(samples) && SumsFit(samples)
    ensures (exists r :: r in records && KeyOf(r) == key) <==>
      UpSum(samples, key) > 0 || DownSum(samples, key) > 0
    ensures forall r :: r in records && KeyOf(r) == key ==>
      r.up == UpSum(samples, key) && r.down == DownSum(samples, key)
  {
    SumsAreNonNegative(samples, key);
    if key !in Keys(samples) {
      UnseenIsZero(samples, key);
    } else if Positive(Total(samples, key)) {
      assert KeyOf(Total(samples, key)) == key;
    }
  }

  lemma {:induction false} SumWithout(samples: seq<Record>, i: nat, key: RecordKey)
    requires i < |samples|
    ensures
      var rest := samples[..i] + samples[i + 1..];
      && UpSum(samples, key) == UpSum(rest, key) + (if KeyOf(samples[i]) == key then samples[i].up else 0)
      && DownSum(samples, key) == DownSum(rest, key) + (if KeyOf(samples[i]) == key then samples[i].down else 0)
    decreases |samples|
  {
    var k := |samples| - 1;
    var front := samples[..k];
    if i == k {
      assert samples[..i] + samples[i + 1..] == front;
    } else {
      var rest := samples[..i] + samples[i + 1..];
      assert rest[..|rest| - 1] == front[..i] + front[i + 1..];
      SumWithout(front, i, key);
    }
  }

  lemma TakeOut<T>(a: seq<T>, b: seq<T>) returns (i: nat)
    requires multiset(a) == multiset(b) && a != []
    ensures i < |b| && b[i] == a[|a| - 1]
    ensures multiset(b[..i] + b[i + 1..]) == multiset(a[..|a| - 1])
  {
    var k, last := |a| - 1, a[|a| - 1];
    assert a == a[..k] + [last];
    assert last in multiset(b);
    i :| 0 <= i < |b| && b[i] == last;
    assert b == b[..i] + [b[i]] + b[i + 1..];
    assert multiset(b) == multiset(b[..i]) + multiset{last} + multiset(b[i + 1..]);
    assert multiset(b[..i] + b[i + 1..]) == multiset(b) - multiset{last};
  }

  /** Sums do not depend on the order of the lines. */
  lemma {:induction false} SumsForgetOrder(a: seq<Record>, b: seq<Record>, key: RecordKey)
    requires multiset(a) == multiset(b)
    ensures UpSum(a, key) == UpSum(b, key) && DownSum(a, key) == DownSum(b, key)
    decreases |a|
  {
    if a == [] {
      assert |b| == |multiset(b)| == 0;
    } else {
      var i := TakeOut(a, b);
      SumWithout(b, i, key);
      SumsForgetOrder(a[..|a| - 1], b[..i] + b[i + 1..], key);
    }
  }

  lemma KeysForgetOrder(a: seq<Record>, b: seq<Record>)
    requires multiset(a) == multiset(b)
    ensures Keys(a) <= Keys(b)
  {
    forall k | k in Keys(a) ensures k in Keys(b) {
      var i :| 0 <= i < |a| && KeyOf(a[i]) == k;
      assert a[i] in multiset(b);
      var j :| 0 <= j < |b| && b[j] == a[i];
      assert KeyOf(b[j]) == k;
    }
  }

  lemma RecordsFollow(
    records: seq<Record>, samples: seq<Record>, records': seq<Record>, samples': seq<Record>, r: Record)
    requires multiset(samples) == multiset(samples')
    requires Reports(records, samples) && Reports(records', samples') && r in records
    ensures r in records'
  {
    KeysForgetOrder(samples, samples');
    SumsForgetOrder(samples, samples', KeyOf(r));
  }

  function SampleOf(text: string, read: LineReader): multiset<Record> {
    match read(text) case Some(r) => multiset{r} case None => multiset{}
  }

  lemma SamplesStep(lines: seq<string>, read: LineReader)
    requires lines != []
    ensures multiset(SamplesBy(lines, read)) ==
      multiset(SamplesBy(lines[..|lines| - 1], read)) + SampleOf(lines[|lines| - 1], read)
  {
  }

  /** The last line's sample comes last. */
  lemma SamplesAppend(front: seq<string>, last: string, lines: seq<string>, read: LineReader)
    requires lines == front + [last]
    ensures multiset(SamplesBy(lines, read)) == multiset(SamplesBy(front, read)) + SampleOf(last, read)
  {
    assert lines[..|lines| - 1] == front;
    SamplesStep(lines, read);
  }

  /** Leaving out a line leaves out its sample. */
  lemma {:induction false} SamplesWithout(
    before: seq<string>, line: string, after: seq<string>, lines: seq<string>, rest: seq<string>, read: LineReader)
    requires lines == before + [line] + after && rest == before + after
    ensures multiset(SamplesBy(lines, read)) == multiset(SamplesBy(rest, read)) + SampleOf(line, read)
    decreases |after|
  {
    if after == [] {
      assert lines == before + [line] && rest == before;
      SamplesAppend(before, line, lines, read);
    } else {
      var front, last := after[..|after| - 1], after[|after| - 1];
      assert after == front + [last];
      assert lines == before + [line] + front + [last] && rest == before + front + [last];
      SamplesAppend(before + [line] + front, last, lines, read);
      SamplesAppend(before + front, last, rest, read);
      SamplesWithout(before, line, front, before + [line] + front, before + front, read);
    }
  }

  lemma {:induction false} SamplesForgetOrder(a: seq<string>, b: seq<string>, read: LineReader)
    requires multiset(a) == multiset(b)
    ensures multiset(SamplesBy(a, read)) == multiset(SamplesBy(b, read))
    decreases |a|
  {
    if a == [] {
      assert |b| == |multiset(b)| == 0;
    } else {
      var i := TakeOut(a, b);
      SamplesStep(a, read);
      assert b == b[..i] + [b[i]] + b[i + 1..];
      SamplesWithout(b[..i], b[i], b[i + 1..], b, b[..i] + b[i + 1..], read);
      SamplesForgetOrder(a[..|a| - 1], b[..i] + b[i + 1..], read);
    }
  }

  /** The set of records does not depend on the order of the lines. */
  lemma RecordsForgetOrder(lines: seq<string>, records: seq<Record>, lines': seq<string>, records': seq<Record>)
    requires multiset(lines) == multiset(lines')
    requires Reports(records, Samples(lines)) && Reports(records', Samples(lines'))
    ensures forall r :: r in records <==> r in records'
  {
    SamplesForgetOrder(lines, lines', ParseLine);
    forall r ensures r in records <==> r in records' {
      if r in records { RecordsFollow(records, Samples(lines), records', Samples(lines'), r); }
      if r in records' { RecordsFollow(records', Samples(lines'), records, Samples(lines), r); }
    }
  }
}
