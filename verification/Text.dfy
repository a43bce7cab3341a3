/** Text helpers shared by the panel and the agent: the whitespace rules of
    trimming, the code-point order of identifiers and decimal printing. */
module Text {

  datatype Option<+T> = None | Some(value: T)

  /** The characters that trimming removes (Unicode White_Space). */
  predicate IsSpace(c: char) {
    || '\t' <= c <= '\r' || c == ' ' || c == '\U{85}' || c == '\U{A0}'
    || c == '\U{1680}' || '\U{2000}' <= c <= '\U{200A}' || c == '\U{2028}'
    || c == '\U{2029}' || c == '\U{202F}' || c == '\U{205F}' || c == '\U{3000}'
  }

  function TrimLeft(s: string): string {
    if s != "" && IsSpace(s[0]) then TrimLeft(s[1..]) else s
  }

  function TrimRight(s: string): string {
    if s != "" && IsSpace(s[|s| - 1]) then TrimRight(s[..|s| - 1]) else s
  }

  lemma {:induction false} TrimLeftIs(s: string)
    ensures
      var r := TrimLeft(s);
      && (r == "" || !IsSpace(r[0]))
      && |r| <= |s| && r == s[|s| - |r|..]
      && forall i :: 0 <= i < |s| - |r| ==> IsSpace(s[i])
  {
    if s != "" && IsSpace(s[0]) { TrimLeftIs(s[1..]); }
  }

  lemma {:induction false} TrimRightIs(s: string)
    ensures
      var r := TrimRight(s);
      && (r == "" || !IsSpace(r[|r| - 1]))
      && r <= s
      && forall i :: |r| <= i < |s| ==> IsSpace(s[i])
  {
    if s != "" && IsSpace(s[|s| - 1]) { TrimRightIs(s[..|s| - 1]); }
  }

  function TrimSpace(s: string): string {
    TrimRight(TrimLeft(s))
  }

  predicate Blank(s: string) {
    forall i :: 0 <= i < |s| ==> IsSpace(s[i])
  }

  /** Trimming leaves the string alone. */
  predicate Trimmed(s: string) {
    s == "" || (!IsSpace(s[0]) && !IsSpace(s[|s| - 1]))
  }

  lemma TrimSpaceIsTrimmed(s: string)
    ensures Trimmed(TrimSpace(s))
  {
    var l := TrimLeft(s);
    var r := TrimRight(l);
    TrimLeftIs(s);
    TrimRightIs(l);
    if r != "" {
      assert r[0] == l[0];
    }
  }

  lemma TrimmedIsFixed(s: string)
    requires Trimmed(s)
    ensures TrimSpace(s) == s
  {
    if s != "" {
      assert TrimLeft(s) == s;
    }
  }

  /** Blank is the source's test TrimSpace(s) == "". */
  lemma BlankMeansTrimmedAway(s: string)
    ensures Blank(s) <==> TrimSpace(s) == ""
  {
    var l := TrimLeft(s);
    TrimLeftIs(s);
    TrimRightIs(l);
    if TrimSpace(s) != "" {
      assert l[0] == s[|s| - |l|];
    }
  }

  /** Go's string order on valid UTF-8 is the order of code points. */
  predicate StringLess(a: string, b: string) {
    if b == "" then false
    else if a == "" then true
    else if a[0] != b[0] then a[0] < b[0]
    else StringLess(a[1..], b[1..])
  }

  lemma {:induction false} StringLessTotal(a: string, b: string)
    ensures a != b ==> StringLess(a, b) || StringLess(b, a)
    ensures !(StringLess(a, b) && StringLess(b, a))
    ensures StringLess(a, b) ==> a != b
  {
    if a != "" && b != "" && a[0] == b[0] {
      StringLessTotal(a[1..], b[1..]);
      assert a == [a[0]] + a[1..] && b == [b[0]] + b[1..];
    }
  }

  lemma {:induction false} StringLessTransitive(a: string, b: string, c: string)
    requires StringLess(a, b) && StringLess(b, c)
    ensures StringLess(a, c)
  {
    if a != "" && a[0] == b[0] && b[0] == c[0] {
      StringLessTransitive(a[1..], b[1..], c[1..]);
    }
  }

  function Digit(d: nat): char
    requires d < 10
  {
    '0' + d as char
  }

  function Digits(n: nat): (s: string)
    ensures s != "" && forall i :: 0 <= i < |s| ==> '0' <= s[i] <= '9'
  {
    if n < 10 then [Digit(n)] else Digits(n / 10) + [Digit(n % 10)]
  }

  /** The %d verb. */
  function IntText(n: int): (s: string)
    ensures s != "" && forall i :: 0 <= i < |s| ==> s[i] == '-' || '0' <= s[i] <= '9'
  {
    if n < 0 then "-" + Digits(-n) else Digits(n)
  }

  function DigitsValue(s: string): nat
    requires forall i :: 0 <= i < |s| ==> '0' <= s[i] <= '9'
  {
    if s == "" then 0
    else DigitsValue(s[..|s| - 1]) * 10 + (s[|s| - 1] - '0') as nat
  }

  /** Reading back a printed integer; text in any other form is refused. */
  function ParseInt(s: string): Option<int> {
    if s != "" && s[0] == '-' && s[1..] != "" && forall i :: 1 <= i < |s| ==> '0' <= s[i] <= '9' then
      Some(-(DigitsValue(s[1..]) as int))
    else if s != "" && forall i :: 0 <= i < |s| ==> '0' <= s[i] <= '9' then
      Some(DigitsValue(s))
    else None
  }

  lemma {:induction false} DigitsRoundTrip(n: nat)
    ensures DigitsValue(Digits(n)) == n
  {
    if n >= 10 {
      DigitsRoundTrip(n / 10);
      var s := Digits(n);
      assert s[..|s| - 1] == Digits(n / 10);
      assert s[|s| - 1] == Digit(n % 10);
    }
  }

  lemma ParseIntInvertsIntText(n: int)
    ensures ParseInt(IntText(n)) == Some(n)
  {
    if n < 0 {
      DigitsRoundTrip(-n);
      assert ("-" + Digits(-n))[1..] == Digits(-n);
    } else {
      DigitsRoundTrip(n);
    }
  }

  lemma IntTextInjective(m: int, n: int)
    requires IntText(m) == IntText(n)
    ensures m == n
  {
    ParseIntInvertsIntText(m);
    ParseIntInvertsIntText(n);
  }
}
