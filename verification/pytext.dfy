/** Python's conversions between integers and text: `str(n)` of an int and
    of the other JSON scalars, and `int(s)` of a str (decimal, as used by
    `int(port_mapping.get('HostPort', ...))` and by the `type=int` query
    argument of the logs route). */
module PyText {
  import opened Outcomes
  import opened JsonValues

  predicate IsDigit(c: char) {
    '0' <= c <= '9'
  }

  /** The characters `int()` skips around a number: the six ASCII
      whitespace characters, plus the non-ASCII (U+0080 and above) Unicode
      spaces, which CPython turns into ASCII spaces before parsing. The
      ASCII separators U+001C..U+001F are not among them. */
  predicate IsSpace(c: char) {
    || c == ' ' || c == '\t' || c == '\n' || c == '\r'
    || c == '\U{b}' || c == '\U{c}'
    || c == '\U{85}' || c == '\U{a0}' || c == '\U{1680}'
    || ('\U{2000}' <= c <= '\U{200a}')
    || c == '\U{2028}' || c == '\U{2029}' || c == '\U{202f}' || c == '\U{205f}'
    || c == '\U{3000}'
  }

  function DigitChar(d: nat): (c: char)
    requires d < 10
    ensures IsDigit(c)
  {
    ('0' as int + d) as char
  }

  function DigitValue(c: char): int {
    c as int - '0' as int
  }

  /** The decimal digits of a natural number, most significant first, no
      leading zeros. */
  function NatText(n: nat): (r: string)
    ensures |r| > 0
    ensures forall i :: 0 <= i < |r| ==> IsDigit(r[i])
    ensures |r| > 1 ==> r[0] != '0'
    decreases n
  {
    if n < 10 then [DigitChar(n)] else NatText(n / 10) + [DigitChar(n % 10)]
  }

  /** `str(n)` for an int. */
  function Decimal(n: int): string {
    if n < 0 then "-" + NatText(-n) else NatText(n)
  }

  /** CPython's default limit on the number of digits `int()` and `str()`
      convert between text and an int (`sys.get_int_max_str_digits()`). */
  const MaxStrDigits := 4300

  /** n has at most MaxStrDigits decimal digits. */
  predicate WithinDigitLimit(n: int) {
    |NatText(if n < 0 then -n else n)| <= MaxStrDigits
  }

  /** The value of a string of digits, read most significant first. */
  function Value(ds: string): int
    decreases |ds|
  {
    if |ds| == 0 then 0 else Value(ds[..|ds| - 1]) * 10 + DigitValue(ds[|ds| - 1])
  }

  /** The string without its underscores. */
  function Digits(s: string): (r: string)
    ensures |r| <= |s|
    decreases |s|
  {
    if |s| == 0 then "" else (if s[0] == '_' then "" else [s[0]]) + Digits(s[1..])
  }

  /** Digits, with single underscores allowed between two digits (PEP 515). */
  predicate IsDigitRun(s: string) {
    && |s| > 0
    && IsDigit(s[0])
    && IsDigit(s[|s| - 1])
    && (forall i :: 0 <= i < |s| ==> IsDigit(s[i]) || s[i] == '_')
    && (forall i :: 0 <= i < |s| - 1 ==> !(s[i] == '_' && s[i + 1] == '_'))
  }

  function StripStart(s: string): (r: string)
    decreases |s|
  {
    if |s| > 0 && IsSpace(s[0]) then StripStart(s[1..]) else s
  }

  function StripEnd(s: string): (r: string)
    decreases |s|
  {
    if |s| > 0 && IsSpace(s[|s| - 1]) then StripEnd(s[..|s| - 1]) else s
  }

  /** `int(s)` for a str in base 10: surrounding whitespace, an optional
      sign, then a digit run; None where Python raises ValueError. Text
      with no digit in it never parses. */
  function ParseInt(s: string): (r: Option<int>)
    ensures r.Some? ==> exists i :: 0 <= i < |s| && IsDigit(s[i])
  {
    StripSubstring(s);
    ParseTrimmed(StripEnd(StripStart(s)))
  }

  /** `int()` once the surrounding whitespace is gone; a run of more than
      MaxStrDigits digits (underscores not counted) raises ValueError. */
  function ParseTrimmed(t: string): Option<int> {
    if |t| > 0 && (t[0] == '-' || t[0] == '+') then
      if IsDigitRun(t[1..]) && |Digits(t[1..])| <= MaxStrDigits then
        var v := Value(Digits(t[1..]));
        Some(if t[0] == '-' then -v else v)
      else None
    else if IsDigitRun(t) && |Digits(t)| <= MaxStrDigits then Some(Value(Digits(t)))
    else None
  }

  /** `int(j)` for a decoded JSON value; None where Python raises. */
  function IntOf(j: Json): (r: Option<int>)
    ensures j.JInt? ==> r == Some(j.i)
    ensures j.JBool? ==> r == Some(if j.b then 1 else 0)
    ensures j.JNull? || j.JArr? || j.JObj? ==> r.None?
    ensures j.JStr? && r.Some? ==> exists i :: 0 <= i < |j.s| && IsDigit(j.s[i])
  {
    match j
    case JInt(n) => Some(n)
    case JBool(b) => Some(if b then 1 else 0)
    case JStr(s) => ParseInt(s)
    case _ => None
  }

  /** `str(j)` (equivalently, `f"{j}"`) for a JSON scalar; lists and dicts,
      which Python renders with `repr`, give None. */
  function Str(j: Json): (r: Option<string>)
    ensures r.Some? <==> !(j.JArr? || j.JObj?)
    ensures j.JStr? ==> r == Some(j.s)
    ensures j.JInt? && WithinDigitLimit(j.i) ==> ParseInt(r.value) == Some(j.i)
  {
    match j
    case JNull => Some("None")
    case JBool(b) => Some(if b then "True" else "False")
    case JInt(n) =>
      if WithinDigitLimit(n) then DecimalRoundTrip(n); Some(Decimal(n))
      else Some(Decimal(n))
    case JStr(s) => Some(s)
    case _ => None
  }

  lemma {:induction false} DigitsOfPlain(s: string)
    requires forall i :: 0 <= i < |s| ==> s[i] != '_'
    ensures Digits(s) == s
    decreases |s|
  {
    if |s| > 0 {
      DigitsOfPlain(s[1..]);
      assert [s[0]] + s[1..] == s;
    }
  }

  lemma {:induction false} ValueOfNatText(n: nat)
    ensures Value(NatText(n)) == n
    decreases n
  {
    if n >= 10 {
      var r := NatText(n);
      ValueOfNatText(n / 10);
      assert r[..|r| - 1] == NatText(n / 10);
    }
  }

  lemma StripUnpadded(s: string)
    requires |s| > 0 && !IsSpace(s[0]) && !IsSpace(s[|s| - 1])
    ensures StripEnd(StripStart(s)) == s
  {
  }

  lemma NotSpace(c: char)
    requires IsDigit(c) || c == '-'
    ensures !IsSpace(c)
  {
  }

  /** The digits of a natural number form a digit run worth that number. */
  lemma NatTextRun(m: nat)
    ensures IsDigitRun(NatText(m)) && Digits(NatText(m)) == NatText(m)
    ensures Value(Digits(NatText(m))) == m
  {
    DigitsOfPlain(NatText(m));
    ValueOfNatText(m);
  }

  /** A digit string, signed or not, has no whitespace to trim. */
  lemma NatTextTrimmed(m: nat)
    ensures StripEnd(StripStart(NatText(m))) == NatText(m)
    ensures StripEnd(StripStart("-" + NatText(m))) == "-" + NatText(m)
  {
    var ds := NatText(m);
    var t := "-" + ds;
    NotSpace(ds[0]);
    NotSpace(ds[|ds| - 1]);
    StripUnpadded(ds);
    NotSpace(t[0]);
    assert t[|t| - 1] == ds[|ds| - 1];
    StripUnpadded(t);
  }

  /** Unpadded unsigned text that is a digit run reads as its value. */
  lemma ParsePositiveRun(t: string)
    requires IsDigitRun(t) && |Digits(t)| <= MaxStrDigits
    ensures ParseTrimmed(t) == Some(Value(Digits(t)))
  {
  }

  lemma ParseUntrimmed(s: string)
    requires StripEnd(StripStart(s)) == s
    ensures ParseInt(s) == ParseTrimmed(s)
  {
  }

  /** A digit string without a sign reads as its value. */
  lemma ParseNatText(m: nat)
    requires |NatText(m)| <= MaxStrDigits
    ensures ParseInt(NatText(m)) == Some(m)
  {
    var t := NatText(m);
    assert ParseInt(t) == ParseTrimmed(t) by {
      NatTextTrimmed(m);
      ParseUntrimmed(t);
    }
    assert ParseTrimmed(t) == Some(m) by {
      NatTextRun(m);
      ParsePositiveRun(t);
    }
  }

  /** A minus sign and a digit run, unpadded, read as the negated value of
      the run. */
  lemma ParseNegativeRun(ds: string, v: int)
    requires IsDigitRun(ds) && |Digits(ds)| <= MaxStrDigits && Value(Digits(ds)) == v
    ensures ParseTrimmed("-" + ds) == Some(-v)
  {
    assert ("-" + ds)[0] == '-' && ("-" + ds)[1..] == ds;
  }

  /** A minus sign before a digit string reads as the negated value. */
  lemma ParseNegNatText(m: nat)
    requires |NatText(m)| <= MaxStrDigits
    ensures ParseInt("-" + NatText(m)) == Some(-(m as int))
  {
    NegNatTextUnpadded(m);
    NegNatTextValue(m);
  }

  /** Signed digit text has nothing for `int()` to trim. */
  lemma NegNatTextUnpadded(m: nat)
    ensures ParseInt("-" + NatText(m)) == ParseTrimmed("-" + NatText(m))
  {
    NatTextTrimmed(m);
    ParseUntrimmed("-" + NatText(m));
  }

  lemma NegNatTextValue(m: nat)
    requires |NatText(m)| <= MaxStrDigits
    ensures ParseTrimmed("-" + NatText(m)) == Some(-(m as int))
  {
    NatTextRun(m);
    ParseNegativeRun(NatText(m), m);
  }

  /** `int(str(n)) == n` for every int n of at most MaxStrDigits digits
      (beyond that both conversions raise). */
  lemma DecimalRoundTrip(n: int)
    requires WithinDigitLimit(n)
    ensures ParseInt(Decimal(n)) == Some(n)
  {
    if n < 0 {
      assert Decimal(n) == "-" + NatText(-n);
      ParseNegNatText(-n);
    } else {
      assert Decimal(n) == NatText(n);
      ParseNatText(n);
    }
  }

  lemma {:induction false} StripSubstring(s: string)
    ensures exists i, j :: 0 <= i <= j <= |s| && StripEnd(StripStart(s)) == s[i..j]
    decreases |s|
  {
    StripStartSuffix(s);
    var k :| 0 <= k <= |s| && StripStart(s) == s[k..];
    StripEndPrefix(s[k..]);
    var l :| 0 <= l <= |s[k..]| && StripEnd(s[k..]) == s[k..][..l];
    assert s[k..][..l] == s[k..k + l];
  }

  lemma {:induction false} StripStartSuffix(s: string)
    ensures exists k :: 0 <= k <= |s| && StripStart(s) == s[k..]
    decreases |s|
  {
    if |s| > 0 && IsSpace(s[0]) {
      StripStartSuffix(s[1..]);
      var k :| 0 <= k <= |s[1..]| && StripStart(s[1..]) == s[1..][k..];
      assert s[1..][k..] == s[k + 1..];
    } else {
      assert s == s[0..];
    }
  }

  lemma {:induction false} StripEndPrefix(s: string)
    ensures exists l :: 0 <= l <= |s| && StripEnd(s) == s[..l]
    decreases |s|
  {
    if |s| > 0 && IsSpace(s[|s| - 1]) {
      StripEndPrefix(s[..|s| - 1]);
      var l :| 0 <= l <= |s[..|s| - 1]| && StripEnd(s[..|s| - 1]) == s[..|s| - 1][..l];
      assert s[..|s| - 1][..l] == s[..l];
    } else {
      assert s == s[..|s|];
    }
  }
}
