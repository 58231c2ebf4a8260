/** The service's environment-driven settings (app/config.py): the listening
    port, the DEBUG flag and the allowed cross-origin hosts. Each setting is a
    total function of the environment variables it reads; an unset variable is
    `None`. */
module Config {
  import opened Wrappers
  import opened Strings

  const DefaultPort: int := 8000
  /** ALLOWED_ORIGINS when the variable is unset: three local development
      origins separated by commas. */
  const LocalhostOrigin: string := "http://localhost:3000"
  const LoopbackOrigin: string := "http://127.0.0.1:3000"
  const AltLocalhostOrigin: string := "http://localhost:3001"
  const DefaultOrigins: string := LocalhostOrigin + "," + LoopbackOrigin + "," + AltLocalhostOrigin
  /** CONFIDENCE_THRESHOLD when the variable is unset. */
  const DefaultConfidenceThreshold: real := 0.75
  /** The most digits `int()` converts from text, and `str()` writes, before
      raising ValueError: CPython's default `sys.int_info.default_max_str_digits`
      (CPython 3.11, and the 2022 security releases of 3.7 to 3.10). Underscores do not count; the sign does not
      either. */
  const MaxStrDigits: nat := 4300

  // ---------------------------------------------------------------------------
  // Python's int(str)
  // ---------------------------------------------------------------------------

  /** The characters `int()` skips around a number: the six ASCII blanks
      (tab, line feed, vertical tab, form feed, carriage return, space) and the
      non-ASCII characters `str.isspace()` accepts. The ASCII separators U+001C
      to U+001F are not skipped: `int()` passes ASCII characters to its digit
      scanner unchanged, and that scanner treats only the six blanks as space. */
  predicate IsSpace(c: char) {
    c in {'\t', '\n', '\U{b}', '\U{c}', '\r', ' ',
          '\U{85}', '\U{a0}', '\U{1680}', '\U{2028}', '\U{2029}', '\U{202f}', '\U{205f}', '\U{3000}'}
    || '\U{2000}' <= c <= '\U{200a}'
  }

  /** Index of the first character of `s` that is not white space (|s| if none). */
  function LeadingSpace(s: string): (i: nat)
    ensures i <= |s|
    ensures forall j :: 0 <= j < i ==> IsSpace(s[j])
    ensures i < |s| ==> !IsSpace(s[i])
  {
    if |s| > 0 && IsSpace(s[0]) then 1 + LeadingSpace(s[1..]) else 0
  }

  /** Index just past the last character of `s` that is not white space (0 if none). */
  function TrailingSpace(s: string): (j: nat)
    ensures j <= |s|
    ensures forall k :: j <= k < |s| ==> IsSpace(s[k])
    ensures j > 0 ==> !IsSpace(s[j - 1])
  {
    if |s| > 0 && IsSpace(s[|s| - 1]) then TrailingSpace(s[..|s| - 1]) else |s|
  }

  /** `s.strip()`: `s` without its leading and trailing white space. */
  function Strip(s: string): (t: string)
    ensures |t| > 0 ==> !IsSpace(t[0]) && !IsSpace(t[|t| - 1])
  {
    var rest := s[LeadingSpace(s)..];
    rest[..TrailingSpace(rest)]
  }

  /** Decimal digits, optionally grouped by single underscores between digits
      (`"8_000"`), as `int()` accepts them since Python 3.6. */
  predicate IsDigitGroups(s: string) {
    && |s| > 0
    && IsDigit(s[0]) && IsDigit(s[|s| - 1])
    && (forall i :: 0 <= i < |s| ==> IsDigit(s[i]) || s[i] == '_')
    && (forall i :: 0 <= i < |s| - 1 && s[i] == '_' ==> s[i + 1] != '_')
  }

  function WithoutUnderscores(s: string): (d: string)
    requires forall i :: 0 <= i < |s| ==> IsDigit(s[i]) || s[i] == '_'
    ensures forall i :: 0 <= i < |d| ==> IsDigit(d[i])
    ensures |d| <= |s|
  {
    if |s| == 0 then ""
    else if s[0] == '_' then WithoutUnderscores(s[1..])
    else [s[0]] + WithoutUnderscores(s[1..])
  }

  /** `int(s)` for a string, or None where it raises ValueError. */
  function ParseInt(s: string): (r: Option<int>)
    ensures r.Some? ==> forall k :: 0 <= k < |s| ==>
      IsSpace(s[k]) || IsDigit(s[k]) || s[k] == '_' || s[k] == '+' || s[k] == '-'
  {
    var r := ParseStripped(Strip(s));
    if r.None? then r
    else
      ParsedCharacters(s);
      r
  }

  /** A non-space character of `s` survives stripping, at its offset from the
      first non-space character. */
  lemma StripKeepsInnerChar(s: string, k: nat)
    requires k < |s| && !IsSpace(s[k])
    ensures LeadingSpace(s) <= k && k - LeadingSpace(s) < |Strip(s)|
    ensures Strip(s)[k - LeadingSpace(s)] == s[k]
  {
    var i := LeadingSpace(s);
    assert i <= k by {
      assert !IsSpace(s[k]);
    }
    var rest := s[i..];
    assert !IsSpace(rest[k - i]);
    var j := TrailingSpace(rest);
    assert k - i < j;
  }

  /** Text that parses once stripped holds nothing but white space, digits,
      underscores and signs. */
  lemma ParsedCharacters(s: string)
    requires ParseStripped(Strip(s)).Some?
    ensures forall k :: 0 <= k < |s| ==>
      IsSpace(s[k]) || IsDigit(s[k]) || s[k] == '_' || s[k] == '+' || s[k] == '-'
  {
    forall k | 0 <= k < |s| && !IsSpace(s[k])
      ensures IsDigit(s[k]) || s[k] == '_' || s[k] == '+' || s[k] == '-'
    {
      StripKeepsInnerChar(s, k);
    }
  }

  /** `int()` once the surrounding white space is gone: an optional sign, then
      digit groups of at most MaxStrDigits digits in all. */
  function ParseStripped(t: string): (r: Option<int>)
    ensures r.Some? ==> |t| > 0 && IsDigit(t[|t| - 1])
    ensures r.Some? ==> forall i :: 0 <= i < |t| ==>
      IsDigit(t[i]) || t[i] == '_' || (i == 0 && (t[i] == '+' || t[i] == '-'))
  {
    if |t| > 0 && (t[0] == '+' || t[0] == '-') then
      var digits := t[1..];
      assert forall i :: 1 <= i < |t| ==> t[i] == digits[i - 1];
      if IsDigitGroups(digits) && |WithoutUnderscores(digits)| <= MaxStrDigits then
        var n: int := DigitsValue(WithoutUnderscores(digits));
        Some(if t[0] == '-' then -n else n)
      else None
    else if IsDigitGroups(t) && |WithoutUnderscores(t)| <= MaxStrDigits then
      Some(DigitsValue(WithoutUnderscores(t)))
    else None
  }

  /** The absolute value of `n`, whose decimal text `str()` writes after any sign. */
  function Magnitude(n: int): (m: nat)
    ensures m == n || m == -n
  {
    if n < 0 then -n else n
  }

  lemma {:induction false} WithoutUnderscoresOfDigits(s: string)
    requires forall i :: 0 <= i < |s| ==> IsDigit(s[i])
    ensures WithoutUnderscores(s) == s
  {
    if |s| > 0 {
      WithoutUnderscoresOfDigits(s[1..]);
      assert [s[0]] + s[1..] == s;
    }
  }

  lemma StripOfUnpadded(s: string)
    requires |s| > 0 ==> !IsSpace(s[0]) && !IsSpace(s[|s| - 1])
    ensures Strip(s) == s
  {
  }

  /** Bare decimal digits parse to their value. */
  lemma ParseStrippedOfDigits(digits: string)
    requires 0 < |digits| <= MaxStrDigits && forall i :: 0 <= i < |digits| ==> IsDigit(digits[i])
    ensures ParseStripped(digits) == Some(DigitsValue(digits))
  {
    WithoutUnderscoresOfDigits(digits);
    assert IsDigitGroups(digits);
    assert WithoutUnderscores(digits) == digits;
  }

  /** A minus sign before decimal digits negates their value. */
  lemma ParseStrippedOfNegated(t: string)
    requires 1 < |t| <= MaxStrDigits + 1 && t[0] == '-'
    requires forall i :: 1 <= i < |t| ==> IsDigit(t[i])
    ensures ParseStripped(t) == Some(-(DigitsValue(t[1..]) as int))
  {
    var digits := t[1..];
    WithoutUnderscoresOfDigits(digits);
    assert IsDigitGroups(digits);
  }

  /** The decimal text of an integer has no white space around it. */
  lemma StripOfIntText(n: int)
    ensures Strip(IntToString(n)) == IntToString(n)
  {
    var s := IntToString(n);
    var digits := NatToString(if n < 0 then -n else n);
    assert s[|s| - 1] == digits[|digits| - 1];
    DigitIsNotSpace(digits[|digits| - 1]);
    if n >= 0 {
      DigitIsNotSpace(digits[0]);
    }
    StripOfUnpadded(s);
  }

  /** The text of a negative integer is a minus sign, then the digits of its
      magnitude. */
  lemma NegativeIntText(n: int)
    requires n < 0
    ensures var s := IntToString(n);
      && |s| == |NatToString(-n)| + 1 && s[0] == '-'
      && (forall i :: 1 <= i < |s| ==> IsDigit(s[i]))
      && DigitsValue(s[1..]) == -n
  {
    var digits := NatToString(-n);
    var s := IntToString(n);
    assert s[1..] == digits;
    forall i | 1 <= i < |s|
      ensures IsDigit(s[i])
    {
      assert s[i] == digits[i - 1];
    }
    NatToStringValue(-n);
  }

  /** The decimal text of an integer, already stripped, parses to it. */
  lemma ParseStrippedOfIntText(n: int)
    requires |NatToString(Magnitude(n))| <= MaxStrDigits
    ensures ParseStripped(IntToString(n)) == Some(n)
  {
    if n < 0 {
      NegativeIntText(n);
      ParseStrippedOfNegated(IntToString(n));
    } else {
      ParseStrippedOfDigits(NatToString(n));
      NatToStringValue(n);
    }
  }

  lemma DigitIsNotSpace(c: char)
    requires IsDigit(c)
    ensures !IsSpace(c)
  {
  }

  /** `int(str(n)) == n`: the decimal text of every integer that `str()` can
      write parses back to it. */
  lemma ParseIntRoundTrip(n: int)
    requires |NatToString(Magnitude(n))| <= MaxStrDigits
    ensures ParseInt(IntToString(n)) == Some(n)
  {
    StripOfIntText(n);
    ParseStrippedOfIntText(n);
  }

  // ---------------------------------------------------------------------------
  // Settings
  // ---------------------------------------------------------------------------

  /** `os.getenv("PORT") or os.getenv("API_PORT", "8000")`: an unset or empty
      PORT falls through to API_PORT, which defaults to "8000". */
  function PortValue(port: Option<string>, apiPort: Option<string>): (v: string)
    ensures port.Some? && port.value != "" ==> v == port.value
    ensures port.None? || port.value == "" ==> v == apiPort.GetOr("8000")
  {
    if port.Some? && port.value != "" then port.value else apiPort.GetOr("8000")
  }

  /** API_PORT: the port value, with a literal "$PORT" (an unexpanded
      placeholder) replaced by "8000", parsed by `int()`, or 8000 when that
      raises. */
  function ApiPort(port: Option<string>, apiPort: Option<string>): (p: int)
    ensures PortValue(port, apiPort) != "$PORT" && ParseInt(PortValue(port, apiPort)).Some? ==>
      p == ParseInt(PortValue(port, apiPort)).value
    ensures PortValue(port, apiPort) == "$PORT" || ParseInt(PortValue(port, apiPort)).None? ==>
      p == DefaultPort
  {
    var v := PortValue(port, apiPort);
    var v' := if v == "$PORT" then "8000" else v;
    EightThousandText();
    ParseIntRoundTrip(8000);
    match ParseInt(v')
    case Some(n) => n
    case None => DefaultPort
  }

  /** A non-empty PORT wins: API_PORT is then not consulted at all. */
  lemma PortTakesPrecedence(port: string, apiPort: Option<string>, other: Option<string>)
    requires port != ""
    ensures ApiPort(Some(port), apiPort) == ApiPort(Some(port), other)
  {
  }

  /** An empty PORT behaves as an unset one. */
  lemma EmptyPortFallsThrough(apiPort: Option<string>)
    ensures ApiPort(Some(""), apiPort) == ApiPort(None, apiPort)
  {
  }

  /** Any integer written in PORT is the port, whatever API_PORT says. */
  lemma PortNumberIsUsed(n: int, apiPort: Option<string>)
    requires |NatToString(Magnitude(n))| <= MaxStrDigits
    ensures ApiPort(Some(IntToString(n)), apiPort) == n
  {
    ParseIntRoundTrip(n);
    assert IntToString(n) != "$PORT" by {
      if n < 0 {
        assert IntToString(n)[1] != 'P';
      } else {
        assert IsDigit(IntToString(n)[0]);
      }
    }
  }

  lemma EightThousandText()
    ensures IntToString(8000) == "8000"
    ensures NatToString(Magnitude(8000)) == "8000"
  {
    assert NatToString(8) == "8";
    assert NatToString(80) == NatToString(8) + "0";
    assert NatToString(800) == NatToString(80) + "0";
    assert NatToString(8000) == NatToString(800) + "0";
  }

  /** With neither variable set, or with the literal "$PORT", the port is 8000. */
  lemma DefaultPorts(apiPort: Option<string>)
    ensures ApiPort(None, None) == 8000
    ensures ApiPort(Some("$PORT"), apiPort) == 8000
  {
    EightThousandText();
    ParseIntRoundTrip(8000);
    assert PortValue(None, None) == "8000";
    assert PortValue(Some("$PORT"), apiPort) == "$PORT";
  }

  /** A port value that `int()` rejects yields 8000. */
  lemma NonIntegerPortFallsBack(port: Option<string>, apiPort: Option<string>)
    requires ParseInt(PortValue(port, apiPort)) == None
    ensures ApiPort(port, apiPort) == 8000
  {
    if PortValue(port, apiPort) == "$PORT" {
      DefaultPorts(apiPort);
    }
  }

  /** Whatever text `int()` accepts as the port value, other than the literal
      "$PORT", is the port: padded, signed and underscored forms included. */
  lemma ApiPortIsParsed(port: Option<string>, apiPort: Option<string>, n: int)
    requires PortValue(port, apiPort) != "$PORT" && ParseInt(PortValue(port, apiPort)) == Some(n)
    ensures ApiPort(port, apiPort) == n
  {
  }

  /** With PORT unset, any integer written in API_PORT is the port. */
  lemma ApiPortVariableIsUsed(n: int)
    requires |NatToString(Magnitude(n))| <= MaxStrDigits
    ensures ApiPort(None, Some(IntToString(n))) == n
  {
    ParseIntRoundTrip(n);
    assert IntToString(n) != "$PORT" by {
      if n < 0 {
        assert IntToString(n)[1] != 'P';
      } else {
        assert IsDigit(IntToString(n)[0]);
      }
    }
  }

  /** White space before the port value is skipped. */
  lemma ParseIntSkipsLeadingSpace(c: char, s: string)
    requires IsSpace(c)
    ensures ParseInt([c] + s) == ParseInt(s)
  {
    var cs := [c] + s;
    assert cs[1..] == s;
    assert LeadingSpace(cs) == 1 + LeadingSpace(s);
    assert cs[LeadingSpace(cs)..] == s[LeadingSpace(s)..];
  }

  /** A plus sign before unsigned, unpadded digits changes nothing. */
  lemma ParseIntSkipsPlusSign(t: string)
    requires |t| > 0 && Strip(t) == t && t[0] != '+' && t[0] != '-'
    ensures ParseInt("+" + t) == ParseInt(t)
  {
    var pt := "+" + t;
    assert pt[|pt| - 1] == t[|t| - 1];
    StripOfUnpadded(pt);
    assert pt[1..] == t;
  }

  lemma ParseStrippedRejectsLongDigits(digits: string)
    requires |digits| > MaxStrDigits && forall i :: 0 <= i < |digits| ==> IsDigit(digits[i])
    ensures ParseStripped(digits) == None
  {
    WithoutUnderscoresOfDigits(digits);
  }

  /** More than MaxStrDigits digits are refused by `int()`, so such a port
      value falls back to 8000. */
  lemma TooManyDigitsRejected(digits: string)
    requires |digits| > MaxStrDigits && forall i :: 0 <= i < |digits| ==> IsDigit(digits[i])
    ensures ParseInt(digits) == None
    ensures ApiPort(None, Some(digits)) == DefaultPort
  {
    StripOfDigitEnds(digits);
    ParseStrippedRejectsLongDigits(digits);
    assert digits != "$PORT" by {
      assert IsDigit(digits[0]);
    }
    NonIntegerPortFallsBack(None, Some(digits));
  }

  lemma {:induction false} LeadingSpaceAppend(s: string, c: char)
    ensures LeadingSpace(s) < |s| ==> LeadingSpace(s + [c]) == LeadingSpace(s)
    ensures LeadingSpace(s) == |s| && IsSpace(c) ==> LeadingSpace(s + [c]) == |s| + 1
  {
    if |s| > 0 {
      assert (s + [c])[1..] == s[1..] + [c];
      LeadingSpaceAppend(s[1..], c);
    }
  }

  /** White space after the port value is skipped. */
  lemma ParseIntSkipsTrailingSpace(s: string, c: char)
    requires IsSpace(c)
    ensures ParseInt(s + [c]) == ParseInt(s)
  {
    var sc := s + [c];
    LeadingSpaceAppend(s, c);
    var i := LeadingSpace(s);
    if i < |s| {
      var rest := s[i..];
      assert sc[i..] == rest + [c];
      assert (rest + [c])[..|rest|] == rest;
      assert TrailingSpace(rest + [c]) == TrailingSpace(rest);
      assert (rest + [c])[..TrailingSpace(rest)] == rest[..TrailingSpace(rest)];
    }
    assert Strip(sc) == Strip(s);
  }

  lemma {:induction false} WithoutUnderscoresAppend(x: string, y: string)
    requires forall i :: 0 <= i < |x| ==> IsDigit(x[i]) || x[i] == '_'
    requires forall i :: 0 <= i < |y| ==> IsDigit(y[i]) || y[i] == '_'
    ensures WithoutUnderscores(x + y) == WithoutUnderscores(x) + WithoutUnderscores(y)
  {
    if |x| > 0 {
      assert (x + y)[1..] == x[1..] + y;
      WithoutUnderscoresAppend(x[1..], y);
    } else {
      assert x + y == y;
    }
  }

  /** Dropping the underscore between two runs of digits leaves the runs. */
  lemma {:induction false} WithoutInnerUnderscore(a: string, b: string)
    requires forall i :: 0 <= i < |a| ==> IsDigit(a[i])
    requires forall i :: 0 <= i < |b| ==> IsDigit(b[i])
    ensures WithoutUnderscores(a + "_" + b) == a + b
  {
    var u := a + "_" + b;
    if |a| == 0 {
      assert u[1..] == b;
      WithoutUnderscoresOfDigits(b);
    } else {
      assert u[1..] == a[1..] + "_" + b;
      WithoutInnerUnderscore(a[1..], b);
      assert [a[0]] + (a[1..] + b) == a + b;
    }
  }

  /** Two non-empty runs of digits joined by an underscore form digit groups. */
  lemma UnderscoredDigitGroups(a: string, b: string)
    requires |a| > 0 && forall i :: 0 <= i < |a| ==> IsDigit(a[i])
    requires |b| > 0 && forall i :: 0 <= i < |b| ==> IsDigit(b[i])
    ensures IsDigitGroups(a + "_" + b)
  {
    var u := a + "_" + b;
    forall i | 0 <= i < |u|
      ensures IsDigit(u[i]) || u[i] == '_'
      ensures u[i] == '_' ==> i == |a|
    {
      if i < |a| {
        assert u[i] == a[i];
      } else if i > |a| {
        assert u[i] == b[i - |a| - 1];
      }
    }
    assert u[|a| + 1] == b[0];
  }

  lemma StripOfDigitEnds(s: string)
    requires |s| > 0 && IsDigit(s[0]) && IsDigit(s[|s| - 1])
    ensures Strip(s) == s
  {
    DigitIsNotSpace(s[0]);
    DigitIsNotSpace(s[|s| - 1]);
    StripOfUnpadded(s);
  }

  lemma ParseStrippedIgnoresUnderscore(a: string, b: string)
    requires |a| > 0 && forall i :: 0 <= i < |a| ==> IsDigit(a[i])
    requires |b| > 0 && forall i :: 0 <= i < |b| ==> IsDigit(b[i])
    ensures ParseStripped(a + "_" + b) == ParseStripped(a + b)
  {
    var v := a + b;
    assert (a + "_" + b)[0] == a[0] && v[0] == a[0];
    UnderscoredDigitGroups(a, b);
    WithoutInnerUnderscore(a, b);
    assert forall i :: 0 <= i < |v| ==> IsDigit(v[i]);
    WithoutUnderscoresOfDigits(v);
  }

  /** A single underscore between two runs of digits changes nothing. */
  lemma ParseIntIgnoresUnderscore(a: string, b: string)
    requires |a| > 0 && forall i :: 0 <= i < |a| ==> IsDigit(a[i])
    requires |b| > 0 && forall i :: 0 <= i < |b| ==> IsDigit(b[i])
    ensures ParseInt(a + "_" + b) == ParseInt(a + b)
  {
    var u := a + "_" + b;
    var v := a + b;
    assert u[0] == a[0] && v[0] == a[0];
    assert u[|u| - 1] == b[|b| - 1] && v[|v| - 1] == b[|b| - 1];
    StripOfDigitEnds(u);
    StripOfDigitEnds(v);
    ParseStrippedIgnoresUnderscore(a, b);
  }

  /** ASCII `str.lower()`. */
  function Lower(s: string): (t: string)
    ensures |t| == |s|
    ensures forall i :: 0 <= i < |s| ==> t[i] == LowerChar(s[i])
  {
    if |s| == 0 then "" else [LowerChar(s[0])] + Lower(s[1..])
  }

  function LowerChar(c: char): char {
    if 'A' <= c <= 'Z' then (c as int - 'A' as int + 'a' as int) as char else c
  }

  /** DEBUG: `os.getenv("DEBUG", "True").lower() in ('true', '1', 't')`. It is
      on when unset, and when set exactly for "1", "t"/"T" and "true" in any
      letter case. */
  function Debug(debug: Option<string>): (on: bool)
    ensures debug.None? ==> on
    ensures debug.Some? ==> (on <==> DebugSpelling(debug.value))
  {
    var s := debug.GetOr("True");
    LowerSpellings(s);
    Lower(s) in {"true", "1", "t"}
  }

  predicate DebugSpelling(s: string) {
    || s == "1" || s == "t" || s == "T"
    || (|s| == 4 && s[0] in "tT" && s[1] in "rR" && s[2] in "uU" && s[3] in "eE")
  }

  /** The texts that lower to "true", "1" or "t". */
  lemma LowerSpellings(s: string)
    ensures Lower(s) in {"true", "1", "t"} <==> DebugSpelling(s)
    ensures s == "True" ==> DebugSpelling(s)
  {
    var t := Lower(s);
    if |s| == 4 && s[0] in "tT" && s[1] in "rR" && s[2] in "uU" && s[3] in "eE" {
      assert t == "true";
    }
    if t == "true" {
      assert LowerChar(s[0]) == 't' && LowerChar(s[1]) == 'r' && LowerChar(s[2]) == 'u' && LowerChar(s[3]) == 'e';
    }
    if t == "t" {
      assert LowerChar(s[0]) == 't';
    }
    if t == "1" {
      assert LowerChar(s[0]) == '1';
      assert s == [s[0]];
    }
  }

  /** CONFIDENCE_THRESHOLD: the configured value, or 0.75 when unset. The
      float parsing of the text is not modelled: `setting` is its result. */
  function ConfidenceThreshold(setting: Option<real>): (threshold: real)
    ensures setting.None? ==> threshold == DefaultConfidenceThreshold
    ensures setting.Some? ==> threshold == setting.value
  {
    setting.GetOr(DefaultConfidenceThreshold)
  }

  /** ALLOWED_ORIGINS: the variable (or the default list) split on commas,
      without trimming the pieces. */
  function AllowedOrigins(origins: Option<string>): (hosts: seq<string>)
    ensures |hosts| >= 1
    ensures forall i :: 0 <= i < |hosts| ==> ',' !in hosts[i]
  {
    Split(origins.GetOr(DefaultOrigins), ',')
  }

  /** The pieces, rejoined with commas, are exactly the configured value. */
  lemma AllowedOriginsRejoin(origins: string)
    ensures Join(AllowedOrigins(Some(origins)), ',') == origins
  {
    JoinSplit(origins, ',');
  }

  /** Unset, the setting allows exactly the three local development origins. */
  lemma DefaultAllowedOrigins()
    ensures AllowedOrigins(None) == [LocalhostOrigin, LoopbackOrigin, AltLocalhostOrigin]
  {
    var a, b, c := LocalhostOrigin, LoopbackOrigin, AltLocalhostOrigin;
    assert ',' !in a && ',' !in b && ',' !in c;
    var tail := b + [','] + c;
    assert DefaultOrigins == a + [','] + tail;
    SplitWithoutSeparator(c, ',');
    SplitAfterSeparator(b, ',', c);
    SplitAfterSeparator(a, ',', tail);
  }
}
