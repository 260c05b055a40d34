/**
 The message formatting of Log.cpp: a debug message gets the source file
 name (without its directory) and the line number appended.
 */
module Log {
  import opened Wrappers

  predicate IsDigit(c: char)
  {
    '0' <= c <= '9'
  }

  predicate AllDigits(s: string)
  {
    forall i :: 0 <= i < |s| ==> IsDigit(s[i])
  }

  function DigitChar(d: int): (c: char)
    requires 0 <= d < 10
    ensures IsDigit(c)
  {
    (('0' as int) + d) as char
  }

  function DigitValue(c: char): (d: int)
    requires IsDigit(c)
    ensures 0 <= d < 10
  {
    (c as int) - ('0' as int)
  }

  /** Decimal digits of `n`, most significant first, without leading zeros. */
  function NatToDecimal(n: nat): (s: string)
    ensures |s| >= 1 && AllDigits(s)
    ensures s[0] == '0' ==> n == 0
    decreases n
  {
    if n < 10 then [DigitChar(n)] else NatToDecimal(n / 10) + [DigitChar(n % 10)]
  }

  /** The number a string of decimal digits denotes. */
  function DecimalValue(s: string): nat
    requires AllDigits(s)
  {
    if s == [] then 0 else DecimalValue(s[..|s| - 1]) * 10 + DigitValue(s[|s| - 1])
  }

  lemma {:induction false} DecimalRoundTrip(n: nat)
    ensures DecimalValue(NatToDecimal(n)) == n
  {
    var s := NatToDecimal(n);
    if n >= 10 {
      DecimalRoundTrip(n / 10);
      assert s[..|s| - 1] == NatToDecimal(n / 10);
    }
  }

  /** How `operator<<` writes an `int`: a minus sign for negatives, then the decimal digits. */
  function IntToDecimal(n: int): (s: string)
    ensures |s| >= 1
    ensures s[0] == '-' <==> n < 0
    ensures n < 0 ==> AllDigits(s[1..]) && |s| >= 2
    ensures n >= 0 ==> AllDigits(s)
  {
    if n < 0 then "-" + NatToDecimal(-n) else NatToDecimal(n)
  }

  predicate IsSignedDecimal(s: string)
  {
    |s| >= 1 && (AllDigits(s) || (s[0] == '-' && AllDigits(s[1..])))
  }

  /** Reads back what `IntToDecimal` writes. */
  function ParseSignedDecimal(s: string): int
    requires IsSignedDecimal(s)
  {
    if s[0] == '-' then -(DecimalValue(s[1..]) as int) else DecimalValue(s)
  }

  lemma IntRoundTrip(n: int)
    ensures IsSignedDecimal(IntToDecimal(n))
    ensures ParseSignedDecimal(IntToDecimal(n)) == n
  {
    var s := IntToDecimal(n);
    if n < 0 {
      assert s[1..] == NatToDecimal(-n);
      DecimalRoundTrip(-n);
    } else {
      DecimalRoundTrip(n);
    }
  }

  /** `std::string::rfind`: where `ch` last occurs in `s`, if at all. */
  function LastIndexOf(s: string, ch: char): (r: Option<nat>)
    ensures r.Some? ==> r.value < |s| && s[r.value] == ch && ch !in s[r.value + 1..]
    ensures r.None? <==> ch !in s
  {
    if s == [] then None
    else if s[|s| - 1] == ch then Some(|s| - 1)
    else
      var r := LastIndexOf(s[..|s| - 1], ch);
      assert s == s[..|s| - 1] + [s[|s| - 1]];
      if r.Some? then
        assert s[r.value + 1..] == s[..|s| - 1][r.value + 1..] + [s[|s| - 1]];
        r
      else r
  }

  /**
   The file name without its directory: what follows the last backslash.
   A name without any backslash strips to the empty string.
   */
  function StrippedFilename(fileName: string): (r: string)
    ensures '\\' !in r
    ensures '\\' in fileName ==>
      && |r| < |fileName|
      && fileName[|fileName| - |r| - 1] == '\\'
      && fileName[|fileName| - |r|..] == r
    ensures '\\' !in fileName ==> r == ""
  {
    match LastIndexOf(fileName, '\\')
    case None => ""
    case Some(i) => fileName[i + 1..]
  }

  /** The location suffix appended to a message. */
  function LocationSuffix(fileName: string, lineNumber: int): string
  {
    " <" + StrippedFilename(fileName) + "> (" + IntToDecimal(lineNumber) + ")\n"
  }

  /** `AppendLoggingInfoToLog`: the message followed by its location suffix. */
  function AppendLoggingInfoToLog(fileName: string, lineNumber: int, messageOut: string): (r: string)
    ensures |r| >= |messageOut| + 2 && r[..|messageOut|] == messageOut
    ensures r[|r| - 2..] == ")\n"
    ensures ParseLocationSuffix(r[|messageOut|..]) == Some((StrippedFilename(fileName), lineNumber))
  {
    var suffix := LocationSuffix(fileName, lineNumber);
    LocationSuffixRoundTrip(StrippedFilename(fileName), lineNumber);
    var r := messageOut + suffix;
    assert r[|messageOut|..] == suffix;
    assert r[|r| - 2..] == suffix[|suffix| - 2..];
    r
  }

  /**
   `LogDebugMessage` up to its output: an empty message is dropped before
   anything is formatted; any other is formatted for its sink.
   */
  function FormatDebugMessage(message: string, fileName: string, lineNumber: int): (r: Option<string>)
    ensures r.None? <==> message == ""
    ensures r.Some? ==> |r.value| > |message| && r.value[..|message|] == message
  {
    if message == "" then None else Some(AppendLoggingInfoToLog(fileName, lineNumber, message))
  }

  /** Start of the run of digits that ends `s`. */
  function TrailingDigitsStart(s: string): (i: nat)
    ensures i <= |s|
    ensures forall k :: i <= k < |s| ==> IsDigit(s[k])
    ensures i > 0 ==> !IsDigit(s[i - 1])
  {
    if s == [] || !IsDigit(s[|s| - 1]) then |s| else TrailingDigitsStart(s[..|s| - 1])
  }

  /** Reads a location suffix ` <name> (line)\n` back into the name and the line. */
  function ParseLocationSuffix(t: string): Option<(string, int)>
  {
    if |t| < 4 || t[..2] != " <" || t[|t| - 2..] != ")\n" then None
    else ParseLocationBody(t[2..|t| - 2])
  }

  /** Reads `name> (line` back into the name and the line, the line being the signed number at the end. */
  function ParseLocationBody(body: string): Option<(string, int)>
  {
    var k := TrailingDigitsStart(body);
    var j := if k > 0 && body[k - 1] == '-' then k - 1 else k;
    if k == |body| || j < 3 || body[j - 3..j] != "> (" then None
    else
      assert IsSignedDecimal(body[j..]) by {
        assert forall i :: 0 <= i < |body[k..]| ==> IsDigit(body[k..][i]);
        if j < k {
          assert body[j..][1..] == body[k..];
        }
      }
      Some((body[..j - 3], ParseSignedDecimal(body[j..])))
  }

  /** A digit run after a non-digit starts right after it. */
  lemma TrailingDigitsAfter(a: string, digits: string)
    requires |a| >= 1 && !IsDigit(a[|a| - 1])
    requires |digits| >= 1 && AllDigits(digits)
    ensures TrailingDigitsStart(a + digits) == |a|
  {
    var s := a + digits;
    assert !IsDigit(s[|a| - 1]);
    assert forall i :: |a| <= i < |s| ==> IsDigit(s[i]) by {
      forall i | |a| <= i < |s| ensures IsDigit(s[i]) {
        assert s[i] == digits[i - |a|];
      }
    }
  }

  lemma {:induction false} LocationBodyRoundTrip(name: string, lineNumber: int)
    ensures ParseLocationBody(name + "> (" + IntToDecimal(lineNumber)) == Some((name, lineNumber))
  {
    var dec := IntToDecimal(lineNumber);
    var body := name + "> (" + dec;
    var sign := if lineNumber < 0 then "-" else "";
    var digits := dec[|sign|..];
    assert dec == sign + digits;
    var a := name + "> (" + sign;
    assert body == a + digits;
    TrailingDigitsAfter(a, digits);
    var j := |name| + 3;
    assert body[j - 3..j] == "> (";
    assert body[..j - 3] == name;
    assert body[j..] == dec;
    IntRoundTrip(lineNumber);
  }

  lemma {:induction false} LocationSuffixRoundTrip(name: string, lineNumber: int)
    ensures ParseLocationSuffix(" <" + name + "> (" + IntToDecimal(lineNumber) + ")\n") == Some((name, lineNumber))
  {
    var body := name + "> (" + IntToDecimal(lineNumber);
    var t := " <" + name + "> (" + IntToDecimal(lineNumber) + ")\n";
    assert t == " <" + body + ")\n";
    assert t[..2] == " <" && t[|t| - 2..] == ")\n";
    assert t[2..|t| - 2] == body;
    LocationBodyRoundTrip(name, lineNumber);
  }
}
