/** The string operations the command handlers rely on: String.prototype.trim,
    indexOf(k) === 0, and parseInt on decimal input. */
module Text {
  import opened Messages

  /** JavaScript's WhiteSpace and LineTerminator characters, which trim
      removes and parseInt skips. */
  predicate IsJsSpace(c: char)
  {
    || c == '\t' || c == '\n' || c == '\U{B}' || c == '\U{C}' || c == '\r' || c == ' '
    || c == '\U{A0}' || c == '\U{1680}' || ('\U{2000}' <= c <= '\U{200A}')
    || c == '\U{2028}' || c == '\U{2029}' || c == '\U{202F}' || c == '\U{205F}'
    || c == '\U{3000}' || c == '\U{FEFF}'
  }

  /** \d of a regular expression without the u flag, and a parseInt digit. */
  predicate IsAsciiDigit(c: char)
  {
    '0' <= c <= '9'
  }

  /** text.indexOf(prefix) === 0 */
  predicate StartsWith(text: string, prefix: string)
    ensures StartsWith(text, prefix) <==>
      |prefix| <= |text| && forall i :: 0 <= i < |prefix| ==> text[i] == prefix[i]
  {
    |prefix| <= |text| && text[..|prefix|] == prefix
  }

  /** text.slice(from) for a non-negative start. */
  function Slice(text: string, from: nat): (r: string)
    ensures from <= |text| ==> r == text[from..]
    ensures from > |text| ==> r == []
  {
    if from <= |text| then text[from..] else []
  }

  /** The length of the run of white space that starts the string. */
  function LeadingSpaces(s: string): (n: nat)
    ensures n <= |s|
    ensures forall i :: 0 <= i < n ==> IsJsSpace(s[i])
    ensures n < |s| ==> !IsJsSpace(s[n])
  {
    if s != [] && IsJsSpace(s[0]) then
      var n := LeadingSpaces(s[1..]);
      assert forall i :: 1 <= i < |s| ==> s[i] == s[1..][i - 1];
      1 + n
    else 0
  }

  /** The string without its leading white space. */
  function TrimStart(s: string): string
  {
    s[LeadingSpaces(s)..]
  }

  /** The string without its trailing white space. */
  function TrimEnd(s: string): (r: string)
    ensures |r| <= |s| && r == s[..|r|]
    ensures forall i :: |r| <= i < |s| ==> IsJsSpace(s[i])
    ensures r != [] ==> !IsJsSpace(r[|r| - 1])
  {
    if s != [] && IsJsSpace(s[|s| - 1]) then
      var r := TrimEnd(s[..|s| - 1]);
      assert forall i :: 0 <= i < |s| - 1 ==> s[i] == s[..|s| - 1][i];
      r
    else s
  }

  /** String.prototype.trim */
  function Trim(s: string): (r: string)
    ensures LeadingSpaces(s) + |r| <= |s| && r == s[LeadingSpaces(s)..LeadingSpaces(s) + |r|]
    ensures forall i :: 0 <= i < LeadingSpaces(s) ==> IsJsSpace(s[i])
    ensures forall i :: LeadingSpaces(s) + |r| <= i < |s| ==> IsJsSpace(s[i])
    ensures r != [] ==> !IsJsSpace(r[0]) && !IsJsSpace(r[|r| - 1])
  {
    var k := LeadingSpaces(s);
    var t := s[k..];
    var r := TrimEnd(t);
    assert forall i :: k <= i < |s| ==> s[i] == t[i - k];
    assert r != [] ==> r[0] == s[k];
    r
  }

  /** Trimming leaves a string alone that starts and ends with a non-space,
      and drops exactly the white space put before it. */
  lemma {:induction false} TrimAround(pad: string, s: string)
    requires forall i :: 0 <= i < |pad| ==> IsJsSpace(pad[i])
    requires s != [] && !IsJsSpace(s[0]) && !IsJsSpace(s[|s| - 1])
    ensures TrimStart(pad + s) == s
    ensures Trim(pad + s) == s
  {
    var t := pad + s;
    var r := TrimStart(t);
    assert t[|pad|] == s[0];
    assert forall i :: 0 <= i < |pad| ==> t[i] == pad[i];
    assert |r| == |s|;
    assert r == s;
    assert s[|s| - 1] == s[|s| - 1];
  }

  /** The length of the run of decimal digits that starts the string. */
  function DigitRun(s: string): (n: nat)
    ensures n <= |s|
    ensures forall i :: 0 <= i < n ==> IsAsciiDigit(s[i])
    ensures n < |s| ==> !IsAsciiDigit(s[n])
  {
    if s != [] && IsAsciiDigit(s[0]) then
      var n := DigitRun(s[1..]);
      assert forall i :: 1 <= i < |s| ==> s[i] == s[1..][i - 1];
      1 + n
    else 0
  }

  function DigitValue(c: char): nat
  {
    if IsAsciiDigit(c) then c as int - '0' as int else 0
  }

  /** The value of a run of decimal digits, most significant first. */
  function DigitsValue(ds: string): nat
  {
    if ds == [] then 0 else DigitsValue(ds[..|ds| - 1]) * 10 + DigitValue(ds[|ds| - 1])
  }

  /** parseInt(s) with radix 10: skip leading white space, take an optional
      sign and the longest run of decimal digits after it; None stands for
      NaN, the result when there is no digit. */
  function ParseInt(s: string): (r: Option<int>)
    ensures var t := TrimStart(s);
            var unsigned := if |t| > 0 && (t[0] == '-' || t[0] == '+') then t[1..] else t;
            r.None? <==> DigitRun(unsigned) == 0
    ensures r.Some? && r.value < 0 ==> |TrimStart(s)| > 0 && TrimStart(s)[0] == '-'
  {
    var t := TrimStart(s);
    var negative := |t| > 0 && t[0] == '-';
    var unsigned := if |t| > 0 && (t[0] == '-' || t[0] == '+') then t[1..] else t;
    var n := DigitRun(unsigned);
    var magnitude: int := DigitsValue(unsigned[..n]);
    if n == 0 then None
    else if negative then Some(-magnitude)
    else Some(magnitude)
  }

  function DigitChar(d: nat): (c: char)
    requires d < 10
    ensures IsAsciiDigit(c) && DigitValue(c) == d
  {
    ('0' as int + d) as char
  }

  /** The decimal numeral of n, as String(n) writes it. */
  function Decimal(n: nat): string
  {
    if n < 10 then [DigitChar(n)] else Decimal(n / 10) + [DigitChar(n % 10)]
  }

  lemma {:induction false} DecimalDigits(n: nat)
    ensures Decimal(n) != []
    ensures forall i :: 0 <= i < |Decimal(n)| ==> IsAsciiDigit(Decimal(n)[i])
    ensures DigitsValue(Decimal(n)) == n
  {
    if n >= 10 {
      DecimalDigits(n / 10);
      var front := Decimal(n / 10);
      var d := Decimal(n);
      assert d == front + [DigitChar(n % 10)];
      assert d[..|d| - 1] == front;
    }
  }

  /** parseInt reads back the numeral of any natural number, whatever
      non-digit text follows it. */
  lemma ParseDecimal(n: nat, rest: string)
    requires rest == [] || !IsAsciiDigit(rest[0])
    ensures ParseInt(Decimal(n) + rest) == Some(n)
  {
    DecimalDigits(n);
    var d := Decimal(n);
    var s := d + rest;
    LeadingNumeral(d, rest);
    assert s[0] == d[0] && IsAsciiDigit(s[0]);
    NoLeadingSpace(s);
    assert DigitsValue(s[..DigitRun(s)]) == n;
  }

  lemma NoLeadingSpace(s: string)
    requires s != [] && !IsJsSpace(s[0])
    ensures TrimStart(s) == s
  {
  }

  /** A run of digits followed by a non-digit is exactly the digit run. */
  lemma LeadingNumeral(d: string, rest: string)
    requires forall i :: 0 <= i < |d| ==> IsAsciiDigit(d[i])
    requires rest == [] || !IsAsciiDigit(rest[0])
    ensures DigitRun(d + rest) == |d|
    ensures (d + rest)[..|d|] == d
  {
    var s := d + rest;
    assert forall i :: 0 <= i < |d| ==> s[i] == d[i];
    assert rest != [] ==> s[|d|] == rest[0];
  }

  /** parseInt of a minus sign followed by a numeral and text that does not
      continue it. */
  lemma ParseNegativeDecimal(t: string, n: nat, rest: string)
    requires rest == [] || !IsAsciiDigit(rest[0])
    requires |t| > 0 && t[0] == '-' && t[1..] == Decimal(n) + rest
    ensures ParseInt(t) == Some(-(n as int))
  {
    DecimalDigits(n);
    LeadingNumeral(Decimal(n), rest);
    NoLeadingSpace(t);
    ParseMinus(t);
  }

  /** parseInt of text that starts with a minus sign. */
  lemma ParseMinus(t: string)
    requires |t| > 0 && t[0] == '-'
    ensures var n := DigitRun(t[1..]);
            ParseInt(t) == if n == 0 then None else Some(-(DigitsValue(t[1..][..n]) as int))
  {
    NoLeadingSpace(t);
  }

  /** Text with no digit after the optional sign parses to NaN. */
  lemma ParseNoDigits(s: string)
    requires var t := TrimStart(s);
             t == [] || (!IsAsciiDigit(t[0]) && t[0] != '-' && t[0] != '+')
    ensures ParseInt(s) == None
  {
  }
}
