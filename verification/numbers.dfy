/** Decimal text <-> number conversions used by the system: Go's `%.0f`
    formatting, Go's `strconv.ParseFloat`, and JavaScript's `parseFloat` and
    `parseInt` (`parseFloat` and `ParseFloat` restricted to plain decimal
    notation: no exponents and no `Infinity`). */
module Numbers {
  import opened Wrappers

  predicate IsDigit(c: char) { '0' <= c <= '9' }

  predicate AllDigits(s: string) { forall i :: 0 <= i < |s| ==> IsDigit(s[i]) }

  function DigitValue(c: char): nat
    requires IsDigit(c)
  {
    c as int - '0' as int
  }

  function DigitChar(d: nat): (c: char)
    requires d < 10
    ensures IsDigit(c) && DigitValue(c) == d
  {
    ('0' as int + d) as char
  }

  function Pow10(n: nat): (r: nat)
    ensures r >= 1
  {
    if n == 0 then 1 else 10 * Pow10(n - 1)
  }

  /** The decimal digits of `n`, most significant first, without leading zeros. */
  function NatToDigits(n: nat): (s: string)
    ensures |s| > 0 && AllDigits(s)
    ensures s[0] != '0' || n == 0
  {
    if n < 10 then [DigitChar(n)] else NatToDigits(n / 10) + [DigitChar(n % 10)]
  }

  /** The value of a string of decimal digits read most significant first. */
  function DigitsValue(s: string): nat
    requires AllDigits(s)
  {
    if s == [] then 0 else 10 * DigitsValue(s[..|s| - 1]) + DigitValue(s[|s| - 1])
  }

  lemma {:induction false} DigitsRoundTrip(n: nat)
    ensures DigitsValue(NatToDigits(n)) == n
  {
    if n >= 10 {
      var s := NatToDigits(n);
      assert s[..|s| - 1] == NatToDigits(n / 10);
      DigitsRoundTrip(n / 10);
    }
  }

  /** Length of the longest prefix of `s` made of digits. */
  function DigitRun(s: string): (r: nat)
    ensures r <= |s| && AllDigits(s[..r])
    ensures r < |s| ==> !IsDigit(s[r])
  {
    if s == [] || !IsDigit(s[0]) then 0 else 1 + DigitRun(s[1..])
  }

  lemma {:induction false} DigitRunOfDigits(s: string)
    requires AllDigits(s)
    ensures DigitRun(s) == |s|
  {
    if s != [] {
      DigitRunOfDigits(s[1..]);
    }
  }

  /** Go's `fmt.Sprintf("%.0f", x)`: round half to even, then print the digits,
      with a minus sign for every negative input (so -0.3 prints as "-0"). */
  function RoundHalfEven(x: real): (r: int)
    ensures (r as real) - 0.5 <= x <= (r as real) + 0.5
    ensures x >= 0.0 ==> r >= 0
  {
    var f := x.Floor;
    var d := x - f as real;
    if d < 0.5 then f else if d > 0.5 then f + 1 else if f % 2 == 0 then f else f + 1
  }

  function FormatFixed0(x: real): (s: string)
    ensures x >= 0.0 ==> |s| > 0 && AllDigits(s)
  {
    var r := RoundHalfEven(x);
    if x < 0.0 then "-" + NatToDigits(-r) else NatToDigits(r)
  }

  /** Result of scanning a decimal literal `[+-]? digits* ( '.' digits* )?`
      (at least one digit) at the start of a string: its value and how many
      characters it spans; `length == 0` when no literal starts there. */
  datatype Scan = Scan(value: real, length: nat)

  function ScanDecimal(s: string): (r: Scan)
    ensures r.length <= |s|
  {
    var signLen := if |s| > 0 && (s[0] == '+' || s[0] == '-') then 1 else 0;
    var rest := s[signLen..];
    var n1 := DigitRun(rest);
    var hasDot := n1 < |rest| && rest[n1] == '.';
    var n2 := if hasDot then DigitRun(rest[n1 + 1..]) else 0;
    if n1 + n2 == 0 then Scan(0.0, 0)
    else
      var intValue := DigitsValue(rest[..n1]);
      var fracValue := if hasDot then DigitsValue(rest[n1 + 1..][..n2]) else 0;
      var magnitude := intValue as real + (fracValue as real) / (Pow10(n2) as real);
      Scan(if signLen == 1 && s[0] == '-' then -magnitude else magnitude,
           signLen + n1 + (if hasDot then 1 + n2 else 0))
  }

  /** The white space and line terminators JavaScript skips before a
      number: tab, line feed, vertical tab, form feed, carriage return,
      space, no-break space, the Unicode space separators, the line and
      paragraph separators and the byte order mark. */
  predicate IsSpace(c: char)
  {
    var n := c as int;
    || (0x09 <= n <= 0x0D) || n == 0x20 || n == 0xA0 || n == 0x1680
    || (0x2000 <= n <= 0x200A) || n == 0x2028 || n == 0x2029 || n == 0x202F
    || n == 0x205F || n == 0x3000 || n == 0xFEFF
  }

  function TrimStart(s: string): (r: string)
    ensures |r| <= |s|
    ensures r == s[|s| - |r|..]
    ensures r != [] ==> !IsSpace(r[0])
  {
    if s != [] && IsSpace(s[0]) then TrimStart(s[1..]) else s
  }

  /** Leading white space does not change what is left after trimming. */
  lemma {:induction false} TrimStartSkipsSpace(w: string, s: string)
    requires forall i :: 0 <= i < |w| ==> IsSpace(w[i])
    ensures TrimStart(w + s) == TrimStart(s)
  {
    if w != [] {
      assert (w + s)[1..] == w[1..] + s;
      TrimStartSkipsSpace(w[1..], s);
    } else {
      assert w + s == s;
    }
  }

  /** JavaScript `parseFloat`: the value of the longest decimal prefix after
      leading white space; `None` stands for `NaN`. */
  function JsParseFloat(s: string): Option<real>
  {
    var sc := ScanDecimal(TrimStart(s));
    if sc.length == 0 then None else Some(sc.value)
  }

  predicate IsHexDigit(c: char) { IsDigit(c) || 'a' <= c <= 'f' || 'A' <= c <= 'F' }

  predicate AllHexDigits(s: string) { forall i :: 0 <= i < |s| ==> IsHexDigit(s[i]) }

  function HexDigitValue(c: char): (d: nat)
    requires IsHexDigit(c)
    ensures d < 16
  {
    if IsDigit(c) then DigitValue(c)
    else if 'a' <= c <= 'f' then 10 + (c as int - 'a' as int)
    else 10 + (c as int - 'A' as int)
  }

  /** Length of the longest prefix of `s` made of hexadecimal digits. */
  function HexRun(s: string): (r: nat)
    ensures r <= |s| && AllHexDigits(s[..r])
    ensures r < |s| ==> !IsHexDigit(s[r])
  {
    if s == [] || !IsHexDigit(s[0]) then 0 else 1 + HexRun(s[1..])
  }

  /** The value of a string of hexadecimal digits read most significant first. */
  function HexValue(s: string): nat
    requires AllHexDigits(s)
  {
    if s == [] then 0 else 16 * HexValue(s[..|s| - 1]) + HexDigitValue(s[|s| - 1])
  }

  /** `0x` or `0X` at the start of the text. */
  predicate HasHexPrefix(u: string)
  {
    |u| >= 2 && u[0] == '0' && (u[1] == 'x' || u[1] == 'X')
  }

  /** JavaScript `parseInt(s)` with no radix: after leading white space and an
      optional sign, a `0x`/`0X` prefix selects base 16, otherwise base 10;
      the longest run of digits of that base is read and any further text is
      ignored; `None` stands for `NaN` (no digit at all). */
  function JsParseInt(s: string): Option<int>
  {
    ParseIntTrimmed(TrimStart(s))
  }

  /** `parseInt` once the white space is gone: an optional sign, then the
      magnitude. */
  function ParseIntTrimmed(t: string): Option<int>
  {
    var signed := |t| > 0 && (t[0] == '+' || t[0] == '-');
    ApplySign(signed && t[0] == '-', ParseMagnitude(if signed then t[1..] else t))
  }

  function ApplySign(negative: bool, m: Option<nat>): Option<int>
  {
    match m
    case None => None
    case Some(v) => Some(if negative then -(v as int) else v)
  }

  /** The magnitude: hexadecimal after `0x` or `0X`, decimal otherwise. */
  function ParseMagnitude(u: string): Option<nat>
  {
    if HasHexPrefix(u) then LeadingHex(u[2..]) else LeadingDecimal(u)
  }

  /** The value of the leading decimal digits, if there are any. */
  function LeadingDecimal(u: string): Option<nat>
  {
    var n := DigitRun(u);
    if n == 0 then None else Some(DigitsValue(u[..n]))
  }

  /** The value of the leading hexadecimal digits, if there are any. */
  function LeadingHex(h: string): Option<nat>
  {
    var n := HexRun(h);
    if n == 0 then None else Some(HexValue(h[..n]))
  }

  lemma NoSpaceTrimmed(t: string)
    requires t != [] && (t[0] == '-' || IsDigit(t[0]))
    ensures TrimStart(t) == t
  {
  }

  /** A text that starts with a digit, with or without a minus sign, is read
      as it stands. */
  lemma JsParseIntSigned(sign: string, u: string)
    requires sign == "" || sign == "-"
    requires u != [] && IsDigit(u[0])
    ensures JsParseInt(sign + u) == ApplySign(sign == "-", ParseMagnitude(u))
  {
    if sign == "" {
      assert sign + u == u;
      NoSpaceTrimmed(u);
      ParseUnsigned(u);
    } else {
      NoSpaceTrimmed("-" + u);
      ParseNegative(u);
    }
  }

  lemma ParseUnsigned(u: string)
    requires u != [] && IsDigit(u[0])
    ensures ParseIntTrimmed(u) == ApplySign(false, ParseMagnitude(u))
  {
  }

  lemma ParseNegative(u: string)
    ensures ParseIntTrimmed("-" + u) == ApplySign(true, ParseMagnitude(u))
  {
    assert ("-" + u)[1..] == u;
  }

  /** `parseInt` ignores leading white space. */
  lemma JsParseIntSkipsSpace(w: string, s: string)
    requires forall i :: 0 <= i < |w| ==> IsSpace(w[i])
    ensures JsParseInt(w + s) == JsParseInt(s)
  {
    TrimStartSkipsSpace(w, s);
  }

  /** The digits of a natural number, with or without a minus sign, read
      back through `parseInt` as that number. */
  lemma JsParseIntDigits(sign: string, n: nat)
    requires sign == "" || sign == "-"
    ensures JsParseInt(sign + NatToDigits(n)) == Some(if sign == "-" then -(n as int) else n)
  {
    var s := NatToDigits(n);
    JsParseIntSigned(sign, s);
    NoLeadingZero(n);
    DecimalMagnitude(s);
    DigitsRoundTrip(n);
  }

  lemma NoLeadingZero(n: nat)
    ensures |NatToDigits(n)| == 1 || NatToDigits(n)[0] != '0'
  {
  }

  /** Digits without a `0x` prefix are read whole, in base 10. */
  lemma DecimalMagnitude(s: string)
    requires s != [] && AllDigits(s) && (|s| == 1 || s[0] != '0')
    ensures ParseMagnitude(s) == Some(DigitsValue(s))
  {
    assert !HasHexPrefix(s);
    DigitRunOfDigits(s);
    assert s[..|s|] == s;
  }

  /** A `0x` prefix makes the rest hexadecimal, after any sign. */
  lemma JsParseIntHex(sign: string, u: string)
    requires sign == "" || sign == "-"
    requires HasHexPrefix(u) && |u| > 2 && AllHexDigits(u[2..])
    ensures JsParseInt(sign + u) == Some(if sign == "-" then -(HexValue(u[2..]) as int) else HexValue(u[2..]))
  {
    JsParseIntSigned(sign, u);
    HexMagnitude(u);
  }

  /** Hexadecimal digits after `0x` are read whole, in base 16. */
  lemma HexMagnitude(u: string)
    requires HasHexPrefix(u) && |u| > 2 && AllHexDigits(u[2..])
    ensures ParseMagnitude(u) == Some(HexValue(u[2..]))
  {
    var h := u[2..];
    HexRunOfHexDigits(h);
    assert h[..|h|] == h;
  }

  lemma {:induction false} HexRunOfHexDigits(s: string)
    requires AllHexDigits(s)
    ensures HexRun(s) == |s|
  {
    if s != [] {
      HexRunOfHexDigits(s[1..]);
    }
  }

  /** Go `strconv.ParseFloat(s, 64)` on plain decimal text: the whole string
      must be one literal, otherwise the call fails (`None`). */
  function GoParseFloat(s: string): (r: Option<real>)
    ensures r.Some? ==> s != []
  {
    var sc := ScanDecimal(s);
    if sc.length > 0 && sc.length == |s| then Some(sc.value) else None
  }

  /** Digit strings scan back to their own value and extent. */
  lemma ScanDigits(s: string)
    requires s != [] && AllDigits(s)
    ensures ScanDecimal(s) == Scan(DigitsValue(s) as real, |s|)
  {
    DigitRunOfDigits(s);
    assert s[0..] == s;
    assert s[..|s|] == s;
  }

  /** The digits of a natural number read back, with either parser, as
      that number. */
  lemma DigitsParseBack(n: nat)
    ensures JsParseFloat(NatToDigits(n)) == Some(n as real)
    ensures GoParseFloat(NatToDigits(n)) == Some(n as real)
  {
    var s := NatToDigits(n);
    assert TrimStart(s) == s;
    ScanDigits(s);
    DigitsRoundTrip(n);
  }

  /** What `%.0f` prints for a non-negative number reads back, with either
      parser, as that number rounded to an integer. */
  lemma FormatFixed0ParsesBack(x: real)
    requires x >= 0.0
    ensures JsParseFloat(FormatFixed0(x)) == Some(RoundHalfEven(x) as real)
    ensures GoParseFloat(FormatFixed0(x)) == Some(RoundHalfEven(x) as real)
  {
    var r := RoundHalfEven(x);
    assert FormatFixed0(x) == NatToDigits(r);
    DigitsParseBack(r);
  }

  /** Formatting is insensitive to rounding first: a non-negative amount and
      its rounded value print the same. */
  lemma FormatFixed0OfRounded(x: real)
    requires x >= 0.0
    ensures FormatFixed0(RoundHalfEven(x) as real) == FormatFixed0(x)
  {
    var r := RoundHalfEven(x);
    assert (r as real).Floor == r;
  }
}
