/** The part of Qt's value types that the entity codecs rely on: QVariant and
    QVariantMap as a recursive datatype, QVariant's conversions between ints,
    doubles and strings with their defaults for a missing key, and
    QString::left / right / number. */
module Qt {

  import Seqs

  datatype Option<T> = None | Some(value: T)

  /** A calendar date; QDate's parsing and formatting stay abstract (see Auftrag). */
  datatype Date = Date(year: int, month: int, day: int)

  /** A QVariant. Invalid is what QVariantMap::value returns for an absent key. */
  datatype Variant =
    | Invalid
    | IntV(i: int)
    | RealV(r: real)
    | StrV(s: string)
    | ListV(items: seq<Variant>)
    | MapV(fields: map<string, Variant>)

  type VariantMap = map<string, Variant>

  /** QVariantMap::value(key): the stored value, or an invalid QVariant. */
  function Value(m: VariantMap, key: string): (v: Variant)
    ensures key in m ==> v == m[key]
    ensures key !in m ==> v == Invalid
  {
    if key in m then m[key] else Invalid
  }

  /** The C++ narrowing int(x) of a 64-bit value: its low 32 bits read as
      two's complement, the same value modulo 2^32. */
  function Int32(x: int): (r: int)
    ensures -0x8000_0000 <= r < 0x8000_0000
    ensures (x - r) % 0x1_0000_0000 == 0
    ensures -0x8000_0000 <= x < 0x8000_0000 ==> r == x
  {
    (x + 0x8000_0000) % 0x1_0000_0000 - 0x8000_0000
  }

  /** qRound64(d): the nearest integer, a half rounded up. */
  function Round(d: real): (n: int)
    ensures n as real - 0.5 <= d < n as real + 0.5
  {
    (d + 0.5).Floor
  }

  /** QVariant::toInt(): an int as it is; a double rounded by qRound64; a
      string parsed as a decimal integer, 0 when it does not parse; both
      narrowed to int. Anything else converts to 0. */
  function ToInt(v: Variant): int
  {
    match v
    case IntV(i) => i
    case RealV(r) => Int32(Round(r))
    case StrV(s) => StrToInt(s)
    case _ => 0
  }

  /** QVariant::toDouble(), with the double modelled as a real: a string is
      parsed as decimal text, 0.0 when it does not parse. */
  function ToReal(v: Variant): real
  {
    match v
    case RealV(r) => r
    case IntV(i) => i as real
    case StrV(s) => StrToReal(s)
    case _ => 0.0
  }

  /** QVariant::toString(): a string as it is, an int as QString::number
      gives it, a whole double below 10^15 in magnitude as its digits (the
      'g' format with 15 significant digits); an invalid variant, a list or a
      map converts to the empty string. */
  function ToStr(v: Variant): string
  {
    match v
    case StrV(s) => s
    case IntV(i) => NumberString(i)
    case RealV(r) => RealToStr(r)
    case _ => ""
  }

  /** QString::toInt(): the parsed value in 32 bits, 0 when the text does not parse. */
  function StrToInt(s: string): int
  {
    if ParseInt(s).Some? then Int32(ParseInt(s).value) else 0
  }

  /** QString::toDouble(): the parsed value, 0.0 when the text does not parse. */
  function StrToReal(s: string): real
  {
    if ParseReal(s).Some? then ParseReal(s).value else 0.0
  }

  /** QString::number(double) for a whole double below 10^15 in magnitude. */
  function RealToStr(r: real): string
  {
    if r == r.Floor as real && -1_000_000_000_000_000 < r.Floor < 1_000_000_000_000_000 then NumberString(r.Floor) else ""
  }

  /** A variant holding an int converts back to that int, its decimal text
      and the double it widens to; a string converts to itself. */
  lemma ConversionsOfExactValues(n: int, s: string)
    ensures ToInt(IntV(n)) == n && ToReal(IntV(n)) == n as real && ToStr(IntV(n)) == NumberString(n)
    ensures ToStr(StrV(s)) == s && ToInt(Invalid) == 0 && ToReal(Invalid) == 0.0 && ToStr(Invalid) == ""
  {
  }

  /** A number that arrives as a double (as numbers from QML or JSON do) or as
      its decimal text converts to the int it denotes. */
  lemma {:induction false} NumbersConvertToInt(n: int)
    requires -0x8000_0000 <= n < 0x8000_0000
    ensures ToInt(RealV(n as real)) == n
    ensures ToInt(StrV(NumberString(n))) == n
    ensures ToReal(StrV(NumberString(n))) == n as real
    ensures -1_000_000_000_000_000 < n < 1_000_000_000_000_000 ==> ToStr(RealV(n as real)) == NumberString(n)
  {
    ParseNumberString(n);
  }

  /** toInt() rounds a double to the nearest int, a half upwards. */
  lemma RoundsToNearest(d: real)
    requires -0x8000_0000 as real <= d < 0x7FFF_FFFF as real
    ensures ToInt(RealV(d)) as real - 0.5 <= d < ToInt(RealV(d)) as real + 0.5
  {
  }

  /** White space as QString's number parsing skips it around the text
      (the ASCII white space characters). */
  predicate IsSpace(c: char)
  {
    c == ' ' || 9 <= c as int <= 13
  }

  /** The text without its leading and trailing white space. */
  function Trimmed(s: string): (r: string)
    ensures |r| <= |s|
    ensures |r| > 0 ==> !IsSpace(r[0]) && !IsSpace(r[|r| - 1])
    ensures (|s| == 0 || (!IsSpace(s[0]) && !IsSpace(s[|s| - 1]))) ==> r == s
    decreases |s|
  {
    if |s| > 0 && IsSpace(s[0]) then Trimmed(s[1..])
    else if |s| > 0 && IsSpace(s[|s| - 1]) then Trimmed(s[..|s| - 1])
    else s
  }

  predicate IsDigit(c: char)
  {
    '0' <= c <= '9'
  }

  predicate OnlyDigits(s: string)
  {
    forall i :: 0 <= i < |s| ==> IsDigit(s[i])
  }

  /** The value of a run of decimal digits, most significant first. */
  function DigitsValue(s: string): nat
    requires OnlyDigits(s)
  {
    if |s| == 0 then 0 else 10 * DigitsValue(s[..|s| - 1]) + (s[|s| - 1] as int - '0' as int)
  }

  function Pow10(e: nat): (p: nat)
    ensures p >= 1
  {
    if e == 0 then 1 else 10 * Pow10(e - 1)
  }

  /** Whether the text starts with a '-' sign. */
  predicate Negated(s: string)
  {
    |s| > 0 && s[0] == '-'
  }

  /** The text after an optional leading '+' or '-'. */
  function Unsigned(s: string): (r: string)
    ensures |s| > 0 && (s[0] == '-' || s[0] == '+') ==> r == s[1..]
    ensures |s| == 0 || (s[0] != '-' && s[0] != '+') ==> r == s
  {
    if |s| > 0 && (s[0] == '-' || s[0] == '+') then s[1..] else s
  }

  /** QString::toLongLong() in base 10 and the C locale: white space around,
      an optional sign and at least one decimal digit; None where the
      conversion fails, including values outside the 64-bit range. */
  function ParseInt(s: string): (r: Option<int>)
    ensures r.Some? ==> -0x8000_0000_0000_0000 <= r.value < 0x8000_0000_0000_0000
  {
    var t := Trimmed(s);
    var body := Unsigned(t);
    if |body| == 0 || !OnlyDigits(body) then None
    else
      var n: int := if Negated(t) then -(DigitsValue(body) as int) else DigitsValue(body);
      if -0x8000_0000_0000_0000 <= n < 0x8000_0000_0000_0000 then Some(n) else None
  }

  /** Decimal digits with an optional '.' and fraction, at least one digit in all. */
  function ParseMantissa(s: string): (r: Option<real>)
    ensures r.Some? ==> r.value >= 0.0
  {
    var dot := Seqs.IndexOf(s, '.');
    var ip := if dot < 0 then s else s[..dot];
    var fp := if dot < 0 then "" else s[dot + 1..];
    if |ip| + |fp| == 0 || !OnlyDigits(ip) || !OnlyDigits(fp) then None else Some(Decimal(ip, fp))
  }

  /** The value of the decimal ip.fp. */
  function Decimal(ip: string, fp: string): (r: real)
    requires OnlyDigits(ip) && OnlyDigits(fp)
    ensures DigitsValue(ip) as real <= r < DigitsValue(ip) as real + 1.0
  {
    DigitsBound(fp);
    FractionBelowOne(DigitsValue(fp), Pow10(|fp|));
    DigitsValue(ip) as real + DigitsValue(fp) as real / Pow10(|fp|) as real
  }

  lemma FractionBelowOne(a: nat, b: nat)
    requires a < b
    ensures 0.0 <= a as real / b as real < 1.0
  {
    var q := a as real / b as real;
    assert q * b as real == a as real < b as real;
  }

  /** A run of k digits is worth less than 10^k. */
  lemma {:induction false} DigitsBound(s: string)
    requires OnlyDigits(s)
    ensures DigitsValue(s) < Pow10(|s|)
  {
    if |s| > 0 {
      DigitsBound(s[..|s| - 1]);
    }
  }

  /** An exponent: an optional sign and at least one decimal digit. */
  function ParseExponent(s: string): Option<int>
  {
    var body := Unsigned(s);
    if |body| == 0 || !OnlyDigits(body) then None
    else Some(if Negated(s) then -(DigitsValue(body) as int) else DigitsValue(body))
  }

  /** Ten to an integer power, as a real. */
  function Scale(e: int): (r: real)
    ensures r > 0.0
  {
    if e >= 0 then Pow10(e) as real else 1.0 / Pow10(-e) as real
  }

  /** QString::toDouble() in the C locale, for finite decimal text: white
      space around, an optional sign, then an unsigned number; None where the
      conversion fails. */
  function ParseReal(s: string): Option<real>
  {
    var t := Trimmed(s);
    var u := ParseUnsignedReal(Unsigned(t));
    if u.None? then None else Some(if Negated(t) then -u.value else u.value)
  }

  /** A mantissa and an optional exponent after 'e' or 'E'. */
  function ParseUnsignedReal(s: string): (r: Option<real>)
    ensures r.Some? ==> r.value >= 0.0
  {
    var e := if 'e' in s then Seqs.IndexOf(s, 'e') else Seqs.IndexOf(s, 'E');
    var mantissa := if e < 0 then ParseMantissa(s) else ParseMantissa(s[..e]);
    var exponent := if e < 0 then Some(0) else ParseExponent(s[e + 1..]);
    if mantissa.None? || exponent.None? then None else Some(Scaled(mantissa.value, exponent.value))
  }

  /** A mantissa times ten to the power e. */
  function Scaled(m: real, e: int): (r: real)
    requires m >= 0.0
    ensures r >= 0.0
  {
    m * Scale(e)
  }

  /** The decimal text QString::number gives parses back to the same number. */
  lemma ParseNumberString(n: int)
    requires -0x8000_0000_0000_0000 <= n < 0x8000_0000_0000_0000
    ensures ParseInt(NumberString(n)) == Some(n)
    ensures ParseReal(NumberString(n)) == Some(n as real)
  {
    ParseIntNumberString(n);
    ParseRealNumberString(n);
  }

  lemma ParseIntNumberString(n: int)
    requires -0x8000_0000_0000_0000 <= n < 0x8000_0000_0000_0000
    ensures ParseInt(NumberString(n)) == Some(n)
  {
    var a: nat := if n < 0 then -n else n;
    NumberStringShape(n);
    DigitsRoundTrip(a);
  }

  lemma ParseRealNumberString(n: int)
    ensures ParseReal(NumberString(n)) == Some(n as real)
  {
    var a: nat := if n < 0 then -n else n;
    NumberStringShape(n);
    DigitsRoundTrip(a);
    UnsignedDigits(Digits(a));
  }

  /** Digits alone are an unsigned number worth their value. */
  lemma UnsignedDigits(s: string)
    requires |s| > 0 && OnlyDigits(s)
    ensures ParseUnsignedReal(s) == Some(DigitsValue(s) as real)
  {
    assert forall i :: 0 <= i < |s| ==> s[i] != '.' && s[i] != 'e' && s[i] != 'E';
    assert Seqs.IndexOf(s, '.') == -1 && Seqs.IndexOf(s, 'E') == -1;
    assert ParseMantissa(s) == Some(DigitsValue(s) as real) by {
      assert DigitsValue("") == 0;
    }
  }

  /** QString::number(n) has no surrounding white space, a '-' exactly for
      a negative n, and then only digits. */
  lemma NumberStringShape(n: int)
    ensures Trimmed(NumberString(n)) == NumberString(n)
    ensures Negated(NumberString(n)) == (n < 0) && Unsigned(NumberString(n)) == Digits(if n < 0 then -n else n)
    ensures '.' !in Digits(if n < 0 then -n else n) && 'e' !in Digits(if n < 0 then -n else n)
    ensures 'E' !in Digits(if n < 0 then -n else n)
  {
    var a: nat := if n < 0 then -n else n;
    var d := Digits(a);
    DigitsRoundTrip(a);
    assert IsDigit(d[0]) && IsDigit(d[|d| - 1]);
    var t := NumberString(n);
    if n < 0 {
      assert t == "-" + d && t[1..] == d;
    }
  }

  /** A price that arrives as decimal text, digits with a point, converts to
      the value it denotes. */
  lemma DecimalText(ip: string, fp: string)
    requires OnlyDigits(ip) && OnlyDigits(fp) && |ip| + |fp| > 0
    ensures ToReal(StrV(ip + "." + fp)) == Decimal(ip, fp)
  {
    var t := ip + "." + fp;
    assert forall i :: 0 <= i < |ip| ==> t[i] == ip[i];
    assert forall i :: 0 <= i < |fp| ==> t[|ip| + 1 + i] == fp[i];
    assert t[|ip|] == '.';
    assert forall i :: 0 <= i < |t| ==> t[i] != 'e' && t[i] != 'E' && !IsSpace(t[i]) && t[i] != '-' && t[i] != '+';
    PlainText(t);
    MantissaOfFraction(t, ip, fp);
  }

  /** Text without white space, sign or exponent is read as a bare mantissa. */
  lemma PlainText(t: string)
    requires |t| > 0
    requires forall i :: 0 <= i < |t| ==> t[i] != 'e' && t[i] != 'E' && !IsSpace(t[i]) && t[i] != '-' && t[i] != '+'
    ensures ParseReal(t) == ParseMantissa(t)
  {
    assert Trimmed(t) == t && Unsigned(t) == t && !Negated(t);
    assert Seqs.IndexOf(t, 'E') == -1 && 'e' !in t;
    assert Scale(0) == 1.0;
  }

  /** The mantissa ip.fp is split at its point. */
  lemma MantissaOfFraction(t: string, ip: string, fp: string)
    requires t == ip + "." + fp && OnlyDigits(ip) && OnlyDigits(fp) && |ip| + |fp| > 0
    ensures ParseMantissa(t) == Some(Decimal(ip, fp))
  {
    assert forall i :: 0 <= i < |ip| ==> t[i] != '.' by {
      forall i | 0 <= i < |ip| ensures t[i] != '.' { assert t[i] == ip[i] && IsDigit(ip[i]); }
    }
    assert t[|ip|] == '.';
    Seqs.IndexOfUnique(t, '.', |ip|);
    assert t[..|ip|] == ip;
    assert t[|ip| + 1..] == fp;
  }

  /** The digits of n are decimal digits whose value is n. */
  lemma {:induction false} DigitsRoundTrip(n: nat)
    ensures OnlyDigits(Digits(n)) && DigitsValue(Digits(n)) == n
  {
    if n >= 10 {
      DigitsRoundTrip(n / 10);
      var d := Digits(n);
      assert d[..|d| - 1] == Digits(n / 10);
    }
  }

  /** QVariant::toList(). */
  function ToList(v: Variant): seq<Variant>
  {
    match v
    case ListV(items) => items
    case _ => []
  }

  /** QVariant::toMap(). */
  function ToMap(v: Variant): VariantMap
  {
    match v
    case MapV(fields) => fields
    case _ => map[]
  }

  /** QVariant::toStringList(): a list converts element-wise, a string to a one-element list. */
  function ToStringList(v: Variant): (r: seq<string>)
    ensures v.ListV? ==> |r| == |v.items|
  {
    match v
    case ListV(items) => seq(|items|, i requires 0 <= i < |items| => ToStr(items[i]))
    case StrV(s) => [s]
    case _ => []
  }

  /** A QStringList stored into a QVariant. */
  function FromStringList(ss: seq<string>): (v: Variant)
    ensures ToStringList(v) == ss
  {
    var v := ListV(seq(|ss|, i requires 0 <= i < |ss| => StrV(ss[i])));
    assert forall i :: 0 <= i < |ss| ==> ToStringList(v)[i] == ss[i];
    v
  }

  /** QString::left(n): the first n characters; the whole string when n < 0 or n >= length. */
  function Left(s: string, n: int): (r: string)
    ensures 0 <= n <= |s| ==> r == s[..n]
    ensures n < 0 || n >= |s| ==> r == s
  {
    if n < 0 || n >= |s| then s else s[..n]
  }

  /** QString::right(n): the last n characters; the whole string when n < 0 or n >= length. */
  function Right(s: string, n: int): (r: string)
    ensures 0 <= n <= |s| ==> r == s[|s| - n..]
    ensures n < 0 || n >= |s| ==> r == s
  {
    if n < 0 || n >= |s| then s else s[|s| - n..]
  }

  function DigitChar(d: nat): char
    requires d < 10
  {
    "0123456789"[d]
  }

  function Digits(n: nat): (r: string)
    ensures |r| > 0
  {
    if n < 10 then [DigitChar(n)] else Digits(n / 10) + [DigitChar(n % 10)]
  }

  /** QString::number(n): the decimal form of n, with a leading '-' when negative. */
  function NumberString(n: int): string
  {
    if n < 0 then "-" + Digits(-n) else Digits(n)
  }
}
