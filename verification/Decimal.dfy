/** Decimal text: printf's "%d", libc's strtoul in base 10, and the adapter's rilStrToInt.
    A string is the text before its terminator, and a pointer into it is the text from there on.
    The width of unsigned long is a parameter: ulongMax is 2^32-1 or 2^64-1. */
module Decimal {
  import opened Basics

  ghost predicate IsUlongMax(m: nat) {
    m >= UINT32 - 1 && (m + 1) % UINT32 == 0
  }

  predicate IsSpace(c: char) {
    c == ' ' || '\t' <= c <= '\r'
  }

  predicate IsDigit(c: char) {
    '0' <= c <= '9'
  }

  predicate IsSign(c: char) {
    c == '+' || c == '-'
  }

  predicate IsSignText(s: string) {
    s == "" || s == "+" || s == "-"
  }

  predicate All(s: string, p: char -> bool) {
    forall i :: 0 <= i < |s| ==> p(s[i])
  }

  /** The longest prefix whose characters satisfy p, and what follows it. */
  function Span(s: string, p: char -> bool): (r: (string, string))
    ensures |r.0| + |r.1| == |s|
  {
    if s == "" || !p(s[0]) then ("", s)
    else
      var r := Span(s[1..], p);
      ([s[0]] + r.0, r.1)
  }

  lemma {:induction false} SpanSplits(s: string, p: char -> bool)
    ensures var r := Span(s, p);
            s == r.0 + r.1 && All(r.0, p) && (r.1 != "" ==> !p(r.1[0]))
  {
    if s != "" && p(s[0]) {
      SpanSplits(s[1..], p);
    }
  }

  lemma {:induction false} SpanIs(a: string, b: string, p: char -> bool)
    requires All(a, p) && (b != "" ==> !p(b[0]))
    ensures Span(a + b, p) == (a, b)
  {
    if a == "" {
      assert a + b == b;
    } else {
      assert (a + b)[1..] == a[1..] + b;
      SpanIs(a[1..], b, p);
      assert [a[0]] + a[1..] == a;
    }
  }

  function DigitValue(c: char): nat {
    if IsDigit(c) then (c - '0') as nat else 0
  }

  /** The number a string of digits denotes. */
  function Value(d: string): nat {
    if d == "" then 0 else Value(d[..|d| - 1]) * 10 + DigitValue(d[|d| - 1])
  }

  /** Unsigned negation in unsigned long arithmetic. */
  function Negated(v: nat, ulongMax: nat): nat
    requires v <= ulongMax
  {
    if v == 0 then 0 else ulongMax + 1 - v
  }

  /** A result of strtoul: rest is where the end pointer points, overflow is errno == ERANGE. */
  datatype Scanned = Scanned(value: nat, rest: string, overflow: bool)

  function DigitsScanned(v: nat, rest: string, negative: bool, ulongMax: nat): Scanned {
    if v > ulongMax then Scanned(ulongMax, rest, true)
    else Scanned(if negative then Negated(v, ulongMax) else v, rest, false)
  }

  function ScanDigits(s: string, t: string, negative: bool, ulongMax: nat): (r: Scanned)
    requires |t| <= |s|
    ensures |r.rest| <= |s|
  {
    var r := Span(t, IsDigit);
    if r.0 == "" then Scanned(0, s, false) else DigitsScanned(Value(r.0), r.1, negative, ulongMax)
  }

  /** strtoul(s, &end, 10) */
  function StrToUl(s: string, ulongMax: nat): (r: Scanned)
    ensures |r.rest| <= |s|
  {
    var u := Span(s, IsSpace).1;
    if u != "" && IsSign(u[0]) then ScanDigits(s, u[1..], u[0] == '-', ulongMax)
    else ScanDigits(s, u, false, ulongMax)
  }

  /** None: the text is refused and *value is left alone. */
  function RilStrToInt(s: Option<string>, ulongMax: nat): Option<int> {
    if s.None? || s.value == "" then None
    else
      var r := StrToUl(s.value, ulongMax);
      if r.overflow || r.rest != "" then None else Some(ToInt32(r.value))
  }

  function PrintNat(n: nat): (d: string)
    ensures d != "" && All(d, IsDigit)
  {
    if n < 10 then ['0' + n as char] else PrintNat(n / 10) + ['0' + (n % 10) as char]
  }

  function PrintInt(n: int): string {
    if n < 0 then "-" + PrintNat(-n) else PrintNat(n)
  }

  lemma {:induction false} ValueOfPrint(n: nat)
    ensures Value(PrintNat(n)) == n
  {
    var d := PrintNat(n);
    if n < 10 {
      assert d[..|d| - 1] == "";
    } else {
      assert d[..|d| - 1] == PrintNat(n / 10);
      ValueOfPrint(n / 10);
    }
  }

  function SignedValue(sign: string, d: string): int {
    if sign == "-" then 0 - (Value(d) as int) else Value(d)
  }

  lemma ScansSign(s: string, sign: string, t: string, ulongMax: nat)
    requires IsSignText(sign) && t != "" && IsDigit(t[0]) && Span(s, IsSpace).1 == sign + t
    ensures StrToUl(s, ulongMax) == ScanDigits(s, t, sign == "-", ulongMax)
  {
    if sign == "" {
      assert sign + t == t;
    } else {
      assert (sign + t)[1..] == t;
    }
  }

  /** What strtoul makes of white space, sign and digits followed by something else. */
  lemma ScansNumeral(space: string, sign: string, d: string, rest: string, ulongMax: nat)
    requires All(space, IsSpace) && IsSignText(sign)
    requires d != "" && All(d, IsDigit) && (rest != "" ==> !IsDigit(rest[0]))
    ensures StrToUl(space + (sign + (d + rest)), ulongMax) == DigitsScanned(Value(d), rest, sign == "-", ulongMax)
  {
    var t := d + rest;
    var u := sign + t;
    assert t[0] == d[0];
    assert u[0] == if sign == "" then d[0] else sign[0];
    SpanIs(space, u, IsSpace);
    SpanIs(d, rest, IsDigit);
    ScansSign(space + u, sign, t, ulongMax);
  }

  lemma ScansBareDigits(d: string, rest: string, ulongMax: nat)
    requires d != "" && All(d, IsDigit) && (rest != "" ==> !IsDigit(rest[0]))
    ensures StrToUl(d + rest, ulongMax) == DigitsScanned(Value(d), rest, false, ulongMax)
  {
    ScansNumeral("", "", d, rest, ulongMax);
    assert "" + ("" + (d + rest)) == d + rest;
  }

  ghost predicate IsNumeral(s: string, space: string, sign: string, d: string, ulongMax: nat) {
    && s == space + (sign + d)
    && All(space, IsSpace) && IsSignText(sign)
    && d != "" && All(d, IsDigit) && Value(d) <= ulongMax
  }

  lemma NumeralIsAccepted(s: string, space: string, sign: string, d: string, ulongMax: nat)
    requires IsUlongMax(ulongMax) && IsNumeral(s, space, sign, d, ulongMax)
    ensures RilStrToInt(Some(s), ulongMax) == Some(ToInt32(SignedValue(sign, d)))
  {
    ScansNumeral(space, sign, d, "", ulongMax);
    assert d + "" == d;
    if sign == "-" {
      NegationIsModular(Value(d), ulongMax);
    }
  }

  lemma NegationIsModular(v: nat, ulongMax: nat)
    requires IsUlongMax(ulongMax) && v <= ulongMax
    ensures ToInt32(Negated(v, ulongMax)) == ToInt32(0 - (v as int))
  {
    var q := (ulongMax + 1) / UINT32;
    assert ulongMax + 1 == q * UINT32;
    assert (q * UINT32 - v) % UINT32 == (0 - (v as int)) % UINT32;
  }

  lemma AcceptedIsNumeral(s: string, ulongMax: nat) returns (space: string, sign: string, d: string)
    requires RilStrToInt(Some(s), ulongMax).Some?
    ensures IsNumeral(s, space, sign, d, ulongMax)
  {
    var u := Span(s, IsSpace).1;
    space := Span(s, IsSpace).0;
    sign := if u != "" && IsSign(u[0]) then [u[0]] else "";
    d := if u != "" && IsSign(u[0]) then u[1..] else u;
    SpanSplits(s, IsSpace);
    SpanSplits(d, IsDigit);
    assert u == sign + d;
    assert Span(d, IsDigit).0 + "" == Span(d, IsDigit).0;
  }

  /** rilStrToInt accepts exactly: optional white space, optional sign, digits in range, end. */
  lemma AcceptsExactlyNumerals(s: string, ulongMax: nat)
    requires IsUlongMax(ulongMax)
    ensures RilStrToInt(Some(s), ulongMax).Some? <==> exists space, sign, d :: IsNumeral(s, space, sign, d, ulongMax)
  {
    if RilStrToInt(Some(s), ulongMax).Some? {
      var space, sign, d := AcceptedIsNumeral(s, ulongMax);
    }
    if space, sign, d :| IsNumeral(s, space, sign, d, ulongMax) {
      NumeralIsAccepted(s, space, sign, d, ulongMax);
    }
  }

  lemma SignedDigitsAreAccepted(sign: string, d: string, ulongMax: nat)
    requires IsSignText(sign) && d != "" && All(d, IsDigit) && Value(d) <= ulongMax && IsUlongMax(ulongMax)
    ensures RilStrToInt(Some(sign + d), ulongMax) == Some(ToInt32(SignedValue(sign, d)))
  {
    assert sign + d == "" + (sign + d);
    NumeralIsAccepted(sign + d, "", sign, d, ulongMax);
  }

  lemma PrintedNatIsAccepted(sign: string, m: nat, ulongMax: nat)
    requires IsSignText(sign) && m <= ulongMax && IsUlongMax(ulongMax)
    ensures RilStrToInt(Some(sign + PrintNat(m)), ulongMax) == Some(ToInt32(if sign == "-" then 0 - (m as int) else m))
  {
    ValueOfPrint(m);
    SignedDigitsAreAccepted(sign, PrintNat(m), ulongMax);
  }

  lemma Int32IsKept(n: int)
    requires -0x8000_0000 <= n < 0x8000_0000
    ensures ToInt32(n) == n
  {}

  /** "%d" followed by rilStrToInt gives back every 32-bit integer. */
  lemma DecimalRoundTrip(n: int, ulongMax: nat)
    requires -0x8000_0000 <= n < 0x8000_0000 && IsUlongMax(ulongMax)
    ensures RilStrToInt(Some(PrintInt(n)), ulongMax) == Some(n)
  {
    Int32IsKept(n);
    if n < 0 {
      PrintedNatIsAccepted("-", -n, ulongMax);
    } else {
      PrintedNatIsAccepted("", n, ulongMax);
      assert "" + PrintNat(n) == PrintNat(n);
    }
  }

  /** An accepted numeral is read as its value exactly when that value is an int; the others come out
      changed, with no error. */
  lemma ReadsTrulyIffInt32(s: string, space: string, sign: string, d: string, ulongMax: nat)
    requires IsUlongMax(ulongMax) && IsNumeral(s, space, sign, d, ulongMax)
    ensures RilStrToInt(Some(s), ulongMax) == Some(SignedValue(sign, d))
       <==> -0x8000_0000 <= SignedValue(sign, d) < 0x8000_0000
  {
    NumeralIsAccepted(s, space, sign, d, ulongMax);
  }

  /** Printed numbers of at least 32 bits are accepted as far as unsigned long reaches, and come out changed;
      the smallest is 2147483648, on every platform. */
  lemma WideNumeralIsTruncated(n: nat, ulongMax: nat)
    requires IsUlongMax(ulongMax) && 0x8000_0000 <= n <= ulongMax
    ensures RilStrToInt(Some(PrintNat(n)), ulongMax) == Some(ToInt32(n))
    ensures ToInt32(n) != n
  {
    PrintedNatIsAccepted("", n, ulongMax);
    assert "" + PrintNat(n) == PrintNat(n);
  }
}
