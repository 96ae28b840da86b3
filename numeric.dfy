// Fixed-width integers, decimal rendering (`std::to_string`, `std::format("{}")`)
// and the two parsers the codecs call, `std::stoi` and `std::stoul`, with the
// truncating `static_cast`s applied to their results.
module Numeric {
  import opened Wrappers

  const TWO_TO_THE_8: int := 0x100
  const TWO_TO_THE_16: int := 0x1_0000
  const TWO_TO_THE_31: int := 0x8000_0000
  const TWO_TO_THE_32: int := 0x1_0000_0000
  const TWO_TO_THE_64: int := 0x1_0000_0000_0000_0000

  newtype uint8 = x: int | 0 <= x < 0x100
  newtype uint16 = x: int | 0 <= x < 0x1_0000
  newtype uint32 = x: int | 0 <= x < 0x1_0000_0000
  newtype uint64 = x: int | 0 <= x < 0x1_0000_0000_0000_0000
  newtype int32 = x: int | -0x8000_0000 <= x < 0x8000_0000

  /** `static_cast` to an unsigned type keeps the value modulo 2^width. */
  function CastU8(x: int): (r: uint8)
    ensures (r as int - x) % TWO_TO_THE_8 == 0
    ensures 0 <= x < TWO_TO_THE_8 ==> r as int == x
  {
    (x % TWO_TO_THE_8) as uint8
  }

  function CastU16(x: int): (r: uint16)
    ensures (r as int - x) % TWO_TO_THE_16 == 0
    ensures 0 <= x < TWO_TO_THE_16 ==> r as int == x
  {
    (x % TWO_TO_THE_16) as uint16
  }

  function CastU32(x: int): (r: uint32)
    ensures (r as int - x) % TWO_TO_THE_32 == 0
    ensures 0 <= x < TWO_TO_THE_32 ==> r as int == x
  {
    (x % TWO_TO_THE_32) as uint32
  }

  // ---------------------------------------------------------------------
  // Decimal digits

  predicate IsDigit(c: char)
  {
    '0' <= c <= '9'
  }

  predicate AllDigits(s: string)
  {
    forall i :: 0 <= i < |s| ==> IsDigit(s[i])
  }

  function DigitChar(d: nat): (c: char)
    requires d < 10
    ensures IsDigit(c)
  {
    ['0', '1', '2', '3', '4', '5', '6', '7', '8', '9'][d]
  }

  function DigitValue(c: char): (d: nat)
    requires IsDigit(c)
    ensures d < 10 && DigitChar(d) == c
  {
    (c as int - '0' as int) as nat
  }

  /** The number a run of decimal digits denotes (most significant first). */
  function DigitsValue(s: string): (n: nat)
    requires AllDigits(s)
  {
    if s == [] then 0 else DigitsValue(s[..|s| - 1]) * 10 + DigitValue(s[|s| - 1])
  }

  /** `std::to_string` / `std::format("{}")` of a non-negative integer: its
      decimal digits, no sign, no leading zero (except for 0 itself). */
  function NatToString(n: nat): (s: string)
    ensures |s| >= 1 && AllDigits(s)
    ensures s[0] == '0' ==> n == 0
    decreases n
  {
    if n < 10 then [DigitChar(n)] else NatToString(n / 10) + [DigitChar(n % 10)]
  }

  /** Reading the rendered digits back gives the number. */
  lemma {:induction false} DigitsValueOfNatToString(n: nat)
    ensures DigitsValue(NatToString(n)) == n
    decreases n
  {
    if n >= 10 {
      var s := NatToString(n);
      assert s[..|s| - 1] == NatToString(n / 10);
      DigitsValueOfNatToString(n / 10);
    }
  }

  /** Rendering is injective: distinct numbers have distinct renderings. */
  lemma NatToStringInjective(m: nat, n: nat)
    requires NatToString(m) == NatToString(n)
    ensures m == n
  {
    DigitsValueOfNatToString(m);
    DigitsValueOfNatToString(n);
  }

  // ---------------------------------------------------------------------
  // strtol / strtoul prefix scanning

  /** The characters `isspace` accepts in the C locale. */
  predicate IsSpace(c: char)
  {
    c == ' ' || c == '\t' || c == '\n' || c == '\r' || c as int == 11 || c as int == 12
  }

  /** The string without its leading white space. */
  function SkipSpaces(s: string): (r: string)
    ensures |r| <= |s| && r == s[|s| - |r|..]
    ensures r == [] || !IsSpace(r[0])
  {
    if s != [] && IsSpace(s[0]) then SkipSpaces(s[1..]) else s
  }

  /** The longest prefix of `s` made of decimal digits. */
  function LeadingDigits(s: string): (r: string)
    ensures AllDigits(r) && r <= s
    ensures |r| < |s| ==> !IsDigit(s[|r|])
  {
    if s != [] && IsDigit(s[0]) then [s[0]] + LeadingDigits(s[1..]) else []
  }

  /** What strtol and strtoul read: white space, an optional sign, then the
      longest run of digits, of which there must be at least one. The rest of
      the string is ignored. The result is the sign and the magnitude. */
  datatype Scanned = Scanned(negative: bool, magnitude: nat)

  function ScanInteger(s: string): (r: Option<Scanned>)
    ensures r.Some? ==> exists i :: 0 <= i < |s| && IsDigit(s[i])
  {
    var t := SkipSpaces(s);
    var negative := t != [] && t[0] == '-';
    var body := if t != [] && (t[0] == '-' || t[0] == '+') then t[1..] else t;
    var digits := LeadingDigits(body);
    if digits == [] then None
    else
      assert body[0] == s[|s| - |body|];
      Some(Scanned(negative, DigitsValue(digits)))
  }

  lemma {:induction false} LeadingDigitsOfDigits(s: string)
    requires AllDigits(s)
    ensures LeadingDigits(s) == s
  {
    if s != [] {
      LeadingDigitsOfDigits(s[1..]);
    }
  }

  /** A plain run of digits is read whole, as a non-negative number. */
  lemma ScanDigits(s: string)
    requires AllDigits(s) && s != []
    ensures ScanInteger(s) == Some(Scanned(false, DigitsValue(s)))
  {
    NoSpaceBeforeDigit(s);
    LeadingDigitsOfDigits(s);
  }

  lemma NoSpaceBeforeDigit(s: string)
    requires s != [] && IsDigit(s[0])
    ensures SkipSpaces(s) == s && s[0] != '-' && s[0] != '+'
  {
  }

  /** `std::stoi`: fails (throws) when no digits are found or when the value
      does not fit an `int` (32 bits). */
  function StoI(s: string): (r: Option<int32>)
    ensures r.Some? ==> ScanInteger(s).Some?
    ensures ScanInteger(s).Some? && !ScanInteger(s).value.negative
              && ScanInteger(s).value.magnitude < TWO_TO_THE_31
            ==> r == Some(ScanInteger(s).value.magnitude as int32)
  {
    match ScanInteger(s)
    case None => None
    case Some(Scanned(negative, m)) =>
      var v: int := if negative then -(m as int) else m as int;
      if -TWO_TO_THE_31 <= v < TWO_TO_THE_31 then Some(v as int32) else None
  }

  /** `std::stoul`: fails (throws) when no digits are found or when the
      magnitude exceeds an `unsigned long` (64 bits); a leading '-' negates
      the value modulo 2^64, as strtoul does. */
  function StoUL(s: string): (r: Option<nat>)
    ensures r.Some? ==> r.value < TWO_TO_THE_64 && ScanInteger(s).Some?
    ensures ScanInteger(s).Some? && !ScanInteger(s).value.negative
              && ScanInteger(s).value.magnitude < TWO_TO_THE_64
            ==> r == Some(ScanInteger(s).value.magnitude)
  {
    match ScanInteger(s)
    case None => None
    case Some(Scanned(negative, m)) =>
      if m >= TWO_TO_THE_64 then None
      else if negative then Some((TWO_TO_THE_64 - m) % TWO_TO_THE_64)
      else Some(m)
  }

  /** std::stoi reads back what std::to_string wrote, for every value that
      fits an int. */
  lemma StoIOfNatToString(n: nat)
    requires n < TWO_TO_THE_31
    ensures StoI(NatToString(n)) == Some(n as int32)
  {
    DigitsValueOfNatToString(n);
    ScanDigits(NatToString(n));
  }

  /** std::stoul reads back what std::to_string wrote, for every value that
      fits an unsigned long. */
  lemma StoULOfNatToString(n: nat)
    requires n < TWO_TO_THE_64
    ensures StoUL(NatToString(n)) == Some(n)
  {
    DigitsValueOfNatToString(n);
    ScanDigits(NatToString(n));
  }

  /** Text with no digit at all is rejected by both parsers. */
  lemma NoDigitsRejected(s: string)
    requires forall i :: 0 <= i < |s| ==> !IsDigit(s[i])
    ensures StoI(s) == None && StoUL(s) == None
  {
  }
}
