/**
 Quantities such as `5.24Gi`, and rounding them up to whole giga units with a
 safety factor. Amounts are exact reals.
 */
module Quantities {
  import opened Wrappers

  datatype Format = BinarySI | DecimalSI | DecimalExponent | NoFormat

  datatype Quantity = Quantity(value: real, format: Format)

  const GIGA: real := 1000000000.0
  const GIBI: real := 1073741824.0

  function Ceil(x: real): (c: int)
    ensures c as real - 1.0 < x <= c as real
  {
    if x == x.Floor as real then x.Floor else x.Floor + 1
  }

  // ---------- decimal numbers ----------

  predicate IsDigit(c: char) {
    '0' <= c <= '9'
  }

  predicate AllDigits(s: string) {
    forall i | 0 <= i < |s| :: IsDigit(s[i])
  }

  function DigitValue(c: char): nat
    requires IsDigit(c)
  {
    (c as int) - ('0' as int)
  }

  function DigitChar(d: nat): (c: char)
    requires d < 10
    ensures IsDigit(c) && DigitValue(c) == d
  {
    (('0' as int) + d) as char
  }

  function PrintNat(n: nat): (s: string)
    ensures |s| >= 1 && AllDigits(s)
  {
    if n < 10 then [DigitChar(n)] else PrintNat(n / 10) + [DigitChar(n % 10)]
  }

  function ParseNat(s: string): nat
    requires AllDigits(s)
  {
    if s == "" then 0 else 10 * ParseNat(s[..|s| - 1]) + DigitValue(s[|s| - 1])
  }

  lemma {:induction false} ParsePrintNat(n: nat)
    ensures ParseNat(PrintNat(n)) == n
  {
    if n < 10 {
      assert ParseNat([DigitChar(n)][..0]) == 0;
    } else {
      ParsePrintNat(n / 10);
      var s := PrintNat(n);
      assert s[..|s| - 1] == PrintNat(n / 10);
    }
  }

  /** How many digits the string starts with. */
  function DigitCount(s: string): (n: nat)
    ensures n <= |s| && AllDigits(s[..n])
    ensures n < |s| ==> !IsDigit(s[n])
  {
    if s == "" || !IsDigit(s[0]) then 0
    else
      var rest := DigitCount(s[1..]);
      assert s[1..][..rest] == s[..rest + 1][1..];
      assert forall i | 0 < i < rest + 1 :: s[i] == s[1..][..rest][i - 1];
      rest + 1
  }

  lemma DigitCountUnique(s: string, n: nat)
    requires n <= |s| && AllDigits(s[..n]) && (n < |s| ==> !IsDigit(s[n]))
    ensures DigitCount(s) == n
  {
    var d := DigitCount(s);
    assert forall i | 0 <= i < n :: s[..n][i] == s[i];
    assert forall i | 0 <= i < d :: s[..d][i] == s[i];
    assert forall i | 0 <= i < n :: IsDigit(s[i]);
    assert forall i | 0 <= i < d :: IsDigit(s[i]);
  }

  function Pow10(n: nat): (p: real)
    ensures p >= 1.0
  {
    if n == 0 then 1.0 else 10.0 * Pow10(n - 1)
  }

  // ---------- quantities ----------

  function DecimalMultiplier(c: char): (r: Option<real>)
    ensures r.Some? ==> r.value > 0.0
  {
    match c
    case 'n' => Some(1.0 / GIGA)
    case 'u' => Some(0.000001)
    case 'm' => Some(0.001)
    case 'k' => Some(1000.0)
    case 'M' => Some(1000000.0)
    case 'G' => Some(GIGA)
    case 'T' => Some(1000.0 * GIGA)
    case 'P' => Some(1000000.0 * GIGA)
    case 'E' => Some(GIGA * GIGA)
    case _ => None
  }

  function BinaryMultiplier(c: char): (r: Option<real>)
    ensures r.Some? ==> r.value > 0.0
  {
    match c
    case 'K' => Some(1024.0)
    case 'M' => Some(1048576.0)
    case 'G' => Some(GIBI)
    case 'T' => Some(1024.0 * GIBI)
    case 'P' => Some(1048576.0 * GIBI)
    case 'E' => Some(GIBI * GIBI)
    case _ => None
  }

  /** The multiplier and format a suffix stands for. */
  function Suffix(s: string): (r: Option<Quantity>)
    ensures r.Some? ==> r.value.value > 0.0 && r.value.format != NoFormat
  {
    if |s| == 0 then Some(Quantity(1.0, DecimalSI))
    else if |s| == 1 then
      match DecimalMultiplier(s[0])
      case Some(u) => Some(Quantity(u, DecimalSI))
      case None => None
    else if |s| == 2 && s[1] == 'i' then
      match BinaryMultiplier(s[0])
      case Some(u) => Some(Quantity(u, BinarySI))
      case None => None
    else if (s[0] == 'e' || s[0] == 'E') && AllDigits(s[1..]) then
      Some(Quantity(Pow10(ParseNat(s[1..])), DecimalExponent))
    else None
  }

  /** The number a string starts with, how many digits it has, and what follows it. */
  datatype Scan = Scan(value: real, digits: nat, tail: string)

  function ScanNumber(s: string): (r: Scan)
    ensures r.value >= 0.0
  {
    var n := DigitCount(s);
    ScanTail(ParseNat(s[..n]), n, s[n..])
  }

  /** What may follow the digits before the point: a fraction, then the suffix. */
  function ScanTail(whole: nat, n: nat, rest: string): (r: Scan)
    ensures r.value >= 0.0
  {
    if rest != "" && rest[0] == '.' then
      var m := DigitCount(rest[1..]);
      Scan(whole as real + ParseNat(rest[1..][..m]) as real / Pow10(m), n + m, rest[1..][m..])
    else
      Scan(whole as real, n, rest)
  }

  /** Multiplication, named so that proofs can treat a product as one number. */
  function Times(x: real, y: real): (z: real)
    ensures x >= 0.0 && y >= 0.0 ==> z >= 0.0
  {
    x * y
  }

  lemma TimesMonotone(x: real, y: real, f: real)
    requires x <= y && f >= 0.0
    ensures Times(x, f) <= Times(y, f)
  {
    var d := y - x;
    assert d * f >= 0.0;
  }

  lemma TimesStrict(x: real, y: real, f: real)
    requires x < y && f > 0.0
    ensures Times(x, f) < Times(y, f)
  {
    var d := y - x;
    assert d * f > 0.0;
  }

  lemma TimesAdd(x: real, e: real, f: real)
    ensures Times(x + e, f) == Times(x, f) + Times(e, f)
  {
  }

  /** An amount in binary units that is less than one is kept in decimal units. */
  function Canonical(q: Quantity): (r: Quantity)
    ensures r.value == q.value && (r.format == NoFormat <==> q.format == NoFormat)
  {
    if q.format == BinarySI && 0.0 < q.value < 1.0 then q.(format := DecimalSI) else q
  }

  /** An unsigned decimal number followed by a suffix. A bare `0` has no format. */
  function ParseQuantity(s: string): (r: Result<Quantity>)
    ensures r.Success? ==> r.value.value >= 0.0 && (r.value.format == NoFormat <==> s == "0")
  {
    var n := ScanNumber(s);
    var u := Suffix(n.tail);
    if s == "0" then Success(Quantity(0.0, NoFormat))
    else if n.digits == 0 then Failure("quantities must match the regular expression")
    else if u.None? then Failure("unable to parse quantity's suffix")
    else
      Success(Canonical(Quantity(Times(n.value, u.value.value), u.value.format)))
  }

  /** A suffix does not start like a number goes on. */
  predicate Separates(suffix: string) {
    suffix == "" || (!IsDigit(suffix[0]) && suffix[0] != '.')
  }

  /** A printed whole number with a suffix is that many of the suffix's units. */
  lemma ParsePrinted(n: nat, suffix: string)
    requires Suffix(suffix).Some? && Separates(suffix) && PrintNat(n) + suffix != "0"
    ensures
      var u := Suffix(suffix).value;
      ParseQuantity(PrintNat(n) + suffix) == Success(Canonical(Quantity(Times(n as real, u.value), u.format)))
  {
    hide Suffix, Times;
    var p := PrintNat(n);
    var s := p + suffix;
    ParsePrintNat(n);
    assert s[..|p|] == p && s[|p|..] == suffix;
    DigitCountUnique(s, |p|);
    assert ScanNumber(s) == Scan(n as real, |p|, suffix);
  }

  lemma ScanDigits(digits: string, tail: string)
    requires AllDigits(digits) && (tail != "" ==> !IsDigit(tail[0]))
    ensures DigitCount(digits + tail) == |digits|
    ensures (digits + tail)[..|digits|] == digits
    ensures (digits + tail)[|digits|..] == tail
  {
    assert (digits + tail)[..|digits|] == digits && (digits + tail)[|digits|..] == tail;
    DigitCountUnique(digits + tail, |digits|);
  }

  lemma ScanFraction(n: nat, rest: string, fraction: string, suffix: string)
    requires AllDigits(fraction) && Separates(suffix) && rest == "." + (fraction + suffix)
    ensures
      ScanNumber(PrintNat(n) + rest) ==
      Scan(n as real + ParseNat(fraction) as real / Pow10(|fraction|), |PrintNat(n)| + |fraction|, suffix)
  {
    ParsePrintNat(n);
    ScanDigits(PrintNat(n), rest);
    FractionTail(n, |PrintNat(n)|, rest, fraction, suffix);
    hide PrintNat, ParseNat, Pow10, DigitCount, AllDigits, IsDigit, Separates, ScanTail;
  }

  lemma FractionTail(whole: nat, n: nat, rest: string, fraction: string, suffix: string)
    requires AllDigits(fraction) && Separates(suffix) && rest == "." + (fraction + suffix)
    ensures ScanTail(whole, n, rest) ==
            Scan(whole as real + ParseNat(fraction) as real / Pow10(|fraction|), n + |fraction|, suffix)
  {
    assert rest[1..] == fraction + suffix;
    ScanDigits(fraction, suffix);
    hide ParseNat, Pow10, DigitCount, AllDigits, IsDigit, Separates;
  }

  /** With a decimal fraction, each further digit counts a tenth of the one before. */
  lemma ParseFraction(n: nat, fraction: string, suffix: string)
    requires AllDigits(fraction) && Suffix(suffix).Some? && Separates(suffix)
    ensures
      var u := Suffix(suffix).value;
      var value := n as real + ParseNat(fraction) as real / Pow10(|fraction|);
      ParseQuantity(PrintNat(n) + ("." + (fraction + suffix))) ==
      Success(Canonical(Quantity(Times(value, u.value), u.format)))
  {
    hide Suffix, Times, Pow10, ParseNat, PrintNat, ScanNumber;
    var rest := "." + (fraction + suffix);
    ScanFraction(n, rest, fraction, suffix);
    assert |PrintNat(n) + rest| >= 2 && |"0"| == 1;
  }

  /** Each decimal unit is a thousand of the one before, and each binary unit 1024 of the one before. */
  lemma UnitLadders()
    ensures forall i | 0 <= i < 8 ::
              Amount(["n", "u", "m", "", "k", "M", "G", "T", "P"][i + 1]) ==
              1000.0 * Amount(["n", "u", "m", "", "k", "M", "G", "T", "P"][i])
    ensures Amount("E") == 1000.0 * Amount("P")
    ensures Amount("") == 1.0
    ensures Amount("Ki") == 1024.0 && Amount("Mi") == 1024.0 * Amount("Ki") && Amount("Gi") == 1024.0 * Amount("Mi")
    ensures Amount("Ti") == 1024.0 * Amount("Gi") && Amount("Pi") == 1024.0 * Amount("Ti")
    ensures Amount("Ei") == 1024.0 * Amount("Pi")
  {
  }

  /** How much one of this unit is. */
  function Amount(suffix: string): real {
    if Suffix(suffix).Some? then Suffix(suffix).value.value else 0.0
  }

  /** A printed whole number with the suffix `G` or `Gi` parses to exactly that many units. */
  lemma ParsePrintedGiga(n: nat)
    ensures ParseQuantity(PrintNat(n) + "Gi") == Success(Quantity(Times(n as real, GIBI), BinarySI))
    ensures ParseQuantity(PrintNat(n) + "G") == Success(Quantity(Times(n as real, GIGA), DecimalSI))
  {
    hide Times, PrintNat, ParseQuantity;
    assert |"Gi"| == 2 && |"G"| == 1 && |"0"| == 1;
    ParsePrinted(n, "Gi");
    ParsePrinted(n, "G");
    WholeUnits(n);
  }

  /** Whole binary giga units are none at all, or at least one. */
  lemma WholeUnits(n: nat)
    ensures !(0.0 < Times(n as real, GIBI) < 1.0)
  {
    if n >= 1 {
      TimesMonotone(1.0, n as real, GIBI);
    }
  }

  /**
   The inputs whose format is not that of their suffix: rounding refuses a bare
   `0`, and a fraction of a byte is in decimal units whatever its suffix.
   */
  lemma UnusualFormats(f: real)
    requires f >= 0.0
    ensures RoundGigaQuantity("0", f).Failure?
    ensures forall s: string | ParseQuantity(s).Success? && ParseQuantity(s).value.format == BinarySI ::
              ParseQuantity(s).value.value == 0.0 || ParseQuantity(s).value.value >= 1.0
  {
  }

  // ---------- rounding ----------

  /** Whole giga units: the amount over 10^9 rounded up, times the factor, rounded up again. */
  function RoundedUnits(value: real, factor: real): (n: int)
    ensures value >= 0.0 && factor >= 0.0 ==> n >= 0
  {
    Ceil(Times(Ceil(value / GIGA) as real, factor))
  }

  function Unit(f: Format): real {
    if f == BinarySI then GIBI else GIGA
  }

  function RoundGigaQuantity(input: string, factor: real): Result<string>
    requires factor >= 0.0
  {
    match ParseQuantity(input)
    case Failure(e) => Failure(e)
    case Success(q) =>
      var rounded := RoundedUnits(q.value, factor);
      if q.format == BinarySI then Success(PrintNat(rounded) + "Gi")
      else if q.format == DecimalSI then Success(PrintNat(rounded) + "G")
      else Failure("unknown quantity format")
  }

  /** The least integer that is not below this number. */
  predicate IsLeast(n: int, x: real) {
    x <= n as real && (n - 1) as real < x
  }

  /**
   The exact amount: with v the least number of whole giga units that hold the
   value, the least integer that is not below the factor times v.
   */
  lemma RoundedExactly(value: real, factor: real) returns (v: int)
    ensures (v - 1) as real * GIGA < value <= v as real * GIGA
    ensures IsLeast(RoundedUnits(value, factor), Times(factor, v as real))
  {
    v := Ceil(value / GIGA);
    assert value / GIGA * GIGA == value;
    assert Times(v as real, factor) == Times(factor, v as real);
  }

  /** The rendered string is exactly this amount, in the format of the input. */
  lemma RoundGigaExactly(input: string, f: real) returns (n: nat, v: int)
    requires f >= 0.0 && RoundGigaQuantity(input, f).Success?
    ensures ParseQuantity(input).Success?
    ensures
      var q := ParseQuantity(input).value;
      && RoundGigaQuantity(input, f).value == PrintNat(n) + (if q.format == BinarySI then "Gi" else "G")
      && (v - 1) as real * GIGA < q.value <= v as real * GIGA
      && IsLeast(n, Times(f, v as real))
  {
    hide Times, ParseQuantity, RoundedUnits;
    var q := ParseQuantity(input).value;
    n := RoundedUnits(q.value, f);
    v := RoundedExactly(q.value, f);
  }

  /** Two rounds of rounding up around a multiplication. */
  lemma RoundedTwice(x: real, f: real)
    requires f >= 1.0
    ensures Times(x, f) <= Ceil(Times(Ceil(x) as real, f)) as real < Times(x, f) + f + 1.0
  {
    hide Times;
    TimesMonotone(x, Ceil(x) as real, f);
    TimesStrict(Ceil(x) as real, x + 1.0, f);
    TimesAdd(x, 1.0, f);
    TimesOne(f);
  }

  lemma TimesOne(f: real)
    ensures Times(1.0, f) == f
  {
  }

  lemma Rescale(b: real, f: real, unit: real)
    requires b >= 0.0 && f >= 1.0 && unit >= GIGA
    ensures Times(f, b) <= Times(Times(b / GIGA, f), unit) == Times(unit / GIGA, Times(f, b))
  {
    var z := Times(f, b);
    assert Times(b / GIGA, f) == z / GIGA;
    assert z / GIGA * unit == unit / GIGA * z;
    TimesMonotone(GIGA, unit, z / GIGA);
  }

  /** The rounded amount is never below the scaled input, and overshoots by a bounded amount. */
  lemma UnitsBound(b: real, f: real, unit: real)
    requires b >= 0.0 && f >= 1.0 && unit >= GIGA
    ensures Times(f, b) <= Times(RoundedUnits(b, f) as real, unit)
    ensures Times(RoundedUnits(b, f) as real, unit) < Times(unit / GIGA, Times(f, b)) + Times(1.0 + f, unit)
  {
    hide Times;
    var y, r := Times(b / GIGA, f), RoundedUnits(b, f) as real;
    RoundedTwice(b / GIGA, f);
    assert y <= r < y + (1.0 + f);
    Rescale(b, f, unit);
    TimesMonotone(y, r, unit);
    TimesStrict(r, y + (1.0 + f), unit);
    TimesAdd(y, 1.0 + f, unit);
  }

  lemma UnitsMonotone(a: real, b: real, f: real)
    requires 0.0 <= a <= b && f >= 0.0
    ensures RoundedUnits(a, f) <= RoundedUnits(b, f)
  {
    hide Times;
    assert Ceil(a / GIGA) <= Ceil(b / GIGA);
    TimesMonotone(Ceil(a / GIGA) as real, Ceil(b / GIGA) as real, f);
  }

  /**
   Rounding succeeds exactly on quantities in a plain decimal or binary format.
   The string it renders parses again, in the same format, and the amount it
   stands for covers the scaled input with a bounded excess.
   */
  lemma RoundGigaBound(input: string, f: real)
    requires f >= 1.0
    ensures RoundGigaQuantity(input, f).Success? <==>
            ParseQuantity(input).Success? && ParseQuantity(input).value.format in {BinarySI, DecimalSI}
    ensures RoundGigaQuantity(input, f).Success? ==>
              var q := ParseQuantity(input).value;
              var r := ParseQuantity(RoundGigaQuantity(input, f).value);
              && r.Success?
              && r.value.format == q.format
              && Times(f, q.value) <= r.value.value
              && r.value.value < Times(Unit(q.format) / GIGA, Times(f, q.value)) + Times(1.0 + f, Unit(q.format))
  {
    hide Times, ParseQuantity, RoundedUnits;
    if RoundGigaQuantity(input, f).Success? {
      var q := ParseQuantity(input).value;
      ParsePrintedGiga(RoundedUnits(q.value, f));
      UnitsBound(q.value, f, Unit(q.format));
    }
  }

  /** A larger input of the same format never renders a smaller amount. */
  lemma RoundGigaMonotone(a: string, b: string, f: real)
    requires f >= 1.0
    requires RoundGigaQuantity(a, f).Success? && RoundGigaQuantity(b, f).Success?
    requires ParseQuantity(a).value.format == ParseQuantity(b).value.format
    requires ParseQuantity(a).value.value <= ParseQuantity(b).value.value
    ensures ParseQuantity(RoundGigaQuantity(a, f).value).Success?
    ensures ParseQuantity(RoundGigaQuantity(b, f).value).Success?
    ensures ParseQuantity(RoundGigaQuantity(a, f).value).value.value <=
            ParseQuantity(RoundGigaQuantity(b, f).value).value.value
  {
    hide Times, ParseQuantity, RoundedUnits;
    var p, q := ParseQuantity(a).value, ParseQuantity(b).value;
    ParsePrintedGiga(RoundedUnits(p.value, f));
    ParsePrintedGiga(RoundedUnits(q.value, f));
    UnitsMonotone(p.value, q.value, f);
    TimesMonotone(RoundedUnits(p.value, f) as real, RoundedUnits(q.value, f) as real, Unit(p.format));
  }

  /** Rounding whole decimal giga units with factor one leaves them as they are. */
  lemma DecimalIdempotent(n: nat)
    ensures RoundGigaQuantity(PrintNat(n) + "G", 1.0) == Success(PrintNat(n) + "G")
  {
    hide Times, ParseQuantity, RoundedUnits;
    ParsePrintedGiga(n);
    DecimalUnitsStay(n);
  }

  lemma DecimalUnitsStay(n: nat)
    ensures RoundedUnits(Times(n as real, GIGA), 1.0) == n
  {
    assert n as real * GIGA / GIGA == n as real;
    assert Ceil(n as real) == n;
  }

  lemma SuffixInjective(a: string, b: string, c: string)
    requires a + c == b + c
    ensures a == b
  {
    assert |a| == |b|;
    assert a == (a + c)[..|a|];
    assert b == (b + c)[..|b|];
  }

  /** Counting binary units in units of 10^9 gives more of them, unless there are none. */
  lemma BinaryUnitsGrow(n: nat)
    ensures n > 0 ==> RoundedUnits(Times(n as real, GIBI), 1.0) > n
    ensures n == 0 ==> RoundedUnits(Times(n as real, GIBI), 1.0) == 0
  {
    var x := Times(n as real, GIBI) / GIGA;
    assert x == n as real * (GIBI / GIGA);
    var v := Ceil(x) as real;
    assert Times(v, 1.0) == v;
    assert Ceil(v) == Ceil(x);
  }

  /**
   Whole binary units are divided by 10^9 but printed as multiples of 2^30, so
   rounding keeps them only when there are none: any other size grows.
   */
  lemma BinaryIdempotentOnlyAtZero(n: nat)
    ensures RoundGigaQuantity(PrintNat(n) + "Gi", 1.0) == Success(PrintNat(n) + "Gi") <==> n == 0
  {
    hide Times, ParseQuantity, RoundedUnits;
    ParsePrintedGiga(n);
    BinaryUnitsGrow(n);
    var r := RoundedUnits(Times(n as real, GIBI), 1.0);
    if n > 0 {
      ParsePrintNat(n);
      ParsePrintNat(r);
      if PrintNat(r) + "Gi" == PrintNat(n) + "Gi" {
        SuffixInjective(PrintNat(r), PrintNat(n), "Gi");
      }
    }
  }
}
