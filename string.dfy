/**
 * `relabsd_util_parse_int` (src/util/string.c): a range-checked decimal
 * integer, read with `strtol` in base 10 as section 7.22.1.4 of ISO/IEC
 * 9899:2011 describes it: optional white space, an optional sign, then the
 * longest run of decimal digits; a value beyond the range of `long` is
 * saturated to LONG_MIN or LONG_MAX.
 */
module StringUtil {
  import opened Int32
  import opened CText

  /** The three outcomes of `relabsd_util_parse_int`: 0, -1 or -2. */
  datatype ParseResult = Parsed(value: int) | Invalid | OutOfRange
  {
    /** The status code the C function returns. */
    function Code(): int
    {
      match this
      case Parsed(_) => 0
      case Invalid => -1
      case OutOfRange => -2
    }
  }

  /** How many `isspace` characters start `s`. */
  function LeadingSpaces(s: string): (n: nat)
    ensures n <= |s|
  {
    if s != [] && IsSpace(s[0]) then 1 + LeadingSpaces(s[1..]) else 0
  }

  /** The run `LeadingSpaces` counts is white space, and what follows it is not. */
  lemma {:induction false} LeadingSpacesSpan(s: string)
    ensures forall i :: 0 <= i < LeadingSpaces(s) ==> IsSpace(s[i])
    ensures LeadingSpaces(s) < |s| ==> !IsSpace(s[LeadingSpaces(s)])
  {
    if s != [] && IsSpace(s[0]) {
      LeadingSpacesSpan(s[1..]);
    }
  }

  /** How many decimal digits start `s`. */
  function DigitRun(s: string): (n: nat)
    ensures n <= |s|
    ensures forall i :: 0 <= i < n ==> IsDigit(s[i])
  {
    if s != [] && IsDigit(s[0]) then 1 + DigitRun(s[1..]) else 0
  }

  /** What follows the run `DigitRun` counts is not a digit. */
  lemma {:induction false} DigitRunStop(s: string)
    ensures DigitRun(s) < |s| ==> !IsDigit(s[DigitRun(s)])
  {
    if s != [] && IsDigit(s[0]) {
      DigitRunStop(s[1..]);
    }
  }

  /** The value of a string of decimal digits, most significant first. */
  function DigitsValue(d: string): nat
    requires forall i :: 0 <= i < |d| ==> IsDigit(d[i])
  {
    if d == [] then 0 else DigitsValue(d[..|d| - 1]) * 10 + DigitValue(d[|d| - 1])
  }

  /**
   * `strtol(s, &end, 10)`: the converted value and the index `end` points
   * to. When no digit can be read, nothing is converted: 0 and index 0.
   */
  function Strtol(s: string): (r: (int, nat))
    ensures r.1 <= |s|
    ensures LONG_MIN <= r.0 <= LONG_MAX
  {
    var (m, end) := Numeral(s);
    (Saturate(m, LONG_MIN, LONG_MAX), end)
  }

  /**
   * The numeral `strtol` reads, before saturation: its exact value and the
   * index after it; 0 and index 0 when no digit can be read.
   */
  function Numeral(s: string): (r: (int, nat))
    ensures r.1 <= |s|
    ensures r.1 == 0 ==> r.0 == 0
  {
    var i := LeadingSpaces(s);
    var t := s[i..];
    var signLen := if t != [] && (t[0] == '-' || t[0] == '+') then 1 else 0;
    var k := DigitRun(t[signLen..]);
    if k == 0 then (0, 0)
    else
      var m: int := DigitsValue(t[signLen..signLen + k]);
      (if signLen == 1 && t[0] == '-' then -m else m, i + signLen + k)
  }

  /**
   * Whether `strtol` meets a numeral beyond the range of `long`: it then
   * saturates the value and sets `errno` to ERANGE.
   */
  predicate StrtolOutOfRange(s: string)
  {
    !(LONG_MIN <= Numeral(s).0 <= LONG_MAX)
  }

  /** A text `strtol` reads completely: it is a decimal numeral. */
  predicate IsNumeral(s: string)
  {
    s != [] && Strtol(s).1 == |s|
  }

  /**
   * `relabsd_util_parse_int(string, min, max, &output)`. The C function only
   * writes `*output` when it returns 0; here that value is carried by
   * `Parsed`, and the caller keeps its old value on the other outcomes.
   */
  function ParseInt(s: string, min: int, max: int): (r: ParseResult)
    ensures CStr(s) == [] ==> r == Invalid
    ensures r == Invalid <==> !IsNumeral(CStr(s))
    ensures r == OutOfRange <==> IsNumeral(CStr(s)) && !(min <= Strtol(CStr(s)).0 <= max)
    ensures r.Parsed? ==> min <= r.value <= max && r.value == Strtol(CStr(s)).0
  {
    var c := CStr(s);
    var (value, end) := Strtol(c);
    if end < |c| || c == [] then Invalid
    else if value < min || value > max then OutOfRange
    else Parsed(value)
  }

  /** The decimal digits of a natural number, without leading zeros. */
  function NatDigits(n: nat): (d: string)
    ensures d != []
    ensures forall i :: 0 <= i < |d| ==> IsDigit(d[i])
  {
    if n < 10 then [('0' as int + n) as char] else NatDigits(n / 10) + [('0' as int + n % 10) as char]
  }

  /** The decimal rendering of an integer, as `printf("%d")` writes it. */
  function Decimal(n: int): (d: string)
    ensures d != [] && NUL !in d
  {
    if n < 0 then "-" + NatDigits(-n) else NatDigits(n)
  }

  lemma {:induction false} NatDigitsValue(n: nat)
    ensures DigitsValue(NatDigits(n)) == n
    decreases n
  {
    var d := NatDigits(n);
    if n >= 10 {
      NatDigitsValue(n / 10);
      assert d[..|d| - 1] == NatDigits(n / 10);
    }
  }

  lemma {:induction false} DigitRunAll(d: string)
    requires forall i :: 0 <= i < |d| ==> IsDigit(d[i])
    ensures DigitRun(d) == |d|
    decreases |d|
  {
    if d != [] {
      DigitRunAll(d[1..]);
    }
  }

  /** `strtol` reads an optional minus sign followed by digits completely. */
  lemma StrtolSignedDigits(neg: bool, d: string)
    requires d != [] && forall i :: 0 <= i < |d| ==> IsDigit(d[i])
    ensures var s := (if neg then "-" else "") + d;
      Strtol(s) == (Saturate(if neg then -(DigitsValue(d) as int) else DigitsValue(d), LONG_MIN, LONG_MAX), |s|)
  {
    DigitRunAll(d);
    assert d[..|d|] == d;
    var s := (if neg then "-" else "") + d;
    assert LeadingSpaces(s) == 0 by {
      assert !IsSpace(s[0]);
    }
    assert s[0..] == s;
    if neg {
      assert s[0] == '-' && s[1..] == d && s[1..1 + |d|] == d;
      assert DigitRun(s[1..]) == |d|;
    } else {
      assert s == d;
    }
  }

  /**
   * Round trip: the decimal rendering of any n in [min, max] parses back to
   * n with status 0.
   */
  lemma DecimalRoundTrip(n: int, min: int, max: int)
    requires IsInt32(n) && min <= n <= max
    ensures ParseInt(Decimal(n), min, max) == Parsed(n)
  {
    DecimalStrtol(n);
    ParseIntWhole(Decimal(n), min, max, n);
  }

  /** `strtol` reads the whole decimal rendering of a 32-bit value back. */
  lemma DecimalStrtol(n: int)
    requires IsInt32(n)
    ensures Decimal(n) != [] && CStr(Decimal(n)) == Decimal(n)
    ensures Strtol(Decimal(n)) == (n, |Decimal(n)|)
  {
    var s := Decimal(n);
    var d := NatDigits(if n < 0 then -n else n);
    assert s == (if n < 0 then "-" else "") + d;
    CStrNoNul(s);
    NatDigitsValue(if n < 0 then -n else n);
    StrtolSignedDigits(n < 0, d);
  }

  /** A text without NUL that `strtol` reads completely, to a value in range, is parsed. */
  lemma ParseIntWhole(s: string, min: int, max: int, v: int)
    requires s != [] && CStr(s) == s && Strtol(s) == (v, |s|) && min <= v <= max
    ensures ParseInt(s, min, max) == Parsed(v)
  {
    assert IsNumeral(CStr(s));
  }

  lemma {:induction false} CStrNoNul(s: string)
    requires NUL !in s
    ensures CStr(s) == s
    decreases |s|
  {
    if s != [] {
      assert NUL !in s[1..] by {
        forall i | 0 <= i < |s[1..]| ensures s[1..][i] != NUL { assert s[1..][i] == s[i + 1]; }
      }
      CStrNoNul(s[1..]);
    }
  }

  lemma {:induction false} LeadingSpacesAppend(p: string, x: string)
    requires LeadingSpaces(p) < |p|
    ensures LeadingSpaces(p + x) == LeadingSpaces(p)
    decreases |p|
  {
    if IsSpace(p[0]) {
      assert (p + x)[1..] == p[1..] + x;
      LeadingSpacesAppend(p[1..], x);
    }
  }

  lemma {:induction false} DigitRunAppend(d: string, x: string)
    requires forall i :: 0 <= i < |d| ==> IsDigit(d[i])
    requires x != [] && !IsDigit(x[0])
    ensures DigitRun(d + x) == |d|
    decreases |d|
  {
    if d != [] {
      assert (d + x)[1..] == d[1..] + x;
      DigitRunAppend(d[1..], x);
    }
  }

  lemma {:induction false} CStrAppend(a: string, b: string)
    requires NUL !in a
    ensures CStr(a + b) == a + CStr(b)
    decreases |a|
  {
    if a != [] {
      var ab := a + b;
      var tail := a[1..];
      assert ab[0] == a[0] && ab[1..] == tail + b;
      assert NUL !in tail by {
        forall i | 0 <= i < |tail| ensures tail[i] != NUL { assert tail[i] == a[i + 1]; }
      }
      CStrAppend(tail, b);
      assert CStr(ab) == [a[0]] + CStr(tail + b);
      assert a == [a[0]] + tail;
    } else {
      assert a + b == b;
    }
  }

  /** `strtol` stops reading a numeral at the first character that is not a digit. */
  lemma StrtolStopsAfterNumeral(p: string, x: string)
    requires IsNumeral(p)
    requires x != [] && !IsDigit(x[0])
    ensures Strtol(p + x).1 == |p|
  {
    var i := LeadingSpaces(p);
    LeadingSpacesAppend(p, x);
    var t := p[i..];
    assert (p + x)[i..] == t + x;
    var signLen := if t != [] && (t[0] == '-' || t[0] == '+') then 1 else 0;
    var u := t[signLen..];
    assert DigitRun(u) == |u|;
    DigitRunAppend(u, x);
    assert (t + x)[signLen..] == u + x;
  }

  /**
   * Any character after the longest decimal prefix makes the text invalid:
   * `strtol` stops there, and the C function sees a character left over.
   */
  lemma TrailingCharacterRejected(p: string, c: char, rest: string, min: int, max: int)
    requires IsNumeral(p) && NUL !in p
    requires !IsDigit(c) && c != NUL
    ensures ParseInt(p + [c] + rest, min, max) == Invalid
  {
    CStrAppend(p + [c], rest);
    assert CStr(p + [c] + rest) == p + ([c] + CStr(rest));
    StrtolStopsAfterNumeral(p, [c] + CStr(rest));
  }

  /** Concatenation regrouped: the last three parts read as one. */
  lemma Regroup(a: string, b: string, c: string, d: string)
    ensures a + b + c + d == a + (b + c + d)
  {
  }

  /** Concatenation regrouped: the last four parts read as one. */
  lemma Regroup5(a: string, b: string, c: string, d: string, e: string)
    ensures a + b + c + d + e == a + (b + c + d + e)
  {
  }
}
