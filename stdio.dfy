/**
 * The parts of <stdio.h> the configuration readers use, on a file modelled
 * as the text not read yet. Read errors (`ferror`) are not modelled: every
 * read either yields a character or meets the end of the file. Of `errno`,
 * only ERANGE is modelled, which `%d` leaves when a numeral is beyond the
 * range of `long`.
 *
 * `getc` results are stored in a `char` by the readers, so the byte 0xFF
 * compares equal to EOF there. `fscanf`'s `%d` converts like `strtol` and
 * stores the `long` into an `int`, keeping the low 32 bits (what glibc
 * does; ISO C leaves an unrepresentable value undefined).
 */
module Stdio {
  import opened Wrappers
  import opened Int32
  import opened CText
  import opened StringUtil

  /** The byte that a `char` holding a `getc` result cannot tell from EOF. */
  const EOF_BYTE: char := 0xFF as char

  /** Whether a `getc` result, once stored in a `char`, compares equal to EOF. */
  predicate ReadsAsEof(c: Option<char>)
  {
    c.None? || c.value == EOF_BYTE
  }

  /** The text left after one `getc`. */
  function Advance(s: string): (r: string)
    ensures s != [] ==> r == s[1..]
    ensures s == [] ==> r == []
  {
    if s == [] then [] else s[1..]
  }

  /** The outcome of one `%d` directive. */
  datatype Scan = Converted(value: int) | MatchFailure | InputFailure

  /**
   * One `%d` directive on the text `s`: white space is skipped; the end of
   * the text there is an input failure, text `strtol` cannot convert a
   * matching failure. Also the text left.
   */
  function ScanInt(s: string): (r: (Scan, string))
    ensures |r.1| <= |s|
    ensures r.0.Converted? ==> IsInt32(r.0.value) && |r.1| < |s|
  {
    var n := LeadingSpaces(s);
    if n == |s| then (InputFailure, [])
    else
      var (v, k) := Strtol(s[n..]);
      if k == 0 then (MatchFailure, s[n..])
      else (Converted(Wrap32(v)), s[n + k..])
  }

  /** `%d` meets the end of the input, and fails with EOF, exactly when only white space is left. */
  lemma ScanIntInputFailure(s: string)
    ensures ScanInt(s).0 == InputFailure <==> forall i :: 0 <= i < |s| ==> IsSpace(s[i])
  {
    LeadingSpacesSpan(s);
  }

  /**
   * `fscanf` with `n` `%d` directives: the values converted in order,
   * whether it returns EOF (an input failure before the first conversion)
   * and the text left. It stops at the first directive that fails.
   */
  function ScanInts(s: string, n: nat): (r: (seq<int>, bool, string))
    ensures |r.0| <= n
    ensures r.1 ==> r.0 == []
    ensures forall i :: 0 <= i < |r.0| ==> IsInt32(r.0[i])
    ensures |r.2| <= |s|
  {
    Conversions(s, n)
  }

  /** The directives of `ScanInts`, one conversion after another. */
  function Conversions(s: string, n: nat): (r: (seq<int>, bool, string))
    ensures |r.0| <= n
    ensures r.1 ==> r.0 == []
    ensures forall i :: 0 <= i < |r.0| ==> IsInt32(r.0[i])
    ensures |r.2| <= |s|
    decreases n
  {
    if n == 0 then ([], false, s)
    else
      var (first, rest) := ScanInt(s);
      match first
      case InputFailure => ([], true, rest)
      case MatchFailure => ([], false, rest)
      case Converted(v) =>
        var o := Conversions(rest, n - 1);
        ([v] + o.0, false, o.2)
  }

  /**
   * Whether the `n` directives of `ScanInts` set `errno` to ERANGE: some
   * directive that converts meets a numeral beyond the range of `long`.
   * `fscanf` never clears `errno`.
   */
  predicate RangeError(s: string, n: nat)
    decreases n
  {
    if n == 0 then false
    else
      var (first, rest) := ScanInt(s);
      match first
      case Converted(_) => StrtolOutOfRange(s[LeadingSpaces(s)..]) || RangeError(rest, n - 1)
      case _ => false
  }

  /** What `fscanf` returns for the outcome `r` of `ScanInts`: EOF (-1) or the count of conversions. */
  function ScanCount(r: (seq<int>, bool, string)): int
  {
    if r.1 then -1 else |r.0|
  }

  /** How many characters other than white space start `s`, up to `width`. */
  function WordLength(s: string, width: nat): (k: nat)
    ensures k <= width && k <= |s|
    ensures forall i :: 0 <= i < k ==> !IsSpace(s[i])
    ensures width > 0 && s != [] && !IsSpace(s[0]) ==> k > 0
  {
    if s == [] || width == 0 || IsSpace(s[0]) then 0 else 1 + WordLength(s[1..], width - 1)
  }

  /**
   * One `%Ns` directive with `N` = `width`: white space is skipped, then up
   * to `width` characters other than white space are stored. None when the
   * text ends first (`fscanf` returns EOF). Also the text left.
   */
  function ScanWord(s: string, width: nat): (r: (Option<string>, string))
    requires width > 0
    ensures r.0.Some? ==> r.0.value != [] && |r.0.value| <= width && |r.1| < |s|
    ensures r.0.None? ==> r.1 == []
  {
    var n := LeadingSpaces(s);
    if n == |s| then (None, [])
    else
      LeadingSpacesSpan(s);
      var k := WordLength(s[n..], width);
      (Some(s[n..n + k]), s[n + k..])
  }

  /** `strtol` reads an optional minus sign and digits, up to the first non-digit after them. */
  lemma StrtolSignedDigitsThen(neg: bool, d: string, x: string)
    requires d != [] && forall i :: 0 <= i < |d| ==> IsDigit(d[i])
    requires x == [] || !IsDigit(x[0])
    ensures var p := (if neg then "-" else "") + d;
      Strtol(p + x) == (Saturate(if neg then -(DigitsValue(d) as int) else DigitsValue(d), LONG_MIN, LONG_MAX), |p|)
    ensures var p := (if neg then "-" else "") + d;
      Numeral(p + x) == (if neg then -(DigitsValue(d) as int) else DigitsValue(d), |p|)
  {
    var p := (if neg then "-" else "") + d;
    var s := p + x;
    var signLen := if neg then 1 else 0;
    assert s[0] == (if neg then '-' else d[0]);
    assert s[signLen..] == d + x;
    if x == [] {
      DigitRunAll(d);
      assert d + x == d;
    } else {
      DigitRunAppend(d, x);
    }
    assert s[signLen..signLen + |d|] == d;
    StrtolReads(s, neg, d);
  }

  /** `strtol` on a text made of a sign (when `neg`) and the digit run `d`, then something else. */
  lemma StrtolReads(s: string, neg: bool, d: string)
    requires d != [] && forall i :: 0 <= i < |d| ==> IsDigit(d[i])
    requires s != [] && s[0] == (if neg then '-' else d[0])
    requires var signLen := if neg then 1 else 0;
      signLen + |d| <= |s| && DigitRun(s[signLen..]) == |d| && s[signLen..signLen + |d|] == d
    ensures Strtol(s) == (Saturate(if neg then -(DigitsValue(d) as int) else DigitsValue(d), LONG_MIN, LONG_MAX),
                          (if neg then 1 else 0) + |d|)
    ensures Numeral(s) == (if neg then -(DigitsValue(d) as int) else DigitsValue(d), (if neg then 1 else 0) + |d|)
  {
    assert LeadingSpaces(s) == 0;
    assert s[0..] == s;
  }

  /** `strtol` reads the decimal rendering of an `int` back, up to the first non-digit after it. */
  lemma StrtolDecimalPrefix(v: int, x: string)
    requires IsInt32(v) && (x == [] || !IsDigit(x[0]))
    ensures Strtol(Decimal(v) + x) == (v, |Decimal(v)|)
    ensures Numeral(Decimal(v) + x) == (v, |Decimal(v)|)
  {
    var neg := v < 0;
    var u: nat := if neg then -v else v;
    var d := NatDigits(u);
    var p := (if neg then "-" else "") + d;
    assert Decimal(v) == p;
    NatDigitsValue(u);
    StrtolSignedDigitsThen(neg, d, x);
    assert (if neg then -(DigitsValue(d) as int) else DigitsValue(d)) == v;
  }

  /** The text of a sequence of numbers, each written in decimal after a blank. */
  function Numbers(values: seq<int>): string
  {
    if values == [] then [] else " " + Decimal(values[0]) + Numbers(values[1..])
  }

  /** `%d` reads a number written in decimal after a blank back, leaving what follows its digits. */
  lemma ScanDecimal(v: int, x: string)
    requires IsInt32(v) && (x == [] || !IsDigit(x[0]))
    ensures ScanInt(" " + Decimal(v) + x) == (Converted(v), x)
  {
    var s := " " + Decimal(v) + x;
    assert s[1..] == Decimal(v) + x;
    assert LeadingSpaces(s[1..]) == 0 by { assert !IsSpace(s[1]); }
    assert LeadingSpaces(s) == 1;
    StrtolDecimalPrefix(v, x);
    assert s[1 + |Decimal(v)|..] == x;
  }

  /**
   * `fscanf` with `n` `%d` directives, at least one per number, reads
   * numbers written in decimal back, then goes on with the `r` directives
   * left on what follows them, a non-digit.
   */
  lemma {:induction false} ScanNumbers(values: seq<int>, x: string, n: nat, r: nat)
    requires forall i :: 0 <= i < |values| ==> IsInt32(values[i])
    requires x == [] || !IsDigit(x[0])
    requires n == |values| + r
    ensures ScanInts(Numbers(values) + x, n).0 == values + ScanInts(x, r).0
    ensures ScanInts(Numbers(values) + x, n).2 == ScanInts(x, r).2
    ensures ScanInts(Numbers(values) + x, n).1 == (ScanInts(x, r).1 && values == [])
    decreases |values|, 1
  {
    if values == [] {
      ScanNumbersNone(values, x, n, r);
    } else {
      ScanNumbersMore(values, x, n, r);
    }
  }

  /** A number written in decimal after a blank leaves no ERANGE; the directives go on after it. */
  lemma DecimalInRange(v: int, tail: string, n: nat)
    requires IsInt32(v) && (tail == [] || !IsDigit(tail[0])) && n > 0
    ensures RangeError(" " + Decimal(v) + tail, n) == RangeError(tail, n - 1)
  {
    var d := Decimal(v);
    assert !IsSpace(d[0]);
    DecimalNumeralInRange(v, tail);
    ScanDecimal(v, tail);
    NumeralAfterBlank(d, tail, n);
  }

  /**
   * The first directive converts, after a blank, a numeral `d` within the
   * range of `long`: no ERANGE from it.
   */
  lemma NumeralAfterBlank(d: string, tail: string, n: nat)
    requires n > 0 && d != [] && !IsSpace(d[0]) && !StrtolOutOfRange(d + tail)
    requires ScanInt(" " + d + tail).0.Converted? && ScanInt(" " + d + tail).1 == tail
    ensures RangeError(" " + d + tail, n) == RangeError(tail, n - 1)
  {
    var s := " " + d + tail;
    assert s[1..] == d + tail;
    assert LeadingSpaces(s[1..]) == 0;
    assert LeadingSpaces(s) == 1;
  }

  /** The decimal rendering of an `int` is within the range of `long`. */
  lemma DecimalNumeralInRange(v: int, tail: string)
    requires IsInt32(v) && (tail == [] || !IsDigit(tail[0]))
    ensures !StrtolOutOfRange(Decimal(v) + tail)
  {
    StrtolDecimalPrefix(v, tail);
  }

  /** The base case of `ScanNumbers`: no number, so nothing before `x`. */
  lemma ScanNumbersNone(values: seq<int>, x: string, n: nat, r: nat)
    requires values == [] && n == r
    ensures ScanInts(Numbers(values) + x, n).0 == values + ScanInts(x, r).0
    ensures ScanInts(Numbers(values) + x, n).2 == ScanInts(x, r).2
    ensures ScanInts(Numbers(values) + x, n).1 == ScanInts(x, r).1
  {
    assert Numbers(values) + x == x;
    assert values + ScanInts(x, r).0 == ScanInts(x, r).0;
  }

  /** The step of `ScanNumbers`: the first number, then the others. */
  lemma {:induction false} ScanNumbersMore(values: seq<int>, x: string, n: nat, r: nat)
    requires forall i :: 0 <= i < |values| ==> IsInt32(values[i])
    requires x == [] || !IsDigit(x[0])
    requires values != [] && n == |values| + r
    ensures ScanInts(Numbers(values) + x, n).0 == values + ScanInts(x, r).0
    ensures ScanInts(Numbers(values) + x, n).2 == ScanInts(x, r).2
    ensures !ScanInts(Numbers(values) + x, n).1
    decreases |values|, 0
  {
    var more := values[1..];
    var m := n - 1;
    ScanNumbers(more, x, m, r);
    var last := ScanInts(x, r);
    var tail := Numbers(more) + x;
    assert tail == [] || !IsDigit(tail[0]) by {
      if more != [] {
        assert tail[0] == ' ';
      }
    }
    NumbersCons(values, x);
    var v := values[0];
    ScanDecimal(v, tail);
    var s := Numbers(values) + x;
    var lastValues, lastRest := last.0, last.2;
    ScanIntsCons(s, tail, n, m, values, lastValues, lastRest);
  }

  /** A first conversion followed by the conversions of the rest. */
  lemma ScanIntsCons(s: string, rest: string, n: nat, m: nat, values: seq<int>, more: seq<int>, last: string)
    requires n == m + 1 && values != [] && ScanInt(s) == (Converted(values[0]), rest)
    requires ScanInts(rest, m).0 == values[1..] + more && ScanInts(rest, m).2 == last
    ensures ScanInts(s, n).0 == values + more && ScanInts(s, n).2 == last && !ScanInts(s, n).1
  {
    ScanIntsStep(s, n, m, values[0], rest);
    ConsAppend(values, more);
  }

  lemma ConsAppend(values: seq<int>, more: seq<int>)
    requires values != []
    ensures [values[0]] + (values[1..] + more) == values + more
  {
    assert values == [values[0]] + values[1..];
  }

  lemma NumbersCons(values: seq<int>, x: string)
    requires values != []
    ensures Numbers(values) + x == " " + Decimal(values[0]) + (Numbers(values[1..]) + x)
  {
  }

  /** One `fscanf` with `n` directives is a first conversion, then one with `n - 1`. */
  lemma ScanIntsStep(s: string, n: nat, m: nat, v: int, rest: string)
    requires n == m + 1 && ScanInt(s) == (Converted(v), rest)
    ensures ScanInts(s, n) == ([v] + ScanInts(rest, m).0, false, ScanInts(rest, m).2)
  {
    var o := Conversions(rest, m);
    assert Conversions(s, n) == ([v] + o.0, false, o.2);
  }

  /**
   * `%d` fails without converting when the text ends or goes on with
   * something that cannot start a number; at the end of the text `fscanf`
   * returns EOF.
   */
  lemma ScanIntFails(x: string, n: nat)
    requires x == [] || (!IsSpace(x[0]) && !IsDigit(x[0]) && x[0] != '-' && x[0] != '+')
    ensures !ScanInt(x).0.Converted?
    ensures ScanInts(x, n).0 == []
    ensures n > 0 ==> (ScanInts(x, n).1 <==> x == [])
  {
    if x != [] {
      assert LeadingSpaces(x) == 0;
      assert x[0..] == x;
    }
  }

  /** `ScanIntFails` after a blank, which `%d` skips. */
  lemma ScanIntFailsAfterBlank(y: string, n: nat)
    requires y == [] || (!IsSpace(y[0]) && !IsDigit(y[0]) && y[0] != '-' && y[0] != '+')
    ensures ScanInts(" " + y, n).0 == []
    ensures n > 0 ==> (ScanInts(" " + y, n).1 <==> y == [])
  {
    var s := " " + y;
    assert s[1..] == y;
    if y != [] {
      assert LeadingSpaces(y) == 0;
      assert y[0..] == y;
    }
    assert LeadingSpaces(s) == 1;
  }

  /** A word followed by white space is read whole by a `%Ns` wide enough. */
  lemma {:induction false} ScanWordExact(word: string, x: string, width: nat)
    requires word != [] && |word| <= width && forall i :: 0 <= i < |word| ==> !IsSpace(word[i])
    requires x == [] || IsSpace(x[0])
    ensures ScanWord(word + x, width) == (Some(word), x)
  {
    var s := word + x;
    assert !IsSpace(s[0]);
    assert LeadingSpaces(s) == 0;
    assert s[0..] == s;
    WordLengthExact(word, x, width);
    assert s[..|word|] == word && s[|word|..] == x;
  }

  lemma {:induction false} WordLengthExact(word: string, x: string, width: nat)
    requires |word| <= width && forall i :: 0 <= i < |word| ==> !IsSpace(word[i])
    requires x == [] || IsSpace(x[0])
    ensures WordLength(word + x, width) == |word|
    decreases |word|
  {
    if word == [] {
      assert word + x == x;
    } else {
      assert (word + x)[1..] == word[1..] + x;
      WordLengthExact(word[1..], x, width - 1);
    }
  }

  /** A word wider than a `%Ns` directive is cut after `N` characters; the rest stays in the file. */
  lemma ScanWordCut(word: string, x: string, width: nat)
    requires 0 < width <= |word| && forall i :: 0 <= i < |word| ==> !IsSpace(word[i])
    ensures ScanWord(word + x, width) == (Some(word[..width]), word[width..] + x)
  {
    var s := word + x;
    assert !IsSpace(s[0]);
    assert LeadingSpaces(s) == 0;
    assert s[0..] == s;
    WordLengthFull(s, width);
    assert s[..width] == word[..width] && s[width..] == word[width..] + x;
  }

  lemma {:induction false} WordLengthFull(s: string, width: nat)
    requires width <= |s| && forall i :: 0 <= i < width ==> !IsSpace(s[i])
    ensures WordLength(s, width) == width
    decreases width
  {
    if width > 0 {
      var t := s[1..];
      assert forall i :: 0 <= i < width - 1 ==> t[i] == s[i + 1];
      WordLengthFull(t, width - 1);
    }
  }

  /**
   * An open `FILE`: the text still to be read, and whether `errno` holds
   * ERANGE, the one error the reads on it can leave there.
   */
  class File {
    var rest: string
    var rangeError: bool

    /** `fopen` on a file holding `text`. */
    constructor (text: string)
      ensures rest == text && !rangeError
    {
      rest := text;
      rangeError := false;
    }

    /** `getc`: the next character, or None at the end of the file. */
    method Getc() returns (c: Option<char>)
      modifies this
      ensures c == if old(rest) == [] then None else Some(old(rest)[0])
      ensures rest == Advance(old(rest)) && rangeError == old(rangeError)
    {
      if rest == [] {
        c := None;
      } else {
        c := Some(rest[0]);
        rest := rest[1..];
      }
    }

    /** `fscanf(f, "%d%d...", ...)` with `n` directives. */
    method ReadInts(n: nat) returns (count: int, values: seq<int>)
      modifies this
      ensures var r := ScanInts(old(rest), n);
        values == r.0 && count == ScanCount(r) && rest == r.2
      ensures rangeError == (old(rangeError) || RangeError(old(rest), n))
    {
      var r := ScanInts(rest, n);
      rangeError := rangeError || RangeError(rest, n);
      values, rest := r.0, r.2;
      count := ScanCount(r);
    }

    /** `fscanf(f, "%<width>s", buffer)`: None when it returns EOF. */
    method ReadWord(width: nat) returns (word: Option<string>)
      requires width > 0
      modifies this
      ensures (word, rest) == ScanWord(old(rest), width) && rangeError == old(rangeError)
    {
      var r := ScanWord(rest, width);
      word, rest := r.0, r.1;
    }
  }
}
