/**
 * The lexical side of calendar dates: the `YYYY-MM-DD` text shape that the
 * input schema's regular expression accepts and that `parseISO` reads, and the
 * way a (year, month, day) triple is written back out by `toISOString`.
 * Nothing here knows about month lengths; that is the `Dates` module.
 */
module DateFormat {

  /** A (year, month, day) triple, as written; not necessarily a real date. */
  datatype Date = Date(year: int, month: int, day: int)

  /** `\d` of a JavaScript regular expression without the `u` flag: ASCII digits only. */
  predicate IsDigit(c: char) {
    '0' <= c <= '9'
  }

  predicate AllDigits(s: string) {
    forall i :: 0 <= i < |s| ==> IsDigit(s[i])
  }

  function DigitValue(c: char): (n: nat)
    requires IsDigit(c)
    ensures n < 10
  {
    (c as int) - ('0' as int)
  }

  function DigitChar(n: nat): (c: char)
    requires n < 10
    ensures IsDigit(c) && DigitValue(c) == n
  {
    (('0' as int) + n) as char
  }

  function Pow10(w: nat): (p: nat)
    ensures p >= 1
  {
    if w == 0 then 1 else 10 * Pow10(w - 1)
  }

  /** The decimal value of a string of digits, most significant first. */
  function ValueOf(s: string): nat
    requires AllDigits(s)
  {
    if s == [] then 0 else ValueOf(s[..|s| - 1]) * 10 + DigitValue(s[|s| - 1])
  }

  /** `n` written in exactly `width` digits, zero-padded on the left. */
  function Pad(n: nat, width: nat): (s: string)
    ensures |s| == width
  {
    if width == 0 then [] else Pad(n / 10, width - 1) + [DigitChar(n % 10)]
  }

  lemma {:induction false} PadAllDigits(n: nat, width: nat)
    ensures AllDigits(Pad(n, width))
  {
    if width > 0 {
      PadAllDigits(n / 10, width - 1);
    }
  }

  /** Reading back a padded number gives the number, when it fits the width. */
  lemma {:induction false} ValueOfPad(n: nat, width: nat)
    requires n < Pow10(width)
    ensures AllDigits(Pad(n, width)) && ValueOf(Pad(n, width)) == n
  {
    PadAllDigits(n, width);
    if width > 0 {
      var s := Pad(n, width);
      assert s[..|s| - 1] == Pad(n / 10, width - 1);
      ValueOfPad(n / 10, width - 1);
    }
  }

  /** Padding the value of a digit string to its own length gives the string back. */
  lemma {:induction false} PadValueOf(s: string)
    requires AllDigits(s)
    ensures ValueOf(s) < Pow10(|s|)
    ensures Pad(ValueOf(s), |s|) == s
  {
    if s != [] {
      var init := s[..|s| - 1];
      PadValueOf(init);
      var v := ValueOf(s);
      assert v / 10 == ValueOf(init) && v % 10 == DigitValue(s[|s| - 1]);
      assert s == init + [s[|s| - 1]];
    }
  }

  /**
   * The regular expression `^\d{4}-\d{2}-\d{2}$` (no flags): exactly four
   * digits, a hyphen, two digits, a hyphen, two digits, nothing else.
   */
  predicate IsDateShaped(s: string) {
    && |s| == 10
    && AllDigits(s[..4]) && s[4] == '-'
    && AllDigits(s[5..7]) && s[7] == '-'
    && AllDigits(s[8..])
  }

  /** The three numbers a date-shaped string spells out. */
  function FieldsOf(s: string): (d: Date)
    requires IsDateShaped(s)
    ensures 0 <= d.year < 10000 && 0 <= d.month < 100 && 0 <= d.day < 100
  {
    PadValueOf(s[..4]);
    PadValueOf(s[5..7]);
    PadValueOf(s[8..]);
    Date(ValueOf(s[..4]), ValueOf(s[5..7]), ValueOf(s[8..]))
  }

  predicate Printable(d: Date) {
    0 <= d.year < 1000000 && 0 <= d.month < 100 && 0 <= d.day < 100
  }

  /**
   * The date part of `toISOString()`: four-digit years 0000-9999, and the
   * extended form `+YYYYYY` with six digits beyond that.
   */
  function Format(d: Date): string
    requires Printable(d)
  {
    var year := if d.year < 10000 then Pad(d.year, 4) else "+" + Pad(d.year, 6);
    year + "-" + Pad(d.month, 2) + "-" + Pad(d.day, 2)
  }

  /** A date-shaped string is the rendering of the triple it spells out. */
  lemma FormatFieldsOf(s: string)
    requires IsDateShaped(s)
    ensures Printable(FieldsOf(s)) && Format(FieldsOf(s)) == s
  {
    PadValueOf(s[..4]);
    PadValueOf(s[5..7]);
    PadValueOf(s[8..]);
    assert s == s[..4] + "-" + s[5..7] + "-" + s[8..];
  }

  /** A four-digit-year triple renders to a date-shaped string that reads back as itself. */
  lemma FieldsOfFormat(d: Date)
    requires 0 <= d.year < 10000 && 0 <= d.month < 100 && 0 <= d.day < 100
    ensures IsDateShaped(Format(d)) && FieldsOf(Format(d)) == d
  {
    var s := Format(d);
    assert s[..4] == Pad(d.year, 4);
    assert s[5..7] == Pad(d.month, 2);
    assert s[8..] == Pad(d.day, 2);
    ValueOfPad(d.year, 4);
    ValueOfPad(d.month, 2);
    ValueOfPad(d.day, 2);
  }

  /** A year past 9999 is written with a leading '+', so it is not date-shaped. */
  lemma ExtendedYearNotShaped(d: Date)
    requires Printable(d) && d.year >= 10000
    ensures !IsDateShaped(Format(d))
  {
    assert Format(d)[0] == '+';
  }
}
