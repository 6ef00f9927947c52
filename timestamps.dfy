/** `java.time.LocalDateTime` and its rendering with the pattern `yyyy-MM-dd HH:mm:ss`,
    the `@JsonFormat` pattern of the envelope's timestamp field. */
module Timestamps {
  import opened Wrappers

  datatype DateTimeFields =
    DateTimeFields(year: int, month: int, day: int, hour: int, minute: int, second: int, nano: int)

  const MinYear := -999_999_999
  const MaxYear := 999_999_999

  /** The ISO (proleptic Gregorian) leap-year rule. */
  predicate IsLeapYear(year: int) {
    year % 4 == 0 && (year % 100 != 0 || year % 400 == 0)
  }

  function DaysInMonth(year: int, month: int): (n: int)
    requires 1 <= month <= 12
    ensures 28 <= n <= 31
    ensures n == 29 <==> month == 2 && IsLeapYear(year)
  {
    if month == 2 then (if IsLeapYear(year) then 29 else 28)
    else if month == 4 || month == 6 || month == 9 || month == 11 then 30
    else 31
  }

  /** The ranges `LocalDateTime` guarantees for every instance it hands out. */
  predicate ValidDateTime(t: DateTimeFields) {
    && MinYear <= t.year <= MaxYear
    && 1 <= t.month <= 12
    && 1 <= t.day <= DaysInMonth(t.year, t.month)
    && 0 <= t.hour < 24
    && 0 <= t.minute < 60
    && 0 <= t.second < 60
    && 0 <= t.nano < 1_000_000_000
  }

  type LocalDateTime = t: DateTimeFields | ValidDateTime(t) witness DateTimeFields(2000, 1, 1, 0, 0, 0, 0)

  /** The instant with its fraction of a second dropped. */
  function TruncatedToSeconds(t: LocalDateTime): (u: LocalDateTime)
    ensures u.nano == 0
    ensures u.(nano := t.nano) == t
  {
    t.(nano := 0)
  }

  // ---------------- decimal digits ----------------

  predicate IsDigit(c: char) {
    '0' <= c <= '9'
  }

  predicate AllDigits(s: string) {
    forall i :: 0 <= i < |s| ==> IsDigit(s[i])
  }

  function DigitChar(d: nat): (c: char)
    requires d < 10
    ensures IsDigit(c) && c as int - '0' as int == d
  {
    ('0' as int + d) as char
  }

  function DigitValue(c: char): (d: nat)
    requires IsDigit(c)
    ensures d < 10 && DigitChar(d) == c
  {
    c as int - '0' as int
  }

  function Pow10(k: nat): (p: nat)
    ensures p >= 1
  {
    if k == 0 then 1 else 10 * Pow10(k - 1)
  }

  /** `Long.toString` of a non-negative value: its decimal digits, most significant first. */
  function Digits(n: nat): (r: string)
    ensures 1 <= |r|
    ensures AllDigits(r)
    decreases n
  {
    if n < 10 then [DigitChar(n)] else Digits(n / 10) + [DigitChar(n % 10)]
  }

  lemma {:induction false} DigitsFitWidth(n: nat, width: nat)
    requires 1 <= width
    requires n < Pow10(width)
    ensures |Digits(n)| <= width
    decreases n
  {
    if n >= 10 {
      assert width >= 2;
      DigitsFitWidth(n / 10, width - 1);
    }
  }

  function Zeros(k: nat): (r: string)
    ensures |r| == k
    ensures forall i :: 0 <= i < k ==> r[i] == '0'
  {
    if k == 0 then [] else Zeros(k - 1) + ['0']
  }

  /** A numeric field printed with a minimum width: its digits, left-padded with '0'. */
  function PadDigits(n: nat, width: nat): (r: string)
    ensures AllDigits(r)
    ensures width <= |r|
    ensures |Digits(n)| <= width ==> |r| == width
  {
    var d := Digits(n);
    if |d| < width then Zeros(width - |d|) + d else d
  }

  /** A two-digit field (month, day, hour, minute, second) always takes two characters. */
  lemma PadTwo(n: nat)
    requires n < 100
    ensures |PadDigits(n, 2)| == 2
  {
    DigitsFitWidth(n, 2);
  }

  // ---------------- the pattern yyyy-MM-dd HH:mm:ss ----------------

  /** `yyyy` prints the year-of-era, which is never below 1: year 0 is 1 BCE. */
  function YearOfEra(year: int): (yoe: nat)
    ensures yoe >= 1
    ensures year >= 1 ==> yoe == year
    ensures year < 1 ==> yoe == 1 - year
  {
    if year >= 1 then year else 1 - year
  }

  /** Nineteen characters: four digits, '-', two digits, '-', two digits, ' ', two digits,
      ':', two digits, ':', two digits. */
  predicate HasPatternShape(s: string) {
    && |s| == 19
    && s[4] == '-' && s[7] == '-' && s[10] == ' ' && s[13] == ':' && s[16] == ':'
    && forall i :: 0 <= i < 19 && i != 4 && i != 7 && i != 10 && i != 13 && i != 16 ==> IsDigit(s[i])
  }

  /** The six fields in the pattern's order and with its separators. */
  function Layout(year: string, month: string, day: string, hour: string, minute: string, second: string): string {
    year + "-" + month + "-" + day + " " + hour + ":" + minute + ":" + second
  }

  /** Where each field of a full-width layout lies. */
  lemma LayoutPositions(year: string, month: string, day: string, hour: string, minute: string, second: string)
    requires |year| == 4 && |month| == 2 && |day| == 2 && |hour| == 2 && |minute| == 2 && |second| == 2
    ensures var r := Layout(year, month, day, hour, minute, second);
      && |r| == 19
      && r[4] == '-' && r[7] == '-' && r[10] == ' ' && r[13] == ':' && r[16] == ':'
      && r[0..4] == year && r[5..7] == month && r[8..10] == day
      && r[11..13] == hour && r[14..16] == minute && r[17..19] == second
  {
    var r := Layout(year, month, day, hour, minute, second);
    var a := year + "-" + month + "-" + day;
    var b := " " + hour + ":" + minute + ":" + second;
    assert r == a + b;
    assert a[0..4] == year && a[5..7] == month && a[8..10] == day;
    assert b[1..3] == hour && b[4..6] == minute && b[7..9] == second;
    assert r[0..10] == a && r[10..19] == b;
  }

  /** The timestamp as Jackson writes it. `yyyy` has minimum width 4 and sign style
      EXCEEDS_PAD, so a year-of-era above 9999 is printed in full behind a '+'. */
  function Format(t: LocalDateTime): (r: string)
    ensures YearOfEra(t.year) <= 9999 ==> HasPatternShape(r)
    ensures YearOfEra(t.year) > 9999 ==> |r| > 19 && r[0] == '+'
  {
    var yoe := YearOfEra(t.year);
    var fields := Layout(PadDigits(yoe, 4), PadDigits(t.month, 2), PadDigits(t.day, 2),
                         PadDigits(t.hour, 2), PadDigits(t.minute, 2), PadDigits(t.second, 2));
    FieldsShape(yoe, t.month, t.day, t.hour, t.minute, t.second);
    if yoe > 9999 then "+" + fields else fields
  }

  /** With the year field at four characters the layout has the pattern's shape; with a
      wider year field it is longer than 19. */
  lemma FieldsShape(yoe: nat, month: nat, day: nat, hour: nat, minute: nat, second: nat)
    requires month < 100 && day < 100 && hour < 100 && minute < 100 && second < 100
    ensures var r := Layout(PadDigits(yoe, 4), PadDigits(month, 2), PadDigits(day, 2),
                            PadDigits(hour, 2), PadDigits(minute, 2), PadDigits(second, 2));
      && (yoe <= 9999 ==> HasPatternShape(r))
      && (yoe > 9999 ==> |r| > 19)
  {
    var y, mo, d := PadDigits(yoe, 4), PadDigits(month, 2), PadDigits(day, 2);
    var h, mi, se := PadDigits(hour, 2), PadDigits(minute, 2), PadDigits(second, 2);
    YearFieldWidth(yoe);
    PadTwo(month); PadTwo(day); PadTwo(hour); PadTwo(minute); PadTwo(second);
    if yoe <= 9999 {
      var r := Layout(y, mo, d, h, mi, se);
      LayoutPositions(y, mo, d, h, mi, se);
      forall i | 0 <= i < 19 && i != 4 && i != 7 && i != 10 && i != 13 && i != 16
        ensures IsDigit(r[i])
      {
        if i < 4 { assert r[i] == r[0..4][i]; }
        else if i < 7 { assert r[i] == r[5..7][i - 5]; }
        else if i < 10 { assert r[i] == r[8..10][i - 8]; }
        else if i < 13 { assert r[i] == r[11..13][i - 11]; }
        else if i < 16 { assert r[i] == r[14..16][i - 14]; }
        else { assert r[i] == r[17..19][i - 17]; }
      }
    }
  }

  /** The year field takes exactly four characters up to 9999 and more beyond. */
  lemma YearFieldWidth(yoe: nat)
    ensures yoe <= 9999 ==> |PadDigits(yoe, 4)| == 4
    ensures yoe > 9999 ==> |PadDigits(yoe, 4)| > 4
  {
    if yoe <= 9999 {
      DigitsFitWidth(yoe, 4);
    } else {
      DigitsLowerBound(yoe, 4);
    }
  }

  lemma {:induction false} DigitsLowerBound(n: nat, width: nat)
    requires Pow10(width) <= n
    ensures width < |Digits(n)|
    decreases n
  {
    if width > 0 {
      DigitsLowerBound(n / 10, width - 1);
    }
  }

  // ---------------- reading the pattern back ----------------

  function ParseNat(s: string): (n: nat)
    requires AllDigits(s)
  {
    if s == [] then 0 else 10 * ParseNat(s[..|s| - 1]) + DigitValue(s[|s| - 1])
  }

  /** The inverse of `Format` on its outputs for years 1 to 9999: the six fields, with
      year-of-era read as a year of the current era, and `None` for text of another shape or
      an impossible date. */
  function ParseTimestamp(s: string): (r: Option<LocalDateTime>)
    ensures r.Some? ==> HasPatternShape(s) && r.value.nano == 0 && 1 <= r.value.year <= 9999
  {
    if !HasPatternShape(s) then None
    else
      var t := DateTimeFields(ParseNat(s[0..4]), ParseNat(s[5..7]), ParseNat(s[8..10]),
                              ParseNat(s[11..13]), ParseNat(s[14..16]), ParseNat(s[17..19]), 0);
      if 1 <= t.year <= 9999 && ValidDateTime(t) then Some(t) else None
  }

  lemma {:induction false} ParseNatOfDigits(n: nat)
    ensures ParseNat(Digits(n)) == n
    decreases n
  {
    if n >= 10 {
      var d := Digits(n);
      assert d[..|d| - 1] == Digits(n / 10);
      ParseNatOfDigits(n / 10);
    }
  }

  lemma {:induction false} ParseNatOfZeros(k: nat)
    ensures ParseNat(Zeros(k)) == 0
  {
    if k > 0 {
      var z := Zeros(k);
      assert z[..k - 1] == Zeros(k - 1);
      ParseNatOfZeros(k - 1);
    }
  }

  lemma {:induction false} ParseNatSkipsLeadingZeros(k: nat, d: string)
    requires AllDigits(d)
    ensures AllDigits(Zeros(k) + d)
    ensures ParseNat(Zeros(k) + d) == ParseNat(d)
    decreases |d|
  {
    var z := Zeros(k) + d;
    if d == [] {
      assert z == Zeros(k);
      ParseNatOfZeros(k);
    } else {
      assert z[..|z| - 1] == Zeros(k) + d[..|d| - 1];
      ParseNatSkipsLeadingZeros(k, d[..|d| - 1]);
    }
  }

  lemma ParseNatOfPadDigits(n: nat, width: nat)
    ensures ParseNat(PadDigits(n, width)) == n
  {
    var d := Digits(n);
    ParseNatOfDigits(n);
    if |d| < width {
      ParseNatSkipsLeadingZeros(width - |d|, d);
    }
  }

  /** Reading a rendered timestamp back gives the instant up to its fraction of a second,
      for every year from 1 to 9999. */
  lemma FormatRoundTrip(t: LocalDateTime)
    requires 1 <= t.year <= 9999
    ensures ParseTimestamp(Format(t)) == Some(TruncatedToSeconds(t))
  {
    var y, mo, d := PadDigits(t.year, 4), PadDigits(t.month, 2), PadDigits(t.day, 2);
    var h, mi, se := PadDigits(t.hour, 2), PadDigits(t.minute, 2), PadDigits(t.second, 2);
    YearFieldWidth(t.year);
    PadTwo(t.month); PadTwo(t.day); PadTwo(t.hour); PadTwo(t.minute); PadTwo(t.second);
    LayoutPositions(y, mo, d, h, mi, se);
    assert Format(t) == Layout(y, mo, d, h, mi, se);
    ParseNatOfPadDigits(t.year, 4);
    ParseNatOfPadDigits(t.month, 2);
    ParseNatOfPadDigits(t.day, 2);
    ParseNatOfPadDigits(t.hour, 2);
    ParseNatOfPadDigits(t.minute, 2);
    ParseNatOfPadDigits(t.second, 2);
  }

  /** The rendering keeps everything but the fraction of a second: two instants of years
      1 to 9999 render alike exactly when they agree to the second. */
  /** The era is not printed: a year `y` and the year `1 - y` of the other era render alike. */
  lemma EraIsNotPrinted(a: LocalDateTime, b: LocalDateTime)
    requires b == a.(year := 1 - a.year)
    ensures Format(a) == Format(b)
  {
  }

  lemma FormatDistinguishesSeconds(a: LocalDateTime, b: LocalDateTime)
    requires 1 <= a.year <= 9999 && 1 <= b.year <= 9999
    ensures Format(a) == Format(b) <==> TruncatedToSeconds(a) == TruncatedToSeconds(b)
  {
    FormatRoundTrip(a);
    FormatRoundTrip(b);
  }
}
