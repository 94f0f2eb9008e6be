/** The `%Y%m%d_%H%M%S` rendering of a clock reading (the `strftime` conversions
    of section 7.27.3.5 of ISO C11) and its inverse. */
module Timestamps {
  import opened Outcomes

  /** A broken-down local time, as `datetime.now()` yields it (no sub-second part). */
  datatype DateTime = DateTime(year: int, month: int, day: int, hour: int, minute: int, second: int)

  predicate IsLeapYear(y: int)
  {
    y % 4 == 0 && (y % 100 != 0 || y % 400 == 0)
  }

  function DaysInMonth(y: int, m: int): (n: int)
    requires 1 <= m <= 12
    ensures 28 <= n <= 31
  {
    if m == 2 then (if IsLeapYear(y) then 29 else 28)
    else if m == 4 || m == 6 || m == 9 || m == 11 then 30
    else 31
  }

  /** A valid reading of the proleptic Gregorian calendar. Years are limited to
      four digits, where `%Y` needs no padding on any platform. */
  predicate Valid(dt: DateTime)
  {
    && 1000 <= dt.year <= 9999
    && 1 <= dt.month <= 12
    && 1 <= dt.day <= DaysInMonth(dt.year, dt.month)
    && 0 <= dt.hour < 24
    && 0 <= dt.minute < 60
    && 0 <= dt.second < 60
  }

  predicate IsDigit(c: char)
  {
    '0' <= c <= '9'
  }

  function Digit(d: int): (c: char)
    requires 0 <= d < 10
    ensures IsDigit(c)
  {
    ('0' as int + d) as char
  }

  function DigitValue(c: char): (d: int)
    requires IsDigit(c)
    ensures 0 <= d < 10 && Digit(d) == c
  {
    c as int - '0' as int
  }

  /** `n` in decimal, zero-padded (or cut) to `width` digits. */
  function Digits(n: int, width: nat): (s: string)
    requires n >= 0
    ensures |s| == width
  {
    if width == 0 then [] else Digits(n / 10, width - 1) + [Digit(n % 10)]
  }

  /** The conversion specifications a stamp uses, and plain characters. */
  datatype Conversion =
    | Year    // %Y
    | Month   // %m
    | Day     // %d
    | Hour    // %H
    | Minute  // %M
    | Second  // %S
    | Literal(c: char)

  /** `%Y%m%d_%H%M%S`. */
  const StampFormat: seq<Conversion> := [Year, Month, Day, Literal('_'), Hour, Minute, Second]

  /** What one conversion is replaced by: `%Y` the four-digit year, the others two digits. */
  function Field(c: Conversion, dt: DateTime): string
    requires Valid(dt)
  {
    match c
    case Year => Digits(dt.year, 4)
    case Month => Digits(dt.month, 2)
    case Day => Digits(dt.day, 2)
    case Hour => Digits(dt.hour, 2)
    case Minute => Digits(dt.minute, 2)
    case Second => Digits(dt.second, 2)
    case Literal(ch) => [ch]
  }

  /** `strftime` over a format made of the conversions above. */
  function Strftime(fmt: seq<Conversion>, dt: DateTime): string
    requires Valid(dt)
  {
    if fmt == [] then "" else Field(fmt[0], dt) + Strftime(fmt[1..], dt)
  }

  /** Two digits, as `Digits(n, 2)` writes them. */
  function Pad2(n: int): (s: string)
    requires 0 <= n < 100
    ensures |s| == 2 && IsDigit(s[0]) && IsDigit(s[1])
    ensures DigitValue(s[0]) * 10 + DigitValue(s[1]) == n
  {
    [Digit(n / 10), Digit(n % 10)]
  }

  lemma Digits2(n: int)
    requires 0 <= n < 100
    ensures Digits(n, 2) == Pad2(n)
  {
    assert Digits(n / 10, 1) == [Digit(n / 10 % 10)];
  }

  lemma Digits4(n: int)
    requires 0 <= n < 10000
    ensures Digits(n, 4) == Pad2(n / 100) + Pad2(n % 100)
  {
    var q, r := n / 100, n % 100;
    assert n / 10 == 10 * q + r / 10 && n / 10 % 10 == r / 10 && n % 10 == r % 10;
    assert n / 10 / 10 == q;
    Digits2(q);
    assert Digits(n / 10, 3) == Digits(q, 2) + [Digit(r / 10)];
  }

  /** The 15 characters `YYYYMMDD_HHMMSS`. */
  function Format(dt: DateTime): (s: string)
    requires Valid(dt)
    ensures |s| == 15 && s[8] == '_'
    ensures forall i | 0 <= i < 15 && i != 8 :: IsDigit(s[i])
  {
    FormatExpanded(dt);
    Strftime(StampFormat, dt)
  }

  lemma StrftimeCons(c: Conversion, rest: seq<Conversion>, dt: DateTime)
    requires Valid(dt)
    ensures Strftime([c] + rest, dt) == Field(c, dt) + Strftime(rest, dt)
  {
    assert ([c] + rest)[1..] == rest;
  }

  /** The stamp format unrolled, conversion by conversion. */
  lemma StampFields(dt: DateTime)
    requires Valid(dt)
    ensures Strftime(StampFormat, dt) ==
      Digits(dt.year, 4) + (Digits(dt.month, 2) + (Digits(dt.day, 2)
        + ("_" + (Digits(dt.hour, 2) + (Digits(dt.minute, 2) + Digits(dt.second, 2))))))
  {
    var s6 := Strftime([Second], dt);
    assert s6 == Digits(dt.second, 2) by {
      StrftimeCons(Second, [], dt);
      assert [Second] + [] == [Second];
      assert Digits(dt.second, 2) + "" == Digits(dt.second, 2);
    }
    var s5 := Strftime([Minute, Second], dt);
    assert s5 == Digits(dt.minute, 2) + s6 by { StrftimeCons(Minute, [Second], dt); }
    var s4 := Strftime([Hour, Minute, Second], dt);
    assert s4 == Digits(dt.hour, 2) + s5 by { StrftimeCons(Hour, [Minute, Second], dt); }
    var s3 := Strftime([Literal('_'), Hour, Minute, Second], dt);
    assert s3 == "_" + s4 by { StrftimeCons(Literal('_'), [Hour, Minute, Second], dt); }
    var s2 := Strftime([Day, Literal('_'), Hour, Minute, Second], dt);
    assert s2 == Digits(dt.day, 2) + s3 by { StrftimeCons(Day, [Literal('_'), Hour, Minute, Second], dt); }
    var s1 := Strftime([Month, Day, Literal('_'), Hour, Minute, Second], dt);
    assert s1 == Digits(dt.month, 2) + s2 by { StrftimeCons(Month, [Day, Literal('_'), Hour, Minute, Second], dt); }
    assert StampFormat == [Year] + [Month, Day, Literal('_'), Hour, Minute, Second];
    StrftimeCons(Year, [Month, Day, Literal('_'), Hour, Minute, Second], dt);
  }

  /** The stamp written out field by field. */
  lemma FormatExpanded(dt: DateTime)
    requires Valid(dt)
    ensures Strftime(StampFormat, dt) ==
      Pad2(dt.year / 100) + Pad2(dt.year % 100) + Pad2(dt.month) + Pad2(dt.day)
        + "_" + Pad2(dt.hour) + Pad2(dt.minute) + Pad2(dt.second)
  {
    StampFields(dt);
    Digits4(dt.year); Digits2(dt.month); Digits2(dt.day);
    Digits2(dt.hour); Digits2(dt.minute); Digits2(dt.second);
  }

  /** The number written by the two digits at s[i], s[i+1]. */
  function Num2(s: string, i: int): int
    requires 0 <= i && i + 1 < |s| && IsDigit(s[i]) && IsDigit(s[i + 1])
  {
    DigitValue(s[i]) * 10 + DigitValue(s[i + 1])
  }

  predicate Shaped(s: string)
  {
    |s| == 15 && s[8] == '_' && forall i | 0 <= i < 15 && i != 8 :: IsDigit(s[i])
  }

  /** Reads a `YYYYMMDD_HHMMSS` stamp back; None for anything that is not one. */
  function Parse(s: string): Option<DateTime>
  {
    if Shaped(s) then
      var dt := DateTime(Num2(s, 0) * 100 + Num2(s, 2), Num2(s, 4), Num2(s, 6),
                         Num2(s, 9), Num2(s, 11), Num2(s, 13));
      if Valid(dt) then Some(dt) else None
    else None
  }

  /** The characters of Format(dt), position by position. */
  lemma FormatAt(dt: DateTime)
    requires Valid(dt)
    ensures var s := Format(dt);
      && s[0..2] == Pad2(dt.year / 100) && s[2..4] == Pad2(dt.year % 100)
      && s[4..6] == Pad2(dt.month) && s[6..8] == Pad2(dt.day)
      && s[9..11] == Pad2(dt.hour) && s[11..13] == Pad2(dt.minute) && s[13..15] == Pad2(dt.second)
  {
    FormatExpanded(dt);
  }

  /** Parsing a formatted reading gives the reading back. */
  lemma ParseFormat(dt: DateTime)
    requires Valid(dt)
    ensures Parse(Format(dt)) == Some(dt)
  {
    var s := Format(dt);
    FormatAt(dt);
    assert Num2(s, 0) == dt.year / 100 by { assert s[0..2][0] == s[0] && s[0..2][1] == s[1]; }
    assert Num2(s, 2) == dt.year % 100 by { assert s[2..4][0] == s[2] && s[2..4][1] == s[3]; }
    assert Num2(s, 4) == dt.month by { assert s[4..6][0] == s[4] && s[4..6][1] == s[5]; }
    assert Num2(s, 6) == dt.day by { assert s[6..8][0] == s[6] && s[6..8][1] == s[7]; }
    assert Num2(s, 9) == dt.hour by { assert s[9..11][0] == s[9] && s[9..11][1] == s[10]; }
    assert Num2(s, 11) == dt.minute by { assert s[11..13][0] == s[11] && s[11..13][1] == s[12]; }
    assert Num2(s, 13) == dt.second by { assert s[13..15][0] == s[13] && s[13..15][1] == s[14]; }
  }

  /** Two digits read as a number and written back are the same two digits. */
  lemma Pad2Num2(s: string, i: int)
    requires 0 <= i && i + 1 < |s| && IsDigit(s[i]) && IsDigit(s[i + 1])
    ensures Pad2(Num2(s, i)) == s[i..i + 2]
  {
    var n := Num2(s, i);
    assert n / 10 == DigitValue(s[i]) && n % 10 == DigitValue(s[i + 1]);
  }

  /** Every string that parses is the canonical rendering of what it parses to. */
  lemma FormatParse(s: string, dt: DateTime)
    requires Parse(s) == Some(dt)
    ensures Valid(dt) && Format(dt) == s
  {
    Pad2Num2(s, 0); Pad2Num2(s, 2); Pad2Num2(s, 4); Pad2Num2(s, 6);
    Pad2Num2(s, 9); Pad2Num2(s, 11); Pad2Num2(s, 13);
    assert dt.year / 100 == Num2(s, 0) && dt.year % 100 == Num2(s, 2);
    assert s == s[0..2] + s[2..4] + s[4..6] + s[6..8] + s[8..9] + s[9..11] + s[11..13] + s[13..15];
    assert s[8..9] == "_";
    FormatExpanded(dt);
  }

  /** The rendering is injective on valid readings: equal names mean equal readings. */
  lemma FormatInjective(a: DateTime, b: DateTime)
    requires Valid(a) && Valid(b)
    ensures Format(a) == Format(b) <==> a == b
  {
    if Format(a) == Format(b) {
      ParseFormat(a);
      ParseFormat(b);
    }
  }

  /** A file or directory name built around a stamp, such as `output_<ts>.wav`. */
  function StampedName(stem: string, dt: DateTime, ext: string): (name: string)
    requires Valid(dt)
    ensures |name| == |stem| + 15 + |ext|
    ensures name[|stem|..|stem| + 15] == Format(dt)
  {
    stem + Format(dt) + ext
  }

  /** Two stamped names with the same stem and extension agree exactly when their readings do. */
  lemma StampedNameInjective(stem: string, a: DateTime, b: DateTime, ext: string)
    requires Valid(a) && Valid(b)
    ensures StampedName(stem, a, ext) == StampedName(stem, b, ext) <==> a == b
  {
    if StampedName(stem, a, ext) == StampedName(stem, b, ext) {
      FormatInjective(a, b);
    }
  }
}
