/**
 * The forms of RFC 3339 a date may come in from outside (`src/provider/mod.rs:85-98`): `Z` or a
 * numeric offset, any separator and any number of fraction digits. Each is read as the instant
 * it denotes.
 */
module Rfc3339Forms {
  import opened Prelude
  import opened Timestamps
  import opened Rfc3339

  /** UTC, or so many minutes east or west of it. */
  datatype Zone = Zulu(letter: char) | East(minutes: int) | West(minutes: int) {
    predicate Valid() {
      if Zulu? then letter == 'Z' || letter == 'z' else 0 <= minutes < 24 * 60
    }

    /** Minutes ahead of UTC. */
    function Ahead(): int {
      match this
      case Zulu(_) => 0
      case East(minutes) => minutes
      case West(minutes) => -minutes
    }

    function Text(): string
      requires Valid()
    {
      match this
      case Zulu(letter) => [letter]
      case East(minutes) => "+" + OffsetText(minutes)
      case West(minutes) => "-" + OffsetText(minutes)
    }
  }

  function OffsetText(minutes: nat): string {
    Dec(minutes / 60, 2) + (":" + (Dec(minutes % 60, 2) + ""))
  }

  /**
   * A date and time as written there: local components, the separator, how many fraction
   * digits, digits beyond the ninth, and the zone.
   */
  datatype Form = Form(civil: Civil, separator: char, width: nat, beyond: string, zone: Zone) {
    predicate Valid() {
      && civil.Valid() && zone.Valid() && (separator == 'T' || separator == 't' || separator == ' ')
      && width <= 9 && civil.nano % Pow10(9 - width) == 0
      && AllDigits(beyond) && (beyond != "" ==> width == 9)
    }

    function Text(): string
      requires Valid()
    {
      PrintDate(civil.date) + ([separator] + (PrintTime(civil.time) + Tail()))
    }

    function Tail(): string
      requires Valid()
    {
      if width == 0 then zone.Text() else "." + (Fraction(civil.nano, width) + (beyond + zone.Text()))
    }

    /** The instant it denotes: what the clock shows there, less how far it is ahead of UTC. */
    function Instant(): int
      requires Valid()
    {
      civil.Nanos() - zone.Ahead() * 60 * 1_000_000_000
    }
  }

  lemma ReadsOffset(sign: char, minutes: nat)
    requires minutes < 24 * 60 && (sign == '+' || sign == '-')
    ensures ReadOffset([sign] + OffsetText(minutes)) == Some(if sign == '-' then -60 * minutes else 60 * minutes)
  {
    var s := [sign] + OffsetText(minutes);
    var last := Dec(minutes % 60, 2) + "";
    assert Pow10(2) == 100;
    ReadsBackChar(sign, OffsetText(minutes), "+-");
    ReadsBackDec(minutes / 60, 2, ":" + last);
    ReadsBackChar(':', last, ":");
    ReadsBackDec(minutes % 60, 2, "");
    assert s[0] == sign && |s| > 1;
  }

  lemma ReadsEast(minutes: int)
    requires 0 <= minutes < 24 * 60
    ensures ReadOffset(East(minutes).Text()) == Some(minutes * 60)
  {
    assert East(minutes).Text() == ['+'] + OffsetText(minutes);
    ReadsOffset('+', minutes);
  }

  lemma ReadsWest(minutes: int)
    requires 0 <= minutes < 24 * 60
    ensures ReadOffset(West(minutes).Text()) == Some(-minutes * 60)
  {
    assert West(minutes).Text() == ['-'] + OffsetText(minutes);
    ReadsOffset('-', minutes);
  }

  lemma ReadsZulu(letter: char)
    requires letter == 'Z' || letter == 'z'
    ensures ReadOffset(Zulu(letter).Text()) == Some(0)
  {
  }

  lemma ReadsZone(zone: Zone)
    requires zone.Valid()
    ensures ReadOffset(zone.Text()) == Some(zone.Ahead() * 60)
  {
    match zone
    case Zulu(letter) => ReadsZulu(letter);
    case East(minutes) => ReadsEast(minutes);
    case West(minutes) => ReadsWest(minutes);
  }

  lemma ZoneIsNoDigit(zone: Zone)
    requires zone.Valid()
    ensures zone.Text() != "" && !IsDigit(zone.Text()[0]) && zone.Text()[0] != '.'
  {
  }

  /** A fraction of `width` digits that loses nothing. */
  lemma FractionFits(nano: nat, width: nat)
    requires nano < NANOS_PER_SECOND && width <= 9 && nano % Pow10(9 - width) == 0
    ensures 0 <= nano / Pow10(9 - width) < Pow10(width) && nano / Pow10(9 - width) * Pow10(9 - width) == nano
  {
    Pow10Values();
    assert Pow10(7) == 10_000_000 && Pow10(8) == 100_000_000;
  }

  /** Digits beyond the ninth are skipped. */
  lemma ReadsLongFraction(digits: string, beyond: string, rest: string)
    requires AllDigits(digits) && AllDigits(beyond) && 1 <= |digits| <= 9 && (beyond != "" ==> |digits| == 9)
    requires rest != "" && !IsDigit(rest[0])
    ensures ReadFraction("." + (digits + (beyond + rest))) == Some((Value(digits) * Pow10(9 - |digits|), rest))
  {
    var all := digits + beyond;
    assert digits + (beyond + rest) == all + rest;
    SplitAfterDot(all, rest);
    DigitRunStops(all, rest);
    assert all[..|digits|] == digits;
    LongFractionAfterDot("." + (all + rest), digits, |all|);
  }

  lemma LongFractionAfterDot(s: string, digits: string, run: nat)
    requires s != "" && s[0] == '.' && 1 <= |digits| <= 9 && |digits| == (if run < 9 then run else 9)
    requires run <= |s| - 1 && DigitRun(s[1..]) == run && s[1..][..run][..|digits|] == digits
    ensures AllDigits(digits)
    ensures ReadFraction(s) == Some((Value(digits) * Pow10(9 - |digits|), s[1..][run..]))
  {
    assert s[1..][..run][..|digits|] == s[1..][..|digits|];
  }

  lemma ReadsTail(f: Form)
    requires f.Valid()
    ensures ReadFraction(f.Tail()) == Some((f.civil.nano, f.zone.Text()))
  {
    ZoneIsNoDigit(f.zone);
    FractionFits(f.civil.nano, f.width);
    if f.width == 0 {
      assert f.civil.nano == 0;
    } else {
      ReadsPrintedFraction(f.civil.nano, f.width, f.beyond, f.zone.Text());
    }
  }

  lemma ReadsPrintedFraction(nano: nat, width: nat, beyond: string, rest: string)
    requires nano < NANOS_PER_SECOND && 1 <= width <= 9 && nano % Pow10(9 - width) == 0
    requires AllDigits(beyond) && (beyond != "" ==> width == 9) && rest != "" && !IsDigit(rest[0])
    ensures ReadFraction("." + (Fraction(nano, width) + (beyond + rest))) == Some((nano, rest))
  {
    FractionFits(nano, width);
    ReadsLongFraction(Fraction(nano, width), beyond, rest);
    ValueOfDec(nano / Pow10(9 - width), width);
  }

  lemma ReadsClock(f: Form)
    requires f.Valid()
    ensures ParseTime(f.civil.date, [f.separator] + (PrintTime(f.civil.time) + f.Tail())) == Some(f.Instant())
  {
    var rest := PrintTime(f.civil.time) + f.Tail();
    ReadsBackChar(f.separator, rest, "Tt ");
    ReadsBackTime(f.civil.time, f.Tail());
    ReadsEnd(f);
  }

  lemma ReadsEnd(f: Form)
    requires f.Valid()
    ensures ParseTail(f.civil.date, f.civil.time, f.Tail()) == Some(f.Instant())
  {
    ReadsTail(f);
    ReadsZone(f.zone);
    EndIs(f, f.Tail(), f.zone.Text());
  }

  lemma EndIs(f: Form, s: string, rest: string)
    requires f.Valid() && ReadFraction(s) == Some((f.civil.nano, rest)) && ReadOffset(rest) == Some(f.zone.Ahead() * 60)
    ensures ParseTail(f.civil.date, f.civil.time, s) == Some(f.Instant())
  {
    AheadOf(f.civil.date.Number() * SECONDS_PER_DAY + f.civil.time.Number(), f.zone.Ahead(), f.civil.nano);
  }

  lemma AheadOf(seconds: int, ahead: int, nano: int)
    ensures (seconds - ahead * 60) * NANOS_PER_SECOND + nano
         == seconds * NANOS_PER_SECOND + nano - ahead * 60 * 1_000_000_000
  {
  }

  /** Every form of a date is read as the instant it denotes. */
  lemma ParsesEveryForm(f: Form)
    requires f.Valid()
    ensures Parse(f.Text()) == Some(f.Instant())
  {
    ReadsBackDate(f.civil.date, [f.separator] + (PrintTime(f.civil.time) + f.Tail()));
    ReadsClock(f);
  }

  // ---- Nothing else is read ---------------------------------------------------------

  lemma {:induction false} DecOfValue(s: string)
    requires AllDigits(s)
    ensures Value(s) < Pow10(|s|) && Dec(Value(s), |s|) == s
  {
    if s != "" {
      var front := s[..|s| - 1];
      assert AllDigits(front) && IsDigit(s[|s| - 1]);
      DecOfValue(front);
      assert Value(s) / 10 == Value(front) && Value(s) % 10 == s[|s| - 1] as int - '0' as int;
    }
  }

  lemma WasDec(s: string, w: nat, n: nat, rest: string)
    requires ReadDec(s, w) == Some((n, rest))
    ensures n < Pow10(w) && s == Dec(n, w) + rest
  {
    DecOfValue(s[..w]);
  }

  lemma FieldsJoin(a: string, b: string, c: string, separator: string, rest: string)
    ensures a + (separator + (b + (separator + (c + rest)))) == (a + (separator + (b + (separator + c)))) + rest
  {
  }

  lemma WasDate(s: string, d: Date, rest: string)
    requires ReadDate(s) == Some((d, rest))
    ensures d.Valid() && s == PrintDate(d) + rest
  {
    var s1 := s[4..];
    var s2 := s1[1..];
    var s3 := s2[2..];
    var s4 := s3[1..];
    WasDec(s, 4, d.year, s1);
    WasDec(s2, 2, d.month, s3);
    WasDec(s4, 2, d.day, rest);
    assert s1 == "-" + s2 && s3 == "-" + s4;
    FieldsJoin(Dec(d.year, 4), Dec(d.month, 2), Dec(d.day, 2), "-", rest);
  }

  lemma WasTime(s: string, t: Time, rest: string)
    requires ReadTime(s) == Some((t, rest))
    ensures t.Valid() && s == PrintTime(t) + rest
  {
    var s1 := s[2..];
    var s2 := s1[1..];
    var s3 := s2[2..];
    var s4 := s3[1..];
    WasDec(s, 2, t.hour, s1);
    WasDec(s2, 2, t.minute, s3);
    WasDec(s4, 2, t.second, rest);
    assert s1 == ":" + s2 && s3 == ":" + s4;
    FieldsJoin(Dec(t.hour, 2), Dec(t.minute, 2), Dec(t.second, 2), ":", rest);
  }

  lemma WasOffset(s: string, offset: int) returns (zone: Zone)
    requires ReadOffset(s) == Some(offset)
    ensures zone.Valid() && s == zone.Text() && zone.Ahead() * 60 == offset
  {
    if s == "Z" || s == "z" {
      zone := Zulu(s[0]);
    } else {
      var s1 := s[1..];
      var s2 := s1[2..];
      var s3 := s2[1..];
      var hours, minutes := Value(s1[..2]), Value(s3[..2]);
      WasDec(s1, 2, hours, s2);
      WasDec(s3, 2, minutes, "");
      assert s2 == ":" + s3 && s1 == Dec(hours, 2) + (":" + (Dec(minutes, 2) + ""));
      var all := hours * 60 + minutes;
      assert all / 60 == hours && all % 60 == minutes;
      zone := if s[0] == '-' then West(all) else East(all);
    }
  }

  /** The digits written, as a value of nine and what is beyond. */
  lemma WasFraction(s: string, nano: int, rest: string) returns (width: nat, beyond: string)
    requires ReadFraction(s) == Some((nano, rest))
    ensures 0 <= nano < NANOS_PER_SECOND && width <= 9 && nano % Pow10(9 - width) == 0
    ensures AllDigits(beyond) && (beyond != "" ==> width == 9)
    ensures s == if width == 0 then rest else "." + (Fraction(nano, width) + (beyond + rest))
  {
    Pow10Values();
    if s == "" || s[0] != '.' {
      width, beyond := 0, "";
    } else {
      var t := s[1..];
      var n := DigitRun(t);
      width := if n < 9 then n else 9;
      beyond := t[width..n];
      RunJoins(t, width, n);
      FractionWasDigits(t[..n], width, nano);
    }
  }

  lemma RunJoins(t: string, width: nat, n: nat)
    requires width <= n <= |t|
    ensures t[..n][..width] == t[..width] && t[..n][width..] == t[width..n]
    ensures t == t[..width] + (t[width..n] + t[n..])
  {
  }

  lemma FractionWasDigits(run: string, width: nat, nano: int)
    requires AllDigits(run) && 1 <= width <= |run| && width <= 9 && AllDigits(run[..width])
    requires nano == Value(run[..width]) * Pow10(9 - width)
    ensures 0 <= nano < NANOS_PER_SECOND && nano % Pow10(9 - width) == 0
    ensures Fraction(nano, width) == run[..width] && AllDigits(run[width..])
  {
    DecOfValue(run[..width]);
    Scaled(Value(run[..width]), width);
  }

  lemma Scaled(value: nat, width: nat)
    requires 1 <= width <= 9 && value < Pow10(width)
    ensures var nano := value * Pow10(9 - width);
            0 <= nano < NANOS_PER_SECOND && nano % Pow10(9 - width) == 0 && nano / Pow10(9 - width) == value
  {
    Pow10Values();
    assert Pow10(7) == 10_000_000 && Pow10(8) == 100_000_000;
    ScaledBy(value, Pow10(9 - width), Pow10(width));
  }

  lemma ScaledBy(value: nat, unit: int, bound: int)
    requires value < bound && unit > 0 && unit * bound == NANOS_PER_SECOND
    ensures var nano := value * unit; 0 <= nano < NANOS_PER_SECOND && nano % unit == 0 && nano / unit == value
  {
    ProductIsNatural(value, unit);
    ProductIsNatural(bound - value - 1, unit);
    assert (bound - value - 1) * unit == bound * unit - value * unit - unit;
    QuotientIs(value * unit, unit, value, 0);
  }

  lemma WasEnd(date: Date, time: Time, separator: char, s: string, i: int) returns (f: Form)
    requires date.Valid() && time.Valid() && ParseTail(date, time, s) == Some(i)
    requires separator == 'T' || separator == 't' || separator == ' '
    ensures f.Valid() && f.civil.date == date && f.civil.time == time && f.separator == separator
    ensures s == f.Tail() && i == f.Instant()
  {
    var (nano, rest) := ReadFraction(s).value;
    var width, beyond := WasFraction(s, nano, rest);
    var zone := WasOffset(rest, ReadOffset(rest).value);
    f := Form(Civil(date, time, nano), separator, width, beyond, zone);
    AheadOf(date.Number() * SECONDS_PER_DAY + time.Number(), zone.Ahead(), nano);
  }

  lemma ClockParts(date: Date, s: string, i: int) returns (time: Time, tail: string)
    requires date.Valid() && ParseTime(date, s) == Some(i)
    ensures s != "" && (s[0] == 'T' || s[0] == 't' || s[0] == ' ') && time.Valid()
    ensures s == [s[0]] + (PrintTime(time) + tail) && ParseTail(date, time, tail) == Some(i)
  {
    var parts := ReadTime(s[1..]).value;
    time, tail := parts.0, parts.1;
    WasTime(s[1..], time, tail);
    assert s == [s[0]] + s[1..];
  }

  lemma WasClock(date: Date, s: string, i: int) returns (f: Form)
    requires date.Valid() && ParseTime(date, s) == Some(i)
    ensures f.Valid() && f.civil.date == date
    ensures s == [f.separator] + (PrintTime(f.civil.time) + f.Tail()) && i == f.Instant()
  {
    var time, tail := ClockParts(date, s, i);
    f := WasEnd(date, time, s[0], tail, i);
  }

  /** A text that is read at all is one of the forms, read as the instant it denotes. */
  lemma ParsedIsAForm(s: string, i: int) returns (f: Form)
    requires Parse(s) == Some(i)
    ensures f.Valid() && s == f.Text() && i == f.Instant()
  {
    var (date, rest) := ReadDate(s).value;
    WasDate(s, date, rest);
    f := WasClock(date, rest, i);
  }

  // ---- Printing components ----------------------------------------------------------

  lemma NanosAreInstants(c: Civil)
    requires c.Valid()
    ensures 0 <= c.Nanos() < END_OF_TIME
  {
    var d := c.date;
    YearsAccumulate(10_000);
    YearsGrow(d.year + 1, 10_000);
    MonthsFillTheYear(d.year);
    MonthsGrow(d.year, d.month + 1, 13);
    assert d.Number() < DaysBeforeYear(d.year + 1) <= 3_652_425;
    assert 0 <= c.time.Number() < SECONDS_PER_DAY;
  }

  /** Components have one instant, and an instant has no others. */
  lemma SplitOfNanos(c: Civil)
    requires c.Valid()
    ensures 0 <= c.Nanos() < END_OF_TIME && Split(c.Nanos()) == c
  {
    NanosAreInstants(c);
    SplitIsInverse(c.Nanos());
    var d := Split(c.Nanos());
    if Before(c, d) {
      EarlierCivil(c, d);
    } else if Before(d, c) {
      EarlierCivil(d, c);
    }
  }

  /** An instant prints as one of the forms: with as many digits as needed, and no time ahead of UTC. */
  lemma PrintIsAForm(c: Civil)
    requires c.Valid()
    ensures var f := Form(c, 'T', FractionWidth(c.nano), "", East(0));
            f.Valid() && f.Instant() == c.Nanos() && 0 <= c.Nanos() < END_OF_TIME && Print(c.Nanos()) == f.Text()
  {
    SplitOfNanos(c);
    EnoughDigits(c.nano);
    UtcOffset();
    var f := Form(c, 'T', FractionWidth(c.nano), "", East(0));
    assert f.Tail() == PrintTail(c.nano);
  }

  /** None, three, six or nine: the fewest that lose nothing. */
  lemma EnoughDigits(nano: nat)
    requires nano < NANOS_PER_SECOND
    ensures var w := FractionWidth(nano);
            && w <= 9 && w % 3 == 0 && nano % Pow10(9 - w) == 0
            && forall v: nat | v < w && v % 3 == 0 :: nano % Pow10(9 - v) != 0
  {
    Pow10Values();
    if nano > 0 {
      WidthLosesNothing(nano);
    }
  }

  lemma UtcOffset()
    ensures East(0).Text() == UTC_OFFSET
  {
    TwoDigits(0);
  }

  // ---- Known dates ------------------------------------------------------------------

  /** The first of January, and the first of June at ten, of 2024. */
  lemma KnownDays(y: nat)
    requires y == 2024
    ensures Date(y, 1, 1).Valid() && Date(y, 1, 1).Number() == 739_251
    ensures Date(y, 6, 1).Valid() && Date(y, 6, 1).Number() == 739_403
  {
    YearsAccumulate(y);
    assert DaysBeforeMonth(y, 2) == 31 && DaysBeforeMonth(y, 3) == 60;
    assert DaysBeforeMonth(y, 4) == 91 && DaysBeforeMonth(y, 5) == 121;
  }

  lemma OneDigit(n: nat)
    requires n < 10
    ensures Dec(n, 1) == [DigitOf(n)]
  {
    assert Dec(n / 10, 0) == "";
  }

  lemma TwoDigits(n: nat)
    requires n < 100
    ensures Dec(n, 2) == [DigitOf(n / 10), DigitOf(n % 10)]
  {
    OneDigit(n / 10);
  }

  lemma KnownYear(n: nat)
    requires n == 2024
    ensures Dec(n, 4) == "2024"
  {
    assert n / 10 == 202 && n % 10 == 4;
    TwoDigits(20);
    assert Dec(202, 3) == Dec(20, 2) + [DigitOf(2)];
  }

  /** Year, month and day in this order, with dashes. */
  lemma KnownDate(d: Date)
    requires d == Date(2024, 6, 1)
    ensures d.Valid() && PrintDate(d) == "2024-06-01"
  {
    KnownYear(d.year);
    TwoDigits(d.month);
    TwoDigits(d.day);
  }

  /** Hours, minutes and seconds, with colons. */
  lemma KnownTime(t: Time)
    requires t == Time(10, 23, 45)
    ensures t.Valid() && PrintTime(t) == "10:23:45"
  {
    TwoDigits(t.hour);
    TwoDigits(t.minute);
    TwoDigits(t.second);
  }

  /** Hours and minutes behind UTC. */
  lemma KnownZone(zone: Zone)
    requires zone == West(5 * 60 + 30)
    ensures zone.Valid() && zone.Text() == "-05:30"
  {
    TwoDigits(zone.minutes / 60);
    TwoDigits(zone.minutes % 60);
  }

  /** Tenths first. */
  lemma KnownFraction(nano: nat)
    requires nano == 250_000_000
    ensures Fraction(nano, 2) == "25"
  {
    Pow10Values();
    assert Pow10(7) == 10_000_000;
    TwoDigits(25);
  }

  predicate Known(f: Form) {
    && f.civil == Civil(Date(2024, 6, 1), Time(10, 23, 45), 250_000_000)
    && f.separator == 'T' && f.width == 2 && f.beyond == "" && f.zone == West(5 * 60 + 30)
  }

  lemma KnownTail(f: Form)
    requires Known(f)
    ensures f.Valid() && f.Tail() == ".25-05:30"
  {
    KnownDate(f.civil.date);
    KnownTime(f.civil.time);
    KnownZone(f.zone);
    KnownFraction(f.civil.nano);
    assert Pow10(7) == 10_000_000;
  }

  lemma KnownForm(f: Form)
    requires Known(f)
    ensures f.Valid() && f.Text() == "2024-06-01T10:23:45.25-05:30"
  {
    KnownTail(f);
    KnownDate(f.civil.date);
    KnownTime(f.civil.time);
    Joined(PrintDate(f.civil.date), PrintTime(f.civil.time), f.Tail());
  }

  lemma Joined(date: string, time: string, tail: string)
    requires date == "2024-06-01" && time == "10:23:45" && tail == ".25-05:30"
    ensures date + (['T'] + (time + tail)) == "2024-06-01T10:23:45.25-05:30"
  {
  }

  lemma KnownInstant(f: Form)
    requires Known(f) && f.Valid()
    ensures f.Instant() == (739_403 * 86_400 + 15 * 3600 + 53 * 60 + 45) * 1_000_000_000 + 250_000_000
  {
    KnownDays(f.civil.date.year);
  }

  /** Put together: a text, and the instant it is read as. */
  lemma KnownTextIsRead(f: Form)
    requires Known(f)
    ensures f.Valid() && f.Text() == "2024-06-01T10:23:45.25-05:30"
    ensures Parse(f.Text()) == Some((739_403 * 86_400 + 15 * 3600 + 53 * 60 + 45) * 1_000_000_000 + 250_000_000)
  {
    KnownForm(f);
    KnownInstant(f);
    ParsesEveryForm(f);
  }
}
