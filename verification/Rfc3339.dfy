/**
 * The text form of instants: `DateTime<Utc>::to_rfc3339` and `parse_from_rfc3339`, and why
 * SQLite may compare the printed texts byte by byte.
 */
module Rfc3339 {
  import opened Prelude
  import opened Timestamps

  // ---- Byte order -------------------------------------------------------------------

  /** Bytewise (memcmp) order of ASCII texts, a proper prefix first. */
  predicate LexLess(a: string, b: string) {
    b != "" && (a == "" || a[0] < b[0] || (a[0] == b[0] && LexLess(a[1..], b[1..])))
  }

  lemma {:induction false} LexAsymmetric(a: string, b: string)
    ensures !(LexLess(a, b) && LexLess(b, a))
    ensures !LexLess(a, a)
  {
    if a != "" {
      if b != "" {
        LexAsymmetric(a[1..], b[1..]);
      } else {
        LexAsymmetric(a[1..], "");
      }
    }
  }

  lemma {:induction false} LexAppend(a: string, b: string, x: string, y: string)
    requires |a| == |b|
    requires LexLess(a, b) || (a == b && LexLess(x, y))
    ensures LexLess(a + x, b + y)
  {
    if a == "" {
      assert a + x == x && b + y == y;
    } else {
      assert (a + x)[1..] == a[1..] + x && (b + y)[1..] == b[1..] + y;
      if a[0] == b[0] {
        LexAppend(a[1..], b[1..], x, y);
      }
    }
  }

  // ---- Fixed-width decimals ---------------------------------------------------------

  function Pow10(w: nat): int
    ensures Pow10(w) >= 1
  {
    if w == 0 then 1 else 10 * Pow10(w - 1)
  }

  predicate IsDigit(c: char) {
    '0' <= c <= '9'
  }

  function DigitOf(d: int): (c: char)
    requires 0 <= d < 10
    ensures IsDigit(c) && c as int == '0' as int + d
  {
    (('0' as int) + d) as char
  }

  /** The last `w` decimal digits of `n`. */
  function Dec(n: nat, w: nat): (s: string)
    ensures |s| == w && forall k :: 0 <= k < w ==> IsDigit(s[k])
  {
    if w == 0 then "" else Dec(n / 10, w - 1) + [DigitOf(n % 10)]
  }

  /** The number a run of digits denotes. */
  function Value(s: string): nat
    requires forall k :: 0 <= k < |s| ==> IsDigit(s[k])
  {
    if s == "" then 0
    else
      assert IsDigit(s[|s| - 1]);
      Value(s[..|s| - 1]) * 10 + (s[|s| - 1] as int - '0' as int)
  }

  lemma {:induction false} ValueOfDec(n: nat, w: nat)
    requires n < Pow10(w)
    ensures Value(Dec(n, w)) == n
  {
    if w > 0 {
      ValueOfDec(n / 10, w - 1);
      assert Dec(n, w)[..w - 1] == Dec(n / 10, w - 1);
    }
  }

  lemma {:induction false} DecOrder(a: nat, b: nat, w: nat)
    requires a < b < Pow10(w)
    ensures LexLess(Dec(a, w), Dec(b, w))
  {
    if w > 0 {
      if a / 10 < b / 10 {
        DecOrder(a / 10, b / 10, w - 1);
      }
      assert LexLess([DigitOf(a % 10)], [DigitOf(b % 10)]) || a / 10 < b / 10;
      LexAppend(Dec(a / 10, w - 1), Dec(b / 10, w - 1), [DigitOf(a % 10)], [DigitOf(b % 10)]);
    }
  }

  /** The first `w` of `w + k` digits are the digits of the quotient by 10^k. */
  lemma {:induction false} DecPrefix(n: nat, w: nat, k: nat)
    ensures Dec(n, w + k)[..w] == Dec(n / Pow10(k), w)
    decreases k
  {
    if k > 0 {
      DecPrefix(n / 10, w, k - 1);
      assert Dec(n, w + k)[..w] == Dec(n / 10, w + k - 1)[..w];
      assert n / 10 / Pow10(k - 1) == n / Pow10(k) by { DivDiv(n, Pow10(k - 1)); }
    } else {
      assert n / Pow10(0) == n;
    }
  }

  lemma DivDiv(n: nat, p: int)
    requires p >= 1
    ensures n / 10 / p == n / (10 * p)
  {
    var q := n / 10 / p;
    var r := n / 10 % p;
    assert n / 10 == p * q + r;
    assert n == 10 * (p * q + r) + n % 10;
    assert n == (10 * p) * q + (10 * r + n % 10);
    assert 0 <= 10 * r + n % 10 < 10 * p;
    QuotientIs(n, 10 * p, q, 10 * r + n % 10);
  }

  lemma QuotientIs(n: int, d: int, q: int, r: int)
    requires d > 0 && n == d * q + r && 0 <= r < d
    ensures n / d == q
  {
    var e := n / d - q;
    assert n == d * (n / d) + n % d;
    assert d * e == r - n % d;
    MultiplesAreFarApart(d, e);
  }

  lemma MultiplesAreFarApart(d: int, e: int)
    requires d > 0 && -d < d * e < d
    ensures e == 0
  {
    if e > 0 {
      ProductIsNatural(d, e - 1);
    } else if e < 0 {
      ProductIsNatural(d, -e - 1);
    }
  }

  lemma ProductIsNatural(x: nat, y: nat)
    ensures 0 <= x * y && x * (y + 1) == x * y + x && x * -(y + 1) == -(x * y) - x
  {
  }

  lemma QuotientIsNatural(n: nat, d: int)
    requires d >= 1
    ensures n / d >= 0
  {
    var q := n / d;
    assert n == d * q + n % d;
    if q < 0 {
      ProductIsNatural(d, -q - 1);
    }
  }

  // ---- Printing ---------------------------------------------------------------------

  const UTC_OFFSET := "+00:00"

  function PrintDate(d: Date): string
    requires d.Valid()
  {
    Dec(d.year, 4) + ("-" + (Dec(d.month, 2) + ("-" + Dec(d.day, 2))))
  }

  function PrintTime(t: Time): string
    requires t.Valid()
  {
    Dec(t.hour, 2) + (":" + (Dec(t.minute, 2) + (":" + Dec(t.second, 2))))
  }

  /** How many fraction digits are printed: the fewest of 0, 3, 6 and 9 that lose nothing. */
  function FractionWidth(nano: nat): nat {
    if nano == 0 then 0 else if nano % 1_000_000 == 0 then 3 else if nano % 1_000 == 0 then 6 else 9
  }

  /** The first `w` fraction digits. */
  function Fraction(nano: nat, w: nat): (s: string)
    requires w <= 9
    ensures |s| == w
  {
    QuotientIsNatural(nano, Pow10(9 - w));
    Dec(nano / Pow10(9 - w), w)
  }

  function PrintTail(nano: nat): string
    requires nano < NANOS_PER_SECOND
  {
    var w := FractionWidth(nano);
    if w == 0 then UTC_OFFSET else "." + (Fraction(nano, w) + UTC_OFFSET)
  }

  function PrintCivil(c: Civil): string
    requires c.Valid()
  {
    PrintDate(c.date) + ("T" + (PrintTime(c.time) + PrintTail(c.nano)))
  }

  /** `to_rfc3339`. */
  function Print(i: Instant): string {
    SplitIsInverse(i);
    PrintCivil(Split(i))
  }

  /** Four hundred years: the calendar repeats. */
  const CYCLE: int := 146_097 * NANOS_PER_DAY

  /** How many digits a year is printed with. */
  function YearWidth(year: nat): nat {
    if year < 10_000 then 4 else YearWidth(year / 10) + 1
  }

  /** Years before 0 and after 9999 are printed with their sign. */
  function PrintFar(i: int): (s: string)
    ensures s != "" && (s[0] == '+' || s[0] == '-')
  {
    SplitIsInverse(i % CYCLE);
    var c := Split(i % CYCLE);
    var year := c.date.year + 400 * (i / CYCLE);
    var digits := if year < 0 then -year else year;
    (if year < 0 then "-" else "+") + (Dec(digits, YearWidth(digits)) + PrintCivil(c)[4..])
  }

  /** `to_rfc3339` of whatever subtracting days from an instant leads to. */
  function PrintAny(i: int): string {
    if 0 <= i < END_OF_TIME then Print(i) else PrintFar(i)
  }

  // ---- Text order is time order -----------------------------------------------------

  lemma Pow10Values()
    ensures Pow10(0) == 1 && Pow10(1) == 10 && Pow10(2) == 100 && Pow10(3) == 1_000 && Pow10(4) == 10_000
    ensures Pow10(5) == 100_000 && Pow10(6) == 1_000_000 && Pow10(9) == NANOS_PER_SECOND
  {
    assert Pow10(7) == 10_000_000 && Pow10(8) == 100_000_000;
  }

  /** A fixed-width field decides first; equal fields leave it to what follows. */
  lemma FieldOrder(a: nat, b: nat, w: nat, x: string, y: string)
    requires a <= b < Pow10(w)
    requires a < b || LexLess(x, y)
    ensures LexLess(Dec(a, w) + x, Dec(b, w) + y)
  {
    if a < b {
      DecOrder(a, b, w);
    }
    LexAppend(Dec(a, w), Dec(b, w), x, y);
  }

  lemma DateOrder(a: Date, b: Date)
    requires a.Valid() && b.Valid() && DateBefore(a, b)
    ensures LexLess(PrintDate(a), PrintDate(b))
  {
    Pow10Values();
    var da, db := Dec(a.day, 2), Dec(b.day, 2);
    var ma, mb := Dec(a.month, 2) + ("-" + da), Dec(b.month, 2) + ("-" + db);
    if a.year == b.year {
      if a.month == b.month {
        DecOrder(a.day, b.day, 2);
        LexAppend("-", "-", da, db);
      }
      FieldOrder(a.month, b.month, 2, "-" + da, "-" + db);
      LexAppend("-", "-", ma, mb);
    }
    FieldOrder(a.year, b.year, 4, "-" + ma, "-" + mb);
  }

  lemma TimeOrder(a: Time, b: Time)
    requires a.Valid() && b.Valid() && TimeBefore(a, b)
    ensures LexLess(PrintTime(a), PrintTime(b))
  {
    Pow10Values();
    var sa, sb := Dec(a.second, 2), Dec(b.second, 2);
    var ma, mb := Dec(a.minute, 2) + (":" + sa), Dec(b.minute, 2) + (":" + sb);
    if a.hour == b.hour {
      if a.minute == b.minute {
        DecOrder(a.second, b.second, 2);
        LexAppend(":", ":", sa, sb);
      }
      FieldOrder(a.minute, b.minute, 2, ":" + sa, ":" + sb);
      LexAppend(":", ":", ma, mb);
    }
    FieldOrder(a.hour, b.hour, 2, ":" + ma, ":" + mb);
  }

  /**
   * Fractions of different widths still compare correctly: where the shorter one stops,
   * its '+' is below every digit, and an absent fraction's '+' is below '.'.
   */
  lemma TailOrder(a: nat, b: nat)
    requires a < b < NANOS_PER_SECOND
    ensures LexLess(PrintTail(a), PrintTail(b))
  {
    var wa, wb := FractionWidth(a), FractionWidth(b);
    assert wb > 0;
    if wa > 0 {
      FractionOrder(a, wa, b, wb);
      LexAppend(".", ".", Fraction(a, wa) + UTC_OFFSET, Fraction(b, wb) + UTC_OFFSET);
    } else {
      assert PrintTail(a)[0] == '+' && PrintTail(b)[0] == '.';
    }
  }

  lemma WidthLosesNothing(nano: nat)
    requires 0 < nano < NANOS_PER_SECOND
    ensures var w := FractionWidth(nano);
            (w == 3 || w == 6 || w == 9) && nano % Pow10(9 - w) == 0 && nano / Pow10(9 - w) < Pow10(w)
            && nano / Pow10(9 - w) * Pow10(9 - w) == nano
  {
    Pow10Values();
    assert Pow10(9 - FractionWidth(nano)) ==
           if nano % 1_000_000 == 0 then 1_000_000 else if nano % 1_000 == 0 then 1_000 else 1;
  }

  lemma FractionSplits(nano: nat, full: nat, w: nat)
    requires nano < NANOS_PER_SECOND && (w == 3 || w == 6 || w == 9) && (full == 3 || full == 6 || full == 9)
    requires w <= full
    ensures Fraction(nano, full) + UTC_OFFSET == Fraction(nano, w) + (Fraction(nano, full)[w..] + UTC_OFFSET)
  {
    Leading(nano, full, w);
    assert Fraction(nano, full) == Fraction(nano, full)[..w] + Fraction(nano, full)[w..];
  }

  lemma FractionOrder(a: nat, wa: nat, b: nat, wb: nat)
    requires 0 < a < b < NANOS_PER_SECOND
    requires wa == FractionWidth(a) && wb == FractionWidth(b)
    ensures LexLess(Fraction(a, wa) + UTC_OFFSET, Fraction(b, wb) + UTC_OFFSET)
  {
    WidthLosesNothing(a);
    WidthLosesNothing(b);
    var w := if wa < wb then wa else wb;
    QuotientIsNatural(a, Pow10(9 - w));
    QuotientIsNatural(b, Pow10(9 - w));
    var ha, hb := a / Pow10(9 - w), b / Pow10(9 - w);
    LeadingOrder(a, wa, b, wb, w);
    FractionSplits(a, wa, w);
    FractionSplits(b, wb, w);
    var restA, restB := Fraction(a, wa)[w..] + UTC_OFFSET, Fraction(b, wb)[w..] + UTC_OFFSET;
    if ha == hb {
      assert restA[0] == '+' && IsDigit(restB[0]);
    }
    FieldOrder(ha, hb, w, restA, restB);
  }

  lemma LeadingOrder(a: nat, wa: nat, b: nat, wb: nat, w: nat)
    requires a < b < NANOS_PER_SECOND
    requires (wa == 3 || wa == 6 || wa == 9) && (wb == 3 || wb == 6 || wb == 9)
    requires a % Pow10(9 - wa) == 0 && b % Pow10(9 - wb) == 0
    requires w == if wa < wb then wa else wb
    ensures a / Pow10(9 - w) <= b / Pow10(9 - w) < Pow10(w)
    ensures a / Pow10(9 - w) == b / Pow10(9 - w) ==> wa == w < wb
  {
    Pow10Values();
  }

  lemma QuotientOfQuotient(nano: nat, full: nat, w: nat)
    requires nano < NANOS_PER_SECOND && (w == 3 || w == 6 || w == 9) && (full == 3 || full == 6 || full == 9)
    requires w <= full
    ensures nano / Pow10(9 - full) / Pow10(full - w) == nano / Pow10(9 - w)
  {
    Pow10Values();
    if w == full {
      assert Pow10(full - w) == 1;
    } else if full == 9 {
      assert Pow10(9 - full) == 1;
    } else {
      assert nano / 1_000 / 1_000 == nano / 1_000_000;
    }
  }

  /** A shorter fraction is a prefix of a longer one. */
  lemma Leading(nano: nat, full: nat, w: nat)
    requires nano < NANOS_PER_SECOND && (w == 3 || w == 6 || w == 9) && (full == 3 || full == 6 || full == 9)
    requires w <= full
    ensures Fraction(nano, full)[..w] == Fraction(nano, w)
  {
    Pow10Values();
    var f := nano / Pow10(9 - full);
    DecPrefix(f, w, full - w);
    QuotientOfQuotient(nano, full, w);
  }

  /** Byte order of the printed texts is chronological order, whatever their fraction widths. */
  lemma TextOrderIsTimeOrder(i: Instant, j: Instant)
    ensures LexLess(Print(i), Print(j)) <==> i < j
    ensures Print(i) == Print(j) <==> i == j
  {
    LexAsymmetric(Print(i), Print(j));
    if i < j {
      EarlierPrintsLess(i, j);
    } else if j < i {
      EarlierPrintsLess(j, i);
    }
  }

  lemma EarlierPrintsLess(i: Instant, j: Instant)
    requires i < j
    ensures LexLess(Print(i), Print(j))
  {
    SplitIsInverse(i);
    SplitIsInverse(j);
    ComponentOrderIsTimeOrder(i, j);
    var a, b := Split(i), Split(j);
    var ta, tb := PrintTime(a.time) + PrintTail(a.nano), PrintTime(b.time) + PrintTail(b.nano);
    if a.date == b.date {
      if a.time == b.time {
        TailOrder(a.nano, b.nano);
      } else {
        TimeOrder(a.time, b.time);
      }
      LexAppend(PrintTime(a.time), PrintTime(b.time), PrintTail(a.nano), PrintTail(b.nano));
      LexAppend("T", "T", ta, tb);
    } else {
      DateOrder(a.date, b.date);
    }
    LexAppend(PrintDate(a.date), PrintDate(b.date), "T" + ta, "T" + tb);
  }

  /** Against any cutoff: a signed text sorts below every text of the years 0 to 9999. */
  lemma TextCutoffIsTimeCutoff(i: Instant, cutoff: int)
    ensures LexLess(Print(i), PrintAny(cutoff)) <==> i < cutoff < END_OF_TIME
  {
    if 0 <= cutoff < END_OF_TIME {
      TextOrderIsTimeOrder(i, cutoff);
    } else {
      SplitIsInverse(i);
      assert Print(i)[0] == Dec(Split(i).date.year, 4)[0];
    }
  }

  // ---- Parsing ----------------------------------------------------------------------

  predicate AllDigits(s: string) {
    forall k :: 0 <= k < |s| ==> IsDigit(s[k])
  }

  /** Exactly `w` digits, and what follows them. */
  function ReadDec(s: string, w: nat): Option<(nat, string)> {
    if |s| >= w && AllDigits(s[..w]) then Some((Value(s[..w]), s[w..])) else None
  }

  /** One of the allowed characters, and what follows it. */
  function ReadChar(s: string, allowed: string): Option<string> {
    if s != "" && s[0] in allowed then Some(s[1..]) else None
  }

  function ReadDate(s: string): Option<(Date, string)> {
    var (year, s1) :- ReadDec(s, 4);
    var s2 :- ReadChar(s1, "-");
    var (month, s3) :- ReadDec(s2, 2);
    var s4 :- ReadChar(s3, "-");
    var (day, s5) :- ReadDec(s4, 2);
    var d := Date(year, month, day);
    if d.Valid() then Some((d, s5)) else None
  }

  function ReadTime(s: string): Option<(Time, string)> {
    var (hour, s1) :- ReadDec(s, 2);
    var s2 :- ReadChar(s1, ":");
    var (minute, s3) :- ReadDec(s2, 2);
    var s4 :- ReadChar(s3, ":");
    var (second, s5) :- ReadDec(s4, 2);
    var t := Time(hour, minute, second);
    if t.Valid() then Some((t, s5)) else None
  }

  function DigitRun(s: string): (n: nat)
    ensures n <= |s| && AllDigits(s[..n])
  {
    if s != "" && IsDigit(s[0]) then 1 + DigitRun(s[1..]) else 0
  }

  /** An optional fraction; digits past the ninth are dropped. */
  function ReadFraction(s: string): Option<(int, string)> {
    if s == "" || s[0] != '.' then Some((0, s))
    else
      var n := DigitRun(s[1..]);
      var w := if n < 9 then n else 9;
      if n == 0 then None
      else
        assert s[1..][..n][..w] == s[1..][..w];
        Some((Value(s[1..][..w]) * Pow10(9 - w), s[1..][n..]))
  }

  /** `Z` or a numeric offset shorter than a day, in seconds; nothing may follow. */
  function ReadOffset(s: string): Option<int> {
    if s == "Z" || s == "z" then Some(0)
    else
      var s1 :- ReadChar(s, "+-");
      var (hours, s2) :- ReadDec(s1, 2);
      var s3 :- ReadChar(s2, ":");
      var (minutes, s4) :- ReadDec(s3, 2);
      var offset := hours * 3600 + minutes * 60;
      if minutes >= 60 || offset >= SECONDS_PER_DAY || s4 != "" then None
      else Some(if s[0] == '-' then -offset else offset)
  }

  function ParseTail(date: Date, time: Time, s: string): Option<int>
    requires date.Valid()
  {
    var (nano, rest) :- ReadFraction(s);
    var offset :- ReadOffset(rest);
    Some((date.Number() * SECONDS_PER_DAY + time.Number() - offset) * NANOS_PER_SECOND + nano)
  }

  function ParseTime(date: Date, s: string): Option<int>
    requires date.Valid()
  {
    var rest :- ReadChar(s, "Tt ");
    var (time, tail) :- ReadTime(rest);
    ParseTail(date, time, tail)
  }

  /** `parse_from_rfc3339` followed by `with_timezone(&Utc)`. */
  function Parse(s: string): Option<int> {
    var (date, rest) :- ReadDate(s);
    ParseTime(date, rest)
  }

  // ---- Parsing undoes printing ------------------------------------------------------

  lemma ReadsBackDec(n: nat, w: nat, rest: string)
    requires n < Pow10(w)
    ensures ReadDec(Dec(n, w) + rest, w) == Some((n, rest))
  {
    ValueOfDec(n, w);
    assert (Dec(n, w) + rest)[..w] == Dec(n, w);
    assert (Dec(n, w) + rest)[w..] == rest;
  }

  lemma ReadsBackChar(c: char, rest: string, allowed: string)
    requires c in allowed
    ensures ReadChar([c] + rest, allowed) == Some(rest)
  {
    assert ([c] + rest)[1..] == rest;
  }

  lemma ReadsBackDate(d: Date, rest: string)
    requires d.Valid()
    ensures ReadDate(PrintDate(d) + rest) == Some((d, rest))
  {
    Pow10Values();
    var s4 := Dec(d.day, 2) + rest;
    var s3 := "-" + s4;
    var s2 := Dec(d.month, 2) + s3;
    var s1 := "-" + s2;
    assert PrintDate(d) + rest == Dec(d.year, 4) + s1;
    ReadsBackDec(d.year, 4, s1);
    ReadsBackChar('-', s2, "-");
    ReadsBackDec(d.month, 2, s3);
    ReadsBackChar('-', s4, "-");
    ReadsBackDec(d.day, 2, rest);
  }

  lemma ReadsBackTime(t: Time, rest: string)
    requires t.Valid()
    ensures ReadTime(PrintTime(t) + rest) == Some((t, rest))
  {
    Pow10Values();
    var s4 := Dec(t.second, 2) + rest;
    var s3 := ":" + s4;
    var s2 := Dec(t.minute, 2) + s3;
    var s1 := ":" + s2;
    assert PrintTime(t) + rest == Dec(t.hour, 2) + s1;
    ReadsBackDec(t.hour, 2, s1);
    ReadsBackChar(':', s2, ":");
    ReadsBackDec(t.minute, 2, s3);
    ReadsBackChar(':', s4, ":");
    ReadsBackDec(t.second, 2, rest);
  }

  lemma {:induction false} DigitRunStops(s: string, rest: string)
    requires AllDigits(s) && rest != "" && !IsDigit(rest[0])
    ensures DigitRun(s + rest) == |s|
  {
    if s == "" {
      assert s + rest == rest;
    } else {
      assert (s + rest)[1..] == s[1..] + rest;
      DigitRunStops(s[1..], rest);
    }
  }

  lemma SplitAfterDot(digits: string, rest: string)
    ensures var s := "." + (digits + rest);
            s[0] == '.' && s[1..] == digits + rest && s[1..][..|digits|] == digits && s[1..][|digits|..] == rest
  {
    assert ("." + (digits + rest))[1..] == digits + rest;
  }

  lemma FractionAfterDot(s: string, digits: string)
    requires s != "" && s[0] == '.' && 1 <= |digits| <= 9
    requires DigitRun(s[1..]) == |digits| && s[1..][..|digits|] == digits
    ensures AllDigits(digits)
    ensures ReadFraction(s) == Some((Value(digits) * Pow10(9 - |digits|), s[1..][|digits|..]))
  {
  }

  lemma ReadsFraction(digits: string, rest: string)
    requires AllDigits(digits) && 1 <= |digits| <= 9 && rest != "" && !IsDigit(rest[0])
    ensures ReadFraction("." + (digits + rest)) == Some((Value(digits) * Pow10(9 - |digits|), rest))
  {
    SplitAfterDot(digits, rest);
    DigitRunStops(digits, rest);
    FractionAfterDot("." + (digits + rest), digits);
  }

  lemma ReadsBackFraction(nano: nat)
    requires nano < NANOS_PER_SECOND
    ensures ReadFraction(PrintTail(nano)) == Some((nano, UTC_OFFSET))
  {
    if nano > 0 {
      WidthLosesNothing(nano);
      var w := FractionWidth(nano);
      var digits := Fraction(nano, w);
      assert PrintTail(nano) == "." + (digits + UTC_OFFSET);
      ReadsFraction(digits, UTC_OFFSET);
      ValueOfDec(nano / Pow10(9 - w), w);
      assert Value(digits) == nano / Pow10(9 - w);
    }
  }

  lemma ReadsBackOffset()
    ensures ReadOffset(UTC_OFFSET) == Some(0)
  {
    assert UTC_OFFSET == "+" + (Dec(0, 2) + (":" + (Dec(0, 2) + "")));
    Pow10Values();
    ReadsBackDec(0, 2, ":" + (Dec(0, 2) + ""));
    ReadsBackChar(':', Dec(0, 2) + "", ":");
    ReadsBackDec(0, 2, "");
  }

  lemma ParsesTail(c: Civil)
    requires c.Valid()
    ensures ParseTail(c.date, c.time, PrintTail(c.nano)) == Some(c.Nanos())
  {
    ReadsBackFraction(c.nano);
    ReadsBackOffset();
  }

  lemma ParsesTime(c: Civil)
    requires c.Valid()
    ensures ParseTime(c.date, "T" + (PrintTime(c.time) + PrintTail(c.nano))) == Some(c.Nanos())
  {
    ReadsBackChar('T', PrintTime(c.time) + PrintTail(c.nano), "Tt ");
    ReadsBackTime(c.time, PrintTail(c.nano));
    ParsesTail(c);
  }

  /** Every printed instant parses back to itself. */
  lemma ParseUndoesPrint(i: Instant)
    ensures Parse(Print(i)) == Some(i)
  {
    SplitIsInverse(i);
    var c := Split(i);
    ReadsBackDate(c.date, "T" + (PrintTime(c.time) + PrintTail(c.nano)));
    ParsesTime(c);
  }
}
