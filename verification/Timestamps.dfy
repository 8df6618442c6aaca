/**
 * RFC 3339 timestamps as `chrono` prints and parses them, over integer instants.
 *
 * An instant counts nanoseconds from 0000-01-01T00:00:00 UTC. Leap seconds and years
 * outside 0..9999 are not modelled.
 */
module Timestamps {
  const NANOS_PER_SECOND: int := 1_000_000_000
  const SECONDS_PER_DAY: int := 86_400
  const NANOS_PER_DAY: int := SECONDS_PER_DAY * NANOS_PER_SECOND
  const END_OF_TIME: int := 3_652_425 * NANOS_PER_DAY

  /** Instants of the years 0 to 9999. */
  type Instant = i: int | 0 <= i < END_OF_TIME

  // ---- Calendar ---------------------------------------------------------------------

  predicate IsLeap(y: int) {
    y % 4 == 0 && (y % 100 != 0 || y % 400 == 0)
  }

  function DaysInYear(y: int): int {
    if IsLeap(y) then 366 else 365
  }

  function DaysInMonth(y: int, m: int): int {
    if m == 2 then (if IsLeap(y) then 29 else 28)
    else if m == 4 || m == 6 || m == 9 || m == 11 then 30
    else 31
  }

  /** The Gregorian months (RFC 3339, section 5.7). */
  lemma MonthLengths(y: int)
    ensures DaysInMonth(y, 1) == 31 && DaysInMonth(y, 3) == 31 && DaysInMonth(y, 4) == 30 && DaysInMonth(y, 5) == 31
    ensures DaysInMonth(y, 6) == 30 && DaysInMonth(y, 7) == 31 && DaysInMonth(y, 8) == 31 && DaysInMonth(y, 9) == 30
    ensures DaysInMonth(y, 10) == 31 && DaysInMonth(y, 11) == 30 && DaysInMonth(y, 12) == 31
    ensures DaysInMonth(y, 2) == if y % 400 == 0 || (y % 4 == 0 && y % 100 != 0) then 29 else 28
  {
    if y % 400 == 0 {
      var q := y / 400;
      assert y == 4 * (100 * q);
    }
  }

  /** Days from 0000-01-01 to the first day of year `y`. */
  function DaysBeforeYear(y: nat): nat {
    if y == 0 then 0 else DaysBeforeYear(y - 1) + DaysInYear(y - 1)
  }

  /** Days from the first day of year `y` to the first day of its month `m`. */
  function DaysBeforeMonth(y: int, m: int): nat
    requires 1 <= m <= 13
  {
    if m == 1 then 0 else DaysBeforeMonth(y, m - 1) + DaysInMonth(y, m - 1)
  }

  datatype Date = Date(year: int, month: int, day: int) {
    predicate Valid() {
      0 <= year <= 9999 && 1 <= month <= 12 && 1 <= day <= DaysInMonth(year, month)
    }

    /** Days since 0000-01-01. */
    function Number(): int
      requires Valid()
    {
      DaysBeforeYear(year) + DaysBeforeMonth(year, month) + day - 1
    }
  }

  datatype Time = Time(hour: int, minute: int, second: int) {
    predicate Valid() {
      0 <= hour < 24 && 0 <= minute < 60 && 0 <= second < 60
    }

    function Number(): int {
      hour * 3600 + minute * 60 + second
    }
  }

  datatype Civil = Civil(date: Date, time: Time, nano: int) {
    predicate Valid() {
      date.Valid() && time.Valid() && 0 <= nano < NANOS_PER_SECOND
    }

    /** The instant these UTC components denote. */
    function Nanos(): int
      requires Valid()
    {
      (date.Number() * SECONDS_PER_DAY + time.Number()) * NANOS_PER_SECOND + nano
    }
  }

  /** The components of an instant: the inverse of `Nanos` (`SplitIsInverse`). */
  function Split(i: Instant): Civil {
    var seconds := i / NANOS_PER_SECOND;
    Civil(DateOf(seconds / SECONDS_PER_DAY), TimeOf(seconds % SECONDS_PER_DAY), i % NANOS_PER_SECOND)
  }

  function DateOf(day: nat): (d: Date)
    ensures day < 3_652_425 ==> d.Valid() && d.Number() == day
  {
    var year := FindYear(day, 0);
    var dayOfYear := day - DaysBeforeYear(year);
    assert dayOfYear < DaysBeforeMonth(year, 13) by { MonthsFillTheYear(year); }
    var month := FindMonth(year, dayOfYear, 1);
    assert year < 10_000 || day >= 3_652_425 by { YearsAccumulate(year); }
    Date(year, month, dayOfYear - DaysBeforeMonth(year, month) + 1)
  }

  function TimeOf(second: int): (t: Time)
    ensures 0 <= second < SECONDS_PER_DAY ==> t.Valid() && t.Number() == second
  {
    var rest := second % 3600;
    Time(second / 3600, rest / 60, rest % 60)
  }

  function FindYear(day: nat, y: nat): (r: nat)
    requires DaysBeforeYear(y) <= day
    ensures DaysBeforeYear(r) <= day < DaysBeforeYear(r + 1)
    decreases day - DaysBeforeYear(y)
  {
    if day < DaysBeforeYear(y + 1) then y else FindYear(day, y + 1)
  }

  function FindMonth(y: nat, dayOfYear: nat, m: int): (r: int)
    requires 1 <= m <= 12 && DaysBeforeMonth(y, m) <= dayOfYear < DaysBeforeMonth(y, 13)
    ensures 1 <= r <= 12 && DaysBeforeMonth(y, r) <= dayOfYear < DaysBeforeMonth(y, r + 1)
    decreases 13 - m
  {
    if dayOfYear < DaysBeforeMonth(y, m + 1) then m else FindMonth(y, dayOfYear, m + 1)
  }

  /** Counting multiples of `k`: one more exactly when a multiple is passed. */
  lemma NextMultiple(x: nat, k: int)
    requires k == 4 || k == 100 || k == 400
    ensures (x + k) / k == (x + k - 1) / k + if x % k == 0 then 1 else 0
  {
  }

  lemma {:induction false} YearsAccumulate(y: nat)
    ensures DaysBeforeYear(y) == 365 * y + (y + 3) / 4 - (y + 99) / 100 + (y + 399) / 400
  {
    if y > 0 {
      YearsAccumulate(y - 1);
      NextMultiple(y - 1, 4);
      NextMultiple(y - 1, 100);
      NextMultiple(y - 1, 400);
      LeapRule(y - 1);
    }
  }

  lemma CenturiesAreFourth(y: nat)
    ensures y % 100 == 0 ==> y % 4 == 0
  {
    if y % 100 == 0 {
      var q := y / 100;
      assert y == 4 * (25 * q);
      Remainder(y, 4, 25 * q);
    }
  }

  lemma FourthCenturiesAreCenturies(y: nat)
    ensures y % 400 == 0 ==> y % 100 == 0
  {
    if y % 400 == 0 {
      var q := y / 400;
      assert y == 100 * (4 * q);
      Remainder(y, 100, 4 * q);
    }
  }

  lemma Remainder(y: nat, k: int, q: nat)
    requires (k == 4 || k == 100) && y == k * q
    ensures y % k == 0
  {
    if k == 4 {
      assert y == 4 * q;
    } else {
      assert y == 100 * q;
    }
  }

  lemma LeapRule(y: nat)
    ensures DaysInYear(y) == 365 + (if y % 4 == 0 then 1 else 0) - (if y % 100 == 0 then 1 else 0)
                                 + (if y % 400 == 0 then 1 else 0)
  {
    CenturiesAreFourth(y);
    FourthCenturiesAreCenturies(y);
  }

  lemma {:induction false} YearsGrow(y: nat, z: nat)
    requires y <= z
    ensures DaysBeforeYear(y) + (z - y) * 365 <= DaysBeforeYear(z)
    decreases z
  {
    if y < z {
      YearsGrow(y, z - 1);
    }
  }

  lemma {:induction false} MonthsGrow(y: int, m: int, n: int)
    requires 1 <= m <= n <= 13
    ensures DaysBeforeMonth(y, m) + (n - m) * 28 <= DaysBeforeMonth(y, n)
    decreases n
  {
    if m < n {
      MonthsGrow(y, m, n - 1);
    }
  }

  lemma MonthsFillTheYear(y: int)
    ensures DaysBeforeMonth(y, 13) == DaysInYear(y)
  {
    var feb := DaysInMonth(y, 2);
    assert DaysBeforeMonth(y, 2) == 31;
    assert DaysBeforeMonth(y, 3) == 31 + feb;
    assert DaysBeforeMonth(y, 4) == 62 + feb;
    assert DaysBeforeMonth(y, 5) == 92 + feb;
    assert DaysBeforeMonth(y, 6) == 123 + feb;
    assert DaysBeforeMonth(y, 7) == 153 + feb;
    assert DaysBeforeMonth(y, 8) == 184 + feb;
    assert DaysBeforeMonth(y, 9) == 215 + feb;
    assert DaysBeforeMonth(y, 10) == 245 + feb;
    assert DaysBeforeMonth(y, 11) == 276 + feb;
    assert DaysBeforeMonth(y, 12) == 306 + feb;
  }

  // ---- Instants and components ------------------------------------------------------

  /** Later components, later day: the calendar is monotone. */
  lemma EarlierDate(a: Date, b: Date)
    requires a.Valid() && b.Valid() && DateBefore(a, b)
    ensures a.Number() < b.Number()
  {
    MonthsFillTheYear(a.year);
    MonthsGrow(a.year, a.month + 1, 13);
    if a.year < b.year {
      YearsGrow(a.year + 1, b.year);
    } else if a.month < b.month {
      MonthsGrow(a.year, a.month + 1, b.month);
    }
  }

  predicate DateBefore(a: Date, b: Date) {
    a.year < b.year || (a.year == b.year && (a.month < b.month || (a.month == b.month && a.day < b.day)))
  }

  predicate TimeBefore(a: Time, b: Time) {
    a.hour < b.hour || (a.hour == b.hour && (a.minute < b.minute || (a.minute == b.minute && a.second < b.second)))
  }

  predicate Before(a: Civil, b: Civil) {
    || DateBefore(a.date, b.date)
    || (a.date == b.date && (TimeBefore(a.time, b.time) || (a.time == b.time && a.nano < b.nano)))
  }

  lemma EarlierCivil(a: Civil, b: Civil)
    requires a.Valid() && b.Valid() && Before(a, b)
    ensures a.Nanos() < b.Nanos()
  {
    if a.date != b.date {
      EarlierDate(a.date, b.date);
    }
    assert 0 <= a.time.Number() < SECONDS_PER_DAY && 0 <= b.time.Number() < SECONDS_PER_DAY;
  }

  lemma SplitIsInverse(i: Instant)
    ensures Split(i).Valid() && Split(i).Nanos() == i
  {
    var seconds := i / NANOS_PER_SECOND;
    assert i == seconds * NANOS_PER_SECOND + i % NANOS_PER_SECOND;
    assert seconds < 3_652_425 * SECONDS_PER_DAY;
    assert seconds == seconds / SECONDS_PER_DAY * SECONDS_PER_DAY + seconds % SECONDS_PER_DAY;
  }

  lemma ComponentOrderIsTimeOrder(i: Instant, j: Instant)
    ensures Before(Split(i), Split(j)) <==> i < j
    ensures Split(i) == Split(j) <==> i == j
  {
    SplitIsInverse(i);
    SplitIsInverse(j);
    if Before(Split(i), Split(j)) {
      EarlierCivil(Split(i), Split(j));
    } else if Before(Split(j), Split(i)) {
      EarlierCivil(Split(j), Split(i));
    }
  }
}
