/** Proleptic Gregorian dates and date-times as Python's `datetime` compares
    and steps them. The clock itself is never read: "now" is always a
    parameter. */
module Calendar {

  datatype Date = Date(year: int, month: int, day: int)

  const FirstDate := Date(1, 1, 1)

  predicate IsLeapYear(y: int)
  {
    y % 4 == 0 && (y % 100 != 0 || y % 400 == 0)
  }

  function DaysInMonth(y: int, m: int): (n: int)
    requires 1 <= m <= 12
    ensures 28 <= n <= 31
    ensures n == 29 <==> m == 2 && IsLeapYear(y)
  {
    if m == 2 then (if IsLeapYear(y) then 29 else 28)
    else if m == 4 || m == 6 || m == 9 || m == 11 then 30
    else 31
  }

  /** A calendar date from year 1 on. */
  predicate Valid(d: Date)
  {
    1 <= d.year && 1 <= d.month <= 12 && 1 <= d.day <= DaysInMonth(d.year, d.month)
  }

  /** `a < b` on dates: by year, then month, then day. */
  predicate Before(a: Date, b: Date)
  {
    a.year < b.year
    || (a.year == b.year && (a.month < b.month || (a.month == b.month && a.day < b.day)))
  }

  /** Position of a date on a line with 31 slots per month and 372 per
      year; it orders valid dates as `Before` does. */
  function Ordinal(d: Date): int
  {
    d.year * 372 + (d.month - 1) * 31 + (d.day - 1)
  }

  lemma BeforeOrdinal(a: Date, b: Date)
    requires Valid(a) && Valid(b)
    ensures Before(a, b) <==> Ordinal(a) < Ordinal(b)
  {
  }

  /** `d + timedelta(days=1)`. */
  function NextDay(d: Date): (r: Date)
    requires Valid(d)
    ensures Valid(r) && Before(d, r)
  {
    if d.day < DaysInMonth(d.year, d.month) then Date(d.year, d.month, d.day + 1)
    else if d.month < 12 then Date(d.year, d.month + 1, 1)
    else Date(d.year + 1, 1, 1)
  }

  /** `d - timedelta(days=1)`; Python raises `OverflowError` before year 1. */
  function PrevDay(d: Date): (r: Date)
    requires Valid(d) && d != FirstDate
    ensures Valid(r) && NextDay(r) == d
  {
    if d.day > 1 then Date(d.year, d.month, d.day - 1)
    else if d.month > 1 then Date(d.year, d.month - 1, DaysInMonth(d.year, d.month - 1))
    else Date(d.year - 1, 12, 31)
  }

  lemma PrevDayOfNextDay(d: Date)
    requires Valid(d)
    ensures PrevDay(NextDay(d)) == d
  {
  }

  /** No valid date lies strictly between a date and the next one. */
  lemma NoDayBetween(d: Date, e: Date)
    requires Valid(d) && Valid(e) && Before(d, e)
    ensures !Before(e, NextDay(d))
  {
  }

  /** The days from `a` to `b`, both included, in increasing order: the
      dates a loop `while a <= b: ...; a += timedelta(days=1)` visits. */
  function DaysFrom(a: Date, b: Date): (days: seq<Date>)
    requires Valid(a) && Valid(b)
    ensures forall i :: 0 <= i < |days| ==> Valid(days[i])
    decreases Ordinal(b) - Ordinal(a)
  {
    if Before(b, a) then []
    else
      BeforeOrdinal(a, NextDay(a));
      [a] + DaysFrom(NextDay(a), b)
  }

  lemma DaysFromStep(a: Date, b: Date)
    requires Valid(a) && Valid(b)
    ensures Before(b, a) ==> DaysFrom(a, b) == []
    ensures !Before(b, a) ==> DaysFrom(a, b) == [a] + DaysFrom(NextDay(a), b)
  {
  }

  /** Every day in `DaysFrom(a, b)` lies in `[a, b]`, each is followed by
      the next calendar day, and `b` is the last one when `a <= b`. */
  lemma {:induction false} DaysFromSteps(a: Date, b: Date)
    requires Valid(a) && Valid(b)
    ensures var days := DaysFrom(a, b);
      (days == [] <==> Before(b, a))
      && (forall i :: 0 <= i < |days| ==> Valid(days[i]) && !Before(days[i], a) && !Before(b, days[i]))
      && (forall i :: 0 < i < |days| ==> days[i] == NextDay(days[i - 1]))
      && (days != [] ==> days[0] == a && days[|days| - 1] == b)
    decreases Ordinal(b) - Ordinal(a)
  {
    if !Before(b, a) {
      var n := NextDay(a);
      BeforeOrdinal(a, n);
      DaysFromSteps(n, b);
      var rest := DaysFrom(n, b);
      assert DaysFrom(a, b) == [a] + rest;
      if rest == [] {
        if Before(a, b) { NoDayBetween(a, b); }
      }
    }
  }

  /** The days are strictly increasing, so no day is visited twice. */
  lemma {:induction false} DaysFromIncreasing(a: Date, b: Date)
    requires Valid(a) && Valid(b)
    ensures var days := DaysFrom(a, b);
      forall i, j :: 0 <= i < j < |days| ==> Before(days[i], days[j])
    decreases Ordinal(b) - Ordinal(a)
  {
    if !Before(b, a) {
      var n := NextDay(a);
      BeforeOrdinal(a, n);
      DaysFromIncreasing(n, b);
      DaysFromSteps(n, b);
      var rest := DaysFrom(n, b);
      assert DaysFrom(a, b) == [a] + rest;
      forall j | 0 <= j < |rest|
        ensures Before(a, rest[j])
      {
        BeforeOrdinal(rest[j], n);
        BeforeOrdinal(a, rest[j]);
      }
    }
  }

  /** Every valid date from `a` to `b` is visited. */
  lemma {:induction false} DaysFromComplete(a: Date, b: Date, e: Date)
    requires Valid(a) && Valid(b) && Valid(e)
    requires !Before(e, a) && !Before(b, e)
    ensures e in DaysFrom(a, b)
    decreases Ordinal(b) - Ordinal(a)
  {
    if e != a {
      var n := NextDay(a);
      assert Before(a, e);
      NoDayBetween(a, e);
      BeforeOrdinal(a, n);
      DaysFromComplete(n, b, e);
    }
  }

  datatype DateTime = DateTime(date: Date, hour: int, minute: int, second: int, microsecond: int)

  predicate ValidDateTime(t: DateTime)
  {
    Valid(t.date) && 0 <= t.hour < 24 && 0 <= t.minute < 60 && 0 <= t.second < 60
    && 0 <= t.microsecond < 1000000
  }

  /** Microseconds since the start of the day. */
  function TimeOfDay(t: DateTime): int
  {
    ((t.hour * 60 + t.minute) * 60 + t.second) * 1000000 + t.microsecond
  }

  /** `a <= b` on naive date-times: by date, then by time of day. */
  predicate NotAfter(a: DateTime, b: DateTime)
  {
    Before(a.date, b.date) || (a.date == b.date && TimeOfDay(a) <= TimeOfDay(b))
  }

  /** `datetime(y, m, d)`: the start of a day. */
  function Midnight(d: Date): DateTime
  {
    DateTime(d, 0, 0, 0, 0)
  }

  /** Midnight of `d` is not after `t` exactly when `d` is not after `t`'s
      date: a loop over midnights up to "now" includes today. */
  lemma MidnightNotAfter(d: Date, t: DateTime)
    requires ValidDateTime(t)
    ensures NotAfter(Midnight(d), t) <==> !Before(t.date, d)
  {
  }
}
