/**
  The proleptic Gregorian calendar, as far as billing periods and quota windows need it.
  An instant is a number of microseconds since 0001-01-01T00:00:00 UTC, the least instant a
  timezone-aware datetime can hold. The greatest one (end of year 9999) is not modelled.
*/
module Calendar {
  import opened Prelude

  type Time = nat

  const DAY: nat := 86_400_000_000

  datatype YearMonth = Month(year: nat, month: nat)
  type Month = m: YearMonth | m.year >= 1 && 1 <= m.month <= 12 witness Month(1, 1)

  predicate IsLeap(y: nat) {
    y % 4 == 0 && (y % 100 != 0 || y % 400 == 0)
  }

  function DaysIn(m: Month): (d: nat)
    ensures 28 <= d <= 31
  {
    if m.month == 2 then if IsLeap(m.year) then 29 else 28
    else if m.month in {4, 6, 9, 11} then 30
    else 31
  }

  function DaysBeforeYear(y: nat): int
    requires y >= 1
  {
    var p := y - 1;
    365 * p + p / 4 - p / 100 + p / 400
  }

  function DaysBeforeMonth(m: Month): int
    decreases m.month
  {
    if m.month == 1 then 0
    else var p := Month(m.year, m.month - 1); DaysBeforeMonth(p) + DaysIn(p)
  }

  /** The first instant of a month. */
  function FirstOf(m: Month): int {
    (DaysBeforeYear(m.year) + DaysBeforeMonth(m)) * DAY
  }

  function Succ(m: Month): Month {
    if m.month + 1 > 12 then Month(m.year + 1, 1) else Month(m.year, m.month + 1)
  }

  function Index(m: Month): nat { 12 * m.year + m.month }

  lemma {:induction false} YearLength(y: nat)
    requires y >= 1
    ensures DaysBeforeYear(y + 1) == DaysBeforeYear(y) + if IsLeap(y) then 366 else 365
  {
    CountMultiples(y, 4);
    CountMultiples(y, 100);
    CountMultiples(y, 400);
    MultipleOf(y, 100, 4, 25);
    MultipleOf(y, 400, 100, 4);
    LeapDays(y, (y - 1) / 4, (y - 1) / 100, (y - 1) / 400);
  }

  lemma {:induction false} LeapDays(y: nat, p4: int, p100: int, p400: int)
    requires y >= 1 && p4 == (y - 1) / 4 && p100 == (y - 1) / 100 && p400 == (y - 1) / 400
    requires y / 4 == p4 + if y % 4 == 0 then 1 else 0
    requires y / 100 == p100 + if y % 100 == 0 then 1 else 0
    requires y / 400 == p400 + if y % 400 == 0 then 1 else 0
    requires (y % 100 == 0 ==> y % 4 == 0) && (y % 400 == 0 ==> y % 100 == 0)
    ensures DaysBeforeYear(y + 1) == DaysBeforeYear(y) + if IsLeap(y) then 366 else 365
  {
  }

  /** The multiples of `d` up to `y` are those below it, and `y` itself if it is one. */
  lemma {:induction false} CountMultiples(y: nat, d: nat)
    requires y >= 1 && d > 1
    ensures y / d == (y - 1) / d + if y % d == 0 then 1 else 0
  {
    var q, r := y / d, y % d;
    assert y == q * d + r;
    if r > 0 {
      Quotient(y - 1, d, q, r - 1);
    } else {
      assert (q - 1) * d == q * d - d;
      Quotient(y - 1, d, q - 1, d - 1);
    }
  }

  lemma {:induction false} Quotient(x: int, d: nat, q: int, r: int)
    requires d > 0 && x == q * d + r && 0 <= r < d
    ensures x / d == q && x % d == r
  {
    var q', r' := x / d, x % d;
    assert x == q' * d + r';
    assert (q' - q) * d == q' * d - q * d == r - r';
    MulSmall(q' - q, d, r - r');
  }

  lemma {:induction false} MultipleOf(y: nat, d: nat, e: nat, k: nat)
    requires d == e * k && e > 0 && d > 0
    ensures y % d == 0 ==> y % e == 0
  {
    if y % d == 0 {
      var q := y / d;
      assert y == q * d;
      assert q * d == q * (e * k) == (q * k) * e;
      Quotient(y, e, q * k, 0);
    }
  }

  lemma {:induction false} TwoMonths(y: nat, m: nat)
    requires y >= 1 && 1 <= m <= 10
    ensures DaysBeforeMonth(Month(y, m + 2))
            == DaysBeforeMonth(Month(y, m)) + DaysIn(Month(y, m)) + DaysIn(Month(y, m + 1))
  {
    hide DaysIn;
    assert DaysBeforeMonth(Month(y, m + 1)) == DaysBeforeMonth(Month(y, m)) + DaysIn(Month(y, m));
  }

  lemma {:induction false} YearOfMonths(y: nat)
    requires y >= 1
    ensures DaysBeforeMonth(Month(y, 12)) == if IsLeap(y) then 335 else 334
  {
    assert DaysBeforeMonth(Month(y, 1)) == 0;
    assert DaysBeforeMonth(Month(y, 12)) == DaysBeforeMonth(Month(y, 11)) + 30;
    hide DaysBeforeMonth, IsLeap;
    TwoMonths(y, 1);
    TwoMonths(y, 3);
    TwoMonths(y, 5);
    TwoMonths(y, 7);
    TwoMonths(y, 9);
  }

  /** Days of a common year before each month; from March on a leap year has one more. */
  const BEFORE: seq<nat> := [0, 31, 59, 90, 120, 151, 181, 212, 243, 273, 304, 334]

  lemma {:induction false} MonthStarts(m: Month)
    ensures DaysBeforeMonth(m) == BEFORE[m.month - 1] + if m.month > 2 && IsLeap(m.year) then 1 else 0
    decreases m.month
  {
    hide IsLeap;
    if m.month > 1 { MonthStarts(Month(m.year, m.month - 1)); }
  }

  /** The first instant of 1970 is 719162 days after that of year one. */
  lemma {:induction false} UnixEpoch()
    ensures FirstOf(Month(1970, 1)) == 719_162 * DAY
  {
    assert DaysBeforeYear(1970) == 719_162;
  }

  /** Consecutive months tile time with the lengths the calendar gives them. */
  lemma {:induction false} MonthLength(m: Month)
    ensures FirstOf(Succ(m)) == FirstOf(m) + DaysIn(m) * DAY
  {
    if m.month == 12 {
      YearLength(m.year);
      YearOfMonths(m.year);
      assert DaysBeforeYear(m.year + 1) + DaysBeforeMonth(Month(m.year + 1, 1))
             == DaysBeforeYear(m.year) + DaysBeforeMonth(m) + DaysIn(m);
    }
  }

  lemma {:induction false} MonthsOrdered(a: Month, b: Month)
    requires Index(a) < Index(b)
    ensures FirstOf(Succ(a)) <= FirstOf(b)
    decreases Index(b)
  {
    if Succ(a) != b {
      var p: Month := if b.month == 1 then Month(b.year - 1, 12) else Month(b.year, b.month - 1);
      MonthsOrdered(a, p);
      MonthLength(p);
    }
  }

  function MonthFrom(m: Month, t: Time): (r: Month)
    requires FirstOf(m) <= t
    ensures FirstOf(r) <= t < FirstOf(Succ(r))
    decreases t - FirstOf(m)
  {
    MonthLength(m);
    if t < FirstOf(Succ(m)) then m else MonthFrom(Succ(m), t)
  }

  /** The month an instant falls in. */
  function MonthOf(t: Time): (r: Month)
    ensures FirstOf(r) <= t < FirstOf(Succ(r))
  {
    MonthFrom(Month(1, 1), t)
  }

  lemma {:induction false} MonthOfUnique(t: Time, m: Month)
    requires FirstOf(m) <= t < FirstOf(Succ(m))
    ensures m == MonthOf(t)
  {
    if Index(m) < Index(MonthOf(t)) {
      MonthsOrdered(m, MonthOf(t));
    } else if Index(MonthOf(t)) < Index(m) {
      MonthsOrdered(MonthOf(t), m);
    }
  }

  /** First day of the next calendar month at 00:00. */
  function NextPeriodEnd(now: Time): (end: Time)
    ensures now < end <= now + 31 * DAY
  {
    var m := MonthOf(now);
    var year, month := m.year, m.month + 1;
    MonthLength(m);
    if month > 12 then FirstOf(Month(year + 1, 1)) else FirstOf(Month(year, month))
  }

  /** The result is the first month boundary after `now`: it is one, and none lies between. */
  lemma {:induction false} NextPeriodEndIsNextBoundary(now: Time, m: Month)
    ensures NextPeriodEnd(now) == FirstOf(Succ(MonthOf(now)))
    ensures !(now < FirstOf(m) < NextPeriodEnd(now))
  {
    if now < FirstOf(m) < NextPeriodEnd(now) {
      MonthLength(m);
      if Index(m) <= Index(MonthOf(now)) {
        if m != MonthOf(now) { MonthsOrdered(m, MonthOf(now)); }
      } else {
        MonthsOrdered(MonthOf(now), m);
      }
    }
  }
}
