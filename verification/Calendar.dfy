/** date_trunc for days and months in UTC, on microseconds since the Unix epoch. */
module Calendar {

  type Stamp = nat

  const DAY: nat := 86_400_000_000

  datatype Window = Day | Month

  predicate LeapYear(y: nat) {
    y % 4 == 0 && (y % 100 != 0 || y % 400 == 0)
  }

  function MonthLength(y: nat, m: nat): (n: nat)
    requires 1 <= m <= 12
    ensures 28 <= n <= 31
  {
    if m == 2 then (if LeapYear(y) then 29 else 28)
    else if m == 4 || m == 6 || m == 9 || m == 11 then 30
    else 31
  }

  /** Counting from the first of month `m` of year `y`, which is day `first`: the first day of the
      Gregorian month that contains `day`. */
  function MonthFrom(first: nat, y: nat, m: nat, day: nat): (start: nat)
    requires 1 <= m <= 12 && first <= day
    ensures first <= start <= day < start + 31
    decreases day - first
  {
    var next := first + MonthLength(y, m);
    if day < next then first
    else if m == 12 then MonthFrom(next, y + 1, 1, day)
    else MonthFrom(next, y, m + 1, day)
  }

  function Truncate(w: Window, t: Stamp): (start: Stamp)
    ensures start <= t
  {
    match w
    case Day => t / DAY * DAY
    case Month => MonthFrom(0, 1970, 1, t / DAY) * DAY
  }

  lemma {:induction false} MonthFromConvex(first: nat, y: nat, m: nat, day: nat, day': nat)
    requires 1 <= m <= 12 && first <= day && MonthFrom(first, y, m, day) <= day' <= day
    ensures MonthFrom(first, y, m, day') == MonthFrom(first, y, m, day)
    decreases day - first
  {
    var next := first + MonthLength(y, m);
    if day >= next {
      if m == 12 { MonthFromConvex(next, y + 1, 1, day, day'); } else { MonthFromConvex(next, y, m + 1, day, day'); }
    }
  }

  /** A window is an interval: every stamp from its start up to one of its stamps belongs to it.
      In particular truncation is idempotent and windows partition time. */
  lemma {:induction false} WindowsAreIntervals(w: Window, t: Stamp, t': Stamp)
    requires Truncate(w, t) <= t' <= t
    ensures Truncate(w, t') == Truncate(w, t)
  {
    match w
    case Day =>
    case Month =>
      var start := MonthFrom(0, 1970, 1, t / DAY);
      assert start <= t' / DAY <= t / DAY;
      MonthFromConvex(0, 1970, 1, t / DAY, t' / DAY);
  }

  // ---------- the calendar in closed form ----------

  /** The days of a common year before each month. */
  const DAYS_BEFORE: seq<nat> := [0, 31, 59, 90, 120, 151, 181, 212, 243, 273, 304, 334]

  /** The day, since the epoch, on which a month begins: 365 for every year, and one more for every year
      divisible by 4, but not by 100 unless by 400; 477 such days lie before the epoch. */
  function MonthStart(y: nat, m: nat): int
    requires y >= 1970 && 1 <= m <= 12
  {
    var leap := y % 4 == 0 && (y % 100 != 0 || y % 400 == 0);
    365 * (y - 1970) + (y - 1) / 4 - (y - 1) / 100 + (y - 1) / 400 - 477
    + DAYS_BEFORE[m - 1] + if leap && m > 2 then 1 else 0
  }

  lemma {:induction false} Multiples(y: nat)
    requires y >= 1
    ensures y / 4 == (y - 1) / 4 + if y % 4 == 0 then 1 else 0
    ensures y / 100 == (y - 1) / 100 + if y % 100 == 0 then 1 else 0
    ensures y / 400 == (y - 1) / 400 + if y % 400 == 0 then 1 else 0
    ensures (y % 400 == 0 ==> y % 100 == 0) && (y % 100 == 0 ==> y % 4 == 0)
  {
  }

  lemma {:induction false} NextYear(y: nat)
    requires y >= 1970
    ensures MonthStart(1970, 1) == 0
    ensures MonthStart(y + 1, 1) == MonthStart(y, 12) + 31
  {
    Multiples(y);
  }

  lemma {:induction false} NextMonth(y: nat, m: nat)
    requires y >= 1970 && 1 <= m <= 12
    ensures MonthStart(1970, 1) == 0
    ensures m < 12 ==> MonthStart(y, m + 1) == MonthStart(y, m) + MonthLength(y, m)
    ensures m == 12 ==> MonthStart(y + 1, 1) == MonthStart(y, 12) + MonthLength(y, 12)
  {
    if m == 12 { NextYear(y); }
  }

  /** Counting month by month, the search stops at the month that contains the day. */
  lemma {:induction false} SearchStops(y0: nat, m0: nat, y: nat, m: nat, day: nat)
    requires 1970 <= y0 && 1 <= m0 <= 12 && 1 <= m <= 12 && (y0 < y || (y0 == y && m0 <= m))
    requires MonthStart(y, m) <= day < MonthStart(y, m) + MonthLength(y, m)
    ensures 0 <= MonthStart(y0, m0) <= MonthStart(y, m)
    ensures MonthFrom(MonthStart(y0, m0), y0, m0, day) == MonthStart(y, m)
    decreases 12 * (y - y0) + m - m0
  {
    StartsAfterEpoch(y0, m0);
    NextMonth(y0, m0);
    if y0 != y || m0 != m {
      if m0 == 12 { SearchStops(y0 + 1, 1, y, m, day); } else { SearchStops(y0, m0 + 1, y, m, day); }
    }
  }

  lemma {:induction false} StartsAfterEpoch(y: nat, m: nat)
    requires y >= 1970 && 1 <= m <= 12
    ensures MonthStart(y, m) >= 0
    decreases y, m
  {
    if m > 1 {
      StartsAfterEpoch(y, m - 1);
      NextMonth(y, m - 1);
    } else if y > 1970 {
      StartsAfterEpoch(y - 1, 12);
      NextMonth(y - 1, 12);
    }
  }

  /** A stamp on any day of a Gregorian month is truncated to midnight of the first of that month. */
  lemma {:induction false} MonthBegins(y: nat, m: nat, day: nat, t: Stamp)
    requires y >= 1970 && 1 <= m <= 12
    requires 1 <= day <= (if m == 2 then (if y % 4 == 0 && (y % 100 != 0 || y % 400 == 0) then 29 else 28)
                          else if m == 4 || m == 6 || m == 9 || m == 11 then 30 else 31)
    requires 0 <= t as int - (MonthStart(y, m) + day - 1) * 86_400_000_000 < 86_400_000_000
    ensures Truncate(Month, t) as int == MonthStart(y, m) * 86_400_000_000
  {
    NextMonth(y, m);
    StartsAfterEpoch(y, m);
    assert t / DAY == MonthStart(y, m) + day - 1;
    SearchStops(1970, 1, y, m, t / DAY);
  }

  /** A stamp is truncated to the midnight before it. */
  lemma {:induction false} DayBegins(day: nat, t: Stamp)
    requires day * 86_400_000_000 <= t < (day + 1) * 86_400_000_000
    ensures Truncate(Day, t) == day * 86_400_000_000
  {
  }
}
