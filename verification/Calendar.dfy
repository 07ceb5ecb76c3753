/** Days as Python's proleptic Gregorian ordinals, and the half-open month ranges of the reports. */
module Calendar {

  predicate IsLeap(year: nat) {
    year % 4 == 0 && (year % 100 != 0 || year % 400 == 0)
  }

  function DaysBeforeYear(year: nat): int
    requires year >= 1
  {
    var y := year - 1;
    365 * y + y / 4 - y / 100 + y / 400
  }

  const BEFORE_MONTH: seq<nat> := [0, 31, 59, 90, 120, 151, 181, 212, 243, 273, 304, 334]

  function DaysBeforeMonth(year: nat, month: nat): nat
    requires 1 <= month <= 12
  {
    BEFORE_MONTH[month - 1] + if month > 2 && IsLeap(year) then 1 else 0
  }

  predicate IsMonth(year: nat, month: nat) {
    year >= 1 && 1 <= month <= 12
  }

  /** `date(year, month, 1)` */
  function FirstOf(year: nat, month: nat): int
    requires IsMonth(year, month)
  {
    DaysBeforeYear(year) + DaysBeforeMonth(year, month) + 1
  }

  /** First day of the month and first day after it. */
  function MonthRange(year: nat, month: nat): (int, int)
    requires IsMonth(year, month)
  {
    (FirstOf(year, month), if month == 12 then FirstOf(year + 1, 1) else FirstOf(year, month + 1))
  }

  predicate InMonth(day: int, year: nat, month: nat)
    requires IsMonth(year, month)
  {
    MonthRange(year, month).0 <= day < MonthRange(year, month).1
  }

  lemma SmallMultiple(k: int, d: int)
    requires -k < k * d < k
    ensures d == 0
  {
  }

  lemma QuotientSteps(y: nat, k: nat)
    requires k > 0
    ensures (y + 1) / k == y / k + if (y + 1) % k == 0 then 1 else 0
  {
    var q, r, q2, r2 := y / k, y % k, (y + 1) / k, (y + 1) % k;
    assert k * q + r + 1 == k * q2 + r2;
    if r + 1 == k {
      assert k * (q2 - q - 1) == -r2;
      SmallMultiple(k, q2 - q - 1);
    } else {
      assert k * (q2 - q) == r + 1 - r2;
      SmallMultiple(k, q2 - q);
    }
  }

  lemma DividesPart(y: nat, k: nat, n: nat)
    requires k > 0 && n > 0 && y % (k * n) == 0
    ensures y % k == 0
  {
    var q, r := y / (k * n), y % k;
    assert y == (k * n) * q == k * (n * q);
    assert k * (n * q - y / k) == r;
    SmallMultiple(k, n * q - y / k);
  }

  /** A year has 365 days, or 366 if it is a leap year. */
  lemma YearLength(year: nat)
    requires year >= 1
    ensures DaysBeforeYear(year + 1) == DaysBeforeYear(year) + if IsLeap(year) then 366 else 365
  {
    QuotientSteps(year - 1, 4);
    QuotientSteps(year - 1, 100);
    QuotientSteps(year - 1, 400);
    if year % 400 == 0 {
      DividesPart(year, 100, 4);
    }
    if year % 100 == 0 {
      DividesPart(year, 4, 25);
    }
  }

  lemma {:induction false} YearsIncrease(a: nat, b: nat)
    requires 1 <= a <= b
    ensures FirstOf(a, 1) + 365 * (b - a) <= FirstOf(b, 1)
    decreases b
  {
    if a < b {
      YearsIncrease(a, b - 1);
      YearLength(b - 1);
    }
  }

  /** A month ends by the end of its year. */
  lemma MonthWithinYear(year: nat, month: nat)
    requires IsMonth(year, month)
    ensures FirstOf(year, 1) <= MonthRange(year, month).0 < MonthRange(year, month).1 <= FirstOf(year + 1, 1)
    ensures month < 12 ==> MonthRange(year, month).1 < FirstOf(year + 1, 1)
  {
  }

  lemma {:induction false} EarlierMonth(year: nat, month: nat, later: nat)
    requires IsMonth(year, month) && IsMonth(year, later) && month < later
    ensures MonthRange(year, month).1 <= MonthRange(year, later).0
    decreases later
  {
  }

  /** A day lies in at most one month. */
  lemma MonthsAreDisjoint(day: int, year: nat, month: nat, year2: nat, month2: nat)
    requires IsMonth(year, month) && IsMonth(year2, month2)
    ensures InMonth(day, year, month) && InMonth(day, year2, month2) ==> year == year2 && month == month2
  {
    MonthWithinYear(year, month);
    MonthWithinYear(year2, month2);
    if year < year2 {
      YearsIncrease(year + 1, year2);
    } else if year2 < year {
      YearsIncrease(year2 + 1, year);
    } else if month < month2 {
      EarlierMonth(year, month, month2);
    } else if month2 < month {
      EarlierMonth(year, month2, month);
    }
  }

  lemma {:induction false} SomeYearHolds(day: int, bound: nat) returns (year: nat)
    requires bound >= 1 && FirstOf(1, 1) <= day < FirstOf(bound, 1)
    ensures year >= 1 && FirstOf(year, 1) <= day < FirstOf(year + 1, 1)
    decreases bound
  {
    if day < FirstOf(bound - 1, 1) {
      year := SomeYearHolds(day, bound - 1);
    } else {
      year := bound - 1;
    }
  }

  lemma {:induction false} SomeMonthHolds(day: int, year: nat, month: nat) returns (found: nat)
    requires IsMonth(year, month) && FirstOf(year, 1) <= day < MonthRange(year, month).1
    ensures IsMonth(year, found) && InMonth(day, year, found)
    decreases month
  {
    if MonthRange(year, month).0 <= day {
      found := month;
    } else {
      found := SomeMonthHolds(day, year, month - 1);
    }
  }

  /** Every day from 1 January of year 1 on lies in some month. */
  lemma MonthsCover(day: int) returns (year: nat, month: nat)
    requires day >= 1
    ensures IsMonth(year, month) && InMonth(day, year, month)
  {
    YearsIncrease(1, 1 + day);
    year := SomeYearHolds(day, 1 + day);
    month := SomeMonthHolds(day, year, 12);
  }

  // ---------------------------------------------------------------- what fixes every range

  /** Month 1 of year 1 starts on day 1. */
  lemma CalendarBegins()
    ensures MonthRange(1, 1).0 == 1
  {
  }

  /** Each month ends where the next one starts. */
  lemma MonthsFollow(year: nat, month: nat)
    requires IsMonth(year, month)
    ensures month < 12 ==> MonthRange(year, month).1 == MonthRange(year, month + 1).0
    ensures month == 12 ==> MonthRange(year, month).1 == MonthRange(year + 1, 1).0
  {
  }

  /** Thirty days, thirty-one, or the days of February by the leap rule. */
  lemma MonthLength(year: nat, month: nat)
    requires IsMonth(year, month)
    ensures MonthRange(year, month).1 - MonthRange(year, month).0 ==
            if month == 4 || month == 6 || month == 9 || month == 11 then 30
            else if month != 2 then 31
            else if year % 400 == 0 || (year % 4 == 0 && year % 100 != 0) then 29
            else 28
  {
    YearLength(year);
    LeapRule(year);
  }

  lemma LeapRule(year: nat)
    ensures IsLeap(year) <==> year % 400 == 0 || (year % 4 == 0 && year % 100 != 0)
  {
    if year % 400 == 0 {
      DividesPart(year, 4, 100);
    }
  }
}
