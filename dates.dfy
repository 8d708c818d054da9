/** Calendar dates at day granularity and the age arithmetic of
    InsuranceCalculation/DateTimeExtensions.cs.  A date is a (year, month, day)
    triple ordered lexicographically, which is how DateTime values with no
    time-of-day component compare. */
module Dates {

  datatype Date = Date(year: int, month: int, day: int)

  predicate IsLeapYear(y: int) {
    y % 4 == 0 && (y % 100 != 0 || y % 400 == 0)
  }

  function DaysInMonth(y: int, m: int): (n: int)
    requires 1 <= m <= 12
    ensures 28 <= n <= 31
  {
    if m == 2 then (if IsLeapYear(y) then 29 else 28)
    else if m == 4 || m == 6 || m == 9 || m == 11 then 30
    else 31
  }

  /** A date that DateTime can represent: years 1 to 9999, a real day of a real month. */
  predicate ValidDate(d: Date) {
    1 <= d.year <= 9999 && 1 <= d.month <= 12 && 1 <= d.day <= DaysInMonth(d.year, d.month)
  }

  /** `a < b` on dates. */
  predicate Before(a: Date, b: Date) {
    a.year < b.year ||
    (a.year == b.year && (a.month < b.month || (a.month == b.month && a.day < b.day)))
  }

  /** `a <= b` on dates. */
  predicate AtOrBefore(a: Date, b: Date) {
    !Before(b, a)
  }

  function Min(x: int, y: int): int {
    if x <= y then x else y
  }

  /** DateTime.AddYears: the same month and day `n` years on; 29 February
      becomes 28 February when the target year is not a leap year. */
  function AddYears(d: Date, n: int): (r: Date)
    ensures r.year == d.year + n && r.month == d.month
    ensures ValidDate(d) ==> r.day == Min(d.day, DaysInMonth(r.year, r.month))
    ensures ValidDate(d) && 1 <= d.year + n <= 9999 ==> ValidDate(r)
  {
    if d.month == 2 && d.day == 29 && !IsLeapYear(d.year + n) then Date(d.year + n, 2, 28)
    else Date(d.year + n, d.month, d.day)
  }

  /** Adding more years gives a strictly later date. */
  lemma AddYearsStrictlyIncreasing(d: Date, n: int, m: int)
    requires n < m
    ensures Before(AddYears(d, n), AddYears(d, m))
  {
  }

  /** Going `n` years forward and back returns the date itself, except for a
      29 February that passed through a non-leap year. */
  lemma AddYearsRoundTrip(d: Date, n: int)
    requires ValidDate(d)
    requires !(d.month == 2 && d.day == 29) || IsLeapYear(d.year + n)
    ensures AddYears(AddYears(d, n), -n) == d
  {
  }

  /** Whole years from `dateOfBirth` to `date`, never negative: the year
      difference, less one when `date` falls before that year's anniversary. */
  function AgeOnDate(dateOfBirth: Date, date: Date): (age: int)
    ensures age >= 0
    ensures date.year <= dateOfBirth.year ==> age == 0
    // the number of anniversaries (AddYears) reached on `date`
    ensures age == 0 || AtOrBefore(AddYears(dateOfBirth, age), date)
    ensures Before(date, AddYears(dateOfBirth, age + 1))
  {
    var age := date.year - dateOfBirth.year;
    if age > 0 then
      age - (if Before(date, AddYears(dateOfBirth, age)) then 1 else 0)
    else
      0
  }

  /** The anniversary count determines the age: any `n` with the
      characterising property of AgeOnDate is that age. */
  lemma AgeOnDateUnique(dateOfBirth: Date, date: Date, n: int)
    requires n >= 0
    requires n == 0 || AtOrBefore(AddYears(dateOfBirth, n), date)
    requires Before(date, AddYears(dateOfBirth, n + 1))
    ensures AgeOnDate(dateOfBirth, date) == n
  {
    var age := AgeOnDate(dateOfBirth, date);
    if n < age {
      AddYearsStrictlyIncreasing(dateOfBirth, n + 1, age);
    } else if age < n {
      AddYearsStrictlyIncreasing(dateOfBirth, age + 1, n);
    }
  }

  /** The source's own formula, restated for reference: when the reference
      year is later than the birth year the age is the year difference, or
      one less before the anniversary in that year.  AgeOnDate's anniversary
      characterisation is the independent statement. */
  lemma AgeOnDateYearDifference(dateOfBirth: Date, date: Date)
    requires date.year > dateOfBirth.year
    ensures var k := date.year - dateOfBirth.year;
      AgeOnDate(dateOfBirth, date) == (if Before(date, AddYears(dateOfBirth, k)) then k - 1 else k)
  {
  }

  /** On the `n`-th anniversary itself the age is exactly `n`. */
  lemma AgeOnAnniversary(dateOfBirth: Date, n: nat)
    ensures AgeOnDate(dateOfBirth, AddYears(dateOfBirth, n)) == n
  {
  }

  /** The day before the `n`-th anniversary (for `n` >= 1) the age is still `n - 1`. */
  lemma AgeBeforeAnniversary(dateOfBirth: Date, date: Date, n: int)
    requires n >= 1 && date.year == dateOfBirth.year + n
    requires Before(date, AddYears(dateOfBirth, n))
    ensures AgeOnDate(dateOfBirth, date) == n - 1
  {
  }

  /** Being under `n` (for `n` >= 1) means the `n`-th anniversary has not
      been reached yet. */
  lemma UnderAgeBeforeAnniversary(dateOfBirth: Date, date: Date, n: int)
    requires n >= 1
    ensures AgeOnDate(dateOfBirth, date) < n <==> Before(date, AddYears(dateOfBirth, n))
  {
    var age := AgeOnDate(dateOfBirth, date);
    if age < n - 1 {
      AddYearsStrictlyIncreasing(dateOfBirth, age + 1, n);
    } else if age > n {
      AddYearsStrictlyIncreasing(dateOfBirth, n, age);
    }
  }

  /** A later reference date never gives a smaller age. */
  lemma AgeOnDateMonotone(dateOfBirth: Date, d1: Date, d2: Date)
    requires AtOrBefore(d1, d2)
    ensures AgeOnDate(dateOfBirth, d1) <= AgeOnDate(dateOfBirth, d2)
  {
    var a1, a2 := AgeOnDate(dateOfBirth, d1), AgeOnDate(dateOfBirth, d2);
    if a1 > a2 {
      AddYearsStrictlyIncreasing(dateOfBirth, a2 + 1, a1);
    }
  }

  /** A 29 February birthday is reached on 28 February of a non-leap year,
      and not the day before; in a leap year 28 February is still before it. */
  lemma LeapDayBirthday(dateOfBirth: Date, y: int)
    requires dateOfBirth.month == 2 && dateOfBirth.day == 29
    requires y > dateOfBirth.year
    ensures !IsLeapYear(y) ==> AgeOnDate(dateOfBirth, Date(y, 2, 28)) == y - dateOfBirth.year
    ensures !IsLeapYear(y) ==> AgeOnDate(dateOfBirth, Date(y, 2, 27)) == y - dateOfBirth.year - 1
    ensures IsLeapYear(y) ==> AgeOnDate(dateOfBirth, Date(y, 2, 28)) == y - dateOfBirth.year - 1
    ensures AgeOnDate(dateOfBirth, Date(y, 3, 1)) == y - dateOfBirth.year
  {
  }
}
