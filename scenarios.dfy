/** Whole-policy scenarios: the decline test of
    InsuranceCalculationTests/DeclineRulesTests.cs and worked quotes that run
    both rule sets. */
module Scenarios {
  import opened Dates
  import opened Policy
  import opened DeclineRules
  import opened PremiumCalculation

  /** A Driver built with `new Driver { Claims = ... }`: null name, the first
      Occupation value, DateTime.MinValue for the date of birth. */
  function DefaultDriver(claims: seq<Claim>): Driver {
    Driver("", Chauffeur, Date(1, 1, 1), claims)
  }

  /** The unit test: two default drivers with two default claims each, the
      policy starting today, are declined.  The check that fires is the
      oldest-driver one (a date of birth in year 1 makes the driver far older
      than 75), so the test passes before the total-claims check is reached. */
  lemma TwoDefaultDriversWithTwoClaimsEachDeclined(today: Date)
    requires ValidDate(today) && today.year >= 100
    ensures var claim := Claim(Date(1, 1, 1));
      var drivers := [DefaultDriver([claim, claim]), DefaultDriver([claim, claim])];
      IsDeclined(today, today, drivers) &&
      Evaluate(today, today, drivers) == Some(AgeOfOldestDriver(""))
  {
    var claim := Claim(Date(1, 1, 1));
    var drivers := [DefaultDriver([claim, claim]), DefaultDriver([claim, claim])];
    assert OldestIndex(drivers) == 0;
    assert YoungestIndex(drivers) == 0;
  }

  /** A policy with no drivers whose start date has passed is declined by the
      start-date check, which runs before any driver is selected. */
  lemma EmptyPolicyStartingInThePastDeclined(startDate: Date, today: Date)
    requires Before(startDate, today)
    ensures IsDeclined(startDate, today, [])
    ensures Evaluate(startDate, today, []) == Some(StartDateOfPolicy)
  {
  }

  /** Adult drivers with two claims each: four claims in total decline the
      policy although no single driver has more than two. */
  lemma TwoAdultDriversWithTwoClaimsEachDeclined()
    ensures var start := Date(2025, 6, 1);
      var claim := Claim(Date(2024, 1, 15));
      var drivers := [Driver("Ann", Accountant, Date(1980, 5, 10), [claim, claim]),
                      Driver("Bob", Chauffeur, Date(1985, 7, 20), [claim, claim])];
      Evaluate(start, start, drivers) == Some(PolicyHasMoreThanThreeClaims)
  {
    var start := Date(2025, 6, 1);
    var claim := Claim(Date(2024, 1, 15));
    var drivers := [Driver("Ann", Accountant, Date(1980, 5, 10), [claim, claim]),
                    Driver("Bob", Chauffeur, Date(1985, 7, 20), [claim, claim])];
    assert YoungestIndex(drivers) == 1;
    assert OldestIndex(drivers) == 0;
    assert drivers[..1] == [drivers[0]] && drivers[..1][..0] == [];
    assert AllClaims(drivers[..1]) == [claim, claim];
    assert |AllClaims(drivers)| == 4;
  }

  /** A single driver with three claims passes the total check (3 is not more
      than 3) and is declined by the per-driver check, by name. */
  lemma DriverWithThreeClaimsDeclinedByName()
    ensures var start := Date(2025, 6, 1);
      var claim := Claim(Date(2024, 1, 15));
      var drivers := [Driver("Alice", Accountant, Date(1990, 3, 3), [claim, claim, claim])];
      Evaluate(start, start, drivers) == Some(DriverHasMoreThanTwoClaims("Alice")) &&
      Message(DriverHasMoreThanTwoClaims("Alice")) == "Driver has more than 2 claims - Alice"
  {
    var claim := Claim(Date(2024, 1, 15));
    var drivers := [Driver("Alice", Accountant, Date(1990, 3, 3), [claim, claim, claim])];
    assert AllClaims(drivers) == [claim, claim, claim];
  }

  /** Ages exactly 21 and exactly 75 on the start date pass both age checks. */
  lemma AgeBoundariesPass()
    ensures var start := Date(2025, 6, 1);
      var drivers := [Driver("Young", Accountant, Date(2004, 6, 1), []),
                      Driver("Old", Accountant, Date(1950, 6, 1), [])];
      !IsDeclined(start, start, drivers)
  {
    var start := Date(2025, 6, 1);
    var drivers := [Driver("Young", Accountant, Date(2004, 6, 1), []),
                    Driver("Old", Accountant, Date(1950, 6, 1), [])];
    assert YoungestIndex(drivers) == 0;
    assert OldestIndex(drivers) == 1;
    assert AllClaims(drivers) == [];
  }

  /** One day younger, the 21-year-old is under age and the policy is declined. */
  lemma YoungestOneDayUnder21Declined()
    ensures var start := Date(2025, 6, 1);
      var drivers := [Driver("Young", Accountant, Date(2004, 6, 2), [])];
      Evaluate(start, start, drivers) == Some(AgeOfYoungestDriver)
  {
  }

  /** An Accountant aged 30 with no claims: 500, -10% for the occupation, then
      -10% for the age band 26 to 75. */
  lemma AccountantAgedThirtyQuote()
    ensures var start := Date(2025, 6, 1);
      var drivers := [Driver("Carol", Accountant, Date(1995, 1, 1), [])];
      !IsDeclined(start, start, drivers) && Premium(start, drivers) == 405
  {
    var start := Date(2025, 6, 1);
    var drivers := [Driver("Carol", Accountant, Date(1995, 1, 1), [])];
    assert AllClaims(drivers) == [];
    assert HasOccupation(drivers, Accountant) && !HasOccupation(drivers, Chauffeur);
  }

  /** A Chauffeur aged 22 with one claim three months before the start:
      500, +10% for the occupation, +20% for the age, +20% for the claim. */
  lemma ChauffeurAgedTwentyTwoQuote()
    ensures var start := Date(2025, 6, 1);
      var drivers := [Driver("Dan", Chauffeur, Date(2003, 1, 1), [Claim(Date(2025, 3, 1))])];
      !IsDeclined(start, start, drivers) && Premium(start, drivers) == 792
  {
    var start := Date(2025, 6, 1);
    var drivers := [Driver("Dan", Chauffeur, Date(2003, 1, 1), [Claim(Date(2025, 3, 1))])];
    assert AllClaims(drivers) == [Claim(Date(2025, 3, 1))];
    assert HasOccupation(drivers, Chauffeur) && !HasOccupation(drivers, Accountant);
    assert OccupationAdjusted(StartingPoint, drivers) == 550;
    assert AgeAdjusted(550, 22) == 660;
  }
}
