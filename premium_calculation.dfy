/** The premium calculation of InsuranceCalculation/PremiumCalculation.cs.
    The source threads one `ref int premium` through rule methods that
    reassign it; here each rule method takes the running premium and returns
    the new one, and is proved equal to a pure function below.  Lemmas about
    those functions give the ordering, the claims count, the dead +10%
    claims branch and positivity. */
module PremiumCalculation {
  import opened Dates
  import opened Percentages
  import opened Policy

  const StartingPoint: int := 500

  // ---------------------------------------------------------------------------
  // The rules as functions of the running premium

  function ChauffeurAdjusted(premium: int, drivers: seq<Driver>): int {
    if HasOccupation(drivers, Chauffeur) then IncreasePercentage(premium, 10) else premium
  }

  function AccountantAdjusted(premium: int, drivers: seq<Driver>): int {
    if HasOccupation(drivers, Accountant) then DecreasePercentage(premium, 10) else premium
  }

  /** driverOccupationRules: the chauffeur rule, then the accountant rule. */
  function OccupationAdjusted(premium: int, drivers: seq<Driver>): int {
    AccountantAdjusted(ChauffeurAdjusted(premium, drivers), drivers)
  }

  /** Age of the youngest driver (latest date of birth) on the start date. */
  function YoungestAge(startDate: Date, drivers: seq<Driver>): int
    requires |drivers| > 0
  {
    AgeOnDate(drivers[YoungestIndex(drivers)].dateOfBirth, startDate)
  }

  /** driverAgeRules, given the youngest driver's age. */
  function AgeAdjusted(premium: int, age: int): int {
    if 21 <= age <= 25 then IncreasePercentage(premium, 20)
    else if 26 <= age <= 75 then DecreasePercentage(premium, 10)
    else premium
  }

  /** The claim is dated on or after one year before the start date. */
  predicate IsRecentClaim(startDate: Date, claim: Claim) {
    AtOrBefore(AddYears(startDate, -1), claim.date)
  }

  /** The literal test of the +10% branch: `date >= start-2y && date <= start-5y`. */
  predicate InTwoToFiveYearWindow(startDate: Date, claim: Claim) {
    AtOrBefore(AddYears(startDate, -2), claim.date) && AtOrBefore(claim.date, AddYears(startDate, -5))
  }

  /** One claim's step of driverClaimsRules. */
  function ClaimAdjusted(premium: int, startDate: Date, claim: Claim): int {
    if IsRecentClaim(startDate, claim) then IncreasePercentage(premium, 20)
    else if InTwoToFiveYearWindow(startDate, claim) then IncreasePercentage(premium, 10)
    else premium
  }

  /** The claims of one driver, in order. */
  function ClaimsAdjusted(premium: int, startDate: Date, claims: seq<Claim>): int {
    if claims == [] then premium
    else ClaimAdjusted(ClaimsAdjusted(premium, startDate, claims[..|claims| - 1]), startDate, claims[|claims| - 1])
  }

  /** driverClaimsRules: the claims of each driver that has any, driver by driver. */
  function DriversClaimsAdjusted(premium: int, startDate: Date, drivers: seq<Driver>): int {
    if drivers == [] then premium
    else
      var before := DriversClaimsAdjusted(premium, startDate, drivers[..|drivers| - 1]);
      var last := drivers[|drivers| - 1];
      if |last.claims| > 0 then ClaimsAdjusted(before, startDate, last.claims) else before
  }

  /** The premium Calculate returns. */
  function Premium(startDate: Date, drivers: seq<Driver>): int
    requires |drivers| > 0
  {
    var afterOccupation := OccupationAdjusted(StartingPoint, drivers);
    var afterAge := AgeAdjusted(afterOccupation, YoungestAge(startDate, drivers));
    DriversClaimsAdjusted(afterAge, startDate, drivers)
  }

  // ---------------------------------------------------------------------------
  // The rule methods, as the source runs them

  method ChauffeurRule(premium: int, drivers: seq<Driver>) returns (p: int)
    ensures p == ChauffeurAdjusted(premium, drivers)
  {
    p := premium;
    if HasOccupation(drivers, Chauffeur) {
      p := IncreasePercentage(p, 10);
    }
  }

  method AccountantRule(premium: int, drivers: seq<Driver>) returns (p: int)
    ensures p == AccountantAdjusted(premium, drivers)
  {
    p := premium;
    if HasOccupation(drivers, Accountant) {
      p := DecreasePercentage(p, 10);
    }
  }

  method DriverOccupationRules(premium: int, drivers: seq<Driver>) returns (p: int)
    ensures p == OccupationAdjusted(premium, drivers)
  {
    p := ChauffeurRule(premium, drivers);
    p := AccountantRule(p, drivers);
  }

  method DriverAgeRules(premium: int, startDate: Date, drivers: seq<Driver>) returns (p: int)
    requires |drivers| > 0
    ensures p == AgeAdjusted(premium, YoungestAge(startDate, drivers))
  {
    var youngestDriver := drivers[YoungestIndex(drivers)];
    var driverAge := AgeOnDate(youngestDriver.dateOfBirth, startDate);
    p := premium;
    if driverAge >= 21 && driverAge <= 25 {
      p := IncreasePercentage(p, 20);
    } else if driverAge >= 26 && driverAge <= 75 {
      p := DecreasePercentage(p, 10);
    }
  }

  method DriverClaimsRules(premium: int, startDate: Date, drivers: seq<Driver>) returns (p: int)
    ensures p == DriversClaimsAdjusted(premium, startDate, drivers)
  {
    p := premium;
    var i := 0;
    while i < |drivers|
      invariant 0 <= i <= |drivers|
      invariant p == DriversClaimsAdjusted(premium, startDate, drivers[..i])
    {
      var driver := drivers[i];
      assert drivers[..i + 1][..i] == drivers[..i];
      if |driver.claims| > 0 {
        ghost var before := p;
        var k := 0;
        while k < |driver.claims|
          invariant 0 <= k <= |driver.claims|
          invariant p == ClaimsAdjusted(before, startDate, driver.claims[..k])
        {
          var claim := driver.claims[k];
          assert driver.claims[..k + 1][..k] == driver.claims[..k];
          if AtOrBefore(AddYears(startDate, -1), claim.date) {
            p := IncreasePercentage(p, 20);
          } else if AtOrBefore(AddYears(startDate, -2), claim.date) && AtOrBefore(claim.date, AddYears(startDate, -5)) {
            p := IncreasePercentage(p, 10);
          }
          k := k + 1;
        }
        assert driver.claims[..k] == driver.claims;
      }
      i := i + 1;
    }
    assert drivers[..i] == drivers;
  }

  /** `PremiumCalculation.Calculate`. */
  method Calculate(startDate: Date, drivers: seq<Driver>) returns (premium: int)
    requires |drivers| > 0
    ensures premium == Premium(startDate, drivers)
    ensures premium >= 1
  {
    premium := StartingPoint;
    premium := DriverOccupationRules(premium, drivers);
    premium := DriverAgeRules(premium, startDate, drivers);
    premium := DriverClaimsRules(premium, startDate, drivers);
    PremiumPositive(startDate, drivers);
  }

  // ---------------------------------------------------------------------------
  // Properties

  /** The +10% claims branch never fires: five years back is always before
      two years back, so no date lies in the window as written. */
  lemma TwoToFiveYearWindowIsEmpty(startDate: Date, claim: Claim)
    ensures !InTwoToFiveYearWindow(startDate, claim)
  {
    AddYearsStrictlyIncreasing(startDate, -5, -2);
  }

  /** The premium after `n` increases of `percentage`. */
  function IncreasedTimes(premium: int, percentage: int, n: nat): int {
    if n == 0 then premium else IncreasePercentage(IncreasedTimes(premium, percentage, n - 1), percentage)
  }

  /** Number of recent claims (dated on or after start - 1 year, future dates included). */
  function RecentClaimCount(startDate: Date, claims: seq<Claim>): (n: nat)
    ensures n <= |claims|
  {
    if claims == [] then 0
    else RecentClaimCount(startDate, claims[..|claims| - 1]) + (if IsRecentClaim(startDate, claims[|claims| - 1]) then 1 else 0)
  }

  lemma {:induction false} RecentClaimCountAppend(startDate: Date, a: seq<Claim>, b: seq<Claim>)
    ensures RecentClaimCount(startDate, a + b) == RecentClaimCount(startDate, a) + RecentClaimCount(startDate, b)
  {
    if b != [] {
      var n := |b| - 1;
      assert (a + b)[..|a + b| - 1] == a + b[..n];
      RecentClaimCountAppend(startDate, a, b[..n]);
    } else {
      assert a + b == a;
    }
  }

  lemma {:induction false} IncreasedTimesAdd(premium: int, percentage: int, m: nat, n: nat)
    ensures IncreasedTimes(IncreasedTimes(premium, percentage, m), percentage, n) == IncreasedTimes(premium, percentage, m + n)
  {
    if n > 0 {
      IncreasedTimesAdd(premium, percentage, m, n - 1);
    }
  }

  /** One driver's claims raise the premium by 20% once per recent claim and
      otherwise leave it alone. */
  lemma {:induction false} ClaimsAdjustedCountsRecentClaims(premium: int, startDate: Date, claims: seq<Claim>)
    ensures ClaimsAdjusted(premium, startDate, claims) == IncreasedTimes(premium, 20, RecentClaimCount(startDate, claims))
  {
    if claims != [] {
      var n := |claims| - 1;
      ClaimsAdjustedCountsRecentClaims(premium, startDate, claims[..n]);
      TwoToFiveYearWindowIsEmpty(startDate, claims[n]);
    }
  }

  /** The claims stage applies +20% exactly once for each recent claim among
      all of the policy's claims, whatever their order or owner. */
  lemma {:induction false} DriversClaimsCountRecentClaims(premium: int, startDate: Date, drivers: seq<Driver>)
    ensures DriversClaimsAdjusted(premium, startDate, drivers) ==
      IncreasedTimes(premium, 20, RecentClaimCount(startDate, AllClaims(drivers)))
  {
    if drivers != [] {
      var n := |drivers| - 1;
      var front := drivers[..n];
      DriversClaimsCountRecentClaims(premium, startDate, front);
      ClaimsAdjustedCountsRecentClaims(DriversClaimsAdjusted(premium, startDate, front), startDate, drivers[n].claims);
      RecentClaimCountAppend(startDate, AllClaims(front), drivers[n].claims);
      IncreasedTimesAdd(premium, 20, RecentClaimCount(startDate, AllClaims(front)), RecentClaimCount(startDate, drivers[n].claims));
    }
  }

  /** The premium in closed form: 500, the occupation rules, the age rule,
      then +20% once per recent claim. */
  lemma PremiumClosedForm(startDate: Date, drivers: seq<Driver>)
    requires |drivers| > 0
    ensures Premium(startDate, drivers) ==
      IncreasedTimes(AgeAdjusted(OccupationAdjusted(StartingPoint, drivers), YoungestAge(startDate, drivers)),
                     20, RecentClaimCount(startDate, AllClaims(drivers)))
  {
    DriversClaimsCountRecentClaims(AgeAdjusted(OccupationAdjusted(StartingPoint, drivers), YoungestAge(startDate, drivers)), startDate, drivers);
  }

  lemma {:induction false} IncreasedTimesKeepsPositive(premium: int, percentage: int, n: nat)
    requires premium >= 1 && percentage >= 0
    ensures IncreasedTimes(premium, percentage, n) >= premium
  {
    if n > 0 {
      IncreasedTimesKeepsPositive(premium, percentage, n - 1);
      AdjustmentDirection(IncreasedTimes(premium, percentage, n - 1), percentage);
    }
  }

  /** Every rule keeps a positive premium positive. */
  lemma RulesKeepPositive(premium: int, startDate: Date, drivers: seq<Driver>, age: int)
    requires premium >= 1
    ensures OccupationAdjusted(premium, drivers) >= 1
    ensures AgeAdjusted(premium, age) >= 1
    ensures DriversClaimsAdjusted(premium, startDate, drivers) >= 1
  {
    AdjustmentDirection(premium, 10);
    var afterChauffeur := ChauffeurAdjusted(premium, drivers);
    DecreaseKeepsSign(afterChauffeur, 10);
    AdjustmentDirection(premium, 20);
    DecreaseKeepsSign(premium, 10);
    DriversClaimsCountRecentClaims(premium, startDate, drivers);
    IncreasedTimesKeepsPositive(premium, 20, RecentClaimCount(startDate, AllClaims(drivers)));
  }

  /** The premium stays strictly positive. */
  lemma PremiumPositive(startDate: Date, drivers: seq<Driver>)
    requires |drivers| > 0
    ensures Premium(startDate, drivers) >= 1
  {
    var afterOccupation := OccupationAdjusted(StartingPoint, drivers);
    RulesKeepPositive(StartingPoint, startDate, drivers, 0);
    RulesKeepPositive(afterOccupation, startDate, drivers, YoungestAge(startDate, drivers));
    var afterAge := AgeAdjusted(afterOccupation, YoungestAge(startDate, drivers));
    RulesKeepPositive(afterAge, startDate, drivers, 0);
  }

  /** What the occupation rules make of the starting point: +10% for a
      chauffeur first, then -10% for an accountant, so 500, 550, 450 or 495. */
  lemma OccupationRulesFromStartingPoint(drivers: seq<Driver>)
    ensures OccupationAdjusted(StartingPoint, drivers) ==
      if HasOccupation(drivers, Chauffeur) && HasOccupation(drivers, Accountant) then 495
      else if HasOccupation(drivers, Chauffeur) then 550
      else if HasOccupation(drivers, Accountant) then 450
      else 500
  {
  }

  /** The age bands: on any premium of at least 10, ages 21 to 25 raise it,
      26 to 75 lower it, and every other age leaves it unchanged. */
  lemma AgeRuleBands(premium: int, age: int)
    requires premium >= 10
    ensures 21 <= age <= 25 ==> AgeAdjusted(premium, age) > premium
    ensures 26 <= age <= 75 ==> AgeAdjusted(premium, age) < premium
    ensures (age < 21 || age > 75) ==> AgeAdjusted(premium, age) == premium
  {
    var q := TruncDiv(premium * 20, 100);
    assert q * 100 > premium * 20 - 100;
    var d := TruncDiv(premium * 10, 100);
    assert d * 100 > premium * 10 - 100;
  }

  /** Ties for youngest do not matter to the age rule: every driver born
      latest has the age YoungestAge uses. */
  lemma YoungestAgeOfAnyLatestBorn(startDate: Date, drivers: seq<Driver>, i: int)
    requires IsLatestBorn(drivers, i)
    ensures YoungestAge(startDate, drivers) == AgeOnDate(drivers[i].dateOfBirth, startDate)
  {
    LatestBornShareBirthDate(drivers, i);
  }

  /** The bounds the console prompt enforces on what reaches Calculate. */
  predicate WithinPromptBounds(drivers: seq<Driver>) {
    1 <= |drivers| <= 5 && forall i :: 0 <= i < |drivers| ==> |drivers[i].claims| <= 5
  }

  lemma {:induction false} TotalClaimsAtMostFivePerDriver(drivers: seq<Driver>)
    requires forall i :: 0 <= i < |drivers| ==> |drivers[i].claims| <= 5
    ensures TotalClaims(drivers) <= 5 * |drivers|
  {
    if drivers != [] {
      var n := |drivers| - 1;
      assert forall i :: 0 <= i < n ==> drivers[..n][i] == drivers[i];
      TotalClaimsAtMostFivePerDriver(drivers[..n]);
    }
  }

  lemma {:induction false} IncreasedTimesMonotone(p: int, q: int, percentage: int, m: nat, n: nat)
    requires 0 <= p <= q && percentage >= 0 && m <= n
    ensures 0 <= IncreasedTimes(p, percentage, m) <= IncreasedTimes(q, percentage, n)
  {
    if m < n {
      IncreasedTimesMonotone(p, q, percentage, m, n - 1);
      AdjustmentDirection(IncreasedTimes(q, percentage, n - 1), percentage);
    } else if n > 0 {
      IncreasedTimesMonotone(p, q, percentage, m - 1, n - 1);
      IncreaseMonotone(IncreasedTimes(p, percentage, m - 1), IncreasedTimes(q, percentage, n - 1), percentage);
    }
  }

  /** Within the prompt's bounds the premium never exceeds 62,846, so no
      `value * percentage` of the calculation leaves the 32-bit range and the
      unbounded integers of this model agree with the source's `int`. */
  lemma PremiumWithinPromptBounds(startDate: Date, drivers: seq<Driver>)
    requires WithinPromptBounds(drivers)
    ensures 1 <= OccupationAdjusted(StartingPoint, drivers) <= 550
    ensures 1 <= AgeAdjusted(OccupationAdjusted(StartingPoint, drivers), YoungestAge(startDate, drivers)) <= 660
    ensures 1 <= Premium(startDate, drivers) <= 62846
  {
    PremiumPositive(startDate, drivers);
    OccupationRulesFromStartingPoint(drivers);
    var afterAge := AgeAdjusted(OccupationAdjusted(StartingPoint, drivers), YoungestAge(startDate, drivers));
    assert afterAge <= 660;
    TotalClaimsAtMostFivePerDriver(drivers);
    var n := RecentClaimCount(startDate, AllClaims(drivers));
    assert n <= 25;
    PremiumClosedForm(startDate, drivers);
    PositiveAfterAgeRule(startDate, drivers);
    IncreasedTimesMonotone(afterAge, 660, 20, n, 25);
    TwentyFiveRecentClaimsFromMaximum();
  }

  lemma TwentyFiveRecentClaimsFromMaximum()
    ensures IncreasedTimes(660, 20, 25) == 62846
  {
    assert IncreasedTimes(660, 20, 1) == 792;
    assert IncreasedTimes(660, 20, 2) == 950;
    assert IncreasedTimes(660, 20, 3) == 1140;
    assert IncreasedTimes(660, 20, 4) == 1368;
    assert IncreasedTimes(660, 20, 5) == 1641;
    assert IncreasedTimes(660, 20, 6) == 1969;
    assert IncreasedTimes(660, 20, 7) == 2362;
    assert IncreasedTimes(660, 20, 8) == 2834;
    assert IncreasedTimes(660, 20, 9) == 3400;
    assert IncreasedTimes(660, 20, 10) == 4080;
    assert IncreasedTimes(660, 20, 11) == 4896;
    assert IncreasedTimes(660, 20, 12) == 5875;
    assert IncreasedTimes(660, 20, 13) == 7050;
    assert IncreasedTimes(660, 20, 14) == 8460;
    assert IncreasedTimes(660, 20, 15) == 10152;
    assert IncreasedTimes(660, 20, 16) == 12182;
    assert IncreasedTimes(660, 20, 17) == 14618;
    assert IncreasedTimes(660, 20, 18) == 17541;
    assert IncreasedTimes(660, 20, 19) == 21049;
    assert IncreasedTimes(660, 20, 20) == 25258;
    assert IncreasedTimes(660, 20, 21) == 30309;
    assert IncreasedTimes(660, 20, 22) == 36370;
    assert IncreasedTimes(660, 20, 23) == 43644;
    assert IncreasedTimes(660, 20, 24) == 52372;
    assert IncreasedTimes(660, 20, 25) == 62846;
  }

  lemma PositiveAfterAgeRule(startDate: Date, drivers: seq<Driver>)
    requires |drivers| > 0
    ensures AgeAdjusted(OccupationAdjusted(StartingPoint, drivers), YoungestAge(startDate, drivers)) >= 0
  {
    OccupationRulesFromStartingPoint(drivers);
  }
}
