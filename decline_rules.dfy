/** The decline rules of InsuranceCalculation/DeclineRules.cs: five checks run
    in a fixed order, the first that fails declining the policy.  The message
    the source prints is returned as a DeclineReason, and the current date is
    a parameter. */
module DeclineRules {
  import opened Dates
  import opened Policy

  datatype DeclineReason =
    | StartDateOfPolicy
    | AgeOfYoungestDriver
    | AgeOfOldestDriver(driverName: string)
    | PolicyHasMoreThanThreeClaims
    | DriverHasMoreThanTwoClaims(driverName: string)

  /** The reason line the source prints. */
  function Message(reason: DeclineReason): (m: string)
    // the named reasons end with the driver's name
    ensures (reason.AgeOfOldestDriver? || reason.DriverHasMoreThanTwoClaims?) ==>
      |reason.driverName| < |m| && m[|m| - |reason.driverName|..] == reason.driverName
  {
    match reason
    case StartDateOfPolicy => "Start Date of Policy"
    case AgeOfYoungestDriver => "Age of Youngest Driver"
    case AgeOfOldestDriver(name) => "Age of Oldest Driver - " + name
    case PolicyHasMoreThanThreeClaims => "Policy has more than 3 claims."
    case DriverHasMoreThanTwoClaims(name) => "Driver has more than 2 claims - " + name
  }

  /** The printed reason identifies the decline reason, driver name included. */
  lemma MessageIdentifiesReason(a: DeclineReason, b: DeclineReason)
    requires Message(a) == Message(b)
    ensures a == b
  {
    var m := Message(a);
    assert m[0] == Message(b)[0];
    assert |m| > 7 && m[7] == Message(b)[7];
    match a
    case AgeOfOldestDriver(name) =>
      assert name == m[23..];
    case DriverHasMoreThanTwoClaims(name) =>
      assert name == m[32..];
    case _ =>
  }

  /** startDateBeforeToday: a policy may start today but not earlier.  The
      first ensures is the source's `startDate < DateTime.Today` itself; the
      second is the boundary fact that a policy starting today passes. */
  predicate StartDateBeforeToday(startDate: Date, today: Date): (declined: bool)
    ensures declined <==> !AtOrBefore(today, startDate)
    ensures declined ==> startDate != today
  {
    Before(startDate, today)
  }

  /** youngestDriverIsUnderAge: the selected youngest driver has not yet had
      their 21st birthday on the start date. */
  predicate YoungestDriverIsUnderAge(startDate: Date, drivers: seq<Driver>): (under: bool)
    requires |drivers| > 0
    ensures under <==> Before(startDate, AddYears(drivers[YoungestIndex(drivers)].dateOfBirth, 21))
  {
    UnderAgeBeforeAnniversary(drivers[YoungestIndex(drivers)].dateOfBirth, startDate, 21);
    AgeOnDate(drivers[YoungestIndex(drivers)].dateOfBirth, startDate) < 21
  }

  /** oldestDriverIsOver75: the oldest driver's name when that driver has had
      their 76th birthday by the start date. */
  function OldestDriverIsOver75(startDate: Date, drivers: seq<Driver>): (r: Option<string>)
    requires |drivers| > 0
    ensures r.Some? <==> AtOrBefore(AddYears(drivers[OldestIndex(drivers)].dateOfBirth, 76), startDate)
    ensures r.Some? ==> r.value == drivers[OldestIndex(drivers)].name
  {
    var oldest := drivers[OldestIndex(drivers)];
    UnderAgeBeforeAnniversary(oldest.dateOfBirth, startDate, 76);
    if AgeOnDate(oldest.dateOfBirth, startDate) > 75 then Some(oldest.name) else None
  }

  /** totalNumberOfClaimsExceedsThree: the drivers' claim counts add up to more than 3. */
  predicate TotalNumberOfClaimsExceedsThree(drivers: seq<Driver>): (exceeds: bool)
    ensures exceeds <==> ClaimCount(drivers) > 3
  {
    TotalClaims(drivers) > 3
  }

  /** anyDriverHasMoreThanTwoClaims: the first such driver's name when the check fails. */
  function AnyDriverHasMoreThanTwoClaims(drivers: seq<Driver>): (r: Option<string>)
    ensures r.None? <==> forall j :: 0 <= j < |drivers| ==> |drivers[j].claims| <= 2
    ensures r.Some? ==> exists i ::
                          && 0 <= i < |drivers|
                          && |drivers[i].claims| > 2
                          && drivers[i].name == r.value
                          && forall j :: 0 <= j < i ==> |drivers[j].claims| <= 2
  {
    match FirstWithMoreThanTwoClaims(drivers)
    case None => None
    case Some(i) => Some(drivers[i].name)
  }

  // The conditions the five checks stand for, stated over the whole driver list.

  ghost predicate SomeLatestBornUnder21(startDate: Date, drivers: seq<Driver>) {
    exists i :: IsLatestBorn(drivers, i) && AgeOnDate(drivers[i].dateOfBirth, startDate) < 21
  }

  ghost predicate SomeEarliestBornOver75(startDate: Date, drivers: seq<Driver>) {
    exists i :: IsEarliestBorn(drivers, i) && AgeOnDate(drivers[i].dateOfBirth, startDate) > 75
  }

  predicate SomeDriverHasMoreThanTwoClaims(drivers: seq<Driver>) {
    exists i :: 0 <= i < |drivers| && |drivers[i].claims| > 2
  }

  /** The checks of IsDeclined in their order; the first that fails gives the reason. */
  function Evaluate(startDate: Date, today: Date, drivers: seq<Driver>): (r: Option<DeclineReason>)
    // the start-date check runs before any `First()`, so an empty list is fine when it fires
    requires |drivers| > 0 || Before(startDate, today)
    ensures r == Some(StartDateOfPolicy) <==> Before(startDate, today)
    ensures r == Some(AgeOfYoungestDriver) <==>
      !Before(startDate, today) && SomeLatestBornUnder21(startDate, drivers)
    ensures (r.Some? && r.value.AgeOfOldestDriver?) <==>
      !Before(startDate, today) && !SomeLatestBornUnder21(startDate, drivers) &&
      SomeEarliestBornOver75(startDate, drivers)
    ensures r == Some(PolicyHasMoreThanThreeClaims) <==>
      !Before(startDate, today) && !SomeLatestBornUnder21(startDate, drivers) &&
      !SomeEarliestBornOver75(startDate, drivers) && TotalClaims(drivers) > 3
    ensures (r.Some? && r.value.DriverHasMoreThanTwoClaims?) <==>
      !Before(startDate, today) && !SomeLatestBornUnder21(startDate, drivers) &&
      !SomeEarliestBornOver75(startDate, drivers) && TotalClaims(drivers) <= 3 &&
      SomeDriverHasMoreThanTwoClaims(drivers)
  {
    if StartDateBeforeToday(startDate, today) then Some(StartDateOfPolicy)
    else
      YoungestSelectionDecides(startDate, drivers);
      OldestSelectionDecides(startDate, drivers);
      if YoungestDriverIsUnderAge(startDate, drivers) then Some(AgeOfYoungestDriver)
      else if OldestDriverIsOver75(startDate, drivers).Some? then
        Some(AgeOfOldestDriver(OldestDriverIsOver75(startDate, drivers).value))
      else if TotalNumberOfClaimsExceedsThree(drivers) then Some(PolicyHasMoreThanThreeClaims)
      else if AnyDriverHasMoreThanTwoClaims(drivers).Some? then
        Some(DriverHasMoreThanTwoClaims(AnyDriverHasMoreThanTwoClaims(drivers).value))
      else None
  }

  /** `DeclineRules.IsDeclined`: false exactly when none of the five conditions holds. */
  function IsDeclined(startDate: Date, today: Date, drivers: seq<Driver>): (declined: bool)
    requires |drivers| > 0 || Before(startDate, today)
    ensures !declined <==>
      AtOrBefore(today, startDate) &&
      (forall i :: IsLatestBorn(drivers, i) ==> AgeOnDate(drivers[i].dateOfBirth, startDate) >= 21) &&
      (forall i :: IsEarliestBorn(drivers, i) ==> AgeOnDate(drivers[i].dateOfBirth, startDate) <= 75) &&
      TotalClaims(drivers) <= 3 &&
      (forall i :: 0 <= i < |drivers| ==> |drivers[i].claims| <= 2)
  {
    Evaluate(startDate, today, drivers).Some?
  }

  /** The selected youngest driver is under 21 exactly when some latest-born driver is. */
  lemma YoungestSelectionDecides(startDate: Date, drivers: seq<Driver>)
    requires |drivers| > 0
    ensures YoungestDriverIsUnderAge(startDate, drivers) <==> SomeLatestBornUnder21(startDate, drivers)
  {
    if SomeLatestBornUnder21(startDate, drivers) {
      var i :| IsLatestBorn(drivers, i) && AgeOnDate(drivers[i].dateOfBirth, startDate) < 21;
      LatestBornShareBirthDate(drivers, i);
    }
  }

  lemma OldestSelectionDecides(startDate: Date, drivers: seq<Driver>)
    requires |drivers| > 0
    ensures OldestDriverIsOver75(startDate, drivers).Some? <==> SomeEarliestBornOver75(startDate, drivers)
  {
    if SomeEarliestBornOver75(startDate, drivers) {
      var i :| IsEarliestBorn(drivers, i) && AgeOnDate(drivers[i].dateOfBirth, startDate) > 75;
      EarliestBornShareBirthDate(drivers, i);
    }
  }

  /** An "Age of Oldest Driver" decline names the driver the stable sort puts
      first: born earliest, and first in input order among those. */
  lemma OldestReasonNamesOldestDriver(startDate: Date, today: Date, drivers: seq<Driver>, name: string)
    requires |drivers| > 0
    requires Evaluate(startDate, today, drivers) == Some(AgeOfOldestDriver(name))
    ensures exists i ::
              && IsEarliestBorn(drivers, i)
              && (forall j :: 0 <= j < i ==> Before(drivers[i].dateOfBirth, drivers[j].dateOfBirth))
              && drivers[i].name == name
              && AgeOnDate(drivers[i].dateOfBirth, startDate) > 75
  {
    var i := OldestIndex(drivers);
    assert drivers[i].name == name;
  }

  /** A "Driver has more than 2 claims" decline names the first such driver in
      input order.  Because the total-claims check ran first, that driver has
      exactly 3 claims and every other driver has none. */
  lemma DriverReasonNamesSoleClaimant(startDate: Date, today: Date, drivers: seq<Driver>, name: string)
    requires |drivers| > 0
    requires Evaluate(startDate, today, drivers) == Some(DriverHasMoreThanTwoClaims(name))
    ensures exists i ::
              && 0 <= i < |drivers|
              && drivers[i].name == name
              && |drivers[i].claims| == 3
              && (forall j :: 0 <= j < i ==> |drivers[j].claims| <= 2)
              && (forall j :: 0 <= j < |drivers| && j != i ==> |drivers[j].claims| == 0)
  {
    var i := FirstWithMoreThanTwoClaims(drivers).value;
    TotalClaimsBounds(drivers, i);
    assert drivers[i].name == name;
  }
}
