/** The policy snapshot both rule sets read: drivers (InsuranceCalculation/Driver.cs)
    and claims (InsuranceCalculation/Claim.cs), and the LINQ selections over the
    driver list that both rule sets share. */
module Policy {
  import opened Dates

  datatype Option<T> = None | Some(value: T)

  datatype Occupation = Chauffeur | Accountant

  datatype Claim = Claim(date: Date)

  /** A null Name in the source is the empty string here (C# `"..." + null` appends nothing). */
  datatype Driver = Driver(name: string, occupation: Occupation, dateOfBirth: Date, claims: seq<Claim>)

  /** Driver `i` has the latest date of birth on the policy. */
  predicate IsLatestBorn(drivers: seq<Driver>, i: int) {
    0 <= i < |drivers| &&
    forall j :: 0 <= j < |drivers| ==> AtOrBefore(drivers[j].dateOfBirth, drivers[i].dateOfBirth)
  }

  /** Driver `i` has the earliest date of birth on the policy. */
  predicate IsEarliestBorn(drivers: seq<Driver>, i: int) {
    0 <= i < |drivers| &&
    forall j :: 0 <= j < |drivers| ==> AtOrBefore(drivers[i].dateOfBirth, drivers[j].dateOfBirth)
  }

  /** `drivers.OrderByDescending(d => d.DateOfBirth).First()`: the sort is stable,
      so the youngest driver is the first, in input order, of those born latest. */
  function YoungestIndex(drivers: seq<Driver>): (i: nat)
    requires |drivers| > 0
    ensures IsLatestBorn(drivers, i)
    ensures forall j :: 0 <= j < i ==> Before(drivers[j].dateOfBirth, drivers[i].dateOfBirth)
  {
    if |drivers| == 1 then 0
    else
      var k := YoungestIndex(drivers[..|drivers| - 1]);
      if Before(drivers[k].dateOfBirth, drivers[|drivers| - 1].dateOfBirth) then |drivers| - 1 else k
  }

  /** `drivers.OrderBy(d => d.DateOfBirth).First()`: the first, in input order,
      of those born earliest. */
  function OldestIndex(drivers: seq<Driver>): (i: nat)
    requires |drivers| > 0
    ensures IsEarliestBorn(drivers, i)
    ensures forall j :: 0 <= j < i ==> Before(drivers[i].dateOfBirth, drivers[j].dateOfBirth)
  {
    if |drivers| == 1 then 0
    else
      var k := OldestIndex(drivers[..|drivers| - 1]);
      if Before(drivers[|drivers| - 1].dateOfBirth, drivers[k].dateOfBirth) then |drivers| - 1 else k
  }

  /** The stable sort picks exactly one driver: any latest-born driver with
      no latest-born driver ahead of it is the one YoungestIndex returns. */
  lemma YoungestIndexUnique(drivers: seq<Driver>, i: int)
    requires IsLatestBorn(drivers, i)
    requires forall j :: 0 <= j < i ==> Before(drivers[j].dateOfBirth, drivers[i].dateOfBirth)
    ensures YoungestIndex(drivers) == i
  {
  }

  lemma OldestIndexUnique(drivers: seq<Driver>, i: int)
    requires IsEarliestBorn(drivers, i)
    requires forall j :: 0 <= j < i ==> Before(drivers[i].dateOfBirth, drivers[j].dateOfBirth)
    ensures OldestIndex(drivers) == i
  {
  }

  /** All latest-born drivers share one date of birth, so any of them has
      the selected youngest driver's age. */
  lemma LatestBornShareBirthDate(drivers: seq<Driver>, i: int)
    requires IsLatestBorn(drivers, i)
    ensures drivers[i].dateOfBirth == drivers[YoungestIndex(drivers)].dateOfBirth
  {
  }

  lemma EarliestBornShareBirthDate(drivers: seq<Driver>, i: int)
    requires IsEarliestBorn(drivers, i)
    ensures drivers[i].dateOfBirth == drivers[OldestIndex(drivers)].dateOfBirth
  {
  }

  /** The sum of the drivers' claim counts, first driver first. */
  function ClaimCount(drivers: seq<Driver>): nat {
    if drivers == [] then 0 else |drivers[0].claims| + ClaimCount(drivers[1..])
  }

  lemma {:induction false} ClaimCountAppend(a: seq<Driver>, b: seq<Driver>)
    ensures ClaimCount(a + b) == ClaimCount(a) + ClaimCount(b)
  {
    if a == [] {
      assert a + b == b;
    } else {
      assert (a + b)[1..] == a[1..] + b;
      ClaimCountAppend(a[1..], b);
    }
  }

  /** `drivers.SelectMany(d => d.Claims)`: every claim on the policy, driver by
      driver, each as often as it occurs, so its length is the sum of the
      drivers' claim counts. */
  function AllClaims(drivers: seq<Driver>): (cs: seq<Claim>)
    ensures |cs| == ClaimCount(drivers)
    ensures forall i, c :: 0 <= i < |drivers| && c in drivers[i].claims ==> c in cs
    ensures forall c :: c in cs ==> exists i :: 0 <= i < |drivers| && c in drivers[i].claims
  {
    if drivers == [] then []
    else
      var n := |drivers| - 1;
      assert drivers == drivers[..n] + [drivers[n]];
      ClaimCountAppend(drivers[..n], [drivers[n]]);
      AllClaims(drivers[..n]) + drivers[n].claims
  }

  /** `drivers.SelectMany(d => d.Claims).Count()`. */
  function TotalClaims(drivers: seq<Driver>): (n: nat)
    ensures n == ClaimCount(drivers)
  {
    |AllClaims(drivers)|
  }

  /** The total is the sum of the drivers' claim counts, so it is at least
      any one driver's count, and it is that count when every other driver
      has none. */
  lemma {:induction false} TotalClaimsBounds(drivers: seq<Driver>, i: int)
    requires 0 <= i < |drivers|
    ensures TotalClaims(drivers) >= |drivers[i].claims|
    ensures TotalClaims(drivers) == |drivers[i].claims| <==>
      forall j :: 0 <= j < |drivers| && j != i ==> |drivers[j].claims| == 0
  {
    var n := |drivers| - 1;
    var front := drivers[..n];
    assert TotalClaims(drivers) == TotalClaims(front) + |drivers[n].claims|;
    if i == n {
      TotalClaimsZero(front);
      assert forall j :: 0 <= j < |front| ==> front[j] == drivers[j];
    } else {
      TotalClaimsBounds(front, i);
      assert forall j :: 0 <= j < |front| ==> front[j] == drivers[j];
    }
  }

  /** No claims in total exactly when no driver has a claim. */
  lemma {:induction false} TotalClaimsZero(drivers: seq<Driver>)
    ensures TotalClaims(drivers) == 0 <==> forall j :: 0 <= j < |drivers| ==> |drivers[j].claims| == 0
  {
    if drivers != [] {
      var n := |drivers| - 1;
      TotalClaimsZero(drivers[..n]);
      assert forall j :: 0 <= j < n ==> drivers[..n][j] == drivers[j];
    }
  }

  /** `drivers.FirstOrDefault(d => d.Claims.Count() > 2)`, as an index. */
  function FirstWithMoreThanTwoClaims(drivers: seq<Driver>): (r: Option<nat>)
    ensures r.Some? ==> r.value < |drivers| && |drivers[r.value].claims| > 2
    ensures r.Some? ==> forall j :: 0 <= j < r.value ==> |drivers[j].claims| <= 2
    ensures r.None? <==> forall j :: 0 <= j < |drivers| ==> |drivers[j].claims| <= 2
  {
    if drivers == [] then None
    else if |drivers[0].claims| > 2 then Some(0)
    else
      match FirstWithMoreThanTwoClaims(drivers[1..])
      case None => None
      case Some(k) => Some(k + 1)
  }

  /** `drivers.Any(d => d.Occupation == occupation)`: some driver on the
      policy has that occupation, so never on an empty policy. */
  predicate HasOccupation(drivers: seq<Driver>, occupation: Occupation): (has: bool)
    ensures has <==> exists d :: d in drivers && d.occupation == occupation
    ensures has ==> |drivers| > 0
  {
    exists i :: 0 <= i < |drivers| && drivers[i].occupation == occupation
  }
}
