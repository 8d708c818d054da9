# Insurance premium quote — a Dafny model

This project models the business rules of a small motor-insurance quoting program. A policy is a start date and a list of drivers. Each driver has a name, an occupation (Chauffeur or Accountant), a date of birth and a list of claims, and each claim has a date.

- **Decline rules** (`DeclineRules`) run five checks in a fixed order. The first check that fails declines the policy, and the reason is returned as a `DeclineReason` value. The checks are:
  1. the start date is before today;
  2. the youngest driver is under 21;
  3. the oldest driver is over 75;
  4. there are more than 3 claims in total;
  5. some driver has more than 2 claims.
- **Premium calculation** (`PremiumCalculation`) starts from 500 and applies truncating percentage changes in this order:
  1. +10% if any driver is a Chauffeur, then −10% if any driver is an Accountant;
  2. +20% or −10% depending on the youngest driver's age band;
  3. +20% for every claim dated within a year before the start date or later.
- **Age arithmetic** (`Dates`) counts the whole years from a date of birth to a reference date. A 29 February birthday falls on 28 February in a non-leap year, as `DateTime.AddYears` does it.
- **Percentages** (`Percentages`) compute `v ± v*p/100` with C#'s division, which truncates toward zero.

`Policy` holds the datatypes and the LINQ selections that both rule sets share:
- the youngest and oldest driver, picked by a stable sort followed by `First()`;
- all claims (`SelectMany`);
- the first driver with more than two claims (`FirstOrDefault`).

`Scenarios` restates the repository's unit test as a lemma and states some worked quotes as lemmas.

The rule methods of the premium calculation pass the running premium along, as the source's `ref int` parameter does. `DriverClaimsRules` keeps the source's nested loops over drivers and claims. Each method is proved equal to a pure fold (`ChauffeurAdjusted` … `Premium`), and the properties are proved about that fold.

Modelling notes:
- **The +10% claims branch never fires.** Its condition is `date >= start−2y && date <= start−5y`, and start−5y is always earlier than start−2y, so no date can satisfy it. The model keeps the comparison exactly as written (`InTwoToFiveYearWindow`) and proves it unsatisfiable (`TwoToFiveYearWindowIsEmpty`). So the claims stage depends only on how many claims are recent (`PremiumClosedForm`).
- **Rule 5 only fires in one case.** The total-claims check runs first. So a per-driver decline happens only when one driver has exactly 3 claims and every other driver has none (`DriverReasonNamesSoleClaimant`).
- **The repository's unit test is declined by a different rule than its name suggests.** The test is titled "more than three claims in total". Its drivers keep the default date of birth, `DateTime.MinValue`, so the oldest-driver check declines the policy before the claims checks run (`TwoDefaultDriversWithTwoClaimsEachDeclined`). `TwoAdultDriversWithTwoClaimsEachDeclined` shows the total-claims rule firing.
- **An Accountant aged 30 with no claims pays 405.** The occupation rule and the 26–75 age band each take 10% off: 500 → 450 → 405 (`AccountantAgedThirtyQuote`).
- **The youngest-driver message carries no name.** The doc comment at InsuranceCalculation/DeclineRules.cs:85-86 says the driver's name is appended to "Age of Youngest Driver", but the code at :96 passes the bare text. The model follows the code: `AgeOfYoungestDriver` has no name.
- **Null names.** A driver's name may be null in the source. `"..." + null` appends nothing in C#, so a null name is the empty string here.

## Model

| member | source | states |
|---|---|---|
| Dates.AddYears | InsuranceCalculation/DateTimeExtensions.cs:21 | same month, year moved by n, day clamped to the target month's length (29 Feb → 28 Feb in a non-leap year); valid dates stay valid |
| Dates.AddYearsRoundTrip | InsuranceCalculation/DateTimeExtensions.cs:21 | moving n years and back returns the date, unless a 29 February passed through a non-leap year |
| Dates.AgeOnDate | InsuranceCalculation/DateTimeExtensions.cs:16-29 | age ≥ 0; 0 when the reference year is not after the birth year; otherwise the number of anniversaries reached: the age-th anniversary is on or before the date and the next one is after it |
| Dates.AgeOnDateUnique | InsuranceCalculation/DateTimeExtensions.cs:18-28 | any n ≥ 0 with the anniversary property is the age, so the property fully determines AgeOnDate |
| Dates.AgeOnDateYearDifference | InsuranceCalculation/DateTimeExtensions.cs:18-21 | the source's formula restated for reference: for a later reference year, the age is the year difference, minus 1 before that year's anniversary |
| Dates.AgeOnAnniversary | InsuranceCalculation/DateTimeExtensions.cs:21 | on the n-th anniversary the age is exactly n |
| Dates.AgeBeforeAnniversary | InsuranceCalculation/DateTimeExtensions.cs:21 | in the anniversary year but before the anniversary, the age is n − 1 |
| Dates.UnderAgeBeforeAnniversary | InsuranceCalculation/DateTimeExtensions.cs:18-28 | for n ≥ 1, the age is below n exactly when the date is before the n-th anniversary |
| Dates.AgeOnDateMonotone | InsuranceCalculation/DateTimeExtensions.cs:18-28 | a later reference date never gives a smaller age |
| Dates.LeapDayBirthday | InsuranceCalculation/DateTimeExtensions.cs:21 | a 29 February birthday is reached on 28 February of a non-leap year (not on the 27th); in a leap year 28 February is still before it; by 1 March it is reached in every year |
| Percentages.TruncDiv | InsuranceCalculation/IntExtensions.cs:16 | C# integer division: the remainder has the dividend's sign and is smaller than the divisor |
| Percentages.IncreasePercentage | InsuranceCalculation/IntExtensions.cs:14-17 | v plus v·p/100 truncated, i.e. v·(100+p)/100 rounded toward v: down when v·p ≥ 0, up when v·p < 0 |
| Percentages.DecreasePercentage | InsuranceCalculation/IntExtensions.cs:25-28 | when v·p ≥ 0 the result is v·(100−p)/100 rounded up, that is v minus the truncated cut; the mirror image when v·p < 0 |
| Percentages.ZeroPercentageIsIdentity | InsuranceCalculation/IntExtensions.cs:14-28 | 0% leaves the value unchanged, both ways |
| Percentages.AdjustmentDirection | InsuranceCalculation/IntExtensions.cs:14-28 | for v, p ≥ 0: increase gives ≥ v, decrease gives ≤ v |
| Percentages.IncreaseMonotone | InsuranceCalculation/IntExtensions.cs:14-17 | increase preserves the order of non-negative values |
| Percentages.DecreaseKeepsSign | InsuranceCalculation/IntExtensions.cs:25-28 | for v ≥ 1 and 0 ≤ p ≤ 100 the decrease is ≥ 0, and for p = 10 it is ≥ 1 |
| Percentages.AdjustmentIsOdd | InsuranceCalculation/IntExtensions.cs:14-28 | adjusting −v gives the negation of adjusting v (the truncating division at work) |
| Percentages.IncreaseThenDecreaseTen | InsuranceCalculation/IntExtensions.cs:14-28 | 500 + 10% = 550 and 550 − 10% = 495 |
| Policy.YoungestIndex | InsuranceCalculation/DeclineRules.cs:93 | the chosen driver has the latest date of birth, and every driver ahead of it was born strictly earlier (stable sort, then First) |
| Policy.OldestIndex | InsuranceCalculation/DeclineRules.cs:75 | the chosen driver has the earliest date of birth, and every driver ahead of it was born strictly later |
| Policy.YoungestIndexUnique | InsuranceCalculation/DeclineRules.cs:93 | exactly one driver meets YoungestIndex's characterisation |
| Policy.OldestIndexUnique | InsuranceCalculation/DeclineRules.cs:75 | exactly one driver meets OldestIndex's characterisation |
| Policy.LatestBornShareBirthDate | InsuranceCalculation/PremiumCalculation.cs:62-63 | every latest-born driver has the selected youngest driver's date of birth, so ties do not change the age used |
| Policy.EarliestBornShareBirthDate | InsuranceCalculation/DeclineRules.cs:75-76 | every earliest-born driver has the selected oldest driver's date of birth |
| Policy.AllClaims | InsuranceCalculation/DeclineRules.cs:38 | a claim is in the result exactly when it belongs to some driver, and the length is the sum of the drivers' claim counts (ClaimCount, summed first driver first) |
| Policy.ClaimCountAppend | InsuranceCalculation/DeclineRules.cs:38 | the claim count of two driver lists joined is the sum of their counts |
| Policy.TotalClaims | InsuranceCalculation/DeclineRules.cs:38 | the number of claims on the policy is the sum of the drivers' claim counts |
| Policy.TotalClaimsBounds | InsuranceCalculation/DeclineRules.cs:38 | the total is at least any one driver's count, and equal to it exactly when every other driver has no claims |
| Policy.TotalClaimsZero | InsuranceCalculation/DeclineRules.cs:38 | the total is 0 exactly when no driver has a claim |
| Policy.FirstWithMoreThanTwoClaims | InsuranceCalculation/DeclineRules.cs:56 | returns the first driver, in input order, with more than 2 claims; None exactly when every driver has at most 2 |
| Policy.HasOccupation | InsuranceCalculation/PremiumCalculation.cs:93-106 | true exactly when some driver on the policy has the occupation, hence never for an empty policy |
| DeclineRules.StartDateBeforeToday | InsuranceCalculation/DeclineRules.cs:107-115 | declines exactly when today is strictly after the start date; a policy starting today passes |
| DeclineRules.YoungestDriverIsUnderAge | InsuranceCalculation/DeclineRules.cs:91-100 | the stable-selected youngest driver has not reached their 21st birthday on the start date |
| DeclineRules.OldestDriverIsOver75 | InsuranceCalculation/DeclineRules.cs:73-82 | returns the stable-selected oldest driver's name exactly when that driver's 76th birthday is on or before the start date |
| DeclineRules.TotalNumberOfClaimsExceedsThree | InsuranceCalculation/DeclineRules.cs:36-45 | true exactly when the drivers' claim counts add up to more than 3 |
| DeclineRules.AnyDriverHasMoreThanTwoClaims | InsuranceCalculation/DeclineRules.cs:54-64 | None exactly when every driver has at most 2 claims; otherwise the name of the first driver, in input order, with more than 2 |
| DeclineRules.Message | InsuranceCalculation/DeclineRules.cs:36-115 | the reason text; the two named reasons end with the driver's name |
| DeclineRules.MessageIdentifiesReason | InsuranceCalculation/DeclineRules.cs:36-115 | different reasons (or different names) print different messages |
| DeclineRules.Evaluate | InsuranceCalculation/DeclineRules.cs:18-27 | defined for an empty driver list when the start date has passed; each reason is returned exactly when the earlier checks pass and its own condition holds: start before today; a latest-born driver under 21; an earliest-born driver over 75; total claims > 3; a driver with > 2 claims |
| DeclineRules.IsDeclined | InsuranceCalculation/DeclineRules.cs:18-27 | false exactly when: start ≥ today, latest-born drivers are ≥ 21, earliest-born drivers are ≤ 75, total claims ≤ 3, and every driver has ≤ 2 claims (so 21, 75 and 3 pass) |
| DeclineRules.YoungestSelectionDecides | InsuranceCalculation/DeclineRules.cs:91-100 | the selected youngest driver is under 21 exactly when some latest-born driver is |
| DeclineRules.OldestSelectionDecides | InsuranceCalculation/DeclineRules.cs:73-82 | the selected oldest driver is over 75 exactly when some earliest-born driver is |
| DeclineRules.OldestReasonNamesOldestDriver | InsuranceCalculation/DeclineRules.cs:73-82 | an oldest-driver decline names an earliest-born driver over 75 that has no earliest-born driver ahead of it |
| DeclineRules.DriverReasonNamesSoleClaimant | InsuranceCalculation/DeclineRules.cs:36-64 | a per-driver-claims decline names the first driver with > 2 claims; that driver has exactly 3 claims and every other driver has none |
| PremiumCalculation.ChauffeurRule | InsuranceCalculation/PremiumCalculation.cs:104-110 | returns ChauffeurAdjusted: +10% when a driver is a Chauffeur |
| PremiumCalculation.AccountantRule | InsuranceCalculation/PremiumCalculation.cs:91-97 | returns AccountantAdjusted: −10% when a driver is an Accountant |
| PremiumCalculation.DriverOccupationRules | InsuranceCalculation/PremiumCalculation.cs:80-84 | returns OccupationAdjusted: the chauffeur rule, then the accountant rule |
| PremiumCalculation.DriverAgeRules | InsuranceCalculation/PremiumCalculation.cs:60-73 | returns AgeAdjusted at the youngest driver's age on the start date |
| PremiumCalculation.DriverClaimsRules | InsuranceCalculation/PremiumCalculation.cs:34-50 | the nested loops over drivers with claims and their claims compute the DriversClaimsAdjusted fold |
| PremiumCalculation.Calculate | InsuranceCalculation/PremiumCalculation.cs:17-25 | returns Premium (500, then occupation, then age, then claims), and the result is ≥ 1 |
| PremiumCalculation.TwoToFiveYearWindowIsEmpty | InsuranceCalculation/PremiumCalculation.cs:44-47 | no claim date satisfies `date >= start−2y && date <= start−5y`, so the +10% branch is dead |
| PremiumCalculation.ClaimsAdjustedCountsRecentClaims | InsuranceCalculation/PremiumCalculation.cs:38-48 | a driver's claims apply +20% once per claim dated on or after start − 1 year (future dates included) and nothing else |
| PremiumCalculation.DriversClaimsCountRecentClaims | InsuranceCalculation/PremiumCalculation.cs:34-50 | the claims stage applies +20% once per recent claim among all the policy's claims |
| PremiumCalculation.PremiumClosedForm | InsuranceCalculation/PremiumCalculation.cs:17-25 | premium = (+20%)^k applied to AgeAdjusted(OccupationAdjusted(500)), where k is the number of recent claims |
| PremiumCalculation.RulesKeepPositive | InsuranceCalculation/PremiumCalculation.cs:19-22 | each rule stage keeps a premium ≥ 1 at ≥ 1 |
| PremiumCalculation.PremiumPositive | InsuranceCalculation/PremiumCalculation.cs:17-25 | the premium is ≥ 1 |
| PremiumCalculation.OccupationRulesFromStartingPoint | InsuranceCalculation/PremiumCalculation.cs:80-110 | from 500: both occupations give 495 (550 then −10%), Chauffeur only 550, Accountant only 450, neither 500 |
| PremiumCalculation.AgeRuleBands | InsuranceCalculation/PremiumCalculation.cs:60-73 | on a premium ≥ 10: ages 21–25 raise it, 26–75 lower it, and every other age leaves it unchanged |
| PremiumCalculation.YoungestAgeOfAnyLatestBorn | InsuranceCalculation/PremiumCalculation.cs:62-63 | the age rule uses the age of any driver born latest |
| PremiumCalculation.PremiumWithinPromptBounds | InsuranceCalculation/PremiumCalculation.cs:17-25 | with 1–5 drivers and at most 5 claims each: at most 550 after the occupation rules, at most 660 after the age rule, and at most 62846 at the end, so `value * percentage` stays within 32 bits |
| Scenarios.TwoDefaultDriversWithTwoClaimsEachDeclined | InsuranceCalculationTests/DeclineRulesTests.cs:19-50 | two default drivers with two claims each, starting today, are declined (by the oldest-driver check) |
| Scenarios.EmptyPolicyStartingInThePastDeclined | InsuranceCalculation/DeclineRules.cs:20 | with no drivers and a past start date the policy is declined by the start-date check, before any `First()` |
| Scenarios.TwoAdultDriversWithTwoClaimsEachDeclined | InsuranceCalculation/DeclineRules.cs:36-45 | four claims in total decline with "more than 3 claims" although no driver has more than 2 |
| Scenarios.DriverWithThreeClaimsDeclinedByName | InsuranceCalculation/DeclineRules.cs:54-64 | one driver "Alice" with 3 claims passes the total check and is declined by name |
| Scenarios.AgeBoundariesPass | InsuranceCalculation/DeclineRules.cs:73-100 | drivers exactly 21 and exactly 75 on the start date are not declined |
| Scenarios.YoungestOneDayUnder21Declined | InsuranceCalculation/DeclineRules.cs:91-100 | a driver one day short of 21 is declined for age |
| Scenarios.AccountantAgedThirtyQuote | InsuranceCalculation/PremiumCalculation.cs:17-25 | an Accountant aged 30 with no claims is accepted and pays 500 → 450 → 405 |
| Scenarios.ChauffeurAgedTwentyTwoQuote | InsuranceCalculation/PremiumCalculation.cs:17-25 | a Chauffeur aged 22 with one claim three months earlier is accepted and pays 500 → 550 → 660 → 792 |

## Left out

- The console program (InsuranceCalculation/Program.cs) is not modelled: prompting, retries and printing are I/O. Its input bounds appear only as `WithinPromptBounds`. `First()` throws on an empty driver list, and the prompt accepts 0 drivers. So the decline rules require a non-empty list only when the start date is not in the past; with a past start date an empty list is declined before any `First()` runs. The premium calculation (`Calculate`) always requires a non-empty list.
- Parsing `DD/MM/YYYY` text (InsuranceCalculation/StringExtensions.cs) is not modelled. It is culture-dependent library behaviour. Dates arrive as `(year, month, day)` values.
- The decline message printing (`declineMessage`) is replaced by the returned `DeclineReason` and its `Message` text.
- `DateTime.Today` is a clock read. It is the `today` parameter.
- Time of day and ticks are not modelled. Every date comes from day-level parsing, so dates compare at day granularity.
- Percentages.IncreasePercentage: does not model 32-bit wrap-around of `value * percentage` or of the sum. For inputs the prompt accepts, `PremiumWithinPromptBounds` bounds the premium by 550 after the occupation rules, by 660 after the age rule and by 62846 at the end. The claims stage only increases the premium (`IncreasedTimesMonotone`), so every intermediate value is at most 62846 and every `value * percentage` stays within 32 bits.
- Percentages.DecreasePercentage: does not model 32-bit wrap-around, for the same reason.
- Dates.AddYears: does not model the `ArgumentOutOfRangeException` .NET throws when the resulting year leaves 1–9999. The model accepts any year. This matters only for start dates in years 1–5, where the claims rule's `AddYears(-5)` would throw.
- Occupation values other than Chauffeur and Accountant are not modelled. The C# enum has only these two.
- Null drivers, null claim lists and re-enumeration of a lazy `IEnumerable` are not modelled. Drivers and claims are finite sequences of values.
