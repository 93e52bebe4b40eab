/** The two fixed time-of-use schedules of the legacy calculator (`useEnergyCalculator`): the
    season flags it derives from the month, and `getRateDetails` / `getRateDetails2`, which put
    an hour into a tier and price it. Summer, spring and winter each have their own windows. */
module EnergyRates {

  /** The tier an hour falls in. */
  datatype Tier = SuperOffPeak | OnPeak | OffPeak

  /** `rate_tier` as the first schedule spells it. */
  function Tier1Label(t: Tier): string {
    match t
    case SuperOffPeak => "Super-Off-Peak"
    case OnPeak => "On-Peak"
    case OffPeak => "Off-Peak"
  }

  /** `rate_tier` as the second schedule spells it. */
  function Tier2Label(t: Tier): string {
    match t
    case SuperOffPeak => "Super Off-Peak"
    case OnPeak => "On-Peak"
    case OffPeak => "Off-Peak"
  }

  /** `{ rate, rate_tier }`. */
  datatype RateDetails = RateDetails(rate: real, tier: Tier)

  /** The flags `processData` derives from the 0-based month: summer is June to October, spring
      is March and April. */
  datatype SeasonFlags = SeasonFlags(isSummer: bool, isSpring: bool)

  function SeasonFlagsOf(month: int): (f: SeasonFlags)
    ensures f.isSummer <==> month in {5, 6, 7, 8, 9}
    ensures f.isSpring <==> month in {2, 3}
    ensures !(f.isSummer && f.isSpring)
  {
    SeasonFlags(month >= 5 && month <= 9, month >= 2 && month < 4)
  }

  /** The season a row is grouped under: summer, or winter for every other month (spring
      included). */
  function SeasonLabel(isSummer: bool): (s: string)
    ensures |s| == 6
  {
    if isSummer then "Summer" else "Winter"
  }

  // ---------------------------------------------------------------------------------------
  // the schedules as written

  /** `getRateDetails`. */
  function GetRateDetails(hour: int, isWeekend: bool, isSummer: bool, isSpring: bool): (r: RateDetails)
    ensures r.tier == TierOf(hour, isWeekend, isSummer, isSpring)
    ensures r.rate == Rate1(isSummer || isSpring, r.tier)
  {
    if isSummer then
      if hour >= 0 && hour < 6 then RateDetails(0.12017, SuperOffPeak)
      else if hour >= 16 && hour < 21 then RateDetails(0.71106, OnPeak)
      else if isWeekend && hour >= 0 && hour < 14 then RateDetails(0.12017, SuperOffPeak)
      else RateDetails(0.4546, OffPeak)
    else if isSpring then
      if (hour >= 0 && hour < 6) || (hour >= 10 && hour < 15) then RateDetails(0.12017, SuperOffPeak)
      else if hour >= 16 && hour < 21 then RateDetails(0.71106, OnPeak)
      else if isWeekend && hour >= 0 && hour < 14 then RateDetails(0.12017, SuperOffPeak)
      else RateDetails(0.4546, OffPeak)
    else
      if hour >= 0 && hour < 6 then RateDetails(0.11381, SuperOffPeak)
      else if isWeekend && hour >= 0 && hour < 14 then RateDetails(0.11381, SuperOffPeak)
      else if !isWeekend && hour >= 10 && hour < 14 then RateDetails(0.11381, SuperOffPeak)
      else if hour >= 16 && hour < 21 then RateDetails(0.47772, OnPeak)
      else RateDetails(0.42893, OffPeak)
  }

  /** `getRateDetails2`, the schedule with the rates effective February 1, 2025. */
  function GetRateDetails2(hour: int, isWeekend: bool, isSummer: bool, isSpring: bool): (r: RateDetails)
    ensures r.tier == TierOf(hour, isWeekend, isSummer, isSpring)
    ensures r.rate == Rate2(isSummer, r.tier)
  {
    if isSummer then
      if isWeekend && hour >= 0 && hour < 14 then RateDetails(0.34812, SuperOffPeak)
      else if hour >= 0 && hour < 6 then RateDetails(0.34812, SuperOffPeak)
      else if hour >= 16 && hour < 21 then RateDetails(0.71412, OnPeak)
      else RateDetails(0.47416, OffPeak)
    else if isSpring then
      if isWeekend && hour >= 0 && hour < 14 then RateDetails(0.47999, SuperOffPeak)
      else if (hour >= 0 && hour < 6) || (hour >= 10 && hour < 15) then RateDetails(0.47999, SuperOffPeak)
      else if hour >= 16 && hour < 21 then RateDetails(0.56348, OnPeak)
      else RateDetails(0.49877, OffPeak)
    else
      if hour >= 0 && hour < 6 then RateDetails(0.47999, SuperOffPeak)
      else if isWeekend && hour >= 0 && hour < 14 then RateDetails(0.47999, SuperOffPeak)
      else if !isWeekend && hour >= 10 && hour < 14 then RateDetails(0.47999, SuperOffPeak)
      else if hour >= 16 && hour < 21 then RateDetails(0.56348, OnPeak)
      else RateDetails(0.49877, OffPeak)
  }

  // ---------------------------------------------------------------------------------------
  // the schedules as windows and price tables

  /** The tier of an hour, stated as windows that do not depend on the order of the tests:
      on-peak from 16 to 20; super-off-peak before 6, on weekend mornings before 14, from 10
      to 14 on spring days, and from 10 to 13 on winter weekdays; off-peak otherwise. A summer
      month is never treated as spring. */
  function TierOf(hour: int, isWeekend: bool, isSummer: bool, isSpring: bool): Tier {
    var spring := !isSummer && isSpring;
    var winter := !isSummer && !isSpring;
    if 16 <= hour < 21 then OnPeak
    else if (0 <= hour < 6) || (isWeekend && 0 <= hour < 14)
            || (spring && 10 <= hour < 15) || (winter && !isWeekend && 10 <= hour < 14)
    then SuperOffPeak
    else OffPeak
  }

  /** The first schedule's prices: one table for summer and spring, another for winter. */
  function Rate1(summerOrSpring: bool, t: Tier): real {
    match t
    case SuperOffPeak => if summerOrSpring then 0.12017 else 0.11381
    case OnPeak => if summerOrSpring then 0.71106 else 0.47772
    case OffPeak => if summerOrSpring then 0.4546 else 0.42893
  }

  /** The second schedule's prices: one table for summer, another for spring and winter. */
  function Rate2(isSummer: bool, t: Tier): real {
    match t
    case SuperOffPeak => if isSummer then 0.34812 else 0.47999
    case OnPeak => if isSummer then 0.71412 else 0.56348
    case OffPeak => if isSummer then 0.47416 else 0.49877
  }

  // ---------------------------------------------------------------------------------------
  // properties

  /** Both schedules put every hour into the same tier; they differ only in price, so
      `rate_difference` depends on the season and the tier alone. */
  lemma SchedulesAgreeOnTier(hour: int, isWeekend: bool, isSummer: bool, isSpring: bool)
    ensures GetRateDetails(hour, isWeekend, isSummer, isSpring).tier
            == GetRateDetails2(hour, isWeekend, isSummer, isSpring).tier
    ensures GetRateDetails2(hour, isWeekend, isSummer, isSpring).rate
            - GetRateDetails(hour, isWeekend, isSummer, isSpring).rate
            == Rate2(isSummer, TierOf(hour, isWeekend, isSummer, isSpring))
               - Rate1(isSummer || isSpring, TierOf(hour, isWeekend, isSummer, isSpring))
  {
  }

  /** Spring adds a super-off-peak window from 10 to 14 on every day, where a winter weekday
      stops at 13 and a winter weekend afternoon is off-peak. */
  lemma SpringMiddayWindow(isWeekend: bool)
    ensures GetRateDetails(14, isWeekend, false, true) == RateDetails(0.12017, SuperOffPeak)
    ensures GetRateDetails2(14, isWeekend, false, true) == RateDetails(0.47999, SuperOffPeak)
    ensures GetRateDetails(14, isWeekend, false, false) == RateDetails(0.42893, OffPeak)
    ensures GetRateDetails2(14, isWeekend, false, false) == RateDetails(0.49877, OffPeak)
    ensures GetRateDetails(10, false, false, false) == RateDetails(0.11381, SuperOffPeak)
  {
  }

  /** The evening peak is the dearest tier of each schedule in every season, and every price is
      positive. */
  lemma OnPeakDearest(summerOrSpring: bool, isSummer: bool, t: Tier)
    ensures Rate1(summerOrSpring, t) <= Rate1(summerOrSpring, OnPeak)
    ensures Rate2(isSummer, t) <= Rate2(isSummer, OnPeak)
    ensures Rate1(summerOrSpring, t) > 0.0 && Rate2(isSummer, t) > 0.0
  {
  }

  /** Exhaustively over a day: from 16 to 20 is on-peak in every season and on every day, and
      hours before 6 are super-off-peak; a summer weekday has no midday window. */
  lemma DayShape(hour: int, isWeekend: bool, isSummer: bool, isSpring: bool)
    requires 0 <= hour < 24
    ensures 16 <= hour < 21 <==> GetRateDetails(hour, isWeekend, isSummer, isSpring).tier == OnPeak
    ensures hour < 6 ==> GetRateDetails(hour, isWeekend, isSummer, isSpring).tier == SuperOffPeak
    ensures isSummer && !isWeekend ==>
              (GetRateDetails(hour, isWeekend, isSummer, isSpring).tier == SuperOffPeak <==> hour < 6)
    ensures hour >= 21 ==> GetRateDetails(hour, isWeekend, isSummer, isSpring).tier == OffPeak
  {
  }
}
