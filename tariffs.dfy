/** The SDG&E 2025 residential tariff schedules: the plan catalog, season and time-of-use period
    classification, and the per-reading rate calculation for tiered and time-of-use plans. */
module Tariffs {
  import opened Wrappers
  import opened Seqs
  import opened Text
  import opened PeriodLabels

  datatype Season = Summer | Winter

  /** The season as the string the plans' rate tables are keyed by. */
  function SeasonName(s: Season): string {
    match s
    case Summer => "summer"
    case Winter => "winter"
  }

  datatype PlanType = Tiered | TimeOfUse

  /** One entry of the catalog. The rate table for a season maps period names (`tier1`/`tier2`
      for the tiered plan, `onPeak`/`offPeak`/`superOffPeak` for time-of-use plans) to $/kWh. */
  datatype Plan = Plan(
    name: string,
    description: string,
    planType: PlanType,
    monthlyCharge: real,
    requirements: seq<string>,
    summerRates: map<string, real>,
    winterRates: map<string, real>,
    baselineCredit: Option<real>,
    ryuAdder: Option<real>)
  {
    function Rates(s: Season): map<string, real> {
      match s
      case Summer => summerRates
      case Winter => winterRates
    }
  }

  /** The 0-based months of the summer season (June to October). */
  const SummerMonths: seq<int> := [5, 6, 7, 8, 9]

  const DrRates: map<string, real> := map["tier1" := 0.40692, "tier2" := 0.51236]

  const Dr: Plan := Plan(
    "DR - Standard Residential",
    "Standard UDC schedule for domestic residential electric service",
    Tiered, 0.402, [], DrRates, DrRates, Some(-0.10544), None)

  const TouDr1: Plan := Plan(
    "TOU-DR1 - Time of Use Service",
    "Time-of-use option for residential customers",
    TimeOfUse, 0.402, [],
    map["onPeak" := 0.71412, "offPeak" := 0.47416, "superOffPeak" := 0.34812],
    map["onPeak" := 0.56348, "offPeak" := 0.49877, "superOffPeak" := 0.47999],
    Some(-0.10544), None)

  const TouDr2: Plan := Plan(
    "TOU-DR2 - Time of Use Service",
    "Time-of-use option for residential customers",
    TimeOfUse, 0.402, [],
    map["onPeak" := 0.71987, "offPeak" := 0.41964],
    map["onPeak" := 0.56348, "offPeak" := 0.49012],
    Some(-0.10544), None)

  const TouDrP: Plan := Plan(
    "TOU-DR-P - Time of Use Plus Service",
    "Time-of-use option for customers who manage costs by reducing use during events",
    TimeOfUse, 0.402, [],
    map["onPeak" := 0.51244, "offPeak" := 0.48655, "superOffPeak" := 0.37526],
    map["onPeak" := 0.54726, "offPeak" := 0.48967, "superOffPeak" := 0.47297],
    Some(-0.10544), Some(1.16))

  const EvTou5: Plan := Plan(
    "EV-TOU-5 - Electric Vehicle Time of Use",
    "Residential service for customers with qualifying electric vehicles",
    TimeOfUse, 16.00, ["Must own electric vehicle registered with California DMV"],
    map["onPeak" := 0.71106, "offPeak" := 0.45460, "superOffPeak" := 0.12017],
    map["onPeak" := 0.47772, "offPeak" := 0.42893, "superOffPeak" := 0.11381],
    None, None)

  /** The catalog, keyed by plan code. The operations below take the catalog as a parameter
      (`catalog`), which every caller sets to this constant, so that their properties are
      proved once for any well-formed catalog. */
  const SdgePlans: map<string, Plan> :=
    map["DR" := Dr, "TOU-DR1" := TouDr1, "TOU-DR2" := TouDr2, "TOU-DR-P" := TouDrP, "EV-TOU-5" := EvTou5]

  /** Daily baseline allowance in kWh. */
  function BaselineAllocation(s: Season): real {
    match s
    case Summer => 11.2
    case Winter => 9.6
  }

  /** Tier 1 applies while the day's total is within 130% of the allowance. */
  function BaselineLimit(s: Season): real {
    BaselineAllocation(s) * 1.3
  }

  // ---------------------------------------------------------------------------------------
  // catalog shape

  /** What the rate calculation needs of a plan: both tiers for a tiered plan, on- and
      off-peak for a time-of-use plan, in both seasons; positive rates that stay positive
      once the baseline credit (a reduction) is added; a non-negative monthly charge. */
  ghost predicate WellFormed(plan: Plan) {
    && plan.monthlyCharge >= 0.0
    && (forall s: Season :: plan.planType == Tiered ==> "tier1" in plan.Rates(s) && "tier2" in plan.Rates(s))
    && (forall s: Season :: plan.planType == TimeOfUse ==> "onPeak" in plan.Rates(s) && "offPeak" in plan.Rates(s))
    && (forall s: Season, k :: k in plan.Rates(s) ==> plan.Rates(s)[k] > 0.0)
    && (plan.baselineCredit.Some? ==> plan.baselineCredit.value < 0.0)
    && (forall s: Season, k :: k in plan.Rates(s) && plan.baselineCredit.Some? ==>
          plan.Rates(s)[k] + plan.baselineCredit.value > 0.0)
  }

  /** Every entry of a catalog is well formed, and TOU-DR-P (whose summer weekday midday
      window is super-off-peak) defines a summer super-off-peak rate. */
  ghost predicate ValidCatalog(catalog: map<string, Plan>) {
    && (forall k :: k in catalog ==> WellFormed(catalog[k]))
    && ("TOU-DR-P" in catalog ==> "superOffPeak" in catalog["TOU-DR-P"].summerRates)
  }

  lemma SdgePlansValid()
    ensures ValidCatalog(SdgePlans)
  {
    DrWellFormed();
    TouDr1WellFormed();
    TouDr2WellFormed();
    TouDrPWellFormed();
    EvTou5WellFormed();
  }

  lemma DrWellFormed() ensures WellFormed(Dr) {}
  lemma TouDr1WellFormed() ensures WellFormed(TouDr1) {}
  lemma TouDr2WellFormed() ensures WellFormed(TouDr2) {}
  lemma TouDrPWellFormed() ensures WellFormed(TouDrP) {}
  lemma EvTou5WellFormed() ensures WellFormed(EvTou5) {}

  /** `getAvailablePlans`: the catalog keys in declaration order. */
  function GetAvailablePlans(): (keys: seq<string>)
    ensures |keys| == 5 && Distinct(keys)
    ensures forall k :: k in keys <==> k in SdgePlans
  {
    ["DR", "TOU-DR1", "TOU-DR2", "TOU-DR-P", "EV-TOU-5"]
  }

  /** `getPlanInfo`: the catalog entry, or `undefined` (None) for an unknown key. */
  function GetPlanInfo(catalog: map<string, Plan>, planKey: string): (r: Option<Plan>)
    ensures r.None? <==> planKey !in catalog
    ensures r.Some? ==> planKey in catalog && r.value == catalog[planKey]
  {
    if planKey in catalog then Some(catalog[planKey]) else None
  }

  // ---------------------------------------------------------------------------------------
  // classification

  /** `getSeason`: summer for the 0-based months listed as summer, winter otherwise. */
  function GetSeason(month: int): (s: Season)
    ensures s == Summer <==> 5 <= month <= 9
  {
    if month in SummerMonths then Summer else Winter
  }

  /** The super-off-peak period where the season's table defines one, off-peak otherwise. */
  function SuperOffPeakOrOffPeak(plan: Plan, season: Season): string {
    if "superOffPeak" in plan.Rates(season) then "superOffPeak" else "offPeak"
  }

  /** `getTimePeriod`: the rules in their source order. The plan key must be in the catalog
      (the source reads the plan's type without checking). */
  function GetTimePeriod(catalog: map<string, Plan>, hour: int, isWeekend: bool, season: Season,
                         planKey: string): string
    requires planKey in catalog
  {
    var plan := catalog[planKey];
    if plan.planType != TimeOfUse then "flat"
    else if isWeekend && hour >= 0 && hour < 14 then SuperOffPeakOrOffPeak(plan, season)
    else if hour >= 0 && hour < 6 then SuperOffPeakOrOffPeak(plan, season)
    else if hour >= 16 && hour < 21 then "onPeak"
    else if planKey == "TOU-DR-P" && !isWeekend && season == Summer && hour >= 10 && hour < 15 then "superOffPeak"
    else "offPeak"
  }

  /** The windows the ordered rules amount to. On-peak is exactly 16:00-20:59 on every day
      (the earlier super-off-peak windows never reach it); super-off-peak is the weekend
      morning or the night where the season defines it, or the TOU-DR-P summer weekday
      midday window; everything else is off-peak. A non-time-of-use plan gets `flat`. */
  lemma TimePeriodWindows(catalog: map<string, Plan>, hour: int, isWeekend: bool, season: Season,
                          planKey: string)
    requires planKey in catalog
    ensures var plan := catalog[planKey];
            var p := GetTimePeriod(catalog, hour, isWeekend, season, planKey);
            var early := (isWeekend && 0 <= hour < 14) || (0 <= hour < 6);
            var sop := "superOffPeak" in plan.Rates(season);
            var drpMidday := planKey == "TOU-DR-P" && !isWeekend && season == Summer && 10 <= hour < 15;
            && (p == "flat" <==> plan.planType != TimeOfUse)
            && (plan.planType == TimeOfUse ==>
                  && (p == "onPeak" <==> 16 <= hour < 21)
                  && (p == "superOffPeak" <==> (early && sop) || drpMidday)
                  && (p == "offPeak" <==> !(16 <= hour < 21) && !(early && sop) && !drpMidday))
  {
  }

  /** The time-of-use period always names a rate the season's table defines. */
  lemma TimePeriodDefined(catalog: map<string, Plan>, hour: int, isWeekend: bool, season: Season,
                          planKey: string)
    requires ValidCatalog(catalog)
    requires planKey in catalog && catalog[planKey].planType == TimeOfUse
    ensures GetTimePeriod(catalog, hour, isWeekend, season, planKey) in catalog[planKey].Rates(season)
  {
    assert WellFormed(catalog[planKey]);
  }

  // ---------------------------------------------------------------------------------------
  // rate calculation

  /** What `calculateRate` returns. `baselineCreditAmount` is present for tiered plans only. */
  datatype RateInfo = RateInfo(
    rate: real,
    baseCost: real,
    baselineCreditAmount: Option<real>,
    period: string,
    planType: string)

  /** The credit added to the tier rate: the plan's credit inside the baseline when it is
      defined and non-zero (a falsy credit counts as none), nothing otherwise. */
  function CreditFor(plan: Plan, isWithinBaseline: bool): real {
    if isWithinBaseline && plan.baselineCredit.Some? && plan.baselineCredit.value != 0.0
    then plan.baselineCredit.value else 0.0
  }

  /** `calculateRate`: throws (Err) for a key outside the catalog and for a time-of-use period
      the season's table lacks. `dailyConsumption` defaults to 0 at the call sites that omit it. */
  function CalculateRate(catalog: map<string, Plan>, planKey: string, hour: int, isWeekend: bool,
                         season: Season, consumption: real, dailyConsumption: real): (r: Result<RateInfo, string>)
    requires ValidCatalog(catalog)
    ensures planKey !in catalog ==> r == Err("Unknown plan type: " + planKey)
    ensures r.Ok? ==> r.value.planType == planKey
  {
    if planKey !in catalog then Err("Unknown plan type: " + planKey)
    else
      var plan := catalog[planKey];
      var rates := plan.Rates(season);
      if plan.planType == Tiered then
        assert WellFormed(plan);
        var isWithinBaseline := dailyConsumption <= BaselineLimit(season);
        var rate := if isWithinBaseline then rates["tier1"] else rates["tier2"];
        var credit := CreditFor(plan, isWithinBaseline);
        Ok(RateInfo(rate + credit, consumption * rate, Some(consumption * credit),
                    if isWithinBaseline then "Tier 1" else "Tier 2", planKey))
      else
        var period := GetTimePeriod(catalog, hour, isWeekend, season, planKey);
        if period !in rates then
          Err("No rate defined for " + planKey + " " + SeasonName(season) + " " + period)
        else
          var rate := rates[period];
          Ok(RateInfo(rate, consumption * rate, None, PeriodLabel(period), planKey))
  }

  /** The calculation fails exactly for keys outside the catalog, where `getPlanInfo` answers
      `undefined`; the "No rate defined" error cannot occur for a catalog plan, whatever the
      hour, day and season. */
  lemma CalculateRateFailsOnlyForUnknownPlans(catalog: map<string, Plan>, planKey: string, hour: int,
                                              isWeekend: bool, season: Season,
                                              consumption: real, dailyConsumption: real)
    requires ValidCatalog(catalog)
    ensures CalculateRate(catalog, planKey, hour, isWeekend, season, consumption, dailyConsumption).Err?
            <==> GetPlanInfo(catalog, planKey).None?
  {
    if planKey in catalog && catalog[planKey].planType == TimeOfUse {
      TimePeriodDefined(catalog, hour, isWeekend, season, planKey);
    }
  }

  /** Tiered plans: tier 1 exactly while the day's total is within 130% of the season's
      allowance (so the default daily total of 0 is tier 1); the reported rate carries the
      baseline credit in tier 1 only, while the base cost is priced at the un-credited tier
      rate and the credit is reported separately. */
  lemma TieredRate(catalog: map<string, Plan>, planKey: string, hour: int, isWeekend: bool,
                   season: Season, consumption: real, dailyConsumption: real)
    requires ValidCatalog(catalog)
    requires planKey in catalog && catalog[planKey].planType == Tiered
    ensures var plan := catalog[planKey];
            var r := CalculateRate(catalog, planKey, hour, isWeekend, season, consumption, dailyConsumption);
            var tier1 := dailyConsumption <= 1.3 * BaselineAllocation(season);
            var tierRate := plan.Rates(season)[if tier1 then "tier1" else "tier2"];
            var credit := if tier1 && plan.baselineCredit.Some? then plan.baselineCredit.value else 0.0;
            && r.Ok?
            && (r.value.period == "Tier 1" <==> tier1)
            && (r.value.period == "Tier 2" <==> !tier1)
            && r.value.rate == tierRate + credit
            && r.value.baseCost == consumption * tierRate
            && r.value.baselineCreditAmount.Some?
            && r.value.baselineCreditAmount.value == consumption * credit
  {
    var plan := catalog[planKey];
    assert WellFormed(plan);
    assert BaselineLimit(season) == 1.3 * BaselineAllocation(season);
    var tier1 := dailyConsumption <= BaselineLimit(season);
    var credit := if tier1 && plan.baselineCredit.Some? then plan.baselineCredit.value else 0.0;
    assert CreditFor(plan, tier1) == credit;
  }

  /** The catalog's one tiered plan, in numbers: 0.30148 $/kWh reported in tier 1 (0.40692
      less the 0.10544 credit), 0.51236 in tier 2; the limit is 14.56 kWh in summer and
      12.48 kWh in winter. */
  lemma DrRateNumbers(hour: int, isWeekend: bool, season: Season, consumption: real, dailyConsumption: real)
    ensures ValidCatalog(SdgePlans)
    ensures var r := CalculateRate(SdgePlans, "DR", hour, isWeekend, season, consumption, dailyConsumption);
            var limit := if season == Summer then 14.56 else 12.48;
            && r.Ok?
            && r.value.rate == (if dailyConsumption <= limit then 0.30148 else 0.51236)
            && r.value.baseCost == consumption * (if dailyConsumption <= limit then 0.40692 else 0.51236)
  {
    SdgePlansValid();
    TieredRate(SdgePlans, "DR", hour, isWeekend, season, consumption, dailyConsumption);
  }

  /** In tier 1 with a non-zero reading the base cost is not the reading times the reported
      rate: `cost = consumption x rate` fails for a tiered plan with a baseline credit. */
  lemma TieredCostIsNotRateTimesConsumption(catalog: map<string, Plan>, planKey: string, hour: int,
                                            isWeekend: bool, season: Season,
                                            consumption: real, dailyConsumption: real)
    requires ValidCatalog(catalog)
    requires planKey in catalog && catalog[planKey].planType == Tiered && catalog[planKey].baselineCredit.Some?
    requires consumption != 0.0 && dailyConsumption <= BaselineLimit(season)
    ensures var r := CalculateRate(catalog, planKey, hour, isWeekend, season, consumption, dailyConsumption);
            r.Ok? && r.value.baseCost != consumption * r.value.rate
  {
    TieredRate(catalog, planKey, hour, isWeekend, season, consumption, dailyConsumption);
    CatalogCredit(catalog, planKey);
    var plan := catalog[planKey];
    var r := CalculateRate(catalog, planKey, hour, isWeekend, season, consumption, dailyConsumption);
    CreditedCost(r.value, consumption, plan.Rates(season)["tier1"], plan.baselineCredit.value);
  }

  lemma CreditedCost(info: RateInfo, consumption: real, tierRate: real, credit: real)
    requires info.rate == tierRate + credit && info.baseCost == consumption * tierRate
    requires consumption != 0.0 && credit < 0.0
    ensures info.baseCost != consumption * info.rate
  {
    CreditChangesProduct(consumption, tierRate, credit);
  }

  lemma CatalogCredit(catalog: map<string, Plan>, planKey: string)
    requires ValidCatalog(catalog) && planKey in catalog && catalog[planKey].baselineCredit.Some?
    ensures catalog[planKey].baselineCredit.value < 0.0
  {
    assert WellFormed(catalog[planKey]);
  }

  lemma CreditChangesProduct(consumption: real, rate: real, credit: real)
    requires consumption != 0.0 && credit < 0.0
    ensures consumption * rate != consumption * (rate + credit)
  {
    assert consumption * (rate + credit) == consumption * rate + consumption * credit;
    assert consumption * credit != 0.0;
  }

  /** Time-of-use plans: the rate is the season's rate for the classified period, the base
      cost is the reading times that rate, and the label is the period's readable form. */
  lemma TimeOfUseRate(catalog: map<string, Plan>, planKey: string, hour: int, isWeekend: bool,
                      season: Season, consumption: real, dailyConsumption: real)
    requires ValidCatalog(catalog)
    requires planKey in catalog && catalog[planKey].planType == TimeOfUse
    ensures var period := GetTimePeriod(catalog, hour, isWeekend, season, planKey);
            var r := CalculateRate(catalog, planKey, hour, isWeekend, season, consumption, dailyConsumption);
            && period in catalog[planKey].Rates(season)
            && r.Ok?
            && r.value.rate == catalog[planKey].Rates(season)[period]
            && r.value.baseCost == consumption * r.value.rate
            && r.value.period == PeriodLabel(period)
            && r.value.baselineCreditAmount.None?
  {
    TimePeriodDefined(catalog, hour, isWeekend, season, planKey);
  }

  /** Rates reported by the calculator are positive for every plan of a well-formed catalog,
      the tier-1 rate with its credit included. */
  lemma RatesPositive(catalog: map<string, Plan>, planKey: string, hour: int, isWeekend: bool,
                      season: Season, consumption: real, dailyConsumption: real)
    requires ValidCatalog(catalog)
    requires planKey in catalog
    ensures var r := CalculateRate(catalog, planKey, hour, isWeekend, season, consumption, dailyConsumption);
            r.Ok? && r.value.rate > 0.0
  {
    assert WellFormed(catalog[planKey]);
    if catalog[planKey].planType == TimeOfUse {
      TimePeriodDefined(catalog, hour, isWeekend, season, planKey);
    }
  }

  /** `calculateRate` as the calculators call it, over a well-formed catalog: it throws exactly
      for keys outside the catalog, with the message naming the key. */
  function Rate(catalog: map<string, Plan>, planKey: string, hour: int, isWeekend: bool, season: Season,
                consumption: real, dailyConsumption: real): (r: Result<RateInfo, string>)
    requires ValidCatalog(catalog)
    ensures r.Err? <==> planKey !in catalog
    ensures r.Err? ==> r.error == "Unknown plan type: " + planKey
  {
    CalculateRateFailsOnlyForUnknownPlans(catalog, planKey, hour, isWeekend, season, consumption, dailyConsumption);
    CalculateRate(catalog, planKey, hour, isWeekend, season, consumption, dailyConsumption)
  }
}
