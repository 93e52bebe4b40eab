/** The two-plan comparison of `useMultiPlanCalculator`: the enriched and costed usage rows, and
    the overall, per-period and per-month comparisons generated from them. The controller that
    holds this state and updates it is the class in module `MultiPlanCalculator`. */
module MultiPlan {
  import opened Wrappers
  import opened Seqs
  import opened Text
  import opened Tariffs
  import opened Ingest

  // ---------------------------------------------------------------------------------------
  // rows

  /** A reading after the enrichment step of `processData`: the CSV row, the parsed instant,
      the consumption, and the fields derived from the instant (`month` is 1-based). */
  datatype Reading = Reading(
    raw: RawRow,
    datetime: DateTime,
    consumption: real,
    hour: nat,
    isWeekend: bool,
    month: nat,
    day: nat,
    season: Season,
    monthYearKey: string,
    dateKey: string)

  /** The `plan1`/`plan2` part of a costed row: the plan key, and the rate, base cost and
      period label `calculateRate` reported. */
  datatype PlanCost = PlanCost(planType: string, rate: real, cost: real, period: string)

  /** A row of `usageData`: the reading with its cost under each selected plan. */
  datatype UsageRow = UsageRow(reading: Reading, plan1: PlanCost, plan2: PlanCost)

  /** `selectedPlans[i]`; an index past the end reads `undefined`. */
  function PlanAt(plans: seq<string>, i: nat): (p: string)
    ensures i < |plans| ==> p == plans[i]
    ensures i >= |plans| ==> p == "undefined"
  {
    if i < |plans| then plans[i] else "undefined"
  }

  /** The enrichment of one surviving row. */
  function Enrich(p: ParsedRow): Reading {
    var dt := p.datetime;
    Reading(p.raw, dt, p.consumption, dt.hour, dt.weekday == 0 || dt.weekday == 6, dt.month + 1,
            dt.day, GetSeason(dt.month), MonthKey(dt), DateKey(dt))
  }

  /** Step 1 of `processData`: the surviving rows, enriched, in input order. */
  function Processed(rawData: seq<RawRow>, parseNumber: string -> Option<real>,
                     parseDateTime: string -> Option<DateTime>): (r: seq<Reading>)
    ensures var ps := ParseRows(rawData, parseNumber, parseDateTime);
            |r| == |ps| && forall i :: 0 <= i < |r| ==> r[i] == Enrich(ps[i])
  {
    var ps := ParseRows(rawData, parseNumber, parseDateTime);
    seq(|ps|, i requires 0 <= i < |ps| => Enrich(ps[i]))
  }

  /** Enrichment classifies the reading by the instant's own calendar fields: weekend on
      Saturday and Sunday, summer in the 0-based months 5 to 9, and month and day keys that
      agree (a reading's day lies inside its month). */
  lemma EnrichFields(p: ParsedRow)
    ensures var r := Enrich(p);
            && (r.isWeekend <==> p.datetime.weekday in {0, 6})
            && (r.season == Summer <==> 5 <= p.datetime.month <= 9)
            && r.month == p.datetime.month + 1
            && r.consumption == p.consumption
            && r.dateKey == r.monthYearKey + "-" + PadNat(p.datetime.day, 2)
  {
  }

  function ReadingDateKey(r: Reading): string { r.dateKey }
  function ReadingConsumption(r: Reading): real { r.consumption }

  /** Step 2 of `processData`: the consumption of every day that has readings. */
  function DailyTotals(processed: seq<Reading>): (daily: map<string, real>)
    ensures forall k :: k in daily <==> k in KeySet(processed, ReadingDateKey)
    ensures forall i :: 0 <= i < |processed| ==> processed[i].dateKey in daily
  {
    map k | k in KeySet(processed, ReadingDateKey) :: TotalWhere(processed, ReadingDateKey, k, ReadingConsumption)
  }

  /** The cost of one reading under both plans, the first plan's failure first. */
  function CostRow(catalog: map<string, Plan>, r: Reading, dailyTotal: real, p1: string, p2: string): Result<UsageRow, string>
    requires ValidCatalog(catalog)
  {
    var r1 := Rate(catalog, p1, r.hour, r.isWeekend, r.season, r.consumption, dailyTotal);
    var r2 := Rate(catalog, p2, r.hour, r.isWeekend, r.season, r.consumption, dailyTotal);
    if r1.Err? then Err(r1.error)
    else if r2.Err? then Err(r2.error)
    else Ok(UsageRow(r, PlanCost(p1, r1.value.rate, r1.value.baseCost, r1.value.period),
                        PlanCost(p2, r2.value.rate, r2.value.baseCost, r2.value.period)))
  }

  /** Step 3 of `processData`: every reading costed with its day's total, stopping at the first
      reading whose calculation throws. */
  function CostRows(catalog: map<string, Plan>, rs: seq<Reading>, daily: map<string, real>, p1: string, p2: string): (r: Result<seq<UsageRow>, string>)
    requires ValidCatalog(catalog)
    requires forall i :: 0 <= i < |rs| ==> rs[i].dateKey in daily
    decreases |rs|
  {
    if rs == [] then Ok([])
    else match CostRow(catalog, rs[0], daily[rs[0].dateKey], p1, p2)
      case Err(e) => Err(e)
      case Ok(row) =>
        match CostRows(catalog, rs[1..], daily, p1, p2)
        case Err(e) => Err(e)
        case Ok(rest) => Ok([row] + rest)
  }

  /** Costing fails exactly when there is a reading and a selected key is outside the catalog,
      and the message names the first such key. When it succeeds, row `i` is reading `i`
      priced by each plan with its day's total, and labelled with the plan keys. */
  lemma {:induction false} CostRowsSpec(catalog: map<string, Plan>, rs: seq<Reading>, daily: map<string, real>, p1: string, p2: string)
    requires ValidCatalog(catalog)
    requires forall i :: 0 <= i < |rs| ==> rs[i].dateKey in daily
    ensures var r := CostRows(catalog, rs, daily, p1, p2);
            && (r.Err? <==> rs != [] && (p1 !in catalog || p2 !in catalog))
            && (r.Err? ==> r.error == "Unknown plan type: " + (if p1 !in catalog then p1 else p2))
    ensures var r := CostRows(catalog, rs, daily, p1, p2);
            r.Ok? ==>
              && |r.value| == |rs|
              && forall i :: 0 <= i < |rs| ==>
                   var d := daily[rs[i].dateKey];
                   var r1 := Rate(catalog, p1, rs[i].hour, rs[i].isWeekend, rs[i].season, rs[i].consumption, d);
                   var r2 := Rate(catalog, p2, rs[i].hour, rs[i].isWeekend, rs[i].season, rs[i].consumption, d);
                   && r.value[i].reading == rs[i]
                   && r.value[i].plan1 == PlanCost(p1, r1.value.rate, r1.value.baseCost, r1.value.period)
                   && r.value[i].plan2 == PlanCost(p2, r2.value.rate, r2.value.baseCost, r2.value.period)
    decreases |rs|
  {
    if rs != [] {
      CostRowsSpec(catalog, rs[1..], daily, p1, p2);
      var r := CostRows(catalog, rs, daily, p1, p2);
      if r.Ok? {
        var rest := CostRows(catalog, rs[1..], daily, p1, p2);
        forall i | 0 < i < |rs| ensures r.value[i] == rest.value[i - 1] && rs[i] == rs[1..][i - 1] {
        }
      }
    }
  }

  // ---------------------------------------------------------------------------------------
  // comparisons

  function ConsumptionOf(u: UsageRow): real { u.reading.consumption }
  function Plan1CostOf(u: UsageRow): real { u.plan1.cost }
  function Plan2CostOf(u: UsageRow): real { u.plan2.cost }
  function MonthOf(u: UsageRow): string { u.reading.monthYearKey }
  function DateKeyOf(u: UsageRow): string { u.reading.dateKey }

  /** The period group key: the season, a dash, and the first plan's period label. */
  function PeriodKeyOf(u: UsageRow): string { SeasonName(u.reading.season) + "-" + u.plan1.period }

  /** The three amounts every summary accumulates, in order. */
  const RowValues: seq<UsageRow -> real> := [ConsumptionOf, Plan1CostOf, Plan2CostOf]

  /** A group's accumulated consumption and plan costs. */
  function GroupSums(data: seq<UsageRow>, key: UsageRow -> string, k: string): (r: seq<real>)
    ensures |r| == 3
    ensures r[0] == TotalWhere(data, key, k, ConsumptionOf)
    ensures r[1] == TotalWhere(data, key, k, Plan1CostOf)
    ensures r[2] == TotalWhere(data, key, k, Plan2CostOf)
  {
    seq(|RowValues|, j requires 0 <= j < |RowValues| => TotalWhere(data, key, k, RowValues[j]))
  }

  /** The overall figures for one plan. `averageRate` is None where the division by the total
      consumption gives no number (a zero total). */
  datatype PlanTotal = PlanTotal(planType: string, name: string, totalCost: real, averageRate: Option<real>)

  datatype Overall = Overall(
    plan1: PlanTotal,
    plan2: PlanTotal,
    totalKWh: real,
    totalSavings: real,
    savingsDirection: string,
    monthsAnalyzed: nat)

  datatype PeriodSummary = PeriodSummary(
    season: Season,
    period: string,
    consumption: real,
    plan1Cost: real,
    plan2Cost: real,
    costDifference: real,
    plan1AvgRate: real,
    plan2AvgRate: real)

  datatype MonthSummary = MonthSummary(
    month: string,
    consumption: real,
    plan1Cost: real,
    plan2Cost: real,
    plan1TotalCost: real,
    plan2TotalCost: real,
    monthlySavings: real,
    plan1MonthlyCharge: real,
    plan2MonthlyCharge: real)

  datatype Comparisons = Comparisons(overall: Overall, periods: seq<PeriodSummary>, months: seq<MonthSummary>)

  /** The overall comparison: usage costs plus the monthly charge once per distinct month
      (`Times(n, c)` is `n * c`, see `Seqs.TimesIsProduct`). */
  function OverallOf(data: seq<UsageRow>, p1: string, info1: Plan, p2: string, info2: Plan): Overall {
    var months := |KeySet(data, MonthOf)|;
    var t1 := Total(data, Plan1CostOf) + Times(months, info1.monthlyCharge);
    var t2 := Total(data, Plan2CostOf) + Times(months, info2.monthlyCharge);
    var kwh := Total(data, ConsumptionOf);
    Overall(PlanTotal(p1, info1.name, t1, AverageRate(t1, kwh)),
            PlanTotal(p2, info2.name, t2, AverageRate(t2, kwh)),
            kwh, t1 - t2, if t1 - t2 > 0.0 then p2 else p1, months)
  }

  /** Cost per kWh; no number for a zero consumption. */
  function AverageRate(cost: real, kwh: real): (r: Option<real>)
    ensures r.Some? <==> kwh != 0.0
  {
    if kwh == 0.0 then None else Some(cost / kwh)
  }

  /** A reported average rate times the consumption gives back the cost. */
  lemma AverageRateTimes(cost: real, kwh: real)
    ensures AverageRate(cost, kwh).Some? ==> AverageRate(cost, kwh).value * kwh == cost
  {
    if kwh != 0.0 {
      QuotientTimes(cost, kwh);
    }
  }

  /** A period summary from the row that opened the group and the group's sums. */
  function PeriodSummaryOf(first: UsageRow, acc: seq<real>): (s: PeriodSummary)
    requires |acc| == 3
    ensures s.consumption == acc[0] && s.plan1Cost == acc[1] && s.plan2Cost == acc[2]
    ensures s.costDifference == s.plan1Cost - s.plan2Cost
    ensures s.consumption > 0.0 ==>
              s.plan1AvgRate * s.consumption == s.plan1Cost && s.plan2AvgRate * s.consumption == s.plan2Cost
    ensures s.consumption <= 0.0 ==> s.plan1AvgRate == 0.0 && s.plan2AvgRate == 0.0
  {
    var c, a, b := acc[0], acc[1], acc[2];
    if c > 0.0 then
      QuotientTimes(a, c);
      QuotientTimes(b, c);
      PeriodSummary(first.reading.season, first.plan1.period, c, a, b, a - b, a / c, b / c)
    else
      PeriodSummary(first.reading.season, first.plan1.period, c, a, b, a - b, 0.0, 0.0)
  }

  /** A month summary from the month key, its sums and the two monthly charges. */
  function MonthSummaryOf(month: string, acc: seq<real>, charge1: real, charge2: real): MonthSummary
    requires |acc| == 3
  {
    var c, a, b := acc[0], acc[1], acc[2];
    MonthSummary(month, c, a, b, a + charge1, b + charge2, a + charge1 - b - charge2, charge1, charge2)
  }

  /** The period comparisons, ordered by season then period. */
  function PeriodComparisonsOf(data: seq<UsageRow>): (r: seq<PeriodSummary>)
    ensures |r| == |SortedKeys(data, PeriodKeyOf)|
  {
    var ks := SortedKeys(data, PeriodKeyOf);
    seq(|ks|, i requires 0 <= i < |ks| => PeriodSummaryOf(FirstWith(data, PeriodKeyOf, ks[i]), GroupSums(data, PeriodKeyOf, ks[i])))
  }

  /** The monthly comparisons, ordered by month key. */
  function MonthComparisonsOf(data: seq<UsageRow>, charge1: real, charge2: real): (r: seq<MonthSummary>)
    ensures |r| == |SortedKeys(data, MonthOf)|
  {
    var ks := SortedKeys(data, MonthOf);
    seq(|ks|, i requires 0 <= i < |ks| => MonthSummaryOf(ks[i], GroupSums(data, MonthOf, ks[i]), charge1, charge2))
  }

  /** What throws while the comparisons are built: reading `monthlyCharge` of the missing plan
      of an unknown key, or `calculateRate` refusing a reading. */
  datatype Failure = MissingPlan | RateFailure(message: string)

  /** The message of what threw. */
  function FailureMessage(e: Failure): string {
    match e
    case MissingPlan => "Cannot read properties of undefined (reading 'monthlyCharge')"
    case RateFailure(m) => m
  }

  /** `generateComparisons`: throws before assigning anything when a selected key has no plan. */
  function GenerateComparisonsOf(catalog: map<string, Plan>, data: seq<UsageRow>, plans: seq<string>): (r: Result<Comparisons, Failure>)
    ensures r.Err? <==> PlanAt(plans, 0) !in catalog || PlanAt(plans, 1) !in catalog
    ensures r.Err? ==> r.error == MissingPlan
  {
    var p1, p2 := PlanAt(plans, 0), PlanAt(plans, 1);
    var info1, info2 := GetPlanInfo(catalog, p1), GetPlanInfo(catalog, p2);
    if info1.None? || info2.None? then Err(MissingPlan)
    else Ok(Comparisons(OverallOf(data, p1, info1.value, p2, info2.value),
                        PeriodComparisonsOf(data),
                        MonthComparisonsOf(data, info1.value.monthlyCharge, info2.value.monthlyCharge)))
  }

  /** The whole of `processData` after the plan-count check: the costed rows and their
      comparisons, or the message of what threw. */
  datatype Processing = Processing(rows: seq<UsageRow>, comparisons: Comparisons)

  function ProcessDataOf(catalog: map<string, Plan>, rawData: seq<RawRow>, parseNumber: string -> Option<real>,
                         parseDateTime: string -> Option<DateTime>, plans: seq<string>): (r: Result<Processing, Failure>)
    requires ValidCatalog(catalog)
    ensures r.Ok? ==> GenerateComparisonsOf(catalog, r.value.rows, plans) == Ok(r.value.comparisons)
  {
    var processed := Processed(rawData, parseNumber, parseDateTime);
    var daily := DailyTotals(processed);
    match CostRows(catalog, processed, daily, PlanAt(plans, 0), PlanAt(plans, 1))
    case Err(e) => Err(RateFailure(e))
    case Ok(rows) => Comparing(catalog, rows, plans)
  }

  /** The end of `processData`: the costed rows with their comparisons, or what threw. */
  function Comparing(catalog: map<string, Plan>, rows: seq<UsageRow>, plans: seq<string>): (r: Result<Processing, Failure>)
    ensures r.Ok? ==> r.value.rows == rows && GenerateComparisonsOf(catalog, rows, plans) == Ok(r.value.comparisons)
    ensures r.Err? ==> GenerateComparisonsOf(catalog, rows, plans) == Err(r.error)
  {
    match GenerateComparisonsOf(catalog, rows, plans)
    case Err(e) => Err(e)
    case Ok(c) => Ok(Processing(rows, c))
  }

  /** With both selected keys in the catalog nothing throws; with an unknown key the error is
      the rate calculation's when there is a surviving reading, and the comparison's otherwise. */
  lemma ProcessDataOutcome(catalog: map<string, Plan>, rawData: seq<RawRow>, parseNumber: string -> Option<real>,
                           parseDateTime: string -> Option<DateTime>, plans: seq<string>)
    requires ValidCatalog(catalog)
    ensures var r := ProcessDataOf(catalog, rawData, parseNumber, parseDateTime, plans);
            var p1, p2 := PlanAt(plans, 0), PlanAt(plans, 1);
            var processed := Processed(rawData, parseNumber, parseDateTime);
            && (r.Ok? <==> p1 in catalog && p2 in catalog)
            && (r.Err? && processed != [] ==>
                  r.error == RateFailure("Unknown plan type: " + (if p1 !in catalog then p1 else p2)))
            && (r.Err? && processed == [] ==> r.error == MissingPlan)
            && (r.Ok? ==> |r.value.rows| == |processed|)
  {
    var processed := Processed(rawData, parseNumber, parseDateTime);
    var daily := DailyTotals(processed);
    CostRowsSpec(catalog, processed, daily, PlanAt(plans, 0), PlanAt(plans, 1));
  }

  // columns of the summaries
  function PeriodConsumption(s: PeriodSummary): real { s.consumption }
  function PeriodPlan1Cost(s: PeriodSummary): real { s.plan1Cost }
  function PeriodPlan2Cost(s: PeriodSummary): real { s.plan2Cost }
  function MonthConsumption(m: MonthSummary): real { m.consumption }
  function MonthPlan1Total(m: MonthSummary): real { m.plan1TotalCost }
  function MonthPlan2Total(m: MonthSummary): real { m.plan2TotalCost }
  function MonthSavings(m: MonthSummary): real { m.monthlySavings }
  function MonthPlan1Cost(m: MonthSummary): real { m.plan1Cost }
  function MonthPlan2Cost(m: MonthSummary): real { m.plan2Cost }
}
