/** The rows and summaries of the legacy calculator (`useEnergyCalculator`): each reading is
    priced under both fixed schedules, and the overall, per-(season, tier) and per-month
    summaries are built from the priced rows with a flat monthly charge on the first schedule.
    The class that holds this state is in module `EnergyController`. */
module EnergySummaries {
  import opened Wrappers
  import opened Seqs
  import opened Text
  import opened Ingest
  import opened EnergyRates

  /** The flat charge added once per month to the first schedule's cost. */
  const MonthlyFixedCharge: real := 16.0

  // ---------------------------------------------------------------------------------------
  // rows

  /** A reading after the enrichment step of `processData` (`month` is 1-based). */
  datatype Prepared = Prepared(
    raw: RawRow,
    datetime: DateTime,
    consumption: real,
    hour: nat,
    isWeekend: bool,
    month: nat,
    day: nat,
    isSummer: bool,
    isSpring: bool,
    season: string)

  /** The enrichment of one surviving row: the calendar fields of its instant and the season
      flags of its month. */
  function Prepare(p: ParsedRow): (r: Prepared)
    ensures r.isWeekend <==> p.datetime.weekday in {0, 6}
    ensures r.isSummer <==> p.datetime.month in {5, 6, 7, 8, 9}
    ensures r.isSpring <==> p.datetime.month in {2, 3}
    ensures r.season == SeasonLabel(r.isSummer)
  {
    var dt := p.datetime;
    var flags := SeasonFlagsOf(dt.month);
    Prepared(p.raw, dt, p.consumption, dt.hour, dt.weekday == 0 || dt.weekday == 6, dt.month + 1,
             dt.day, flags.isSummer, flags.isSpring, SeasonLabel(flags.isSummer))
  }

  /** Step 1 of `processData`: the surviving rows, enriched, in input order. */
  function PreparedRows(rawData: seq<RawRow>, parseNumber: string -> Option<real>,
                        parseDateTime: string -> Option<DateTime>): (r: seq<Prepared>)
    ensures var ps := ParseRows(rawData, parseNumber, parseDateTime);
            |r| == |ps| && forall i :: 0 <= i < |r| ==> r[i] == Prepare(ps[i])
  {
    var ps := ParseRows(rawData, parseNumber, parseDateTime);
    seq(|ps|, i requires 0 <= i < |ps| => Prepare(ps[i]))
  }

  /** A row of `usageData`: the reading, priced under both schedules, with its month key. */
  datatype Costed = Costed(
    row: Prepared,
    rateDifference: real,
    tier1: Tier,
    tier2: Tier,
    cost1: real,
    cost2: real,
    monthYearKey: string)

  /** The per-row step of `processData`: both schedules' rate details, their difference, and
      the cost of the consumption under each (see `CostRowPrices`). */
  function CostRow(r: Prepared): (c: Costed)
    ensures c.row == r && c.monthYearKey == MonthKey(r.datetime)
    ensures c.tier1 == c.tier2 == TierOf(r.hour, r.isWeekend, r.isSummer, r.isSpring)
  {
    var d1 := GetRateDetails(r.hour, r.isWeekend, r.isSummer, r.isSpring);
    var d2 := GetRateDetails2(r.hour, r.isWeekend, r.isSummer, r.isSpring);
    Costed(r, d2.rate - d1.rate, d1.tier, d2.tier, r.consumption * d1.rate, r.consumption * d2.rate,
           MonthKey(r.datetime))
  }

  /** A priced row's costs are its consumption at each schedule's price for its season and
      tier, and their difference is the consumption at the rate difference. */
  lemma CostRowPrices(r: Prepared)
    ensures var c := CostRow(r);
            && c.cost1 == r.consumption * Rate1(r.isSummer || r.isSpring, c.tier1)
            && c.cost2 == r.consumption * Rate2(r.isSummer, c.tier2)
            && c.cost2 - c.cost1 == r.consumption * c.rateDifference
  {
    var c := CostRow(r);
    ProductDifference(r.consumption, Rate1(r.isSummer || r.isSpring, c.tier1), Rate2(r.isSummer, c.tier2));
  }

  lemma ProductDifference(c: real, a: real, b: real)
    ensures c * b - c * a == c * (b - a)
  {
  }

  /** Step 2 of `processData`: every row priced. */
  function CostedRows(rows: seq<Prepared>): (r: seq<Costed>)
    ensures |r| == |rows| && forall i :: 0 <= i < |r| ==> r[i] == CostRow(rows[i])
  {
    seq(|rows|, i requires 0 <= i < |rows| => CostRow(rows[i]))
  }

  // ---------------------------------------------------------------------------------------
  // summaries

  function ConsumptionOf(c: Costed): real { c.row.consumption }
  function Cost1Of(c: Costed): real { c.cost1 }
  function Cost2Of(c: Costed): real { c.cost2 }
  function CostDiffOf(c: Costed): real { c.cost2 - c.cost1 }
  function MonthKeyOf(c: Costed): string { c.monthYearKey }

  /** The period group key: the season label, a dash and the first schedule's tier label. */
  function PeriodKeyOf(c: Costed): string { c.row.season + "-" + Tier1Label(c.tier1) }

  /** What a period group accumulates, in order: consumption, both costs, and the running
      difference of the costs. */
  const PeriodValues: seq<Costed -> real> := [ConsumptionOf, Cost1Of, Cost2Of, CostDiffOf]

  /** What a month group accumulates, in order: consumption and both costs. */
  const MonthValues: seq<Costed -> real> := [ConsumptionOf, Cost1Of, Cost2Of]

  /** The totals of the group with key `k`, one per value function. */
  function GroupSums(data: seq<Costed>, key: Costed -> string, vals: seq<Costed -> real>, k: string): (r: seq<real>)
    ensures |r| == |vals|
    ensures forall j :: 0 <= j < |vals| ==> r[j] == TotalWhere(data, key, k, vals[j])
  {
    seq(|vals|, j requires 0 <= j < |vals| => TotalWhere(data, key, k, vals[j]))
  }

  /** `overallSummary`: the total consumption, and the second schedule's total less the first
      schedule's total with the fixed charge. */
  datatype OverallSummary = OverallSummary(totalKWh: real, totalSavings: real)

  /** A row of `periodSummary`. */
  datatype PeriodRow = PeriodRow(
    season: string,
    rateTier1: string,
    consumption: real,
    cost1: real,
    cost2: real,
    costDiff: real,
    avgRate1: real,
    avgRate2: real,
    costSavings: real)

  /** A row of `monthlySummary` (`cost_tier1` and `cost_tier2` are `cost1` and `cost2`
      formatted). */
  datatype MonthRow = MonthRow(
    datetime: string,
    consumption: real,
    cost1: real,
    cost2: real,
    fixedCharge: real,
    total: real,
    costSavings: real)

  datatype Summaries = Summaries(overall: OverallSummary, periods: seq<PeriodRow>, months: seq<MonthRow>)

  /** `uniqueMonths.size * MONTHLY_FIXED_CHARGE`. */
  function FixedCharge(data: seq<Costed>): real {
    (|KeySet(data, MonthKeyOf)| as real) * MonthlyFixedCharge
  }

  /** The overall summary; the fixed charge is added to the first schedule's total only. */
  function OverallSummaryOf(data: seq<Costed>, fixedCharge: real): (o: OverallSummary)
    ensures o.totalKWh == Total(data, ConsumptionOf)
    ensures o.totalSavings == Total(data, Cost2Of) - Total(data, Cost1Of) - fixedCharge
  {
    var total1 := Total(data, Cost1Of) + fixedCharge;
    var total2 := Total(data, Cost2Of);
    OverallSummary(Total(data, ConsumptionOf), total2 - total1)
  }

  /** `Math.abs`. */
  function Abs(x: real): (r: real)
    ensures r >= 0.0 && (r == x || r == -x)
  {
    if x < 0.0 then -x else x
  }

  /** A period row from the row that opened the group and the group's sums: the average rates
      are cost per kWh, or 0 where the consumption is not positive, and the savings are the size
      of the accumulated difference. */
  function PeriodRowOf(first: Costed, acc: seq<real>): (p: PeriodRow)
    requires |acc| == 4
    ensures p.season == first.row.season && p.rateTier1 == Tier1Label(first.tier1)
    ensures p.consumption == acc[0] && p.cost1 == acc[1] && p.cost2 == acc[2] && p.costDiff == acc[3]
    ensures p.consumption > 0.0 ==> p.avgRate1 * p.consumption == p.cost1 && p.avgRate2 * p.consumption == p.cost2
    ensures p.consumption <= 0.0 ==> p.avgRate1 == 0.0 && p.avgRate2 == 0.0
    ensures p.costSavings >= 0.0 && (p.costSavings == p.costDiff || p.costSavings == -p.costDiff)
  {
    var c, a, b := acc[0], acc[1], acc[2];
    if c > 0.0 then
      QuotientTimes(a, c);
      QuotientTimes(b, c);
      PeriodRow(first.row.season, Tier1Label(first.tier1), c, a, b, acc[3], a / c, b / c, Abs(acc[3]))
    else
      PeriodRow(first.row.season, Tier1Label(first.tier1), c, a, b, acc[3], 0.0, 0.0, Abs(acc[3]))
  }

  /** A month row from the month key and its sums: the fixed charge is set against the second
      schedule's cost. */
  function MonthRowOf(month: string, acc: seq<real>): (m: MonthRow)
    requires |acc| == 3
    ensures m.datetime == month && m.consumption == acc[0] && m.cost1 == acc[1] && m.cost2 == acc[2]
    ensures m.fixedCharge == MonthlyFixedCharge
    ensures m.costSavings == m.cost2 - (m.cost1 + m.fixedCharge)
    ensures m.total == m.costSavings + 2.0 * m.fixedCharge
  {
    var c, a, b := acc[0], acc[1], acc[2];
    MonthRow(month, c, a, b, MonthlyFixedCharge, b - a + MonthlyFixedCharge, b - (a + MonthlyFixedCharge))
  }

  /** `periodSummary`, ordered by the period key (season, then tier label). */
  function PeriodSummariesOf(data: seq<Costed>): (r: seq<PeriodRow>)
    ensures |r| == |SortedKeys(data, PeriodKeyOf)|
  {
    var ks := SortedKeys(data, PeriodKeyOf);
    seq(|ks|, i requires 0 <= i < |ks| =>
      PeriodRowOf(FirstWith(data, PeriodKeyOf, ks[i]), GroupSums(data, PeriodKeyOf, PeriodValues, ks[i])))
  }

  /** `monthlySummary`, ordered by month key. */
  function MonthlySummariesOf(data: seq<Costed>): (r: seq<MonthRow>)
    ensures |r| == |SortedKeys(data, MonthKeyOf)|
  {
    var ks := SortedKeys(data, MonthKeyOf);
    seq(|ks|, i requires 0 <= i < |ks| => MonthRowOf(ks[i], GroupSums(data, MonthKeyOf, MonthValues, ks[i])))
  }

  /** What `generateSummaries` produces from the rows and the fixed charge. */
  function SummariesOf(data: seq<Costed>, fixedCharge: real): Summaries {
    Summaries(OverallSummaryOf(data, fixedCharge), PeriodSummariesOf(data), MonthlySummariesOf(data))
  }

  /** Every row carries the season label of its summer flag, as the enrichment step writes it. */
  predicate SeasonsLabelled(data: seq<Costed>) {
    forall i :: 0 <= i < |data| ==> data[i].row.season == SeasonLabel(data[i].row.isSummer)
  }

  /** The rows `processData` keeps in `usageData`. */
  function UsageOf(rawData: seq<RawRow>, parseNumber: string -> Option<real>,
                   parseDateTime: string -> Option<DateTime>): (r: seq<Costed>)
    ensures SeasonsLabelled(r)
  {
    CostedRows(PreparedRows(rawData, parseNumber, parseDateTime))
  }
}
