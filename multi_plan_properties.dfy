/** Properties of the two-plan comparisons: the groups partition the rows, the monthly figures
    add up to the overall ones, and the summaries come out in the comparator's order. */
module MultiPlanProperties {
  import opened Wrappers
  import opened Seqs
  import opened Text
  import opened Tariffs
  import opened MultiPlan


  /** The period groups partition the rows: their consumptions and costs add up to the totals
      over all rows. */
  lemma PeriodsPartitionRows(data: seq<UsageRow>)
    ensures var ps := PeriodComparisonsOf(data);
            && Total(ps, PeriodConsumption) == Total(data, ConsumptionOf)
            && Total(ps, PeriodPlan1Cost) == Total(data, Plan1CostOf)
            && Total(ps, PeriodPlan2Cost) == Total(data, Plan2CostOf)
  {
    var ps := PeriodComparisonsOf(data);
    var ks := SortedKeys(data, PeriodKeyOf);
    var wc := (k: string) => TotalWhere(data, PeriodKeyOf, k, ConsumptionOf);
    var w1 := (k: string) => TotalWhere(data, PeriodKeyOf, k, Plan1CostOf);
    var w2 := (k: string) => TotalWhere(data, PeriodKeyOf, k, Plan2CostOf);
    TotalPointwise(ps, ks, PeriodConsumption, wc);
    TotalPointwise(ps, ks, PeriodPlan1Cost, w1);
    TotalPointwise(ps, ks, PeriodPlan2Cost, w2);
    PartitionTotalBy(ks, data, PeriodKeyOf, ConsumptionOf, wc);
    PartitionTotalBy(ks, data, PeriodKeyOf, Plan1CostOf, w1);
    PartitionTotalBy(ks, data, PeriodKeyOf, Plan2CostOf, w2);
  }

  /** The monthly figures add up to the overall ones: consumption to `totalKWh`, each plan's
      monthly total to its overall total (one monthly charge per month listed), and the monthly
      savings to `totalSavings`; there is one month summary per month analyzed. */
  lemma MonthsAddUpToOverall(data: seq<UsageRow>, p1: string, info1: Plan, p2: string, info2: Plan,
                             o: Overall, ms: seq<MonthSummary>)
    requires o == OverallOf(data, p1, info1, p2, info2)
    requires ms == MonthComparisonsOf(data, info1.monthlyCharge, info2.monthlyCharge)
    ensures |ms| == o.monthsAnalyzed
    ensures Total(ms, MonthConsumption) == o.totalKWh
    ensures Total(ms, MonthPlan1Total) == o.plan1.totalCost
    ensures Total(ms, MonthPlan2Total) == o.plan2.totalCost
    ensures Total(ms, MonthSavings) == o.totalSavings
  {
    OverallTotals(data, p1, info1, p2, info2, o);
    MonthCount(data, info1.monthlyCharge, info2.monthlyCharge, ms);
    MonthTotalColumns(data, info1.monthlyCharge, info2.monthlyCharge, ms);
  }

  /** Summed over the months, each plan's monthly total is its usage cost plus one charge per
      month, and the savings are the difference of the two. */
  lemma MonthTotalColumns(data: seq<UsageRow>, c1: real, c2: real, ms: seq<MonthSummary>)
    requires ms == MonthComparisonsOf(data, c1, c2)
    ensures Total(ms, MonthConsumption) == Total(data, ConsumptionOf)
    ensures Total(ms, MonthPlan1Total) == Total(data, Plan1CostOf) + Times(|ms|, c1)
    ensures Total(ms, MonthPlan2Total) == Total(data, Plan2CostOf) + Times(|ms|, c2)
    ensures Total(ms, MonthSavings) == Total(ms, MonthPlan1Total) - Total(ms, MonthPlan2Total)
  {
    MonthColumns(data, c1, c2);
    MonthRowFacts(data, c1, c2);
    TotalPlusConst(ms, MonthPlan1Total, MonthPlan1Cost, c1);
    TotalPlusConst(ms, MonthPlan2Total, MonthPlan2Cost, c2);
    TotalMinus(ms, MonthPlan1Total, MonthPlan2Total, MonthSavings);
  }

  lemma MonthRowFacts(data: seq<UsageRow>, c1: real, c2: real)
    ensures var ms := MonthComparisonsOf(data, c1, c2);
            forall i :: 0 <= i < |ms| ==>
              && MonthPlan1Total(ms[i]) == MonthPlan1Cost(ms[i]) + c1
              && MonthPlan2Total(ms[i]) == MonthPlan2Cost(ms[i]) + c2
              && MonthSavings(ms[i]) == MonthPlan1Total(ms[i]) - MonthPlan2Total(ms[i])
  {
  }

  /** Each plan's overall total is its usage cost plus its monthly charge once per distinct
      month (see `OverallFacts` for the product form). */
  lemma OverallTotals(data: seq<UsageRow>, p1: string, info1: Plan, p2: string, info2: Plan, o: Overall)
    requires o == OverallOf(data, p1, info1, p2, info2)
    ensures o.monthsAnalyzed == |KeySet(data, MonthOf)|
    ensures o.totalKWh == Total(data, ConsumptionOf)
    ensures o.plan1.totalCost == Total(data, Plan1CostOf) + Times(o.monthsAnalyzed, info1.monthlyCharge)
    ensures o.plan2.totalCost == Total(data, Plan2CostOf) + Times(o.monthsAnalyzed, info2.monthlyCharge)
    ensures o.totalSavings == o.plan1.totalCost - o.plan2.totalCost
  {
  }

  lemma MonthCount(data: seq<UsageRow>, c1: real, c2: real, ms: seq<MonthSummary>)
    requires ms == MonthComparisonsOf(data, c1, c2)
    ensures |ms| == |KeySet(data, MonthOf)|
  {
    SortedKeysCount(data, MonthOf);
  }

  /** The month groups partition the rows: their consumptions and usage costs add up to the
      totals over all rows. */
  lemma MonthColumns(data: seq<UsageRow>, c1: real, c2: real)
    ensures var ms := MonthComparisonsOf(data, c1, c2);
            && Total(ms, MonthConsumption) == Total(data, ConsumptionOf)
            && Total(ms, MonthPlan1Cost) == Total(data, Plan1CostOf)
            && Total(ms, MonthPlan2Cost) == Total(data, Plan2CostOf)
  {
    var ms := MonthComparisonsOf(data, c1, c2);
    var ks := SortedKeys(data, MonthOf);
    var wc := (k: string) => TotalWhere(data, MonthOf, k, ConsumptionOf);
    var w1 := (k: string) => TotalWhere(data, MonthOf, k, Plan1CostOf);
    var w2 := (k: string) => TotalWhere(data, MonthOf, k, Plan2CostOf);
    TotalPointwise(ms, ks, MonthConsumption, wc);
    PartitionTotalBy(ks, data, MonthOf, ConsumptionOf, wc);
    TotalPointwise(ms, ks, MonthPlan1Cost, w1);
    PartitionTotalBy(ks, data, MonthOf, Plan1CostOf, w1);
    TotalPointwise(ms, ks, MonthPlan2Cost, w2);
    PartitionTotalBy(ks, data, MonthOf, Plan2CostOf, w2);
  }


  /** The savings direction names the plan that costs less overall (the first plan on a tie),
      and an average rate is reported exactly when consumption is non-zero, as the total cost
      per kWh. */
  lemma OverallFacts(data: seq<UsageRow>, p1: string, info1: Plan, p2: string, info2: Plan, o: Overall)
    requires o == OverallOf(data, p1, info1, p2, info2)
    ensures o.plan2.totalCost < o.plan1.totalCost ==> o.savingsDirection == p2
    ensures o.plan1.totalCost <= o.plan2.totalCost ==> o.savingsDirection == p1
    ensures o.totalSavings == o.plan1.totalCost - o.plan2.totalCost
    ensures o.totalKWh == Total(data, ConsumptionOf)
    ensures o.monthsAnalyzed == |KeySet(data, MonthOf)|
    ensures o.plan1.averageRate.Some? <==> o.totalKWh != 0.0
    ensures o.plan2.averageRate.Some? <==> o.totalKWh != 0.0
    ensures o.plan1.averageRate.Some? ==> o.plan1.averageRate.value * o.totalKWh == o.plan1.totalCost
    ensures o.plan2.averageRate.Some? ==> o.plan2.averageRate.value * o.totalKWh == o.plan2.totalCost
  {
    AverageRateTimes(o.plan1.totalCost, o.totalKWh);
    AverageRateTimes(o.plan2.totalCost, o.totalKWh);
  }

  /** Each plan's overall total is its usage cost plus its monthly charge times the number of
      distinct months. */
  lemma OverallChargedTotals(data: seq<UsageRow>, p1: string, info1: Plan, p2: string, info2: Plan, o: Overall)
    requires o == OverallOf(data, p1, info1, p2, info2)
    ensures o.plan1.totalCost == Total(data, Plan1CostOf) + (o.monthsAnalyzed as real) * info1.monthlyCharge
    ensures o.plan2.totalCost == Total(data, Plan2CostOf) + (o.monthsAnalyzed as real) * info2.monthlyCharge
  {
    OverallTotals(data, p1, info1, p2, info2, o);
    ChargedTotal(o.plan1.totalCost, Total(data, Plan1CostOf), o.monthsAnalyzed, info1.monthlyCharge);
    ChargedTotal(o.plan2.totalCost, Total(data, Plan2CostOf), o.monthsAnalyzed, info2.monthlyCharge);
  }

  lemma ChargedTotal(total: real, usage: real, months: nat, charge: real)
    requires total == usage + Times(months, charge)
    ensures total == usage + (months as real) * charge
  {
    TimesIsProduct(months, charge);
  }

  /** The order of the period comparator: season first, then period label. */
  predicate PeriodBefore(a: PeriodSummary, b: PeriodSummary) {
    StrLess(SeasonName(a.season), SeasonName(b.season))
    || (a.season == b.season && StrLess(a.period, b.period))
  }

  /** The group key of a period summary is its season, a dash and its period. */
  lemma PeriodSummaryKey(data: seq<UsageRow>, i: nat)
    requires i < |PeriodComparisonsOf(data)|
    ensures var s := PeriodComparisonsOf(data)[i];
            SortedKeys(data, PeriodKeyOf)[i] == SeasonName(s.season) + "-" + s.period
  {
  }

  /** The period summaries come out sorted by season then period with no pair twice, there is
      one for each (season, period) pair the rows carry, and each one's figures are the totals
      over exactly the rows of its pair. */
  lemma PeriodComparisonsSorted(data: seq<UsageRow>)
    ensures var ps := PeriodComparisonsOf(data);
            forall i, j :: 0 <= i < j < |ps| ==> PeriodBefore(ps[i], ps[j])
  {
    var ps := PeriodComparisonsOf(data);
    var ks := SortedKeys(data, PeriodKeyOf);
    forall i, j | 0 <= i < j < |ps| ensures PeriodBefore(ps[i], ps[j]) {
      PeriodSummaryKey(data, i);
      PeriodSummaryKey(data, j);
      var a, b := ps[i], ps[j];
      var pa, pb := SeasonName(a.season) + "-", SeasonName(b.season) + "-";
      assert ks[i] == pa + a.period && ks[j] == pb + b.period;
      StrLessEqualLengthPrefix(pa, pb, a.period, b.period);
      StrLessEqualLengthPrefix(SeasonName(a.season), SeasonName(b.season), "-", "-");
      StrLessIrreflexive("-");
      if pa == pb {
        assert pa[..6] == SeasonName(a.season) && pb[..6] == SeasonName(b.season);
      }
    }
  }

  /** Every row's (season, period) pair has exactly one summary, whose consumption and costs
      are the totals over the rows with that pair. */
  lemma PeriodComparisonsCover(data: seq<UsageRow>, u: UsageRow)
    requires u in data
    ensures var ps := PeriodComparisonsOf(data);
            exists i :: 0 <= i < |ps| && ps[i].season == u.reading.season && ps[i].period == u.plan1.period
              && ps[i].consumption == TotalWhere(data, PeriodKeyOf, PeriodKeyOf(u), ConsumptionOf)
              && ps[i].plan1Cost == TotalWhere(data, PeriodKeyOf, PeriodKeyOf(u), Plan1CostOf)
              && ps[i].plan2Cost == TotalWhere(data, PeriodKeyOf, PeriodKeyOf(u), Plan2CostOf)
  {
    var ps := PeriodComparisonsOf(data);
    var ks := SortedKeys(data, PeriodKeyOf);
    var k := PeriodKeyOf(u);
    var n :| 0 <= n < |data| && data[n] == u;
    assert k in KeySet(data, PeriodKeyOf);
    var i :| 0 <= i < |ks| && ks[i] == k;
    PeriodSummaryKey(data, i);
    var s := ps[i];
    var sn, un := SeasonName(s.season), SeasonName(u.reading.season);
    assert sn + "-" + s.period == un + "-" + u.plan1.period;
    assert (sn + "-" + s.period)[..6] == sn && (un + "-" + u.plan1.period)[..6] == un;
    assert (sn + "-" + s.period)[7..] == s.period && (un + "-" + u.plan1.period)[7..] == u.plan1.period;
    assert s.season == u.reading.season;
  }

  /** The month summaries come out in strictly increasing month order, one per month the rows
      cover, each with that month's totals and both monthly charges. */
  lemma MonthComparisonsSpec(data: seq<UsageRow>, charge1: real, charge2: real)
    ensures var ms := MonthComparisonsOf(data, charge1, charge2);
            && (forall i, j :: 0 <= i < j < |ms| ==> StrLess(ms[i].month, ms[j].month))
            && (forall k :: k in KeySet(data, MonthOf) <==> exists i :: 0 <= i < |ms| && ms[i].month == k)
            && (forall i :: 0 <= i < |ms| ==>
                  && ms[i].consumption == TotalWhere(data, MonthOf, ms[i].month, ConsumptionOf)
                  && ms[i].plan1TotalCost == TotalWhere(data, MonthOf, ms[i].month, Plan1CostOf) + charge1
                  && ms[i].plan2TotalCost == TotalWhere(data, MonthOf, ms[i].month, Plan2CostOf) + charge2
                  && ms[i].monthlySavings == ms[i].plan1TotalCost - ms[i].plan2TotalCost)
  {
    var ms := MonthComparisonsOf(data, charge1, charge2);
    var ks := SortedKeys(data, MonthOf);
    forall i | 0 <= i < |ms|
      ensures ms[i].month == ks[i]
      ensures ms[i].consumption == TotalWhere(data, MonthOf, ms[i].month, ConsumptionOf)
      ensures ms[i].plan1TotalCost == TotalWhere(data, MonthOf, ms[i].month, Plan1CostOf) + charge1
      ensures ms[i].plan2TotalCost == TotalWhere(data, MonthOf, ms[i].month, Plan2CostOf) + charge2
      ensures ms[i].monthlySavings == ms[i].plan1TotalCost - ms[i].plan2TotalCost
    {
      var acc := GroupSums(data, MonthOf, ks[i]);
      assert ms[i] == MonthSummaryOf(ks[i], acc, charge1, charge2);
    }
    forall k | k in KeySet(data, MonthOf) ensures exists i :: 0 <= i < |ms| && ms[i].month == k {
      var i :| 0 <= i < |ks| && ks[i] == k;
      assert ms[i].month == k;
    }
    forall k | exists i :: 0 <= i < |ms| && ms[i].month == k ensures k in KeySet(data, MonthOf) {
      var i :| 0 <= i < |ms| && ms[i].month == k;
      assert ks[i] in ks;
    }
  }
}
