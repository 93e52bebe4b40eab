/** Properties of the legacy calculator's summaries: the groups partition the rows, the monthly
    savings add up to the overall savings, and the summaries come out in key order with the
    totals of their groups. */
module EnergyProperties {
  import opened Seqs
  import opened Text
  import opened EnergyRates
  import opened EnergySummaries

  function PeriodConsumption(p: PeriodRow): real { p.consumption }
  function PeriodCost1(p: PeriodRow): real { p.cost1 }
  function PeriodCost2(p: PeriodRow): real { p.cost2 }
  function PeriodCostDiff(p: PeriodRow): real { p.costDiff }

  function MonthConsumption(m: MonthRow): real { m.consumption }
  function MonthCost1(m: MonthRow): real { m.cost1 }
  function MonthCost2(m: MonthRow): real { m.cost2 }
  function MonthSavings(m: MonthRow): real { m.costSavings }

  /** The figures of the period row at position `i`: the totals over the rows of its key. */
  lemma PeriodRowFigures(data: seq<Costed>, i: nat)
    requires i < |PeriodSummariesOf(data)|
    ensures var p := PeriodSummariesOf(data)[i];
            var k := SortedKeys(data, PeriodKeyOf)[i];
            && p.consumption == TotalWhere(data, PeriodKeyOf, k, ConsumptionOf)
            && p.cost1 == TotalWhere(data, PeriodKeyOf, k, Cost1Of)
            && p.cost2 == TotalWhere(data, PeriodKeyOf, k, Cost2Of)
            && p.costDiff == TotalWhere(data, PeriodKeyOf, k, CostDiffOf)
            && k == p.season + "-" + p.rateTier1
            && p == PeriodRowOf(FirstWith(data, PeriodKeyOf, k), GroupSums(data, PeriodKeyOf, PeriodValues, k))
  {
  }

  /** The period groups partition the rows: their consumptions and costs add up to the totals
      over all rows, and their accumulated differences to the difference of the cost totals. */
  lemma PeriodsPartitionRows(data: seq<Costed>)
    ensures var ps := PeriodSummariesOf(data);
            && Total(ps, PeriodConsumption) == Total(data, ConsumptionOf)
            && Total(ps, PeriodCost1) == Total(data, Cost1Of)
            && Total(ps, PeriodCost2) == Total(data, Cost2Of)
            && Total(ps, PeriodCostDiff) == Total(data, Cost2Of) - Total(data, Cost1Of)
  {
    var ps := PeriodSummariesOf(data);
    var ks := SortedKeys(data, PeriodKeyOf);
    var wc := (k: string) => TotalWhere(data, PeriodKeyOf, k, ConsumptionOf);
    var w1 := (k: string) => TotalWhere(data, PeriodKeyOf, k, Cost1Of);
    var w2 := (k: string) => TotalWhere(data, PeriodKeyOf, k, Cost2Of);
    var wd := (k: string) => TotalWhere(data, PeriodKeyOf, k, CostDiffOf);
    forall i | 0 <= i < |ps|
      ensures PeriodConsumption(ps[i]) == wc(ks[i]) && PeriodCost1(ps[i]) == w1(ks[i])
      ensures PeriodCost2(ps[i]) == w2(ks[i]) && PeriodCostDiff(ps[i]) == wd(ks[i])
    {
      PeriodRowFigures(data, i);
    }
    TotalPointwise(ps, ks, PeriodConsumption, wc);
    TotalPointwise(ps, ks, PeriodCost1, w1);
    TotalPointwise(ps, ks, PeriodCost2, w2);
    TotalPointwise(ps, ks, PeriodCostDiff, wd);
    PartitionTotalBy(ks, data, PeriodKeyOf, ConsumptionOf, wc);
    PartitionTotalBy(ks, data, PeriodKeyOf, Cost1Of, w1);
    PartitionTotalBy(ks, data, PeriodKeyOf, Cost2Of, w2);
    PartitionTotalBy(ks, data, PeriodKeyOf, CostDiffOf, wd);
    TotalMinus(data, Cost2Of, Cost1Of, CostDiffOf);
  }

  /** A period's accumulated difference is the gap between its two cost totals, and its savings
      are the size of that gap. */
  lemma PeriodSavingsAreGap(data: seq<Costed>, i: nat)
    requires i < |PeriodSummariesOf(data)|
    ensures var p := PeriodSummariesOf(data)[i];
            && p.costDiff == p.cost2 - p.cost1
            && p.costSavings == Abs(p.cost2 - p.cost1)
  {
    var p := PeriodSummariesOf(data)[i];
    var k := SortedKeys(data, PeriodKeyOf)[i];
    PeriodRowFigures(data, i);
    TotalWhereMinus(data, PeriodKeyOf, k, Cost2Of, Cost1Of, CostDiffOf);
    assert p.costDiff == p.cost2 - p.cost1;
    if p.costDiff < 0.0 {
      assert p.costSavings == -p.costDiff;
    } else {
      assert p.costSavings == p.costDiff;
    }
  }

  /** The order the period rows come out in: season first, then the tier label. */
  predicate PeriodBefore(a: PeriodRow, b: PeriodRow) {
    StrLess(a.season, b.season) || (a.season == b.season && StrLess(a.rateTier1, b.rateTier1))
  }

  /** The season of every period row is a season label. */
  lemma PeriodSeasonLabelled(data: seq<Costed>, i: nat)
    requires SeasonsLabelled(data)
    requires i < |PeriodSummariesOf(data)|
    ensures |PeriodSummariesOf(data)[i].season| == 6
  {
    var k := SortedKeys(data, PeriodKeyOf)[i];
    PeriodRowFigures(data, i);
    var first := FirstWith(data, PeriodKeyOf, k);
    var n :| 0 <= n < |data| && data[n] == first;
  }

  /** On rows as the enrichment step labels them, the period rows come out sorted by season and
      then by tier label, with no (season, tier) pair twice. */
  lemma PeriodSummariesSorted(data: seq<Costed>)
    requires SeasonsLabelled(data)
    ensures var ps := PeriodSummariesOf(data);
            forall i, j :: 0 <= i < j < |ps| ==> PeriodBefore(ps[i], ps[j])
  {
    var ps := PeriodSummariesOf(data);
    var ks := SortedKeys(data, PeriodKeyOf);
    forall i, j | 0 <= i < j < |ps| ensures PeriodBefore(ps[i], ps[j]) {
      PeriodRowFigures(data, i);
      PeriodRowFigures(data, j);
      PeriodSeasonLabelled(data, i);
      PeriodSeasonLabelled(data, j);
      var a, b := ps[i], ps[j];
      var pa, pb := a.season + "-", b.season + "-";
      assert ks[i] == pa + a.rateTier1 && ks[j] == pb + b.rateTier1;
      StrLessEqualLengthPrefix(pa, pb, a.rateTier1, b.rateTier1);
      StrLessEqualLengthPrefix(a.season, b.season, "-", "-");
      StrLessIrreflexive("-");
      if pa == pb {
        assert pa[..6] == a.season && pb[..6] == b.season;
      }
    }
  }

  /** Every row's (season, tier) pair has a period row, whose figures are the totals over the
      rows with that pair. */
  lemma PeriodSummariesCover(data: seq<Costed>, u: Costed)
    requires u in data
    ensures var ps := PeriodSummariesOf(data);
            exists i :: 0 <= i < |ps| && ps[i].season + "-" + ps[i].rateTier1 == PeriodKeyOf(u)
              && ps[i].consumption == TotalWhere(data, PeriodKeyOf, PeriodKeyOf(u), ConsumptionOf)
              && ps[i].cost1 == TotalWhere(data, PeriodKeyOf, PeriodKeyOf(u), Cost1Of)
              && ps[i].cost2 == TotalWhere(data, PeriodKeyOf, PeriodKeyOf(u), Cost2Of)
  {
    var ks := SortedKeys(data, PeriodKeyOf);
    var n :| 0 <= n < |data| && data[n] == u;
    assert PeriodKeyOf(u) in KeySet(data, PeriodKeyOf);
    var i :| 0 <= i < |ks| && ks[i] == PeriodKeyOf(u);
    PeriodRowFigures(data, i);
  }

  /** The figures of the month row at position `i`: its key, and the totals over that month's
      rows. */
  lemma MonthRowFigures(data: seq<Costed>, i: nat)
    requires i < |MonthlySummariesOf(data)|
    ensures var m := MonthlySummariesOf(data)[i];
            && m.datetime == SortedKeys(data, MonthKeyOf)[i]
            && m.consumption == TotalWhere(data, MonthKeyOf, m.datetime, ConsumptionOf)
            && m.cost1 == TotalWhere(data, MonthKeyOf, m.datetime, Cost1Of)
            && m.cost2 == TotalWhere(data, MonthKeyOf, m.datetime, Cost2Of)
            && m.fixedCharge == MonthlyFixedCharge
            && m.costSavings == m.cost2 - (m.cost1 + MonthlyFixedCharge)
  {
    var ks := SortedKeys(data, MonthKeyOf);
    var acc := GroupSums(data, MonthKeyOf, MonthValues, ks[i]);
    assert MonthlySummariesOf(data)[i] == MonthRowOf(ks[i], acc);
  }

  lemma MonthRowKey(data: seq<Costed>, i: nat)
    requires i < |MonthlySummariesOf(data)|
    ensures MonthlySummariesOf(data)[i].datetime == SortedKeys(data, MonthKeyOf)[i]
  {
    var ks := SortedKeys(data, MonthKeyOf);
    var acc := GroupSums(data, MonthKeyOf, MonthValues, ks[i]);
    assert MonthlySummariesOf(data)[i] == MonthRowOf(ks[i], acc);
  }

  /** The month rows carry the sorted month keys, in order. */
  lemma MonthKeysShown(data: seq<Costed>)
    ensures var ms := MonthlySummariesOf(data);
            var ks := SortedKeys(data, MonthKeyOf);
            |ms| == |ks| && forall i :: 0 <= i < |ms| ==> ms[i].datetime == ks[i]
  {
    forall i | 0 <= i < |MonthlySummariesOf(data)|
      ensures MonthlySummariesOf(data)[i].datetime == SortedKeys(data, MonthKeyOf)[i]
    {
      MonthRowKey(data, i);
    }
  }

  /** The month rows come out in strictly increasing month order. */
  lemma MonthlySummariesSorted(data: seq<Costed>)
    ensures var ms := MonthlySummariesOf(data);
            forall i, j :: 0 <= i < j < |ms| ==> StrLess(ms[i].datetime, ms[j].datetime)
  {
    MonthKeysShown(data);
  }

  /** There is a month row for exactly the months the rows cover. */
  lemma MonthlySummariesCover(data: seq<Costed>)
    ensures var ms := MonthlySummariesOf(data);
            forall k :: k in KeySet(data, MonthKeyOf) <==> exists i :: 0 <= i < |ms| && ms[i].datetime == k
  {
    var ms := MonthlySummariesOf(data);
    var ks := SortedKeys(data, MonthKeyOf);
    MonthKeysShown(data);
    forall k | k in KeySet(data, MonthKeyOf) ensures exists i :: 0 <= i < |ms| && ms[i].datetime == k {
      var i :| 0 <= i < |ks| && ks[i] == k;
      assert ms[i].datetime == k;
    }
    forall k | exists i :: 0 <= i < |ms| && ms[i].datetime == k ensures k in KeySet(data, MonthKeyOf) {
      var i :| 0 <= i < |ms| && ms[i].datetime == k;
      assert ks[i] in ks;
    }
  }

  /** There is one month row per distinct month. */
  lemma MonthCount(data: seq<Costed>)
    ensures |MonthlySummariesOf(data)| == |KeySet(data, MonthKeyOf)|
  {
    SortedKeysCount(data, MonthKeyOf);
  }

  /** The fixed charge is one monthly charge per distinct month. */
  lemma FixedChargeTimes(data: seq<Costed>, n: nat)
    requires n == |KeySet(data, MonthKeyOf)|
    ensures FixedCharge(data) == Times(n, MonthlyFixedCharge)
  {
    TimesIsProduct(n, MonthlyFixedCharge);
  }

  /** The month groups partition the rows: their consumptions and costs add up to the totals
      over all rows. */
  lemma MonthsPartitionRows(data: seq<Costed>)
    ensures var ms := MonthlySummariesOf(data);
            && Total(ms, MonthConsumption) == Total(data, ConsumptionOf)
            && Total(ms, MonthCost1) == Total(data, Cost1Of)
            && Total(ms, MonthCost2) == Total(data, Cost2Of)
  {
    var ms := MonthlySummariesOf(data);
    var ks := SortedKeys(data, MonthKeyOf);
    var wc := (k: string) => TotalWhere(data, MonthKeyOf, k, ConsumptionOf);
    var w1 := (k: string) => TotalWhere(data, MonthKeyOf, k, Cost1Of);
    var w2 := (k: string) => TotalWhere(data, MonthKeyOf, k, Cost2Of);
    forall i | 0 <= i < |ms|
      ensures MonthConsumption(ms[i]) == wc(ks[i]) && MonthCost1(ms[i]) == w1(ks[i]) && MonthCost2(ms[i]) == w2(ks[i])
    {
      MonthRowFigures(data, i);
    }
    TotalPointwise(ms, ks, MonthConsumption, wc);
    TotalPointwise(ms, ks, MonthCost1, w1);
    TotalPointwise(ms, ks, MonthCost2, w2);
    PartitionTotalBy(ks, data, MonthKeyOf, ConsumptionOf, wc);
    PartitionTotalBy(ks, data, MonthKeyOf, Cost1Of, w1);
    PartitionTotalBy(ks, data, MonthKeyOf, Cost2Of, w2);
  }

  /** With the fixed charge `processData` passes (one monthly charge per distinct month), the
      monthly figures add up to the overall summary: consumption to `totalKWh` and the monthly
      savings to `totalSavings`. */
  lemma MonthlySavingsAddUp(data: seq<Costed>)
    ensures var ms := MonthlySummariesOf(data);
            var o := OverallSummaryOf(data, FixedCharge(data));
            && |ms| == |KeySet(data, MonthKeyOf)|
            && Total(ms, MonthConsumption) == o.totalKWh
            && Total(ms, MonthSavings) == o.totalSavings
  {
    var ms := MonthlySummariesOf(data);
    var paid := (m: MonthRow) => m.cost1 + MonthlyFixedCharge;
    MonthCount(data);
    FixedChargeTimes(data, |ms|);
    MonthsPartitionRows(data);
    forall i | 0 <= i < |ms|
      ensures paid(ms[i]) == MonthCost1(ms[i]) + MonthlyFixedCharge
      ensures MonthSavings(ms[i]) == MonthCost2(ms[i]) - paid(ms[i])
    {
      MonthRowFigures(data, i);
    }
    TotalPlusConst(ms, paid, MonthCost1, MonthlyFixedCharge);
    TotalMinus(ms, MonthCost2, paid, MonthSavings);
  }
}
