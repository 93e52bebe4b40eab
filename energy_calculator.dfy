/** The state and operations of the legacy calculator (`useEnergyCalculator`): the priced rows,
    the overall, period and month summaries, and the status flags. `processData` and
    `generateSummaries` are proved against the functions of `EnergySummaries`. */
module EnergyController {
  import opened Wrappers
  import opened Seqs
  import opened Text
  import opened Ingest
  import opened EnergySummaries

  /** The period table from the grouped sums: one row per key, in the order of `keys`. */
  function PeriodTable(keys: seq<string>, firsts: map<string, Costed>, sums: map<string, seq<real>>): (r: seq<PeriodRow>)
    requires forall k :: k in keys ==> k in firsts && k in sums && |sums[k]| == 4
    ensures |r| == |keys|
  {
    seq(|keys|, i requires 0 <= i < |keys| => PeriodRowOf(firsts[keys[i]], sums[keys[i]]))
  }

  /** The month table from the grouped sums. */
  function MonthTable(keys: seq<string>, sums: map<string, seq<real>>): (r: seq<MonthRow>)
    requires forall k :: k in keys ==> k in sums && |sums[k]| == 3
    ensures |r| == |keys|
  {
    seq(|keys|, i requires 0 <= i < |keys| => MonthRowOf(keys[i], sums[keys[i]]))
  }

  /** A group's accumulator is the group's sums. */
  lemma GroupedSums(data: seq<Costed>, key: Costed -> string, vals: seq<Costed -> real>, order: seq<string>,
                    firsts: map<string, Costed>, sums: map<string, seq<real>>, k: string)
    requires Grouped(data, key, vals, order, firsts, sums)
    requires k in sums
    ensures sums[k] == GroupSums(data, key, vals, k)
  {
  }

  /** The period table built from the grouping pass is `PeriodSummariesOf`. */
  lemma PeriodTableFromGroups(data: seq<Costed>, order: seq<string>,
                              firsts: map<string, Costed>, sums: map<string, seq<real>>)
    requires Grouped(data, PeriodKeyOf, PeriodValues, order, firsts, sums)
    ensures forall k :: k in SortStrings(order) ==> k in firsts && k in sums && |sums[k]| == 4
    ensures PeriodTable(SortStrings(order), firsts, sums) == PeriodSummariesOf(data)
  {
    var ks := SortStrings(order);
    assert ks == SortedKeys(data, PeriodKeyOf);
    var a := PeriodTable(ks, firsts, sums);
    var b := PeriodSummariesOf(data);
    forall i | 0 <= i < |ks| ensures a[i] == b[i] {
      GroupedSums(data, PeriodKeyOf, PeriodValues, order, firsts, sums, ks[i]);
    }
  }

  /** The month table built from the grouping pass is `MonthlySummariesOf`. */
  lemma MonthTableFromGroups(data: seq<Costed>, order: seq<string>,
                             firsts: map<string, Costed>, sums: map<string, seq<real>>)
    requires Grouped(data, MonthKeyOf, MonthValues, order, firsts, sums)
    ensures forall k :: k in SortStrings(order) ==> k in sums && |sums[k]| == 3
    ensures MonthTable(SortStrings(order), sums) == MonthlySummariesOf(data)
  {
    var ks := SortStrings(order);
    assert ks == SortedKeys(data, MonthKeyOf);
    var a := MonthTable(ks, sums);
    var b := MonthlySummariesOf(data);
    forall i | 0 <= i < |ks| ensures a[i] == b[i] {
      GroupedSums(data, MonthKeyOf, MonthValues, order, firsts, sums, ks[i]);
    }
  }

  /** Step 2 of `processData`: price every row under both schedules and collect the month keys
      met on the way. */
  method CostPass(processed: seq<Prepared>) returns (costed: seq<Costed>, uniqueMonths: set<string>)
    ensures costed == CostedRows(processed)
    ensures uniqueMonths == KeySet(costed, MonthKeyOf)
  {
    costed := [];
    uniqueMonths := {};
    var i := 0;
    while i < |processed|
      invariant 0 <= i <= |processed|
      invariant |costed| == i && forall j :: 0 <= j < i ==> costed[j] == CostRow(processed[j])
      invariant uniqueMonths == KeySet(costed, MonthKeyOf)
    {
      var row := CostRow(processed[i]);
      KeySetSnoc(costed, row, MonthKeyOf);
      uniqueMonths := uniqueMonths + {row.monthYearKey};
      costed := costed + [row];
      i := i + 1;
    }
  }

  /** The charge computed from the collected month keys is `FixedCharge`. */
  lemma MonthsCharged(costed: seq<Costed>, uniqueMonths: set<string>)
    requires uniqueMonths == KeySet(costed, MonthKeyOf)
    ensures (|uniqueMonths| as real) * MonthlyFixedCharge == FixedCharge(costed)
  {
  }

  class EnergyCalculator {
    var usageData: seq<Costed>
    var overallSummary: Option<OverallSummary>
    var periodSummary: seq<PeriodRow>
    var monthlySummary: seq<MonthRow>
    var processing: bool
    var error: Option<string>

    /** The three summaries show `s`. */
    predicate Shows(s: Summaries)
      reads this`overallSummary, this`periodSummary, this`monthlySummary
    {
      overallSummary == Some(s.overall) && periodSummary == s.periods && monthlySummary == s.months
    }

    /** The summaries are those of the rows held, with one monthly charge per month the rows
        cover. */
    predicate Consistent()
      reads this`usageData, this`overallSummary, this`periodSummary, this`monthlySummary
    {
      Shows(SummariesOf(usageData, FixedCharge(usageData)))
    }

    constructor ()
      ensures usageData == [] && overallSummary.None? && periodSummary == [] && monthlySummary == []
      ensures !processing && error.None?
    {
      usageData := [];
      overallSummary := None;
      periodSummary := [];
      monthlySummary := [];
      processing := false;
      error := None;
    }

    /** `generateSummaries`: the overall figures, then the period and month tables, each built
        by one grouping pass over the rows and sorted by key. */
    method GenerateSummaries(data: seq<Costed>, fixedCharge: real)
      modifies this`overallSummary, this`periodSummary, this`monthlySummary
      ensures Shows(SummariesOf(data, fixedCharge))
    {
      overallSummary := Some(OverallSummaryOf(data, fixedCharge));

      var order, firsts, sums := GroupTotals(data, PeriodKeyOf, PeriodValues);
      PeriodTableFromGroups(data, order, firsts, sums);
      periodSummary := PeriodTable(SortStrings(order), firsts, sums);

      var morder, mfirsts, msums := GroupTotals(data, MonthKeyOf, MonthValues);
      MonthTableFromGroups(data, morder, mfirsts, msums);
      monthlySummary := MonthTable(SortStrings(morder), msums);
    }

    /** `processData`: enrich the surviving rows, price them under both schedules, keep them,
        and summarize them with one monthly charge per distinct month. */
    method ProcessData(rawData: seq<RawRow>, parseNumber: string -> Option<real>,
                       parseDateTime: string -> Option<DateTime>)
      modifies this`usageData, this`overallSummary, this`periodSummary, this`monthlySummary,
               this`processing, this`error
      ensures usageData == UsageOf(rawData, parseNumber, parseDateTime)
      ensures Consistent()
      ensures !processing && error.None?
    {
      processing := true;
      error := None;
      LoadRows(PreparedRows(rawData, parseNumber, parseDateTime));
      processing := false;
    }

    /** Steps 2 and 3 of `processData` on the enriched rows: price them, keep them, and
        summarize them with one monthly charge per month key collected while pricing. */
    method LoadRows(processed: seq<Prepared>)
      modifies this`usageData, this`overallSummary, this`periodSummary, this`monthlySummary
      ensures usageData == CostedRows(processed)
      ensures Consistent()
    {
      var costCalculated, uniqueMonths := CostPass(processed);
      KeepRows(costCalculated, uniqueMonths);
    }

    /** Keep the priced rows and summarize them with one monthly charge per collected month
        key. */
    method KeepRows(costed: seq<Costed>, uniqueMonths: set<string>)
      requires uniqueMonths == KeySet(costed, MonthKeyOf)
      modifies this`usageData, this`overallSummary, this`periodSummary, this`monthlySummary
      ensures usageData == costed
      ensures Consistent()
    {
      var totalFixedCharge := (|uniqueMonths| as real) * MonthlyFixedCharge;
      MonthsCharged(costed, uniqueMonths);
      ghost var summaries := SummariesOf(costed, FixedCharge(costed));
      usageData := costed;
      GenerateSummaries(costed, totalFixedCharge);
      assert Shows(summaries);
    }
  }
}
