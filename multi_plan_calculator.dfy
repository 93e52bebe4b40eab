/** The state and operations of the two-plan comparison controller (`useMultiPlanCalculator`):
    the selected plans, the costed usage rows with their untouched original, the three
    comparison tables, and the status flags. Each operation is proved against the functions of
    `MultiPlan` and `MultiPlanUpdates`. */
module MultiPlanController {
  import opened Wrappers
  import opened Seqs
  import opened Text
  import opened Tariffs
  import opened Ingest
  import opened MultiPlan
  import opened MultiPlanUpdates

  const DefaultPlans: seq<string> := ["TOU-DR1", "EV-TOU-5"]
  const TooManyPlansError: string := "Maximum of two plans can be selected for comparison"

  /** What `processData` leaves in `error`: the plan-count refusal, or the message of what
      threw during processing. */
  datatype ProcessError = PlanCountError | ProcessFailed(cause: Failure)

  /** The text of `error` as the source assigns it. */
  function ErrorMessage(e: ProcessError): string {
    match e
    case PlanCountError => "Please select exactly 2 plans for comparison"
    case ProcessFailed(cause) => "Failed to process energy data. " + FailureMessage(cause)
  }

  /** A catalog entry as the plan picker lists it, flagged when it is selected. */
  datatype SelectablePlan = SelectablePlan(
    key: string,
    name: string,
    description: string,
    planType: PlanType,
    monthlyCharge: real,
    requirements: seq<string>,
    selected: bool)

  /** `getSelectablePlans` for a selection: every catalog plan in catalog order. */
  function SelectablePlansOf(selection: seq<string>): (r: seq<SelectablePlan>)
    ensures |r| == |GetAvailablePlans()|
    ensures forall i :: 0 <= i < |r| ==> r[i].key == GetAvailablePlans()[i] && r[i].key in SdgePlans
    ensures forall i :: 0 <= i < |r| ==> (r[i].selected <==> r[i].key in selection)
    ensures forall i :: 0 <= i < |r| ==> r[i].monthlyCharge == SdgePlans[r[i].key].monthlyCharge
    ensures forall i :: 0 <= i < |r| ==>
      var p := SdgePlans[r[i].key];
      r[i].name == p.name && r[i].description == p.description &&
      r[i].planType == p.planType && r[i].requirements == p.requirements
  {
    var keys := GetAvailablePlans();
    seq(|keys|, i requires 0 <= i < |keys| =>
      var info := SdgePlans[keys[i]];
      SelectablePlan(keys[i], info.name, info.description, info.planType, info.monthlyCharge,
                     info.requirements, keys[i] in selection))
  }

  /** The entries flagged as selected are exactly the catalog plans of the selection; a
      selected key outside the catalog gets no entry. */
  lemma SelectedEntries(selection: seq<string>, k: string)
    ensures (exists i :: 0 <= i < |SelectablePlansOf(selection)| &&
               SelectablePlansOf(selection)[i].key == k && SelectablePlansOf(selection)[i].selected)
            <==> k in selection && k in SdgePlans
  {
    var r := SelectablePlansOf(selection);
    if k in selection && k in SdgePlans {
      var keys := GetAvailablePlans();
      var i :| 0 <= i < |keys| && keys[i] == k;
      assert r[i].key == k && r[i].selected;
    }
  }

  /** The period table from the grouped sums: one summary per key, in the order of `keys`. */
  function PeriodTable(keys: seq<string>, firsts: map<string, UsageRow>, sums: map<string, seq<real>>): (r: seq<PeriodSummary>)
    requires forall k :: k in keys ==> k in firsts && k in sums && |sums[k]| == 3
    ensures |r| == |keys|
  {
    seq(|keys|, i requires 0 <= i < |keys| => PeriodSummaryOf(firsts[keys[i]], sums[keys[i]]))
  }

  /** The month table from the grouped sums and the two monthly charges. */
  function MonthTable(keys: seq<string>, sums: map<string, seq<real>>, charge1: real, charge2: real): (r: seq<MonthSummary>)
    requires forall k :: k in keys ==> k in sums && |sums[k]| == 3
    ensures |r| == |keys|
  {
    seq(|keys|, i requires 0 <= i < |keys| => MonthSummaryOf(keys[i], sums[keys[i]], charge1, charge2))
  }

  /** A group's accumulator is the group's sums. */
  lemma GroupedSums(data: seq<UsageRow>, key: UsageRow -> string, order: seq<string>,
                    firsts: map<string, UsageRow>, sums: map<string, seq<real>>, k: string)
    requires Grouped(data, key, RowValues, order, firsts, sums)
    requires k in sums
    ensures sums[k] == GroupSums(data, key, k)
  {
    assert |sums[k]| == 3;
    forall j | 0 <= j < 3 ensures sums[k][j] == GroupSums(data, key, k)[j] {
      assert sums[k][j] == TotalWhere(data, key, k, RowValues[j]);
    }
  }

  /** Sorting the grouping pass's keys gives the sorted keys of the data. */
  lemma GroupedKeys(data: seq<UsageRow>, key: UsageRow -> string, order: seq<string>,
                    firsts: map<string, UsageRow>, sums: map<string, seq<real>>)
    requires Grouped(data, key, RowValues, order, firsts, sums)
    ensures Distinct(order)
    ensures SortStrings(order) == SortedKeys(data, key)
    ensures forall k :: k in SortStrings(order) ==> k in firsts && k in sums && |sums[k]| == 3
  {
    var ks := SortedKeys(data, key);
    assert ks == SortStrings(order);
  }

  /** The period table built from the grouping pass is `PeriodComparisonsOf`. */
  lemma PeriodTableFromGroups(data: seq<UsageRow>, order: seq<string>,
                              firsts: map<string, UsageRow>, sums: map<string, seq<real>>)
    requires Grouped(data, PeriodKeyOf, RowValues, order, firsts, sums)
    ensures Distinct(order)
    ensures forall k :: k in SortStrings(order) ==> k in firsts && k in sums && |sums[k]| == 3
    ensures PeriodTable(SortStrings(order), firsts, sums) == PeriodComparisonsOf(data)
  {
    GroupedKeys(data, PeriodKeyOf, order, firsts, sums);
    var ks := SortStrings(order);
    var a := PeriodTable(ks, firsts, sums);
    var b := PeriodComparisonsOf(data);
    forall i | 0 <= i < |ks| ensures a[i] == b[i] {
      GroupedSums(data, PeriodKeyOf, order, firsts, sums, ks[i]);
    }
  }

  /** The month table built from the grouping pass is `MonthComparisonsOf`. */
  lemma MonthTableFromGroups(data: seq<UsageRow>, order: seq<string>,
                             firsts: map<string, UsageRow>, sums: map<string, seq<real>>,
                             charge1: real, charge2: real)
    requires Grouped(data, MonthOf, RowValues, order, firsts, sums)
    ensures Distinct(order)
    ensures forall k :: k in SortStrings(order) ==> k in sums && |sums[k]| == 3
    ensures MonthTable(SortStrings(order), sums, charge1, charge2) == MonthComparisonsOf(data, charge1, charge2)
  {
    GroupedKeys(data, MonthOf, order, firsts, sums);
    var ks := SortStrings(order);
    var a := MonthTable(ks, sums, charge1, charge2);
    var b := MonthComparisonsOf(data, charge1, charge2);
    forall i | 0 <= i < |ks| ensures a[i] == b[i] {
      GroupedSums(data, MonthOf, order, firsts, sums, ks[i]);
    }
  }

  /** The daily totals accumulated by the grouping pass are `DailyTotals`. */
  lemma DailyFromGroups(processed: seq<Reading>, order: seq<string>,
                        firsts: map<string, Reading>, sums: map<string, seq<real>>)
    requires Grouped(processed, ReadingDateKey, [ReadingConsumption], order, firsts, sums)
    ensures (map k | k in sums :: sums[k][0]) == DailyTotals(processed)
  {
    var a := map k | k in sums :: sums[k][0];
    var b := DailyTotals(processed);
    assert a.Keys == b.Keys;
    forall k | k in a ensures a[k] == b[k] {
      assert [ReadingConsumption][0] == ReadingConsumption;
    }
  }

  /** The daily-totals step of `processData`: one grouping pass keyed by the day. */
  method DailyTotalsPass(processed: seq<Reading>) returns (daily: map<string, real>)
    ensures daily == DailyTotals(processed)
  {
    var order, firsts, sums := GroupTotals(processed, ReadingDateKey, [ReadingConsumption]);
    DailyFromGroups(processed, order, firsts, sums);
    daily := map k | k in sums :: sums[k][0];
  }

  /** Steps 1 to 3 of `processData`: parse and enrich the rows, total each day, and cost every
      reading under both plans. */
  method CostUsage(catalog: map<string, Plan>, rawData: seq<RawRow>, parseNumber: string -> Option<real>,
                   parseDateTime: string -> Option<DateTime>, p1: string, p2: string)
    returns (costed: Result<seq<UsageRow>, string>)
    requires ValidCatalog(catalog)
    ensures var processed := Processed(rawData, parseNumber, parseDateTime);
            costed == CostRows(catalog, processed, DailyTotals(processed), p1, p2)
  {
    var processed := Processed(rawData, parseNumber, parseDateTime);
    var daily := DailyTotalsPass(processed);
    costed := CostRows(catalog, processed, daily, p1, p2);
  }

  /** Every reading's day has a total. */
  lemma DailyKeysPresent(processed: seq<Reading>)
    ensures forall i :: 0 <= i < |processed| ==> processed[i].dateKey in DailyTotals(processed)
  {
    forall i | 0 <= i < |processed| ensures processed[i].dateKey in DailyTotals(processed) {
      assert ReadingDateKey(processed[i]) in KeySet(processed, ReadingDateKey);
    }
  }

  /** `ProcessDataOf` in the order the controller takes its steps: costing, then comparisons. */
  lemma ProcessDataSteps(catalog: map<string, Plan>, rawData: seq<RawRow>, parseNumber: string -> Option<real>,
                         parseDateTime: string -> Option<DateTime>, plans: seq<string>)
    requires ValidCatalog(catalog) && |plans| == 2
    ensures var processed := Processed(rawData, parseNumber, parseDateTime);
            var costed := CostRows(catalog, processed, DailyTotals(processed), plans[0], plans[1]);
            var r := ProcessDataOf(catalog, rawData, parseNumber, parseDateTime, plans);
            && (costed.Err? ==> r == Err(RateFailure(costed.error)))
            && (costed.Ok? ==> r == Comparing(catalog, costed.value, plans))
  {
    DailyKeysPresent(Processed(rawData, parseNumber, parseDateTime));
  }

  class MultiPlanCalculator {
    /** The tariff table the calculator prices with: the SDG&E catalog. */
    const catalog: map<string, Plan>
    var usageData: seq<UsageRow>
    var originalUsageData: seq<UsageRow>
    var selectedPlans: seq<string>
    var overallComparison: Option<Overall>
    var periodComparisons: seq<PeriodSummary>
    var monthlyComparisons: seq<MonthSummary>
    var processing: bool
    var error: Option<ProcessError>
    var hasDataBeenModified: bool
    var updating: bool

    /** Between operations: no operation is in progress; the working rows are the original rows
        with at most their amounts edited, and are the original rows themselves until an edit. */
    ghost predicate Valid()
      reads this`usageData, this`originalUsageData, this`hasDataBeenModified, this`processing, this`updating
    {
      && ValidCatalog(catalog)
      && !processing && !updating
      && Skeletons(usageData) == Skeletons(originalUsageData)
      && (!hasDataBeenModified ==> usageData == originalUsageData)
    }

    /** The three comparison tables show `c`. */
    predicate Shows(c: Comparisons)
      reads this`overallComparison, this`periodComparisons, this`monthlyComparisons
    {
      overallComparison == Some(c.overall) && periodComparisons == c.periods && monthlyComparisons == c.months
    }

    /** What `generateComparisons` over `data` leaves, given the tables before it: the tables
        show the comparisons of `data` under the selected plans, or, when a selected key has no
        plan, the error is reported and the tables are as they were. */
    predicate Rebuilt(data: seq<UsageRow>, err: Option<Failure>, overall0: Option<Overall>,
                      periods0: seq<PeriodSummary>, months0: seq<MonthSummary>)
      reads this`selectedPlans, this`overallComparison, this`periodComparisons, this`monthlyComparisons
    {
      match GenerateComparisonsOf(catalog, data, selectedPlans)
      case Ok(c) => err.None? && Shows(c)
      case Err(e) => err == Some(e) && overallComparison == overall0
                     && periodComparisons == periods0 && monthlyComparisons == months0
    }

    /** What `processData` leaves once two plans are selected, given the outcome of its steps:
        the costed rows, an untouched copy and their comparisons, or the prefixed message of what
        threw and the cleared state. */
    predicate Loaded(r: Result<Processing, Failure>)
      reads this`usageData, this`originalUsageData, this`overallComparison, this`periodComparisons,
            this`monthlyComparisons, this`error, this`hasDataBeenModified, this`updating
    {
      match r
      case Ok(p) =>
        && error.None? && usageData == p.rows && originalUsageData == p.rows
        && !hasDataBeenModified && Shows(p.comparisons)
      case Err(e) => error == Some(ProcessFailed(e)) && Cleared()
    }

    /** The state `resetState` leaves. */
    predicate Cleared()
      reads this`usageData, this`originalUsageData, this`overallComparison, this`periodComparisons,
            this`monthlyComparisons, this`hasDataBeenModified, this`updating
    {
      && usageData == [] && originalUsageData == []
      && overallComparison.None? && periodComparisons == [] && monthlyComparisons == []
      && !hasDataBeenModified && !updating
    }

    constructor ()
      ensures Valid() && Cleared()
      ensures catalog == SdgePlans && selectedPlans == DefaultPlans && error.None?
    {
      catalog := SdgePlans;
      SdgePlansValid();
      usageData := [];
      originalUsageData := [];
      selectedPlans := DefaultPlans;
      overallComparison := None;
      periodComparisons := [];
      monthlyComparisons := [];
      processing := false;
      error := None;
      hasDataBeenModified := false;
      updating := false;
    }

    /** `setSelectedPlans`: at most two plans; more throws and keeps the selection. */
    method SetSelectedPlans(plans: seq<string>) returns (err: Option<string>)
      requires Valid()
      modifies this`selectedPlans
      ensures Valid()
      ensures |plans| > 2 ==> err == Some(TooManyPlansError) && selectedPlans == old(selectedPlans)
      ensures |plans| <= 2 ==> err.None? && selectedPlans == plans
    {
      if |plans| > 2 {
        return Some(TooManyPlansError);
      }
      selectedPlans := plans;
      return None;
    }

    /** `getSelectablePlans`. */
    function SelectablePlans(): (r: seq<SelectablePlan>)
      reads this
      ensures r == SelectablePlansOf(selectedPlans)
      ensures |r| == |GetAvailablePlans()|
      ensures forall i :: 0 <= i < |r| ==> r[i].key == GetAvailablePlans()[i]
      ensures forall i :: 0 <= i < |r| ==> (r[i].selected <==> r[i].key in selectedPlans)
    {
      SelectablePlansOf(selectedPlans)
    }

    /** `resetState`. */
    method ResetState()
      modifies this`usageData, this`originalUsageData, this`overallComparison, this`periodComparisons,
               this`monthlyComparisons, this`hasDataBeenModified, this`updating
      ensures Cleared()
      ensures unchanged(this`selectedPlans, this`processing, this`error)
    {
      usageData := [];
      originalUsageData := [];
      overallComparison := None;
      periodComparisons := [];
      monthlyComparisons := [];
      hasDataBeenModified := false;
      updating := false;
    }

    /** `generateComparisons`: the overall figures, then the period and month tables, each built
        by one grouping pass over the rows. With a selected key outside the catalog it throws
        before assigning anything. */
    method GenerateComparisons(data: seq<UsageRow>) returns (err: Option<Failure>)
      modifies this`overallComparison, this`periodComparisons, this`monthlyComparisons
      ensures unchanged(this`usageData, this`originalUsageData, this`selectedPlans, this`processing,
                        this`error, this`hasDataBeenModified, this`updating)
      ensures Rebuilt(data, err, old(overallComparison), old(periodComparisons), old(monthlyComparisons))
    {
      var p1, p2 := PlanAt(selectedPlans, 0), PlanAt(selectedPlans, 1);
      var info1, info2 := GetPlanInfo(catalog, p1), GetPlanInfo(catalog, p2);
      if info1.None? || info2.None? {
        return Some(MissingPlan);
      }
      overallComparison := Some(OverallOf(data, p1, info1.value, p2, info2.value));

      var order, firsts, sums := GroupTotals(data, PeriodKeyOf, RowValues);
      PeriodTableFromGroups(data, order, firsts, sums);
      periodComparisons := PeriodTable(SortStrings(order), firsts, sums);

      var morder, mfirsts, msums := GroupTotals(data, MonthOf, RowValues);
      MonthTableFromGroups(data, morder, mfirsts, msums, info1.value.monthlyCharge, info2.value.monthlyCharge);
      monthlyComparisons := MonthTable(SortStrings(morder), msums, info1.value.monthlyCharge, info2.value.monthlyCharge);
      return None;
    }

    /** `processData`: with exactly two plans selected, parse and enrich the rows, total each
        day, cost every reading under both plans, keep the rows and an untouched copy, and
        build the comparisons; anything that throws is reported with a prefix and clears the
        state. */
    method ProcessData(rawData: seq<RawRow>, parseNumber: string -> Option<real>,
                       parseDateTime: string -> Option<DateTime>)
      requires Valid()
      modifies this`usageData, this`originalUsageData, this`overallComparison, this`periodComparisons,
               this`monthlyComparisons, this`processing, this`error, this`hasDataBeenModified, this`updating
      ensures Valid()
      ensures |selectedPlans| != 2 ==>
                && error == Some(PlanCountError)
                && unchanged(this`usageData, this`originalUsageData, this`hasDataBeenModified)
                && unchanged(this`overallComparison, this`periodComparisons, this`monthlyComparisons)
      ensures |selectedPlans| == 2 ==> Loaded(ProcessDataOf(catalog, rawData, parseNumber, parseDateTime, selectedPlans))
    {
      processing := true;
      error := None;
      if |selectedPlans| != 2 {
        error := Some(PlanCountError);
        processing := false;
        return;
      }
      var costed := CostUsage(catalog, rawData, parseNumber, parseDateTime, selectedPlans[0], selectedPlans[1]);
      ProcessDataSteps(catalog, rawData, parseNumber, parseDateTime, selectedPlans);
      if costed.Err? {
        error := Some(ProcessFailed(RateFailure(costed.error)));
        ResetState();
      } else {
        LoadRows(costed.value);
      }
      processing := false;
    }

    /** The end of `processData` once the rows are costed: keep them and an untouched copy, and
        build the comparisons; a throw there is reported with a prefix and clears the state. */
    method LoadRows(rows: seq<UsageRow>)
      requires error.None? && !updating
      modifies this`usageData, this`originalUsageData, this`overallComparison, this`periodComparisons,
               this`monthlyComparisons, this`error, this`hasDataBeenModified, this`updating
      ensures unchanged(this`selectedPlans, this`processing)
      ensures !updating
      ensures Loaded(Comparing(catalog, rows, selectedPlans))
    {
      usageData := rows;
      originalUsageData := rows;
      hasDataBeenModified := false;
      var err := GenerateComparisons(rows);
      if err.Some? {
        error := Some(ProcessFailed(err.value));
        ResetState();
      }
    }

    /** `resetUsageToOriginal`: restore the untouched rows and rebuild the comparisons; nothing
        happens when there are no rows. */
    method ResetUsageToOriginal() returns (err: Option<Failure>)
      requires Valid()
      modifies this`usageData, this`hasDataBeenModified, this`updating, this`overallComparison,
               this`periodComparisons, this`monthlyComparisons
      ensures Valid()
      ensures old(originalUsageData) == [] ==> err.None? && unchanged(this)
      ensures old(originalUsageData) != [] ==>
                && usageData == originalUsageData && !hasDataBeenModified
                && Rebuilt(usageData, err, old(overallComparison), old(periodComparisons), old(monthlyComparisons))
    {
      if originalUsageData == [] {
        return None;
      }
      err := Restore();
    }

    /** `resetUsageToOriginal` once there are rows to restore. */
    method Restore() returns (err: Option<Failure>)
      requires Valid() && originalUsageData != []
      modifies this`usageData, this`hasDataBeenModified, this`updating, this`overallComparison,
               this`periodComparisons, this`monthlyComparisons
      ensures Valid()
      ensures usageData == originalUsageData && !hasDataBeenModified
      ensures Rebuilt(usageData, err, old(overallComparison), old(periodComparisons), old(monthlyComparisons))
    {
      updating := true;
      usageData := originalUsageData;
      hasDataBeenModified := false;
      err := GenerateComparisons(usageData);
      updating := false;
    }

    /** `updateMonthlyUsage`: scale the month's readings to the new total. */
    method UpdateMonthlyUsage(month: string, consumption: real) returns (err: Option<Failure>)
      requires Valid()
      requires MatchedTotalUsable(MonthUpdate(month, consumption))
      modifies this`usageData, this`hasDataBeenModified, this`updating, this`overallComparison,
               this`periodComparisons, this`monthlyComparisons
      ensures Valid()
      ensures UpdateOutcome(MonthUpdate(month, consumption), old(usageData), old(hasDataBeenModified),
                            old(overallComparison), old(periodComparisons), old(monthlyComparisons), err)
    {
      err := ApplyUpdate(MonthUpdate(month, consumption));
    }

    /** `updatePeriodUsage`: scale the readings of a season and period to the new total. */
    method UpdatePeriodUsage(season: string, period: string, consumption: real) returns (err: Option<Failure>)
      requires Valid()
      requires MatchedTotalUsable(PeriodUpdate(season, period, consumption))
      modifies this`usageData, this`hasDataBeenModified, this`updating, this`overallComparison,
               this`periodComparisons, this`monthlyComparisons
      ensures Valid()
      ensures UpdateOutcome(PeriodUpdate(season, period, consumption), old(usageData), old(hasDataBeenModified),
                            old(overallComparison), old(periodComparisons), old(monthlyComparisons), err)
    {
      err := ApplyUpdate(PeriodUpdate(season, period, consumption));
    }

    /** The edit's group, when it has rows, has a consumption to divide by. */
    predicate MatchedTotalUsable(up: UsageUpdate)
      reads this`usageData
    {
      Matching(usageData, up) != [] ==> Total(Matching(usageData, up), ConsumptionOf) != 0.0
    }

    /** What an edit leaves, given the state before it: nothing changes when there are no rows
        or none matches; otherwise `EditOutcome`. */
    ghost predicate UpdateOutcome(up: UsageUpdate, rows0: seq<UsageRow>, modified0: bool, overall0: Option<Overall>,
                                  periods0: seq<PeriodSummary>, months0: seq<MonthSummary>, err: Option<Failure>)
      reads this`usageData, this`hasDataBeenModified, this`selectedPlans, this`overallComparison,
            this`periodComparisons, this`monthlyComparisons
      requires ValidCatalog(catalog)
    {
      if rows0 == [] || Matching(rows0, up) == [] then
        err.None? && usageData == rows0 && hasDataBeenModified == modified0
        && overallComparison == overall0 && periodComparisons == periods0 && monthlyComparisons == months0
      else
        EditOutcome(up, rows0, overall0, periods0, months0, err)
    }

    /** What an edit of a non-empty group leaves: the rows are what the pass leaves with the
        factor `new total / current total`, the data counts as modified, and unless the pass
        threw the comparisons are rebuilt. */
    ghost predicate EditOutcome(up: UsageUpdate, rows0: seq<UsageRow>, overall0: Option<Overall>,
                                periods0: seq<PeriodSummary>, months0: seq<MonthSummary>, err: Option<Failure>)
      reads this`usageData, this`hasDataBeenModified, this`selectedPlans, this`overallComparison,
            this`periodComparisons, this`monthlyComparisons
      requires ValidCatalog(catalog)
    {
      Total(Matching(rows0, up), ConsumptionOf) != 0.0 &&
      var r := EditPass(catalog, rows0, up, selectedPlans);
      && usageData == r.rows && hasDataBeenModified
      && (r.error.Some? ==>
            && err == Some(RateFailure(r.error.value))
            && overallComparison == overall0 && periodComparisons == periods0 && monthlyComparisons == months0)
      && (r.error.None? ==> Rebuilt(usageData, err, overall0, periods0, months0))
    }

    /** The body shared by the two edits: the `forEach` over the rows, then the comparisons. */
    method ApplyUpdate(up: UsageUpdate) returns (err: Option<Failure>)
      requires Valid()
      requires MatchedTotalUsable(up)
      modifies this`usageData, this`hasDataBeenModified, this`updating, this`overallComparison,
               this`periodComparisons, this`monthlyComparisons
      ensures Valid()
      ensures UpdateOutcome(up, old(usageData), old(hasDataBeenModified),
                            old(overallComparison), old(periodComparisons), old(monthlyComparisons), err)
    {
      if usageData == [] || Matching(usageData, up) == [] {
        return None;
      }
      err := EditGroup(up);
    }

    /** An edit of a group with rows: mark the data modified, run the pass, and rebuild the
        comparisons unless the pass threw. */
    method EditGroup(up: UsageUpdate) returns (err: Option<Failure>)
      requires Valid()
      requires Matching(usageData, up) != [] && Total(Matching(usageData, up), ConsumptionOf) != 0.0
      modifies this`usageData, this`hasDataBeenModified, this`updating, this`overallComparison,
               this`periodComparisons, this`monthlyComparisons
      ensures Valid()
      ensures EditOutcome(up, old(usageData), old(overallComparison), old(periodComparisons), old(monthlyComparisons), err)
    {
      hasDataBeenModified := true;
      updating := true;
      var passErr := Rescale(up);
      if passErr.Some? {
        updating := false;
        return Some(RateFailure(passErr.value));
      }
      err := GenerateComparisons(usageData);
      updating := false;
    }

    /** The factor `new total / current total`, then the `forEach` with it under the first two
        selected plans; only amounts change. */
    method Rescale(up: UsageUpdate) returns (passErr: Option<string>)
      requires ValidCatalog(catalog) && Total(Matching(usageData, up), ConsumptionOf) != 0.0
      modifies this`usageData
      ensures var r := EditPass(catalog, old(usageData), up, selectedPlans);
              usageData == r.rows && passErr == r.error
      ensures Skeletons(usageData) == Skeletons(old(usageData))
    {
      var f := up.consumption / Total(Matching(usageData, up), ConsumptionOf);
      var p1, p2 := PlanAt(selectedPlans, 0), PlanAt(selectedPlans, 1);
      UpdatePassKeepsShape(catalog, usageData, 0, up, f, p1, p2);
      passErr := ScaleMatchingRows(up, f, p1, p2);
    }

    /** The `forEach` of an edit: each matching row is scaled in place and priced again under
        both selected plans; a throw ends the pass with that row already scaled. */
    method ScaleMatchingRows(up: UsageUpdate, f: real, p1: string, p2: string) returns (err: Option<string>)
      requires ValidCatalog(catalog)
      modifies this`usageData
      ensures var r := UpdatePass(catalog, old(usageData), 0, up, f, p1, p2);
              usageData == r.rows && err == r.error
    {
      var i := 0;
      while i < |usageData|
        invariant 0 <= i <= |usageData| == |old(usageData)|
        invariant UpdatePass(catalog, usageData, i, up, f, p1, p2) == UpdatePass(catalog, old(usageData), 0, up, f, p1, p2)
      {
        if Matches(up, usageData[i]) {
          var u := ScaleRow(usageData[i], f);
          usageData := usageData[i := u];
          var d := DailyTotalFor(up, usageData, i);
          var r1 := Rate(catalog, p1, u.reading.hour, u.reading.isWeekend, u.reading.season, u.reading.consumption, d);
          var r2 := Rate(catalog, p2, u.reading.hour, u.reading.isWeekend, u.reading.season, u.reading.consumption, d);
          if r1.Err? {
            return Some(r1.error);
          }
          if r2.Err? {
            return Some(r2.error);
          }
          usageData := usageData[i := Reprice(u, r1.value, r2.value)];
        }
        i := i + 1;
      }
      return None;
    }
  }
}
