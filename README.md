# SDG&E rate comparison: a verified model of the cost engine

This project is a Dafny model of the part of the energy rate comparison app that computes a
customer's electricity cost. The app reads a Green Button CSV of hourly meter readings and
prices them under SDG&E rate plans. The model covers five pieces of that app:

- **The tariff engine** (`src/utils/sdgeTariffs.js`), modules `Tariffs` and `PeriodLabels`.
  - The catalog of five plans: one tiered (DR) and four time-of-use.
  - The baseline allowances.
  - Season classification (`getSeason`).
  - The ordered rate-period rules (`getTimePeriod`).
  - `calculateRate` for tiered and time-of-use plans, with its two errors.
  - The readable period label.
  - It is pure, so the model uses functions and lemmas.
- **The two-plan comparison controller** (`src/composables/useMultiPlanCalculator.js`).
  - Modules `Ingest`, `DeepClone`, `MultiPlan`, `MultiPlanUpdates` and `MultiPlanProperties`
    hold the pure parts:
    - the row filter and enrichment;
    - the daily totals;
    - the per-row costs;
    - the overall, period and monthly comparisons;
    - the edit pass.
  - Module `MultiPlanController` holds the class `MultiPlanCalculator`.
    - Its fields are the composable's state cells: `usageData`, `originalUsageData`,
      `selectedPlans`, the three comparison tables, `processing`, `error`,
      `hasDataBeenModified` and `updating`.
    - Its methods are `setSelectedPlans`, `getSelectablePlans`, `processData`,
      `generateComparisons`, `resetState`, `resetUsageToOriginal`, `updateMonthlyUsage` and
      `updatePeriodUsage`.
    - Each method states the new state it leaves.
    - The accumulating loops are methods with loop invariants proved against the functions above:
      - the daily-total map;
      - the period and month maps;
      - the `forEach` of an edit.
- **The legacy fixed two-schedule calculator** (`src/composables/useEnergyCalculator.js`).
  - Module `EnergyRates` holds the two hard-coded schedules `getRateDetails` and
    `getRateDetails2` and the season flags.
  - Module `EnergySummaries` holds the per-row cost step and the summaries, which include the
    flat $16 monthly charge.
  - Module `EnergyProperties` holds their properties.
  - Class `EnergyController.EnergyCalculator` holds the imperative `processData` and
    `generateSummaries`.
- **The Green Button header check** (`src/utils/csvParser.js`), module `CsvHeaders`:
  - `validateCsvHeaders`, a bounded loop that stops at the first mismatch, checking against
    the 14 expected header words;
  - the rejection in `parseGreenButtonCsv`;
  - the file checks of `parseGreenButtonFile` that run before any read.
- **The plan-toggle rule** that the app's click handler applies to a 0–2 plan selection
  (`src/__tests__/appPlanToggle.test.js`), module `PlanToggle`.

The models share three support modules:

- `Wrappers` holds `Option` and `Result`.
- `Seqs` holds sums over sequences, grouping by key, and the `GroupTotals` accumulation loop.
- `Text` holds split and join, JavaScript `trim`, number formatting, and string order with
  sorting.

Kilowatt-hours and money are `real`, so every rate is an exact decimal. The date library is a
function parameter: `parseDateTime` returns the year, month, day, hour and weekday, or `None`
for an invalid date. `parseFloat` is a parameter too, returning `None` for NaN. The SDG&E
catalog is passed to the tariff operations as `catalog`, together with `ValidCatalog(catalog)`.
`Tariffs.SdgePlansValid` proves that the real catalog meets that condition.

Where the code differs from what one might expect, the model follows the code.

- Plans are never reordered by cost.
- Tier-1 `baseCost` is priced at the un-credited rate, while the reported rate includes the credit.
- A month edit passes the month's new total as the tiered "daily" consumption.
- The edit factor `newTotal / currentTotal` has no zero guard.
- Negative consumption is kept.

## Model

| member | source | states |
|---|---|---|
| Tariffs.SdgePlansValid | src/utils/sdgeTariffs.js:25-126 | The five-plan catalog is well formed. Every tiered season has `tier1` and `tier2`; every time-of-use season has `onPeak` and `offPeak`; every rate is positive; monthly charges are ≥ 0; credits are negative but leave credited rates positive; TOU-DR-P defines summer `superOffPeak`. |
| Tariffs.DrWellFormed | src/utils/sdgeTariffs.js:26-44 | The DR plan is well formed. |
| Tariffs.TouDr1WellFormed | src/utils/sdgeTariffs.js:45-65 | The TOU-DR1 plan is well formed. |
| Tariffs.TouDr2WellFormed | src/utils/sdgeTariffs.js:66-84 | The TOU-DR2 plan is well formed. |
| Tariffs.TouDrPWellFormed | src/utils/sdgeTariffs.js:85-106 | The TOU-DR-P plan is well formed. |
| Tariffs.EvTou5WellFormed | src/utils/sdgeTariffs.js:107-125 | The EV-TOU-5 plan is well formed. |
| Tariffs.GetAvailablePlans | src/utils/sdgeTariffs.js:236-238 | The plan keys number exactly 5, are distinct, and are exactly the catalog's keys. |
| Tariffs.GetPlanInfo | src/utils/sdgeTariffs.js:245-246 | The lookup is undefined (`None`) exactly when the key is not in the catalog; otherwise it is that catalog entry. |
| Tariffs.GetSeason | src/utils/sdgeTariffs.js:139-141 | The season is summer iff the 0-based month is 5..9 (June–October); otherwise it is winter. |
| Tariffs.TimePeriodWindows | src/utils/sdgeTariffs.js:151-180 | The ordered rules amount to fixed windows. A non-TOU plan gets `flat`. Otherwise `onPeak` holds iff 16 ≤ hour < 21. `superOffPeak` holds iff (weekend before 14 or any day before 6) and the season defines it, or TOU-DR-P on a summer weekday 10 ≤ hour < 15. `offPeak` covers everything else, both directions. |
| Tariffs.TimePeriodDefined | src/utils/sdgeTariffs.js:215-221 | For a well-formed catalog, the classified period of a time-of-use plan is always a rate the season's table defines. |
| Tariffs.CalculateRate | src/utils/sdgeTariffs.js:195-197 | A key outside the catalog throws `Unknown plan type: <key>`. A success reports the plan key as its type. |
| Tariffs.CalculateRateFailsOnlyForUnknownPlans | src/utils/sdgeTariffs.js:192-230 | `calculateRate` throws exactly when `getPlanInfo` answers undefined. The "No rate defined" throw is unreachable for every catalog plan, hour, day and season. |
| Tariffs.TieredRate | src/utils/sdgeTariffs.js:199-213 | Tier 1 applies iff the daily total ≤ 1.3 × the season's allowance. Labels: `Tier 1` / `Tier 2`. Reported rate = tier rate + credit, in tier 1 only. `baseCost` = consumption × un-credited tier rate. Credit amount = consumption × credit. |
| Tariffs.DrRateNumbers | src/utils/sdgeTariffs.js:26-44 | For DR the reported rate is 0.30148 in tier 1 and 0.51236 in tier 2. The base cost uses 0.40692 in tier 1 and 0.51236 in tier 2. The limit is 14.56 kWh in summer and 12.48 kWh in winter. |
| Tariffs.TieredCostIsNotRateTimesConsumption | src/utils/sdgeTariffs.js:207-209 | In tier 1 of a credited plan, with a non-zero reading, `baseCost ≠ consumption × rate`. |
| Tariffs.CreditedCost | src/utils/sdgeTariffs.js:207-209 | A base cost at the tier rate differs from the reading times the credited rate whenever the credit is negative and the reading is non-zero. |
| Tariffs.CatalogCredit | src/utils/sdgeTariffs.js:42 | Every catalog baseline credit is negative. |
| Tariffs.TimeOfUseRate | src/utils/sdgeTariffs.js:215-228 | TOU: rate = `rates[season][period]`, `baseCost` = consumption × rate, the label is the period's readable form, and there is no credit amount. |
| Tariffs.RatesPositive | src/utils/sdgeTariffs.js:192-230 | Every rate reported for a catalog plan is positive, including the credited tier-1 rate. |
| Tariffs.Rate | src/utils/sdgeTariffs.js:192-230 | Over a well-formed catalog, the calculation fails iff the key is unknown, and the message names the key. |
| PeriodLabels.PeriodLabelRoundTrip | src/utils/sdgeTariffs.js:226 | For a camelCase period key, removing the spaces from its label and lower-casing the first letter gives back the key, so the labelling loses nothing. |
| PeriodLabels.RemoveSpacesOfSpaced | src/utils/sdgeTariffs.js:226 | Removing the spaces that the capital-letter rule inserted restores a space-free key. |
| PeriodLabels.SpaceBeforeCapitalsAppend | src/utils/sdgeTariffs.js:226 | The capital-letter rule works character by character, so it distributes over concatenation. |
| PeriodLabels.SpaceBeforeCapitalsLower | src/utils/sdgeTariffs.js:226 | A word without capitals is left as is. |
| PeriodLabels.SpaceBeforeCapitalsWord | src/utils/sdgeTariffs.js:226 | A capitalised word gets exactly one space before it. |
| PeriodLabels.OnPeakLabel | src/utils/sdgeTariffs.js:226 | `onPeak` is labelled `On Peak`. |
| PeriodLabels.OffPeakLabel | src/utils/sdgeTariffs.js:226 | `offPeak` is labelled `Off Peak`. |
| PeriodLabels.ThreeWordLabel | src/utils/sdgeTariffs.js:226 | A three-word camelCase key is labelled as its first word with a capital initial, then the two capitalised words, separated by single spaces. |
| PeriodLabels.SuperOffPeakLabel | src/utils/sdgeTariffs.js:226 | `superOffPeak` is labelled `Super Off Peak`. |
| Ingest.Cell | src/composables/useMultiPlanCalculator.js:126-131 | A cell counts as present iff the column exists and is not the empty (falsy) string. |
| Ingest.PadStart2 | src/composables/useMultiPlanCalculator.js:22 | A string already two characters long is unchanged. A shorter one is left-padded with `0` to length 2, ending in the original. |
| Ingest.CombinedDateOfSlashDate | src/composables/useMultiPlanCalculator.js:19-24 | `M/D/Y` plus a time becomes `Y-MM-DD time`, with month and day zero-padded. |
| Ingest.RowSurvival | src/composables/useMultiPlanCalculator.js:124-157 | A row survives iff Date and Start Time are non-empty, the consumption parses, and the combined date parses. A survivor keeps the raw row, the parsed number and the parsed date. |
| Ingest.ParseRows | src/composables/useMultiPlanCalculator.js:124-157 | Filtering never adds rows. |
| Ingest.ParseRowsAppend | src/composables/useMultiPlanCalculator.js:124-157 | The map and filter work row by row: the survivors of a concatenation are the concatenated survivors, so input order is preserved. |
| Ingest.ParseRowsMembers | src/composables/useMultiPlanCalculator.js:124-157 | Something is in the output iff it is the parse of some input row. |
| Ingest.DateKeyWithinMonth | src/composables/useMultiPlanCalculator.js:152-153 | Two readings with the same `date_key` have the same `month_year_key`. |
| Ingest.DashedKeyPrefix | src/composables/useMultiPlanCalculator.js:152-153 | `yyyy-MM-dd` keys with digit-only year and month fields determine those fields. |
| Ingest.DigitsThenDash | src/composables/useMultiPlanCalculator.js:152-153 | A digit run followed by a dash splits uniquely. |
| DeepClone.CloneEqual | src/composables/useMultiPlanCalculator.js:39-60 | `deepCloneWithDates` returns a value equal to its input, through arrays, objects and Dates. |
| DeepClone.CloneItems | src/composables/useMultiPlanCalculator.js:48-50 | Cloning an array keeps its length. |
| DeepClone.CloneProps | src/composables/useMultiPlanCalculator.js:52-57 | Cloning an object's own properties keeps their number. |
| DeepClone.CloneItemsEqual | src/composables/useMultiPlanCalculator.js:48-50 | A cloned array equals the original. |
| DeepClone.ClonePropsEqual | src/composables/useMultiPlanCalculator.js:52-57 | Cloned properties equal the originals. |
| MultiPlan.PlanAt | src/composables/useMultiPlanCalculator.js:170-171 | `selectedPlans[i]` is the i-th key when present, and `undefined` otherwise. |
| MultiPlan.Processed | src/composables/useMultiPlanCalculator.js:124-157 | The processed rows are the enrichments of the surviving rows, one for one and in order. |
| MultiPlan.EnrichFields | src/composables/useMultiPlanCalculator.js:137-154 | Enrichment sets these fields: weekend iff weekday is 0 or 6; summer iff 0-based month is 5..9; month is 1-based; consumption is the parsed number; `date_key` = `month_year_key` + `-DD`. |
| MultiPlan.DailyTotals | src/composables/useMultiPlanCalculator.js:160-166 | The daily map has exactly the rows' date keys, so every row finds its day. |
| MultiPlan.CostRowsSpec | src/composables/useMultiPlanCalculator.js:169-193 | Costing fails iff there are rows and a selected key is unknown, with the message for the first unknown plan. Otherwise row i keeps its reading. Its plan1 and plan2 are the type, rate, base cost and period from `calculateRate` with the row's daily total. |
| MultiPlan.GroupSums | src/composables/useMultiPlanCalculator.js:252-266 | A group's accumulators are the consumption, plan-1 cost and plan-2 cost totalled over exactly the rows with that key. |
| MultiPlan.AverageRate | src/composables/useMultiPlanCalculator.js:228-246 | The unguarded average `cost / kWh` is defined iff kWh ≠ 0. |
| MultiPlan.AverageRateTimes | src/composables/useMultiPlanCalculator.js:228-246 | A defined average rate times kWh gives back the cost. |
| MultiPlan.PeriodSummaryOf | src/composables/useMultiPlanCalculator.js:268-279 | A period row carries the group's sums. `costDifference` = plan 1 − plan 2. The average rates recover the costs when consumption > 0 and are 0 otherwise. |
| MultiPlan.PeriodComparisonsOf | src/composables/useMultiPlanCalculator.js:252-280 | There is one period row per distinct (season, plan1.period) key. |
| MultiPlan.MonthComparisonsOf | src/composables/useMultiPlanCalculator.js:283-309 | There is one month row per distinct month key. |
| MultiPlan.GenerateComparisonsOf | src/composables/useMultiPlanCalculator.js:216-221 | Comparisons fail iff a selected key has no plan info, and nothing is computed then. |
| MultiPlan.ProcessDataOf | src/composables/useMultiPlanCalculator.js:112-214 | A successful run's comparisons are those of its costed rows. |
| MultiPlan.Comparing | src/composables/useMultiPlanCalculator.js:195-202 | The stored rows are the costed rows, and the outcome is exactly `generateComparisons` over them. |
| MultiPlan.ProcessDataOutcome | src/composables/useMultiPlanCalculator.js:112-214 | With two plans, processing succeeds iff both selected keys are in the catalog. A failure with rows is `Unknown plan type: <first unknown key>`. A failure without rows is the missing-plan failure. Success keeps one costed row per surviving row. |
| MultiPlanProperties.OverallTotals | src/composables/useMultiPlanCalculator.js:223-249 | `monthsAnalyzed` = the number of distinct months. `totalKWh` = Σ consumption. Each plan total = Σ its costs + its monthly charge per month. `totalSavings` = plan 1 − plan 2. |
| MultiPlanProperties.OverallFacts | src/composables/useMultiPlanCalculator.js:223-249 | `savingsDirection` is plan 2 iff plan 2 is cheaper, else plan 1. Average rates exist iff `totalKWh` ≠ 0 and then recover the totals. |
| MultiPlanProperties.OverallChargedTotals | src/composables/useMultiPlanCalculator.js:230-236 | Each plan total = Σ costs + monthsAnalyzed × monthlyCharge. |
| MultiPlanProperties.PeriodsPartitionRows | src/composables/useMultiPlanCalculator.js:252-280 | Period groups partition the rows: their consumptions and both plans' costs sum to the overall totals. |
| MultiPlanProperties.PeriodSummaryKey | src/composables/useMultiPlanCalculator.js:269-279 | Period row i is the i-th sorted key, split back into season and period. |
| MultiPlanProperties.PeriodComparisonsSorted | src/composables/useMultiPlanCalculator.js:280 | Period rows are strictly ordered by season, then period. |
| MultiPlanProperties.PeriodComparisonsCover | src/composables/useMultiPlanCalculator.js:252-280 | Every row's (season, period) group has a period row holding that group's totals. |
| MultiPlanProperties.MonthComparisonsSpec | src/composables/useMultiPlanCalculator.js:283-309 | Month rows are strictly sorted by key, and there is one per distinct month. Each holds the month's consumption. Each plan total is that plan's Σ cost + its monthly charge once. Savings = plan 1 − plan 2. |
| MultiPlanProperties.MonthCount | src/composables/useMultiPlanCalculator.js:283-309 | There are as many month rows as distinct month keys. |
| MultiPlanProperties.MonthColumns | src/composables/useMultiPlanCalculator.js:283-309 | The month rows' consumption and cost columns sum to the totals over all rows. |
| MultiPlanProperties.MonthRowFacts | src/composables/useMultiPlanCalculator.js:296-308 | Each month row's totals add its plan's charge once to its costs, and its savings are the difference of the totals. |
| MultiPlanProperties.MonthTotalColumns | src/composables/useMultiPlanCalculator.js:283-309 | Month totals sum to Σ costs + months × charge. Σ savings = Σ plan-1 totals − Σ plan-2 totals. |
| MultiPlanProperties.MonthsAddUpToOverall | src/composables/useMultiPlanCalculator.js:223-309 | The monthly table adds up to the overall comparison: its row count is `monthsAnalyzed`, and its kWh, plan totals and savings sum to the overall figures. |
| MultiPlanUpdates.Matching | src/composables/useMultiPlanCalculator.js:427 | The rows an edit selects are no more than the rows. |
| MultiPlanUpdates.MatchingSelects | src/composables/useMultiPlanCalculator.js:427 | A row is selected exactly when it is one of the rows and lies in the edited month, or in the edited (season, plan1.period). |
| MultiPlanUpdates.MatchingTotal | src/composables/useMultiPlanCalculator.js:427 | The total over the selected rows is the total over the rows meeting the edit's condition. |
| MultiPlanUpdates.Skeletons | src/composables/useMultiPlanCalculator.js:443-459 | The rows with their amounts blanked out, one per row. |
| MultiPlanUpdates.SkeletonsUpdate | src/composables/useMultiPlanCalculator.js:443-459 | Writing a row that differs only in amounts keeps every row's shape. |
| MultiPlanUpdates.UpdatePass | src/composables/useMultiPlanCalculator.js:443-459 | The `forEach` keeps the row count. |
| MultiPlanUpdates.EditPass | src/composables/useMultiPlanCalculator.js:438-459 | The edit, with factor new total / current total, keeps the row count. |
| MultiPlanUpdates.UpdatePassSpec | src/composables/useMultiPlanCalculator.js:443-459 | With both plans known, the pass never throws. Non-matching rows are untouched. Each matching row is scaled by the factor, keeps its period, and is repriced from the rows as they stand at that point of the loop. |
| MultiPlanUpdates.UpdatePassFails | src/composables/useMultiPlanCalculator.js:443-459 | With an unknown plan and no match, nothing changes. Otherwise the pass throws at the first match, leaving only that row scaled and naming the unknown key. |
| MultiPlanUpdates.UpdateReachesTarget | src/composables/useMultiPlanCalculator.js:438-459 | After the pass the group totals factor × its old total, so it equals the new total when the factor is new / current and current ≠ 0. |
| MultiPlanUpdates.PassKeepsMatches | src/composables/useMultiPlanCalculator.js:443-459 | The pass keeps which rows match, and scales each matching consumption by the factor. |
| MultiPlanUpdates.MatchingSnoc | src/composables/useMultiPlanCalculator.js:427 | One more row adds its value to the selected total exactly when it meets the condition. |
| MultiPlanUpdates.MatchingMapped | src/composables/useMultiPlanCalculator.js:438-459 | If a second row list keeps which rows are selected, and gives each selected row the value w gives the original, its selected total is the original selection's total of w. |
| MultiPlanUpdates.ConsumptionScaled | src/composables/useMultiPlanCalculator.js:445 | Multiplying every row's consumption by the factor multiplies the total by the factor. |
| MultiPlanUpdates.GroupScaled | src/composables/useMultiPlanCalculator.js:438-459 | Keeping the selection and scaling each selected consumption by the factor scales the group total by the factor. |
| MultiPlanUpdates.UpdatePassShape | src/composables/useMultiPlanCalculator.js:443-459 | With both plans known, the pass from the first row leaves non-matching rows untouched and scales the reading of each match. |
| Seqs.TotalScaled | src/composables/useMultiPlanCalculator.js:438-440 | When every value is c times another, the total is c times the other total. |
| MultiPlanUpdates.OtherMonthsUnchanged | src/composables/useMultiPlanCalculator.js:443-459 | A month edit leaves every total of every other month unchanged. |
| MultiPlanUpdates.OtherMonthsKept | src/composables/useMultiPlanCalculator.js:443-459 | Rows outside the edited month keep all their totals. |
| MultiPlanUpdates.MonthEditPricesAtTierTwo | src/composables/useMultiPlanCalculator.js:451-452 | A month edit to more than 14.56 kWh prices every DR row of that month at tier 2 (0.51236), because the month total is passed as the daily total. |
| MultiPlanUpdates.UpdatePassKeepsShape | src/composables/useMultiPlanCalculator.js:443-459 | The pass changes only amounts (consumption, rate, cost), never keys, periods or readings, even when it throws. |
| MultiPlanUpdates.MatchesKept | src/composables/useMultiPlanCalculator.js:427 | Rows that differ only in amounts match the same edits and share day and month keys. |
| MultiPlanUpdates.PriceAtShape | src/composables/useMultiPlanCalculator.js:446-456 | Repricing a row changes only rates and costs. |
| MultiPlanUpdates.PriceAtAgrees | src/composables/useMultiPlanCalculator.js:446-456 | A row's price depends only on day keys and consumptions. |
| MultiPlanUpdates.DayTotalsAgree | src/composables/useMultiPlanCalculator.js:501-502 | The day total a period edit recomputes depends only on day keys and consumptions. |
| MultiPlanController.SelectablePlansOf | src/composables/useMultiPlanCalculator.js:96-110 | There is one entry per available plan, in catalog order. Each entry copies that plan's name, description, type (as `planType`), monthly charge and requirements. `selected` holds iff the key is in the selection. |
| MultiPlanController.SelectedEntries | src/composables/useMultiPlanCalculator.js:96-110 | The entries flagged as selected are exactly the selection's catalog plans; a selected key outside the catalog gets no entry. |
| MultiPlanController.DailyTotalsPass | src/composables/useMultiPlanCalculator.js:160-166 | The accumulating loop builds exactly the daily-total map. |
| MultiPlanController.DailyFromGroups | src/composables/useMultiPlanCalculator.js:160-166 | The loop's accumulators, read off, are the daily totals. |
| MultiPlanController.DailyKeysPresent | src/composables/useMultiPlanCalculator.js:167-173 | Every row's `date_key` is in the daily map. |
| MultiPlanController.CostUsage | src/composables/useMultiPlanCalculator.js:124-193 | The steps (map/filter, daily totals, costs) yield the costed rows of the specification. |
| MultiPlanController.ProcessDataSteps | src/composables/useMultiPlanCalculator.js:112-214 | `processData` is costing followed by comparing; a throw while costing becomes the failure. |
| MultiPlanController.PeriodTable | src/composables/useMultiPlanCalculator.js:269-279 | There is one period row per key. |
| MultiPlanController.MonthTable | src/composables/useMultiPlanCalculator.js:302-308 | There is one month row per key. |
| MultiPlanController.GroupedSums | src/composables/useMultiPlanCalculator.js:252-266 | The accumulated sums of a key are its group sums. |
| MultiPlanController.GroupedKeys | src/composables/useMultiPlanCalculator.js:252-280 | The accumulated keys are distinct, and sorted they are the sorted keys of the data. |
| MultiPlanController.PeriodTableFromGroups | src/composables/useMultiPlanCalculator.js:252-280 | The table built from the accumulated period map equals the period comparisons. |
| MultiPlanController.MonthTableFromGroups | src/composables/useMultiPlanCalculator.js:283-309 | The table built from the accumulated month map equals the monthly comparisons. |
| MultiPlanController.MultiPlanCalculator.constructor | src/composables/useMultiPlanCalculator.js:63-79 | The initial state is empty: no rows, no snapshot, no comparisons, not modified, not busy, and the selection defaults to TOU-DR1 and EV-TOU-5. |
| MultiPlanController.MultiPlanCalculator.SetSelectedPlans | src/composables/useMultiPlanCalculator.js:85-90 | More than two keys give `Maximum of two plans can be selected for comparison`, and the selection is unchanged. Otherwise the given keys are stored in order. |
| MultiPlanController.MultiPlanCalculator.SelectablePlans | src/composables/useMultiPlanCalculator.js:96-110 | The picker list for the stored selection, with every property of `SelectablePlansOf`: one entry per available plan in catalog order, each copying its plan's fields, `selected` iff it is in `selectedPlans`. |
| MultiPlanController.MultiPlanCalculator.ResetState | src/composables/useMultiPlanCalculator.js:382-395 | Rows, snapshot and comparisons are cleared, with modified and updating false. The selection, `processing` and `error` are untouched. |
| MultiPlanController.MultiPlanCalculator.GenerateComparisons | src/composables/useMultiPlanCalculator.js:216-310 | The tables show the comparisons of the given rows under the selected plans, or the error is returned and the tables are untouched. No other state changes. |
| MultiPlanController.MultiPlanCalculator.ProcessData | src/composables/useMultiPlanCalculator.js:112-214 | Without exactly two plans: the error `Please select exactly 2 plans for comparison`, and rows, snapshot and tables unchanged. Otherwise: rows and an equal snapshot with their comparisons, not modified; or, if a step throws, the prefixed error and a reset state. `processing` is false on exit. |
| MultiPlanController.MultiPlanCalculator.LoadRows | src/composables/useMultiPlanCalculator.js:195-202 | Stores the rows and a snapshot equal to them, then compares. |
| MultiPlanController.MultiPlanCalculator.ResetUsageToOriginal | src/composables/useMultiPlanCalculator.js:398-420 | Without a snapshot nothing changes. Otherwise the rows equal the snapshot, modified is cleared, and the comparisons are rebuilt from the snapshot. |
| MultiPlanController.MultiPlanCalculator.Restore | src/composables/useMultiPlanCalculator.js:403-416 | The rows become the snapshot and are compared again. |
| MultiPlanController.MultiPlanCalculator.UpdateMonthlyUsage | src/composables/useMultiPlanCalculator.js:423-467 | With no rows or no row in the month, nothing changes. Otherwise the rows are what the month pass leaves, modified is set, and the comparisons are rebuilt unless the pass threw. Shapes keep matching the snapshot, so the snapshot is never altered. |
| MultiPlanController.MultiPlanCalculator.UpdatePeriodUsage | src/composables/useMultiPlanCalculator.js:469-520 | As the monthly edit, for the (season, plan1.period) group, with each day total recomputed from the partly updated rows. |
| MultiPlanController.MultiPlanCalculator.ApplyUpdate | src/composables/useMultiPlanCalculator.js:423-467 | The shared body of the two edits: a no-op without a match, otherwise the edit. |
| MultiPlanController.MultiPlanCalculator.EditGroup | src/composables/useMultiPlanCalculator.js:436-466 | Scales the group, marks the data modified, and rebuilds the comparisons unless the pass threw. |
| MultiPlanController.MultiPlanCalculator.Rescale | src/composables/useMultiPlanCalculator.js:438-459 | The rows become what the edit pass leaves, with the same shapes. |
| MultiPlanController.MultiPlanCalculator.ScaleMatchingRows | src/composables/useMultiPlanCalculator.js:443-459 | The in-place loop over the rows leaves exactly what the specification pass leaves, including its throw. |
| EnergyRates.SeasonFlagsOf | src/composables/useEnergyCalculator.js:147-149 | `isSummer` iff the 0-based month is 5..9, and `isSpring` iff it is 2..3. The two never hold together. |
| EnergyRates.SeasonLabel | src/composables/useEnergyCalculator.js:149 | The label is `Summer` or `Winter`, and both labels have equal length. |
| EnergyRates.GetRateDetails | src/composables/useEnergyCalculator.js:46-73 | The first schedule puts the hour in the order-free tier windows: on-peak 16–20; super-off-peak before 6, on weekend mornings before 14, 10–14 in spring, 10–13 on winter weekdays; off-peak otherwise. The price comes from the summer-and-spring or winter table (0.12017/0.71106/0.4546 and 0.11381/0.47772/0.42893). |
| EnergyRates.GetRateDetails2 | src/composables/useEnergyCalculator.js:76-104 | The second schedule uses the same tier windows, priced from the summer table (0.34812/0.71412/0.47416) or the spring-and-winter table (0.47999/0.56348/0.49877). |
| EnergyRates.SchedulesAgreeOnTier | src/composables/useEnergyCalculator.js:46-104 | The two schedules always agree on the tier, so the rate difference depends only on season and tier. |
| EnergyRates.SpringMiddayWindow | src/composables/useEnergyCalculator.js:54-72 | Hour 14 is super-off-peak in spring and off-peak in winter; hour 10 on a winter weekday is super-off-peak. |
| EnergyRates.OnPeakDearest | src/composables/useEnergyCalculator.js:46-104 | In every season on-peak is each schedule's highest price, and every price is positive. |
| EnergyRates.DayShape | src/composables/useEnergyCalculator.js:46-73 | Facts about each hour of the first schedule. On-peak iff 16 ≤ hour < 21. Before 6 is always super-off-peak. On summer weekdays, super-off-peak holds iff hour < 6. From 21 on is off-peak. |
| EnergySummaries.Prepare | src/composables/useEnergyCalculator.js:126-164 | Weekend iff weekday is 0 or 6. The season flags follow the 0-based month. The season label follows `isSummer`. |
| EnergySummaries.PreparedRows | src/composables/useEnergyCalculator.js:126-164 | The prepared rows are the surviving rows, one for one and in order. |
| EnergySummaries.CostRow | src/composables/useEnergyCalculator.js:170-206 | A costed row keeps its reading, gets the `yyyy-MM` month key, and both schedules' tiers. |
| EnergySummaries.CostRowPrices | src/composables/useEnergyCalculator.js:187-191 | cost1 = consumption × rate1 and cost2 = consumption × rate2. cost2 − cost1 = consumption × `rate_difference`. |
| EnergySummaries.CostedRows | src/composables/useEnergyCalculator.js:170-206 | The cost step maps rows one for one. |
| EnergySummaries.GroupSums | src/composables/useEnergyCalculator.js:249-267 | A group's accumulators are each value totalled over exactly the rows with that key. |
| EnergySummaries.OverallSummaryOf | src/composables/useEnergyCalculator.js:236-246 | `totalKWh` = Σ consumption. `totalSavings` = Σcost2 − Σcost1 − fixed charge. |
| EnergySummaries.Abs | src/composables/useEnergyCalculator.js:283 | `Math.abs`: non-negative and ± its argument. |
| EnergySummaries.PeriodRowOf | src/composables/useEnergyCalculator.js:269-283 | A period row carries its group's sums. Average rates recover the costs when consumption > 0 and are 0 otherwise. `costSavings` = abs(costDiff) ≥ 0. |
| EnergySummaries.MonthRowOf | src/composables/useEnergyCalculator.js:302-316 | A month row carries the month's sums. The fixed charge is 16. `costSavings` = cost2 − (cost1 + 16). `total` = cost2 − cost1 + 16. |
| EnergySummaries.PeriodSummariesOf | src/composables/useEnergyCalculator.js:249-289 | There is one period row per distinct (season, tier) key. |
| EnergySummaries.MonthlySummariesOf | src/composables/useEnergyCalculator.js:292-317 | There is one month row per distinct month key. |
| EnergySummaries.UsageOf | src/composables/useEnergyCalculator.js:121-210 | Every stored row's season label agrees with its summer flag. |
| EnergyProperties.PeriodRowFigures | src/composables/useEnergyCalculator.js:249-289 | Period row i is the i-th sorted `season-tier` key. It holds that group's consumption and cost totals, and the group's Σ(cost2 − cost1). |
| EnergyProperties.PeriodsPartitionRows | src/composables/useEnergyCalculator.js:249-289 | Period groups partition the rows: the consumption and cost columns sum to the overall totals, and Σ costDiff = Σcost2 − Σcost1. |
| EnergyProperties.PeriodSavingsAreGap | src/composables/useEnergyCalculator.js:266-283 | A period's costDiff is its cost2 − cost1, and `costSavings` = abs(cost2 − cost1). |
| EnergyProperties.PeriodSeasonLabelled | src/composables/useEnergyCalculator.js:149 | Every period row's season is one of the two equal-length labels. |
| EnergyProperties.PeriodSummariesSorted | src/composables/useEnergyCalculator.js:285-289 | Period rows are strictly ordered by season, then tier label. |
| EnergyProperties.PeriodSummariesCover | src/composables/useEnergyCalculator.js:249-289 | Every row's (season, tier) group has a period row holding that group's totals. |
| EnergyProperties.MonthRowFigures | src/composables/useEnergyCalculator.js:292-317 | Month row i is the i-th sorted month and holds that month's totals. The fixed charge is 16, and savings = cost2 − (cost1 + 16). |
| EnergyProperties.MonthRowKey | src/composables/useEnergyCalculator.js:302-317 | Month row i is the i-th sorted month key. |
| EnergyProperties.MonthKeysShown | src/composables/useEnergyCalculator.js:302-317 | The month rows' keys are exactly the sorted month keys. |
| EnergyProperties.MonthlySummariesSorted | src/composables/useEnergyCalculator.js:317 | Month rows are strictly ascending by key. |
| EnergyProperties.MonthlySummariesCover | src/composables/useEnergyCalculator.js:292-317 | A month has a row iff some reading falls in it. |
| EnergyProperties.MonthCount | src/composables/useEnergyCalculator.js:292-317 | There are as many month rows as distinct months. |
| EnergyProperties.FixedChargeTimes | src/composables/useEnergyCalculator.js:208 | The fixed charge is 16 added once per distinct month. |
| EnergyProperties.MonthsPartitionRows | src/composables/useEnergyCalculator.js:292-317 | Month groups partition the rows: the month columns sum to the overall consumption and costs. |
| EnergyProperties.MonthlySavingsAddUp | src/composables/useEnergyCalculator.js:208-317 | The monthly table adds up to the overall summary: its kWh sums to `totalKWh` and its savings to `totalSavings`, since the fixed charge is counted once per month on both sides. |
| EnergyController.CostPass | src/composables/useEnergyCalculator.js:170-206 | The cost loop yields exactly the costed rows, and `uniqueMonths` is exactly their set of month keys. |
| EnergyController.MonthsCharged | src/composables/useEnergyCalculator.js:208 | `uniqueMonths.size × 16` is the fixed charge. |
| EnergyController.PeriodTable | src/composables/useEnergyCalculator.js:269-284 | There is one period row per key. |
| EnergyController.MonthTable | src/composables/useEnergyCalculator.js:302-316 | There is one month row per key. |
| EnergyController.GroupedSums | src/composables/useEnergyCalculator.js:249-267 | The accumulated sums of a key are its group sums. |
| EnergyController.PeriodTableFromGroups | src/composables/useEnergyCalculator.js:249-289 | The table built from the accumulated `periodMap` equals the period summaries. |
| EnergyController.MonthTableFromGroups | src/composables/useEnergyCalculator.js:292-317 | The table built from the accumulated monthly map equals the monthly summaries. |
| EnergyController.EnergyCalculator.constructor | src/composables/useEnergyCalculator.js:107-119 | The initial state has no data, no summaries, nothing processing and no error. |
| EnergyController.EnergyCalculator.GenerateSummaries | src/composables/useEnergyCalculator.js:234-318 | The three summary refs show the overall, period and monthly summaries of the given rows and fixed charge. |
| EnergyController.EnergyCalculator.ProcessData | src/composables/useEnergyCalculator.js:121-232 | `usageData` is the costed surviving rows. The summaries are theirs, with 16 per distinct month. `processing` is false and there is no error. |
| EnergyController.EnergyCalculator.LoadRows | src/composables/useEnergyCalculator.js:170-213 | Stores the costed rows and their summaries. |
| EnergyController.EnergyCalculator.KeepRows | src/composables/useEnergyCalculator.js:208-213 | Stores the rows and summarises them with `uniqueMonths.size × 16`. |
| CsvHeaders.HeaderLines | src/utils/csvParser.js:28 | Only the first min(lines, 14) newline-separated lines are examined, in order. |
| CsvHeaders.FirstMismatchFrom | src/utils/csvParser.js:32-46 | A reported mismatch is on a 1-based line after the start, within both the lines and the expected list. |
| CsvHeaders.FirstMismatchSpec | src/utils/csvParser.js:32-46 | No mismatch iff every examined line's first word equals the expected word. A mismatch reports the first failing line i + 1 with its expected and found words, and every earlier line matches. |
| CsvHeaders.ValidateCsvHeaders | src/utils/csvParser.js:27-49 | The loop reports exactly the first mismatch, and `isValid` iff there is none, so the error message is null exactly when valid. |
| CsvHeaders.CheckLines | src/utils/csvParser.js:32-48 | The bounded loop, which stops at the first mismatch, computes the first mismatch. |
| CsvHeaders.ParseGreenButtonCsv | src/utils/csvParser.js:56-66 | A failed validation rejects with its message before any parsing. Otherwise the text goes to the parser. |
| CsvHeaders.FileCheck | src/utils/csvParser.js:90-100 | A missing file gives `No file provided`. A name not ending in `.csv` gives the CSV-only message. Otherwise the file passes. |
| CsvHeaders.FirstWordOfCell | src/utils/csvParser.js:38 | A plain word before the first comma is the line's first word. |
| CsvHeaders.ExpectedWordsPlain | src/utils/csvParser.js:5-20 | The 14 expected words have no spaces, commas or surrounding whitespace, so trimming leaves them unchanged. |
| CsvHeaders.ShortHeaderAccepted | src/utils/csvParser.js:34 | A file of fewer than 14 lines whose lines all start with the expected words is accepted. |
| CsvHeaders.OnlyHeaderLinesCount | src/utils/csvParser.js:28 | Files that agree on their first 14 lines validate alike. |
| CsvHeaders.EmptyTextRejected | src/utils/csvParser.js:37-44 | Empty text fails at line 1: expected `Name`, found the empty word. |
| PlanToggle.Without | src/__tests__/appPlanToggle.test.js:8-19 | The filter keeps exactly the other plans, and removes at least one when the plan is present. |
| PlanToggle.WithoutAppend | src/__tests__/appPlanToggle.test.js:10 | The filter works element by element, so the other plans keep their order. |
| PlanToggle.WithoutDistinct | src/__tests__/appPlanToggle.test.js:10 | Filtering a duplicate-free selection keeps it duplicate-free. |
| PlanToggle.DeselectOne | src/__tests__/appPlanToggle.test.js:35-53 | Toggling a selected plan off leaves the other one. |
| PlanToggle.DeselectBoth | src/__tests__/appPlanToggle.test.js:65-76 | Deselecting both plans in either order gives []. |
| PlanToggle.SelectNew | src/__tests__/appPlanToggle.test.js:20-31 | Selecting p gives [p] from [], [c, p] from [c], and [p, b] from [a, b], which replaces the first. |
| PlanToggle.ToggleKeepsSelection | src/__tests__/appPlanToggle.test.js:5-33 | A selection of at most 2 distinct plans stays one. The toggled plan ends up selected iff it was not. Only the first of two plans is ever displaced. |
| PlanToggle.RemainderBranchUnreachable | src/__tests__/appPlanToggle.test.js:12-15 | From at most two plans the remainder never has two, so that branch is dead. |
| PlanToggle.RemainderBranchFromThree | src/__tests__/appPlanToggle.test.js:12-15 | Only from three plans does deselecting leave two, and then both are kept. |
| PlanToggle.OnThenOff | src/__tests__/appPlanToggle.test.js:105-120 | Toggling an unselected plan on and then off restores a selection of at most one plan. From two plans it leaves the second, the first having been displaced. |
| Text.SortedKeys | src/composables/useMultiPlanCalculator.js:309 | The sorted group keys are strictly ascending and are exactly the distinct keys. |
| Text.TrimSpec | src/utils/csvParser.js:38 | `trim` removes exactly the leading and trailing whitespace. |
| Text.SplitJoin | src/utils/csvParser.js:28 | Splitting on a separator inverts joining separator-free pieces. |
| Text.JoinSplit | src/utils/csvParser.js:28 | Joining the pieces of a split restores the text. |
| Seqs.GroupTotals | src/composables/useMultiPlanCalculator.js:252-266 | The accumulating loop records the keys in first-seen order, the first row of each key, and each key's totals over exactly its rows. |

## Left out

- I/O and third-party parsing are not modelled.
  - `Papa.parse`, `FileReader`, the `fetch` of a CSV and the Papa error callbacks
    (src/utils/csvParser.js:67-81, 102-118).
  - After the pre-read checks, a file outcome is just "handed to the parser".
- The date library (`parse`, `isValid`, `getMonth`, `getHours`, `getDay`, `getDate`, `format`)
  is the parameter `parseDateTime`, which returns the fields or `None`. `parseFloat` is the
  parameter `parseNumber`, with `None` for NaN.
- `prepareChartData` in both controllers is not modelled: it builds presentation series for
  Chart.js.
- `toFixed` formatting is not modelled: all amounts stay exact reals.
- IEEE floats are not modelled: reals are exact, so 1.3 × 11.2 is exactly 14.56, and test
  tolerances are equalities.
- The unguarded averages are `Option`s (`None` for 0 kWh, where the source produces NaN or
  Infinity).
- `localeCompare` and `sort()` are modelled as code-unit lexicographic order. The two orders
  agree on the ASCII keys these tables sort.
- Async plumbing (`nextTick`, Promises) is not modelled: each edit and reset is one sequential
  method, and `updating` is false on exit.
- Console logging is not modelled.
- The legacy `processData` catch path (src/composables/useEnergyCalculator.js:217-228) cannot
  occur in the model: nothing in it throws once dates are parameters, so `error` stays `None`.
- EnergyProperties.PeriodSummariesSorted: requires every row's season label to match its summer
  flag. Every row `processData` stores satisfies this (`EnergySummaries.UsageOf`).
- MultiPlanController.MultiPlanCalculator.UpdateMonthlyUsage: requires a non-zero current total
  when some row matches. The source divides by it unguarded and would write NaN or Infinity
  consumptions, which reals cannot represent.
- MultiPlanController.MultiPlanCalculator.UpdatePeriodUsage: the same requirement as the
  monthly edit, for the same reason.
- Tariffs.GetTimePeriod: requires the plan key to be in the catalog. The source reads the
  plan's type without a check and would throw a `TypeError` on an unknown key. Every caller
  either passes a catalog key or fails earlier with `Unknown plan type`.
- The `deepCloneWithDates` copy is modelled by value: with immutable rows, a fresh copy and an
  alias cannot be told apart. The model therefore does not capture aliasing between
  `usageData` and `originalUsageData`. `DeepClone` proves that the clone is equal to its
  input.
- The `type` alias field duplicated in `getSelectablePlans` entries (src/composables/useMultiPlanCalculator.js:101)
  is dropped, because it always equals `key`.
- Tariffs.GetPlanInfo: plan lookups are modelled over the catalog's own keys only. In the
  source `SDGE_PLANS` is a plain object, so an inherited `Object.prototype` name such as
  `toString` or `constructor` is not undefined. There `calculateRate` passes its unknown-plan
  guard and fails later with a `TypeError`, and `generateComparisons` reads an undefined
  monthly charge and yields NaN totals. The model treats those names as unknown keys, so it
  reports `Unknown plan type` for them instead.
- The in-place `forEach` writes to row objects in the usage edits
  (src/composables/useMultiPlanCalculator.js:438-459) become updates of the `usageData`
  sequence, one row per loop step in `ScaleMatchingRows`. Row identity is not modelled.
