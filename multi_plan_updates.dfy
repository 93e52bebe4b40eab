/** The manual usage edits of `useMultiPlanCalculator`: `updateMonthlyUsage` scales the readings
    of one month, `updatePeriodUsage` those of one (season, period) group, so that the group's
    consumption becomes the requested total, and each scaled reading is priced again in place.
    The pass over the rows is given here as a function of the row index; the controller's loop
    is proved to compute it. */
module MultiPlanUpdates {
  import opened Wrappers
  import opened Seqs
  import opened Tariffs
  import opened MultiPlan

  /** The edit asked for: a new total for a month (`yyyy-MM`) or for a season name and period
      label as the period table shows them. */
  datatype UsageUpdate =
    | MonthUpdate(month: string, consumption: real)
    | PeriodUpdate(season: string, period: string, consumption: real)

  /** The rows an edit applies to. */
  predicate Matches(up: UsageUpdate, u: UsageRow) {
    match up
    case MonthUpdate(m, _) => u.reading.monthYearKey == m
    case PeriodUpdate(s, p, _) => SeasonName(u.reading.season) == s && u.plan1.period == p
  }

  /** `usageData.filter(...)` with the edit's condition, in order. */
  function Matching(rows: seq<UsageRow>, up: UsageUpdate): (r: seq<UsageRow>)
    ensures |r| <= |rows|
    decreases |rows|
  {
    if rows == [] then []
    else Matching(rows[..|rows| - 1], up) + (if Matches(up, rows[|rows| - 1]) then [rows[|rows| - 1]] else [])
  }

  /** A row is among the matching rows exactly when it is one of the rows and meets the edit's
      condition. */
  lemma {:induction false} MatchingSelects(rows: seq<UsageRow>, up: UsageUpdate)
    ensures forall u :: u in Matching(rows, up) <==> u in rows && Matches(up, u)
    decreases |rows|
  {
    if rows != [] {
      var n := |rows| - 1;
      MatchingSelects(rows[..n], up);
      assert rows == rows[..n] + [rows[n]];
    }
  }

  /** The reading with its consumption multiplied by the scale factor. */
  function ScaleRow(u: UsageRow, f: real): UsageRow {
    u.(reading := u.reading.(consumption := u.reading.consumption * f))
  }

  /** The costs and rates replaced by new calculations; the period labels stay as they were. */
  function Reprice(u: UsageRow, r1: RateInfo, r2: RateInfo): UsageRow {
    u.(plan1 := u.plan1.(cost := r1.baseCost, rate := r1.rate),
       plan2 := u.plan2.(cost := r2.baseCost, rate := r2.rate))
  }

  /** A row with its consumption, rates and costs set to zero: what an edit cannot change. */
  function Skeleton(u: UsageRow): UsageRow {
    UsageRow(u.reading.(consumption := 0.0), u.plan1.(rate := 0.0, cost := 0.0), u.plan2.(rate := 0.0, cost := 0.0))
  }

  /** Two rows that differ at most in consumption, rates and costs. */
  predicate SameExceptAmounts(a: UsageRow, b: UsageRow) {
    Skeleton(a) == Skeleton(b)
  }

  /** The skeletons of rows, in order. */
  function Skeletons(rows: seq<UsageRow>): (r: seq<UsageRow>)
    ensures |r| == |rows|
  {
    seq(|rows|, i requires 0 <= i < |rows| => Skeleton(rows[i]))
  }

  /** Replacing a row by one of the same shape keeps the skeletons. */
  lemma SkeletonsUpdate(rows: seq<UsageRow>, i: nat, u: UsageRow)
    requires i < |rows| && SameExceptAmounts(u, rows[i])
    ensures Skeletons(rows[i := u]) == Skeletons(rows)
  {
    assert forall j :: 0 <= j < |rows| ==> Skeletons(rows[i := u])[j] == Skeletons(rows)[j];
  }


  /** The daily total handed to `calculateRate` for row `i` of the current rows: the edit's
      new total for a month edit, and the consumption of the row's day as the rows stand at that
      moment for a period edit. */
  function DailyTotalFor(up: UsageUpdate, rows: seq<UsageRow>, i: nat): real
    requires i < |rows|
  {
    match up
    case MonthUpdate(_, newTotal) => newTotal
    case PeriodUpdate(_, _, _) => TotalWhere(rows, DateKeyOf, rows[i].reading.dateKey, ConsumptionOf)
  }

  /** The outcome of the pass: the rows as the pass left them, and the message of what threw. */
  datatype PassResult = PassResult(rows: seq<UsageRow>, error: Option<string>)

  /** The `forEach` over the rows from index `i`: a matching row is scaled first, then both
      plans are priced (the first plan first), and the new rates and costs are written only
      when both calculations succeed; a throw ends the pass with the row already scaled. */
  function UpdatePass(catalog: map<string, Plan>, rows: seq<UsageRow>, i: nat, up: UsageUpdate, f: real, p1: string, p2: string): (r: PassResult)
    requires ValidCatalog(catalog)
    requires i <= |rows|
    ensures |r.rows| == |rows|
    decreases |rows| - i
  {
    if i == |rows| then PassResult(rows, None)
    else if !Matches(up, rows[i]) then UpdatePass(catalog, rows, i + 1, up, f, p1, p2)
    else
      var u := ScaleRow(rows[i], f);
      var scaled := rows[i := u];
      var d := DailyTotalFor(up, scaled, i);
      var r1 := Rate(catalog, p1, u.reading.hour, u.reading.isWeekend, u.reading.season, u.reading.consumption, d);
      var r2 := Rate(catalog, p2, u.reading.hour, u.reading.isWeekend, u.reading.season, u.reading.consumption, d);
      if r1.Err? then PassResult(scaled, Some(r1.error))
      else if r2.Err? then PassResult(scaled, Some(r2.error))
      else UpdatePass(catalog, scaled[i := Reprice(u, r1.value, r2.value)], i + 1, up, f, p1, p2)
  }

  /** The pass an edit runs: the factor is the new total over the group's current total, and
      the rows are priced under the first two selected plans. */
  function EditPass(catalog: map<string, Plan>, rows: seq<UsageRow>, up: UsageUpdate, plans: seq<string>): (r: PassResult)
    requires ValidCatalog(catalog)
    requires Total(Matching(rows, up), ConsumptionOf) != 0.0
    ensures |r.rows| == |rows|
  {
    UpdatePass(catalog, rows, 0, up, up.consumption / Total(Matching(rows, up), ConsumptionOf),
               PlanAt(plans, 0), PlanAt(plans, 1))
  }

  // ---------------------------------------------------------------------------------------
  // properties of the pass

  /** Pricing row `j` of the current rows, which is already scaled: the new rates and costs of
      both plans with the daily total the edit prescribes. */
  function PriceAt(catalog: map<string, Plan>, state: seq<UsageRow>, j: nat, up: UsageUpdate, p1: string, p2: string): UsageRow
    requires j < |state|
    requires ValidCatalog(catalog) && p1 in catalog && p2 in catalog
  {
    var u := state[j];
    var d := DailyTotalFor(up, state, j);
    var r1 := Rate(catalog, p1, u.reading.hour, u.reading.isWeekend, u.reading.season, u.reading.consumption, d);
    var r2 := Rate(catalog, p2, u.reading.hour, u.reading.isWeekend, u.reading.season, u.reading.consumption, d);
    Reprice(u, r1.value, r2.value)
  }

  /** The rows as they stand when the pass reaches row `j`, as far as day keys and consumption
      go: the matching rows from `i` through `j` scaled, the rest as given. */
  function ScaledThrough(rows: seq<UsageRow>, i: nat, j: nat, up: UsageUpdate, f: real): (r: seq<UsageRow>)
    ensures |r| == |rows|
  {
    seq(|rows|, k requires 0 <= k < |rows| => if i <= k <= j && Matches(up, rows[k]) then ScaleRow(rows[k], f) else rows[k])
  }

  /** Scaling and repricing keep what the edits select on and group by. */
  lemma MatchesKept(up: UsageUpdate, a: UsageRow, b: UsageRow)
    requires SameExceptAmounts(a, b)
    ensures Matches(up, a) == Matches(up, b)
    ensures a.reading.dateKey == b.reading.dateKey && a.reading.monthYearKey == b.reading.monthYearKey
  {
    assert a.reading.(consumption := 0.0).season == a.reading.season;
    assert a.reading.(consumption := 0.0).dateKey == a.reading.dateKey;
    assert a.reading.(consumption := 0.0).monthYearKey == a.reading.monthYearKey;
    assert b.reading.(consumption := 0.0).season == b.reading.season;
    assert b.reading.(consumption := 0.0).dateKey == b.reading.dateKey;
    assert b.reading.(consumption := 0.0).monthYearKey == b.reading.monthYearKey;
    assert a.plan1.(rate := 0.0, cost := 0.0).period == a.plan1.period;
    assert b.plan1.(rate := 0.0, cost := 0.0).period == b.plan1.period;
  }

  /** Pricing depends on the current rows only through the priced row and the day keys and
      consumption of all rows. */
  lemma PriceAtAgrees(catalog: map<string, Plan>, a: seq<UsageRow>, b: seq<UsageRow>, j: nat, up: UsageUpdate, p1: string, p2: string)
    requires j < |a| == |b| && a[j] == b[j]
    requires ValidCatalog(catalog) && p1 in catalog && p2 in catalog
    requires forall n :: 0 <= n < |a| ==> a[n].reading.dateKey == b[n].reading.dateKey
    requires forall n :: 0 <= n < |a| ==> a[n].reading.consumption == b[n].reading.consumption
    ensures PriceAt(catalog, a, j, up, p1, p2) == PriceAt(catalog, b, j, up, p1, p2)
  {
    DayTotalsAgree(a, b, a[j].reading.dateKey);
    assert DailyTotalFor(up, a, j) == DailyTotalFor(up, b, j);
  }

  /** Day totals agree for rows that agree on day keys and consumption. */
  lemma DayTotalsAgree(a: seq<UsageRow>, b: seq<UsageRow>, k: string)
    requires |a| == |b|
    requires forall n :: 0 <= n < |a| ==> a[n].reading.dateKey == b[n].reading.dateKey
    requires forall n :: 0 <= n < |a| ==> a[n].reading.consumption == b[n].reading.consumption
    ensures TotalWhere(a, DateKeyOf, k, ConsumptionOf) == TotalWhere(b, DateKeyOf, k, ConsumptionOf)
  {
    forall n | 0 <= n < |a| ensures ConsumptionOf(b[n]) == 1.0 * ConsumptionOf(a[n]) && DateKeyOf(b[n]) == DateKeyOf(a[n]) {
    }
    TotalWhereScaled(a, b, DateKeyOf, k, ConsumptionOf, 1.0);
  }

  /** A priced row keeps its reading and its period labels. */
  lemma PriceAtShape(catalog: map<string, Plan>, state: seq<UsageRow>, j: nat, up: UsageUpdate, p1: string, p2: string)
    requires j < |state|
    requires ValidCatalog(catalog) && p1 in catalog && p2 in catalog
    ensures PriceAt(catalog, state, j, up, p1, p2).reading == state[j].reading
    ensures SameExceptAmounts(PriceAt(catalog, state, j, up, p1, p2), state[j])
  {
  }

  /** What the pass from row `i` leaves when both plans are in the catalog: no error, the same
      number of rows in the same order, every row before `i` and every non-matching row as it
      was, and each matching row from `i` on with its reading scaled by the factor, its keys and
      period labels unchanged, and priced with the daily total of the rows as the pass finds
      them when it reaches the row (earlier matching rows already scaled, later ones not yet). */
  ghost predicate PassOutcome(catalog: map<string, Plan>, rows: seq<UsageRow>, i: nat, up: UsageUpdate, f: real, p1: string, p2: string, r: PassResult)
    requires i <= |rows|
    requires ValidCatalog(catalog) && p1 in catalog && p2 in catalog
  {
    PassShape(rows, i, up, f, r) && PassPrices(catalog, rows, i, up, f, p1, p2, r)
  }

  /** The shape half of `PassOutcome`: what changes and what does not. */
  ghost predicate PassShape(rows: seq<UsageRow>, i: nat, up: UsageUpdate, f: real, r: PassResult)
    requires i <= |rows|
  {
    && r.error.None?
    && |r.rows| == |rows|
    && (forall j :: 0 <= j < |rows| && (j < i || !Matches(up, rows[j])) ==> r.rows[j] == rows[j])
    && (forall j :: i <= j < |rows| && Matches(up, rows[j]) ==>
          SameExceptAmounts(r.rows[j], rows[j]) && r.rows[j].reading == ScaleRow(rows[j], f).reading)
  }

  /** The pricing half of `PassOutcome`: the new rates and costs of each matching row. */
  ghost predicate PassPrices(catalog: map<string, Plan>, rows: seq<UsageRow>, i: nat, up: UsageUpdate, f: real, p1: string, p2: string, r: PassResult)
    requires i <= |rows|
    requires ValidCatalog(catalog) && p1 in catalog && p2 in catalog
  {
    && |r.rows| == |rows|
    && (forall j :: i <= j < |rows| && Matches(up, rows[j]) ==>
          r.rows[j] == PriceAt(catalog, ScaledThrough(rows, i, j, up, f), j, up, p1, p2))
  }

  /** With both plans in the catalog the pass never throws, and it leaves the rows as
      `PassOutcome` describes. */
  lemma {:induction false} UpdatePassSpec(catalog: map<string, Plan>, rows: seq<UsageRow>, i: nat, up: UsageUpdate, f: real, p1: string, p2: string)
    requires i <= |rows|
    requires ValidCatalog(catalog) && p1 in catalog && p2 in catalog
    ensures PassOutcome(catalog, rows, i, up, f, p1, p2, UpdatePass(catalog, rows, i, up, f, p1, p2))
    decreases |rows| - i
  {
    if i < |rows| {
      if !Matches(up, rows[i]) {
        UpdatePassSpec(catalog, rows, i + 1, up, f, p1, p2);
        SkipStep(catalog, rows, i, up, f, p1, p2, UpdatePass(catalog, rows, i + 1, up, f, p1, p2));
      } else {
        var scaled := rows[i := ScaleRow(rows[i], f)];
        var next := scaled[i := PriceAt(catalog, scaled, i, up, p1, p2)];
        assert UpdatePass(catalog, rows, i, up, f, p1, p2) == UpdatePass(catalog, next, i + 1, up, f, p1, p2);
        UpdatePassSpec(catalog, next, i + 1, up, f, p1, p2);
        MatchStep(catalog, rows, i, up, f, p1, p2, UpdatePass(catalog, next, i + 1, up, f, p1, p2));
      }
    }
  }

  lemma SkipStep(catalog: map<string, Plan>, rows: seq<UsageRow>, i: nat, up: UsageUpdate, f: real, p1: string, p2: string, r: PassResult)
    requires i < |rows| && !Matches(up, rows[i])
    requires ValidCatalog(catalog) && p1 in catalog && p2 in catalog
    requires PassOutcome(catalog, rows, i + 1, up, f, p1, p2, r)
    ensures PassOutcome(catalog, rows, i, up, f, p1, p2, r)
  {
    assert PassShape(rows, i + 1, up, f, r);
    assert PassShape(rows, i, up, f, r);
    assert PassPrices(catalog, rows, i + 1, up, f, p1, p2, r);
    forall j | i <= j < |rows| && Matches(up, rows[j])
      ensures r.rows[j] == PriceAt(catalog, ScaledThrough(rows, i, j, up, f), j, up, p1, p2)
    {
      ScaledThroughSkip(rows, i, j, up, f);
    }
    assert PassPrices(catalog, rows, i, up, f, p1, p2, r);
  }

  lemma ScaledThroughSkip(rows: seq<UsageRow>, i: nat, j: nat, up: UsageUpdate, f: real)
    requires i < |rows| && !Matches(up, rows[i])
    ensures ScaledThrough(rows, i + 1, j, up, f) == ScaledThrough(rows, i, j, up, f)
  {
    var a := ScaledThrough(rows, i + 1, j, up, f);
    var b := ScaledThrough(rows, i, j, up, f);
    forall k | 0 <= k < |rows| ensures a[k] == b[k] {
    }
  }

  lemma MatchStep(catalog: map<string, Plan>, rows: seq<UsageRow>, i: nat, up: UsageUpdate, f: real, p1: string, p2: string, r: PassResult)
    requires i < |rows| && Matches(up, rows[i])
    requires ValidCatalog(catalog) && p1 in catalog && p2 in catalog
    requires var scaled := rows[i := ScaleRow(rows[i], f)];
             PassOutcome(catalog, scaled[i := PriceAt(catalog, scaled, i, up, p1, p2)], i + 1, up, f, p1, p2, r)
    ensures PassOutcome(catalog, rows, i, up, f, p1, p2, r)
  {
    var scaled := rows[i := ScaleRow(rows[i], f)];
    var next := scaled[i := PriceAt(catalog, scaled, i, up, p1, p2)];
    MatchStepHere(catalog, rows, i, up, f, p1, p2, r);
    forall j | i < j < |rows| && Matches(up, rows[j])
      ensures && SameExceptAmounts(r.rows[j], rows[j])
              && r.rows[j].reading == ScaleRow(rows[j], f).reading
              && r.rows[j] == PriceAt(catalog, ScaledThrough(rows, i, j, up, f), j, up, p1, p2)
    {
      MatchStepLater(catalog, rows, i, j, up, f, p1, p2, r);
    }
    forall j | 0 <= j < |rows| && (j < i || !Matches(up, rows[j]))
      ensures r.rows[j] == rows[j]
    {
      assert next[j] == rows[j];
    }
  }

  /** The row the step itself prices. */
  lemma MatchStepHere(catalog: map<string, Plan>, rows: seq<UsageRow>, i: nat, up: UsageUpdate, f: real, p1: string, p2: string, r: PassResult)
    requires i < |rows| && Matches(up, rows[i])
    requires ValidCatalog(catalog) && p1 in catalog && p2 in catalog
    requires var scaled := rows[i := ScaleRow(rows[i], f)];
             PassOutcome(catalog, scaled[i := PriceAt(catalog, scaled, i, up, p1, p2)], i + 1, up, f, p1, p2, r)
    ensures |r.rows| == |rows|
    ensures SameExceptAmounts(r.rows[i], rows[i])
    ensures r.rows[i].reading == ScaleRow(rows[i], f).reading
    ensures r.rows[i] == PriceAt(catalog, ScaledThrough(rows, i, i, up, f), i, up, p1, p2)
  {
    var scaled := rows[i := ScaleRow(rows[i], f)];
    var next := scaled[i := PriceAt(catalog, scaled, i, up, p1, p2)];
    PriceAtShape(catalog, scaled, i, up, p1, p2);
    assert ScaledThrough(rows, i, i, up, f) == scaled;
    assert r.rows[i] == next[i];
    assert ScaleRow(rows[i], f).reading.(consumption := 0.0) == rows[i].reading.(consumption := 0.0);
  }

  /** A later matching row: the current rows the pass sees there are the same either way. */
  lemma MatchStepLater(catalog: map<string, Plan>, rows: seq<UsageRow>, i: nat, j: nat, up: UsageUpdate, f: real, p1: string, p2: string, r: PassResult)
    requires i < j < |rows| && Matches(up, rows[i]) && Matches(up, rows[j])
    requires ValidCatalog(catalog) && p1 in catalog && p2 in catalog
    requires var scaled := rows[i := ScaleRow(rows[i], f)];
             PassOutcome(catalog, scaled[i := PriceAt(catalog, scaled, i, up, p1, p2)], i + 1, up, f, p1, p2, r)
    ensures && SameExceptAmounts(r.rows[j], rows[j])
            && r.rows[j].reading == ScaleRow(rows[j], f).reading
            && r.rows[j] == PriceAt(catalog, ScaledThrough(rows, i, j, up, f), j, up, p1, p2)
  {
    var scaled := rows[i := ScaleRow(rows[i], f)];
    var next := scaled[i := PriceAt(catalog, scaled, i, up, p1, p2)];
    PriceAtShape(catalog, scaled, i, up, p1, p2);
    assert next[j] == rows[j];
    PriceAtAgrees(catalog, ScaledThrough(next, i + 1, j, up, f), ScaledThrough(rows, i, j, up, f), j, up, p1, p2);
  }

  /** `j` is the first matching row from `i` on. */
  predicate FirstMatchFrom(rows: seq<UsageRow>, i: nat, up: UsageUpdate, j: nat) {
    i <= j < |rows| && Matches(up, rows[j]) && forall k :: i <= k < j ==> !Matches(up, rows[k])
  }

  /** With a plan outside the catalog the pass throws at the first matching row from `i`, after
      scaling that row and before pricing it; the message names the first unknown of the two
      plans. Without a matching row nothing happens. */
  lemma {:induction false} UpdatePassFails(catalog: map<string, Plan>, rows: seq<UsageRow>, i: nat, up: UsageUpdate, f: real, p1: string, p2: string)
    requires i <= |rows|
    requires ValidCatalog(catalog)
    requires p1 !in catalog || p2 !in catalog
    ensures (forall j :: i <= j < |rows| ==> !Matches(up, rows[j])) ==>
              UpdatePass(catalog, rows, i, up, f, p1, p2) == PassResult(rows, None)
    ensures forall j: nat :: FirstMatchFrom(rows, i, up, j) ==>
              UpdatePass(catalog, rows, i, up, f, p1, p2)
              == PassResult(rows[j := ScaleRow(rows[j], f)], Some("Unknown plan type: " + (if p1 !in catalog then p1 else p2)))
    decreases |rows| - i
  {
    if i < |rows| {
      if !Matches(up, rows[i]) {
        UpdatePassFails(catalog, rows, i + 1, up, f, p1, p2);
        forall j | FirstMatchFrom(rows, i, up, j) ensures FirstMatchFrom(rows, i + 1, up, j) {
        }
      } else {
        var u := ScaleRow(rows[i], f);
        var d := DailyTotalFor(up, rows[i := u], i);
        var r1 := Rate(catalog, p1, u.reading.hour, u.reading.isWeekend, u.reading.season, u.reading.consumption, d);
        var r2 := Rate(catalog, p2, u.reading.hour, u.reading.isWeekend, u.reading.season, u.reading.consumption, d);
        assert r1.Err? || r2.Err?;
        assert UpdatePass(catalog, rows, i, up, f, p1, p2)
               == PassResult(rows[i := u], Some("Unknown plan type: " + (if p1 !in catalog then p1 else p2)));
        forall j | FirstMatchFrom(rows, i, up, j) ensures j == i {
        }
      }
    }
  }

  /** The edit's condition as a key on the rows. */
  function MatchKey(up: UsageUpdate): UsageRow -> bool {
    u => Matches(up, u)
  }

  /** The total over the matching rows is the total over the rows whose condition holds. */
  lemma {:induction false} MatchingTotal(rows: seq<UsageRow>, up: UsageUpdate, val: UsageRow -> real)
    ensures Total(Matching(rows, up), val) == TotalWhere(rows, MatchKey(up), true, val)
    decreases |rows|
  {
    if rows != [] {
      var n := |rows| - 1;
      MatchingTotal(rows[..n], up, val);
      var m := Matching(rows[..n], up);
      if Matches(up, rows[n]) {
        TotalSnoc(m, rows[n], val);
      } else {
        assert m + [] == m;
      }
    }
  }

  /** The matched total of `val` over `b` is the matched total of `w` over `a`, when `b` keeps
      which rows of `a` match and gives each match the value `w` gives the original row. */
  lemma {:induction false} MatchingMapped(a: seq<UsageRow>, b: seq<UsageRow>, up: UsageUpdate, val: UsageRow -> real, w: UsageRow -> real)
    requires |a| == |b|
    requires forall n :: 0 <= n < |a| ==> Matches(up, b[n]) == Matches(up, a[n])
    requires forall n :: 0 <= n < |a| && Matches(up, a[n]) ==> val(b[n]) == w(a[n])
    ensures Total(Matching(b, up), val) == Total(Matching(a, up), w)
    decreases |a|
  {
    if a != [] {
      var n := |a| - 1;
      MatchingMapped(a[..n], b[..n], up, val, w);
      MatchingSnoc(a, up, w);
      MatchingSnoc(b, up, val);
    }
  }

  /** One more row adds its value to the matched total exactly when it matches. */
  lemma MatchingSnoc(a: seq<UsageRow>, up: UsageUpdate, val: UsageRow -> real)
    requires a != []
    ensures Total(Matching(a, up), val)
         == Total(Matching(a[..|a| - 1], up), val) + (if Matches(up, a[|a| - 1]) then val(a[|a| - 1]) else 0.0)
  {
    var n := |a| - 1;
    var m := Matching(a[..n], up);
    if Matches(up, a[n]) {
      TotalSnoc(m, a[n], val);
    } else {
      assert m + [] == m;
    }
  }

  /** The pass scales the edited group's consumption by the factor, so with the factor the
      controllers use (the requested total over the current one) the group ends at the
      requested total. `current` and `updated` are the group's total consumption before and
      after the pass. */
  lemma UpdateReachesTarget(catalog: map<string, Plan>, rows: seq<UsageRow>, up: UsageUpdate, f: real, p1: string, p2: string, r: PassResult,
                            current: real, updated: real)
    requires ValidCatalog(catalog) && p1 in catalog && p2 in catalog
    requires r == UpdatePass(catalog, rows, 0, up, f, p1, p2)
    requires current == Total(Matching(rows, up), ConsumptionOf) && updated == Total(Matching(r.rows, up), ConsumptionOf)
    ensures updated == f * current
    ensures current != 0.0 && f == up.consumption / current ==> updated == up.consumption
  {
    PassKeepsMatches(catalog, rows, up, f, p1, p2, r);
    GroupScaled(rows, r.rows, up, f, current, updated);
    ScaledToTarget(updated, current, up.consumption, f);
  }

  /** A row's consumption multiplied by the factor. */
  function ScaledConsumption(f: real): UsageRow -> real {
    u => f * ConsumptionOf(u)
  }

  /** The pass keeps which rows match, and scales the consumption of each match by the factor. */
  lemma PassKeepsMatches(catalog: map<string, Plan>, rows: seq<UsageRow>, up: UsageUpdate, f: real, p1: string, p2: string, r: PassResult)
    requires ValidCatalog(catalog) && p1 in catalog && p2 in catalog
    requires r == UpdatePass(catalog, rows, 0, up, f, p1, p2)
    ensures |r.rows| == |rows|
    ensures forall n :: 0 <= n < |rows| ==> Matches(up, r.rows[n]) == Matches(up, rows[n])
    ensures forall n :: 0 <= n < |rows| && Matches(up, rows[n]) ==> ConsumptionOf(r.rows[n]) == ScaledConsumption(f)(rows[n])
  {
    UpdatePassShape(catalog, rows, up, f, p1, p2);
    forall n | 0 <= n < |rows|
      ensures Matches(up, r.rows[n]) == Matches(up, rows[n])
      ensures Matches(up, rows[n]) ==> ConsumptionOf(r.rows[n]) == ScaledConsumption(f)(rows[n])
    {
      if Matches(up, rows[n]) {
        MatchesKept(up, r.rows[n], rows[n]);
        assert r.rows[n].reading.consumption == rows[n].reading.consumption * f;
      }
    }
  }

  /** The shape half of the pass's outcome, from the start of the rows. */
  lemma UpdatePassShape(catalog: map<string, Plan>, rows: seq<UsageRow>, up: UsageUpdate, f: real, p1: string, p2: string)
    requires ValidCatalog(catalog) && p1 in catalog && p2 in catalog
    ensures PassShape(rows, 0, up, f, UpdatePass(catalog, rows, 0, up, f, p1, p2))
  {
    UpdatePassSpec(catalog, rows, 0, up, f, p1, p2);
  }

  /** Scaling the consumption of every row scales the total (`t`, scaled to `ts`) by the same
      factor. */
  lemma ConsumptionScaled(s: seq<UsageRow>, f: real, t: real, ts: real)
    requires t == Total(s, ConsumptionOf) && ts == Total(s, ScaledConsumption(f))
    ensures ts == f * t
  {
    TotalScaled(s, ConsumptionOf, ScaledConsumption(f), f);
  }

  /** When `b` keeps which rows of `a` match and scales each match's consumption by the factor,
      the group's total consumption (`x` over `a`, `y` over `b`) is scaled by the factor. */
  lemma GroupScaled(a: seq<UsageRow>, b: seq<UsageRow>, up: UsageUpdate, f: real, x: real, y: real)
    requires |a| == |b|
    requires forall n :: 0 <= n < |a| ==> Matches(up, b[n]) == Matches(up, a[n])
    requires forall n :: 0 <= n < |a| && Matches(up, a[n]) ==> ConsumptionOf(b[n]) == ScaledConsumption(f)(a[n])
    requires x == Total(Matching(a, up), ConsumptionOf) && y == Total(Matching(b, up), ConsumptionOf)
    ensures y == f * x
  {
    MatchingMapped(a, b, up, ConsumptionOf, ScaledConsumption(f));
    ConsumptionScaled(Matching(a, up), f, x, y);
  }

  lemma ScaledToTarget(after: real, current: real, target: real, f: real)
    requires after == f * current
    ensures current != 0.0 && f == target / current ==> after == target
  {
  }

  /** A month edit leaves every other month's totals (consumption and both plans' costs) as
      they were. */
  lemma OtherMonthsUnchanged(catalog: map<string, Plan>, rows: seq<UsageRow>, m: string, newTotal: real, f: real, p1: string, p2: string,
                             k: string, val: UsageRow -> real)
    requires ValidCatalog(catalog) && p1 in catalog && p2 in catalog
    requires k != m
    ensures TotalWhere(UpdatePass(catalog, rows, 0, MonthUpdate(m, newTotal), f, p1, p2).rows, MonthOf, k, val)
         == TotalWhere(rows, MonthOf, k, val)
  {
    var up := MonthUpdate(m, newTotal);
    UpdatePassSpec(catalog, rows, 0, up, f, p1, p2);
    OtherMonthsKept(rows, m, newTotal, f, UpdatePass(catalog, rows, 0, up, f, p1, p2), k, val);
  }

  lemma OtherMonthsKept(rows: seq<UsageRow>, m: string, newTotal: real, f: real, r: PassResult,
                        k: string, val: UsageRow -> real)
    requires PassShape(rows, 0, MonthUpdate(m, newTotal), f, r)
    requires k != m
    ensures TotalWhere(r.rows, MonthOf, k, val) == TotalWhere(rows, MonthOf, k, val)
  {
    var up := MonthUpdate(m, newTotal);
    forall n | 0 <= n < |rows|
      ensures MonthOf(r.rows[n]) == MonthOf(rows[n])
      ensures MonthOf(rows[n]) == k ==> val(r.rows[n]) == 1.0 * val(rows[n])
    {
      if Matches(up, rows[n]) {
        MatchesKept(up, r.rows[n], rows[n]);
      }
    }
    TotalWhereScaled(rows, r.rows, MonthOf, k, val, 1.0);
  }

  /** A month edit prices every reading of the month with the month's new total standing in
      for the day's total: for the tiered plan, once that total is above the larger daily
      baseline limit (14.56 kWh), every reading of the month is priced at the tier-2 rate
      whatever its day used. */
  lemma MonthEditPricesAtTierTwo(rows: seq<UsageRow>, m: string, newTotal: real, f: real, p2: string, j: nat)
    requires p2 in SdgePlans
    requires j < |rows| && rows[j].reading.monthYearKey == m
    requires newTotal > 14.56
    ensures ValidCatalog(SdgePlans) && "DR" in SdgePlans
    ensures UpdatePass(SdgePlans, rows, 0, MonthUpdate(m, newTotal), f, "DR", p2).rows[j].plan1.rate == 0.51236
  {
    var u := ScaleRow(rows[j], f);
    DrRateNumbers(u.reading.hour, u.reading.isWeekend, u.reading.season, u.reading.consumption, newTotal);
    assert Rate(SdgePlans, "DR", u.reading.hour, u.reading.isWeekend, u.reading.season, u.reading.consumption, newTotal).Ok?;
    UpdatePassSpec(SdgePlans, rows, 0, MonthUpdate(m, newTotal), f, "DR", p2);
  }

  /** Whatever the plans, every row the pass leaves has the shape of the row it started from:
      only consumption, rates and costs can differ. */
  lemma {:induction false} UpdatePassKeepsShape(catalog: map<string, Plan>, rows: seq<UsageRow>, i: nat, up: UsageUpdate, f: real, p1: string, p2: string)
    requires ValidCatalog(catalog)
    requires i <= |rows|
    ensures Skeletons(UpdatePass(catalog, rows, i, up, f, p1, p2).rows) == Skeletons(rows)
    decreases |rows| - i
  {
    if i < |rows| && Matches(up, rows[i]) {
      var u := ScaleRow(rows[i], f);
      var scaled := rows[i := u];
      var d := DailyTotalFor(up, scaled, i);
      var r1 := Rate(catalog, p1, u.reading.hour, u.reading.isWeekend, u.reading.season, u.reading.consumption, d);
      var r2 := Rate(catalog, p2, u.reading.hour, u.reading.isWeekend, u.reading.season, u.reading.consumption, d);
      SkeletonsUpdate(rows, i, u);
      if r1.Ok? && r2.Ok? {
        var next := scaled[i := Reprice(u, r1.value, r2.value)];
        SkeletonsUpdate(scaled, i, Reprice(u, r1.value, r2.value));
        UpdatePassKeepsShape(catalog, next, i + 1, up, f, p1, p2);
      }
    } else if i < |rows| {
      UpdatePassKeepsShape(catalog, rows, i + 1, up, f, p1, p2);
    }
  }

}
