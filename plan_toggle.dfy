/** The plan-toggle rule of the plan picker (`simulateHandlePlanToggle`, mirroring the app's
    click handler): a click on a selected plan removes it, a click on an unselected plan adds
    it, replacing the first of two selected plans. Selections hold plan keys. */
module PlanToggle {
  import opened Seqs

  /** `selection.filter(p => p !== plan)`. */
  function Without(selection: seq<string>, plan: string): (r: seq<string>)
    ensures forall x :: x in r <==> x in selection && x != plan
    ensures |r| <= |selection|
    ensures plan in selection ==> |r| < |selection|
    decreases |selection|
  {
    if selection == [] then []
    else
      var rest := Without(selection[1..], plan);
      assert forall x :: x in selection <==> x == selection[0] || x in selection[1..];
      if selection[0] == plan then rest else [selection[0]] + rest
  }

  /** The selection after a click on `plan`. */
  function Toggle(current: seq<string>, plan: string): seq<string> {
    if plan in current then
      var newSelection := Without(current, plan);
      if |newSelection| == 2 then newSelection
      else if |newSelection| == 1 then [newSelection[0]]
      else []
    else if |current| == 0 then [plan]
    else if |current| == 1 then current + [plan]
    else [plan, current[1]]
  }

  /** A selection the picker can hold: at most two plans, none twice. */
  predicate Selection(s: seq<string>) {
    |s| <= 2 && Distinct(s)
  }

  /** Removing a plan keeps the other plans in their order: it works piece by piece, so the
      remainder of a concatenation is the concatenation of the remainders. */
  lemma {:induction false} WithoutAppend(a: seq<string>, b: seq<string>, plan: string)
    ensures Without(a + b, plan) == Without(a, plan) + Without(b, plan)
    decreases |a|
  {
    if a == [] {
      assert a + b == b;
    } else {
      assert (a + b)[0] == a[0];
      assert (a + b)[1..] == a[1..] + b;
      WithoutAppend(a[1..], b, plan);
    }
  }

  /** Removing a plan from a list with no plan twice leaves a list with no plan twice. */
  lemma {:induction false} WithoutDistinct(selection: seq<string>, plan: string)
    requires Distinct(selection)
    ensures Distinct(Without(selection, plan))
    decreases |selection|
  {
    if selection != [] {
      var rest := selection[1..];
      assert Distinct(rest) by {
        forall i, j | 0 <= i < j < |rest| ensures rest[i] != rest[j] {
          assert rest[i] == selection[i + 1] && rest[j] == selection[j + 1];
        }
      }
      WithoutDistinct(rest, plan);
      var w := Without(rest, plan);
      if selection[0] != plan {
        assert selection[0] !in rest by {
          forall i | 0 <= i < |rest| ensures rest[i] != selection[0] {
            assert rest[i] == selection[i + 1];
          }
        }
        assert selection[0] !in w;
        var r := [selection[0]] + w;
        forall i, j | 0 <= i < j < |r| ensures r[i] != r[j] {
          if i == 0 {
            assert r[j] == w[j - 1] && r[j] in w;
          } else {
            assert r[i] == w[i - 1] && r[j] == w[j - 1];
          }
        }
      }
    }
  }

  /** Clicking a selected plan of a two-plan selection leaves the other plan; clicking the only
      selected plan leaves none. */
  lemma DeselectOne(a: string, b: string)
    requires a != b
    ensures Toggle([a, b], a) == [b]
    ensures Toggle([a, b], b) == [a]
    ensures Toggle([a], a) == []
  {
    assert Without([a, b], a) == [b] by { assert [a, b][1..] == [b]; }
    assert Without([a, b], b) == [a] by { assert [a, b][1..] == [b]; }
  }

  /** Deselecting both plans in turn, in either order, empties the selection. */
  lemma DeselectBoth(a: string, b: string)
    requires a != b
    ensures Toggle(Toggle([a, b], a), b) == []
    ensures Toggle(Toggle([a, b], b), a) == []
  {
    DeselectOne(a, b);
    DeselectOne(b, a);
  }

  /** Clicking an unselected plan: from none it becomes the only plan, with one selected it is
      appended, and with two selected it replaces the first. */
  lemma SelectNew(current: seq<string>, plan: string)
    requires plan !in current
    ensures |current| == 0 ==> Toggle(current, plan) == [plan]
    ensures |current| == 1 ==> Toggle(current, plan) == [current[0], plan]
    ensures |current| == 2 ==> Toggle(current, plan) == [plan, current[1]]
  {
  }

  /** The rule keeps a selection a selection, and the clicked plan ends up selected exactly when
      it was not; no other plan is added, and the only other plan ever dropped is the first of
      two when a third is clicked. */
  lemma {:induction false} ToggleKeepsSelection(current: seq<string>, plan: string)
    requires Selection(current)
    ensures Selection(Toggle(current, plan))
    ensures plan in Toggle(current, plan) <==> plan !in current
    ensures forall q :: q != plan && q in Toggle(current, plan) ==> q in current
    ensures forall q :: q != plan && q in current && !(plan !in current && |current| == 2 && q == current[0])
              ==> q in Toggle(current, plan)
  {
    var r := Toggle(current, plan);
    if plan in current {
      var n := Without(current, plan);
      WithoutDistinct(current, plan);
      if |n| == 1 {
        assert r == n;
      }
    }
  }

  /** With at most two plans selected, removing one leaves at most one, so the branch that keeps
      a two-plan remainder is only reached from three or more plans. */
  lemma RemainderBranchUnreachable(current: seq<string>, plan: string)
    requires |current| <= 2 && plan in current
    ensures |Without(current, plan)| < 2
  {
  }

  /** The two-plan remainder branch is taken from three plans: the selection that results is the
      remainder itself. */
  lemma RemainderBranchFromThree(a: string, b: string, c: string)
    requires a != b && a != c && b != c
    ensures Toggle([a, b, c], a) == [b, c]
  {
    assert Without([c], a) == [c] by { assert [c][1..] == []; }
    assert Without([b, c], a) == [b, c] by { assert [b, c][1..] == [c]; }
    assert Without([a, b, c], a) == [b, c] by { assert [a, b, c][1..] == [b, c]; }
  }

  /** Toggling an unselected plan on and then off restores a selection of at most one plan; from
      two plans the first one is lost on the way. */
  lemma OnThenOff(current: seq<string>, plan: string)
    requires plan !in current && |current| <= 2
    ensures |current| <= 1 ==> Toggle(Toggle(current, plan), plan) == current
    ensures |current| == 2 ==> Toggle(Toggle(current, plan), plan) == [current[1]]
  {
    var on := Toggle(current, plan);
    if |current| == 1 {
      assert on == [current[0], plan];
      assert on[1..] == [plan];
      assert Without(on, plan) == [current[0]];
    } else if |current| == 2 {
      assert on == [plan, current[1]];
      assert on[1..] == [current[1]];
      assert Without(on, plan) == [current[1]];
    }
  }
}
