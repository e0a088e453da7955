/** The meal plans a guest saves in the session (`guest_meal_plans`), the
    name lookup that attaches cooking instructions to one of them
    (cooking_planner.py:505-509), and the search and date filter of the
    plan list (cooking_planner.py:723-734). */
module GuestPlans {
  import opened Base
  import opened Text

  /** One saved guest plan: the dictionary built at save time
      (cooking_planner.py:665-671) and the two keys added once instructions
      exist (cooking_planner.py:507-508). `createdAt` is a UTC timestamp in
      whole seconds. */
  datatype GuestPlan = GuestPlan(
    name: string,
    days: nat,
    existingIngredients: string,
    cookingPlan: string,
    createdAt: int,
    cookingInstructions: Option<string>,
    totalTime: Option<string>)

  /** The record a save appends: the five keys, no instructions yet. */
  function NewPlan(name: string, days: nat, existingIngredients: string,
                   cookingPlan: string, createdAt: int): (p: GuestPlan)
    ensures p.cookingInstructions.None? && p.totalTime.None?
  {
    GuestPlan(name, days, existingIngredients, cookingPlan, createdAt, None, None)
  }

  /** The position of the first plan called `name`, if any. */
  function FirstNamed(plans: seq<GuestPlan>, name: string): (r: Option<nat>)
    ensures r.Some? ==> r.value < |plans| && plans[r.value].name == name
    ensures r.Some? ==> forall j :: 0 <= j < r.value ==> plans[j].name != name
    ensures r.None? ==> forall j :: 0 <= j < |plans| ==> plans[j].name != name
    decreases |plans|
  {
    if plans == [] then None
    else if plans[0].name == name then Some(0)
    else
      match FirstNamed(plans[1..], name)
      case None => None
      case Some(k) => Some(k + 1)
  }

  /** A plan with its cooking instructions and total time attached. */
  function WithInstructions(p: GuestPlan, instructions: string, totalTime: string): GuestPlan
  {
    p.(cookingInstructions := Some(instructions), totalTime := Some(totalTime))
  }

  /** The list once instructions are attached to the first plan called `name`. */
  function AttachInstructions(plans: seq<GuestPlan>, name: string, instructions: string,
                              totalTime: string): seq<GuestPlan>
  {
    match FirstNamed(plans, name)
    case None => plans
    case Some(i) => plans[i := WithInstructions(plans[i], instructions, totalTime)]
  }

  /** Attaching changes exactly one record, the first one whose name matches,
      and only its instructions and total time; with no match the list is
      unchanged. The length never changes. */
  lemma AttachFirstMatchOnly(plans: seq<GuestPlan>, name: string, instructions: string,
                             totalTime: string)
    ensures var r := AttachInstructions(plans, name, instructions, totalTime);
      && |r| == |plans|
      && ((forall j :: 0 <= j < |plans| ==> plans[j].name != name) ==> r == plans)
      && forall i :: 0 <= i < |plans| ==>
           if plans[i].name == name && forall j :: 0 <= j < i ==> plans[j].name != name
           then r[i] == plans[i].(cookingInstructions := Some(instructions),
                                  totalTime := Some(totalTime))
           else r[i] == plans[i]
  {
    match FirstNamed(plans, name)
    case None =>
    case Some(k) =>
      forall i | 0 <= i < |plans|
        ensures var r := AttachInstructions(plans, name, instructions, totalTime);
          if plans[i].name == name && forall j :: 0 <= j < i ==> plans[j].name != name
          then r[i] == WithInstructions(plans[i], instructions, totalTime)
          else r[i] == plans[i]
      {
        if i < k {
        } else if i > k {
          assert plans[k].name == name;
        }
      }
  }

  /** When two saved plans share a name, instructions generated for the later
      one land on the earlier one: the plan just appended by a save is left
      without instructions. */
  lemma AttachToEarlierDuplicate(plans: seq<GuestPlan>, saved: GuestPlan, instructions: string,
                                 totalTime: string, i: nat)
    requires i < |plans| && plans[i].name == saved.name
    ensures var r := AttachInstructions(plans + [saved], saved.name, instructions, totalTime);
      |r| == |plans| + 1 && r[|plans|] == saved
  {
    var all := plans + [saved];
    assert all[i].name == saved.name;
    AttachFirstMatchOnly(all, saved.name, instructions, totalTime);
  }

  /** The calendar day (days since the epoch) of a UTC timestamp, as
      `datetime.date()` gives it; floor division, also before the epoch. */
  function Day(createdAt: int): int
  {
    createdAt / 86400
  }

  /** The test one plan must pass to be listed: the lowercased search term
      occurs in the lowercased name, and the creation day lies strictly
      after the start date and strictly before the end date; an empty
      search or an absent date does not filter. */
  predicate Kept(p: GuestPlan, search: string, start: Option<int>, end: Option<int>)
  {
    && (search == [] || Contains(Lower(p.name), Lower(search)))
    && (start.None? || Day(p.createdAt) > start.value)
    && (end.None? || Day(p.createdAt) < end.value)
  }

  /** The plans that pass the test, in their original order. */
  function Filtered(plans: seq<GuestPlan>, search: string, start: Option<int>,
                    end: Option<int>): seq<GuestPlan>
    decreases |plans|
  {
    if plans == [] then []
    else
      var last := plans[|plans| - 1];
      Filtered(plans[..|plans| - 1], search, start, end)
        + (if Kept(last, search, start, end) then [last] else [])
  }

  /** The positions of the plans that pass the test, in increasing order. */
  function KeptPositions(plans: seq<GuestPlan>, search: string, start: Option<int>,
                         end: Option<int>): seq<nat>
    decreases |plans|
  {
    if plans == [] then []
    else
      var n := |plans| - 1;
      KeptPositions(plans[..n], search, start, end)
        + (if Kept(plans[n], search, start, end) then [n] else [])
  }

  /** Positions below `bound`, in strictly increasing order. */
  predicate IncreasingBelow(pos: seq<nat>, bound: int)
  {
    && (forall k :: 0 <= k < |pos| ==> pos[k] < bound)
    && (forall k, l :: 0 <= k < l < |pos| ==> pos[k] < pos[l])
  }

  /** Every kept position is a position of the input, and the positions
      increase. */
  lemma {:induction false} KeptPositionsIncrease(plans: seq<GuestPlan>, search: string,
                                                 start: Option<int>, end: Option<int>)
    ensures IncreasingBelow(KeptPositions(plans, search, start, end), |plans|)
    decreases |plans|
  {
    if plans != [] {
      var n := |plans| - 1;
      var init := plans[..n];
      KeptPositionsIncrease(init, search, start, end);
      var pos0 := KeptPositions(init, search, start, end);
      var pos := KeptPositions(plans, search, start, end);
      assert pos == pos0 + (if Kept(plans[n], search, start, end) then [n] else []);
      assert IncreasingBelow(pos0, n);
    }
  }

  /** A position is kept exactly when its plan passes the test. */
  lemma {:induction false} KeptPositionsExact(plans: seq<GuestPlan>, search: string,
                                              start: Option<int>, end: Option<int>)
    ensures forall i :: 0 <= i < |plans| ==>
      (Kept(plans[i], search, start, end) <==> i in KeptPositions(plans, search, start, end))
    decreases |plans|
  {
    if plans != [] {
      var n := |plans| - 1;
      var init := plans[..n];
      KeptPositionsIncrease(init, search, start, end);
      KeptPositionsExact(init, search, start, end);
      var pos0 := KeptPositions(init, search, start, end);
      var pos := KeptPositions(plans, search, start, end);
      assert pos == pos0 + (if Kept(plans[n], search, start, end) then [n] else []);
      forall i | 0 <= i < n
        ensures Kept(plans[i], search, start, end) <==> i in pos
      {
        assert plans[i] == init[i];
        assert i in pos <==> i in pos0;
      }
      assert IncreasingBelow(pos0, n);
      assert n !in pos0;
      assert Kept(plans[n], search, start, end) <==> n in pos;
    }
  }

  /** The k-th filtered plan is the input plan at the k-th kept position. */
  lemma {:induction false} FilteredAtKeptPositions(plans: seq<GuestPlan>, search: string,
                                                   start: Option<int>, end: Option<int>)
    ensures var r, pos := Filtered(plans, search, start, end),
                          KeptPositions(plans, search, start, end);
      |pos| == |r| && forall k :: 0 <= k < |pos| ==> pos[k] < |plans| && r[k] == plans[pos[k]]
    decreases |plans|
  {
    if plans != [] {
      var n := |plans| - 1;
      var init := plans[..n];
      FilteredAtKeptPositions(init, search, start, end);
      var keep := Kept(plans[n], search, start, end);
      var pos0, r0 := KeptPositions(init, search, start, end), Filtered(init, search, start, end);
      var pos, r := KeptPositions(plans, search, start, end), Filtered(plans, search, start, end);
      assert pos == pos0 + (if keep then [n] else []);
      assert r == r0 + (if keep then [plans[n]] else []);
      forall k | 0 <= k < |pos0| ensures pos[k] < |plans| && r[k] == plans[pos[k]] {
        assert pos[k] == pos0[k] && r[k] == r0[k] && plans[pos0[k]] == init[pos0[k]];
      }
    }
  }

  /** The filtered list is an order-preserving selection of the input: its
      k-th plan is the input plan at the k-th kept position, the positions
      increase, and a position is kept exactly when its plan passes the test. */
  lemma FilteredIsOrderedSelection(plans: seq<GuestPlan>, search: string,
                                   start: Option<int>, end: Option<int>)
    ensures var r, pos := Filtered(plans, search, start, end),
                          KeptPositions(plans, search, start, end);
      && |pos| == |r|
      && (forall k :: 0 <= k < |pos| ==> pos[k] < |plans| && r[k] == plans[pos[k]])
      && IncreasingBelow(pos, |plans|)
      && (forall i :: 0 <= i < |plans| ==> (Kept(plans[i], search, start, end) <==> i in pos))
  {
    FilteredAtKeptPositions(plans, search, start, end);
    KeptPositionsIncrease(plans, search, start, end);
    KeptPositionsExact(plans, search, start, end);
  }

  /** A plan is in the filtered list exactly when it is in the input and
      passes the test. */
  lemma FilteredMembership(plans: seq<GuestPlan>, search: string, start: Option<int>,
                           end: Option<int>, p: GuestPlan)
    ensures p in Filtered(plans, search, start, end) <==> p in plans && Kept(p, search, start, end)
  {
    FilteredIsOrderedSelection(plans, search, start, end);
    var r, pos := Filtered(plans, search, start, end), KeptPositions(plans, search, start, end);
    if p in plans && Kept(p, search, start, end) {
      var i :| 0 <= i < |plans| && plans[i] == p;
      var k :| 0 <= k < |pos| && pos[k] == i;
      assert r[k] == p;
    }
    if p in r {
      var k :| 0 <= k < |r| && r[k] == p;
      assert pos[k] in pos;
    }
  }

  /** `str.lower()` applied twice is applied once. */
  lemma LowerIdempotent(s: string)
    ensures Lower(Lower(s)) == Lower(s)
  {
  }

  /** The name search ignores case on both sides: a term and its lowercase
      form keep the same plans, and so do a name and its lowercase form. */
  lemma SearchIgnoresCase(p: GuestPlan, search: string, start: Option<int>, end: Option<int>)
    ensures Kept(p, search, start, end) <==> Kept(p, Lower(search), start, end)
    ensures Kept(p, search, start, end) <==> Kept(p.(name := Lower(p.name)), search, start, end)
  {
    LowerIdempotent(search);
    LowerIdempotent(p.name);
  }

  /** The date bounds are exclusive: a plan created on the start date or on
      the end date itself is not listed. */
  lemma BoundaryDaysExcluded(p: GuestPlan, search: string, start: Option<int>, end: Option<int>)
    requires (start.Some? && Day(p.createdAt) == start.value)
          || (end.Some? && Day(p.createdAt) == end.value)
    ensures !Kept(p, search, start, end)
  {
  }

  /** The filter loop (cooking_planner.py:723-734): each plan is skipped by
      the first test it fails and otherwise appended. */
  method FilterPlans(plans: seq<GuestPlan>, search: string, start: Option<int>,
                     end: Option<int>) returns (filtered: seq<GuestPlan>)
    ensures filtered == Filtered(plans, search, start, end)
  {
    filtered := [];
    for i := 0 to |plans|
      invariant filtered == Filtered(plans[..i], search, start, end)
    {
      assert plans[..i + 1][..i] == plans[..i];
      var plan := plans[i];
      assert Filtered(plans[..i + 1], search, start, end)
        == filtered + (if Kept(plan, search, start, end) then [plan] else []);
      var name, created := plan.name, Day(plan.createdAt);
      if search != [] && !Contains(Lower(name), Lower(search)) {
        continue;
      }
      if start.Some? && created <= start.value {
        continue;
      }
      if end.Some? && created >= end.value {
        continue;
      }
      filtered := filtered + [plan];
    }
    assert plans[..|plans|] == plans;
  }
}
