/**
 * Training plans: validation of a user-made plan (app.js:749-768) and the
 * totals shown on a plan card (app.js:469-511).
 */
module Plans {
  import opened Base
  import opened Text
  import opened Catalog
  import opened Rounding

  datatype PlanExercise = PlanExercise(id: string, duration: int)

  datatype CustomPlan = CustomPlan(id: string, name: string, exercises: seq<PlanExercise>)

  /** A recommended plan carries its own totals. Its phases are not modelled. */
  datatype RecommendedPlan = RecommendedPlan(name: string, totalDuration: int, staminaCost: int)

  /**
   * A ticked exercise of the plan form: its id and `parseInt` of its duration
   * field (absent when the field does not parse).
   */
  datatype Selection = Selection(id: string, parsedDuration: Option<int>)

  datatype PlanError = MissingPlanName | NoExercises

  /** `parseInt(...)` is used unless it is NaN or 0, which are falsy. */
  predicate UsesTypedDuration(sel: Selection) {
    sel.parsedDuration.Some? && sel.parsedDuration.value != 0
  }

  /** The catalog default is looked up only for a falsy typed duration, and must exist. */
  predicate DefaultsAvailable(selections: seq<Selection>, items: seq<TrainingItem>) {
    forall i :: 0 <= i < |selections| && !UsesTypedDuration(selections[i]) ==>
      FindItem(items, selections[i].id).Some?
  }

  /** `parseInt(durationInput.value, 10) || item.duration` */
  function ChosenDuration(sel: Selection, items: seq<TrainingItem>): int
    requires UsesTypedDuration(sel) || FindItem(items, sel.id).Some?
  {
    if UsesTypedDuration(sel) then sel.parsedDuration.value else FindItem(items, sel.id).value.duration
  }

  function ChosenExercises(selections: seq<Selection>, items: seq<TrainingItem>): (r: seq<PlanExercise>)
    requires DefaultsAvailable(selections, items)
    ensures |r| == |selections|
    ensures forall i :: 0 <= i < |r| ==>
              r[i].id == selections[i].id && r[i].duration == ChosenDuration(selections[i], items)
  {
    if selections == [] then []
    else
      var tail := selections[1..];
      assert DefaultsAvailable(tail, items) by {
        forall i | 0 <= i < |tail| && !UsesTypedDuration(tail[i])
          ensures FindItem(items, tail[i].id).Some?
        {
          assert tail[i] == selections[i + 1];
        }
      }
      var rest := ChosenExercises(tail, items);
      var r := [PlanExercise(selections[0].id, ChosenDuration(selections[0], items))] + rest;
      assert forall i :: 1 <= i < |r| ==> r[i] == rest[i - 1] && selections[i] == tail[i - 1];
      r
  }

  /**
   * `handleSaveCustomPlan` up to the push: the trimmed name must be non-empty,
   * then at least one exercise must be ticked; the new plan's id is
   * `plan_<now>`.
   */
  function ValidateCustomPlan(rawName: string, selections: seq<Selection>, items: seq<TrainingItem>,
                              now: int): (r: Result<CustomPlan, PlanError>)
    requires DefaultsAvailable(selections, items)
    ensures r == Err(MissingPlanName) <==> Trim(rawName) == ""
    ensures r == Err(NoExercises) <==> Trim(rawName) != "" && selections == []
    ensures r.Ok? ==>
              r.value.name == Trim(rawName) && r.value.name != ""
              && r.value.id == "plan_" + DecimalString(now)
              && |r.value.exercises| == |selections| > 0
              && forall i :: 0 <= i < |selections| ==>
                   r.value.exercises[i].id == selections[i].id
                   && (UsesTypedDuration(selections[i]) ==>
                         r.value.exercises[i].duration == selections[i].parsedDuration.value)
                   && (!UsesTypedDuration(selections[i]) ==>
                         r.value.exercises[i].duration == FindItem(items, selections[i].id).value.duration)
  {
    var name := Trim(rawName);
    if name == "" then Err(MissingPlanName)
    else if selections == [] then Err(NoExercises)
    else Ok(CustomPlan("plan_" + DecimalString(now), name, ChosenExercises(selections, items)))
  }

  /** Duration and stamina totals of a plan card. */
  datatype Totals = Totals(duration: int, staminaCost: int)

  /**
   * The custom-plan totals: the durations and stamina costs of the exercises
   * found in the catalog; an exercise the catalog no longer has is skipped.
   */
  function CustomTotals(exercises: seq<PlanExercise>, items: seq<TrainingItem>): Totals
  {
    if exercises == [] then Totals(0, 0)
    else
      var rest := CustomTotals(exercises[1..], items);
      match FindItem(items, exercises[0].id)
      case Some(item) => Totals(exercises[0].duration + rest.duration, item.staminaCost + rest.staminaCost)
      case None => rest
  }

  /** Totals add up over the concatenation of two exercise lists. */
  lemma {:induction false} CustomTotalsAppend(a: seq<PlanExercise>, b: seq<PlanExercise>,
                                              items: seq<TrainingItem>)
    ensures CustomTotals(a + b, items).duration == CustomTotals(a, items).duration + CustomTotals(b, items).duration
    ensures CustomTotals(a + b, items).staminaCost
            == CustomTotals(a, items).staminaCost + CustomTotals(b, items).staminaCost
  {
    if a == [] {
      assert a + b == b;
    } else {
      assert (a + b)[0] == a[0] && (a + b)[1..] == a[1..] + b;
      CustomTotalsAppend(a[1..], b, items);
    }
  }

  /** An exercise the catalog lacks contributes nothing to the totals. */
  lemma CustomTotalsSkipsUnknown(a: seq<PlanExercise>, x: PlanExercise, b: seq<PlanExercise>,
                                 items: seq<TrainingItem>)
    requires FindItem(items, x.id).None?
    ensures CustomTotals(a + [x] + b, items) == CustomTotals(a + b, items)
  {
    CustomTotalsAppend(a + [x], b, items);
    CustomTotalsAppend(a, [x], items);
    CustomTotalsAppend(a, b, items);
  }

  /** A recommended plan's card shows the plan's own totals. */
  function RecommendedTotals(plan: RecommendedPlan): Totals
  {
    Totals(plan.totalDuration, plan.staminaCost)
  }

  /** What a plan card shows: minutes `Math.round(total / 60)` and whether Start is enabled. */
  datatype Card = Card(minutes: int, staminaCost: int, startEnabled: bool)

  function PlanCard(t: Totals, stamina: int): (c: Card)
    ensures c.startEnabled <==> stamina >= t.staminaCost
    ensures (2 * c.minutes - 1) * 60 <= 2 * t.duration < (2 * c.minutes + 1) * 60
  {
    RoundIsNearest(t.duration, 60);
    Card(Round(t.duration, 60), t.staminaCost, stamina >= t.staminaCost)
  }
}
