/**
 * The meals page's submit handler: after the API saved a meal, the saved
 * meal goes to the top of the list and any older copy of it (same id) is
 * dropped; the form is then emptied and hidden.
 */
module MealsPage {
  import opened Views
  import opened Sequences

  datatype FormData = FormData(userId: string, date: string, lunch: int, dinner: int)

  const EmptyForm := FormData("", "", 0, 0)

  /** How the POST of the form ended: a saved meal, a non-ok status, or a thrown error. */
  datatype SaveOutcome = Saved(meal: MealView) | NotOk | Threw

  /** `meals.filter(m => m.id !== id)`. */
  function WithoutId(meals: seq<MealView>, id: nat): (r: seq<MealView>)
    ensures forall m :: m in r <==> m in meals && m.id != id
  {
    if |meals| == 0 then []
    else
      var rest := WithoutId(meals[..|meals| - 1], id);
      if meals[|meals| - 1].id != id then rest + [meals[|meals| - 1]] else rest
  }

  /** `[newMeal, ...meals.filter(m => m.id !== newMeal.id)]`. */
  function Refreshed(meals: seq<MealView>, newMeal: MealView): (r: seq<MealView>)
    ensures |r| > 0 && r[0] == newMeal
    ensures forall i :: 1 <= i < |r| ==> r[i].id != newMeal.id
  {
    var rest := WithoutId(meals, newMeal.id);
    assert forall i :: 0 <= i < |rest| ==> rest[i] in rest;
    [newMeal] + rest
  }

  function CountId(meals: seq<MealView>, id: nat): nat
  {
    if |meals| == 0 then 0
    else CountId(meals[..|meals| - 1], id) + if meals[|meals| - 1].id == id then 1 else 0
  }

  /** The other meals stay, in their original order, and only the copies with the saved id go. */
  lemma {:induction false} WithoutIdKeepsOrder(meals: seq<MealView>, id: nat)
    ensures IsSubsequence(WithoutId(meals, id), meals)
    ensures |WithoutId(meals, id)| == |meals| - CountId(meals, id)
  {
    if |meals| > 0 {
      var init := meals[..|meals| - 1];
      WithoutIdKeepsOrder(init, id);
      var rest := WithoutId(init, id);
      if meals[|meals| - 1].id != id {
        var r := rest + [meals[|meals| - 1]];
        assert r[..|r| - 1] == rest;
      } else {
        SubsequenceOfLonger(rest, init, meals[|meals| - 1]);
      }
    }
  }

  /** The refreshed list: the saved meal first, then the old list minus that id, in order. */
  lemma RefreshedShape(meals: seq<MealView>, newMeal: MealView)
    ensures var r := Refreshed(meals, newMeal);
      && IsSubsequence(r[1..], meals)
      && |r| == |meals| - CountId(meals, newMeal.id) + 1
      && forall m :: m in meals && m.id != newMeal.id ==> m in r
  {
    WithoutIdKeepsOrder(meals, newMeal.id);
    var r := Refreshed(meals, newMeal);
    assert r[1..] == WithoutId(meals, newMeal.id);
  }

  /** The page state touched by a submit. */
  class MealsScreen {
    var meals: seq<MealView>
    var showForm: bool
    var formData: FormData

    constructor ()
      ensures meals == [] && !showForm && formData == EmptyForm
    {
      meals, showForm, formData := [], false, EmptyForm;
    }

    /** `handleSubmit`, after the POST of the current form data has ended with `outcome`. */
    method HandleSubmit(outcome: SaveOutcome)
      modifies this
      ensures outcome.Saved? ==>
        meals == Refreshed(old(meals), outcome.meal) && !showForm && formData == EmptyForm
      ensures !outcome.Saved? ==>
        meals == old(meals) && showForm == old(showForm) && formData == old(formData)
    {
      if outcome.Saved? {
        var newMeal := outcome.meal;
        meals := [newMeal] + WithoutId(meals, newMeal.id);
        showForm := false;
        formData := FormData("", "", 0, 0);
      }
    }
  }
}
