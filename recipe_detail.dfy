/** The recipe detail screen: the one fetch that decides between a recipe and
    "not found", and the scan of the recipe's twenty numbered ingredient and
    measure fields. */
module RecipeDetail {
  import opened Wrappers
  import opened JsString

  /** The highest ingredient position a recipe record carries. */
  const MaxPosition: nat := 20

  /** A recipe record as the recipe service returns it, reduced to the
      numbered fields: `strIngredient[n]` and `strMeasure[n]` stand for the
      fields `strIngredientN` and `strMeasureN`. A missing key is an absent
      field and `None` a null one. */
  datatype Meal = Meal(strIngredient: map<nat, Option<string>>, strMeasure: map<nat, Option<string>>)

  /** One row of the ingredient grid. */
  datatype Ingredient = Ingredient(name: string, measure: Option<string>)

  /** The value of a numbered field; absent and null both read as `None`. */
  function Field(fields: map<nat, Option<string>>, n: nat): Option<string>
  {
    if n in fields then fields[n] else None
  }

  /** Position `n` contributes a row: its ingredient is a string that is not
      empty once trimmed; an absent or null field never contributes. */
  predicate Kept(meal: Meal, n: nat)
    ensures Kept(meal, n) ==> n in meal.strIngredient && meal.strIngredient[n].Some?
  {
    Field(meal.strIngredient, n).Some? && Trim(Field(meal.strIngredient, n).value) != ""
  }

  /** The row position `n` contributes: its ingredient and the measure from
      the same position. */
  function EntryAt(meal: Meal, n: nat): (e: Ingredient)
    requires Kept(meal, n)
    ensures Some(e.name) == Field(meal.strIngredient, n) && !IsBlank(e.name)
  {
    Ingredient(Field(meal.strIngredient, n).value, Field(meal.strMeasure, n))
  }

  /** The positions among 1..n that contribute a row, in increasing order. */
  function KeptPositions(meal: Meal, n: nat): (ps: seq<nat>)
    ensures |ps| <= n
    ensures forall k | 0 <= k < |ps| :: 1 <= ps[k] <= n && Kept(meal, ps[k])
    ensures forall j, k | 0 <= j < k < |ps| :: ps[j] < ps[k]
    ensures forall p | 1 <= p <= n && Kept(meal, p) :: p in ps
  {
    if n == 0 then [] else KeptPositions(meal, n - 1) + (if Kept(meal, n) then [n] else [])
  }

  /** The rows for the positions `ps`, in the order of `ps`. */
  function EntriesAt(meal: Meal, ps: seq<nat>): seq<Ingredient>
    requires forall k | 0 <= k < |ps| :: Kept(meal, ps[k])
  {
    seq(|ps|, k requires 0 <= k < |ps| => EntryAt(meal, ps[k]))
  }

  /** The ingredient grid of a recipe: one row per contributing position among
      1..20, in positional order. It has at most twenty rows, each with a name
      that is present and not blank once trimmed; row k is the ingredient of
      the k-th contributing position with the measure of that same position. */
  function Ingredients(meal: Meal): (r: seq<Ingredient>)
    ensures |r| == |KeptPositions(meal, MaxPosition)| <= MaxPosition
    ensures forall k | 0 <= k < |r| ::
              Trim(r[k].name) != "" &&
              r[k] == Ingredient(Field(meal.strIngredient, KeptPositions(meal, MaxPosition)[k]).value,
                                 Field(meal.strMeasure, KeptPositions(meal, MaxPosition)[k]))
  {
    EntriesAt(meal, KeptPositions(meal, MaxPosition))
  }

  /** Position n in 1..20 yields a row exactly when its ingredient field is
      present and not blank. */
  lemma IngredientAtPositionIff(meal: Meal, n: nat)
    requires 1 <= n <= MaxPosition
    ensures n in KeptPositions(meal, MaxPosition) <==>
              Field(meal.strIngredient, n).Some? && !IsBlank(Field(meal.strIngredient, n).value)
  {
  }

  /** A record whose ingredient fields are all absent, null or blank yields no
      rows. */
  lemma NoIngredientsWhenAllBlank(meal: Meal)
    requires forall n | 1 <= n <= MaxPosition ::
               Field(meal.strIngredient, n).None? || IsBlank(Field(meal.strIngredient, n).value)
    ensures Ingredients(meal) == []
  {
    forall n | 1 <= n <= MaxPosition ensures !Kept(meal, n) {
      var field := Field(meal.strIngredient, n);
      if field.Some? {
        assert Trim(field.value) == "";
      }
    }
    NoKeptPositions(meal, MaxPosition);
  }

  lemma {:induction false} NoKeptPositions(meal: Meal, n: nat)
    requires forall p | 1 <= p <= n :: !Kept(meal, p)
    ensures KeptPositions(meal, n) == []
  {
    if n > 0 {
      NoKeptPositions(meal, n - 1);
    }
  }

  /** The screen's loop: positions 1 to 20, appending a row for every
      position whose ingredient is present and not blank. */
  method CollectIngredients(meal: Meal) returns (ingredients: seq<Ingredient>)
    ensures ingredients == Ingredients(meal)
  {
    ingredients := [];
    for i := 1 to MaxPosition + 1
      invariant ingredients == EntriesAt(meal, KeptPositions(meal, i - 1))
    {
      var ingredient := Field(meal.strIngredient, i);
      var measure := Field(meal.strMeasure, i);
      if ingredient.Some? && Trim(ingredient.value) != "" {
        ingredients := ingredients + [Ingredient(ingredient.value, measure)];
      }
      assert KeptPositions(meal, i) == KeptPositions(meal, i - 1) + (if Kept(meal, i) then [i] else []);
    }
  }

  // ---------------------------------------------------------------------------
  // The fetch and the screen state

  /** How the one request for the recipe ended: a response whose `meals`
      member is an array (`Some`) or null/absent (`None`), or a failure
      (network, status or parse). */
  datatype FetchOutcome = Responded(meals: Option<seq<Meal>>) | Failed

  /** The recipe after the request: the first meal when `meals` is an array
      (an empty array has no first meal, which reads as no recipe), none when
      `meals` is null, and the prior value when the request failed. */
  function RecipeAfter(prior: Option<Meal>, outcome: FetchOutcome): (r: Option<Meal>)
    ensures r.Some? <==> (outcome.Responded? && outcome.meals.Some? && |outcome.meals.value| > 0) ||
                         (outcome.Failed? && prior.Some?)
    ensures outcome.Responded? && r.Some? ==> r.value == outcome.meals.value[0]
    ensures outcome.Failed? ==> r == prior
  {
    match outcome
    case Responded(Some(meals)) => if |meals| > 0 then Some(meals[0]) else None
    case Responded(None) => None
    case Failed => prior
  }

  /** What the screen shows. */
  datatype View = Spinner | NotFound | Detail(meal: Meal, ingredients: seq<Ingredient>)

  class RecipeDetailScreen {
    const mealId: string
    var recipe: Option<Meal>
    var loading: bool

    /** The screen as mounted: loading, no recipe yet. */
    constructor (mealId: string)
      ensures this.mealId == mealId && recipe == None && loading
    {
      this.mealId := mealId;
      recipe := None;
      loading := true;
    }

    /** Settles the request: on a response, the recipe becomes the first meal
        or none; on a failure it keeps its value; either way loading ends. */
    method FetchRecipeDetail(outcome: FetchOutcome)
      modifies this
      ensures !loading
      ensures recipe == RecipeAfter(old(recipe), outcome)
    {
      match outcome {
        case Responded(meals) =>
          if meals.Some? && |meals.value| > 0 {
            recipe := Some(meals.value[0]);
          } else {
            recipe := None;
          }
        case Failed =>
      }
      loading := false;
    }

    /** The render: a spinner while loading, "not found" without a recipe,
        otherwise the recipe with its ingredient grid (computed only then). */
    method Render() returns (view: View)
      ensures loading <==> view == Spinner
      ensures view == NotFound <==> !loading && recipe.None?
      ensures view.Detail? ==> recipe == Some(view.meal) && view.ingredients == Ingredients(view.meal)
    {
      if loading {
        return Spinner;
      }
      if recipe.None? {
        return NotFound;
      }
      var ingredients := CollectIngredients(recipe.value);
      view := Detail(recipe.value, ingredients);
    }
  }

  /** One visit to the screen: mount, settle the request, render. The spinner
      is gone afterwards whatever the outcome, a failure and a response without
      a meal both show "not found", and a meal shows its own ingredients. */
  method Visit(mealId: string, outcome: FetchOutcome) returns (view: View)
    ensures view != Spinner
    ensures view == NotFound <==> !(outcome.Responded? && outcome.meals.Some? && |outcome.meals.value| > 0)
    ensures view.Detail? ==> view.meal == outcome.meals.value[0] && view.ingredients == Ingredients(view.meal)
  {
    var screen := new RecipeDetailScreen(mealId);
    screen.FetchRecipeDetail(outcome);
    view := screen.Render();
  }
}
