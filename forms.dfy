/** The inline formset that the admin site uses to edit the ingredients of a recipe. */
module Forms {
  import opened Types

  /** One ingredient form after cleaning: the chosen ingredient, or nothing for a blank form. */
  datatype Form = Form(ingredient: Option<IngredientId>)

  /** The blank form: no ingredient was chosen. */
  const Blank: Form := Form(None)

  /** The list comprehension of `IngredientRecipeFormSet.clean`: the ingredient of every form that has one, in form order. */
  function SelectedIngredients(forms: seq<Form>): (r: seq<IngredientId>)
    ensures |r| <= |forms|
    ensures forall x :: x in r <==> exists i :: 0 <= i < |forms| && forms[i].ingredient == Some(x)
  {
    if forms == [] then []
    else
      var rest := SelectedIngredients(forms[1..]);
      assert forall i :: 1 <= i < |forms| ==> forms[i] == forms[1..][i - 1];
      match forms[0].ingredient
      case Some(x) => [x] + rest
      case None => rest
  }

  /** The errors `clean` can raise. */
  datatype FormSetError = NoIngredient

  /** `IngredientRecipeFormSet.clean`: fails when no form names an ingredient. */
  function CleanFormSet(forms: seq<Form>): (r: Result<(), FormSetError>)
    ensures r.Ok? <==> exists i :: 0 <= i < |forms| && forms[i].ingredient.Some?
  {
    var ingredients := SelectedIngredients(forms);
    if ingredients == [] then
      Err(NoIngredient)
    else
      assert ingredients[0] in ingredients;
      Ok(())
  }

  /** The comprehension distributes over a split of the forms. */
  lemma {:induction false} SelectedIngredientsAppend(a: seq<Form>, b: seq<Form>)
    ensures SelectedIngredients(a + b) == SelectedIngredients(a) + SelectedIngredients(b)
  {
    if a == [] {
      assert a + b == b;
    } else {
      assert (a + b)[1..] == a[1..] + b;
      SelectedIngredientsAppend(a[1..], b);
    }
  }

  /** Inserting a blank form anywhere changes neither the collected ingredients nor the outcome. */
  lemma BlankFormIrrelevant(a: seq<Form>, b: seq<Form>)
    ensures SelectedIngredients(a + [Blank] + b) == SelectedIngredients(a + b)
    ensures CleanFormSet(a + [Blank] + b) == CleanFormSet(a + b)
  {
    SelectedIngredientsAppend(a, [Blank] + b);
    SelectedIngredientsAppend([Blank], b);
    SelectedIngredientsAppend(a, b);
    assert a + [Blank] + b == a + ([Blank] + b);
  }

  /** A formset made only of blank forms, the empty one included, is refused. */
  lemma AllBlankRejected(forms: seq<Form>)
    requires forall i :: 0 <= i < |forms| ==> forms[i] == Blank
    ensures CleanFormSet(forms) == Err(NoIngredient)
  {
  }
}
