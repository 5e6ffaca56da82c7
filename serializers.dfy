/**
 * The validating and writing parts of the API serializers: the recipe payload check, the
 * subscription check, the `recipes_limit` slice, and the ingredient rows written by recipe
 * creation and update.
 */
module Serializers {
  import opened Types
  import opened Models

  // ---------------------------------------------------------------------------------------------
  // Recipe payload validation

  /** One entry of the `ingredients` list: the ingredient's id and, when given, its amount. */
  datatype IngredientEntry = IngredientEntry(ingredient: IngredientId, amount: Option<int>)

  /**
   * The validated fields of a recipe payload. A key missing from the request is `None`;
   * `name` and `text` may be missing in a partial update.
   */
  datatype RecipePayload = RecipePayload(
    tags: Option<seq<TagId>>,
    ingredients: Option<seq<IngredientEntry>>,
    cookingTime: Option<int>,
    name: Option<string>,
    text: Option<string>)

  /** The reasons `RecipeCreateSerializer.validate` refuses a payload, in the order it checks them. */
  datatype RecipeError =
    | NoTags
    | NoIngredients
    | CookingTimeTooShort
    | RepeatedTags
    | RepeatedIngredients
    | AmountTooSmall

  /** `item.get("amount", 0)`. */
  function AmountOf(e: IngredientEntry): int {
    e.amount.GetOr(0)
  }

  /** `[item["ingredient"] for item in ingredients]`. */
  function IngredientIds(entries: seq<IngredientEntry>): (r: seq<IngredientId>)
    ensures |r| == |entries|
    ensures forall k :: 0 <= k < |r| ==> r[k] == entries[k].ingredient
  {
    seq(|entries|, k requires 0 <= k < |entries| => entries[k].ingredient)
  }

  /** What an accepted payload looks like, stated without the checks' own set arithmetic. */
  predicate PayloadValid(data: RecipePayload) {
    && data.tags.Some? && |data.tags.value| >= 1 && Distinct(data.tags.value)
    && data.ingredients.Some? && |data.ingredients.value| >= 1
    && Distinct(IngredientIds(data.ingredients.value))
    && data.cookingTime.Some? && data.cookingTime.value >= MinValue
    && forall k :: 0 <= k < |data.ingredients.value| ==>
         data.ingredients.value[k].amount.Some? && data.ingredients.value[k].amount.value >= MinValue
  }

  /** `RecipeCreateSerializer.validate`: the payload unchanged, or the first check it fails. */
  function ValidateRecipe(data: RecipePayload): (r: Result<RecipePayload, RecipeError>)
    ensures r.Ok? <==> PayloadValid(data)
    ensures r.Ok? ==> r.value == data
    ensures r == Err(NoTags) <==> data.tags.None? || data.tags.value == []
  {
    if data.tags.None? || |data.tags.value| < 1 then Err(NoTags)
    else if data.ingredients.None? || |data.ingredients.value| < 1 then Err(NoIngredients)
    else if data.cookingTime.GetOr(0) < 1 then Err(CookingTimeTooShort)
    else
      var tags := data.tags.value;
      ToSetCardinality(tags);
      if |ToSet(tags)| != |tags| then Err(RepeatedTags)
      else
        var ingredients := data.ingredients.value;
        var ingredientNames := IngredientIds(ingredients);
        ToSetCardinality(ingredientNames);
        if |ToSet(ingredientNames)| != |ingredientNames| then Err(RepeatedIngredients)
        else if SomeAmountTooSmall(ingredients) then Err(AmountTooSmall)
        else Ok(data)
  }

  /** `any(item.get("amount", 0) < 1 for item in ingredients)`. */
  predicate SomeAmountTooSmall(entries: seq<IngredientEntry>) {
    exists k :: 0 <= k < |entries| && AmountOf(entries[k]) < MinValue
  }

  /** Each condition the validator checks is, on its own, enough to refuse the payload. */
  lemma ValidateRecipeRejects(data: RecipePayload)
    ensures data.tags.None? || data.tags.value == [] ==> ValidateRecipe(data).Err?
    ensures data.ingredients.None? || data.ingredients.value == [] ==> ValidateRecipe(data).Err?
    ensures data.cookingTime.GetOr(0) < MinValue ==> ValidateRecipe(data).Err?
    ensures data.tags.Some? && !Distinct(data.tags.value) ==> ValidateRecipe(data).Err?
    ensures data.ingredients.Some? && !Distinct(IngredientIds(data.ingredients.value)) ==> ValidateRecipe(data).Err?
    ensures data.ingredients.Some? && SomeAmountTooSmall(data.ingredients.value) ==> ValidateRecipe(data).Err?
  {
  }

  // ---------------------------------------------------------------------------------------------
  // Subscription validation

  /** The reasons `SubscriptionSerializer.validate` refuses a subscription. */
  datatype SubscriptionError = SelfSubscription | AlreadySubscribed

  /** `SubscriptionSerializer.validate` on the data `{user, author}` against the stored pairs. */
  function ValidateSubscription(subscriptions: set<(UserId, UserId)>, user: UserId, author: UserId)
    : (r: Result<(UserId, UserId), SubscriptionError>)
    ensures r == Err(SelfSubscription) <==> user == author
    ensures r == Err(AlreadySubscribed) <==> user != author && (user, author) in subscriptions
    ensures r.Ok? ==> r.value == (user, author)
  {
    if user == author then Err(SelfSubscription)
    else if (user, author) in subscriptions then Err(AlreadySubscribed)
    else Ok((user, author))
  }

  /** Storing an accepted subscription keeps the table free of self-subscriptions and adds one new pair. */
  lemma AcceptedSubscriptionIsNew(subscriptions: set<(UserId, UserId)>, user: UserId, author: UserId)
    requires NoSelfSubscription(subscriptions)
    requires ValidateSubscription(subscriptions, user, author).Ok?
    ensures NoSelfSubscription(subscriptions + {(user, author)})
    ensures |subscriptions + {(user, author)}| == |subscriptions| + 1
  {
  }

  // ---------------------------------------------------------------------------------------------
  // The `recipes_limit` slice of `SubscriptionListSerializer.get_recipes`

  /**
   * `recipes[:int(recipes_limit)] if recipes_limit else recipes`, for an absent or empty
   * parameter (`None`) and for a non-negative limit.
   */
  function GetRecipes(authorRecipes: seq<RecipeId>, recipesLimit: Option<nat>): (r: seq<RecipeId>)
    ensures r <= authorRecipes
    ensures recipesLimit.None? ==> r == authorRecipes
    ensures recipesLimit.Some? ==>
      |r| == if recipesLimit.value < |authorRecipes| then recipesLimit.value else |authorRecipes|
  {
    match recipesLimit
    case None => authorRecipes
    case Some(limit) => if limit < |authorRecipes| then authorRecipes[..limit] else authorRecipes
  }

  // ---------------------------------------------------------------------------------------------
  // The ingredient rows written by `create` and `update`

  /** The rows `get_ingredients` inserts for `recipe`: one per entry, in entry order. */
  function RowsFor(recipe: RecipeId, entries: seq<IngredientEntry>): seq<IngredientRecipe> {
    seq(|entries|, k requires 0 <= k < |entries| =>
      IngredientRecipe(entries[k].ingredient, recipe, AmountOf(entries[k])))
  }

  /** The rows left by `IngredientRecipe.objects.filter(recipe=recipe).delete()`. */
  function RowsWithout(rows: seq<IngredientRecipe>, recipe: RecipeId): (r: seq<IngredientRecipe>)
    ensures forall x :: x in r <==> x in rows && x.recipe != recipe
    ensures |r| <= |rows|
  {
    if rows == [] then []
    else
      assert rows == [rows[0]] + rows[1..];
      (if rows[0].recipe == recipe then [] else [rows[0]]) + RowsWithout(rows[1..], recipe)
  }

  /** The delete keeps every row of another recipe as often as it occurred, and no row of `recipe`. */
  lemma {:induction false} RowsWithoutCounts(rows: seq<IngredientRecipe>, recipe: RecipeId, x: IngredientRecipe)
    ensures multiset(RowsWithout(rows, recipe))[x] == if x.recipe != recipe then multiset(rows)[x] else 0
  {
    if rows != [] {
      RowsWithoutCounts(rows[1..], recipe, x);
      assert rows == [rows[0]] + rows[1..];
    }
  }

  /** Deleting the rows of one recipe keeps the remaining (ingredient, recipe) pairs unique. */
  lemma {:induction false} RowsWithoutUnique(rows: seq<IngredientRecipe>, recipe: RecipeId)
    requires RowsUnique(rows)
    ensures RowsUnique(RowsWithout(rows, recipe))
  {
    if rows != [] {
      var tail := rows[1..];
      assert RowsUnique(tail) by {
        forall i, j | 0 <= i < j < |tail|
          ensures tail[i].ingredient != tail[j].ingredient || tail[i].recipe != tail[j].recipe
        {
          assert tail[i] == rows[i + 1] && tail[j] == rows[j + 1];
        }
      }
      RowsWithoutUnique(tail, recipe);
      var rest := RowsWithout(tail, recipe);
      if rows[0].recipe != recipe {
        var r := [rows[0]] + rest;
        forall j | 1 <= j < |r|
          ensures r[0].ingredient != r[j].ingredient || r[0].recipe != r[j].recipe
        {
          assert r[j] in tail;
          var k :| 0 <= k < |tail| && tail[k] == r[j];
          assert rows[k + 1] == r[j];
        }
      }
    }
  }

  /** With no row for `recipe`, deleting its rows changes nothing. */
  lemma {:induction false} RowsWithoutNothing(rows: seq<IngredientRecipe>, recipe: RecipeId)
    requires forall i :: 0 <= i < |rows| ==> rows[i].recipe != recipe
    ensures RowsWithout(rows, recipe) == rows
  {
    if rows != [] {
      RowsWithoutNothing(rows[1..], recipe);
      assert rows == [rows[0]] + rows[1..];
    }
  }

  /** Every tag and ingredient a payload names is stored (the related-field querysets check this). */
  predicate References(t: Tables, data: RecipePayload)
    requires data.tags.Some? && data.ingredients.Some?
  {
    && (forall k :: 0 <= k < |data.tags.value| ==> data.tags.value[k] in t.tags)
    && (forall k :: 0 <= k < |data.ingredients.value| ==> data.ingredients.value[k].ingredient in t.ingredients)
  }

  /**
   * Replacing the ingredient rows of `id` by those of an accepted payload, and storing a valid
   * record under `id`, keeps every table constraint: amounts stay at least 1 and
   * (ingredient, recipe) pairs stay unique.
   */
  lemma ReplaceIngredientsConsistent(t: Tables, id: RecipeId, recipe: Recipe, data: RecipePayload)
    requires Consistent(t)
    requires id < t.nextRecipeId
    requires recipe.cookingTime >= MinValue && recipe.author in t.users && recipe.tags <= t.tags.Keys
    requires PayloadValid(data) && References(t, data)
    ensures Consistent(t.(recipes := t.recipes[id := recipe],
                          rows := RowsWithout(t.rows, id) + RowsFor(id, data.ingredients.value)))
  {
    var entries := data.ingredients.value;
    var kept := RowsWithout(t.rows, id);
    var added := RowsFor(id, entries);
    var rows := kept + added;
    var t' := t.(recipes := t.recipes[id := recipe], rows := rows);
    RowsWithoutUnique(t.rows, id);
    assert RowsUnique(rows) by {
      forall i, j | 0 <= i < j < |rows|
        ensures rows[i].ingredient != rows[j].ingredient || rows[i].recipe != rows[j].recipe
      {
        if j < |kept| {
          assert rows[i] == kept[i] && rows[j] == kept[j];
        } else if i >= |kept| {
          assert IngredientIds(entries)[i - |kept|] != IngredientIds(entries)[j - |kept|];
        } else {
          assert rows[i] == kept[i] && kept[i] in kept;
        }
      }
    }
    assert RowsValid(t') by {
      forall i | 0 <= i < |rows|
        ensures rows[i].ingredient in t'.ingredients && rows[i].recipe in t'.recipes
        ensures rows[i].amount >= MinValue
      {
        if i < |kept| {
          assert rows[i] == kept[i] && kept[i] in kept;
          var k :| 0 <= k < |t.rows| && t.rows[k] == kept[i];
        } else {
          assert rows[i] == added[i - |kept|];
        }
      }
    }
  }

  /** Taking the next recipe id keeps the tables consistent, and no row refers to it yet. */
  lemma FreshRecipeIdConsistent(t: Tables)
    requires Consistent(t)
    ensures Consistent(t.(nextRecipeId := t.nextRecipeId + 1))
    ensures forall i :: 0 <= i < |t.rows| ==> t.rows[i].recipe != t.nextRecipeId
  {
  }

  /** The recipe record `create` stores for `author`. */
  function NewRecipe(author: UserId, data: RecipePayload): Recipe
    requires data.tags.Some? && data.cookingTime.Some? && data.name.Some? && data.text.Some?
  {
    Recipe(author, data.name.value, data.text.value, data.cookingTime.value, ToSet(data.tags.value))
  }

  /** The recipe record `update` leaves: new tags and cooking time, and the name and text when given. */
  function UpdatedRecipe(old_: Recipe, data: RecipePayload): Recipe
    requires data.tags.Some? && data.cookingTime.Some?
  {
    old_.(tags := ToSet(data.tags.value), cookingTime := data.cookingTime.value,
          name := data.name.GetOr(old_.name), text := data.text.GetOr(old_.text))
  }

  /** `get_ingredients`: bulk-inserts one `IngredientRecipe` row per entry. */
  method GetIngredients(db: Database, recipe: RecipeId, entries: seq<IngredientEntry>)
    modifies db
    ensures db.State() == old(db.State()).(rows := old(db.ingredientRows) + RowsFor(recipe, entries))
  {
    var i := 0;
    while i < |entries|
      invariant 0 <= i <= |entries|
      invariant db.State() == old(db.State()).(rows := old(db.ingredientRows) + RowsFor(recipe, entries[..i]))
    {
      var entry := entries[i];
      db.ingredientRows := db.ingredientRows
        + [IngredientRecipe(entry.ingredient, recipe, AmountOf(entry))];
      assert RowsFor(recipe, entries[..i + 1]) == RowsFor(recipe, entries[..i])
        + [IngredientRecipe(entry.ingredient, recipe, AmountOf(entry))];
      i := i + 1;
    }
    assert entries[..i] == entries;
  }

  /** `RecipeCreateSerializer.create`: a new recipe by the requesting user, its tags and its ingredient rows. */
  method Create(db: Database, author: UserId, data: RecipePayload) returns (id: RecipeId)
    requires db.Valid()
    requires author in db.users
    requires ValidateRecipe(data).Ok?
    requires data.name.Some? && data.text.Some?
    requires References(db.State(), data)
    modifies db
    ensures db.Valid()
    ensures id !in old(db.recipes)
    ensures db.State() == old(db.State()).(
      recipes := old(db.recipes)[id := NewRecipe(author, data)],
      nextRecipeId := id + 1,
      rows := old(db.ingredientRows) + RowsFor(id, data.ingredients.value))
  {
    ghost var t := db.State();
    id := db.nextRecipeId;
    var tagsData := data.tags.value;
    var ingredients := data.ingredients.value;
    db.recipes := db.recipes[id := Recipe(author, data.name.value, data.text.value, data.cookingTime.value, {})];
    db.nextRecipeId := id + 1;
    db.recipes := db.recipes[id := db.recipes[id].(tags := ToSet(tagsData))];
    GetIngredients(db, id, ingredients);
    ghost var t1 := t.(nextRecipeId := id + 1);
    assert db.State() == t1.(recipes := t.recipes[id := NewRecipe(author, data)],
                             rows := t.rows + RowsFor(id, ingredients));
    FreshRecipeIdConsistent(t);
    RowsWithoutNothing(t.rows, id);
    ReplaceIngredientsConsistent(t1, id, NewRecipe(author, data), data);
  }

  /** `RecipeCreateSerializer.update`: replaces the recipe's ingredient rows and tags, then its fields. */
  method Update(db: Database, id: RecipeId, data: RecipePayload)
    requires db.Valid()
    requires id in db.recipes
    requires ValidateRecipe(data).Ok?
    requires References(db.State(), data)
    modifies db
    ensures db.Valid()
    ensures db.State() == old(db.State()).(
      recipes := old(db.recipes)[id := UpdatedRecipe(old(db.recipes[id]), data)],
      rows := RowsWithout(old(db.ingredientRows), id) + RowsFor(id, data.ingredients.value))
  {
    ghost var t := db.State();
    var tags := data.tags.value;
    var ingredients := data.ingredients.value;
    db.ingredientRows := RowsWithout(db.ingredientRows, id);
    db.recipes := db.recipes[id := db.recipes[id].(tags := ToSet(tags))];
    GetIngredients(db, id, ingredients);
    var instance := db.recipes[id];
    db.recipes := db.recipes[id := instance.(cookingTime := data.cookingTime.value,
                                             name := data.name.GetOr(instance.name),
                                             text := data.text.GetOr(instance.text))];
    assert db.State() == t.(recipes := t.recipes[id := UpdatedRecipe(t.recipes[id], data)],
                            rows := RowsWithout(t.rows, id) + RowsFor(id, ingredients));
    ReplaceIngredientsConsistent(t, id, UpdatedRecipe(t.recipes[id], data), data);
  }
}
