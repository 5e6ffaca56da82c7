/**
 * The state-changing actions of the API views: subscribing to an author, adding and removing a
 * recipe from the favourites or the shopping cart, and the shopping-list download.
 */
module Views {
  import opened Types
  import opened Models
  import opened ShoppingList

  /** The numeric HTTP statuses the actions answer with. */
  const Created: int := 201
  const NoContent: int := 204
  const BadRequest: int := 400
  const NotFound: int := 404
  const MethodNotAllowed: int := 405

  // ---------------------------------------------------------------------------------------------
  // CustomUserViewSet.subscribe

  /**
   * `subscribe`: `user` (the signed-in requester) subscribes to, or unsubscribes from, the user
   * with primary key `id`, depending on the HTTP verb.
   */
  method Subscribe(db: Database, user: UserId, id: UserId, verb: string) returns (status: int)
    requires db.Valid()
    requires user in db.users
    modifies db
    ensures db.Valid()
    ensures db.State() == old(db.State()).(subscriptions := db.subscriptions)
    ensures id !in old(db.users) ==>
      status == NotFound && db.subscriptions == old(db.subscriptions)
    ensures id in old(db.users) && id == user ==>
      status == BadRequest && db.subscriptions == old(db.subscriptions)
    ensures id in old(db.users) && id != user && verb == "POST" ==>
      if (user, id) in old(db.subscriptions)
      then status == BadRequest && db.subscriptions == old(db.subscriptions)
      else status == Created && db.subscriptions == old(db.subscriptions) + {(user, id)}
    ensures id in old(db.users) && id != user && verb == "DELETE" ==>
      if (user, id) !in old(db.subscriptions)
      then status == BadRequest && db.subscriptions == old(db.subscriptions)
      else status == NoContent && db.subscriptions == old(db.subscriptions) - {(user, id)}
    ensures id in old(db.users) && id != user && verb != "POST" && verb != "DELETE" ==>
      status == MethodNotAllowed && db.subscriptions == old(db.subscriptions)
  {
    if id !in db.users {
      return NotFound;
    }
    var author := id;
    if user == author {
      return BadRequest;
    }
    if verb == "POST" {
      if (user, author) in db.subscriptions {
        return BadRequest;
      }
      db.subscriptions := db.subscriptions + {(user, author)};
      return Created;
    }
    if verb == "DELETE" {
      if (user, author) !in db.subscriptions {
        return BadRequest;
      }
      db.subscriptions := db.subscriptions - {(user, author)};
      return NoContent;
    }
    return MethodNotAllowed;
  }

  // ---------------------------------------------------------------------------------------------
  // RecipeViewSet.add_method / delete_method

  /** The two (user, recipe) tables the favourite and shopping-cart actions share their code for. */
  datatype PairTable = FavoriteTable | CartTable

  /** The contents of the table `table` names. */
  function Pairs(db: Database, table: PairTable): set<(UserId, RecipeId)>
    reads db
  {
    match table
    case FavoriteTable => db.favorites
    case CartTable => db.carts
  }

  /** The tables with `table` replaced by `pairs`. */
  function WithPairs(t: Tables, table: PairTable, pairs: set<(UserId, RecipeId)>): Tables {
    match table
    case FavoriteTable => t.(favorites := pairs)
    case CartTable => t.(carts := pairs)
  }

  /** Stores `pairs` as the contents of `table`. */
  method SetPairs(db: Database, table: PairTable, pairs: set<(UserId, RecipeId)>)
    modifies db
    ensures db.State() == WithPairs(old(db.State()), table, pairs)
  {
    match table
    case FavoriteTable => db.favorites := pairs;
    case CartTable => db.carts := pairs;
  }

  /**
   * `add_method`: puts recipe `pk` into `user`'s favourites or cart. Every failure, including
   * the not-found of an unknown recipe, is caught and answered with 400.
   */
  method AddMethod(db: Database, table: PairTable, user: UserId, pk: RecipeId) returns (status: int)
    requires db.Valid()
    requires user in db.users
    modifies db
    ensures db.Valid()
    ensures pk !in old(db.recipes) ==> status == BadRequest && db.State() == old(db.State())
    ensures pk in old(db.recipes) && (user, pk) in old(Pairs(db, table)) ==>
      status == BadRequest && db.State() == old(db.State())
    ensures pk in old(db.recipes) && (user, pk) !in old(Pairs(db, table)) ==>
      status == Created && db.State() == WithPairs(old(db.State()), table, old(Pairs(db, table)) + {(user, pk)})
  {
    if pk !in db.recipes {
      return BadRequest;
    }
    var recipe := pk;
    if (user, recipe) in Pairs(db, table) {
      return BadRequest;
    }
    SetPairs(db, table, Pairs(db, table) + {(user, recipe)});
    return Created;
  }

  /** `delete_method`: takes recipe `pk` out of `user`'s favourites or cart. */
  method DeleteMethod(db: Database, table: PairTable, user: UserId, pk: RecipeId) returns (status: int)
    requires db.Valid()
    modifies db
    ensures db.Valid()
    ensures pk !in old(db.recipes) ==> status == NotFound && db.State() == old(db.State())
    ensures pk in old(db.recipes) && (user, pk) in old(Pairs(db, table)) ==>
      status == NoContent && db.State() == WithPairs(old(db.State()), table, old(Pairs(db, table)) - {(user, pk)})
    ensures pk in old(db.recipes) && (user, pk) !in old(Pairs(db, table)) ==>
      status == BadRequest && db.State() == old(db.State())
  {
    if pk !in db.recipes {
      return NotFound;
    }
    var recipe := pk;
    if (user, recipe) in Pairs(db, table) {
      SetPairs(db, table, Pairs(db, table) - {(user, recipe)});
      return NoContent;
    }
    return BadRequest;
  }

  /** A POST that subscribes and a DELETE that unsubscribes undo each other. */
  method SubscribeThenUnsubscribe(db: Database, user: UserId, author: UserId) returns (posted: int, deleted: int)
    requires db.Valid()
    requires user in db.users && author in db.users && user != author
    requires (user, author) !in db.subscriptions
    modifies db
    ensures posted == Created && deleted == NoContent
    ensures db.State() == old(db.State())
  {
    posted := Subscribe(db, user, author, "POST");
    deleted := Subscribe(db, user, author, "DELETE");
  }

  /** Adding a recipe to a table that lacks it and then deleting it leaves every table as it was. */
  method AddThenDelete(db: Database, table: PairTable, user: UserId, pk: RecipeId) returns (added: int, deleted: int)
    requires db.Valid()
    requires user in db.users && pk in db.recipes
    requires (user, pk) !in Pairs(db, table)
    modifies db
    ensures added == Created && deleted == NoContent
    ensures db.State() == old(db.State())
  {
    added := AddMethod(db, table, user, pk);
    deleted := DeleteMethod(db, table, user, pk);
  }

  // ---------------------------------------------------------------------------------------------
  // RecipeViewSet.download_shopping_cart

  /** The `for item in buy` loop of `download_shopping_cart`: the header, then one line per aggregated row. */
  method ListRecipe(buy: seq<Entry>, ingredients: map<IngredientId, Ingredient>) returns (listRecipe: seq<string>)
    requires forall e :: e in buy ==> e.ingredient in ingredients
    ensures listRecipe == [Header] + Lines(buy, ingredients)
  {
    listRecipe := [Header];
    var i := 0;
    while i < |buy|
      invariant 0 <= i <= |buy|
      invariant listRecipe == [Header] + Lines(buy[..i], ingredients)
    {
      var ingredient := ingredients[buy[i].ingredient];
      var amount := buy[i].amount;
      listRecipe := listRecipe + [FormatLine(ingredient, amount)];
      i := i + 1;
      assert Lines(buy[..i], ingredients) == Lines(buy[..i - 1], ingredients) + [FormatLine(ingredient, amount)];
    }
    assert buy[..i] == buy;
  }

  /** The aggregated rows of `user`'s shopping list. */
  function ShoppingEntries(t: Tables, user: UserId): seq<Entry> {
    Group(ShoppingRows(t.rows, t.carts, user))
  }

  /**
   * `download_shopping_cart`: the text of the shopping-list file, built line by line from the
   * aggregated rows of the user's cart.
   */
  method DownloadShoppingCart(db: Database, user: UserId) returns (text: string)
    requires RowIngredientsStored(db.ingredientRows, db.ingredients)
    ensures forall e :: e in ShoppingEntries(db.State(), user) ==> e.ingredient in db.ingredients
    ensures text == Render(ShoppingEntries(db.State(), user), db.ingredients)
  {
    var ingredients := db.ingredients;
    var recipes := CartRecipeIds(db.carts, user);
    var cartRows := RowsOfRecipes(db.ingredientRows, recipes);
    assert RowIngredientsStored(cartRows, ingredients) by {
      forall j | 0 <= j < |cartRows| ensures cartRows[j].ingredient in ingredients {
        assert cartRows[j] in db.ingredientRows;
      }
    }
    GroupKeysStored(cartRows, ingredients);
    var buy := Group(cartRows);
    var listRecipe := ListRecipe(buy, ingredients);
    text := JoinLines(listRecipe);
  }

  /**
   * When every row is valid, each listed ingredient appears once, with the total of its rows over
   * the recipes in `user`'s cart, and every such amount is at least 1.
   */
  lemma ShoppingEntriesSums(t: Tables, user: UserId, e: Entry)
    requires RowsValid(t)
    ensures e in ShoppingEntries(t, user) <==>
      Mentions(ShoppingRows(t.rows, t.carts, user), e.ingredient)
      && e.amount == SumFor(ShoppingRows(t.rows, t.carts, user), e.ingredient)
    ensures e in ShoppingEntries(t, user) ==> e.amount >= MinValue
  {
    var rows := ShoppingRows(t.rows, t.carts, user);
    GroupEntries(rows, e);
    if e in ShoppingEntries(t, user) {
      var i :| 0 <= i < |rows| && rows[i].ingredient == e.ingredient;
      ShoppingRowsStored(t, user);
      SumForPositive(rows, e.ingredient, i);
    }
  }

  /** The rows of a cart name stored ingredients and carry amounts of at least 1. */
  lemma ShoppingRowsStored(t: Tables, user: UserId)
    requires RowsValid(t)
    ensures var rows := ShoppingRows(t.rows, t.carts, user);
      forall j :: 0 <= j < |rows| ==> rows[j].ingredient in t.ingredients && rows[j].amount >= MinValue
  {
    var rows := ShoppingRows(t.rows, t.carts, user);
    forall j | 0 <= j < |rows| ensures rows[j].ingredient in t.ingredients && rows[j].amount >= MinValue {
      assert rows[j] in t.rows;
      var k :| 0 <= k < |t.rows| && t.rows[k] == rows[j];
    }
  }

  /** A sum of amounts that are each at least 1, over at least one row of ingredient `k`, is at least 1. */
  lemma {:induction false} SumForPositive(rows: seq<IngredientRecipe>, k: IngredientId, i: nat)
    requires forall j :: 0 <= j < |rows| ==> rows[j].amount >= MinValue
    requires i < |rows| && rows[i].ingredient == k
    ensures SumFor(rows, k) >= MinValue
  {
    var n := |rows| - 1;
    if i < n {
      SumForPositive(rows[..n], k, i);
    } else {
      SumForNonNegative(rows[..n], k);
    }
  }

  lemma {:induction false} SumForNonNegative(rows: seq<IngredientRecipe>, k: IngredientId)
    requires forall j :: 0 <= j < |rows| ==> rows[j].amount >= 0
    ensures SumFor(rows, k) >= 0
  {
    if rows != [] {
      SumForNonNegative(rows[..|rows| - 1], k);
    }
  }

  /** The listed amounts add up to the total amount of every row of every recipe in the cart. */
  lemma ShoppingTotal(t: Tables, user: UserId)
    ensures Total(ShoppingEntries(t, user)) == TotalAmount(ShoppingRows(t.rows, t.carts, user))
  {
    GroupTotal(ShoppingRows(t.rows, t.carts, user));
  }
}
