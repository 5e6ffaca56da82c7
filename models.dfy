/**
 * The tables of the `foodgram` application and the constraints its model classes declare.
 * The declarative constraints become predicates over the table contents; the database itself
 * is the class `Database`, whose fields the views and serializers update.
 */
module Models {
  import opened Types

  /** `User`: the login field is `email`; `username` and `email` are both unique. */
  datatype User = User(username: string, email: string, firstName: string, lastName: string)

  /** `Tag`: unique name and slug, a colour code. */
  datatype Tag = Tag(name: string, color: string, slug: string)

  /** `Ingredient`: a name and its measurement unit, unique together. */
  datatype Ingredient = Ingredient(name: string, measurementUnit: string)

  /** `Recipe`, with its many-to-many tag set; the image is not modelled. */
  datatype Recipe = Recipe(author: UserId, name: string, text: string, cookingTime: int, tags: set<TagId>)

  /** One row of `IngredientRecipe`: how much of an ingredient a recipe needs. */
  datatype IngredientRecipe = IngredientRecipe(ingredient: IngredientId, recipe: RecipeId, amount: int)

  /** The smallest value `MinValueValidator(1)` lets through for `cooking_time` and `amount`. */
  const MinValue: int := 1

  predicate IsHexDigit(c: char) {
    '0' <= c <= '9' || 'a' <= c <= 'f' || 'A' <= c <= 'F'
  }

  /** A '#' and then any number of hex digits of either case. */
  predicate IsHexCode(s: string) {
    |s| >= 1 && s[0] == '#' && forall i :: 1 <= i < |s| ==> IsHexDigit(s[i])
  }

  /**
   * What `re.search("^#[a-fA-F0-9]*$", s)` accepts: a hex code, where Python's `$` also
   * matches just before one final newline.
   */
  predicate IsHexColour(s: string) {
    IsHexCode(s) || (|s| >= 2 && s[|s| - 1] == '\n' && IsHexCode(s[..|s| - 1]))
  }

  /** `username` and `email` are each unique across users. */
  predicate UsersUnique(users: map<UserId, User>) {
    forall a, b :: a in users && b in users && a != b ==>
      users[a].username != users[b].username && users[a].email != users[b].email
  }

  /** Tag names and slugs are unique and every colour matches the HEX pattern. */
  predicate TagsValid(tags: map<TagId, Tag>) {
    && (forall a :: a in tags ==> IsHexColour(tags[a].color))
    && (forall a, b :: a in tags && b in tags && a != b ==>
          tags[a].name != tags[b].name && tags[a].slug != tags[b].slug)
  }

  /** `unique_name_measurement_unit`. */
  predicate IngredientsUnique(ingredients: map<IngredientId, Ingredient>) {
    forall a, b :: a in ingredients && b in ingredients && a != b ==> ingredients[a] != ingredients[b]
  }

  /** `unique_ingredient_recipe`: no two rows name the same (ingredient, recipe) pair. */
  predicate RowsUnique(rows: seq<IngredientRecipe>) {
    forall i, j :: 0 <= i < j < |rows| ==>
      rows[i].ingredient != rows[j].ingredient || rows[i].recipe != rows[j].recipe
  }

  /** `different_user_and_author`: nobody is subscribed to themself. */
  predicate NoSelfSubscription(subscriptions: set<(UserId, UserId)>) {
    forall p :: p in subscriptions ==> p.0 != p.1
  }

  /**
   * The contents of every table. `subscriptions` holds (user, author) pairs; `favorites` and
   * `carts` hold (user, recipe) pairs. The pair tables are sets, so the unique-together
   * constraints on `Subscription`, `Favorite` and `Cart` hold by construction.
   */
  datatype Tables = Tables(
    users: map<UserId, User>,
    tags: map<TagId, Tag>,
    ingredients: map<IngredientId, Ingredient>,
    recipes: map<RecipeId, Recipe>,
    nextRecipeId: RecipeId,
    rows: seq<IngredientRecipe>,
    subscriptions: set<(UserId, UserId)>,
    favorites: set<(UserId, RecipeId)>,
    carts: set<(UserId, RecipeId)>)

  /** Every recipe satisfies its field constraints and refers to stored rows. */
  predicate RecipesValid(t: Tables) {
    forall id :: id in t.recipes ==>
      && id < t.nextRecipeId
      && t.recipes[id].cookingTime >= MinValue
      && t.recipes[id].author in t.users
      && t.recipes[id].tags <= t.tags.Keys
  }

  /** Every row names a stored ingredient (`Ingredient.objects.get(pk=...)` finds it). */
  predicate RowIngredientsStored(rows: seq<IngredientRecipe>, ingredients: map<IngredientId, Ingredient>) {
    forall i :: 0 <= i < |rows| ==> rows[i].ingredient in ingredients
  }

  /** Every ingredient row refers to a stored ingredient and recipe and has an amount of at least 1. */
  predicate RowsValid(t: Tables) {
    && RowsUnique(t.rows)
    && RowIngredientsStored(t.rows, t.ingredients)
    && forall i :: 0 <= i < |t.rows| ==>
         && t.rows[i].recipe in t.recipes
         && t.rows[i].amount >= MinValue
  }

  /** Every pair of a (user, recipe) table refers to a stored user and recipe. */
  predicate PairsValid(t: Tables, pairs: set<(UserId, RecipeId)>) {
    forall p :: p in pairs ==> p.0 in t.users && p.1 in t.recipes
  }

  /** Every constraint the model classes declare, together with referential integrity. */
  predicate Consistent(t: Tables) {
    && UsersUnique(t.users)
    && TagsValid(t.tags)
    && IngredientsUnique(t.ingredients)
    && RecipesValid(t)
    && RowsValid(t)
    && NoSelfSubscription(t.subscriptions)
    && (forall p :: p in t.subscriptions ==> p.0 in t.users && p.1 in t.users)
    && PairsValid(t, t.favorites)
    && PairsValid(t, t.carts)
  }

  /** Because `email` is unique, a login email names at most one user. */
  lemma EmailIdentifiesUser(t: Tables, a: UserId, b: UserId)
    requires Consistent(t)
    requires a in t.users && b in t.users && t.users[a].email == t.users[b].email
    ensures a == b
  {
  }

  /**
   * The colour pattern accepts the bare '#' and both cases of hex digits, and nothing without
   * the '#'; one trailing newline is let through by `$`, a second one is not.
   */
  lemma HexColourExamples()
    ensures IsHexColour("#") && IsHexColour("#49B64E") && IsHexColour("#49b64e")
    ensures !IsHexColour("") && !IsHexColour("49B64E") && !IsHexColour("#49G64E")
    ensures IsHexColour("#fff\n") && IsHexColour("#\n")
    ensures !IsHexColour("#fff\n\n") && !IsHexColour("\n")
  {
    assert !IsHexDigit('G');
    assert "#49G64E"[3] == 'G';
    assert "#fff\n"[..4] == "#fff";
    assert "#\n"[..1] == "#";
    assert "#fff\n\n"[..5] == "#fff\n";
    assert !IsHexDigit('\n');
    assert "#fff\n\n"[4] == '\n';
    assert "#fff\n"[4] == '\n';
  }

  /** The database: one field per table, updated in place by the views and serializers. */
  class Database {
    var users: map<UserId, User>
    var tags: map<TagId, Tag>
    var ingredients: map<IngredientId, Ingredient>
    var recipes: map<RecipeId, Recipe>
    var nextRecipeId: RecipeId
    var ingredientRows: seq<IngredientRecipe>
    var subscriptions: set<(UserId, UserId)>
    var favorites: set<(UserId, RecipeId)>
    var carts: set<(UserId, RecipeId)>

    /** The contents of all the tables. */
    ghost function State(): Tables
      reads this
    {
      Tables(users, tags, ingredients, recipes, nextRecipeId, ingredientRows,
             subscriptions, favorites, carts)
    }

    ghost predicate Valid()
      reads this
    {
      Consistent(State())
    }

    /** A database whose reference tables are given and whose other tables are empty. */
    constructor (users: map<UserId, User>, tags: map<TagId, Tag>, ingredients: map<IngredientId, Ingredient>)
      requires UsersUnique(users) && TagsValid(tags) && IngredientsUnique(ingredients)
      ensures Valid()
      ensures State() == Tables(users, tags, ingredients, map[], 0, [], {}, {}, {})
    {
      this.users := users;
      this.tags := tags;
      this.ingredients := ingredients;
      recipes := map[];
      nextRecipeId := 0;
      ingredientRows := [];
      subscriptions := {};
      favorites := {};
      carts := {};
    }
  }
}
