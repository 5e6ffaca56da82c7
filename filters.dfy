/** The favourite and shopping-cart filters of the recipe list. */
module Filters {
  import opened Types
  import Permissions

  /**
   * `queryset.filter(<relation>__user=user)`: the recipes of `recipes`, in their order, that
   * `user` has a row for in the pair table `pairs` of `(user, recipe)`.
   */
  function KeepRelated(recipes: seq<RecipeId>, pairs: set<(UserId, RecipeId)>, user: UserId): (r: seq<RecipeId>)
    ensures forall x :: x in r <==> x in recipes && (user, x) in pairs
    ensures multiset(r) <= multiset(recipes)
    ensures forall x :: multiset(r)[x] == if (user, x) in pairs then multiset(recipes)[x] else 0
  {
    if recipes == [] then []
    else
      var rest := KeepRelated(recipes[1..], pairs, user);
      assert recipes == [recipes[0]] + recipes[1..];
      if (user, recipes[0]) in pairs then [recipes[0]] + rest else rest
  }

  /** `RecipeFilter.filter_is_favorited`. */
  function FilterIsFavorited(
    recipes: seq<RecipeId>, favorites: set<(UserId, RecipeId)>,
    user: Permissions.RequestUser, value: bool): (r: seq<RecipeId>)
    ensures value && user.IsAuthenticated() ==>
      forall x :: x in r <==> x in recipes && (user.id, x) in favorites
    ensures !value || !user.IsAuthenticated() ==> r == recipes
    ensures multiset(r) <= multiset(recipes)
  {
    if value && user.IsAuthenticated() then KeepRelated(recipes, favorites, user.id) else recipes
  }

  /** `RecipeFilter.filter_is_in_shopping_cart`. */
  function FilterIsInShoppingCart(
    recipes: seq<RecipeId>, carts: set<(UserId, RecipeId)>,
    user: Permissions.RequestUser, value: bool): (r: seq<RecipeId>)
    ensures value && user.IsAuthenticated() ==>
      forall x :: x in r <==> x in recipes && (user.id, x) in carts
    ensures !value || !user.IsAuthenticated() ==> r == recipes
    ensures multiset(r) <= multiset(recipes)
  {
    if value && user.IsAuthenticated() then KeepRelated(recipes, carts, user.id) else recipes
  }

  /** The filter is decided by `user`'s own rows: rows of other users in the pair table change nothing. */
  lemma {:induction false} KeepRelatedOnlyOwnRows(
    recipes: seq<RecipeId>, pairs1: set<(UserId, RecipeId)>, pairs2: set<(UserId, RecipeId)>, user: UserId)
    requires forall x :: (user, x) in pairs1 <==> (user, x) in pairs2
    ensures KeepRelated(recipes, pairs1, user) == KeepRelated(recipes, pairs2, user)
  {
    if recipes != [] {
      KeepRelatedOnlyOwnRows(recipes[1..], pairs1, pairs2, user);
    }
  }

  /** Filtering twice by the same table is filtering once. */
  lemma {:induction false} KeepRelatedIdempotent(recipes: seq<RecipeId>, pairs: set<(UserId, RecipeId)>, user: UserId)
    ensures KeepRelated(KeepRelated(recipes, pairs, user), pairs, user) == KeepRelated(recipes, pairs, user)
  {
    if recipes != [] {
      KeepRelatedIdempotent(recipes[1..], pairs, user);
      var rest := KeepRelated(recipes[1..], pairs, user);
      if (user, recipes[0]) in pairs {
        assert ([recipes[0]] + rest)[1..] == rest;
      }
    }
  }
}
