/**
 * The shopping list of `download_shopping_cart`: the ingredient rows of the recipes in a
 * user's cart, grouped by ingredient with their amounts summed, rendered as text.
 */
module ShoppingList {
  import opened Types
  import opened Models

  // ---------------------------------------------------------------------------------------------
  // Selecting the rows

  /** `[item.recipe.id for item in Cart.objects.filter(user=user)]`, as a set. */
  function CartRecipeIds(carts: set<(UserId, RecipeId)>, user: UserId): (r: set<RecipeId>)
    ensures forall id :: id in r <==> (user, id) in carts
  {
    set p | p in carts && p.0 == user :: p.1
  }

  /** `IngredientRecipe.objects.filter(recipe__in=recipes)`, in row order. */
  function RowsOfRecipes(rows: seq<IngredientRecipe>, recipes: set<RecipeId>): (r: seq<IngredientRecipe>)
    ensures forall x :: x in r <==> x in rows && x.recipe in recipes
    ensures multiset(r) <= multiset(rows)
  {
    if rows == [] then []
    else
      assert rows == [rows[0]] + rows[1..];
      (if rows[0].recipe in recipes then [rows[0]] else []) + RowsOfRecipes(rows[1..], recipes)
  }

  /** The selection keeps every row of a chosen recipe as often as it occurred, and no other row. */
  lemma {:induction false} RowsOfRecipesCounts(rows: seq<IngredientRecipe>, recipes: set<RecipeId>, x: IngredientRecipe)
    ensures multiset(RowsOfRecipes(rows, recipes))[x] == if x.recipe in recipes then multiset(rows)[x] else 0
  {
    if rows != [] {
      RowsOfRecipesCounts(rows[1..], recipes, x);
      assert rows == [rows[0]] + rows[1..];
    }
  }

  /** The rows that feed `user`'s shopping list. */
  function ShoppingRows(rows: seq<IngredientRecipe>, carts: set<(UserId, RecipeId)>, user: UserId)
    : seq<IngredientRecipe>
  {
    RowsOfRecipes(rows, CartRecipeIds(carts, user))
  }

  /** A row feeds the list exactly when its recipe is in this user's cart. */
  lemma ShoppingRowsExactly(rows: seq<IngredientRecipe>, carts: set<(UserId, RecipeId)>, user: UserId, x: IngredientRecipe)
    ensures x in ShoppingRows(rows, carts, user) <==> x in rows && (user, x.recipe) in carts
  {
  }

  /** Other users' carts do not change this user's rows. */
  lemma OtherCartsIrrelevant(rows: seq<IngredientRecipe>, carts1: set<(UserId, RecipeId)>,
                             carts2: set<(UserId, RecipeId)>, user: UserId)
    requires forall id :: (user, id) in carts1 <==> (user, id) in carts2
    ensures ShoppingRows(rows, carts1, user) == ShoppingRows(rows, carts2, user)
  {
    assert CartRecipeIds(carts1, user) == CartRecipeIds(carts2, user);
  }

  // ---------------------------------------------------------------------------------------------
  // Sums over rows

  /** The summed amount of ingredient `k` over `rows`: `Sum("amount")` within the group of `k`. */
  function SumFor(rows: seq<IngredientRecipe>, k: IngredientId): int {
    if rows == [] then 0
    else
      var last := rows[|rows| - 1];
      SumFor(rows[..|rows| - 1], k) + (if last.ingredient == k then last.amount else 0)
  }

  /** The sum of every row's amount. */
  function TotalAmount(rows: seq<IngredientRecipe>): int {
    if rows == [] then 0 else TotalAmount(rows[..|rows| - 1]) + rows[|rows| - 1].amount
  }

  /** Some row names ingredient `k`. */
  predicate Mentions(rows: seq<IngredientRecipe>, k: IngredientId) {
    exists i :: 0 <= i < |rows| && rows[i].ingredient == k
  }

  lemma {:induction false} SumForAppend(u: seq<IngredientRecipe>, v: seq<IngredientRecipe>, k: IngredientId)
    ensures SumFor(u + v, k) == SumFor(u, k) + SumFor(v, k)
  {
    if v == [] {
      assert u + v == u;
    } else {
      assert (u + v)[..|u + v| - 1] == u + v[..|v| - 1];
      SumForAppend(u, v[..|v| - 1], k);
    }
  }

  /** The sum for an ingredient depends only on which rows there are, not on their order. */
  lemma {:induction false} SumForPermutation(a: seq<IngredientRecipe>, b: seq<IngredientRecipe>, k: IngredientId)
    requires multiset(a) == multiset(b)
    ensures SumFor(a, k) == SumFor(b, k)
    decreases |a|
  {
    if a != [] {
      var n := |a| - 1;
      var x := a[n];
      assert a == a[..n] + [x];
      assert x in multiset(b);
      var j :| 0 <= j < |b| && b[j] == x;
      assert b == b[..j] + [x] + b[j + 1..];
      var b' := b[..j] + b[j + 1..];
      assert multiset(a[..n]) == multiset(b') by {
        calc {
          multiset(a[..n]);
          multiset(a) - multiset{x};
          multiset(b) - multiset{x};
          multiset(b[..j]) + multiset{x} + multiset(b[j + 1..]) - multiset{x};
          multiset(b');
        }
      }
      SumForPermutation(a[..n], b', k);
      SumForAppend(b[..j] + [x], b[j + 1..], k);
      SumForAppend(b[..j], [x], k);
      SumForAppend(b[..j], b[j + 1..], k);
      assert [x][..0] == [];
    }
  }

  // ---------------------------------------------------------------------------------------------
  // Grouping

  /** One aggregated row of the query: an ingredient and its summed amount. */
  datatype Entry = Entry(ingredient: IngredientId, amount: int)

  /** The amount listed for ingredient `k`, or 0 when it is not listed. */
  function Lookup(g: seq<Entry>, k: IngredientId): int {
    if g == [] then 0 else if g[0].ingredient == k then g[0].amount else Lookup(g[1..], k)
  }

  /** Ingredient `k` has a line. */
  predicate Listed(g: seq<Entry>, k: IngredientId) {
    exists i :: 0 <= i < |g| && g[i].ingredient == k
  }

  /** Each ingredient has at most one line. */
  predicate KeysDistinct(g: seq<Entry>) {
    forall i, j :: 0 <= i < j < |g| ==> g[i].ingredient != g[j].ingredient
  }

  /** The sum of the listed amounts. */
  function Total(g: seq<Entry>): int {
    if g == [] then 0 else g[0].amount + Total(g[1..])
  }

  /** Folds one row into the groups: adds to the group of its ingredient, or opens that group. */
  function AddTo(g: seq<Entry>, k: IngredientId, a: int): seq<Entry> {
    if g == [] then [Entry(k, a)]
    else if g[0].ingredient == k then [Entry(k, g[0].amount + a)] + g[1..]
    else [g[0]] + AddTo(g[1..], k, a)
  }

  /** `.values("ingredient").annotate(amount=Sum("amount"))`, with groups in order of first appearance. */
  function Group(rows: seq<IngredientRecipe>): seq<Entry> {
    if rows == [] then []
    else
      var last := rows[|rows| - 1];
      AddTo(Group(rows[..|rows| - 1]), last.ingredient, last.amount)
  }

  lemma {:induction false} AddToLookup(g: seq<Entry>, k: IngredientId, a: int, x: IngredientId)
    ensures Lookup(AddTo(g, k, a), x) == Lookup(g, x) + (if x == k then a else 0)
  {
    if g != [] && g[0].ingredient != k {
      AddToLookup(g[1..], k, a, x);
    }
  }

  lemma {:induction false} AddToListed(g: seq<Entry>, k: IngredientId, a: int, x: IngredientId)
    ensures Listed(AddTo(g, k, a), x) <==> Listed(g, x) || x == k
  {
    var r := AddTo(g, k, a);
    if g == [] {
      assert r[0].ingredient == k;
    } else if g[0].ingredient == k {
      assert r[0].ingredient == k;
      if Listed(g, x) {
        var i :| 0 <= i < |g| && g[i].ingredient == x;
        assert r[i].ingredient == x;
      }
      if Listed(r, x) {
        var i :| 0 <= i < |r| && r[i].ingredient == x;
        assert g[i].ingredient == x;
      }
    } else {
      AddToListed(g[1..], k, a, x);
      var tail := AddTo(g[1..], k, a);
      assert r == [g[0]] + tail;
      if Listed(g, x) {
        var i :| 0 <= i < |g| && g[i].ingredient == x;
        if i > 0 { assert g[1..][i - 1].ingredient == x; } else { assert r[0].ingredient == x; }
      }
      if Listed(g[1..], x) {
        var i :| 0 <= i < |g[1..]| && g[1..][i].ingredient == x;
        assert g[i + 1].ingredient == x;
      }
      if Listed(tail, x) {
        var i :| 0 <= i < |tail| && tail[i].ingredient == x;
        assert r[i + 1].ingredient == x;
      }
      if Listed(r, x) {
        var i :| 0 <= i < |r| && r[i].ingredient == x;
        if i > 0 { assert tail[i - 1].ingredient == x; } else { assert g[0].ingredient == x; }
      }
    }
  }

  lemma {:induction false} AddToDistinct(g: seq<Entry>, k: IngredientId, a: int)
    requires KeysDistinct(g)
    ensures KeysDistinct(AddTo(g, k, a))
  {
    var r := AddTo(g, k, a);
    if g != [] && g[0].ingredient != k {
      var tail := AddTo(g[1..], k, a);
      AddToDistinct(g[1..], k, a);
      assert r == [g[0]] + tail;
      forall j | 1 <= j < |r| ensures r[0].ingredient != r[j].ingredient {
        AddToListed(g[1..], k, a, r[j].ingredient);
        assert Listed(tail, r[j].ingredient) by { assert tail[j - 1] == r[j]; }
        if Listed(g[1..], r[j].ingredient) {
          var i :| 0 <= i < |g[1..]| && g[1..][i].ingredient == r[j].ingredient;
          assert g[i + 1] == g[1..][i];
        }
      }
    }
  }

  lemma {:induction false} AddToTotal(g: seq<Entry>, k: IngredientId, a: int)
    ensures Total(AddTo(g, k, a)) == Total(g) + a
  {
    if g == [] {
    } else if g[0].ingredient == k {
      assert ([Entry(k, g[0].amount + a)] + g[1..])[1..] == g[1..];
    } else {
      AddToTotal(g[1..], k, a);
      assert ([g[0]] + AddTo(g[1..], k, a))[1..] == AddTo(g[1..], k, a);
    }
  }

  /** Each ingredient appears on at most one line. */
  lemma {:induction false} GroupDistinct(rows: seq<IngredientRecipe>)
    ensures KeysDistinct(Group(rows))
  {
    if rows != [] {
      var last := rows[|rows| - 1];
      GroupDistinct(rows[..|rows| - 1]);
      AddToDistinct(Group(rows[..|rows| - 1]), last.ingredient, last.amount);
    }
  }

  /** The amount listed for every ingredient is the sum of its rows' amounts. */
  lemma {:induction false} GroupSums(rows: seq<IngredientRecipe>, k: IngredientId)
    ensures Lookup(Group(rows), k) == SumFor(rows, k)
  {
    if rows != [] {
      var last := rows[|rows| - 1];
      GroupSums(rows[..|rows| - 1], k);
      AddToLookup(Group(rows[..|rows| - 1]), last.ingredient, last.amount, k);
    }
  }

  /** An ingredient is listed exactly when some row names it. */
  lemma {:induction false} GroupListsMentioned(rows: seq<IngredientRecipe>, k: IngredientId)
    ensures Listed(Group(rows), k) <==> Mentions(rows, k)
  {
    if rows != [] {
      var n := |rows| - 1;
      var last := rows[n];
      GroupListsMentioned(rows[..n], k);
      AddToListed(Group(rows[..n]), last.ingredient, last.amount, k);
      if Mentions(rows[..n], k) {
        var i :| 0 <= i < n && rows[..n][i].ingredient == k;
        assert rows[i].ingredient == k;
      }
      if Mentions(rows, k) && last.ingredient != k {
        var i :| 0 <= i < |rows| && rows[i].ingredient == k;
        assert rows[..n][i].ingredient == k;
      }
    }
  }

  /** Grouping loses and invents nothing: the listed amounts add up to the total of the rows. */
  lemma {:induction false} GroupTotal(rows: seq<IngredientRecipe>)
    ensures Total(Group(rows)) == TotalAmount(rows)
  {
    if rows != [] {
      var last := rows[|rows| - 1];
      GroupTotal(rows[..|rows| - 1]);
      AddToTotal(Group(rows[..|rows| - 1]), last.ingredient, last.amount);
    }
  }

  /** With distinct keys, a line's amount is what `Lookup` finds for its ingredient. */
  lemma {:induction false} LookupAt(g: seq<Entry>, i: nat)
    requires KeysDistinct(g) && i < |g|
    ensures Lookup(g, g[i].ingredient) == g[i].amount
  {
    if i > 0 {
      assert KeysDistinct(g[1..]) by {
        forall p, q | 0 <= p < q < |g[1..]| ensures g[1..][p].ingredient != g[1..][q].ingredient {
          assert g[1..][p] == g[p + 1] && g[1..][q] == g[q + 1];
        }
      }
      assert g[0].ingredient != g[i].ingredient;
      LookupAt(g[1..], i - 1);
    }
  }

  /** A line (k, a) is in the list exactly when some row names k and a is the sum for k. */
  lemma GroupEntries(rows: seq<IngredientRecipe>, e: Entry)
    ensures e in Group(rows) <==> Mentions(rows, e.ingredient) && e.amount == SumFor(rows, e.ingredient)
  {
    var g := Group(rows);
    GroupDistinct(rows);
    GroupSums(rows, e.ingredient);
    GroupListsMentioned(rows, e.ingredient);
    if e in g {
      var i :| 0 <= i < |g| && g[i] == e;
      LookupAt(g, i);
    }
    if Mentions(rows, e.ingredient) {
      var i :| 0 <= i < |g| && g[i].ingredient == e.ingredient;
      LookupAt(g, i);
    }
  }

  /** The list does not depend on the order the query returns the rows in. */
  lemma GroupOrderIndependent(a: seq<IngredientRecipe>, b: seq<IngredientRecipe>, e: Entry)
    requires multiset(a) == multiset(b)
    ensures e in Group(a) <==> e in Group(b)
  {
    GroupEntries(a, e);
    GroupEntries(b, e);
    SumForPermutation(a, b, e.ingredient);
    if Mentions(a, e.ingredient) {
      var i :| 0 <= i < |a| && a[i].ingredient == e.ingredient;
      assert a[i] in multiset(b);
      var j :| 0 <= j < |b| && b[j] == a[i];
    }
    if Mentions(b, e.ingredient) {
      var i :| 0 <= i < |b| && b[i].ingredient == e.ingredient;
      assert b[i] in multiset(a);
      var j :| 0 <= j < |a| && a[j] == b[i];
    }
  }

  /** Every listed ingredient is named by some row, so it can be looked up when rows refer to stored ingredients. */
  lemma GroupKeysStored(rows: seq<IngredientRecipe>, ingredients: map<IngredientId, Ingredient>)
    requires RowIngredientsStored(rows, ingredients)
    ensures forall e :: e in Group(rows) ==> e.ingredient in ingredients
  {
    forall e | e in Group(rows) ensures e.ingredient in ingredients {
      GroupEntries(rows, e);
    }
  }

  // ---------------------------------------------------------------------------------------------
  // Rendering

  /** The first line of the file. */
  const Header: string := "Список покупок:"

  predicate IsDigit(c: char) { '0' <= c <= '9' }

  function DigitChar(d: nat): (c: char)
    requires d < 10
    ensures IsDigit(c)
  {
    ('0' as int + d) as char
  }

  /** Python's `str(n)` for a non-negative integer: decimal digits, no leading zero. */
  function NatToDecimal(n: nat): string
    decreases n
  {
    if n < 10 then [DigitChar(n)] else NatToDecimal(n / 10) + [DigitChar(n % 10)]
  }

  /** Python's `str(n)`: a minus sign before the digits of a negative number. */
  function IntToString(n: int): string {
    if n < 0 then "-" + NatToDecimal(-n) else NatToDecimal(n)
  }

  /** The number a string of decimal digits denotes. */
  function DecimalValue(s: string): int
    requires forall i :: 0 <= i < |s| ==> IsDigit(s[i])
  {
    if s == [] then 0 else DecimalValue(s[..|s| - 1]) * 10 + (s[|s| - 1] as int - '0' as int)
  }

  /** The rendering of an amount reads back as the same number, without a leading zero. */
  lemma {:induction false} DecimalRoundTrip(n: nat)
    ensures var s := NatToDecimal(n);
      && |s| >= 1
      && (forall i :: 0 <= i < |s| ==> IsDigit(s[i]))
      && (|s| > 1 ==> s[0] != '0')
      && DecimalValue(s) == n
    decreases n
  {
    if n >= 10 {
      DecimalRoundTrip(n / 10);
      var s := NatToDecimal(n);
      assert s[..|s| - 1] == NatToDecimal(n / 10);
    }
  }

  /** `f"{ingredient.name}: {amount}, {ingredient.measurement_unit}"`. */
  function FormatLine(ingredient: Ingredient, amount: int): string {
    ingredient.name + ": " + IntToString(amount) + ", " + ingredient.measurementUnit
  }

  /** One line per aggregated row, in the order of the rows. */
  function Lines(g: seq<Entry>, ingredients: map<IngredientId, Ingredient>): (r: seq<string>)
    requires forall e :: e in g ==> e.ingredient in ingredients
  {
    seq(|g|, k requires 0 <= k < |g| => FormatLine(ingredients[g[k].ingredient], g[k].amount))
  }

  /** `"\n".join(lines)`. */
  function JoinLines(lines: seq<string>): string {
    if lines == [] then "" else if |lines| == 1 then lines[0] else lines[0] + "\n" + JoinLines(lines[1..])
  }

  /** The index of the first newline of `s`, or `|s|` when there is none. */
  function NewlineIndex(s: string): (r: nat)
    ensures r <= |s|
    ensures r < |s| ==> s[r] == '\n'
    ensures forall i :: 0 <= i < r ==> s[i] != '\n'
  {
    if s == [] then 0 else if s[0] == '\n' then 0 else 1 + NewlineIndex(s[1..])
  }

  /** `s.split("\n")`. */
  function SplitLines(s: string): (r: seq<string>)
    ensures |r| >= 1
    decreases |s|
  {
    var i := NewlineIndex(s);
    if i == |s| then [s] else [s[..i]] + SplitLines(s[i + 1..])
  }

  predicate NoNewline(s: string) {
    forall i :: 0 <= i < |s| ==> s[i] != '\n'
  }

  /** The first newline after a line without one is the separator that follows it. */
  lemma {:induction false} NewlineIndexAfter(line: string, rest: string)
    requires NoNewline(line)
    ensures NewlineIndex(line + "\n" + rest) == |line|
  {
    if line != [] {
      assert (line + "\n" + rest)[1..] == line[1..] + "\n" + rest;
      NewlineIndexAfter(line[1..], rest);
    }
  }

  /** Splitting the file at newlines gives back its lines, provided no line holds a newline. */
  lemma {:induction false} SplitJoin(lines: seq<string>)
    requires |lines| >= 1
    requires forall k :: 0 <= k < |lines| ==> NoNewline(lines[k])
    ensures SplitLines(JoinLines(lines)) == lines
  {
    var first := lines[0];
    if |lines| == 1 {
      assert NewlineIndex(first) == |first|;
    } else {
      var rest := JoinLines(lines[1..]);
      var s := first + "\n" + rest;
      assert forall i :: 0 <= i < |first| ==> s[i] == first[i];
      NewlineIndexAfter(first, rest);
      assert s[..|first|] == first;
      assert s[|first| + 1..] == rest;
      SplitJoin(lines[1..]);
    }
  }

  /** The whole file: the header, then one line per listed ingredient. */
  function Render(g: seq<Entry>, ingredients: map<IngredientId, Ingredient>): string
    requires forall e :: e in g ==> e.ingredient in ingredients
  {
    JoinLines([Header] + Lines(g, ingredients))
  }

  /** A rendered amount holds no newline. */
  lemma IntToStringNoNewline(n: int)
    ensures NoNewline(IntToString(n))
  {
    DecimalRoundTrip(if n < 0 then -n else n);
  }

  /**
   * When no ingredient name or unit holds a newline, the file reads back as the header
   * followed by exactly one line per listed ingredient.
   */
  lemma RenderReadsBack(g: seq<Entry>, ingredients: map<IngredientId, Ingredient>)
    requires forall e :: e in g ==> e.ingredient in ingredients
    requires forall id :: id in ingredients ==>
      NoNewline(ingredients[id].name) && NoNewline(ingredients[id].measurementUnit)
    ensures SplitLines(Render(g, ingredients)) == [Header] + Lines(g, ingredients)
    ensures |SplitLines(Render(g, ingredients))| == 1 + |g|
  {
    var lines := [Header] + Lines(g, ingredients);
    forall k | 0 <= k < |lines| ensures NoNewline(lines[k]) {
      if k > 0 {
        var e := g[k - 1];
        var ing := ingredients[e.ingredient];
        IntToStringNoNewline(e.amount);
        assert lines[k] == ing.name + ": " + IntToString(e.amount) + ", " + ing.measurementUnit;
      }
    }
    SplitJoin(lines);
  }
}
