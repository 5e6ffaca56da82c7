# Foodgram backend: a Dafny model of its logic

Foodgram is a recipe-sharing web backend. Users publish recipes built from tags and ingredients. They can also subscribe to authors, mark recipes as favourites, put recipes in a shopping cart, and download a shopping list for the cart. Most of the backend is declarations for the web framework and its ORM. This project models the logic beneath those declarations:

- `Models` (`models.dfy`) holds the tables as in-memory relations. Users, tags, ingredients and recipes are maps from primary key to record. `IngredientRecipe` is a sequence of `(ingredient, recipe, amount)` rows. `Subscription`, `Favorite` and `Cart` are sets of pairs. The constraints the model classes declare become the predicate `Consistent`, which also covers referential integrity. The database is the class `Database`, whose fields the views and serializers update in place.
- `Serializers` (`serializers.dfy`) has the recipe payload validator and the subscription validator. It also has the `recipes_limit` slice and the writes done by recipe `create` and `update`: they delete the recipe's ingredient rows, bulk-insert new rows and reset the tags.
- `Views` (`views.dfy`) has the subscribe action, the shared add and delete actions for favourites and the cart, and the shopping-list download.
- `ShoppingList` (`shopping_list.dfy`) has the group-by-sum over the cart's ingredient rows, the rendering of amounts and the layout of the text file.
- `Filters`, `Permissions`, `Forms` and `Validators` hold the favourite and cart filters, the two object permissions, the formset check that a recipe has at least one ingredient, and the reserved-username check.
- `Types` holds identifiers, `Option`/`Result` and the `len(set(s)) == len(s)` fact.

Every state-changing action is shown to preserve `Consistent`. This covers subscribe, add, delete, create and update. The preserved facts are: no self-subscription, cooking time and amounts of at least 1, unique `(ingredient, recipe)` rows, hex tag colours, and unique users, tags and ingredients.

Where the code and its documentation differ, the model follows the code:
- `add_method` catches every exception, so an unknown recipe gives 400 rather than 404. `delete_method` gives 404.
- The subscription validator's "already subscribed" message says "already unsubscribed". Only the rejection is modelled, not the wording.
- `AnonimOrAuthenticatedReadOnly` tests "anonymous or authenticated", which is true of every user. So only the HTTP method and the staff flags decide the result (`AnonimOrAuthenticatedReadOnlyExactly`).
- `backend/foodgram/models.py:9` imports `FIELD_VALIDATOR`, which `validators.py` does not define. `backend/api/views.py:10` imports `IsAuthorOrReadOnly`, but the permission class is named `IsAdminAuthorOrReadOnly`. The model covers what is actually defined. `FIELD_VALIDATOR` is not part of this model.

## Model

| member | source | states |
|---|---|---|
| `Validators.ValidateUsername` | backend/foodgram/validators.py:4-11 | the value is rejected exactly when it equals "me"; the result is a verdict, never a transformed value |
| `Validators.CaseVariantsAccepted` | backend/foodgram/validators.py:10-11 | the comparison is exact: "Me", "ME", "mE" and " me" are accepted |
| `Forms.SelectedIngredients` | backend/foodgram/forms.py:7-11 | the comprehension keeps exactly the ingredients of the forms that have one, and never has more entries than there are forms |
| `Forms.CleanFormSet` | backend/foodgram/forms.py:5-13 | the formset passes exactly when at least one form names an ingredient |
| `Forms.SelectedIngredientsAppend` | backend/foodgram/forms.py:7-11 | the collected ingredients of two form lists placed end to end are the two collections concatenated |
| `Forms.BlankFormIrrelevant` | backend/foodgram/forms.py:7-13 | inserting a blank form anywhere changes neither the collected ingredients nor the outcome |
| `Forms.AllBlankRejected` | backend/foodgram/forms.py:12-13 | no forms, or only blank forms, fail with the "at least one ingredient" error |
| `Permissions.IsAdminAuthorOrReadOnly` | backend/api/permissions.py:10-15 | safe methods are always allowed; a superuser or the object's author is allowed everything; nothing else is allowed |
| `Permissions.UnsafeDeniedToOthers` | backend/api/permissions.py:10-15 | an unsafe method is denied to a user, anonymous or not, who is neither superuser nor the object's author |
| `Permissions.AnonimOrAuthenticatedReadOnly` | backend/api/permissions.py:24-33 | safe methods are allowed to anonymous and signed-in users alike; superusers and staff are allowed everything |
| `Permissions.AnonimOrAuthenticatedReadOnlyExactly` | backend/api/permissions.py:25-33 | the permission holds exactly for a safe method, a superuser or a staff member |
| `Permissions.UnsafeDeniedToNonStaff` | backend/api/permissions.py:24-33 | an unsafe method is denied to users who are neither staff nor superuser |
| `Filters.KeepRelated` | backend/api/filters.py:28 | a recipe is kept exactly when it is in the input and the user has a row for it in the pair table; a kept recipe occurs as often as in the input, any other not at all |
| `Filters.FilterIsFavorited` | backend/api/filters.py:23-29 | with `is_favorited` true and a signed-in user, the result is exactly the input recipes the user has favourited; otherwise the input is returned unchanged; always a subset of the input |
| `Filters.FilterIsInShoppingCart` | backend/api/filters.py:31-37 | with `is_in_shopping_cart` true and a signed-in user, the result is exactly the input recipes in the user's cart; otherwise the input is returned unchanged; always a subset of the input |
| `Filters.KeepRelatedOnlyOwnRows` | backend/api/filters.py:35-36 | rows of other users in the favourite or cart table do not change the filtered list |
| `Filters.KeepRelatedIdempotent` | backend/api/filters.py:36 | applying the filter a second time changes nothing |
| `Models.EmailIdentifiesUser` | backend/foodgram/models.py:22-47 | on consistent tables the login email identifies at most one user, because `email` is unique |
| `Models.HexColourExamples` | backend/foodgram/models.py:76-82 | the colour pattern accepts a bare '#' and hex digits of either case; it rejects a missing '#' and non-hex letters; as with Python's `$`, one trailing newline is accepted and a second is not |
| `Types.ToSetCardinality` | backend/api/serializers.py:210-218 | `len(set(s)) == len(s)` holds exactly when `s` has no repeated element, and never exceeds `len(s)` |
| `Serializers.ValidateRecipe` | backend/api/serializers.py:198-225 | a payload is accepted exactly when it has at least one tag and one ingredient, cooking time at least 1, no repeated tag or ingredient, and every amount present and at least 1; an accepted payload is returned unchanged; a missing or empty tag list gives the tag error |
| `Serializers.ValidateRecipeRejects` | backend/api/serializers.py:199-223 | each condition alone is refused: missing or empty tags, missing or empty ingredients, missing or short cooking time, repeated tags, repeated ingredients, a missing or small amount |
| `Serializers.ValidateSubscription` | backend/api/serializers.py:49-64 | subscribing to oneself is refused; an existing (user, author) pair is refused; otherwise the pair is returned unchanged |
| `Serializers.AcceptedSubscriptionIsNew` | backend/api/serializers.py:53-64 | storing an accepted subscription keeps the no-self-subscription constraint and adds a pair that was not stored |
| `Serializers.GetRecipes` | backend/api/serializers.py:109-116 | the result is a prefix of the author's recipes: all of them without a limit, and at most `recipes_limit` of them with one |
| `Serializers.RowsWithout` | backend/api/serializers.py:249 | after the delete, exactly the rows of other recipes remain |
| `Serializers.RowsWithoutCounts` | backend/api/serializers.py:249 | each row of another recipe remains as often as it occurred; no row of the recipe remains |
| `Serializers.RowsWithoutUnique` | backend/api/serializers.py:249 | the delete keeps the (ingredient, recipe) pairs of the remaining rows unique |
| `Serializers.ReplaceIngredientsConsistent` | backend/api/serializers.py:246-252 | replacing a recipe's rows with those of an accepted payload keeps every table constraint, including unique (ingredient, recipe) pairs and amounts of at least 1 |
| `Serializers.GetIngredients` | backend/api/serializers.py:227-235 | appends exactly one row per entry, in entry order, with the entry's ingredient and amount; no other table changes |
| `Serializers.Create` | backend/api/serializers.py:237-244 | stores a new recipe with a fresh id, the requester as author and the payload's tags; appends one row per entry; the tables stay consistent |
| `Serializers.Update` | backend/api/serializers.py:246-252 | the recipe's rows are exactly one per submitted entry; old rows of that recipe are gone; rows of other recipes are untouched; tags and cooking time are replaced; name and text change only when given; the tables stay consistent |
| `ShoppingList.CartRecipeIds` | backend/api/views.py:189-190 | a recipe id is collected exactly when the user has it in their cart |
| `ShoppingList.RowsOfRecipes` | backend/api/views.py:192 | keeps exactly the rows whose recipe is in the given set, without adding any |
| `ShoppingList.RowsOfRecipesCounts` | backend/api/views.py:192 | each row of a chosen recipe is kept as often as it occurred; no other row is kept |
| `ShoppingList.ShoppingRowsExactly` | backend/api/views.py:189-192 | a row feeds the list exactly when its recipe is in this user's cart |
| `ShoppingList.OtherCartsIrrelevant` | backend/api/views.py:189-192 | other users' cart rows do not change this user's rows |
| `ShoppingList.SumForPermutation` | backend/api/views.py:194 | the sum for an ingredient does not depend on the order of the rows |
| `ShoppingList.GroupDistinct` | backend/api/views.py:191-195 | each ingredient appears on at most one line |
| `ShoppingList.GroupSums` | backend/api/views.py:191-195 | the amount listed for each ingredient is the sum of its rows' amounts |
| `ShoppingList.GroupListsMentioned` | backend/api/views.py:191-195 | an ingredient is listed exactly when some row names it |
| `ShoppingList.GroupTotal` | backend/api/views.py:191-195 | the listed amounts add up to the total of all the rows |
| `ShoppingList.GroupEntries` | backend/api/views.py:191-195 | a line (k, a) is listed exactly when some row names k and a is the sum for k |
| `ShoppingList.GroupOrderIndependent` | backend/api/views.py:191-195 | two orderings of the same rows give the same set of lines |
| `ShoppingList.GroupKeysStored` | backend/api/views.py:199-200 | every listed ingredient is named by a row, so its lookup succeeds when rows refer to stored ingredients |
| `ShoppingList.DecimalRoundTrip` | backend/api/views.py:203 | a rendered amount is a non-empty run of decimal digits, without a leading zero, that reads back as the same number |
| `ShoppingList.SplitJoin` | backend/api/views.py:206 | splitting the joined text at newlines gives back the lines, provided no line holds a newline |
| `ShoppingList.RenderReadsBack` | backend/api/views.py:196-206 | the file reads back as the header "Список покупок:" followed by exactly one "name: amount, unit" line per listed ingredient, when no name or unit holds a newline |
| `Views.Subscribe` | backend/api/views.py:63-103 | unknown author: 404. Self: 400, whatever the verb. POST: 400 if the pair exists, else 201 and exactly that pair is added. DELETE: 400 if the pair is absent, else 204 and exactly that pair is removed. Other verbs: 405. Only the subscription table can change, and the tables stay consistent |
| `Views.AddMethod` | backend/api/views.py:120-136 | unknown recipe or existing pair: 400 and nothing changes. Otherwise 201, exactly that (user, recipe) pair is added, and the tables stay consistent |
| `Views.DeleteMethod` | backend/api/views.py:138-148 | unknown recipe: 404 and nothing changes. Present pair: 204 and exactly that pair is removed. Absent pair: 400 and nothing changes. The tables stay consistent |
| `Views.SubscribeThenUnsubscribe` | backend/api/views.py:74-101 | a successful POST followed by a DELETE on the same author answers 201 then 204 and restores every table |
| `Views.AddThenDelete` | backend/api/views.py:120-148 | adding a recipe the user did not have and then deleting it answers 201 then 204 and restores every table |
| `Views.ListRecipe` | backend/api/views.py:196-205 | the header followed by one formatted line per aggregated row, in row order |
| `Views.DownloadShoppingCart` | backend/api/views.py:187-206 | the file text is the rendering of the grouped rows of the user's cart recipes; every listed ingredient is stored |
| `Views.ShoppingEntriesSums` | backend/api/views.py:189-195 | a line is listed exactly when its ingredient occurs in the cart's rows, with the sum of those rows' amounts; on valid rows every listed amount is at least 1 |
| `Views.ShoppingTotal` | backend/api/views.py:191-196 | the listed amounts add up to the total amount of every row of every recipe in the cart |

## Left out

- HTTP plumbing is not modelled: response bodies and messages, the `Content-Disposition` header, pagination and routing. Each action returns only its numeric status, and the download returns only the file text.
- Framework authentication and permission dispatch are not modelled. Actions that require a signed-in user take that user's existing id. The view-level `has_permission` checks and `get_permissions` are not part of this model.
- ORM internals are reduced to set and sequence updates. This covers queryset laziness, `bulk_create` batching, transactions and cascade deletes. No deletion of users, recipes or ingredients is modelled, so cascades never arise.
- `add_method` turns every exception into 400. The model has two failures there: an unknown recipe and an existing pair. Database errors such as a lost race on the unique constraint are not modelled, since concurrency is not modelled.
- Serializer output shaping is not modelled: `to_representation`, `UserSerializer`, `TagSerializer`, `ShortInfoRecipeSerializer`, `get_is_subscribed`, `get_is_favorited`, `get_is_in_shopping_cart` and `recipes_count`.
- `Base64ImageField` and the recipe image are not modelled; they are a foreign library and file storage.
- `Serializers.GetRecipes` does not model a negative or non-numeric `recipes_limit`. The `int()` parse and the queryset's negative slicing live in libraries. An empty parameter is treated like an absent one.
- The field-level checks that run before `validate` are not modelled: `UnicodeUsernameValidator`, `max_length` (the constants module is not part of this model), `FIELD_VALIDATOR`, the related-field lookups and `UniqueTogetherValidator`. `Serializers.Create` and `Serializers.Update` require their outcome instead: every tag and ingredient named by the payload is stored.
- `Serializers.GetIngredients` stores a missing amount as 0, where the database would refuse a NULL amount. Validation refuses such payloads before this point.
- The DRF `SearchFilter` on ingredient names, the CSV ingredient loader and the admin registrations are not modelled; they are library matching, file I/O and UI.
- The shopping-list query has no ordering, so the model lists ingredients in order of first appearance. Every property about the list is stated without reference to that order: lookup per ingredient, distinct lines, totals, and invariance under reordering of the rows.
- `Views.DownloadShoppingCart` requires only that every row names a stored ingredient. That is the condition under which `Ingredient.objects.get` succeeds.
- The tables of a `Database` are built by its constructor from given users, tags and ingredients. Sign-up and the admin site, which create those rows, are not part of this model.
