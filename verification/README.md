# Foodgram backend core in Dafny

This project models the core of the foodgram recipe backend, a Django REST service. Users
publish recipes, mark other people's recipes as favourites, put recipes in a shopping cart,
subscribe to authors, and download a shopping list that adds up the ingredients of every
recipe in their cart.

The model covers these parts:

- **Shopping list.** Both aggregations are modelled (module `ShoppingList`):
  - the per-recipe loop of `recipes/utilities.py`, which sums amounts per ingredient in an
    insertion-ordered dict and then re-keys that dict by ingredient name;
  - the `recipe__in` / `values` / `Sum` grouping of `api/utilities.py`.

  Also modelled is the text and position of every entry line of the PDF (module `Layout`).
- **Toggles.** The favourite, shopping-cart and subscribe toggles are modelled, with their
  201 / 204 / 400 / 404 answers (module `Toggles`).
- **Read-side filters.** These are the `is_favorited` / `is_in_shopping_cart` flags of the
  recipe list, the ingredient name search and the tag filter (module `Queries`).
- **Serializer validators** (module `Validators`).
- **Recipe writes.** These are create and update together with the ingredient rows they
  write (module `RecipeWrite`).
- **The base64 image field** (module `ImageField`).
- **Computed serializer fields.** These are `recipes`, `recipes_count`, `is_favorited`,
  `is_in_shopping_cart` and `is_subscribed` (module `Fields`).
- **Permission classes** (module `Permissions`).

Supporting modules:

- `Wrappers`: `Option` and `Result`.
- `Text`: decimal rendering and parsing, prefixes, `split` and `join`.
- `Seqs`: subsequences and filters.
- `OrderedDict`: a Python dict as its keys in insertion order plus a map, with the
  accumulation and comprehension folds and independent reference definitions.
- `Domain`: the table rows.

Several files of the repository exist twice, once under `api/` and once under `recipes/` or
`users/`. Where the two copies behave the same, one definition models both, and the table
below cites both. Where they differ, each copy has its own member, and a lemma states how
they differ:

- the shopping-list aggregation;
- `validate_amount`;
- `validate_ingredients`.

The two `subscribe` copies differ only in testing `follow.exists()` versus the truth value
of the queryset, so one member, `Toggles.Subscribe`, models both.

A queryset is modelled as the sequence of its rows in table order. A database row is
modelled by its primary key and the fields the core reads. The requesting user is `None`
when anonymous.

## Model

| member | source | states |
|---|---|---|
| ShoppingList.Format | backend/recipes/utilities.py:26 | A rendered `'%s %s'` total reads back: the first space comes right after the amount's digits, the text before it parses to the amount, and the text after it is the unit (the same rendering as backend/api/utilities.py:23-27). |
| ShoppingList.CreateShoppingList | backend/recipes/utilities.py:13-30 | The list has one entry for each name of an ingredient used by a line of a cart recipe, and no other entries. |
| ShoppingList.AccumulateTotals | backend/recipes/utilities.py:16-23 | The intermediate dict holds exactly the ingredients the cart recipes use, in order of first use. Each holds the sum, over every cart entry, of what that entry's recipe needs of it (`CartShare`). |
| ShoppingList.AccumulateConserves | backend/recipes/utilities.py:16-23 | The accumulated amounts add up to the total amount of all visited lines. |
| ShoppingList.AccumulatePositive | backend/recipes/utilities.py:16-23 | If every stored line has a positive amount, every accumulated total is positive. |
| ShoppingList.AccumulateCountsRepeats | backend/recipes/utilities.py:16-17 | A recipe listed twice in the cart contributes each of its amounts twice. |
| ShoppingList.AccumulateKnown | backend/recipes/utilities.py:16-23 | Every accumulated ingredient comes from a stored line, so the re-keying can look up its name and unit. |
| ShoppingList.ShoppingListByName | backend/recipes/utilities.py:13-30 | The result is keyed by ingredient name, in order of each name's first use, and holds exactly the names used. Each name holds the rendered total of the last ingredient carrying that name. |
| ShoppingList.EmptyCartShoppingList | backend/recipes/utilities.py:13-30 | An empty cart gives an empty list. |
| ShoppingList.EmptyRecipeContributesNothing | backend/recipes/utilities.py:16-23 | Removing a cart recipe that has no lines leaves the list unchanged. |
| ShoppingList.SameCartLinesSameList | backend/recipes/utilities.py:16-23 | Two carts whose recipes give the same visited lines give the same list. |
| ShoppingList.SameNameKeepsLaterTotal | backend/recipes/utilities.py:25-28 | Two ingredients called "salt", in g and in kg, collapse to one entry showing only the kg total. |
| ShoppingList.AccumulatedNames | backend/recipes/utilities.py:16-28 | The names being re-keyed are exactly the names of the visited lines. |
| ShoppingList.AddLines | backend/recipes/utilities.py:18-23 | The inner loop over one recipe's lines extends the accumulation exactly by those lines. |
| ShoppingList.AccumulateLoop | backend/recipes/utilities.py:16-23 | The nested loops compute the accumulated dict, and each ingredient holds its `CartShare`. |
| ShoppingList.ReKeyLoop | backend/recipes/utilities.py:25-28 | The comprehension run as a loop gives the last-write-wins dict, keyed by exactly the accumulated names. |
| ShoppingList.BuildShoppingList | backend/recipes/utilities.py:13-30 | The whole function run as loops equals `CreateShoppingList`, and its keys are exactly the names of the cart lines. |
| ShoppingList.GroupTotals | backend/api/utilities.py:16-20 | The cart lines are exactly the stored lines whose recipe is in the cart. The groups are the distinct (name, unit) pairs of those lines, in order of first occurrence, and each group holds the sum of its lines' amounts. |
| ShoppingList.GroupedCartIsASet | backend/api/utilities.py:17 | Carts that contain the same recipes give the same list, whatever the order or repetition. |
| ShoppingList.GroupedIgnoresRepeats | backend/api/utilities.py:17 | Listing a cart recipe again changes nothing, unlike in `ShoppingList.AccumulateCountsRepeats`. |
| ShoppingList.CreateGroupedShoppingList | backend/api/utilities.py:15-31 | The list has one entry for each name of an ingredient of a line whose recipe is in the cart, and no other entries. |
| ShoppingList.GroupedByName | backend/api/utilities.py:15-31 | The result is keyed by exactly the names of the cart lines, in order of first occurrence. A name shared by several units holds the total of the last such group, rendered with that group's unit. |
| ShoppingList.GroupedSingleUnit | backend/api/utilities.py:22-29 | When every cart line with a given name uses one unit, that name's entry is the sum of those lines rendered with that unit. |
| ShoppingList.EmptyCartGroupedShoppingList | backend/api/utilities.py:15-31 | An empty cart gives an empty list. |
| Layout.EntryLine | backend/recipes/utilities.py:49-52 | An entry is padded with dots to 70 characters when its fixed parts fit. Otherwise no dots are added. It starts with `"<count>. <name> "` and ends with `" <amount>"`. |
| Layout.EntryLineParts | backend/api/utilities.py:51-54 | An entry reads back as its parts: the leading digits parse to the entry number, followed by `". "`, the name, a space, a run of dots only, a space, and the amount. |
| Layout.Entry | backend/recipes/utilities.py:44-54 | Entry i is drawn at x 80 and y 700 − 25·i, numbered i + 1, with the capitalised key and its value. |
| Layout.LayoutEntries | backend/api/utilities.py:46-56 | The loop makes one draw per list entry, in dict order, and each draw is `Entry(i)`. |
| Toggles.AddOrRemove | backend/api/views.py:89-107 | The answer is 400 exactly when POST finds the pair or DELETE misses it. A 201 adds the pair and a 204 removes it. Afterwards the pair is present exactly when the verb was POST, and no other pair changes. |
| Toggles.ToggleRoundTrip | backend/api/views.py:89-107 | A successful POST is undone by a DELETE, and a successful DELETE is undone by a POST. |
| Toggles.ToggleTwiceFails | backend/recipes/views.py:65-84 | Repeating the same toggle is answered 400 the second time. |
| Toggles.Favorite | backend/api/views.py:114-117 | 404 exactly for an unknown recipe. Otherwise the answer and the resulting favourites are exactly those of the toggle of `(user, recipe)` on the favourites. Only the favourites change, and other users' marks stay the same. |
| Toggles.ShoppingCart | backend/recipes/views.py:91-110 | The same on the cart: 404 for an unknown recipe, otherwise the answer and the resulting cart are exactly those of the toggle, only the cart changes, and other users' marks stay the same. |
| Toggles.Subscribe | backend/api/views.py:173-197 | 404 for an unknown target. POST gives 400 for a self-subscription or an existing follow, DELETE gives 400 for a missing one. 201 comes only from POST and adds exactly `Follow(user = target, following = follower)`. 204 comes only from DELETE and removes it. |
| Toggles.SubscribeKeepsNoSelfFollow | backend/users/views.py:53-58 | Subscribing never stores a user following themselves. |
| Toggles.NoSubscribingToSelf | backend/api/views.py:177-182 | Subscribing to oneself never succeeds. |
| Toggles.SubscribeRoundTrip | backend/users/views.py:49-73 | A successful subscription is undone by unsubscribing. |
| Queries.ApplyFlag | backend/api/views.py:73-78 | A text that `int()` rejects fails. An absent or empty flag keeps every row. Otherwise a row is kept exactly when the flag admits it (nonzero keeps marked rows, zero keeps unmarked ones), and table order is kept. |
| Queries.RecipeQueryset | backend/api/views.py:65-87 | Fails exactly when either flag is not an integer. Otherwise a row is in the result exactly when both flags admit it, and table order is kept. |
| Queries.FlagsCommute | backend/api/views.py:65-87 | Applying the two flags in either order gives the same rows. |
| Queries.FlagAsFilter | backend/api/views.py:73-85 | A flag that parses is a plain filter by whether the flag admits the row. |
| Queries.IngredientSearch | backend/api/views.py:45-51 | With a non-empty `name`, the result is exactly the ingredients whose folded name starts with the folded, decoded parameter. Otherwise every ingredient is returned. Table order is kept. |
| Queries.SearchNarrows | backend/api/views.py:48-50 | Extending the search text can only narrow the result. |
| Queries.JoinRows | backend/api/filters.py:22 | The joined rows are exactly the recipes with at least one tag whose slug is requested. |
| Queries.FilterTags | backend/api/filters.py:20-22 | The result has no repeats, holds exactly the recipes with a requested tag, and keeps the order of first appearance in the join. |
| Queries.FilterTagsIgnoresValue | backend/api/filters.py:20-22 | The result depends only on the `tags` query parameters, never on the `value` the filter set passes in. |
| Validators.ValidateAmount | backend/api/serializers.py:42-47 | An amount is accepted exactly when it is at least 1, and is then returned unchanged. |
| Validators.LenientValidateAmount | backend/recipes/serializers.py:24-27 | Every amount is returned unchanged, because the error is never raised. |
| Validators.LenientAcceptsNonPositive | backend/recipes/serializers.py:24-27 | The two `validate_amount`s disagree exactly on amounts ≤ 0. Amount 0 is the witness. |
| Validators.ValidatorsAgreeOnPositive | backend/recipes/serializers.py:24-27 | On positive amounts the two validators agree. |
| Validators.ValidateCookingTime | backend/api/serializers.py:90-95 | A cooking time is accepted exactly when it is at least 1, and is then returned unchanged (likewise backend/recipes/serializers.py:85-90). |
| Validators.CookingTimeRuleIsAmountRule | backend/api/serializers.py:90-95 | The guard `cooking_time < 1` and the `amount <= 0` of lines 42-47 enforce the same rule, and an accepted cooking time is accepted again unchanged. |
| Validators.ElementsCard | backend/api/serializers.py:109 | `len(ids) == len(set(ids))` holds exactly when no id repeats. |
| Validators.ValidateIngredients | backend/api/serializers.py:104-113 | Fails exactly when two submitted items share an ingredient id, and otherwise returns the items. |
| Validators.ValidateIngredientsExist | backend/recipes/serializers.py:99-102 | Fails with 404 exactly when some submitted id is not in the catalogue, and otherwise returns the items. |
| Validators.ExistenceCheckAllowsRepeats | backend/recipes/serializers.py:99-102 | A repeated existing ingredient passes this check but fails the other `validate_ingredients`. |
| RecipeWrite.Rows | backend/api/serializers.py:115-127 | One line per submitted item, in order, carrying the recipe, the ingredient id and the amount. |
| RecipeWrite.RowsReadBack | backend/api/serializers.py:115-127 | The written rows all belong to the recipe and read back as the submitted ids and amounts. |
| RecipeWrite.CreateRecipeIngredients | backend/api/serializers.py:115-127 | The loop builds exactly those rows. |
| RecipeWrite.ValidateAmounts | backend/api/serializers.py:42-47 | Every item passes `validate_amount` exactly when this succeeds, and then every amount is at least 1. |
| RecipeWrite.CreateKeepsAmountsPositive | backend/api/serializers.py:144-154 | Creating from validated items keeps every stored amount positive. |
| RecipeWrite.UpdateKeepsAmountsPositive | backend/api/serializers.py:129-142 | Updating with validated items keeps every stored amount positive. |
| RecipeWrite.KeepOr | backend/recipes/serializers.py:107-112 | `validated_data.get(field, current)`: the submitted value if present, else the current one. |
| RecipeWrite.Update | backend/recipes/serializers.py:104-129 | Fails exactly when the ingredients or the tags are missing. Otherwise only this recipe changes: its id and author stay, its scalar fields take the submitted or old value, and its tags become the submitted set. |
| RecipeWrite.UpdateReplacesLines | backend/api/serializers.py:139-140 | After an update the recipe's lines are exactly the submitted ones, in order, and every other recipe's lines are unchanged. |
| RecipeWrite.UpdateIdempotent | backend/api/serializers.py:129-142 | Updating twice with the same data equals updating once. |
| RecipeWrite.Create | backend/api/serializers.py:144-154 | Adds one new recipe with the submitted fields, the author and the tag set. Existing recipes and lines are kept, and one line is appended per item. |
| RecipeWrite.CreateLines | backend/recipes/serializers.py:131-146 | The new recipe's lines are exactly the submitted ones, and no other recipe gains a line. |
| ImageField.Extension | backend/recipes/serializers.py:34 | The extension is the text after the last `/` of the header, or the whole header when it has no `/`: a suffix containing no `/`, preceded by `/` unless it is the whole header. |
| ImageField.ToInternalValue | backend/recipes/serializers.py:31-38 | A non-string, or a string not starting with `data:image`, passes through unchanged. Otherwise the call fails exactly when `;base64,` does not cut the text into two parts. On success the result is the payload after the marker, in a file named `temp.<extension of the header>`. |
| ImageField.SplitAtFirst | backend/recipes/serializers.py:33 | Splitting at `;base64,` cuts at its first occurrence. |
| ImageField.DataUrlRoundTrip | backend/recipes/serializers.py:31-38 | A data URL assembled from a header and a payload is taken apart into exactly that payload, named after the header's extension. |
| ImageField.TwoMarkersRefused | backend/recipes/serializers.py:33 | A data URL containing `;base64,` twice fails to unpack. |
| ImageField.TwoPayloadsRefused | backend/recipes/serializers.py:33 | The concrete URL `data:image/png;base64,a;base64,b` fails to unpack. |
| ImageField.PngExtension | backend/recipes/serializers.py:34 | The header `data:image/png` gives the extension `png`. |
| Fields.AuthorRecipes | backend/users/serializers.py:70 | The author's recipes, in table order, and exactly those. |
| Fields.GetRecipes | backend/api/serializers.py:225-233 | Without a truthy `recipes_limit`, every recipe of the author. A non-integer limit fails, and so does a negative one. Otherwise the first min(limit, count) recipes. |
| Fields.GetRecipesCount | backend/users/serializers.py:61-62 | The count is 0 exactly when the author has no recipe. |
| Fields.CountMatchesRecipes | backend/api/serializers.py:222-233 | The count equals the length of the unlimited list and bounds every limited one. |
| Fields.LimitExtremes | backend/users/serializers.py:64-72 | A limit of at least the count shows everything, and a limit of 0 shows nothing. |
| Fields.IsFavorited | backend/api/serializers.py:156-160 | False for an anonymous viewer. Otherwise whether the viewer marked the recipe. |
| Fields.IsInShoppingCart | backend/api/serializers.py:162-166 | The same on the cart. |
| Fields.IsSubscribed | backend/users/serializers.py:31-35 | False for an anonymous viewer. Otherwise whether the viewer follows the author (same as backend/api/serializers.py:192-196). |
| Fields.FavoriteFlagFollowsToggle | backend/api/serializers.py:156-160 | After a favourite request on an existing recipe, the flag is set exactly when the request was POST. Other viewers' flags do not move. |
| Fields.CartFlagFollowsToggle | backend/api/serializers.py:162-166 | The same for the cart flag. |
| Fields.SubscribedFlagFollowsToggle | backend/api/serializers.py:192-196 | A 201 subscription shows as subscribed, a 204 unsubscription clears it, and a 400 POST to another user means already subscribed. |
| Permissions.RetrieveAuthenticatedOrReadOnly | backend/api/permissions.py:18-22 | For `retrieve` and `me`, allowed exactly when logged in. For any other action, allowed exactly for safe methods (same as backend/users/permissions.py:4-8). |
| Permissions.OwnerOrReadOnly | backend/api/permissions.py:28-35 | Safe methods are always allowed. Other methods are allowed exactly when logged in (same as backend/recipes/permissions.py:7-14). |
| Permissions.OwnerOrReadOnlyObject | backend/recipes/permissions.py:16-23 | Safe methods are always allowed. Other methods are allowed exactly for the object's author (same as backend/api/permissions.py:37-44). |
| Permissions.ReadOnly | backend/api/permissions.py:5-15 | POST, PUT, PATCH and DELETE are refused and every other method is allowed, whoever asks and whatever the object. |
| Permissions.ObjectPermissionIsStricter | backend/api/permissions.py:28-44 | Object permission implies view permission. A logged-in non-author may only read. |
| Permissions.ReadOnlyIsAnonymousAccess | backend/api/permissions.py:5-15 | Outside `retrieve` and `me`, `ReadOnly` allows exactly what every class allows an anonymous user. |
| Permissions.LoginIsMonotone | backend/api/permissions.py:18-44 | Logging in never takes a permission away. |
| Permissions.UsersPermissionCases | backend/users/permissions.py:4-8 | `retrieve` is refused to anonymous users, `me` is allowed to logged-in ones, `list` is readable by anyone, and writes outside `retrieve` and `me` are refused. |
| Seqs.FilterBoth | backend/api/views.py:76-85 | Filtering twice is filtering once by the conjunction. |
| Text.Split | backend/recipes/serializers.py:33-34 | `str.split(sep)`: the parts join back to the text, and none contains the separator. |
| Text.IntToStringRoundTrip | backend/recipes/utilities.py:26 | `str(n)` parses back to n. |
| OrderedDict.SumsValues | backend/recipes/utilities.py:20-23 | The accumulation fold gives each key the sum of its amounts. |
| OrderedDict.CollectSpec | backend/recipes/utilities.py:25-28 | A dict comprehension keeps the first position and the last value of a repeated key. |

## Left out

- Drawing the PDF is not modelled: the font registration, the title, `showPage`, `save`, the
  cache file and the `BytesIO` buffer. Only the text and position of each entry line are
  modelled.
- HTTP responses are reduced to their status. The response bodies (serialized recipes and
  users) and the `Content-Disposition` file name of `download_shopping_cart` are not
  modelled.
- ORM execution is not modelled; a queryset is a sequence in table order. The order of the
  groups `values(...).annotate(...)` returns is not defined by the database; the model uses
  order of first occurrence.
- `b64decode`, `ContentFile` and the image validation of the parent `ImageField` are library
  code. The payload is kept encoded.
- `unquote`, `str.capitalize` and the database's case-insensitive comparison are library
  code. They are function parameters, so the properties hold for any implementation.
- A recipe line whose ingredient is NULL is not modelled. The foreign key of
  backend/recipes/models.py:72-74 is `null=True` with `on_delete=SET_NULL`, so deleting an
  ingredient leaves such lines behind. Both `create_shopping_list`s fail on them:
  backend/recipes/utilities.py:26 reads `.name` of `None`, and backend/api/utilities.py
  produces a `None` key on which `capitalize` fails at line 52. The `Resolved` precondition
  requires every line to name a catalogue ingredient, which rules out NULL and dangling ids.
- `IsAuthenticated` on the toggle actions is not modelled. It answers 401 before the view
  runs, so the toggles take a logged-in user.
- `RecipeQueryset` takes a logged-in user. Filtering by an anonymous user is not modelled.
- The `get_queryset` copy in backend/recipes/views.py:36-58 is not modelled. Its lines 47
  and 49 filter on `favorite__user`, but the reverse relation of `Favorite.recipe` is named
  `favorites` (backend/api/models.py:11-13). Django therefore raises `FieldError` for every
  nonempty numeric `is_favorited`. `Queries.RecipeQueryset` follows backend/api/views.py:65-87,
  which uses `favorites__user`. The URL configuration (backend/backend/urls.py:5-12) routes
  only `api.urls`, so the `recipes` app's views and serializers are not reachable.
- The `subscriptions` list action is not modelled: it is pagination and ordering over the
  follows, with no logic of its own.
- Also not modelled: pagination, the `author` number filter of `RecipeFilter`, the
  `TagIDListField` lookup of tags by id, and `get_author`.
- Also not modelled: models, migrations, admin, URL configuration, the `writecsv` management
  command and the djoser user endpoints.
- `Fields.GetRecipes`: a negative slice is modelled as a failure (`NegativeSlice`), because
  Django querysets refuse negative indexing. The error text is not modelled.

## Findings

| source | as written | input that shows it | evidently intended | confidence | as-written member | corrected member |
|---|---|---|---|---|---|---|
| backend/recipes/serializers.py:24-27 | `validate_amount` builds a `ValidationError` but never raises it, so every amount is accepted | amount 0 passes `validate_amount` and can be saved; a negative amount passes it too but is then refused by the `PositiveIntegerField` check of backend/recipes/models.py:75 | refuse amounts ≤ 0, as `validate_amount` of backend/api/serializers.py:42-47 does | medium (not executed) | Validators.LenientAcceptsNonPositive | Validators.ValidateAmount |

This serializer is not reachable in this snapshot: the URL configuration
(backend/backend/urls.py:5-12) routes only `api.urls`, and its line 7 imports
`RecipeIngredient` from `api.models`, which does not define it. The finding is about the
code as written should that copy be wired in.

The corrected validator is the one the rest of the model uses. `RecipeWrite.ValidateAmounts`
applies it to every submitted item. `RecipeWrite.CreateKeepsAmountsPositive` and
`RecipeWrite.UpdateKeepsAmountsPositive` show that stored amounts then stay positive.
`ShoppingList.AccumulatePositive` shows that every shopping-list total is then positive.
