# Shopping list and recipe detail, modelled in Dafny

This project models the logic of a small React Native shopping-list app. The
model covers two screens.

**The shopping-list screen** (`src/screen/ShoppingApp.js`) holds an ordered
list of items. Each item has an id, a name, a price, a purchased flag, an
optional image URI and a category. Around the list sits an entry form: a name,
a price text, an image, the selected category and the item being edited, if
any. The handlers are:

- add/edit: validates the form, then either appends a new item or commits an
  edit to the items with the edited id, then clears the form;
- edit: loads an item into the form and enters edit mode;
- toggle purchased, remove, clear all;
- the text and picker setters.

Two views are derived from the list: the total still to pay (a left fold over
the unpurchased prices) and the list shown for the search text and category
filter.

**The recipe detail screen** (`src/screen/RecipeDetailScreen.js`) makes one
request for a recipe. It starts out loading. The request either returns meals,
returns no meals, or fails; in every case loading ends. The screen then shows
"not found" or the recipe. For a recipe it scans positions 1 to 20 and shows
one ingredient row for every position whose ingredient field is present and
not blank.

Files:

- `wrappers.dfy`: module `Wrappers`, the `Option` and `Result` types.
- `js_string.dfy`: module `JsString`, the string built-ins the screens use:
  `trim` (over the ECMAScript white-space and line-terminator characters),
  `toLowerCase` and `includes`.
- `js_array.dfy`: module `JsArray`, `filter` over sequences and its laws
  (keeps exactly the passing elements, keeps their order, distributes over
  concatenation, is idempotent).
- `shopping_app.dfy`: module `Shopping`, the item list transforms as functions
  with lemmas, and the class `ShoppingApp`, whose fields are the screen's state
  and whose methods are its handlers.
- `recipe_detail.dfy`: module `RecipeDetail`, the ingredient scan (a loop
  proved against a specification function), the fetch outcome, and the class
  `RecipeDetailScreen` with the loading and recipe state.

`ShoppingApp.Valid()` is the invariant every handler keeps:

- every item has a non-blank name, a positive price and one of the four
  categories;
- the pickers hold values they offer;
- an image is only ever in the form while an item is being edited.

Because of the last point, every item appended in add mode has no image.

Facts about the code that the model keeps:

- Ids come from `Date.now()` (src/screen/ShoppingApp.js:60) and may repeat.
  The model does not assume unique ids, so two items, even two equal items,
  can share an id.
- `removeItem` drops every item with the id (src/screen/ShoppingApp.js:81) and
  keeps every copy of every other item. The length stays the same exactly when
  no item has the id.
- A failed request only logs the error (src/screen/RecipeDetailScreen.js:22-23),
  so the recipe keeps its prior value, which is null on mount. A single visit
  that fails therefore shows "not found".
- A null `meals` and an empty `meals` array both lead to "not found"
  (src/screen/RecipeDetailScreen.js:17-20 and :33): the first sets the recipe
  to null, and the second sets it to `meals[0]`, which is undefined.

## Model

| member | source | states |
|---|---|---|
| `JsString.Trim` | src/screen/ShoppingApp.js:48 | The trimmed string is empty exactly when every character of the input is white space; a non-empty result starts and ends with a non-white-space character. |
| `JsString.TrimLayout` | src/screen/RecipeDetailScreen.js:41 | The trimmed string is the part of the input between a blank prefix and a blank suffix. |
| `JsString.ToLowerCase` | src/screen/ShoppingApp.js:91 | The lower-cased string has the input's length and no ASCII capital; each ASCII capital becomes its small letter and every other character is kept. |
| `JsString.Includes` | src/screen/ShoppingApp.js:91 | A string includes `sub` when `sub` occurs at some offset, so an included string is never longer than the string that includes it. |
| `JsString.IncludesEmpty` | src/screen/ShoppingApp.js:91 | Every string includes the empty string, so an empty search matches every name. |
| `JsArray.Filter` | src/screen/ShoppingApp.js:81 | `Array.prototype.filter`: the result is never longer than the input. Its other properties are the `Filter…` lemmas below. |
| `JsArray.FilterCount` | src/screen/ShoppingApp.js:81 | A filtered list keeps every copy of an element that passes and no copy of one that fails. |
| `JsArray.FilterMembers` | src/screen/ShoppingApp.js:81 | A filtered list holds exactly the elements of the input that pass the test. |
| `JsArray.FilterIsSubsequence` | src/screen/ShoppingApp.js:90-93 | A filtered list is a subsequence of its input: the kept elements stay in their relative order. |
| `JsArray.FilterAllPass` | src/screen/ShoppingApp.js:90-93 | When every element passes, the filtered list equals the input. |
| `JsArray.FilterKeepsLengthIff` | src/screen/ShoppingApp.js:81 | A filter keeps the full length if and only if every element passes. |
| `JsArray.FilterIdempotent` | src/screen/ShoppingApp.js:81 | Filtering twice with the same test gives the same list as filtering once. |
| `JsArray.FilterConcat` | src/screen/ShoppingApp.js:88 | Filtering a concatenation gives the concatenation of the filtered parts. |
| `Shopping.Validate` | src/screen/ShoppingApp.js:47-55 | A blank name is refused first. Otherwise a blank price text, a non-number or a price <= 0 is refused. Only the remaining input passes, with the parsed price, which is positive. |
| `Shopping.UpdateWhere` | src/screen/ShoppingApp.js:77 | The id-keyed `map`: same length and order. Each item with the id is replaced by the update applied to it, and each other item is kept. |
| `Shopping.Toggled` | src/screen/ShoppingApp.js:76-78 | Same length and order. Items with the id have their purchased flag flipped and every other field kept. Other items are unchanged. |
| `Shopping.Edited` | src/screen/ShoppingApp.js:57 | Same length and order. Items with the id get the form's name, price, image and category and keep their id and purchased flag. Other items are identical. |
| `Shopping.EditedWellFormed` | src/screen/ShoppingApp.js:56-58 | Committing an edit that passed validation keeps every item well formed. |
| `Shopping.AppendedWellFormed` | src/screen/ShoppingApp.js:59-61 | Appending an item that passed validation keeps every item well formed. |
| `Shopping.EditOfAbsentIdChangesNothing` | src/screen/ShoppingApp.js:57 | An edit whose id no longer names any item (removed or cleared meanwhile) leaves the list unchanged. |
| `Shopping.ToggleTwiceRestores` | src/screen/ShoppingApp.js:76-78 | Toggling the same id twice gives back the original list. |
| `Shopping.Removed` | src/screen/ShoppingApp.js:80-82 | The result holds exactly the items whose id differs, in their original relative order, with every copy of each such item kept and none of the others. Its length equals the input's if and only if no item has the id. |
| `Shopping.RemoveTwiceIsNoOp` | src/screen/ShoppingApp.js:80-82 | Removing the same id a second time changes nothing. |
| `Shopping.TotalRemaining` | src/screen/ShoppingApp.js:88 | The `reduce` left fold from 0, in list order. When every item is purchased nothing is left to pay. Its full meaning is `TotalRemainingIsUnpurchasedSum`. |
| `Shopping.TotalRemainingIsUnpurchasedSum` | src/screen/ShoppingApp.js:88 | The left fold equals the sum of the prices of the unpurchased items. |
| `Shopping.TotalRemainingNonNegative` | src/screen/ShoppingApp.js:88 | With positive prices the total is at least 0. It is exactly 0 when every item is purchased, which includes the empty list. |
| `Shopping.TotalAfterAppend` | src/screen/ShoppingApp.js:88 | Appending an item adds its price to the total if it is unpurchased, and nothing otherwise. |
| `Shopping.TotalRemainingExample` | src/screen/ShoppingApp.js:88 | Prices 10 (unpurchased), 5 (purchased) and 20 (unpurchased) leave 30 to pay. |
| `Shopping.Matches` | src/screen/ShoppingApp.js:91-92 | The filter test. An empty query under the "all" filter passes every item. Under the ASCII-only lowering of the model, a query longer than the item's name never passes; JavaScript's full lowering does not keep this bound (see "## Left out"). |
| `Shopping.FilteredItems` | src/screen/ShoppingApp.js:90-93 | The shown items are exactly the items whose lower-cased name includes the lower-cased query and whose category matches the filter (or the filter is "all"). They are in list order, with every copy of a matching item kept and none of the others. |
| `Shopping.FilterShowsAll` | src/screen/ShoppingApp.js:90-93 | An empty query with the "all" filter shows the whole list unchanged. |
| `Shopping.MilkValidation` | src/screen/ShoppingApp.js:47-55 | "Milk" at 40 passes validation with price 40. "Milk" at -5 is refused for its price. |
| `Shopping.MilkScenario` | src/screen/ShoppingApp.js:47-66 | From a fresh screen, adding "Milk" at 40 gives exactly one unpurchased item with those fields. A further add at -5 is refused and leaves the list as it was. |
| `Shopping.ShoppingApp.constructor` | src/screen/ShoppingApp.js:12-20 | The initial state: an empty list, an empty form on the first category, the "all" filter and no edit under way. |
| `Shopping.ShoppingApp.AddItem` | src/screen/ShoppingApp.js:47-66 | A refused input changes no field. In add mode, exactly one unpurchased item with the form's fields is appended and the earlier items keep their order. In edit mode, the list becomes the edited list and edit mode ends. After any accepted input the name and price are empty, the image is absent and the other fields are kept. The invariant is preserved. |
| `Shopping.ShoppingApp.EditItem` | src/screen/ShoppingApp.js:68-74 | The form holds the item's name, price text, image and category, and edit mode holds the item. The list and the view settings are untouched. |
| `Shopping.ShoppingApp.TogglePurchased` | src/screen/ShoppingApp.js:76-78 | The list becomes the toggled list and every form field is untouched. |
| `Shopping.ShoppingApp.RemoveItem` | src/screen/ShoppingApp.js:80-82 | The list becomes the list without the id and every form field is untouched. |
| `Shopping.ShoppingApp.ClearAll` | src/screen/ShoppingApp.js:84-86 | The list becomes empty and every form field is untouched. |
| `Shopping.ShoppingApp.SetItemName` | src/screen/ShoppingApp.js:113 | Typing sets the name field only. |
| `Shopping.ShoppingApp.SetItemPrice` | src/screen/ShoppingApp.js:114 | Typing sets the price text only. |
| `Shopping.ShoppingApp.SetSearchQuery` | src/screen/ShoppingApp.js:105 | Typing sets the search text only. |
| `Shopping.ShoppingApp.SetFilterCategory` | src/screen/ShoppingApp.js:108-111 | Picking sets the filter to "all" or to one of the categories. |
| `Shopping.ShoppingApp.SetSelectedCategory` | src/screen/ShoppingApp.js:117-119 | Picking sets the category for new or edited items to one of the categories. |
| `Shopping.ShoppingApp.Total` | src/screen/ShoppingApp.js:88 | The total shown is the sum of the unpurchased prices and is never negative. |
| `Shopping.ShoppingApp.Shown` | src/screen/ShoppingApp.js:90-93 | The list shown is `FilteredItems` of the list for the current search and filter. It holds exactly the matching items in list order, with every copy kept. An empty search under the "all" filter shows the whole list. |
| `RecipeDetail.Kept` | src/screen/RecipeDetailScreen.js:41 | The test for a row: the ingredient is present and non-empty once trimmed. An absent or null field never passes. |
| `RecipeDetail.EntryAt` | src/screen/RecipeDetailScreen.js:39-42 | A row takes its name from the ingredient field at a position, and that name is not blank. |
| `RecipeDetail.KeptPositions` | src/screen/RecipeDetailScreen.js:38-43 | The positions that contribute rows lie in 1..n and strictly increase. Each has a present, non-blank ingredient, and every such position in 1..n is among them. |
| `RecipeDetail.Ingredients` | src/screen/RecipeDetailScreen.js:37-44 | There is one row per contributing position, so at most 20 rows. Every name is non-blank after trimming. Row k is the ingredient and the measure of the k-th contributing position. |
| `RecipeDetail.IngredientAtPositionIff` | src/screen/RecipeDetailScreen.js:41 | Position n in 1..20 contributes a row if and only if its ingredient field is present and not blank. |
| `RecipeDetail.NoIngredientsWhenAllBlank` | src/screen/RecipeDetailScreen.js:37-44 | If every ingredient field is absent, null or blank, there are no rows. |
| `RecipeDetail.CollectIngredients` | src/screen/RecipeDetailScreen.js:37-44 | The loop over positions 1 to 20 builds exactly the specified ingredient rows. |
| `RecipeDetail.RecipeAfter` | src/screen/RecipeDetailScreen.js:14-27 | With a non-empty meals array the recipe is the first meal. With null or empty meals there is no recipe. A failure keeps the prior value. |
| `RecipeDetail.RecipeDetailScreen.constructor` | src/screen/RecipeDetailScreen.js:5-8 | The screen starts loading with no recipe. |
| `RecipeDetail.RecipeDetailScreen.FetchRecipeDetail` | src/screen/RecipeDetailScreen.js:14-27 | Loading has ended and the recipe is as `RecipeAfter` gives, for every outcome. |
| `RecipeDetail.RecipeDetailScreen.Render` | src/screen/RecipeDetailScreen.js:29-44 | A spinner shows exactly while loading. "Not found" shows exactly when loading is over and there is no recipe. Otherwise the recipe shows with its specified ingredient rows. |
| `RecipeDetail.Visit` | src/screen/RecipeDetailScreen.js:10-35 | After mount and the one request, the spinner is gone. The screen shows "not found" exactly when the response has no first meal, and otherwise that meal with its ingredients. |

## Left out

- Persistence to the device's key-value store is not modelled: loading at start-up, saving on every list change, JSON encoding and their logged failures (src/screen/ShoppingApp.js:22-45). The store is foreign I/O. As a result, the model's list starts empty and `Valid()` holds from the start; a stored list is not re-validated on load.
- The network request and its URL (src/screen/RecipeDetailScreen.js:16) are replaced by the `FetchOutcome` input. The model has no cancellation when the screen is left.
- `Date.now()` is a clock. The new item's id is a parameter of `AddItem`, and ids are not assumed unique.
- Shopping.ShoppingApp.AddItem: `isNaN` and `parseFloat` are not modelled. The caller passes `parsedPrice`, which is `None` when `isNaN(itemPrice)` holds and otherwise `Some(parseFloat(itemPrice))`. The handler uses two parsers: `isNaN` converts with `Number`, which decides the refusal, and `parseFloat` gives the stored value. The two can disagree, as on "0x10": `Number` reads 16 and `parseFloat` reads 0, so the handler refuses it. Prices are exact reals, so floating-point rounding and an `Infinity` price are not modelled. The model is exact for every non-blank price text whose `parseFloat` value is finite; for blank text `parsedPrice` is never read, because the blank check refuses first. The blank check on the price text is modelled on the text itself.
- Shopping.ShoppingApp.EditItem: turning the price back into text (`toString`) is not modelled. The text is a parameter.
- JsString.ToLowerCase: `toLowerCase` is modelled for ASCII capitals only; every other character is kept, so the length never changes. Thai has no letter case, so Thai names are exact, but other scripts' case mappings are not modelled.
- Shopping.Matches: the bound "a passing query is no longer than the item's name" depends on the ASCII-only, length-keeping `ToLowerCase`. It is not true of the app: JavaScript lowers U+0130 ("İ", one character) to U+0069 U+0307 (two characters), so a two-character query can match a one-character name. No other contract relies on the bound.
- React's asynchronous, batched state updates and stale closures are not modelled. Each handler is one atomic step on the current state.
- The alert dialogs are represented only by the `Rejected` outcome of `AddItem`.
- Rendering is not modelled: the dark-mode toggle, styles, images, the list widgets, and the recipe's header and footer text fields (name, thumbnail, category, origin, instructions). Only the numbered ingredient and measure fields of a recipe are modelled.
- An absent measure field and a null one are both `None`. They differ in JavaScript, but they render the same.
- The item card component (src/component/ItemCard.js) only relays presses to the handlers. It is not part of this model. So is App.js, which only wires up navigation.
