# Pure-alcohol meter: the drink-card ledger in Dafny

This project models the logic of `app.js`, a browser page that logs drinks as cards and shows a running total of pure alcohol. The model has seven modules:

- `Calculator`: `AlcoholCalculator.calculatePureAlcohol`, which is volume × abv / 100 rounded to one decimal place.
  - The rounding is `toFixed(1)` followed by `parseFloat`.
  - It is specified by the predicate `NearestTenth`: the nearest multiple of 0.1, with ties going away from zero.
  - The lemma `NearestTenthUnique` shows that this predicate determines the value.
- `Cards`: the card record and the list functions that specify the manager.
  - `Sum` is the fold that `getTotalPureAlcohol` computes.
  - `WithoutId` is the filter that `deleteCard` applies.
  - `Reversed` is what `Array.prototype.reverse` leaves behind.
- `Storage`: `StorageManager`, modelled as a class with one slot (the value under the key `pureAlcoholMeter_cards`) and a `backend` mode.
  - The slot is absent, holds a card list, or holds text that does not parse.
  - The `backend` mode injects the store's failures: writes over quota, or a store that cannot be used at all.
- `CardManagement`: `CardManager`, a class whose `cards` field is a `seq<Card>`.
  - The methods push to it, filter it, fold it and replace it from the slot, as the source does.
- `Validation`: `Validator.validate`, three checks in a fixed order where the first failure wins.
  - Number fields are read with an abstract `parse: string -> Option<real>` that stands for `parseFloat`. `None` stands for NaN.
- `Application`: the non-DOM part of the page.
  - `String.prototype.trim` on the name field.
  - The one effect rendering has on state: `renderCards` reverses the manager's own array in place.
  - `handleFormSubmit` and `handleDelete`.
  - Page start-up: load from storage, then render once.
- `Wrappers`: `Option`, `Outcome` and `Result`.

The source never rolls back, and the model keeps that behaviour:
- `addCard` pushes before it saves.
- `deleteCard` reassigns the list before it saves.

If the save fails, memory still holds the change while the slot keeps its old value. The contracts of `AddCard`, `DeleteCard`, `HandleFormSubmit` and `HandleDelete` say exactly this.

Other behaviour of the code that the model keeps:
- `deleteCard` reports nothing for an id no card carries; the list is simply left as it was.
- The amount is volume × abv / 100 in ml, with no further factor.
- `validate` returns only a verdict; `addCard` parses the fields again itself.
- `handleDelete` has no `try`/`catch`: a failed save leaves the handler by an exception, before the render, so the error is not shown to the user.
- Card ids are not guaranteed unique. The model therefore states id uniqueness only under the condition that the new id is fresh.

## Model

| member | source | states |
|---|---|---|
| Calculator.NearestTenthUnique | app.js:6 | at most one number is the rounded value of x, so the rounding is fully specified |
| Calculator.RoundToTenths | app.js:6 | `parseFloat(x.toFixed(1))` is the multiple of 0.1 nearest to x, ties away from zero |
| Calculator.CalculatePureAlcohol | app.js:4-8 | the result is volume × abv / 100 rounded to the nearest tenth |
| Calculator.PureAlcoholOfZero | app.js:5-7 | a zero volume or a zero strength gives 0 |
| Calculator.PureAlcoholNonNegative | app.js:5-7 | non-negative inputs give a non-negative amount |
| Calculator.PureAlcoholExamples | app.js:5-7 | 500 ml at 5 % gives 25.0; 350 ml at 9 % gives 31.5; 0 ml gives 0.0 |
| Cards.NewCard | app.js:66-74 | the card carries the given id, name, abv, volume and timestamp, and the calculator's amount for them |
| Cards.Sum | app.js:93-95 | the total is the fold `total + card.pureAlcohol` from the left, starting at 0 |
| Cards.NewCardWellFormed | app.js:66-74 | a card built from in-range strength and volume is well formed, and its amount is non-negative |
| Cards.SumAppend | app.js:94 | the fold over a concatenation is the sum of the two folds |
| Cards.SumPush | app.js:76 | pushing a card raises the total by exactly that card's amount |
| Cards.SumNonNegative | app.js:94 | a list of well-formed cards has a total of at least 0 |
| Cards.Reversed | app.js:170 | reversal keeps the length and puts element k at position n-1-k |
| Cards.ReversedTwice | app.js:170 | two renders restore the original order |
| Cards.ReversedPair | app.js:170 | reversing two cards swaps them |
| Cards.ReversedTriple | app.js:170 | reversing three cards puts them in the opposite order |
| Cards.ReversedPush | app.js:76 | reversing after a push puts the pushed card first, ahead of the old list reversed |
| Cards.SumReversed | app.js:94 | the total is unchanged by reversal |
| Cards.WithoutId | app.js:83 | no card with the id is left; every other card is kept as many times as it occurred; membership iff present before and id differs |
| Cards.WithoutIdKeepsOrder | app.js:83 | the kept cards stay in their original relative order (subsequence) |
| Cards.WithoutAbsentId | app.js:83 | deleting an id no card carries leaves the list unchanged |
| Cards.WithoutIdIdempotent | app.js:83 | deleting the same id twice equals deleting it once |
| Cards.PushKeepsUniqueIds | app.js:68 | pushing a card whose id is fresh keeps the ids unique |
| Cards.WithoutIdKeepsUniqueIds | app.js:83 | filtering keeps the ids unique |
| Cards.ReversedKeepsUniqueIds | app.js:170 | reversing keeps the ids unique |
| Storage.ClassifySaveError | app.js:21-26 | an error named QuotaExceededError is reported as quota exceeded; every other error is reported as storage unavailable |
| Storage.SetItemError | app.js:19-22 | a working store accepts the write; a full store throws QuotaExceededError; an unusable store throws an error of another name |
| Storage.StoredCards | app.js:29-37 | what a load yields: the stored list, or the empty list for an absent slot, unparseable text or an unusable store |
| Storage.StorageManager.constructor | app.js:14-15 | a store with the given slot content and backend mode |
| Storage.StorageManager.SaveCards | app.js:17-27 | a working store replaces the whole slot with the list; a full store reports quota exceeded; an unusable store reports unavailable; on failure the slot is unchanged |
| Storage.StorageManager.LoadCards | app.js:29-37 | returns exactly what StoredCards defines for the current slot and store |
| Storage.StorageManager.ClearCards | app.js:39-47 | removes the slot and reports true; on an unusable store it reports false and the slot is left as it was |
| Storage.SaveThenLoad | app.js:17-37 | a successful save followed by a load returns the saved list |
| Storage.ClearThenLoad | app.js:29-47 | after a clear the next load is empty |
| CardManagement.CardManager.constructor | app.js:55-57 | a new manager holds no cards |
| CardManagement.CardManager.AddCard | app.js:65-79 | appends exactly one card at the end, with all earlier cards unchanged; the total grows by its amount; the list is saved whole; a failed save is reported but the push is not undone |
| CardManagement.CardManager.DeleteCard | app.js:82-85 | the list becomes the id-filtered list in the original order, and is unchanged for an absent id; the filtered list is saved; a failed save is reported but the filter is not undone |
| CardManagement.CardManager.GetAllCards | app.js:88-90 | returns the held list |
| CardManagement.CardManager.GetTotalPureAlcohol | app.js:93-95 | the sum of `pureAlcohol` over the held cards, 0 for none |
| CardManagement.CardManager.LoadFromStorage | app.js:98-100 | the held list is replaced by what the slot yields |
| CardManagement.ReloadAfterAdd | app.js:76-77 | after a successful add, a new manager over the same slot loads the identical list |
| CardManagement.DeleteTwice | app.js:82-85 | a second delete of the same id leaves the list as the first left it |
| Validation.AllPresent | app.js:191 | the three fields are all non-empty strings (the only falsy string is the empty one) |
| Validation.AbvAcceptable | app.js:196-197 | the strength parsed (is not NaN) and lies in [0, 100] |
| Validation.VolumeAcceptable | app.js:202-203 | the volume parsed (is not NaN) and is at least 1 |
| Validation.Validate | app.js:189-208 | valid iff all three fields are non-empty, the strength parses within [0, 100] and the volume parses to at least 1; each failure kind holds iff the checks before it pass and its own check fails |
| Validation.FirstFailure | app.js:189-208 | an ordered check list is valid iff every check passes; otherwise it reports the failure of the first failing check |
| Validation.ValidateIsFirstFailure | app.js:189-208 | validate is the first-failure chain over presence, then strength, then volume |
| Validation.AbvBoundaries | app.js:196-199 | with the fields present, the strength fails iff it is below 0 or above 100, so 0 and 100 are accepted |
| Validation.VolumeBoundary | app.js:202-205 | once the earlier checks pass, the input is valid iff the volume is at least 1, so exactly 1 is accepted |
| Validation.ZeroStrengthAccepted | app.js:191 | the text "0" counts as present, and a strength of 0 is valid |
| Validation.ValidateExamples | app.js:189-208 | sample verdicts: empty name gives missing field; 101 % is out of range; volume 0 is too small; "Beer", 5, 500 is valid |
| Application.IsWhiteSpace | app.js:279 | the characters `trim` removes: ECMAScript white space and line terminators |
| Application.TrimStart | app.js:279 | the result is a suffix of the input, the dropped prefix is white space, and the result does not start with white space |
| Application.TrimEnd | app.js:279 | the result is a prefix of the input, the dropped suffix is white space, and the result does not end with white space |
| Application.Trim | app.js:279 | the trimmed name neither starts nor ends with white space |
| Application.TrimRemovesOnlyEnds | app.js:279 | the trimmed name is a contiguous part of the input with only white space around it |
| Application.TrimEmptyIff | app.js:279 | the trimmed name is empty iff the field held only white space |
| Application.TrimIdempotent | app.js:279 | trimming twice equals trimming once |
| Application.UIManager.constructor | app.js:108-113 | the UI manager renders the given card manager |
| Application.UIManager.UpdateTotalDisplay | app.js:116-119 | the shown total is the sum of the held cards rounded to one decimal |
| Application.UIManager.RenderCards | app.js:160-174 | as written: the manager's own list is reversed in place and shown; the total is unchanged by this |
| Application.UIManager.RenderCardsNewestFirst | app.js:169-173 | corrected: shows the held list newest first and leaves it unchanged |
| Application.UIManager.Render | app.js:178-181 | shows the rounded total of the list before reversal, then reverses the list in place and shows it |
| Application.App.constructor | app.js:246-262 | start-up loads the slot and renders once, so the held list is the loaded list reversed |
| Application.App.HandleFormSubmit | app.js:276-305 | a rejected submission leaves cards and slot unchanged and reports the first failing check; an accepted one builds a well-formed card from the trimmed name and the parsed fields; if the save works, the card is stored and the list is rendered; if the save fails, the classified error (quota exceeded or unavailable) is reported and memory keeps the card |
| Application.App.HandleDelete | app.js:308-311 | deletes by id and saves; it renders only when the save worked; on a failed save the classified error is passed on and memory keeps the filtered list |
| Application.DisplayOrderAsWritten | app.js:160-174 | saved cards [a, b], then load, render, add c and render: the display is [c, a, b], not newest first |
| Application.DisplayOrderNewestFirst | app.js:169-173 | the same session with the corrected render displays [c, b, a] |
| Application.NewestFirstAfterAdd | app.js:169-173 | with the corrected render, after an add the display is the new card followed by the previous display |

## Findings

| source | as written | input that shows it | evidently intended | confidence | as-written member | corrected member |
|---|---|---|---|---|---|---|
| app.js:162-173 | `renderCards` calls `reverse()` on the array that `getAllCards` returns, and that array is the manager's own `cards`. Every render therefore flips the held order, and the next save persists the flipped order. | Saved cards [a, b]. Load the page (render), then add c (render). The display is c, a, b. | Newest first (c, b, a), without changing the held list, as the comment at line 169 says | high; not executed | Application.UIManager.RenderCards, Application.DisplayOrderAsWritten | Application.UIManager.RenderCardsNewestFirst, Application.DisplayOrderNewestFirst, Application.NewestFirstAfterAdd |

The handlers `App.HandleFormSubmit`, `App.HandleDelete` and the `App` constructor model the source as it is written, so they render with the in-place reversal. The total is not affected: `Cards.SumReversed` shows it is independent of order.

## Left out

- DOM rendering is not modelled: element creation, `escapeHtml`, the form reset and the event listener wiring. Only the state effect of `renderCards`, and the order in which it shows cards, are modelled.
- The `DOMContentLoaded` bootstrap is not modelled; it only constructs `App`.
- `ErrorHandler` is not modelled: its message banner and its 3-second timer are UI state.
- The user-facing message strings are not modelled. Errors appear as the tags `ErrorKind` and `SaveError`.
- `generateId` and `Date.now()` are not modelled because they use randomness and the clock. The id and the timestamp are parameters. The source does not guarantee that ids are unique, so the model states uniqueness only for a fresh id.
- Binary floating point is not modelled. Quantities are mathematical reals.
  - `toFixed(1)` is modelled as exact decimal rounding.
  - The `reduce` total is exact real addition, so it does not depend on summation order as IEEE addition can.
- `parseFloat` is an abstract parameter. Its prefix parsing is not modelled, and `Infinity` is not representable. The source accepts a volume of "Infinity", because it only checks `< 1`.
- The formula's input conversion is simplified. `calculatePureAlcohol` receives the raw field strings, and `*` converts them with `Number()`, while the card's `abv` and `volume` use `parseFloat` (app.js:6, 70-71). The model uses the parsed values for both. The two readings differ in two ways:
  - for text with a trailing non-number such as "5%", `parseFloat` reads the prefix 5 while `Number()` gives NaN, so the source stores a NaN amount;
  - for hexadecimal, binary and octal literals such as "0x10", "0b101" or "0o17", `parseFloat` reads 0 (so validation passes) while `Number()` reads 16, 5 or 15. With a volume of 500 and strength "0x10" the source builds a card with abv 0 and pureAlcohol 80.
- Application.App.HandleFormSubmit: its ensures that every accepted card is well formed (amount equal to the formula on the stored abv and volume) holds only because of the simplification above; for the literals just named the source's card is not well formed.
- CardManagement.CardManager.AddCard takes the parsed numbers rather than the raw strings. In the source `addCard` parses the strings itself (app.js:70-71); in the model that parse is done by its only caller, `HandleFormSubmit`, after validation succeeds, with the same `parse`, so NaN never reaches it.
- `localStorage` and JSON are abstracted to an in-memory slot.
  - Serialisation is assumed faithful.
  - Text that JSON parses to something other than a card list is not modelled.
  - The quota is not modelled as a capacity. A full store is a backend mode chosen by the caller.
- The `console.error` logging in `loadCards` and `clearCards` is not modelled because it is I/O. The model returns the same values, the empty list and false.
