# Routine builder state, in Dafny

A model of the application state behind a product-selection and routine-building widget
(`script.js`). The widget shows a catalog of beauty products filtered by category and free-text
search. The user picks products into a selection, asks a remote chat-completion worker for a
routine built from the picked products, and can then chat with follow-ups. The model separates
that state from the DOM and the network and proves what the handlers do to it.

Modules:

- `Text`: the string built-ins the widget relies on. `trim` uses the exact ECMAScript whitespace
  set, `toLowerCase` maps ASCII letters, `includes` is substring search, and `String(n)` formats an
  integer.
- `Seqs`: `Array.prototype.filter`.
- `Selection`: the `selectedIds` `Set`. A JavaScript `Set` iterates in insertion order, and
  `[...selectedIds]` is what gets saved, so the set is a sequence without duplicates. The module
  covers `delete`, toggle and `new Set(array)`.
- `Catalog`: products and their string-coerced ids. It covers the filter predicate of
  `renderProducts`, the card grid with its "selected" marks, and the selected-products list with
  its summaries.
- `Chat`: a JSON value type and `buildMessagesWithSystem`. It also covers the reply probe of
  `sendToWorker` under JavaScript truthiness, with the serialized-response fallback and the apology
  on error.
- `App`: the class `RoutineBuilder`. Its fields are the catalog, the selection, the chat history,
  the two persisted snapshots and the chat-window log. Its methods are the handlers: load, toggle,
  remove, clear, generate routine and chat follow-up. `ExampleSession` runs a one-product
  catalog whose product has id `1`: it selects that product, generates a routine, and the history
  ends with the worker's reply.

Behaviour of the code worth knowing (all proved):

- Toggling an id twice restores every id's membership. It restores the saved order when the id
  was absent or was the last member; otherwise the id moves to the end
  (`Selection.ToggleTwiceAbsent`, `Selection.ToggleTwiceReorders`).
- A number and its decimal text, such as `7` and `"7"`, are the same selection key
  (`Catalog.NumberAndTextSameKey`). Distinct numbers never are (`Catalog.NumericIdsDistinct`).
- A follow-up pushes the user's text into the history before it builds the outbound list. The list
  therefore ends with that text twice.
- The generate flow shows a short placeholder as the user's turn, but stores the full prompt in
  the history. On the next load, the full prompt is what gets replayed.

Behaviour on the error paths:

- A non-OK HTTP status is not checked. A non-OK response whose body is JSON is probed like any
  other response. Only a failed request, an unparsable body or a `null` body gives the apology.
- A body of `null` makes `data.choices` throw, which also gives the apology.
- A reply can be any truthy JSON value, not just a string. So a message's content is a JSON value.

## Model

| member | source | states |
|---|---|---|
| `Text.Trim` | script.js:46 | `trim` never lengthens its input; its exact result is stated by `Text.TrimSpec` |
| `Text.TrimSpec` | script.js:291 | the result of `trim` is the slice of the input that has only whitespace around it and neither starts nor ends with whitespace |
| `Text.TrimStartSpec` | script.js:46 | leading-whitespace trimming leaves the suffix after the whitespace prefix, starting with a non-whitespace character or empty |
| `Text.TrimEndSpec` | script.js:46 | trailing-whitespace trimming leaves the prefix before the whitespace suffix, ending with a non-whitespace character or empty |
| `Text.TrimStartWhitespacePrefix` | script.js:46 | leading whitespace of any length is removed by leading-whitespace trimming |
| `Text.TrimEndWhitespaceSuffix` | script.js:46 | trailing whitespace of any length is removed by trailing-whitespace trimming |
| `Text.TrimStartWhitespaceSuffix` | script.js:46 | whitespace after a string survives leading-whitespace trimming unless the string was all whitespace |
| `Text.TrimSurrounded` | script.js:46 | `trim` gives the same result whatever whitespace surrounds its input |
| `Text.Lower` | script.js:51-57 | same length, each character lowered (ASCII letters only) |
| `Text.TrimLowerCommute` | script.js:46 | trimming then lowering equals lowering then trimming |
| `Text.Includes` | script.js:58 | true exactly when the pattern occurs at some position of the text |
| `Text.NatToDecimal` | script.js:69 | `String(n)` of a natural number is a non-empty digit string that starts with `0` only for zero |
| `Text.DecimalRoundTrip` | script.js:105 | reading the decimal text of `n` back gives `n` |
| `Text.IntToDecimalInjective` | script.js:248-249 | different integers have different `String` texts |
| `Catalog.IdString` | script.js:69 | `String(id)`: a string id is its own key; a numeric id's key is non-empty and starts with `-` exactly for a negative number |
| `Catalog.NumberAndTextSameKey` | script.js:105 | a numeric id and a string id holding its decimal text give the same selection key |
| `Catalog.NumericIdsDistinct` | script.js:69 | two numeric product ids share a selection key only if they are equal |
| `Seqs.Filter` | script.js:49-60 | the result holds exactly the elements that pass the test and is no longer than the input |
| `Seqs.FilterCount` | script.js:49-60 | a kept element occurs as often as in the input; a dropped one never |
| `Seqs.FilterAppend` | script.js:49-60 | filtering keeps the input's order (it distributes over concatenation) |
| `Seqs.FilterKeepsAll` | script.js:49-60 | when every element passes, the input is returned unchanged |
| `Seqs.FilterCongruent` | script.js:105 | tests that agree on every element give the same result |
| `Selection.Removed` | script.js:213 | the result is the set with the id filtered out, the other members in their order; the id is absent afterwards and every other id keeps its membership; removing an absent id changes nothing; no duplicates are introduced |
| `Selection.Toggled` | script.js:94-97 | the id's membership flips, every other id keeps its membership, no duplicates |
| `Selection.FromArray` | script.js:22-24 | the restored set has no duplicates, has the stored array's members, and equals a duplicate-free array |
| `Selection.ToggleTwiceMembership` | script.js:94-97 | toggling an id twice restores every id's membership |
| `Selection.RemovedAppended` | script.js:96-97 | deleting the id just added gives back the previous set |
| `Selection.ToggleTwiceAbsent` | script.js:94-98 | toggling an absent id twice restores the set and its saved order exactly |
| `Selection.ToggleTwiceReorders` | script.js:94-98 | toggling any present id off and on gives the set without it followed by it: the id moves to the end of the saved order |
| `Catalog.FilterProducts` | script.js:49-60 | the products shown are drawn from the catalog and are never more than it holds; `FilterProductsExact` and `FilterProductsOrder` state which ones and in what order |
| `Catalog.FilterProductsExact` | script.js:44-60 | a product is shown iff it is in the catalog, the category is empty or equal, and the trimmed lowered search is empty or occurs in its lowered name, brand and description; shown products keep their catalog multiplicity |
| `Catalog.FilterProductsOrder` | script.js:49-60 | shown products appear in catalog order |
| `Catalog.NoFiltersShowAll` | script.js:44-60 | with no category and no search text the whole catalog is shown |
| `Catalog.SearchIgnoresCase` | script.js:44-57 | searches that differ only in letter case show the same products |
| `Catalog.SearchIgnoresSurroundingSpace` | script.js:44-47 | any whitespace before and after the search text does not change what is shown |
| `Catalog.RenderGrid` | script.js:62-69 | the "no match" placeholder iff nothing is shown; otherwise one card per shown product in order, marked selected iff its id string is in the selection |
| `Catalog.ToggleFlipsItsCards` | script.js:94-99 | after a toggle the grid has the same cards, and a card's mark flips iff its id string is the toggled id |
| `Catalog.ToggleTwiceSameGrid` | script.js:94-99 | toggling an id twice draws the same grid |
| `Catalog.SelectedProducts` | script.js:248-249 | the listed products are catalog products whose id string is selected, never more than the catalog holds |
| `Catalog.SelectedProductsExact` | script.js:105 | a product is listed iff it is in the catalog and its id string is selected |
| `Catalog.SelectedProductsByMembership` | script.js:105 | the list depends only on which ids are selected, not on their order |
| `Catalog.ToggleTwiceSameSelectedList` | script.js:94-100 | toggling an id twice lists the same selected products |
| `Catalog.StaleIdsIgnored` | script.js:248-249 | selected ids that name no catalog product do not affect the list |
| `Catalog.RenderSelectedList` | script.js:104-109 | the "no products selected" placeholder iff no catalog product is selected; otherwise the selected products in catalog order |
| `Catalog.Summaries` | script.js:250-255 | one summary per selected product, in order, with its name, brand, category and description |
| `Chat.BuildMessages` | script.js:133-145 | length is history + 2: the system message first, then the history unchanged, then the user turn |
| `Chat.SingleSystemMessage` | script.js:133-145 | if the history holds no system message, the outbound list has exactly one, at position 0 |
| `Chat.BuildMessagesExtend` | script.js:139-143 | adding a message to the history splices it just before the new user turn |
| `Chat.FollowUpRepeatsText` | script.js:294-297 | the follow-up's outbound list ends with the user's text twice |
| `Chat.ExtractReply` | script.js:148-171 | a thrown request and a null body give the apology; otherwise the reply is truthy or is the serialized response |
| `Chat.FirstTruthy` | script.js:157-166 | `None` iff no candidate is truthy; otherwise the earliest truthy candidate |
| `Chat.ChoiceChain` | script.js:157-162 | the `&&` chain yields a value only for an object carrying `choices`, and is falsy when `choices` is missing or falsy |
| `Chat.ChoiceChainFindsNestedContent` | script.js:157-162 | the truthiness-guarded chain yields a truthy content exactly when `choices[0].message.content` is present and truthy, and then yields that content |
| `Chat.FalsyHasNoFields` | script.js:157-162 | a falsy JSON value has no element 0 and no named property |
| `Chat.ExtractReplyPriority` | script.js:157-167 | the reply is the first truthy of nested content, `reply` and `content`, else the serialized response |
| `Chat.AcceptedShapes` | script.js:157-166 | each of the three accepted shapes yields its text |
| `Chat.UnknownShapeSerialized` | script.js:167 | `{foo:"bar"}` yields its serialization |
| `Chat.EmptyFieldsFallThrough` | script.js:157-166 | empty nested content and empty `reply` fall through to `content` |
| `App.RoutineBuilder.constructor` | script.js:20-25 | empty catalog, selection restored from the stored array, stored history restored and replayed into the chat window |
| `App.RoutineBuilder.LoadProducts` | script.js:28-39 | a loaded file replaces the catalog (`products`, or empty when missing); a failure keeps it |
| `App.RoutineBuilder.ToggleSelection` | script.js:94-98 | the id string's membership flips, no other id changes, the snapshot saved is the new set, and reloading that snapshot restores it |
| `App.RoutineBuilder.RemoveSelection` | script.js:209-214 | the new set is the old one with the id string filtered out (absent, other ids unchanged and in order, an absent id a no-op); it is saved, and reloading the snapshot restores it |
| `App.RoutineBuilder.ClearSelections` | script.js:221-223 | the set is empty, `[]` is saved, and reloading it gives the empty set |
| `App.RoutineBuilder.GenerateRoutine` | script.js:247-283 | with nothing selected, one guidance message is shown, nothing is sent and the history is unchanged; otherwise the history plus the prompt is sent, and the history grows by exactly the prompt and the reply and is saved |
| `App.RoutineBuilder.SubmitFollowUp` | script.js:288-306 | blank input changes nothing; otherwise the history grows by the user text and then the reply, the history saved afterwards equals it, and the list sent is the history with the text pushed plus the text again |

## Left out

- HTML construction, `innerHTML`, scrolling, click delegation and the description toggle are DOM
  rendering. The grid and the selected list are modelled as values (`Grid`, `SelectedList`).
  `appendChatMessage` is modelled as appending to `chatLog`.
- The initial placeholders ("Select a category…", "Let's build your routine…"), the failed-load
  message and clearing the chat input after a follow-up only change the DOM.
- `fetch` of the catalog and of the worker is network I/O. Each one is a parameter
  (`CatalogFetch`, `WorkerOutcome`) carrying its result or a thrown error. Calls into the worker
  are shown by the list a method returns.
- `localStorage` and JSON parsing are foreign I/O. Each write is a snapshot field. The stored
  selection is taken to be an array of strings and the stored history a list of `{role, content}`
  messages: that is what the widget writes, and values edited by hand are not modelled.
- `JSON.stringify` and the pretty-printed prompt text are string formatting. They are function
  parameters (`stringify`, `compose`).
- Overlapping requests and the interleaving of two awaiting handlers are concurrency that the code
  does not coordinate.
- The loading indicator and the text-direction toggle only manipulate DOM attributes and elements.
- `console.error` on a failed catalog load (script.js:37) and on a failed worker request
  (script.js:169) is logging only.
- App.RoutineBuilder.ToggleSelection and App.RoutineBuilder.RemoveSelection: the clicked key is
  taken to be `String(product.id)`. The source reads it back from the `data-id` attribute it wrote
  into the HTML (script.js:71-72, 116, 203, 212); an id holding `"` or an `&…;` entity would come
  back altered, which the model does not capture.
- Text.Lower: maps ASCII letters only, not the full Unicode case mapping of `toLowerCase`.
- Text.Trim: works on Unicode scalar values, not UTF-16 code units; the whitespace set is
  ECMAScript's.
- Catalog.IdString: numeric ids are safe integers only. The exponent and fraction forms that
  `String` gives other numbers are not modelled.
- Catalog.SearchText: takes name and brand to be present. A missing one would read as
  "undefined" in the source.
- Chat.Prop: a named property is read only from plain objects. Built-in properties of arrays and
  strings (`length`) are not modelled, because the names the source reads (`choices`, `message`,
  `content`, `reply`) are never such properties.
- App.RoutineBuilder.SubmitFollowUp: the model keeps only the last write of the history. The save
  of the user turn before the request (script.js:295) is overwritten by the save after the reply.
  Only a page closed while the request is pending would still see that earlier save.
