# CuttingBoard store: a verified model

A Dafny model of the document engine of the CuttingBoard layout designer: the
store that holds the settings, the wood palette and the laminated boards and
the mutations the editor applies to it, the millimetre/centimetre/decimal-inch
conversion arithmetic those mutations use, and the two enumeration validators.

Every store mutation is a pure function from the old state to the new one
(`Store.AddLayer`, `Store.RemoveLayer`, `Store.MoveLayer`, `Store.AddWood`,
`Store.RemoveWood`, `Store.UpdateSettings`, `StoreLoad.Load`). `Store.UpdateSettings`
returns the TypeError it can throw instead of a state. `StoreLoad.Load` returns the state
it reached together with the TypeError, if any. The arithmetic is over exact reals;
`Math.round(x)` is `Floor(x + 0.5)`.

Modules, one per concern:

- `Enums` — `UnitsEnum.isValid` (membership) and `DirectionEnum.isValid` (a normaliser).
- `Units` — `toMillimeters`, `fromMillimeters`, `convert`, `limitDecimals`.
- `JsValues` — the JavaScript values `load` reads: what `JSON.parse` yields, plus `undefined`. Also property reads and `hasOwnProperty` calls that throw, the text conversion that throws, and the decimal text of an integer.
- `Seqs` — the two `splice` forms and the layer move built from them.
- `Store` — the state, `mergeObject`, the initial state, and every mutation except `load`.
- `StoreLoad` — the structural decode of `load` and its TypeErrors.

Facts about the code that shape the model:

- Boards carry only `layers`. Thickness and length are the settings fields `boardThickness` and `boardLength`.
- `removeWood` leaves `null` (`None`) in a layer whose species was removed.
- The settings hold `alternateDirection`.

Behaviours the proofs bring out:

- A parsed key can hide an inherited method. A payload, board or `settings` object that owns `hasOwnProperty` makes the call on it throw (`StoreLoad.ShadowedPayloadChangesNothing`), and so does an `updateSettings` payload (`Store.ShadowedSettingsPayloadThrows`). A layer field that is an object owning `toString` makes `parseFloat` throw (`StoreLoad.ShadowedToStringThrows`).
- A save followed by a load turns an unassigned layer into one naming the first species (`StoreLoad.SaveLoadAssignsFirstWood`), because `parseFloatDef(null)` is 0.
- `load` accepts dangling wood references (`StoreLoad.LoadKeepsDanglingReference`).
- With three-digit rounding, switching millimetres to decimal inches and back does not restore values (`Units.MillimeterInchRoundTripDrifts`). Switching centimetres to millimetres and back does restore values that have at most three decimals (`Store.CentimeterMillimeterSwitchRestores`).
- `addLayer` on an empty palette creates a dangling reference to species 0 (`Store.AddLayerKeepsReferences`).

## Model

| member | source | states |
|---|---|---|
| Enums.UnitsIsValid | src/lib/enums.js:1-22 | the switch accepts exactly the values of the `UnitsEnum` object |
| Enums.InchFractionalRejected | src/lib/enums.js:5-20 | the commented-out 'inchfractional' is neither a member nor accepted |
| Enums.DirectionIsValid | src/lib/enums.js:25-44 | result is always a direction; a member is returned unchanged, anything else becomes 'uniform' |
| Enums.DirectionIsValidIdempotent | src/lib/enums.js:32-44 | normalising twice equals normalising once; the fixed points are exactly the members |
| Units.ToMillimeters | src/lib/units.js:21-32 | identity for mm, ×10 for cm, ×25.4 for inchdecimal, 0 for any unit the validator rejects |
| Units.FromMillimeters | src/lib/units.js:35-46 | divides by the same factors; 0 for an unknown unit |
| Units.MillimeterFactors | src/lib/units.js:1-46 | both directions scale by the unit's size in millimetres from an independent table |
| Units.MillimetersRoundTrip | src/lib/units.js:21-46 | for a valid unit, from∘to and to∘from are the identity |
| Units.Convert | src/lib/units.js:8-12 | the result denotes the same length in millimetres; same unit is identity; an unknown unit on either side gives 0 |
| Units.ConvertRoundTrip | src/lib/units.js:8-12 | convert(convert(x, a, b), b, a) == x for valid units |
| Units.ConvertComposes | src/lib/units.js:8-12 | converting via an intermediate unit equals converting directly |
| Units.Round | src/lib/units.js:69 | `Math.round` lands within (-0.5, 0.5] of its argument |
| Units.RoundUnique | src/lib/units.js:69 | that window determines the rounded integer |
| Units.LimitDecimals | src/lib/units.js:65-70 | the result is a whole number of 10^-n steps and within half a step of the input, ties upward |
| Units.LimitDecimalsKeepsGrid | src/lib/units.js:65-70 | a value with at most n decimals is unchanged |
| Units.LimitDecimalsIdempotent | src/lib/units.js:65-70 | limiting twice equals limiting once |
| Units.CentimeterMillimeterRoundTrip | src/lib/units.js:8-70 | cm to mm and back, each rounded, restores a value on the grid |
| Units.MillimeterInchRoundTripDrifts | src/lib/units.js:8-70 | 1 mm to inches and back, rounded to 3 digits, gives 0.991 mm |
| JsValues.HasOwnProperty | src/store.js:9 | `hasOwnProperty` throws iff the receiver is null/undefined (a nullish read) or an object owning `hasOwnProperty` (not a function); otherwise it answers whether the key is an own key |
| JsValues.OwnProps | src/store.js:7-9 | the for-in with `hasOwnProperty` throws iff some own key makes the call throw, and then always "not a function"; otherwise it visits exactly the own properties, each one answering true |
| JsValues.Get | src/store.js:198-221 | a property read throws exactly on null/undefined and yields undefined for a missing key |
| JsValues.DecimalText | src/store.js:126 | the text of a number is non-empty decimal digits without a leading zero |
| JsValues.DecimalTextRoundTrip | src/store.js:126 | reading the text back gives the number |
| JsValues.DecimalTextInjective | src/store.js:126 | distinct numbers have distinct texts |
| Seqs.RemoveAt | src/store.js:88 | `splice(i, 1)` drops exactly element i, keeping the order of the rest |
| Seqs.InsertAt | src/store.js:118 | `splice(i, 0, x)` puts x at i, shifting the rest up |
| Seqs.RemoveAfterInsert | src/store.js:113-118 | removing what was just inserted restores the sequence |
| Seqs.InsertAfterRemove | src/store.js:113-118 | reinserting a removed element at its index restores the sequence |
| Seqs.MoveItem | src/store.js:104-119 | a permutation: the item lands at `to` if to <= from, at to-1 if from < to < length, last if to == length; removing it leaves the others in their old order |
| Seqs.MoveItemIsRemoveThenInsert | src/store.js:104-119 | the push-then-splice branch and the splice-twice branch follow one remove-then-reinsert rule |
| Seqs.MoveItemUndo | src/store.js:104-119 | moving the item back from where it landed restores the sequence |
| Store.InitialConsistent | src/store.js:26-63 | the initial state has one board, valid units and only valid wood references |
| Store.MapLayers | src/store.js:137-146 | visiting every layer of every board keeps board and layer counts and transforms each layer |
| Store.MergeObject | src/store.js:5-14 | only keys present on both are overwritten; no key is added; other target keys keep their values |
| Store.MergeObjectIdempotent | src/store.js:5-14 | merging the same payload twice equals merging once |
| Store.MergeObjectForeignKeys | src/store.js:5-14 | a payload sharing no key with the target changes nothing |
| Store.Fields | src/store.js:27-36 | the settings object carries exactly its seven keys |
| Store.FieldsInjective | src/store.js:27-36 | settings are determined by their property map |
| Store.MergeSettings | src/store.js:156 | the typed merge is `mergeObject` on the settings' property map, over the payload values of each field's type |
| Store.MergeSettingsWellTyped | src/store.js:5-14 | a well-typed payload merges exactly as `mergeObject` merges it |
| Store.MergeAndRescale | src/store.js:152-175 | unchanged units rescale nothing; changed units rescale the four linear settings and every layer width by limitDecimals(convert(old), 3); palette, layer counts and wood references untouched |
| Store.UpdateSettings | src/store.js:152-175 | throws "not a function" iff the payload owns `hasOwnProperty`, and then changes nothing; otherwise merges the payload's own properties and rescales as `MergeAndRescale` |
| Store.ShadowedSettingsPayloadThrows | src/store.js:156 | a payload owning `hasOwnProperty` throws even when it would change the units |
| Store.UpdateSettingsUnknownUnitsZeroes | src/store.js:158-173 | a change to or from an unknown unit sets every linear field to 0 |
| Store.CentimeterMillimeterSwitchRestores | src/store.js:152-175 | switching cm to mm and back, through `updateSettings`, throws nothing and restores a state whose values have at most 3 decimals |
| Store.CentimeterMillimeterRescaleRestores | src/store.js:158-173 | the same round trip on the merged property maps |
| Store.UpdateSettingsKeepsReferences | src/store.js:152-175 | an update that does not throw keeps valid wood references valid |
| Store.AddLayer | src/store.js:67-76 | an out-of-range board is a no-op; otherwise only that board grows, by one layer {wood 0, width 20 mm in current units} after the old ones |
| Store.NewLayerIs20Millimeters | src/store.js:72-75 | the new layer measures 20 mm in valid units and 0 in unknown ones |
| Store.AddLayerKeepsReferences | src/store.js:67-76 | references stay valid exactly when the palette is non-empty |
| Store.RemoveLayer | src/store.js:78-89 | an out-of-range board or layer is a no-op; otherwise only that board changes, losing exactly that layer |
| Store.RemoveLayerUndoesAddLayer | src/store.js:67-89 | removing the layer just added restores the state |
| Store.RemoveLayerKeepsReferences | src/store.js:78-89 | valid wood references stay valid |
| Store.MoveLayer | src/store.js:91-120 | out-of-range board, from or to is a no-op; otherwise only that board changes, by the move |
| Store.MoveLayerUndo | src/store.js:91-120 | the reverse move restores the state |
| Store.MoveLayerKeepsReferences | src/store.js:91-120 | valid wood references stay valid |
| Store.AddWood | src/store.js:123-129 | exactly one entry appended, 'Wood #' + (old length + 1) in #f2e0aa; existing entries, settings and boards unchanged |
| Store.NewWoodNamesDistinct | src/store.js:126 | entries added to palettes of different lengths get different names |
| Store.AddWoodKeepsReferences | src/store.js:123-129 | valid wood references stay valid |
| Store.RenumberWood | src/store.js:139-145 | the removed index becomes null, a greater index drops by 1, a smaller one and null are kept |
| Store.RemoveWood | src/store.js:131-149 | an out-of-range index is a no-op; otherwise the palette loses exactly that entry and every layer is renumbered, nothing else changes |
| Store.RenumberKeepsSpecies | src/store.js:139-148 | a renumbered reference is valid in the shorter palette and still names the same species |
| Store.RemoveWoodKeepsReferences | src/store.js:131-149 | valid wood references stay valid |
| Store.RemoveWoodKeepsNull | src/store.js:141-144 | an unassigned layer stays unassigned through any removal |
| Store.RemoveWoodUndoesAddWood | src/store.js:123-149 | removing the entry just added restores a state with valid references |
| StoreLoad.ParseFloatDef | src/store.js:17-21 | throws (no primitive) iff the text conversion throws: an object owning `toString`, or an array holding one at any depth; otherwise a number parses to itself, null/undefined/booleans/other objects to 0, text by the parse with NaN as 0 |
| StoreLoad.ParseFloatDefStable | src/store.js:17-21 | a number `parseFloatDef` produced parses back to itself |
| StoreLoad.MapThrowing | src/store.js:188-206 | `map` succeeds iff the callback succeeds on every item, with results in order; otherwise it fails with the first failure |
| StoreLoad.ArrayMap | src/store.js:188 | `.map` on null/undefined is a nullish read; on any other non-array, not a function; on an array, the in-order map |
| StoreLoad.DecodeLayer | src/store.js:198-204 | throws iff the layer is null/undefined (a nullish read) or its `wood` or `width` fails text conversion (no primitive); wood and width are the parsed numbers, wood never null |
| StoreLoad.DecodeBoard | src/store.js:188-206 | throws as `hasOwnProperty` does on the board; a board without `layers` becomes an empty board; null/undefined `layers` is a nullish read, another non-array is not a function; otherwise each layer is decoded in order, and a throw is the first failing layer's |
| StoreLoad.DecodeWood | src/store.js:216-222 | a palette entry keeps only `name` and `color`, undefined when absent |
| StoreLoad.AtLeastOneBoard | src/store.js:208-209 | an empty board list becomes one empty board; otherwise the list is kept |
| StoreLoad.LoadedSettings | src/store.js:182-183 | throws iff the payload's `hasOwnProperty` call throws (a nullish read on null/undefined) or its `settings` object owns `hasOwnProperty` (not a function in both object cases); otherwise settings are merged from the own properties, or kept when absent |
| StoreLoad.Load | src/store.js:178-228 | settings merged first, and a throw there is reported as is; boards (at least one, all layers assigned) and palette replaced only when present; a throw keeps the steps before it and skips the rest |
| StoreLoad.SaveLoadRoundTrip | src/store.js:178-235 | loading a saved state gives it back, except unassigned layers name species 0 and an empty board list gains a board |
| StoreLoad.SaveLoadExact | src/store.js:178-235 | with at least one board and no unassigned layer, a save and load is exact |
| StoreLoad.SaveLoadAssignsFirstWood | src/store.js:201 | an unassigned layer comes back from a save and load naming species 0 |
| StoreLoad.ShadowedPayloadChangesNothing | src/store.js:182 | a payload owning `hasOwnProperty` throws at once and leaves the whole state unchanged |
| StoreLoad.ShadowedToStringThrows | src/store.js:198-204 | a layer `wood` owning `toString` makes the load throw with the boards unchanged |
| StoreLoad.LoadKeepsDanglingReference | src/store.js:227 | `load` leaves an out-of-range wood reference in place |

## Left out

- Vuex plumbing (`createStore`), `src/main.js` and `vue.config.js`: no logic. The store is a value passed to each mutation.
- The `save` getter: `JSON.stringify` is not modelled. `StoreLoad.SavedValue` stands for what the saved text parses back to. It assumes no `undefined` sits inside an array or object nested in a palette field, which no state built by the store contains.
- `JSON.parse` in `load`: the payload is taken already parsed, so a text that fails to parse is not modelled.
- StoreLoad.ParseFloatDef: `parseFloat`'s reading of text (and of an array's text) is the parameter `textNumber`, with `None` for NaN. `Infinity` results are not modelled.
- Store.MergeSettings: a payload value whose JavaScript type differs from the field's is ignored. The source would store it as-is and later compute with it, which a typed record cannot hold. `Store.MergeSettingsWellTyped` covers every well-typed payload.
- Store.MergeAndRescale: merges through `Store.MergeSettings`, so a payload value of another JavaScript type is ignored here too.
- Store.UpdateSettings: merges through `Store.MergeSettings`, so a payload value of another JavaScript type is ignored here too.
- StoreLoad.LoadedSettings: merges through `Store.MergeSettings`, so a saved `settings` value of another JavaScript type is ignored here too.
- JsValues.HasOwn: only plain objects have own properties here; the index keys and `length` of arrays and strings are left out. The store meets them only in `mergeObject` when `settings` is an array or string (`source.hasOwnProperty("0")` is true there), and the settings object never owns such a key, so nothing is copied either way.
- Index arguments are integers. Some non-integer indices pass the source's range guards: a fraction inside the range, `undefined`, a non-numeric string, and `null` when the array is non-empty. For `undefined` and a non-numeric string both comparisons are false; for a fraction inside the range and for `null`, which compares as 0, the value lies within the bounds. `addLayer`, `removeLayer` and `moveLayer` then throw when they read `layers` of a board that does not exist, or splice at the index truncated toward zero. With a fractional `from`, `moveLayer` reads `undefined` at that index and pushes or inserts it into the layers as a layer. `removeWood` renumbers by the same loose comparisons and removes the palette entry at the truncated index, entry 0 for `undefined`, `null` or a non-numeric string. None of this is modelled.
- Store.MoveLayer: `payload.to--` also decrements the caller's payload object when a layer moves down. The model takes the payload by value and drops that side effect.
- Units.LimitDecimals: `decimals` is a natural number. The store always passes 3.
- IEEE-754 behaviour: all arithmetic is over exact reals. Floating-point drift and the double-rounding cases of `Math.round` are not modelled.
- `console.error` in `toMillimeters` and `fromMillimeters`: only the 0 return value is kept.
- `toPixels` and `display` in src/lib/units.js: presentation only.
- Enums.UnitsIsValid: arguments are strings. The strict-equality switch gives a non-string the same answer as an unknown string.
- Enums.DirectionIsValid: arguments are strings, for the same reason.
