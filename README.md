# Controller tool and stock dashboard: verified model of the stateable logic

This project models four small pieces of the czr repository in Dafny and proves what they promise.

1. **The deadzone dialog's arithmetic** (`js/modals/deadzone-modal.js`).
   - The per-axis response curve `applyDeadzone`: it maps magnitudes in [inner, outer] linearly onto [0, 1] and saturates beyond outer.
   - The rescaling of the 12-value fine-tune array that "Apply to controller" writes back.
   - The rule that an inner radius must lie below its outer radius.
2. **The browser settings store** (`js/storage.js`).
   - `localStorage` is a `map<string, string>` held by the class `Storage.SettingsStore`.
   - The typed getters and setters, the `changes_<serial>` keys and the per-controller deadzone table.
   - `importSettings` with its merge and replace modes.
3. **The stick-drift measurement** (`js/modals/drift-analysis-modal.js`).
   - The per-stick records are mutated in place: samples, running maximum, mean and centre.
   - They are the classes `DriftAnalysis.StickDrift` and `DriftAnalysis.DriftSession`.
   - The four-level severity rating shown per stick and overall.
4. **The stock dashboard's table filter** (`index.php`).
   - The browser-side row predicate behind the "Filtrele" button, run over the table rows in place.
   - The server's "Yeterli Stok" / "Yetersiz Stok" label rule, proved to agree with the filter.

The JavaScript built-ins these rely on are written out in module `JsText`:
- `parseInt` (whitespace, sign, the `0x` prefix when no radix is given, NaN);
- `Number.prototype.toString` on integers;
- `trim`, ASCII `toLowerCase` and `includes`.

JSON is module `Json`:
- a value type;
- `JSON.stringify`/`JSON.parse` as an abstract pair of functions (`JsonCodec`);
- `RoundTrips(c, j)`, the round-trip law for one value: parsing the text of `j` gives `j` back, and that text is not empty. Each storage lemma assumes it only for the values it writes.

Numbers are exact: `real` for stick values and radii, `int` for integers. `Math.round(x)` is `floor(x + 1/2)`, which is what JavaScript does, halves rounded up.

## Model

Some functions only compute what the source computes and carry no contract of their own; rows of the members that use them state what they mean:
- `Storage.GetString` through `Storage.SettingsStore.SetString` and `Storage.SettingsStore.RemoveItem`;
- `Storage.GetBoolean` through `Storage.BooleanRoundTrip` and `Storage.AbsentKeyGivesDefault`;
- `Storage.GetStringOr` (`getString(key) || default`) through `Storage.StringOrRoundTrip` and `Storage.CalibrationMethodsIndependent`;
- `StockFilter.ServerStatus` through `StockFilter.ServerLabelAgreesWithFilter`.

| member | source | states |
|---|---|---|
| Deadzone.ApplyDeadzone | js/modals/deadzone-modal.js:565-582 | for any radii the curve gives NaN exactly when the magnitude equals both radii (the 0 / 0 division), and every number it gives lies within [-1, 1] |
| Deadzone.InsideInnerIsZero | js/modals/deadzone-modal.js:565-572 | a value whose magnitude is below the inner radius gives exactly 0 |
| Deadzone.BeyondOuterSaturates | js/modals/deadzone-modal.js:566-577 | beyond the outer radius (and not inside the inner one) the output is exactly +1 or -1, with the sign of the input |
| Deadzone.ScaledFraction | js/modals/deadzone-modal.js:579-581 | the linear part maps every magnitude in [inner, outer] into [0, 1] |
| Deadzone.CurveIsBoundedAndSignPreserving | js/modals/deadzone-modal.js:565-582 | with inner < outer the curve never gives NaN, stays within [-1, 1] and never flips the sign of its input |
| Deadzone.CurveIsOdd | js/modals/deadzone-modal.js:565-582 | for every pair of radii, NaN included, the output for -v is minus the output for v |
| Deadzone.DefaultCurveIsIdentity | js/modals/deadzone-modal.js:23-28 | with the default radii (inner 0, outer 1) the curve is the identity on [-1, 1] |
| Deadzone.MonotoneOnPositives | js/modals/deadzone-modal.js:565-582 | with inner < outer, a larger non-negative value never gives a smaller output |
| Deadzone.CurveIsMonotone | js/modals/deadzone-modal.js:565-582 | with inner < outer the curve is monotone on the whole line |
| Deadzone.DefaultSettings | js/modals/deadzone-modal.js:23-28 | the dialog's starting settings pass the inner < outer rule |
| Deadzone.ValidSettings | js/modals/deadzone-modal.js:372-375 | settings that pass the inner < outer rule give both sticks a curve that never yields NaN |
| Deadzone.SettingsFromSliders | js/modals/deadzone-modal.js:467-478 | the settings read from the four percentage sliders pass the inner < outer rule exactly when each inner slider is below its outer slider |
| Deadzone.RoundIsNearest | js/modals/deadzone-modal.js:505 | the rounding used lands within one half of its argument |
| Deadzone.RoundedScaleBounds | js/modals/deadzone-modal.js:503-505 | scaling a non-negative entry by a factor in [0, 1] and rounding gives a value between 0 and the entry |
| Deadzone.ScaledFinetune | js/modals/deadzone-modal.js:484-519 | the rescaled array has the input's length and keeps the four centre entries 8-11 as they were |
| Deadzone.ScaledFinetuneInRange | js/modals/deadzone-modal.js:495-516 | with outer radii in [0, 1], entries 0-7 shrink towards 0, entries 8-11 are unchanged, and every entry stays within 0..65535 |
| Deadzone.InnerRadiusIrrelevant | js/modals/deadzone-modal.js:498-516 | two settings with the same outer radii give the same fine-tune output: the inner radii have no effect |
| Deadzone.DefaultKeepsFinetune | js/modals/deadzone-modal.js:23-28 | the default settings leave the fine-tune array unchanged |
| Deadzone.ApplyDeadzoneToFinetuneData | js/modals/deadzone-modal.js:484-519 | the method returns a freshly allocated array of the input's length whose entries are the rescaled ones (0-3 by the left outer radius, 4-7 by the right one, 8-11 copied); the input array is not modified |
| Deadzone.SaveDeadzoneSettings | js/modals/deadzone-modal.js:369-390 | settings are handed on to the save callback exactly when both sticks pass the inner < outer rule and a callback is registered, and then unchanged |
| Deadzone.ApplyDeadzoneToController | js/modals/deadzone-modal.js:395-462 | settings failing the rule are rejected before anything is read or written; data is written exactly when the settings pass, the user confirms and a controller manager is there, and what is written is the rescaled array |
| JsText.Trim | index.php:222 | `trim` never lengthens its input, and what it returns neither starts nor ends with whitespace |
| JsText.TrimKeepsMiddle | index.php:222 | `trim` keeps a contiguous part of the string, removes only whitespace on either side of it, and what it keeps neither starts nor ends with whitespace |
| JsText.ToLower | index.php:213 | lower-casing keeps the length, turns each upper-case ASCII letter into its own lower-case letter, and keeps every other character |
| JsText.ToLowerIdempotent | index.php:213 | lower-casing twice is lower-casing once, and no upper-case ASCII letter survives |
| JsText.Includes | index.php:225 | `includes` is true exactly when the search text occurs at some index of the string |
| JsText.IntToString | js/storage.js:75-77 | the decimal text of an integer is non-empty, starts with `-` exactly for a negative integer, and is otherwise all digits |
| JsText.ParseInt | js/storage.js:79-82 | `parseInt` gives NaN for text that is empty or all whitespace, and any number it gives is a whole number |
| JsText.NatToStringValue | js/storage.js:75-77 | the decimal rendering of a natural number is all digits and reads back as that number |
| JsText.ParseIntRoundTrip | js/storage.js:75-82 | `parseInt` of the decimal rendering of any integer gives the integer back, with radix 10 or with none |
| JsText.IntToStringInjective | js/storage.js:75-77 | distinct integers render to distinct strings |
| Storage.ChangesStorageKey | js/storage.js:18-21 | there is a key exactly for a present, non-empty serial number, and it is the text `changes_` followed by the serial number |
| Storage.ChangesKeysAreDistinct | js/storage.js:18-21 | distinct serial numbers get distinct `changes_` keys, and none of them is a fixed key of the store |
| Storage.GetObject | js/storage.js:48-56 | an absent key reads as `null`, and any other value read is what the codec parses the stored, non-empty text to |
| Storage.GetNumber | js/storage.js:79-82 | an absent key gives the default; any number read is a whole number |
| Storage.StringOrRoundTrip | js/storage.js:127-147 | `setString(key, v)` then a defaulted get of `key` (`getString(key) || default`) gives `v`, or the default when `v` is empty; after `removeItem(key)` it gives the default; a defaulted get of any other key is unchanged by either |
| Storage.CalibrationMethodsIndependent | js/storage.js:127-147 | setting the centre calibration method determines what `centerCalibrationMethod.get` returns and leaves what `rangeCalibrationMethod.get` returns unchanged; once cleared, the two read as their default arguments `four-step` and `normal` |
| Storage.ObjectRoundTrip | js/storage.js:40-56 | `setObject(key, v)` then `getObject(key)` gives `v` back, for a value the codec round-trips |
| Storage.HasChanges | js/storage.js:219-223 | `hasChangesState.get` is false without a serial number, and otherwise either false or a truthy value |
| Storage.BooleanRoundTrip | js/storage.js:66-73 | `setBoolean` then `getBoolean` gives back the boolean, whatever the default |
| Storage.AbsentKeyGivesDefault | js/storage.js:70-82 | `getBoolean` and `getNumber` on an absent key give their defaults |
| Storage.NumberRoundTrip | js/storage.js:75-82 | `setNumber(n)` then `getNumber` gives back the integer n, whatever the default |
| Storage.HasChangesRoundTrip | js/storage.js:211-223 | for a real serial number `hasChangesState.set` then `get` gives back the flag, given the codec round-trips that boolean; for a missing or empty one `get` is false |
| Storage.DeadzoneGetUnknown | js/storage.js:253-262 | a controller with no entry gets inner 0.05 / outer 0.95 on both sticks when a default is asked for, and null otherwise |
| Storage.DeadzoneGet | js/storage.js:253-262 | `deadzoneSettings.get` only returns truthy values, and always returns one when a default is asked for |
| Storage.DeadzoneSetItems | js/storage.js:269-273 | `deadzoneSettings.set` changes no key of the store but the deadzone table, and the table key is present afterwards when the stored table is an object |
| Storage.DeadzoneClearItems | js/storage.js:279-283 | `deadzoneSettings.clear` changes no key of the store but the deadzone table, and the table key is present afterwards when the stored table is an object |
| Storage.DeadzoneSetThenGet | js/storage.js:253-273 | after `deadzoneSettings.set(serial, v)` the get for that serial returns v, given the codec round-trips the table written; every other controller's entry and every other key of the store are unchanged |
| Storage.DeadzoneClearForgetsOnlyOne | js/storage.js:253-283 | after `deadzoneSettings.clear(serial)` that controller falls back to the default, given the codec round-trips the table written; every other controller's entry and every other key of the store are unchanged |
| Storage.CheckImport | js/storage.js:337-345 | a bundle is accepted exactly when it is an object whose `settings` property is an object or an array; for an object, the entries are its fields |
| Storage.PartlyImportedStep | js/storage.js:357-361 | storing one more bundle entry extends the partial import by exactly that key |
| Storage.PartlyImportedAll | js/storage.js:357-365 | once every entry is stored, the partial import is the whole import |
| Storage.ImportedItemsReadBack | js/storage.js:348-365 | after an import a string entry reads back as that text and any other entry through `getObject`, given the codec round-trips it; a key not in the bundle keeps its value when merging and is gone when replacing |
| Storage.SettingsStore.SetString | js/storage.js:23-29 | the store gains exactly `key := value`, and `getString` then gives the value |
| Storage.SettingsStore.RemoveItem | js/storage.js:58-64 | exactly `key` leaves the store, and `getString` then gives `null` |
| Storage.SettingsStore.SetObject | js/storage.js:40-46 | the store gains exactly the value's JSON text under `key`, and `getObject` reads the value back when the codec round-trips it |
| Storage.SettingsStore.SetBoolean | js/storage.js:66-68 | the store gains `key := "true"/"false"` and nothing else, and `getBoolean` then gives the value for every default |
| Storage.SettingsStore.SetNumber | js/storage.js:75-77 | the store gains the decimal text of the integer and nothing else, and `getNumber` reads it back |
| Storage.SettingsStore.SetHasChanges | js/storage.js:211-217 | nothing is written for a missing or empty serial number; otherwise only the `changes_` key is written |
| Storage.SettingsStore.ClearHasChanges | js/storage.js:225-230 | nothing is removed for a missing or empty serial number; otherwise only the `changes_` key is removed |
| Storage.SettingsStore.SetDeadzone | js/storage.js:269-273 | the new store is the one `DeadzoneSetThenGet` describes |
| Storage.SettingsStore.ClearDeadzone | js/storage.js:279-283 | the new store is the one `DeadzoneClearForgetsOnlyOne` describes |
| Storage.SettingsStore.StoreEntries | js/storage.js:357-365 | the loop stores every bundle entry over the old store and counts exactly the number of entries |
| Storage.SettingsStore.ImportSettings | js/storage.js:330-373 | a refused bundle leaves the store untouched and reports failure with no import; an accepted one replaces or merges into the store, imports every entry, and success holds exactly when at least one entry was imported |
| DriftAnalysis.MaxDistance | js/modals/drift-analysis-modal.js:171-174 | the running maximum, which starts at 0, never drops below 0 |
| DriftAnalysis.MaxDistanceIsMaximum | js/modals/drift-analysis-modal.js:171-174 | the running maximum is non-negative, no sample lies further out, and some sample lies exactly at it when there are samples |
| DriftAnalysis.SumAtMostCountTimesMax | js/modals/drift-analysis-modal.js:187 | the total distance lies between 0 and the number of samples times the maximum |
| DriftAnalysis.MeanAtMostMax | js/modals/drift-analysis-modal.js:187-188 | the mean distance lies between 0 and the maximum distance |
| DriftAnalysis.StickDrift.constructor | js/modals/drift-analysis-modal.js:10-25 | a new record is cleared and valid |
| DriftAnalysis.StickDrift.SampleDrift | js/modals/drift-analysis-modal.js:159-175 | exactly one sample {x, -y, distance} is appended, the running maximum stays the maximum, and the summary fields are untouched |
| DriftAnalysis.StickDrift.Finalize | js/modals/drift-analysis-modal.js:182-195 | with samples, the mean distance and the mean position are set and the mean lies between 0 and the maximum; with none, nothing changes |
| DriftAnalysis.Classify | js/modals/drift-analysis-modal.js:240-252 | the status is no drift exactly below 0.05, at most minor below 0.1, and at most moderate below 0.2 |
| DriftAnalysis.ClassifyIsMonotone | js/modals/drift-analysis-modal.js:240-252 | the status is monotone in the maximum drift, and its buckets are cut exactly at 0.05, 0.1 and 0.2 |
| DriftAnalysis.BadgesAgree | js/modals/drift-analysis-modal.js:222-252 | the percentage badge and the status badge of a stick always have the same colour |
| DriftAnalysis.OverallAssessment | js/modals/drift-analysis-modal.js:330-351 | the overall status is one of the two sticks' statuses and no milder than either |
| DriftAnalysis.OverallIsWorseStick | js/modals/drift-analysis-modal.js:330-351 | the overall assessment is the worse of the two sticks' statuses |
| DriftAnalysis.DriftSession.ResetDriftData | js/modals/drift-analysis-modal.js:108-123 | both sticks get fresh, cleared records: no samples and zero maximum, mean and centre |
| DriftAnalysis.DriftSession.SampleSticks | js/modals/drift-analysis-modal.js:139-142 | one step appends one sample to each stick, so the two sample counts stay equal, both maxima stay maxima, and each stick's mean distance and centre are untouched |
| DriftAnalysis.DriftSession.FinalizeMeasurement | js/modals/drift-analysis-modal.js:180-206 | each stick with samples gets its mean distance and mean position, the mean lying between 0 and the unchanged maximum; a stick without samples keeps its mean and centre; no samples are lost; the overall status is the worse stick's |
| StockFilter.Displayed | index.php:219-239 | a row left displayed under a non-empty search text contains that text, lower-cased, in its lower-cased name |
| StockFilter.EmptyFiltersShowEverything | index.php:223-239 | with all three filters empty every row is displayed |
| StockFilter.SearchIsSubstringMatch | index.php:213-227 | a row passes the search exactly when the search text is empty or occurs, lower-cased, in the lower-cased product name |
| StockFilter.StatusFiltersPartition | index.php:220-233 | for rows whose numbers parse, `yetersiz` keeps exactly the rows below their critical level and every such row passes exactly one of `yeterli` and `yetersiz` |
| StockFilter.UnparsedStockPassesBoth | index.php:220-233 | a row whose stock cell does not parse passes both status filters |
| StockFilter.CategoryIsNormalisedEquality | index.php:222-237 | the category test is equality after trim and lower-case, and a row without a category is hidden whenever a category is chosen |
| StockFilter.ServerLabelAgreesWithFilter | index.php:580-587 | on every row the server renders, the `yetersiz` filter keeps exactly the rows labelled "Yetersiz Stok", `yeterli` exactly the "Yeterli Stok" ones, and the shading marks the former |
| StockFilter.FilterRow | index.php:219-239 | a row's display style is set from its own cells and the filter values alone |
| StockFilter.ApplyFilters | index.php:212-241 | after the handler every row of the table shows or hides by the row predicate |

## Left out

- The controller protocol engine is not part of this model: HID commands, calibration handshakes and report decoding.
- UI is left out:
  - canvas drawing;
  - DOM access and slider, preset and button wiring;
  - bootstrap modals, toasts, `alert`, `confirm`;
  - `toFixed` formatting of the drift figures.
- Whether the dialog has a save callback registered enters `Deadzone.SaveDeadzoneSettings` as a parameter; the callback itself is UI wiring.
- The `confirm` answer enters `Deadzone.ApplyDeadzoneToController` as a parameter.
- The `requestAnimationFrame` loops and the wall-clock sampling gate of the drift measurement are timing behaviour. `DriftSession.SampleSticks` is one step of that loop.
- `Math.sqrt` is left out. The distance is a parameter `d` with `d >= 0` and `d * d == x * x + y * y`.
- Calls into the controller manager are foreign code: `getInMemoryModuleData`, `writeFinetuneData`, `setHasChangesToWrite`. The fine-tune array read from it is a parameter (`None` when there is no manager). The write is the `Written` outcome.
- Deadzone.ApplyDeadzoneToFinetuneData: requires the 12-entry array the controller supplies; arrays of other lengths (undefined entries, NaN) are not modelled.
- Deadzone.ApplyDeadzoneToController: requires a 12-entry array for the same reason.
- `leftInnerScale` and `rightInnerScale` are computed in `applyDeadzoneToFinetuneData` and then never used. The model has no counterpart; `InnerRadiusIrrelevant` states the consequence.
- `localStorage` failures are not modelled: exceptions on `setItem`, quota, or storage being unavailable. The store is a total map, so `ImportSettings` reports no per-entry errors.
- JSON is not modelled concretely. `JsonCodec` is an abstract pair. Each storage lemma that reads back what it wrote assumes `RoundTrips` for the one value written: that value parses back from its text, which is not empty. In JavaScript this holds for every finite number, but the model's numbers are exact reals, which no text encoding can cover all at once; and NaN or an infinity would stringify to `null` and not come back.
- `exportAllSettings` is left out: it depends on `Date` and on a parse-or-keep-text fallback.
- The named-key wrappers are instances of the modelled typed getters and setters on their fixed keys, so they get no members of their own:
  - `lastConnectedController`, `edgeModalDontShowAgain`, `failedCalibrationCount`;
  - `quickTestSkippedTests`, `showRawNumbersCheckbox`;
  - the two step sizes, `finetuneHistory`, `deadzoneSettings.clearAll`.
- `centerCalibrationMethod.get` and `rangeCalibrationMethod.get` are `Storage.CenterCalibrationMethod` and `Storage.RangeCalibrationMethod`, both `Storage.GetStringOr` on their own key.
- Storage.SettingsStore.SetNumber: covers integers only. Fractional numbers and magnitudes where JavaScript switches to exponent notation (1e21 and above) are not modelled, and neither is the loss of precision above 2^53.
- JsText.ParseIntRoundTrip: stated over unbounded integers, without the 2^53 precision limit of JavaScript numbers.
- Storage.SettingsStore.SetDeadzone: a stored table that decodes to a truthy non-object is left unchanged in the model. The module is strict-mode code, so JavaScript throws a TypeError on the property write to a primitive; an array would lose the new entry on stringify.
- Storage.SettingsStore.ClearDeadzone: the same simplification for a truthy non-object table.
- Storage.DeadzoneGetUnknown: reading a serial number from an array table (an index or `length`) gives no entry in the model.
- `toLowerCase` is modelled on ASCII letters only. Other scripts' case mappings (for example Turkish İ) are not modelled.
- IEEE 754 rounding is not modelled. The deadzone curve, the drift means and the fine-tune scaling are exact over reals.
- JavaScript's negative zero is not distinguished from zero.
- From the stock dashboard these are I/O and left out:
  - the PHP/MySQL queries;
  - the `fetch` POSTs to the PHP endpoints;
  - the statistics polling;
  - the dark-mode toggle.
- PHP compares the database's numeric strings numerically; the model takes them as integers.
- The placeholder row "Stok bilgisi bulunamadı." has a single cell. The browser handler would fail on it when reading the second cell; the model's rows always have all cells.
- Observations that follow the code rather than any stated intent:
  - A stock cell that does not parse passes both the `yeterli` and the `yetersiz` filter (`StockFilter.UnparsedStockPassesBoth`), since every comparison with NaN is false.
  - The stored deadzone default (0.05 / 0.95) differs from the dialog's default (0 / 1).
