# Work-order weighing receiver: a Dafny model

The system receives production work orders from an external weighing
station. Each work order has ingredients with a target mass, an accumulated
mass and tolerance bounds. Each ingredient may have several expiry-dated
sub-weighings (`exp_dates`). The system stores the work orders and shows
each one as a summary table, both on screen and as a printout. This project
models the logic part of that system:

- `numbers.dfy` (`Numbers`): JavaScript numbers as exact reals plus an
  absorbing `NaN`, and the left-to-right sum that `reduce` computes.
- `json.dfy` (`Json`): the parsed-JSON values the code handles, with
  `undefined`, truthiness, `||`, property reads that throw on null and
  undefined, and the `parseFloat(v || 0)` coercions.
- `expiry.dfy` (`Expiry`): one ingredient becomes its table rows. Entries
  without a weight and the fallback "-" row are handled here, as are the
  per-ingredient `totalWeight`, the resolution (actual minus target) and
  the tolerance cells.
- `totals.dfy` (`WorkOrderTotals`): the three copies of the totals fold.
  These are the on-screen fold of both detail views, the receiver view's
  print fold and the history view's print fold. They are kept apart and
  related by lemmas. The file also holds the whole summary table with its
  "Total" row.
- `dates.dfy` (`DateFormat`): `convertDateFormat` of the new-format
  sender, which rewrites `DD/MM/YYYY` as `YYYY-MM-DD`.
- `serverformat.dfy` (`ServerFormat`): `transformToServerFormat`, which
  flattens a new-format payload into the shape the server reads.
- `receiver.dfy` (`MoReceiver`): the server's receive, read and delete
  endpoints. The `received_work_orders` table is modelled as a map from
  the unique `work_order` to its row, together with the AUTOINCREMENT
  counter. Every executed upsert advances the counter, including one that
  updates an existing row, because SQLite allocates the new rowid before it
  meets the UNIQUE conflict.
- `fixtures.dfy` (`Fixtures`): the repository's sample payloads, run
  through the model.

`parseFloat` on strings is a parameter `parse: string -> Num`, so every
result holds for any way of reading numerals. Numbers, `null`, `undefined`,
booleans and objects are handled as `parseFloat` handles them.

## Model

| member | source | states |
|---|---|---|
| `Numbers.SumNaN` | website/historyDetail.jsx:1349-1354 | a weight sum is NaN exactly when one of the summed weights is NaN, so a single unparseable `actual_weight` poisons the ingredient total |
| `Numbers.SumPermutation` | website/WeighingReceiverDetail.jsx:399-404 | reordering the weights does not change their sum |
| `Json.FalsyValues` | website/server.js:79-82 | the falsy values that `||` and `!` skip are exactly `undefined`, `null`, `false`, `0`, `NaN` and `""`; arrays and objects are truthy |
| `Json.Coerce` | website/WeighingReceiverDetail.jsx:400-402 | `parseFloat` of `v`-or-0 gives 0 for falsy values, a finite number unchanged, `parse(s)` for a non-empty string, and NaN only for truthy values that are not numbers |
| `Json.CoerceOrZero` | website/WeighingReceiverDetail.jsx:396 | the coercion followed by or-0 is never NaN; it equals the unguarded coercion when that is finite and 0 otherwise |
| `Expiry.DisplayEntries` | website/historyDetail.jsx:1335-1346 | the displayed entries are the `exp_dates` themselves when there are any, and otherwise exactly one "-" entry |
| `Expiry.RowTotal` | website/historyDetail.jsx:1349-1354 | `totalWeight` is the sum of the entry weights when `exp_dates` is non-empty, and the NaN-guarded accumulated mass otherwise |
| `Expiry.BoundOf` | website/historyDetail.jsx:1327-1332 | a tolerance cell is "-" exactly when the bound is null or undefined; otherwise it shows the coerced bound |
| `Expiry.LeadOf` | website/historyDetail.jsx:1326-1357 | the first-row cells hold the row total, the unguarded target, resolution = total - target, surplus exactly when the resolution is a number >= 0, the "-" fallback for name and code, and the Min and Max cells are the bounds of `tolerance_min` and `tolerance_max` respectively |
| `Expiry.ExpandIngredient` | website/WeighingReceiverDetail.jsx:703-802 | an ingredient with n expiry entries yields max(1, n) rows. Only the first row carries the lead cells. Labels and weights follow `exp_dates` order. A weight is shown exactly when it is positive. An unweighed first entry shows the accumulated mass and later unweighed entries show 0 |
| `Expiry.DisplayedWeightsSum` | website/historyDetail.jsx:1360-1364 | the shown row weights add up to `totalWeight`, except that an unweighed first entry shows the accumulated mass, which the total does not include |
| `WorkOrderTotals.FoldTotals` | website/historyDetail.jsx:667-686 | the on-screen fold's scaled total is never NaN |
| `WorkOrderTotals.FoldTotalsAreSums` | website/WeighingReceiverDetail.jsx:394-412 | the on-screen totals are the sum of the NaN-guarded targets and the sum of the ingredients' `totalWeight` |
| `WorkOrderTotals.FoldActualNaN` | website/WeighingReceiverDetail.jsx:397-409 | the actual total is NaN exactly when some ingredient's actual weight is NaN |
| `WorkOrderTotals.SummaryActualIsRowTotal` | website/historyDetail.jsx:670-681 | the fold's per-ingredient actual weight equals that ingredient's row `totalWeight` |
| `WorkOrderTotals.SummaryTotals` | website/historyDetail.jsx:667-686 | the totals are null exactly when there are no ingredients |
| `WorkOrderTotals.FoldTotalsRemove` | website/historyDetail.jsx:667-686 | taking one ingredient out of the fold and adding its contribution back last gives the same totals |
| `WorkOrderTotals.FoldTotalsPermutation` | website/WeighingReceiverDetail.jsx:394-412 | totals do not depend on ingredient order (exact arithmetic) |
| `WorkOrderTotals.PrintFold` | website/WeighingReceiverDetail.jsx:60-83 | the print folds' `base` equals `scaled`, and `scaled` is never NaN |
| `WorkOrderTotals.ReceiverPrintTotals` | website/WeighingReceiverDetail.jsx:60-85 | the receiver print totals are null exactly when there are no ingredients, and otherwise `base == scaled` |
| `WorkOrderTotals.ReceiverPrintFoldIsSummaryFold` | website/WeighingReceiverDetail.jsx:60-83 | the receiver print fold's scaled and actual totals equal the on-screen fold's |
| `WorkOrderTotals.ReceiverPrintMatchesScreen` | website/WeighingReceiverDetail.jsx:60-85 | the receiver print totals exist exactly when the screen totals do, and agree with them |
| `WorkOrderTotals.HistoryPrintTotals` | website/historyDetail.jsx:81-93 | the history print totals are null exactly when there are no ingredients; otherwise `base == scaled` and the actual total is never NaN |
| `WorkOrderTotals.HistoryPrintIgnoresExpDates` | website/historyDetail.jsx:81-90 | two ingredient lists that differ only in `exp_dates` have the same history print totals |
| `WorkOrderTotals.HistoryPrintFoldIgnoresExpDates` | website/historyDetail.jsx:82-89 | the same at the level of the raw print fold |
| `WorkOrderTotals.HistoryPrintMatchesScreenWithoutExpDates` | website/historyDetail.jsx:81-90 | when no ingredient has `exp_dates`, the history print totals equal the on-screen totals |
| `WorkOrderTotals.ExpandIngredientLeads` | website/historyDetail.jsx:1360-1384 | each ingredient contributes exactly one set of first-row cells |
| `WorkOrderTotals.TableRows` | website/historyDetail.jsx:1325-1430 | the table has no rows exactly when there are no ingredients, since every ingredient draws at least one row |
| `WorkOrderTotals.TotalResolution` | website/WeighingReceiverDetail.jsx:414 | 0 without totals; otherwise actual minus scaled, NaN when either is |
| `WorkOrderTotals.TableRowsLeads` | website/historyDetail.jsx:1325-1430 | the table's first-row cells are one per ingredient, in ingredient order |
| `WorkOrderTotals.TableRowsAppend` | website/WeighingReceiverDetail.jsx:703-802 | the rows of two concatenated ingredient lists are the two tables' rows concatenated |
| `WorkOrderTotals.TableTotalsMatchSummary` | website/WeighingReceiverDetail.jsx:816-830 | the `totalWeight` cells of the table add up to the "Total" row's actual figure |
| `WorkOrderTotals.TotalRowOf` | website/historyDetail.jsx:156-168 | the total row's resolution is actual - scaled, marked as surplus exactly when it is a number >= 0 |
| `WorkOrderTotals.ScreenTable` | website/WeighingReceiverDetail.jsx:803-830 | the screen table shows the placeholder and omits the total row exactly when there are no ingredients; its total row holds the summed targets, the summed row totals and their difference |
| `WorkOrderTotals.ReceiverPrintTable` | website/WeighingReceiverDetail.jsx:139-154 | the receiver printout shows the placeholder and omits the total row exactly when there are no ingredients |
| `WorkOrderTotals.HistoryPrintTable` | website/historyDetail.jsx:153-169 | the history printout shows the placeholder and omits the total row exactly when there are no ingredients |
| `WorkOrderTotals.ReceiverPrintTableIsScreenTable` | website/WeighingReceiverDetail.jsx:88-154 | the receiver printout is the on-screen table, so its printed "Total" is the sum of its printed `totalWeight` cells |
| `DateFormat.Split` | website/test-send-data-new-format.js:237 | `split` yields at least one part, and no part contains the separator |
| `DateFormat.SplitJoin` | website/test-send-data-new-format.js:237 | joining the parts with the separator gives back the string |
| `DateFormat.SplitCount` | website/test-send-data-new-format.js:237-238 | the number of parts is the number of separators plus one |
| `DateFormat.PadStart2` | website/test-send-data-new-format.js:240 | the padded string has UTF-16 length max(2, UTF-16 length of `s`), ends with `s` and is padded with '0'; lengths count UTF-16 code units as JavaScript does |
| `DateFormat.AstralCharNotPadded` | website/test-send-data-new-format.js:240 | a single character outside the Basic Multilingual Plane is already two code units long and is not padded |
| `DateFormat.ConvertDateStr` | website/test-send-data-new-format.js:226-244 | the result is null exactly for "" and "null"; an ISO date is kept; a changed result has no '/' and comes from a non-ISO input with exactly two '/' |
| `DateFormat.DayMonthYear` | website/test-send-data-new-format.js:236-241 | `d/m/y` becomes `y-mm-dd` for any three slash-free fields, the day and month padded to two UTF-16 code units |
| `DateFormat.OtherStringsUnchanged` | website/test-send-data-new-format.js:243 | any other non-empty string, not "null", not ISO and without exactly two '/', is returned unchanged |
| `DateFormat.ConvertDateStrIdempotent` | website/test-send-data-new-format.js:226-244 | converting a converted date changes nothing |
| `DateFormat.ConvertDate` | website/test-send-data-new-format.js:226-233 | on any value: falsy values give null; a string gives a value, which is null exactly for "" and "null"; a truthy non-string throws, since it has no `match` |
| `DateFormat.ConvertDateIdempotent` | website/test-send-data-new-format.js:226-244 | converting the result of a successful conversion again gives the same result |
| `MoReceiver.Pick` | website/server.js:91 | nested-or-root-or-null yields a truthy nested value, else a truthy root value, else null |
| `MoReceiver.PickDefined` | website/server.js:94 | a defined nested value wins even when falsy, then a defined root value, else null |
| `MoReceiver.WriteColumnsChoice` | website/server.js:90-97 | every stored column except `planned_quantity` is truthy or null, and holds the nested value when truthy, else the root value when truthy, else null; `planned_quantity` is never undefined and holds the nested value whenever it is defined (even 0 or ""), else the defined root value, else null |
| `MoReceiver.ReadView` | website/server.js:239-257 | the read view uses the write precedence except that `sku` uses `!== undefined`, and `ingredients` defaults to `[]` |
| `MoReceiver.Receive` | website/server.js:58-166 | 401 without a `Bearer ` header, 500 for a null body, 400 for a falsy `work_order`, otherwise an upsert. The upsert keeps the id of an existing row and otherwise takes the next id; either way the AUTOINCREMENT counter advances by one. The row stores the columns and the payload. Other rows are unchanged, and a refused request leaves the table unchanged |
| `MoReceiver.ReceivePreservesValid` | website/server.js:103-118 | after a receive, ids stay unique and below the counter, and every row stays the normalisation of its own payload |
| `MoReceiver.ReceiveIdempotent` | website/server.js:103-118 | receiving the same payload twice gives the same rows and reply as receiving it once; a stored repeat still advances the counter by one, and a refused one changes nothing |
| `MoReceiver.UpdateConsumesId` | website/server.js:29 | receiving work order A, A again, then B answers ids n, n and n + 2: the update uses up an id |
| `MoReceiver.HttpStatuses` | website/server.js:58-303 | receive answers 401 exactly without a `Bearer ` header, 400 exactly for a falsy `work_order` and 200 exactly when it stores; read and delete answer 404 exactly when no row has the id |
| `MoReceiver.Read` | website/server.js:209-271 | 404 exactly when no row has the id; otherwise the read view of that row's payload, under its key |
| `MoReceiver.Delete` | website/server.js:277-303 | 404 and no change exactly when no row has the id; otherwise exactly the rows with that id are removed and the counter is kept |
| `MoReceiver.DeletePreservesValid` | website/server.js:280 | deleting a row keeps the table invariant |
| `MoReceiver.ReceiveThenRead` | website/server.js:139-155 | the id a receive answers with reads back the read view of the payload just stored |
| `MoReceiver.DeleteThenReceiveFreshId` | website/server.js:29 | a work order deleted and received again gets a new id, because AUTOINCREMENT ids are not reused |
| `MoReceiver.NestedAndFlatAgree` | website/server.js:75-97 | a nested and a flat payload carrying the same fields are accepted alike and stored with the same columns; when accepted they have the same key and read view |
| `MoReceiver.SkuReadWriteDiverge` | website/server.js:248 | a nested `sku: ""` is skipped on write in favour of the root `sku` but shown on read |
| `MoReceiver.SkuAgreesWhenTruthyOrAbsent` | website/server.js:248 | when each `sku` candidate is absent or truthy, the read view's columns equal the stored columns |
| `ServerFormat.MapAll` | website/test-send-data-new-format.js:262 | a mapping succeeds exactly when every element does; the result keeps length, order and each element's image |
| `ServerFormat.ArrayMap` | website/test-send-data-new-format.js:272 | `.map` succeeds exactly on an array all of whose elements transform |
| `ServerFormat.IngredientOut` | website/test-send-data-new-format.js:262-278 | the transformed ingredient has exactly the ten listed fields; every field but `exp_dates` is the input's value under the same name |
| `ServerFormat.TransformExp` | website/test-send-data-new-format.js:272-275 | an entry that is null or undefined throws; otherwise the result has exactly `exp_date` and `actual_weight`, the weight copied and the date the successful conversion of the input's date |
| `ServerFormat.TransformIngredient` | website/test-send-data-new-format.js:262-278 | a null or undefined ingredient, or one whose `exp_dates` is not an array, throws; otherwise the result has the ten fields, nine copied, and `exp_dates` of the same length whose entries are the transforms of the input's |
| `ServerFormat.Transform` | website/test-send-data-new-format.js:249-287 | a missing `workOrder` or a non-array `ingredients` throws; otherwise the root has the nine fields plus `reject_reason` exactly when truthy, and `ingredients` of the same length whose elements are the transforms of the input's |
| `ServerFormat.RootOut` | website/test-send-data-new-format.js:253-284 | the flattened root lifts the work-order fields and applies the `operator_full_name` fallback. It has no `workOrder` key, and it has `reject_reason` exactly when that is truthy |
| `ServerFormat.TransformExpShape` | website/test-send-data-new-format.js:272-275 | an expiry entry transforms exactly when it is not null or undefined and its `exp_date` is falsy or a string; its date is converted and its weight copied |
| `ServerFormat.TransformIngredientShape` | website/test-send-data-new-format.js:262-278 | an ingredient transforms exactly when it is an object with an `exp_dates` array of transformable entries |
| `ServerFormat.TransformSucceedsIffShaped` | website/test-send-data-new-format.js:249-287 | the transform throws exactly on inputs outside the independently stated `Shaped` |
| `ServerFormat.TransformRoot` | website/test-send-data-new-format.js:249-287 | the result's root carries the lifted fields, the operator fallback and `reject_reason` only when truthy, and no `workOrder` |
| `ServerFormat.TransformIngredients` | website/test-send-data-new-format.js:262-280 | each output ingredient, with or without expiry entries, has the ten fields, nine copied from the input ingredient at the same place (`sessions` included), and as many `exp_dates` as the input |
| `ServerFormat.TransformExpDates` | website/test-send-data-new-format.js:272-275 | each expiry entry keeps its place; its date is converted and its weight copied |
| `ServerFormat.TransformedPayloadStored` | website/test-send-data-new-format.js:249-287 | the server stores a transformed payload under the same key and columns as the untransformed one, except `operator_name`, which gains the `operator_full_name` fallback |
| `ServerFormat.FlatPayloadColumns` | website/server.js:77-97 | any flat payload carrying the work-order fields at its root is stored like the nested payload it came from |
| `Fixtures.BahanASurplus` | website/test-send-data.js:19-37 | the sample ingredient (300.5 + 202 against 500) has two rows, a total of 502.5 and a surplus of +2.5 |
| `Fixtures.HistoryPrintDrift` | website/historyDetail.jsx:81-93 | one concrete work order whose history printout totals 500 while its only row totals 502.5 |
| `Fixtures.OneIngredientHistoryTotal` | website/historyDetail.jsx:81-93 | for one ingredient with numeric target t and accumulated mass m, the history printout's total row is (t, m, m - t), whatever its `exp_dates` hold |
| `Fixtures.OneIngredientScreenTotal` | website/WeighingReceiverDetail.jsx:394-412 | for one ingredient with numeric target t and row total w, the on-screen total row is (t, w, w - t) |
| `Fixtures.FallbackRow` | website/historyDetail.jsx:1339-1346 | an ingredient without `exp_dates` and accumulated mass 100.5 gets one "-" row of 100.5 |
| `Fixtures.SampleDate` | website/test-send-data-new-format.js:273 | the sample expiry date "30/08/2027" (line 73) becomes "2027-08-30" |
| `Fixtures.ShortDate` | website/test-send-data-new-format.js:238-241 | "8/3/2027" becomes "2027-03-08" |
| `Fixtures.IsoDateKept` | website/test-send-data-new-format.js:232-234 | "2024-01-15" is kept |

Some helpers carry no row of their own because the rows above state what
they compute: `Numbers.Sum` (the `reduce` folds) through `Numbers.SumNaN`,
`Numbers.SumPermutation` and `WorkOrderTotals.FoldTotalsAreSums`;
`Json.Truthy` through `Json.FalsyValues`; `Expiry.EntryWeight` through
`Expiry.RowTotal` and `Expiry.DisplayedWeightsSum`; and `Expiry.RowWeight`
through `Expiry.ExpandIngredient`. The HTTP status codes of the
three handlers are stated by `MoReceiver.HttpStatuses`.

## Left out

- Floating point: numbers are exact reals with an absorbing NaN. IEEE rounding, infinities and `-0` are not modelled, so the order-independence and drift values hold for exact sums only.
- `parseFloat` on strings is an uninterpreted parameter. `parseFloat` of an array (which reads the array's string form) is taken to be NaN.
- Null or undefined elements of `exp_dates` make the views throw on `actual_weight`; they are not representable in `Ingredient.expDates`. Numbers, booleans and arrays in `exp_dates` behave like an object without fields, and `Ingredient` is given the entries already decoded.
- Ill-formed `ingredients` in the views: a null or undefined element throws on `ingredient.target_mass`, and a truthy non-array `ingredients` (a string, say, which passes the `length > 0` guard) throws on `.reduce`. The views' ingredient list is a sequence of decoded `Ingredient` values, so neither input can be expressed.
- A non-array, non-null `exp_dates` (for example a string, whose `length` is read) is not modelled; absent or null `exp_dates` is `[]`.
- Presentation: JSX, HTML templates, `toFixed` and date formatting, React keys, pop-up handling and printing.
- The session and notes fields of ingredients are copied as values and not interpreted.
- `GET /api/mo-list`, static file serving, and the SQLite timestamps (`created_at`, `updated_at`).
- Database errors (the 500 replies from the SQLite callbacks), and failures of `JSON.parse` of stored data. The stored payload is taken to read back equal to what was received.
- SQLite type affinity: `work_order` is a TEXT column, so the key `1` and the key `"1"` would collide there; the model keys by the JSON value. The `:id` route parameter is an integer here, not the string SQLite compares.
- The token after `Bearer ` is not verified by the server, and the model does not check it either.
- Keys whose value is `undefined` are kept in the transformed object with the value `JUndef`; JSON serialisation would drop them, and every read through `Get` sees the same value either way.
- Strings are sequences of Unicode scalar values. A JavaScript string holding a lone surrogate cannot be represented; for every other string, `split('/')`, the ISO pattern and `padStart` (whose lengths are counted in UTF-16 code units by `DateFormat.Utf16Length`) agree with the model.
- The network sending of the test scripts (`sendTestData`) and their console output.

## Findings

| source | as written | input that shows it | evidently intended | confidence | as-written member | corrected member |
|---|---|---|---|---|---|---|
| website/historyDetail.jsx:81-93 | the history printout's "Total" row sums `current_accumulated_mass`, while the printed rows above it show `totalWeight` summed from `exp_dates` | one ingredient: target 500, accumulated mass 500, `exp_dates` weights 300.5 and 202. The row shows 502.5 (+2.5), but the Total row shows 500 (+0.00) | the printed total equals the sum of the printed row totals, as in the on-screen table and the receiver printout | medium; not executed | `Fixtures.HistoryPrintDrift` | `WorkOrderTotals.ReceiverPrintTableIsScreenTable` |
