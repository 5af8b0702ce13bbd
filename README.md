# Canastas Verdes storefront — a verified model

Canastas Verdes is a farm-produce storefront. Shoppers browse a catalog of
`productosVender` and fill a cart. A signed-in customer checks out through a form,
which posts an order to the API. The API re-validates the order, prices it from the
stored catalog and records it. The catalog itself comes from a spreadsheet, imported
by a script. That script runs by hand, from a file watcher or from a cron job.

This project models those pieces in Dafny and proves what each promises:

| module | file | models |
|---|---|---|
| `ProductCart` | `product_cart.dfy` | the cart context: lines keyed by product id, add / increment / decrement / remove / clear, the total, and the drawer and checkout flags |
| `CatalogImport` | `catalog_import.dfy` | `sanitizeNumber`, `sanitizeText`, the row mapper and `codigo` filter, and `importProductosVender` replacing the store |
| `ImportWatcher` | `import_watcher.dfy` | the watcher script's debounce timer, `running` flag and `pendingReason` |
| `ImportCron` | `import_cron.dfy` | the cron script's `running` and `rerun` flags and its log lines |
| `OrderSchema` | `order_schema.dfy` | `CreateProductOrderSchema` as zod applies it, and the `ProductOrderSchema` record shape |
| `ProductOrdersApi` | `product_orders_api.dfy` | `createProductOrder`: dedup, existence check, priced lines, total |
| `HomeCatalog` | `home_catalog.dfy` | the home page filter, the municipio / categoria option lists and the carousel index |
| `CartButton` | `cart_button.dfy` | the floating cart button: visibility, unit count, disabled state, label |
| `CartDrawer` | `cart_drawer.dfy` | `handleCheckout`, the line amounts and subtotal, the disabled checkout button |
| `OrderModal` | `order_modal.dfy` | the checkout form: reset on open, payload, `handleSubmit` success and failure paths |
| `JsText`, `Collections`, `Records`, `Wrappers` | `js_text.dfy`, `collections.dfy`, `records.dfy`, `wrappers.dfy` | the JavaScript string and number behaviour the code relies on, generic list helpers, the record shapes, and `Option` / `Result` |

Choices that run through the whole model:

- **Prices and quantities.**
  - In the storefront these are `int` (Colombian pesos).
  - Numbers parsed from the spreadsheet are `real`; IEEE rounding is not modelled.
- **Effects as values.** State the browser or Node keeps is a class whose methods update it. Notifications, navigation, the loading and error modals, and the POST are returned as effect sequences, in the order the code performs them.
- **The environment's events.** File events, timer expiry, cron ticks, the completion of an import and the outcome of the POST are method calls or parameters.
- **The database.**
  - The catalog is a `seq` store, or a `map` from id to product when the API reads it.
  - The order the API creates is its return value.

Four consequences of the import's number handling that are easy to miss:

- `sanitizeNumber("5.000")` is 5, not 5000. The cleaning step keeps `.`, and `Number` reads it as a decimal point.
- `sanitizeNumber("abc")` is 0 and does not throw. The cleaned text is empty, and `Number("")` is 0.
- Only remainders such as `"-"`, `"."`, `"1.2.3"` or `"1-2"` throw.
- `sanitizeNumber` runs on every row before the `codigo` filter. A malformed number in a row that would be dropped still aborts the whole import.

## Model

| member | source | states |
|---|---|---|
| `JsText.TrimStart` | scripts/import-productos-vender.mjs:44 | the result is a suffix of the input; everything dropped is ECMAScript white space, and the result does not start with white space |
| `JsText.TrimEnd` | scripts/import-productos-vender.mjs:44 | the result is a prefix of the input; everything dropped is white space, and the result does not end with white space |
| `JsText.Trim` | scripts/import-productos-vender.mjs:44 | `trim` drops leading then trailing white space; the result neither starts nor ends with white space |
| `JsText.TrimAllSpace` | pages/index.tsx:99 | a string made only of white space trims to `""` |
| `JsText.TrimUnchanged` | scripts/import-productos-vender.mjs:44 | a string already free of outer white space is its own trim |
| `JsText.TrimIdempotent` | pages/index.tsx:99 | trimming twice is trimming once |
| `JsText.LowerChar` | pages/index.tsx:99 | `toLowerCase` on one character: ASCII capitals move down by 32; the result is never an ASCII capital; other characters outside Latin-1 capitals are unchanged |
| `JsText.ToLower` | pages/index.tsx:105-106 | lowercasing keeps the length and lowers each character in place |
| `JsText.Utf16Length` | types/ProductOrder.ts:25-26 | a string's JavaScript `length` (UTF-16 units) lies between its character count and twice that, and equals the count for text in the Basic Multilingual Plane |
| `JsText.Utf16Units` | pages/index.tsx:86 | the UTF-16 code units `sort` compares by; as many as the JavaScript length |
| `JsText.UnitsLessEqTotal` | pages/index.tsx:86 | the default sort order relates any two strings one way or the other |
| `JsText.UnitsLessEqTransitive` | pages/index.tsx:86 | the default sort order is transitive |
| `JsText.IncludesEmpty` | pages/index.tsx:105-106 | every string includes the empty string |
| `JsText.StringToNumber` | scripts/import-productos-vender.mjs:33 | `Number` of an empty or all-white-space string is 0 |
| `JsText.FiveDotZeros` | scripts/import-productos-vender.mjs:32-33 | `Number("5.000")` is 5 |
| `JsText.UnsignedTwoDots` | scripts/import-productos-vender.mjs:33 | an unsigned decimal literal cannot hold two `.` |
| `JsText.SignedTwoDots` | scripts/import-productos-vender.mjs:33-34 | a literal with two `.` reads as NaN, with or without a sign |
| `JsText.NoSpaceNumber` | scripts/import-productos-vender.mjs:33 | without surrounding white space, `Number` reads the text as a signed decimal literal |
| `JsText.ScaledUp` | pages/index.tsx:100-101 | a non-negative exponent multiplies the mantissa by that power of ten |
| `JsText.ExponentReading` | pages/index.tsx:100-101 | `Number` of digits, `e`, digits is the first digits' value scaled by ten to the second's |
| `JsText.ThousandInExponentForm` | pages/index.tsx:245-253 | `Number("1e3")`, which a `type="number"` bound field can hold, is 1000 |
| `JsText.DecimalText` | components/productCartButton.tsx:23 | `String(n)` for a natural number is a non-empty run of digits with no leading zero |
| `JsText.DecimalTextValue` | components/productCartButton.tsx:23 | the digits of `String(n)` have value `n` |
| `JsText.DigitsToNumber` | pages/index.tsx:100-101 | `Number` of a run of digits is its decimal value |
| `JsText.DecimalTextRoundTrip` | components/productCartButton.tsx:23 | `Number(String(n)) == n` for every natural number |
| `Collections.DedupSpec` | pages/api/product-orders/index.ts:24-26 | `Array.from(new Set(xs))` has no repeats, has exactly the members of `xs`, and is no longer than `xs` |
| `Collections.Filter` | context/ProductCart.tsx:113 | `filter` never lengthens a list |
| `Collections.FilterMembers` | pages/index.tsx:102 | an element survives `filter` iff it was in the list and passes the test |
| `Collections.FilterKeepsAll` | context/ProductCart.tsx:108 | when every element passes, `filter` returns the list itself |
| `Collections.FilterAppend` | pages/index.tsx:102 | `filter` distributes over concatenation, so survivors keep their relative order |
| `Collections.FilterDropsOne` | context/ProductCart.tsx:113 | a filter that rejects only the element at one index removes exactly that element and keeps the rest in order |
| `ProductCart.NewLine` | context/ProductCart.tsx:73-85 | a new line copies the product's id, name, code, municipio, categoria and presentation, is priced at `precioVenta` and carries the quantity |
| `ProductCart.Bumped` | context/ProductCart.tsx:67-71 | `map` adds `delta` to every line for the id and leaves every other line as it was, with the same length |
| `ProductCart.KeepPositive` | context/ProductCart.tsx:108 | no line with a quantity below 1 survives, and the list never grows |
| `ProductCart.Without` | context/ProductCart.tsx:113 | `removeProduct`'s list holds exactly the lines for other products, and never grows |
| `ProductCart.Added` | context/ProductCart.tsx:64-86 | afterwards the product has a line; the list grows by one only for a product it did not hold; existing lines keep their place and product |
| `ProductCart.Decremented` | context/ProductCart.tsx:100-110 | `decrementQuantity`'s list never grows and every quantity in it is positive |
| `ProductCart.Total` | context/ProductCart.tsx:120-125 | with non-negative prices and quantities the total is not negative |
| `ProductCart.FilterDistinct` | context/ProductCart.tsx:108 | filtering a cart with distinct ids leaves the ids distinct |
| `ProductCart.WithoutHasNoLine` | context/ProductCart.tsx:113 | after `removeProduct` no line for that id remains |
| `ProductCart.TotalAppend` | context/ProductCart.tsx:120-125 | the total of two carts end to end is the sum of their totals |
| `ProductCart.TotalSingle` | context/ProductCart.tsx:122 | the total of one line is its `unitPrice * quantity` |
| `ProductCart.TotalAround` | context/ProductCart.tsx:120-125 | the total is one line's amount plus the totals of the lines before and after it |
| `ProductCart.ReplaceLineTotal` | context/ProductCart.tsx:120-125 | carts that differ in one line differ in total by that line's amounts |
| `ProductCart.BumpLineTotal` | context/ProductCart.tsx:120-125 | raising one line's quantity by `d` raises the total by its price times `d` |
| `ProductCart.AddExisting` | context/ProductCart.tsx:65-71 | adding a product already in the cart adds the quantity to its line only; same length, same order, other lines unchanged |
| `ProductCart.AddExistingTotal` | context/ProductCart.tsx:65-71 | ... and the total grows by that line's price times the quantity |
| `ProductCart.AddNew` | context/ProductCart.tsx:73-85 | adding a new product appends exactly one line at the end, and the total grows by `precioVenta * quantity` |
| `ProductCart.AddPreservesWellFormed` | context/ProductCart.tsx:62-88 | adding a positive quantity keeps ids unique and every quantity positive |
| `ProductCart.Increment` | context/ProductCart.tsx:90-98 | `incrementQuantity` adds 1 to the matching line, leaves the list alone for an absent id, and keeps the cart well formed |
| `ProductCart.DecrementAbsent` | context/ProductCart.tsx:100-110 | decrementing an absent id changes nothing |
| `ProductCart.DecrementAt` | context/ProductCart.tsx:100-110 | decrementing a present line lowers it by one, or removes it when it reaches zero; other lines keep their order and values |
| `ProductCart.DecrementPreservesWellFormed` | context/ProductCart.tsx:100-110 | `decrementQuantity` keeps the cart well formed |
| `ProductCart.RemoveAt` | context/ProductCart.tsx:112-114 | `removeProduct` of a present id removes exactly that line |
| `ProductCart.RemoveAtTotal` | context/ProductCart.tsx:112-114 | ... and takes its amount off the total |
| `ProductCart.RemovePreservesWellFormed` | context/ProductCart.tsx:112-114 | `removeProduct` keeps the cart well formed, leaves no line for the id, and changes nothing for an absent id |
| `ProductCart.Cart.constructor` | context/ProductCart.tsx:58-60 | the provider starts with an empty cart and both panels closed |
| `ProductCart.Cart.AddProduct` | context/ProductCart.tsx:62-88 | a quantity `<= 0` changes nothing and leaves the drawer as it was; otherwise the lines become the added list and the drawer opens; the invariant is kept |
| `ProductCart.Cart.IncrementQuantity` | context/ProductCart.tsx:90-98 | the lines become the bumped list; the invariant is kept |
| `ProductCart.Cart.DecrementQuantity` | context/ProductCart.tsx:100-110 | the lines become the decremented, filtered list; the invariant is kept |
| `ProductCart.Cart.RemoveProduct` | context/ProductCart.tsx:112-114 | the lines become the list without that id; the invariant is kept |
| `ProductCart.Cart.Clear` | context/ProductCart.tsx:116-118 | the cart is empty and its total is 0 |
| `ProductCart.Cart.SetDrawerOpen` | context/ProductCart.tsx:59 | sets the drawer flag only |
| `ProductCart.Cart.SetCheckoutOpen` | context/ProductCart.tsx:60 | sets the checkout flag only |
| `CatalogImport.Cleaned` | scripts/import-productos-vender.mjs:32 | `replace(/[^0-9.-]/g, '')` keeps only digits, `.` and `-`; it keeps a string made only of those and empties one with none |
| `CatalogImport.SanitizeNumber` | scripts/import-productos-vender.mjs:25-38 | only a non-empty string can throw, and its error carries that string; null and numbers never throw |
| `CatalogImport.SanitizeTextEnds` | scripts/import-productos-vender.mjs:40-45 | what `sanitizeText` returns never starts or ends with white space |
| `CatalogImport.SanitizeNumberFails` | scripts/import-productos-vender.mjs:25-38 | `sanitizeNumber` throws exactly for a non-empty string whose cleaned text is not a number, with that string in the error; null and `''` give 0; numbers pass through |
| `CatalogImport.NoNumericCharsIsZero` | scripts/import-productos-vender.mjs:32-37 | a string with no digit, `.` or `-` (such as `"abc"`) gives 0 and does not throw |
| `CatalogImport.DigitsAfterCleaning` | scripts/import-productos-vender.mjs:32-37 | when only digits remain after cleaning, the result is their decimal value |
| `CatalogImport.CleanedReading` | scripts/import-productos-vender.mjs:32-37 | a non-empty cleaned remainder is read as a signed decimal literal, and NaN throws |
| `CatalogImport.DotIsDecimalPoint` | scripts/import-productos-vender.mjs:32-33 | `"5.000"` gives 5 |
| `CatalogImport.TwoDotsMalformed` | scripts/import-productos-vender.mjs:34-35 | a cleaned remainder with two `.` throws |
| `CatalogImport.InnerMinusMalformed` | scripts/import-productos-vender.mjs:34-35 | a `-` anywhere but first in the cleaned remainder throws |
| `CatalogImport.LoneSignOrDotMalformed` | scripts/import-productos-vender.mjs:34-35 | a remainder of just `-` or `.` throws |
| `CatalogImport.ItemNumber` | scripts/import-productos-vender.mjs:61 | without an `Ítems` value the item number is the row's 1-based position, so at least 1; only a text cell can give NaN |
| `CatalogImport.ItemPositionsDistinct` | scripts/import-productos-vender.mjs:61 | two rows without an `Ítems` value never share an item number |
| `CatalogImport.TransportCell` | scripts/import-productos-vender.mjs:69 | the transport cell is the one under one of the two headers, and null only when both are |
| `CatalogImport.TransportHeadersInterchangeable` | scripts/import-productos-vender.mjs:69 | a sheet with only one of `%Transporte` and `% Transporte` maps every row the same whichever of the two it has |
| `CatalogImport.SameCellsSameRecord` | scripts/import-productos-vender.mjs:58-73 | the mapper reads its eleven named columns and the transport cell, and nothing else |
| `CatalogImport.MapRow` | scripts/import-productos-vender.mjs:58-73 | a row that fails, fails with a malformed-number error naming a non-empty text |
| `CatalogImport.SanitizeTextCases` | scripts/import-productos-vender.mjs:40-45 | a cell of nothing but white space sanitises to `""`, as a missing cell does |
| `CatalogImport.MapRowOk` | scripts/import-productos-vender.mjs:58-73 | mapping a row fails iff one of its five numeric cells throws; the record carries the sanitised `codigo` and sale price |
| `CatalogImport.MapRowsFails` | scripts/import-productos-vender.mjs:57-73 | `rows.map` succeeds iff the mapper succeeds on every row |
| `CatalogImport.MapRowsValues` | scripts/import-productos-vender.mjs:57-73 | a successful map has one record per row, each the mapper's result at that row's position |
| `CatalogImport.WithCodigoSpec` | scripts/import-productos-vender.mjs:74 | the filter keeps exactly the records with a non-empty `codigo`, never lengthens the list, keeps it whole when all have one and empties it when none has |
| `CatalogImport.WithCodigoAppend` | scripts/import-productos-vender.mjs:74 | the filter distributes over concatenation, so surviving rows keep their relative order |
| `CatalogImport.Normalize` | scripts/import-productos-vender.mjs:57-74 | a normalised sheet has at most one record per row, each with a non-empty `codigo` |
| `CatalogImport.NormalizeFails` | scripts/import-productos-vender.mjs:57-74 | normalising aborts iff some row, kept or dropped, has a malformed numeric cell |
| `CatalogImport.NormalizeRecords` | scripts/import-productos-vender.mjs:57-74 | every record to insert has a `codigo` and is the mapping of some row |
| `CatalogImport.BlankCodigosDropped` | scripts/import-productos-vender.mjs:74 | when no row has a `codigo`, nothing is left to insert |
| `CatalogImport.Import` | scripts/import-productos-vender.mjs:47-99 | a positive count is the size of the new store; a count of 0 leaves the store as it was; an error leaves it as it was or empty; every record in the store afterwards was there before or has a `codigo` |
| `CatalogImport.ImportOutcomes` | scripts/import-productos-vender.mjs:47-99 | a missing file or a malformed number throws with the store unchanged; no surviving row returns 0 with the store unchanged; a positive count means the store is exactly the mapped rows and the count is their number; success implies the store calls worked |
| `CatalogImport.ImportPartialFailure` | scripts/import-productos-vender.mjs:88-89 | when `createMany` throws after `deleteMany`, the import throws and the store is left empty |
| `CatalogImport.ImportIdempotent` | scripts/import-productos-vender.mjs:88-89 | importing the same sheet twice leaves the store as importing it once |
| `CatalogImport.CatalogStore.ImportProductosVender` | scripts/import-productos-vender.mjs:47-99 | the returned value and the new store are those of the import; one client is opened exactly when rows survive, and every client opened is disconnected on every path |
| `ImportWatcher.InitialInv` | scripts/watch-productos-vender.mjs:6-9 | the script's initial state satisfies the watcher invariant |
| `ImportWatcher.Schedule` | scripts/watch-productos-vender.mjs:15-42 | the reason is never lost: it is the new timer's or the pending one; during a run no timer is set or cleared; no run starts and nothing is logged |
| `ImportWatcher.Fire` | scripts/watch-productos-vender.mjs:23-25 | the timer starts a run for its reason and is no longer live: the live-timer count drops by one |
| `ImportWatcher.Finish` | scripts/watch-productos-vender.mjs:26-40 | afterwards the watcher is not running, the outcome is logged, nothing is left pending, and a pending reason has become the debounced timer |
| `ImportWatcher.Handle` | scripts/watch-productos-vender.mjs:52-58 | every event's reason is kept, as the timer or as pending; only `ready` logs |
| `ImportWatcher.ScheduleWhileIdle` | scripts/watch-productos-vender.mjs:20-41 | a trigger while idle clears any pending timer and leaves exactly one, for this reason, with the 2000 ms delay |
| `ImportWatcher.ScheduleInv` | scripts/watch-productos-vender.mjs:15-42 | `scheduleImport` keeps the invariant: no timer during a run, the debounce delay, at most one live timer, nothing pending while idle |
| `ImportWatcher.FireStartsOneRun` | scripts/watch-productos-vender.mjs:23-25 | a timer only fires while idle; it starts the run for its reason and clears `timeoutId` |
| `ImportWatcher.FinishReschedules` | scripts/watch-productos-vender.mjs:26-40 | a finished run, failed or not, is logged and leaves the watcher idle; a pending reason is cleared and gets exactly one new debounced timer |
| `ImportWatcher.HandleInv` | scripts/watch-productos-vender.mjs:52-58 | `ready` logs and then triggers; `change` and `add` trigger; all keep the invariant |
| `ImportWatcher.BurstWhileIdle` | scripts/watch-productos-vender.mjs:20-23 | a burst of triggers while idle leaves one timer, for the latest reason, all earlier ones cleared |
| `ImportWatcher.BurstWhileRunning` | scripts/watch-productos-vender.mjs:16-19 | a burst of triggers during a run sets no timer and keeps the latest reason |
| `ImportWatcher.Watcher.constructor` | scripts/watch-productos-vender.mjs:7-9 | no timer, not running, nothing pending |
| `ImportWatcher.Watcher.ScheduleImport` | scripts/watch-productos-vender.mjs:15-42 | the state becomes `Schedule` of the old state; the invariant is kept |
| `ImportWatcher.Watcher.TimerFires` | scripts/watch-productos-vender.mjs:23-25 | the state becomes `Fire` of the old state; the invariant is kept and no run was in progress |
| `ImportWatcher.Watcher.ImportFinishes` | scripts/watch-productos-vender.mjs:26-40 | the state becomes `Finish` of the old state; the invariant is kept |
| `ImportWatcher.Watcher.OnEvent` | scripts/watch-productos-vender.mjs:52-58 | the state becomes `Handle` of the old state; the invariant is kept |
| `ImportCron.CronExpression` | scripts/refresh-productos-cron.mjs:6-7 | the expression is the environment variable when set, otherwise `0 3 * * *` |
| `ImportCron.Request` | scripts/refresh-productos-cron.mjs:11-20 | afterwards a run is in progress; a new run starts exactly when none was running; a run in progress keeps its source and owes a follow-up; the log grows by at most one line |
| `ImportCron.Finish` | scripts/refresh-productos-cron.mjs:19-32 | the outcome is logged after everything before it; `rerun` is cleared; a run is in progress afterwards exactly when a follow-up was owed |
| `ImportCron.Startup` | scripts/refresh-productos-cron.mjs:35-36 | the chosen expression is logged, then the startup run, the first, is in progress with no follow-up owed |
| `ImportCron.RunWhileIdle` | scripts/refresh-productos-cron.mjs:18-20 | a request while idle marks the run as running before it starts |
| `ImportCron.RunInv` | scripts/refresh-productos-cron.mjs:11-33 | `runImport` keeps the invariant that a follow-up is owed only during a run |
| `ImportCron.FinishFollowUp` | scripts/refresh-productos-cron.mjs:19-32 | a finished run, failed or not, is logged and clears `running`; with `rerun` set, the flag is cleared and one `pendiente` run starts at once |
| `ImportCron.RequestsDuringRun` | scripts/refresh-productos-cron.mjs:12-16 | any number of requests during a run start nothing and leave one flag |
| `ImportCron.Coalesce` | scripts/refresh-productos-cron.mjs:12-31 | however many requests arrive during a run, exactly one follow-up starts when it ends |
| `ImportCron.Refresher.constructor` | scripts/refresh-productos-cron.mjs:7-36 | the expression is chosen and logged, and the startup run is in progress |
| `ImportCron.Refresher.RunImport` | scripts/refresh-productos-cron.mjs:11-33 | the state becomes `Request` of the old state; the invariant is kept |
| `ImportCron.Refresher.Tick` | scripts/refresh-productos-cron.mjs:38 | a cron tick is a request with source `cron` |
| `ImportCron.Refresher.ImportFinishes` | scripts/refresh-productos-cron.mjs:19-32 | the state becomes `Finish` of the old state; the invariant is kept |
| `OrderSchema.Check` | types/ProductOrder.ts:25-27 | a check reports nothing iff it holds |
| `OrderSchema.StringValue` | types/ProductOrder.ts:3-6 | a string field is accepted iff present and a string; otherwise it gets an issue |
| `OrderSchema.CheckedString` | types/ProductOrder.ts:23-40 | a string field is accepted iff it is a string and passes all its checks; otherwise it gets at least one issue |
| `OrderSchema.NameChecks` | types/ProductOrder.ts:23-27 | every issue about a name is reported at `name`, at most two at once |
| `OrderSchema.AddressChecks` | types/ProductOrder.ts:31-34 | an address gets at most one issue, reported at `address` |
| `OrderSchema.PhoneChecks` | types/ProductOrder.ts:35-40 | every issue about a phone is reported at `phone`, at most two at once |
| `OrderSchema.ParseProductId` | types/ProductOrder.ts:44-46 | a product id is accepted iff it is present and a number, and is that number; otherwise it is reported |
| `OrderSchema.ParseQuantity` | types/ProductOrder.ts:47-52 | a quantity is accepted iff it is a number, whole and positive, and is that number |
| `OrderSchema.NameChecksPass` | types/ProductOrder.ts:23-30 | a name passes iff its length is between 3 and 120 |
| `OrderSchema.AddressChecksPass` | types/ProductOrder.ts:31-34 | an address passes iff its length is between 5 and 200 |
| `OrderSchema.PhoneChecksPass` | types/ProductOrder.ts:35-40 | a phone passes iff it is exactly ten ASCII digits |
| `OrderSchema.ParseItemOk` | types/ProductOrder.ts:43-53 | an item is accepted iff it is an object with a numeric product id and a whole, positive quantity |
| `OrderSchema.ParseElementsOk` | types/ProductOrder.ts:41-55 | the items are accepted iff every element is, and then one item per element, in order |
| `OrderSchema.ParseItems` | types/ProductOrder.ts:41-55 | accepted items come from an array with at least one element, one item per element |
| `OrderSchema.Validate` | types/ProductOrder.ts:29-56 | a rejected body always carries at least one issue |
| `OrderSchema.ValidateAccepts` | types/ProductOrder.ts:29-56 | a body is accepted iff it is an object with a valid name, address and phone and at least one item, all valid |
| `OrderSchema.ValidatePayload` | types/ProductOrder.ts:29-56 | an accepted body yields its own name, address and phone, and one positive-quantity item per element, in order |
| `OrderSchema.EmptyNameIssues` | types/ProductOrder.ts:25-27 | a blank name is reported as too short and as empty |
| `OrderSchema.NotAnObject` | types/ProductOrder.ts:29 | a body that is not an object gets the one type issue |
| `OrderSchema.OrderRecordNullability` | types/ProductOrder.ts:8-19 | in an order record only `deletedAt` may be null; every field, `deletedAt` included, must be present |
| `ProductOrdersApi.Lookup` | pages/api/product-orders/index.ts:28-45 | a requested id finds a product iff it is a whole number stored in the table |
| `ProductOrdersApi.ProductIds` | pages/api/product-orders/index.ts:25 | the requested ids, one per item, in order |
| `ProductOrdersApi.Lines` | pages/api/product-orders/index.ts:44-60 | successful pricing gives one line per item; a failure is always "No pudimos encontrar uno de los productos seleccionados" |
| `ProductOrdersApi.FoundCount` | pages/api/product-orders/index.ts:28-36 | `findMany` returns at most one product per id, and one per id exactly when every id exists |
| `ProductOrdersApi.LinesFail` | pages/api/product-orders/index.ts:44-49 | pricing fails iff some item's product is missing, with the "No pudimos encontrar" error |
| `ProductOrdersApi.LinesPriced` | pages/api/product-orders/index.ts:50-58 | line `k` is item `k` priced from its stored product: its id, name, code, presentation and `precioVenta`, the item's quantity, and `subtotal = unitPrice * quantity` |
| `ProductOrdersApi.InvalidBodyRejected` | pages/api/product-orders/index.ts:20-22 | an invalid body is rejected with its issues before any lookup |
| `ProductOrdersApi.MissingBody` | pages/api/product-orders/index.ts:21 | a missing or null body is validated as `{}` and rejected |
| `ProductOrdersApi.UnavailableProducts` | pages/api/product-orders/index.ts:24-40 | a valid request fails with "Algunos productos no están disponibles" iff some requested id has no product, and no other failure remains |
| `ProductOrdersApi.CreatedOrder` | pages/api/product-orders/index.ts:62-77 | a created order answers 201 with the caller's account id, the payload's name, address and phone, one line per item and the sum of the subtotals as total |
| `ProductOrdersApi.LineProductIds` | pages/api/product-orders/index.ts:52 | with the table keyed by id, each line names the requested product |
| `ProductOrdersApi.CreateOrder` | pages/api/product-orders/index.ts:14-78 | an order is created, with status 201, only from a valid body, for the signed-in account, with one line per requested item; every error is the body's issues or one of the two "bad request" messages |
| `HomeCatalog.FilterProductos` | pages/index.tsx:98-122 | a product is listed iff it is in the catalog and meets all five conditions; never more products than listed |
| `HomeCatalog.FilterProductosAppend` | pages/index.tsx:102-121 | the filter distributes over concatenation, so listed products keep their order |
| `HomeCatalog.BlankSearch` | pages/index.tsx:99-104 | an empty or white-space search matches every product |
| `HomeCatalog.UnfilteredListsAll` | pages/index.tsx:76-122 | with the initial filter values every product is listed |
| `HomeCatalog.SearchContains` | pages/index.tsx:103-106 | a non-blank search matches iff the lowercased name or code contains the trimmed, lowercased search |
| `HomeCatalog.ChoosingMunicipio` | pages/index.tsx:107-108 | picking a municipio other than `todos` lists exactly the products listed under `todos` that have that municipio |
| `HomeCatalog.EmptyBoundsIgnored` | pages/index.tsx:100-112 | an empty bound field reads as 0 and is ignored |
| `HomeCatalog.DigitBounds` | pages/index.tsx:111-112 | a positive whole-number bound is compared against `precioVenta` |
| `HomeCatalog.NaNBoundIgnored` | pages/index.tsx:111-112 | a bound that is not a number is ignored |
| `HomeCatalog.NonEmpty` | pages/index.tsx:85-93 | `filter(Boolean)` keeps exactly the non-empty values |
| `HomeCatalog.Insert` | pages/index.tsx:86 | inserting adds exactly that value and loses none, counting repeats |
| `HomeCatalog.Sort` | pages/index.tsx:86 | the sorted list is a permutation of its input |
| `HomeCatalog.InsertSpec` | pages/index.tsx:86-94 | inserting into a sorted list keeps it sorted and adds exactly that value |
| `HomeCatalog.SortSpec` | pages/index.tsx:86-94 | the sorted list is in order, as long as the input, has the same members, and keeps a repeat-free list repeat-free |
| `HomeCatalog.InsertDistinct` | pages/index.tsx:86-94 | inserting a new value into a repeat-free list keeps it repeat-free |
| `HomeCatalog.InsertMembers` | pages/index.tsx:86-94 | inserting adds exactly one value to the members |
| `HomeCatalog.Options` | pages/index.tsx:82-96 | an option list is sorted, repeat-free, and holds exactly the non-empty values |
| `HomeCatalog.MunicipiosSpec` | pages/index.tsx:82-88 | `municipios` is sorted, repeat-free, and holds exactly the non-empty municipios of the catalog |
| `HomeCatalog.CategoriasSpec` | pages/index.tsx:90-96 | `categorias` is sorted, repeat-free, and holds exactly the non-empty categorias of the catalog |
| `HomeCatalog.PrevIndex` | pages/index.tsx:360-366 | `prevSlide` keeps an in-range index in range |
| `HomeCatalog.NextIndex` | pages/index.tsx:368-372 | `nextSlide` keeps an in-range index in range |
| `HomeCatalog.SlidesStayInRange` | pages/index.tsx:360-372 | on a non-empty list both moves keep an in-range index in range, wrapping at the ends |
| `HomeCatalog.PrevNextInverse` | pages/index.tsx:360-372 | `prevSlide` and `nextSlide` undo each other |
| `HomeCatalog.NextTimesModulo` | pages/index.tsx:368-380 | `k` forward moves from an in-range index land on `(index + k) % count` |
| `HomeCatalog.NextPastEnd` | pages/index.tsx:368-372 | from an index at or past the end, `nextSlide` only counts up |
| `HomeCatalog.Carousel.constructor` | pages/index.tsx:358 | the carousel starts at slide 0 |
| `HomeCatalog.Carousel.PrevSlide` | pages/index.tsx:360-366 | the index becomes the previous slide's, and stays in range when it was |
| `HomeCatalog.Carousel.NextSlide` | pages/index.tsx:368-372 | the index becomes the next slide's, and stays in range when it was |
| `HomeCatalog.Carousel.GoToSlide` | pages/index.tsx:374-376 | the index becomes the chosen slide |
| `CartButton.ItemsCount` | components/productCartButton.tsx:13 | with positive quantities the unit count is at least the number of lines |
| `CartButton.ItemsCountBounds` | components/productCartButton.tsx:13 | with positive quantities the unit count is 0 iff the cart is empty |
| `CartButton.ItemsCountAppend` | components/productCartButton.tsx:13 | the count of two carts end to end is the sum of their counts |
| `CartButton.ItemsCountAround` | components/productCartButton.tsx:13 | the count is one line's quantity plus the counts before and after it |
| `CartButton.Label` | components/productCartButton.tsx:23 | the label is `Carrito` iff the count is 0; otherwise it ends in `s` iff the count is above 1 |
| `CartButton.Render` | components/productCartButton.tsx:11-24 | the button renders iff there is an account and it is not admin; it is then disabled iff its label is `Carrito` |
| `CartButton.DisabledIffEmpty` | components/productCartButton.tsx:19 | for a well-formed cart the button is disabled iff the cart has no lines |
| `CartButton.LabelReadsBack` | components/productCartButton.tsx:23 | a non-zero label is the count's digits, which read back as the count, followed by `producto` or `productos` |
| `CartButton.CountAfterAdd` | components/productCartButton.tsx:13 | adding a positive quantity raises the count by that quantity |
| `CartButton.Click` | components/productCartButton.tsx:18 | a click opens the drawer |
| `CartDrawer.Amounts` | components/productCartDrawer.tsx:141 | each line shows `unitPrice * quantity`, one amount per line, in order |
| `CartDrawer.CheckoutStep` | components/productCartDrawer.tsx:35-59 | `handleCheckout` never closes checkout; the drawer stays open only when nothing changes; something is announced exactly when the account is missing or an admin; for a signed-in shopper the flags are unchanged exactly when the cart is empty, or checkout is already showing with the drawer closed |
| `CartDrawer.CheckoutOpens` | components/productCartDrawer.tsx:35-67 | checkout opens iff the account is present, not admin, and the cart has lines; then the drawer closes and nothing is announced |
| `CartDrawer.CheckoutTurnedAway` | components/productCartDrawer.tsx:36-54 | without an account, or for an admin, a notification is shown, the drawer closes and checkout stays as it was; only the missing account navigates to `/iniciar-sesion` |
| `CartDrawer.NavigationOnlyWhenSignedOut` | components/productCartDrawer.tsx:43 | `handleCheckout` navigates iff there is no account |
| `CartDrawer.SubtotalIsSumOfLines` | components/productCartDrawer.tsx:141-190 | the line amounts add up to the subtotal shown, the cart total |
| `CartDrawer.CheckoutDisabledAgreesWithCount` | components/productCartDrawer.tsx:199 | the checkout button is disabled iff the cart's unit count is 0 |
| `CartDrawer.HandleCheckout` | components/productCartDrawer.tsx:35-59 | the flags and effects are those of `CheckoutStep` for the cart's line count; the lines are untouched |
| `OrderModal.FormFor` | components/modals/productOrderModal.tsx:37-49 | each field is the account's value, or `""` when the account or the value is missing |
| `OrderModal.PayloadAccepted` | components/modals/productOrderModal.tsx:58-64 | the form and cart pass validation iff the name, address and phone are valid and the cart has lines, all positive; the request then carries the form's fields and one `{productId, quantity}` per line, in order |
| `OrderModal.Submit` | components/modals/productOrderModal.tsx:52-83 | the cart is either emptied with checkout closed or left exactly as it was; something is shown iff there is an account; the cart changes only with the "Pedido registrado" notice, so a submit without an account changes nothing |
| `OrderModal.Settle` | components/modals/productOrderModal.tsx:56-82 | the cart is emptied with checkout closed or left alone, only when the order is announced, and the loading modal is shown first |
| `OrderModal.LoadingBracketed` | components/modals/productOrderModal.tsx:56-82 | with an account the loading modal is shown first and hidden last on every path, and nowhere in between |
| `OrderModal.SuccessOrUnchanged` | components/modals/productOrderModal.tsx:57-79 | the cart empties and checkout closes iff the request is valid and the POST succeeds; otherwise the lines and flag are unchanged and the error modal is set |
| `OrderModal.PostedRequestIsCart` | components/modals/productOrderModal.tsx:58-70 | a request is posted only after it passed validation, and it is the form plus the cart lines in order |
| `OrderModal.EnabledSubmitPosts` | components/modals/productOrderModal.tsx:229 | an enabled submit from a well-formed cart with valid fields always posts |
| `OrderModal.CheckoutForm.constructor` | components/modals/productOrderModal.tsx:37-41 | the form starts from the account's fields |
| `OrderModal.CheckoutForm.OnCheckoutOpenChange` | components/modals/productOrderModal.tsx:43-50 | opening checkout refills the form from the account; otherwise it is left alone |
| `OrderModal.HandleSubmit` | components/modals/productOrderModal.tsx:52-83 | the cart, flag and effects are those of `Submit` on the old cart; the cart invariant is kept |
| `OrderModal.TrySubmit` | components/modals/productOrderModal.tsx:56-82 | from the loading modal to `finally`: the cart, flag and effects are those of `Settle`; the cart invariant is kept |

## Left out

- JSX rendering, styling, images, `Head` and the provider tree are not modelled. Neither are the drawer and dialog transitions or `tailwind.config.js`: none of them has behaviour beyond display.
- `Intl.NumberFormat` currency formatting (pages/index.tsx, components/productCartDrawer.tsx) is locale-library output. The model stops at the numbers it formats.
- `XLSX.readFile` and `sheet_to_json` are left out. The sheet is a given sequence of rows, each a map from column name to cell. A number cell carries its own `String()` rendering, because JavaScript number formatting is not modelled.
- chokidar, node-cron's parsing and scheduling, `setTimeout` wall-clock time and the SIGINT handlers are left out. File events, timer expiry, cron ticks and import completion are method calls; the clock and log timestamps are not modelled.
- Prisma is left out. The catalog is a `seq` store, or a `map` parameter in the API. `findMany` with an id that is not a whole number is treated as finding nothing; Prisma's own rejection of such an id is not modelled.
- pages/api/product-orders/self.ts, pages/api/product-orders/[id].ts and `getServerSideProps` are not part of this model. Each is a single query plus serialisation.
- `JSON.parse` of a string body and of the `account` header is not modelled. The API receives the body already decoded, and the account as a value.
- `ProductOrdersApi.CreateOrder`: the response body is not passed back through `ProductOrderSchema`. The created order is returned as built.
- `OrderSchema.ParseProductOrder`: a timestamp is accepted as any JSON string. `datetime()`'s ISO-8601 format check is not modelled, and the `z.date()` alternative has no counterpart in decoded JSON.
- `JsText.LowerChar`: lowercases ASCII and Latin-1 capitals only. Other scripts' case mappings and locale rules are not modelled.
- `JsText.StringToNumber`: reads an optional sign, a decimal mantissa and an optional `e`/`E` exponent. The `0x`, `0o` and `0b` prefixes and `Infinity` are read as NaN instead of as numbers. After cleaning none of them can reach `sanitizeNumber`, and a `type="number"` price field cannot hold them. Only the raw `Ítems` text read by the import (scripts/import-productos-vender.mjs:61) can hold them, and there the model gives NaN where JavaScript gives a number.
- zod's messages for an `undefined` items array ("Required") and for wrong types ("Expected number, received string") are zod's defaults, modelled from zod's documented wording.
- The carousel's 5-second `setInterval` is not a timer here. Each tick is a call to `NextSlide`, and `NextTimesModulo` covers any number of them.
- Floating-point prices and percentages are not modelled. Storefront prices and quantities are integers, and spreadsheet numbers are exact reals. The price-filter bounds `Number(precioMin)` and `Number(precioMax)` (pages/index.tsx:100-101) are exact reals too. JavaScript rounds them to a double, so a bound such as `"100.00000000000000001"` is 100 there but slightly above 100 here.
- `ProductCart.Cart.AddProduct`: takes the quantity explicitly. The default `quantity = 1` of `addProduct` (context/ProductCart.tsx:62) is the value a caller that omits it passes.
- Boolean cells are not modelled. `sheet_to_json` yields them for TRUE/FALSE cells; `sanitizeNumber` turns either into 0 (its text cleans to nothing), and an `Ítems` cell of TRUE would give item number 1.
- The import's `quiet` option and its `console.warn`/`console.info` lines (scripts/import-productos-vender.mjs:76-91) are logging only and are not modelled; the returned count and the store are.
- The POST in the checkout form is an outcome parameter. `handleErrorModal`'s formatting of the error is not modelled; the model records which error reached it.
