# Billzen invoice builder — a verified model of its core

Billzen is a browser invoice builder. This project models the parts of it that are
plain logic, and proves properties of them:

- the pricing arithmetic: a line total with its guard and clamps, the three item
  folds, the hourly-service subtotal and the four invoice totals
  (`item_calculator.dfy`, `hourly_calculator.dfy`, `total_calculator.dfy`);
- the document store: a nested document, a dotted-path write that creates
  missing intermediate objects, a shallow top-level merge, the initial document
  and the two item validators (`state.dfy`, class `Store`);
- invoice editing: add, remove and update on the id-keyed item list, with
  defaulting of falsy fields and a totals recompute after each edit, plus the
  company, theme and currency setters (`invoice_manager.dfy`, class
  `InvoiceManager`);
- the reactive update scheduler:
  - a duplicate-free, insertion-ordered queue of update keys;
  - a debounce timer and a re-entrancy latch;
  - a flush that snapshots and clears the queue, then runs recalculation, item
    refreshes, hourly refreshes and the general refresh, in that order;
  - two 100-entry windows of timing measurements
  (`reactive_system.dfy`, class `ReactiveSystem`);
- theme selection: the table of seven predefined themes, guarded theme
  application, per-category customizations merged right-biased, reset, export and
  import, and the count and font checks (`theme_manager.dfy`, class
  `ThemeManager`).

Money is `real`, which is exact, so the sums the application compares with a
0.01 tolerance are equal here. The document is a tree, `Leaf(Value) | Obj(map)`.
Strings, numbers, booleans and `null` are leaves, and so are the item list, the
hourly list and the date, which the application stores as an array and a `Date`
object. A write whose path walk meets a leaf changes nothing, as a JavaScript
property write on a primitive does. The methods that can throw a `TypeError` in
the application return `ok == false` at the point where it would be thrown.
Everything written before that point is kept. `Store.UpdateState` is one of them:
its `ok` is false exactly when the walk meets a leaf before the last key
(`State.WalkThrows`). For a primitive leaf the source then reads a member of
`undefined` and throws; for the lists and the date see "## Left out". A leaf met at
the last key only drops the write, with `ok` true.

The aggregate folds follow the code, not the line-total function: they do not
clamp the discount or the VAT rate, and they do not skip items that the line
total zeroes. So "subtotal + VAT = sum of line totals" is proved only for items
in range (`ItemCalculator.FoldsMatchLineTotals`). `ItemCalculator.FoldsIgnoreClamp`
shows an item outside the range where the two differ.

The flush is modelled as an explicit plan of abstract actions (`RecalcTotals`,
`RefreshItem(id)`, `RefreshHourly(id)`, `RefreshGeneral`). `Run` executes the
plan and stops at the first action that throws. `ProcessUpdateQueue` is the loop
over the phases, and is proved to leave the store exactly as `Run` on the
snapshot's plan. The item lookup in the theme manager reaches members inherited
from `Object.prototype`; see "## Findings".

## Model

| member | source | states |
|---|---|---|
| ItemCalculator.LineTotal | js/calculators/ItemCalculator.js:15-26 | the line total is never negative, and is 0 when quantity <= 0 or unit price < 0 |
| ItemCalculator.LineTotalInvalidIsZero | js/calculators/ItemCalculator.js:16 | an input failing the guard gives 0 whatever the discount and VAT rate |
| ItemCalculator.LineTotalDiscountClamp | js/calculators/ItemCalculator.js:17 | a discount outside [0, 100] gives the same total as discount 0 |
| ItemCalculator.LineTotalVatClamp | js/calculators/ItemCalculator.js:18 | a negative VAT rate gives the same total as rate 0 |
| ItemCalculator.LineTotalFormula | js/calculators/ItemCalculator.js:20-25 | for guarded, in-range inputs the total is q·p·(1 − d/100)·(1 + v/100) |
| ItemCalculator.LineTotalExamples | js/calculators/ItemCalculator.js:15-26 | (2,10,0,0) gives 20, (2,10,10,0) 18, (2,10,0,20) 24, (2,10,10,20) 21.6; zero quantity or negative price gives 0 |
| ItemCalculator.SubtotalEmpty | js/calculators/ItemCalculator.js:33-67 | the three folds are 0 on an empty list |
| ItemCalculator.AppendItem | js/calculators/ItemCalculator.js:33-67 | appending an item adds its net amount, discount, VAT, line total and gross amount to the five sums |
| ItemCalculator.FoldsConcat | js/calculators/ItemCalculator.js:33-67 | each fold of a concatenation is the sum of the folds of the parts |
| ItemCalculator.SubtotalPlusDiscountIsGross | js/calculators/ItemCalculator.js:33-52 | subtotal + total discount equals the sum of quantity × unit price, for every list |
| ItemCalculator.FoldsMatchLineTotals | js/calculators/ItemCalculator.js:15-67 | for items within the guard and clamp ranges, subtotal + VAT equals the sum of the line totals |
| ItemCalculator.FoldsIgnoreClamp | js/calculators/ItemCalculator.js:15-67 | a 150% discount item: the folds give −5 while its line total is 10 |
| ItemCalculator.TotalVATNonNegative | js/calculators/ItemCalculator.js:59-67 | with non-negative quantity, price and rate and discount at most 100, the VAT sum is non-negative |
| ItemCalculator.ReplaceItem | js/calculators/ItemCalculator.js:33-67 | replacing one item changes each fold by the new minus the old contribution |
| ItemCalculator.FoldsIgnoreLineTotal | js/calculators/ItemCalculator.js:33-67 | the folds do not depend on an item's stored line total |
| HourlyCalculator.HourlyTotal | js/calculators/HourlyCalculator.js:13-16 | the hourly total is never negative, and is 0 when hours <= 0 or rate < 0 |
| HourlyCalculator.HourlyTotalFormula | js/calculators/HourlyCalculator.js:13-16 | for positive hours and non-negative rate the total is hours × rate |
| HourlyCalculator.HourlyTotalExamples | js/calculators/HourlyCalculator.js:13-16 | 8 × 50 = 400, 7.5 × 60 = 450, zero hours or negative rate give 0 |
| HourlyCalculator.HourlySubtotal | js/calculators/HourlyCalculator.js:23-27 | the subtotal is never negative and is at least the total of every one of its services |
| HourlyCalculator.HourlyAppend | js/calculators/HourlyCalculator.js:23-27 | appending a service adds its guarded total |
| HourlyCalculator.HourlySubtotalConcat | js/calculators/HourlyCalculator.js:23-27 | the subtotal is additive over concatenation |
| HourlyCalculator.HourlyReplace | js/calculators/HourlyCalculator.js:23-27 | replacing one service changes the subtotal by new minus old total |
| HourlyCalculator.HourlySubtotalExample | js/calculators/HourlyCalculator.js:23-27 | the empty list gives 0; services 8·50, 4·75 and 2·100 give 900 |
| HourlyCalculator.SubtotalIgnoresStoredTotal | js/calculators/HourlyCalculator.js:23-27 | the subtotal recomputes from hours and rate, so a service's stored total does not enter it |
| TotalCalculator.FinalTotalsFields | js/calculators/TotalCalculator.js:13-31 | subtotalHT is item subtotal + hourly subtotal, totalTTC is subtotalHT + VAT, and discount and VAT do not depend on the hourly list |
| TotalCalculator.EmptyTotals | js/calculators/TotalCalculator.js:13-31 | two empty lists give all four totals 0 |
| TotalCalculator.AppendStandardItem | js/calculators/TotalCalculator.js:13-31 | a new standard item raises subtotalHT by its net, discount by its discount, VAT by its VAT and totalTTC by net + VAT |
| TotalCalculator.AppendHourlyItem | js/calculators/TotalCalculator.js:13-31 | a new hourly service leaves discount and VAT unchanged and raises subtotalHT and totalTTC by its total |
| TotalCalculator.ReplaceQuantityAndPrice | js/calculators/TotalCalculator.js:13-31 | changing one item's quantity and price changes each total by new minus old contribution |
| TotalCalculator.TotalWithTaxAtLeastSubtotal | js/calculators/TotalCalculator.js:13-31 | with non-negative quantities, prices and rates and discounts at most 100, totalTTC >= subtotalHT |
| TotalCalculator.GrandTotalIsSumOfLines | js/calculators/TotalCalculator.js:13-31 | for in-range items, totalTTC is the sum of the line totals plus the hourly subtotal |
| TotalCalculator.MixedInvoiceExample | js/calculators/TotalCalculator.js:13-31 | one 2 × 10 item at 20% VAT and one 8 × 50 service give totals 420, 0, 4 and 424 |
| State.FreshWritable | js/models/state.js:72-77 | under a fresh empty object every path can be written |
| State.ReadAfterWrite | js/models/state.js:68-80 | after a write that lands, reading its path gives the written value |
| State.PutLandsOrIgnored | js/models/state.js:68-80 | a write whose walk meets a leaf leaves the document unchanged |
| State.WritableIff | js/models/state.js:72-79 | a write lands exactly when every node of the walk, the last included, is an object |
| State.PathWriteOutcomes | js/models/state.js:72-79 | a write either lands, or meets a leaf at the last step and is dropped, or meets one earlier and throws; the last two leave the document unchanged; on a two-key path it throws exactly when the document is a leaf |
| State.CurrencyWalkExamples | js/models/state.js:72-79 | on the initial document `invoice.currency.a.b` throws, while `invoice.currency.a` does not throw and leaves the document unchanged |
| State.GetBelowFresh | js/models/state.js:72-75 | below a freshly created intermediate object nothing can be read |
| State.PutOffPath | js/models/state.js:68-80 | a path that leaves the written path at some step reads the same before and after the write |
| State.PutIntermediates | js/models/state.js:72-77 | after a landed write each intermediate is an object; a truthy object intermediate keeps its keys, a missing or falsy one is replaced by a new object |
| State.SuccessiveWritesRetained | js/models/state.js:68-80 | of two writes to diverging paths, the first is still readable after the second |
| State.Merge | js/models/state.js:59-61 | the merged top level has exactly the old and new keys; new keys take the new values, the others keep theirs |
| State.ReadTotals | js/models/state.js:22-27 | a totals object reads back exactly when its four members are numbers |
| State.TotalsRoundTrip | js/models/state.js:22-27 | writing totals as an object and reading them back gives the same totals |
| State.InitialInvoiceMember | js/models/state.js:7-45 | each member of the initial invoice object is readable at its two-key path |
| State.InitialStateFacts | js/models/state.js:7-45 | the initial document has empty item and hourly lists, zero totals, currency EUR and theme default |
| State.ValidateItemIff | js/models/state.js:95-116 | a stored item validates iff reference and description are not blank and quantity and unit price are positive |
| State.ValidateHourlyItemIff | js/models/state.js:123-140 | a stored service validates iff its description is not blank and hours and rate are positive |
| State.ValidItemIsPriced | js/models/state.js:107-113 | a valid item never takes the zeroing branch of the line total, and its total is positive unless the discount is exactly 100 |
| State.ValidHourlyIsPriced | js/models/state.js:131-137 | a valid service has a positive total |
| State.Store.constructor | js/models/state.js:7-45 | a new store holds the initial document |
| State.Store.SetState | js/models/state.js:59-61 | the document becomes the shallow merge of the new top-level keys over the old ones |
| State.WalkPath | js/models/state.js:72-77 | the loop returns the nodes the walk passes and the node it reaches, and reports whether a leaf comes before the last key |
| State.RebuildPath | js/models/state.js:79 | the final assignment with the nodes of the walk rebuilt around it is the recursive write `Put` |
| State.Store.UpdateState | js/models/state.js:68-80 | the path walk with its intermediate creation, proved equal to the recursive write `Put`; `ok` is false exactly when the walk meets a leaf before the last key, where the source throws for a primitive leaf |
| Invoice.NewItemDefaults | js/managers/InvoiceManager.js:24-40 | missing or empty text becomes "", a missing or zero quantity becomes 1, missing numbers become 0, and the line total is that of the stored fields |
| Invoice.RemoveById | js/managers/InvoiceManager.js:51-54 | the result keeps exactly the items with another id, is no longer than the input, and equals it when no item matches |
| Invoice.RemoveByIdConcat | js/managers/InvoiceManager.js:53 | removal distributes over concatenation, so the survivors keep their order |
| Invoice.UpdateById | js/managers/InvoiceManager.js:63-79 | length and order are kept, items with another id are unchanged, matching items become the merged update with a recomputed line total |
| Invoice.UpdateAbsentId | js/managers/InvoiceManager.js:63-79 | an update for an id no item carries changes nothing |
| Invoice.AddFreshKeepsIdsDistinct | js/managers/InvoiceManager.js:23-45 | adding under a fresh id keeps the item ids pairwise distinct |
| Invoice.WriteInvoiceMember | js/models/state.js:68-80 | writing a member of the invoice object changes that member only and no other top-level key |
| Invoice.InvoiceMemberWritable | js/models/state.js:72-77 | whenever the invoice is an object, its members can be written |
| Invoice.SetItemsSpec | js/managers/InvoiceManager.js:42-43 | replacing the item list sets exactly the `items` member; the hourly list is unchanged |
| Invoice.CalculateTotalsSpec | js/managers/InvoiceManager.js:86-92 | succeeds iff both lists are lists; on failure nothing changes; on success exactly `totals` is set, to the final totals of the two lists |
| Invoice.SetItemsThenTotals | js/managers/InvoiceManager.js:43-44 | after replacing the list and recomputing, the list is the new one and, when the hourly list is a list, the totals are those of the two lists |
| Invoice.AddItemSpec | js/managers/InvoiceManager.js:23-45 | the new list is the old one plus exactly one new item at the end, and the totals are recomputed from it; without an item list nothing changes |
| Invoice.RemoveItemSpec | js/managers/InvoiceManager.js:51-56 | the new list keeps exactly the items with another id, and the totals are recomputed from it |
| Invoice.UpdateItemSpec | js/managers/InvoiceManager.js:63-81 | the new list is the per-id update of the old one, and the totals are recomputed from it |
| Invoice.SetCompanyInfoSpec | js/managers/InvoiceManager.js:15-17 | the company becomes the old members overridden by the new ones; nothing else in the invoice changes |
| Invoice.ThemeAndCurrencySpec | js/managers/InvoiceManager.js:114-124 | theme and currency selection each write their own member of the invoice and nothing else |
| Invoice.InvoiceManager.constructor | js/managers/InvoiceManager.js:7-9 | the manager works on the given store |
| Invoice.InvoiceManager.SetCompanyInfo | js/managers/InvoiceManager.js:15-17 | the store and outcome are those of the company merge over the old document |
| Invoice.InvoiceManager.AddItem | js/managers/InvoiceManager.js:23-45 | the store and outcome are those of adding the defaulted item under the fresh id |
| Invoice.InvoiceManager.RemoveItem | js/managers/InvoiceManager.js:51-56 | the store and outcome are those of removing the id and recomputing |
| Invoice.InvoiceManager.UpdateItem | js/managers/InvoiceManager.js:63-81 | the store and outcome are those of updating the id and recomputing |
| Invoice.InvoiceManager.CalculateTotals | js/managers/InvoiceManager.js:86-92 | the store and outcome are those of recomputing the totals |
| Invoice.InvoiceManager.ApplyTheme | js/managers/InvoiceManager.js:114-116 | the store is the old document with the theme written |
| Invoice.InvoiceManager.SetCurrency | js/managers/InvoiceManager.js:122-124 | the store is the old document with the currency written |
| Reactive.Enqueue | js/reactive-system.js:141-171 | set insertion: exactly the old keys plus the new one, distinctness kept, the old queue a prefix, and no change when the key is present |
| Reactive.EnqueueIdempotent | js/reactive-system.js:141-171 | adding a key twice is adding it once |
| Reactive.PlanInPhaseOrder | js/reactive-system.js:202-224 | the plan runs recalculation, then item refreshes, then hourly refreshes, then the general refresh |
| Reactive.ItemKeyStrips | js/reactive-system.js:159-162 | an item key starts with "item-" and stripping the prefix gives back the id |
| Reactive.ItemIdsExact | js/reactive-system.js:208-212 | an id is refreshed by the item phase exactly when its item key was queued |
| Reactive.HourlyIdsExact | js/reactive-system.js:215-219 | an id is refreshed by the hourly phase exactly when its hourly key was queued |
| Reactive.ItemIdsConcat | js/reactive-system.js:208-212 | item refreshes follow queue order |
| Reactive.HourlyIdsConcat | js/reactive-system.js:215-219 | hourly refreshes follow queue order |
| Reactive.PlanCoversQueue | js/reactive-system.js:202-224 | each of the four actions is in the plan exactly when its key was in the snapshot |
| Reactive.FindFirst | js/reactive-system.js:284-286 | the first position of a record with the id, or none when no record has it; the item lookup here and the service lookup at 315-317 are both this search |
| Reactive.Run | js/reactive-system.js:197-239 | the actions performed are a prefix of the plan, and all of it when nothing throws |
| Reactive.RunStopsAtFailure | js/reactive-system.js:235-236 | once an action has thrown, the rest of the plan is skipped |
| Reactive.RunStep | js/reactive-system.js:202-224 | running one more action continues from where the plan stopped |
| Reactive.RunFrom | js/reactive-system.js:202-224 | a successful first part followed by a second is the second run from the first's result |
| Reactive.RefreshLineSpec | js/reactive-system.js:282-307 | the item refresh changes only the line total of the first matching item, to its recomputed line total, and nothing when none matches |
| Reactive.RefreshLineKeepsTotals | js/reactive-system.js:303-306 | an item refresh leaves the final totals unchanged |
| Reactive.RefreshHourlyLineSpec | js/reactive-system.js:313-333 | the hourly refresh changes only the total of the first matching service, to its recomputed total |
| Reactive.RefreshHourlyKeepsTotals | js/reactive-system.js:329-332 | an hourly refresh leaves the final totals unchanged |
| Reactive.SetHourlySpec | js/reactive-system.js:331 | writing the hourly list sets exactly `hourlyItems`; items and totals are unchanged |
| Reactive.PerformKeepsTotalsCurrent | js/reactive-system.js:202-224 | recalculation makes the stored totals current and every other action keeps them current |
| Reactive.RunKeepsTotalsCurrent | js/reactive-system.js:202-224 | a plan run from current totals leaves them current unless it throws |
| Reactive.RecalcFirstLeavesTotalsCurrent | js/reactive-system.js:202-224 | a plan that starts with recalculation and does not throw ends with current totals |
| Reactive.FlushLeavesTotalsCurrent | js/reactive-system.js:191-240 | a flush with "calculations" queued that does not throw leaves the totals equal to those of the lists |
| Reactive.RecordTime | js/reactive-system.js:473-480 | the new window ends with the measurement, is a suffix of old + new, stays within 100 entries, and drops nothing while below 100 |
| Reactive.RecordTimeKeepsLast | js/reactive-system.js:473-493 | a window is always the last 100 measurements recorded, in order |
| Reactive.MaxOrZero | js/reactive-system.js:541-550 | the maximum is non-negative, bounds every entry and is 0 or an entry |
| Reactive.AverageBounds | js/reactive-system.js:517-535 | for non-negative measurements the average lies between 0 and the maximum |
| Reactive.MetricsExample | js/reactive-system.js:517-550 | 10, 20 and 30 average 20 with maximum 30; an empty window gives 0 and 0 |
| Reactive.ReactiveSystem.constructor | js/reactive-system.js:7-21 | empty queue, latch off, no timer and empty windows |
| Reactive.ReactiveSystem.Request | js/reactive-system.js:141-185 | the key is added with set semantics and the single timer is re-armed with the reason |
| Reactive.ReactiveSystem.DebounceUpdate | js/reactive-system.js:177-185 | exactly one timer is armed afterwards, carrying the latest reason |
| Reactive.ReactiveSystem.ScheduleCalculationUpdate | js/reactive-system.js:141-144 | "calculations" is added and the timer re-armed with the reason |
| Reactive.ReactiveSystem.ScheduleDisplayUpdate | js/reactive-system.js:150-153 | "display" is added and the timer re-armed with the reason |
| Reactive.ReactiveSystem.ScheduleItemUpdate | js/reactive-system.js:159-162 | "item-" + id is added and the timer re-armed with "item-update" |
| Reactive.ReactiveSystem.ScheduleHourlyUpdate | js/reactive-system.js:168-171 | "hourly-" + id is added and the timer re-armed with "hourly-update" |
| Reactive.ReactiveSystem.PerformCalculations | js/reactive-system.js:245-276 | the store is that of the totals recompute, and the calculation time is recorded exactly when it succeeds |
| Reactive.ReactiveSystem.UpdateItemDisplay | js/reactive-system.js:282-307 | the store and outcome are those of the item refresh action |
| Reactive.ReactiveSystem.UpdateHourlyDisplay | js/reactive-system.js:313-333 | the store and outcome are those of the hourly refresh action |
| Reactive.ReactiveSystem.UpdateGeneralDisplay | js/reactive-system.js:338-350 | the general refresh changes nothing and throws when the totals cannot be read |
| Reactive.ReactiveSystem.RefreshItems | js/reactive-system.js:208-212 | the item loop runs exactly the item part of the plan, stopping at a throw |
| Reactive.ReactiveSystem.RefreshHourlies | js/reactive-system.js:215-219 | the hourly loop runs exactly the hourly part of the plan, stopping at a throw |
| Reactive.ReactiveSystem.RecalculationPhase | js/reactive-system.js:202-205 | recalculation runs only when "calculations" was queued, recording its time on success |
| Reactive.ReactiveSystem.DisplayPhase | js/reactive-system.js:221-224 | the general refresh runs only when "display" was queued and nothing has thrown |
| Reactive.ReactiveSystem.ProcessUpdateQueue | js/reactive-system.js:191-240 | while latched nothing changes; otherwise the queue is emptied, the store is the plan of the snapshot run to the first throw, the latch is released, and the timings are recorded; the notices are the performance warnings, or one `UpdateFailed` notice when a step throws |
| Reactive.ReactiveSystem.TimerFires | js/reactive-system.js:177-185 | the armed timer is consumed and the queue flushed with its reason: while latched nothing else changes; otherwise the store, queue, latch, timings and notices are those of the flush |
| Reactive.ReactiveSystem.ForceUpdate | js/reactive-system.js:555-559 | "calculations" and "display" are added and the queue flushed at once: while latched the queue keeps the two keys and nothing else changes; otherwise the store, queue, latch, timings and notices are those of the flush |
| Reactive.ReactiveSystem.GetPerformanceMetrics | js/reactive-system.js:541-550 | counts are the window lengths (at most 100), averages are the window means, maxima bound every entry and are non-negative |
| Reactive.ReactiveSystem.ResetPerformanceMetrics | js/reactive-system.js:564-567 | both windows are emptied and nothing else changes |
| Themes.ThemeTableKeys | js/managers/ThemeManager.js:17-181 | the table holds exactly the seven predefined ids |
| Themes.ThemeTableCount | js/managers/ThemeManager.js:17-181 | the table holds seven themes, so the count check passes |
| Themes.ThemeIdsMatchKeys | js/managers/ThemeManager.js:17-181 | each theme is filed under its own id |
| Themes.FontCategoriesFilled | js/managers/ThemeManager.js:312-338 | each of the three font categories offers at least one family |
| Themes.ThemeFontsOffered | js/managers/ThemeManager.js:17-338 | every font a predefined theme uses is among the families offered |
| Themes.InheritedNameBreaksCurrentTheme | js/managers/ThemeManager.js:196-217 | applying "constructor", which is no theme, sets the current theme to it and then throws |
| Themes.GetThemeIn | js/managers/ThemeManager.js:196-198 | a theme is found exactly for an own id of the table, and it is the filed theme |
| Themes.CorrectedLookupAgrees | js/managers/ThemeManager.js:196-198 | the corrected lookup agrees with the written one on own ids and gives none exactly where the written one gives null or an inherited member |
| Themes.MergeCategory | js/managers/ThemeManager.js:255-306 | only the category changes; its new map has the config's entries, and keeps the old entries the config leaves out |
| Themes.ApplyTo | js/managers/ThemeManager.js:213-249 | applied exactly for ids in the table; the current theme changes only then; customizations and the state invariant are kept |
| Themes.CustomizeKeepsWellFormed | js/managers/ThemeManager.js:255-306 | customizing keeps the state invariant exactly for the three categories |
| Themes.MergeIntoAbsent | js/managers/ThemeManager.js:255-306 | merging into an absent category stores the config as it is |
| Themes.MergeCategoriesIntoEmpty | js/managers/ThemeManager.js:406-416 | merging the three present categories into nothing rebuilds them |
| Themes.ImportExportRoundTrip | js/managers/ThemeManager.js:390-417 | importing an exported configuration into an uncustomized state restores the exported state |
| Themes.ThemeManager.constructor | js/managers/ThemeManager.js:7-12 | the predefined table, theme "default", no customizations, and the invariant holds |
| Themes.ThemeManager.GetAllThemes | js/managers/ThemeManager.js:187-189 | the theme table, which holds "default" and the current theme |
| Themes.ThemeManager.GetTheme | js/managers/ThemeManager.js:196-198 | the theme filed under the id, or none when the table has no such id |
| Themes.ThemeManager.GetCurrentTheme | js/managers/ThemeManager.js:204-206 | always defined: the current theme is in the table |
| Themes.ThemeManager.ApplyTheme | js/managers/ThemeManager.js:213-249 | returns true iff the id is in the table, sets the current theme only then, and leaves customizations and table alone |
| Themes.ThemeManager.CustomizeColors | js/managers/ThemeManager.js:255-268 | the colours category becomes the old overrides overridden by the config |
| Themes.ThemeManager.CustomizeFonts | js/managers/ThemeManager.js:274-287 | the fonts category becomes the old overrides overridden by the config |
| Themes.ThemeManager.CustomizeLayout | js/managers/ThemeManager.js:293-306 | the layout category becomes the old overrides overridden by the config |
| Themes.ThemeManager.ValidateFontAvailability | js/managers/ThemeManager.js:344-351 | the check is the font predicate, and it holds |
| Themes.ThemeManager.GetThemeCount | js/managers/ThemeManager.js:357-359 | the number of ids in the table, 7 for the predefined one |
| Themes.ThemeManager.ValidateThemeCount | js/managers/ThemeManager.js:365-368 | true iff the table has 5 to 10 themes, which the predefined table does |
| Themes.ThemeManager.ResetToDefault | js/managers/ThemeManager.js:373-376 | theme "default" and no customizations afterwards |
| Themes.ThemeManager.GetCustomizations | js/managers/ThemeManager.js:382-384 | the customizations, which only use the three categories |
| Themes.ThemeManager.ExportConfiguration | js/managers/ThemeManager.js:390-395 | the current theme, which is in the table, and the customizations |
| Themes.ThemeManager.ImportConfiguration | js/managers/ThemeManager.js:401-417 | a non-empty theme id is applied, then each present category is merged in |

## Left out

- DOM work is not modelled: event listeners, element lookups, `textContent` and style writes, `CustomEvent` dispatch, and the CSS variables and classes a theme sets. The listener setup in `js/reactive-system.js:27-135` and the display helpers at 356-444 are not part of this model.
- Timers and the clock are inputs. `setTimeout` and `clearTimeout` become the `debounceTimer` field, holding the reason of the one armed timer. `TimerFires` is its expiry. The times from `performance.now` are parameters.
- Each flush runs to completion before the model returns. `forceUpdate` does not await `processUpdateQueue`, so two `forceUpdate` calls in one synchronous block would find the latch set; no caller in the application starts two flushes in one task. The latch branch is still modelled.
- Currency formatting (`formatCurrency`, `Intl.NumberFormat`, `toFixed`) is not modelled. The updates of displayed text are left out with it.
- Numbers are exact reals. IEEE-754 rounding, `NaN`, infinities and string-typed inputs are not modelled.
- `generateId` is replaced by a fresh id that the caller passes in. Only its freshness is used (`Invoice.AddFreshKeepsIdsDistinct`).
- A write through an array index (`invoice.items.N.lineTotal`, `invoice.hourlyItems.N.total`) is modelled as a write of the whole list, with the one item changed.
- A `TypeError` and a silently dropped write both leave the document unchanged. The `ok` flag tells them apart: it is false only for the `TypeError`.
- Aliasing is not modelled. The manager's captured `this.state` and the store are one document. `getAllThemes` returns its table by reference, not as a copy.
- Object spread of arbitrary keys is not modelled. An item update may carry only the item's own fields (`ItemUpdate`), and company data is a map of members.
- The currency manager, the PDF and image engines, the boot wiring and the interface checks are not part of this model.
- Reactive.ReactiveSystem.UpdateGeneralDisplay: only states whether the refresh throws. The totals display, currency formatting and preview updates it drives are DOM work.
- Reactive.PerformanceNotices: the console warnings of `checkPerformanceRequirements` are returned as notices; the message text is not modelled.
- State.Store.UpdateState: a key that names a member inherited from `Object.prototype` (`constructor`, `__proto__`, see `Themes.PrototypeMembers`) or a property of a primitive (a string's `length` or indices) is modelled as an absent own key. The source walks into the inherited member instead, so `__proto__.x` writes to `Object.prototype` and `invoice.currency.0.x` does not throw. The item list, the hourly list and the date are leaves, while the source holds an array and a `Date` object there, both truthy. A path through them (`invoice.items.0.lineTotal`, `invoice.date.x.y`) is reported as throwing, and `invoice.date.x` is dropped, where the source writes into the array or the `Date`. The application's own calls write `invoice.<member>` paths, except the two list writes `invoice.items.N.lineTotal` and `invoice.hourlyItems.N.total` (js/reactive-system.js:305 and :331), which are modelled as whole-list writes (see above).
- Themes.ThemeManager.ImportConfiguration: a category counts as present when its key is present. A falsy non-object value is not modelled, because categories are maps.

## Findings

| source | as written | input that shows it | evidently intended | confidence | as-written member | corrected member |
|---|---|---|---|---|---|---|
| js/managers/ThemeManager.js:196-217 | `getTheme` reads `this.themes[themeId] || null`, which also finds members inherited from `Object.prototype`; `applyTheme` then sets `currentTheme` before reading the theme's colours | `applyTheme("constructor")` finds the `Object` function, sets `currentTheme` to "constructor", and throws when reading `colors.primary`; afterwards `getCurrentTheme` returns no theme. `importConfiguration` with `currentTheme` "constructor" throws in `applyTheme` and never merges its customizations | only themes of the table are found, so an unknown id returns false and leaves `currentTheme` unchanged; `ImportConfiguration` and `ResetToDefault` call the corrected `ApplyTheme`, so such an import returns with the customizations merged | not executed | Themes.InheritedNameBreaksCurrentTheme | Themes.ThemeManager.ApplyTheme |
