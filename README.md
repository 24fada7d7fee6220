# ShipIt outbound orders, modelled in Dafny

This project models the outbound-order controller of the ShipIt warehouse service. A request
names a warehouse and a list of order lines (gtin, quantity). `Post` validates it in three
stages:

1. It scans the gtins and fails fast on the first gtin already seen.
2. It looks every gtin up in the product catalog and fails with all unknown gtins, in line order.
   It also builds one stock alteration (product id, quantity) per line.
3. It reads the warehouse's stock for those product ids and fails with every line that has no
   stock entry or asks for more than is held.

Only when all three stages pass does it remove the whole batch from the stock ledger in one
call. It then packs the lines onto trucks with a greedy first-fit rule under a 2000 kg cap and
reports the trucks and their number.

The model has five modules:

- `Orders` holds the value types: order lines, requests, products, stock alterations, and the
  three error kinds as a datatype.
- `Validation` holds the three stages as pure functions and `Validate`, which runs them in
  order, together with the lemmas that characterise them.
- `Ledger` holds the stock ledger: the stock read `StockFor`, the batch deduction `Deducted`,
  and the class `StockLedger`, whose `RemoveStock` updates the held quantities in place.
- `Allocation` holds first-fit packing as a pure specification (`Place`, `Allocate`) and what
  it guarantees: each line is packed once, weight is conserved, the cap holds except for a
  truck carrying a single line, and the worked examples come out as expected.
- `Controller` holds the imperative code. `Truck` is a class whose gtin entries and total weight
  are updated in place. The stage methods `FindDuplicate`, `ResolveProducts` and `CheckStock`
  have the source's loops. `OutboundOrderController` holds `Post` and `GetTruckShipments`.

Each method is proved against its specification function. `Post` ends in one of two ways.
If `Validate` fails, `Post` returns that error and the ledger is untouched. Otherwise it removes
exactly the validated batch, once, and returns trucks that hold `Allocate` of the order.

Weights are exact reals: grams per unit, and kilograms per line and per truck.

## Model

| member | source | states |
|---|---|---|
| Validation.FirstRepeat | ShipIt/Controllers/OutboundOrderController.cs:31-39 | there is no repeat exactly when the gtins are distinct; a reported index is a line whose gtin occurs earlier, with every line before it distinct |
| Validation.FirstRepeatIsEarliest | ShipIt/Controllers/OutboundOrderController.cs:31-39 | any line that repeats an earlier gtin, with all lines before it distinct, is the one the scan reports, so the reported duplicate is the first in input order |
| Controller.FindDuplicate | ShipIt/Controllers/OutboundOrderController.cs:31-39 | the loop stops at the first repeated gtin and names it; without a repeat it returns the gtins of all lines in order |
| Validation.DuplicateRejected | ShipIt/Controllers/OutboundOrderController.cs:31-39 | an order with a repeated gtin fails with `DuplicateGtin` for the first line that repeats an earlier one, whatever the catalog and the stock |
| Validation.UnknownGtinsInOrder | ShipIt/Controllers/OutboundOrderController.cs:48-53 | the unknown list has one entry per line without a product: entry k is the gtin of line idx[k], the indices strictly increase, and they are exactly the lines without a product |
| Validation.UnknownGtinsMembers | ShipIt/Controllers/OutboundOrderController.cs:48-53 | the collected unknown gtins are exactly the order's gtins that have no product |
| Validation.AlterationsAligned | ShipIt/Controllers/OutboundOrderController.cs:54-59 | when every line has a product, there is one alteration per line, and alteration i carries line i's product id and quantity |
| Controller.ResolveProducts | ShipIt/Controllers/OutboundOrderController.cs:44-60 | the loop's three lists equal the unknown gtins, the alterations and their product ids |
| Validation.ResolutionSucceedsExactly | ShipIt/Controllers/OutboundOrderController.cs:48-65 | the unknown list is empty exactly when every gtin is in the catalog, and the products then used are the catalog's |
| Validation.UnknownRejected | ShipIt/Controllers/OutboundOrderController.cs:48-65 | an order with distinct gtins and an unknown gtin fails with `UnknownProducts`, whatever the stock; the list holds exactly the gtins the catalog lacks, one per such line, in line order, none twice |
| Validation.StockProblemsInOrder | ShipIt/Controllers/OutboundOrderController.cs:72-90 | the problem list has one entry per alteration that stock cannot satisfy, in line order: entry k is the problem of alteration idx[k] (no stock held for a missing entry, else held and requested quantities), the indices strictly increase, and they are exactly the failing alterations |
| Validation.NoStockProblemsExactly | ShipIt/Controllers/OutboundOrderController.cs:72-95 | no problem is recorded exactly when every alteration has a stock entry holding at least its quantity |
| Validation.StockProblemsCollected | ShipIt/Controllers/OutboundOrderController.cs:77-89 | an alteration without a stock entry yields `NoStockHeld` for its gtin, and one asking for more than is held yields `NotEnoughStock` with its gtin, the held and the requested quantity |
| Controller.CheckStock | ShipIt/Controllers/OutboundOrderController.cs:72-90 | the loop, including its `continue` after a missing entry, collects exactly `StockProblems` |
| Validation.StockSucceedsExactly | ShipIt/Controllers/OutboundOrderController.cs:67-95 | for a batch aligned with the lines, the stock stage passes exactly when the warehouse holds enough of every line's product |
| Validation.LineProblemIsShortfall | ShipIt/Controllers/OutboundOrderController.cs:67-89 | for a batch aligned with the lines, the problem found for alteration i through the stock read is line i's shortfall in the warehouse's ledger |
| Validation.StockRejected | ShipIt/Controllers/OutboundOrderController.cs:67-95 | an order with distinct, known gtins that the warehouse cannot fill fails with `InsufficientStock`, whose list has one problem per line that falls short, in line order, each that line's shortfall |
| Validation.ValidateAcceptsExactly | ShipIt/Controllers/OutboundOrderController.cs:31-95 | an order passes all three stages exactly when its gtins are distinct, all known and in stock; the batch is then aligned line by line with the order |
| Validation.AcceptedBatch | ShipIt/Controllers/OutboundOrderController.cs:54-97 | an accepted order's batch has one alteration per line, for that line's product, and names no product twice when the catalog's product ids are unique |
| Ledger.DeductedEffect | ShipIt/Controllers/OutboundOrderController.cs:97 | a batch removal keeps the ledger's keys, lowers each entry of the warehouse by the batch's total for that product, and leaves other warehouses alone |
| Ledger.QuantityForDistinct | ShipIt/Controllers/OutboundOrderController.cs:97 | in a batch with one alteration per product, a product's total is its own alteration's quantity |
| Ledger.QuantityForAbsent | ShipIt/Controllers/OutboundOrderController.cs:97 | a product the batch does not name loses nothing |
| Ledger.StockLedger.RemoveStock | ShipIt/Controllers/OutboundOrderController.cs:97 | the held quantities become the batch deduction of the old ones, and the call is recorded once in the removal log |
| Validation.AcceptedOrderDeducts | ShipIt/Controllers/OutboundOrderController.cs:97 | after an accepted order's removal, each ordered product's stock in the warehouse is its old stock minus its line's quantity |
| Validation.AcceptedOrderLeavesOthers | ShipIt/Controllers/OutboundOrderController.cs:97 | after an accepted order's removal, the ledger has the same keys, and entries of other warehouses or other products are unchanged |
| Controller.OutboundOrderController.Post | ShipIt/Controllers/OutboundOrderController.cs:27-107 | a rejected order returns the first failing stage's error and leaves the ledger and its removal log as they were; an accepted order removes exactly its batch once, returns trucks holding `Allocate` of the lines, and reports their number, which is at most the number of lines and at least one for a non-empty order |
| Allocation.FirstFitting | ShipIt/Controllers/OutboundOrderController.cs:134-145 | the index found is the lowest one at which the line fits, or the number of trucks when no truck fits |
| Allocation.PlaceIsFirstFit | ShipIt/Controllers/OutboundOrderController.cs:134-154 | a line joins the lowest-index truck whose total plus its weight is at most 2000 kg, and a new truck is appended exactly when no truck fits |
| Allocation.TruckCountBounds | ShipIt/Controllers/OutboundOrderController.cs:121-155 | there are at most as many trucks as lines, at least one for a non-empty order, and no truck is empty |
| Allocation.CapacityRespected | ShipIt/Controllers/OutboundOrderController.cs:134-154 | every truck's total is at most 2000 kg unless the truck carries exactly one line |
| Allocation.TruckTotalsExact | ShipIt/Controllers/OutboundOrderController.cs:126-153 | each truck's total weight is the sum of the weights of its lines, a line with an unknown gtin weighing 0 |
| Allocation.WeightConserved | ShipIt/Controllers/OutboundOrderController.cs:126-153 | the trucks' totals add up to the sum of the line weights |
| Allocation.PackedPlace | ShipIt/Controllers/OutboundOrderController.cs:134-154 | placing a line adds exactly that line to the trucks' entries |
| Allocation.AllLinesPacked | ShipIt/Controllers/OutboundOrderController.cs:124-155 | the trucks' entries, as a multiset, are exactly the order lines with their quantities |
| Allocation.PackedMembers | ShipIt/Controllers/OutboundOrderController.cs:124-155 | an entry is among the packed entries exactly when some truck carries it |
| Allocation.GtinsPartitioned | ShipIt/Controllers/OutboundOrderController.cs:124-155 | with distinct gtins, no gtin occurs twice across all trucks, so a truck's gtin dictionary never receives a key twice, and every entry is one of the order lines |
| Allocation.EachLineOnOneTruck | ShipIt/Controllers/OutboundOrderController.cs:124-155 | with distinct gtins, each order line is on some truck with its quantity, and its gtin occurs at one place only |
| Allocation.ExampleLightLinesShareATruck | ShipIt/Controllers/OutboundOrderController.cs:124-155 | 3 units of 500 g and 2 units of 400 g share one truck of 2.3 kg |
| Allocation.ExampleOversizeLineAlone | ShipIt/Controllers/OutboundOrderController.cs:124-155 | a single 3000 kg line goes alone onto one truck, over the cap, without an error |
| Allocation.ExampleHeavyLinesSplit | ShipIt/Controllers/OutboundOrderController.cs:124-155 | two 1100 kg lines go onto two trucks |
| Controller.Truck.constructor | ShipIt/Controllers/OutboundOrderController.cs:145-149 | a new truck has no entries and a total of 0 kg |
| Controller.Truck.AddGtinQuantity | ShipIt/Controllers/OutboundOrderController.cs:138 | the entry is appended to the truck's gtin entries, whose keys must be new, and the total is unchanged |
| Controller.NewGtinOnNoTruck | ShipIt/Controllers/OutboundOrderController.cs:138 | with distinct gtins, the gtin of the next line is on none of the trucks packed so far, so its dictionary `Add` cannot clash |
| Controller.LoadFirstFit | ShipIt/Controllers/OutboundOrderController.cs:133-154 | one line's step, done in place: the trucks afterwards hold `Place` of the manifests they held before, existing trucks stay in their places, and any new truck is fresh |
| Controller.OutboundOrderController.GetTruckShipments | ShipIt/Controllers/OutboundOrderController.cs:115-157 | the returned trucks are new, distinct objects that hold, one by one, the manifests of `Allocate` of the lines under the products looked up by gtin |
| Controller.OutboundOrderController.constructor | ShipIt/Controllers/OutboundOrderController.cs:20-24 | the controller keeps the catalog and the stock repository it is given |

## Left out

- HTTP routing, the `ControllerBase` plumbing and log4net logging: framework concerns with no logic of their own.
- The product and stock repositories are not part of this model. They are modelled as a gtin-to-product map (`catalog`) and the `StockLedger` class holding a (warehouse, product id)-to-held map. Both product lookups read the same map. `ProductsByGtin` and `StockFor` define the two lookups as map restrictions.
- The foreign calls cannot fail in the model. `RemoveStock` always applies its batch, so a ledger-side failure is not modelled. The duplicate-key exception that building the product dictionary can throw is ruled out, because the catalog is keyed by gtin.
- Ledger.StockLedger.RemoveStock: the repository behind it is foreign, so the model fixes its effect as the ordered deduction of each alteration from an existing entry. An alteration without an entry is ignored; under a successful `Post` every alteration has an entry.
- The atomicity of the batch removal and races between the stock read and the removal under concurrent requests: the ledger owns concurrency, and the model is sequential.
- Controller.OutboundOrderController.Post: the no-lookup property of a rejected order is stated only as the ledger and its removal log being unchanged. Repository reads have no observable effect in the model.
- IEEE single-precision arithmetic of the weights and totals: the model uses exact reals, so rounding in the source's `float` sums is not captured.
- The message text of the three exceptions: the errors are structured values carrying the gtins, held and requested quantities, in the order the source would join them.
- Dictionary iteration order of a truck's `gtinQuantities`: the entries are a sequence in insertion order.
- Controller.OutboundOrderController.GetTruckShipments: it requires distinct gtins, which `Post` guarantees after stage 1. The source only throws on a gtin repeated on the same truck, so this precondition is stronger than the exact no-throw condition for direct callers.
- Controller.LoadFirstFit: the body of the source's loop over the order lines, with its inner scan of the trucks, `productAdded` flag and `break`, is a method of its own. Its steps and their order are the source's.
- Controller.OutboundOrderController.Post: the controller makes no sign check on quantities, and neither does the model. Any check in the `StockAlteration` constructor or the request model is not part of this model. Negative weights are allowed too; every allocator property above holds for them.
- `CalculateNumberOfTrucks` returns the list's length. Its contract is stated through `Post`, which proves the reported number equals the number of trucks and bounds it by the number of lines.
- Validation.AcceptedOrderDeducts: assumes that the catalog gives different gtins different product ids. The source relies on the product table for this; with shared ids, the removal lowers a product by the sum of its lines, as `Ledger.DeductedEffect` states.
