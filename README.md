# A verified model of the snack-bar point of sale

This project models the in-memory engine of a React point-of-sale app for an açaí and snack bar. The model covers:

- the **stock ledger**: whole-unit decrements that clamp at zero, gram and millilitre decrements whose check reads the render-time stock, overwrites, minimum quantities, the low-stock query and the initial ledger;
- the **order ledger**: preparing orders, ready orders, `addOrder`, `markAsReady` and `removeReadyOrder`;
- the **customer cart**: the merge rule, index-based update and remove, and totals;
- the **ingredient-aware stock deduction** of a customer order;
- the two **ingredient-selection dialogs**, for the menu and for the counter;
- the **product, portion and composite-product registries**, including the cascading category delete and the filters;
- the **sales log** and its aggregations;
- the **counter screen**: its cart with portion stock gating, loading a table's comanda by typed or scanned number, and settling a sale;
- the **comanda board**, which groups orders by table;
- the **admin forms** for stock, portions and composite products;
- the **kitchen's new-order signal**.

Each provider and each screen whose state the handlers update is a `class`, with `seq` fields and methods that `modify` them. Every such method is proved against a function of the old state. The rules the code follows are pure functions, with lemmas about them.

Some of these lemmas state the behaviour of the code where the app's written description says something else. In each case the model follows the code:

- `Orders.OrderTypeNeverSet` and `ComandaLoading.NeverLoads`: no order carries an `orderType`, so loading a comanda never finds one.
- `Settlement.SettleNeverClears`: for the same reason, a counter sale never removes a ready order.
- `Settlement.CompositeLineDeductsNothing`: counter composite lines never deduct their ingredients.
- `Settlement.PerLineValidation`: portion stock is validated line by line, not across lines that share an ingredient. Each deduction's gate also reads the stock of the render rather than the running stock, so two portions that need 400 g of a 300 g ingredient both go through and leave 0 g.
- `StockDeduction.FractionalIngredientShort`: a refused gram/millilitre deduction is silently ignored.
- `IngredientModal.RequiredNotForcedOn`: the counter's ingredient dialog does not force required ingredients on.
- `CompositeItemModal.DuplicateIdLastWins`: a recipe that repeats an ingredient id keeps only the last row's flag.
- `StockAdmin.EditToWholeKeepsVolume`: editing a product into a whole one keeps its old volume fields.

## Model

| member | source | states |
|---|---|---|
| Stock.Touched | src/contexts/StockContext.tsx:56-72 | definition of the id-preserving `prev.map` the three writers share; Stock.TouchedLookup and Stock.SameIdsFirstIndex state what it changes |
| Stock.Overwritten | src/contexts/StockContext.tsx:56-62 | definition of `updateStock`; Stock.OverwriteLookup and Stock.OverwritePreservesNonNegative state its effect |
| Stock.Max0 | src/contexts/StockContext.tsx:68 | definition of `Math.max(0, x)` on stock quantities |
| Stock.Decreased | src/contexts/StockContext.tsx:64-72 | definition of `decreaseStock` with its clamp at 0; Stock.DecreaseLookup, Stock.DecreaseEntries and Stock.DecreaseUnknown state its effect |
| Stock.WithMinQuantity | src/contexts/StockContext.tsx:100-106 | definition of `setMinQuantity`; Stock.MinQuantityKeepsLookups states that no reading changes |
| Stock.CheckFractionalAvailable | src/contexts/StockContext.tsx:74-80 | definition of `checkFractionalStockAvailable`; Stock.CheckPredictsFractionalDecrease ties it to the decrement's guard |
| Stock.IsLow | src/contexts/StockContext.tsx:109 | definition of the `quantity <= minQuantity` test of `getLowStockItems` |
| Stock.FirstIndex | src/contexts/StockContext.tsx:40-46 | the position `find` stops at: no earlier entry has the id, the entry there has it, or it is the end when no entry has it |
| Stock.FirstIndexUnique | src/contexts/StockContext.tsx:40-46 | the position with those two properties is unique |
| Stock.Available | src/contexts/StockContext.tsx:40-54 | the quantity read for a product is 0 when it has no entry and otherwise the quantity of its first entry |
| Stock.AvailableNonNegative | src/contexts/StockContext.tsx:40-54 | a lookup in a ledger with no negative quantity is never negative |
| Stock.FractionalDecrease | src/contexts/StockContext.tsx:82-98 | the decrement is refused exactly when the render-time stock the callback closed over is below the volume, and a refusal changes nothing |
| Stock.LowStockItems | src/contexts/StockContext.tsx:108-110 | holds exactly the entries whose quantity is at or below their threshold, each as often as in the ledger |
| Stock.SameIdsFirstIndex | src/contexts/StockContext.tsx:40-46 | two ledgers with the same ids in the same positions give the same lookup positions |
| Stock.TouchedLookup | src/contexts/StockContext.tsx:56-72 | an id-preserving update of one product's entries changes that product's lookup to the updated first entry and no other product's lookup |
| Stock.DecreaseLookup | src/contexts/StockContext.tsx:64-72 | after `decreaseStock` the product reads max(0, before − amount), and every other product reads as before |
| Stock.DecreaseEntries | src/contexts/StockContext.tsx:64-72 | `decreaseStock` keeps the ids and positions, leaves other products' entries equal, and sets each of the product's entries to its own clamped difference |
| Stock.DecreasePreservesNonNegative | src/contexts/StockContext.tsx:64-72 | whatever the amount, even a negative one, `decreaseStock` keeps every quantity non-negative |
| Stock.DecreaseUnknown | src/contexts/StockContext.tsx:64-72 | decreasing a product with no entry leaves the ledger equal |
| Stock.CheckPredictsFractionalDecrease | src/contexts/StockContext.tsx:74-98 | `checkFractionalStockAvailable` answers true exactly when `decreaseFractionalStock` would succeed against the same render-time stock |
| Stock.FractionalDecreaseExact | src/contexts/StockContext.tsx:82-98 | a successful fractional decrement sets the product's reading to max(0, reading - volume) and changes no other reading; when the ledger covers the volume, it lowers the reading by exactly the volume |
| Stock.FractionalDecreaseOverdraws | src/contexts/StockContext.tsx:84-95 | when the render-time stock covers the volume but the ledger no longer does, the call reports success and the product's stock drops to 0 |
| Stock.FractionalDecreasePreservesNonNegative | src/contexts/StockContext.tsx:82-98 | refused or not, the fractional decrement keeps every quantity non-negative |
| Stock.OverwriteLookup | src/contexts/StockContext.tsx:56-62 | `updateStock` makes a known product read the new quantity and changes no other reading or threshold; an unknown product changes nothing |
| Stock.OverwritePreservesNonNegative | src/contexts/StockContext.tsx:56-62 | `updateStock` keeps the ledger non-negative when the new quantity is non-negative; nothing else stops a negative one |
| Stock.MinQuantityKeepsLookups | src/contexts/StockContext.tsx:100-106 | `setMinQuantity` never changes a product's reading or the ledger's non-negativity |
| Stock.InitialEntry | src/contexts/StockContext.tsx:21-37 | a fractional product with a truthy volume and declared units starts at units × volume with half a unit as threshold; any other product starts at 20–99 units with threshold 10 |
| Stock.InitialLedger | src/contexts/StockContext.tsx:21-37 | there is one initial entry per catalog product, in catalog order |
| Stock.InitialLedgerNonNegative | src/contexts/StockContext.tsx:21-37 | the initial ledger is non-negative whenever no product declares a negative volume or a negative unit count |
| Stock.StockLedger.constructor | src/contexts/StockContext.tsx:21-38 | the ledger starts with the initial entries of the catalog |
| Stock.StockLedger.UpdateStock | src/contexts/StockContext.tsx:56-62 | the new ledger is the old one with the product's quantities overwritten |
| Stock.StockLedger.DecreaseStock | src/contexts/StockContext.tsx:64-72 | the new ledger is the old one with the product's entries lowered and clamped at 0 |
| Stock.StockLedger.DecreaseFractionalStock | src/contexts/StockContext.tsx:82-98 | the answer and the new ledger are those of the fractional decrement, with the guard reading the render-time stock passed in; a false answer leaves the ledger as it was |
| Stock.StockLedger.SetMinQuantity | src/contexts/StockContext.tsx:100-106 | the new ledger is the old one with the product's thresholds overwritten |
| Orders.NewOrder | src/contexts/OrdersContext.tsx:59-67 | definition of the order `addOrder` appends, preparing and with no order type; Orders.AddKeepsValid and Orders.OrderTypeNeverSet are about it |
| Orders.ReadyCopy | src/contexts/OrdersContext.tsx:75-79 | definition of the copy `markAsReady` moves: status ready and the time it was marked |
| Orders.MarkedOrders | src/contexts/OrdersContext.tsx:82 | definition of the preparing side of `markAsReady`; Orders.MarkKnown and Orders.MarkUnknown state its effect |
| Orders.MarkedReady | src/contexts/OrdersContext.tsx:73-81 | definition of the ready side of `markAsReady`; Orders.MarkKnown, Orders.MarkIdempotent and Orders.MarkConserves state its effect |
| Orders.RemovedReady | src/contexts/OrdersContext.tsx:86-88 | definition of `removeReadyOrder`; Orders.RemoveReadyDropsOnlyId states its effect |
| Orders.SeedOrders | src/contexts/OrdersContext.tsx:24-54 | definition of the three demonstration orders; Orders.SeedValid states that they form a valid ledger |
| Orders.FindOrder | src/contexts/OrdersContext.tsx:73 | `find` yields nothing exactly when no order has the id, and otherwise the first order that has it |
| Orders.WithoutId | src/contexts/OrdersContext.tsx:82 | the filtered list holds every order without the id and no order with it |
| Orders.MarkUnknown | src/contexts/OrdersContext.tsx:71-84 | `markAsReady` on an id that is not in preparation changes neither list |
| Orders.MarkKnown | src/contexts/OrdersContext.tsx:71-84 | `markAsReady` on an id in preparation removes it from the preparing list and appends one ready copy, stamped with the time, of an order that had it |
| Orders.MarkIdempotent | src/contexts/OrdersContext.tsx:71-84 | a second `markAsReady` with the same id, at any later time, changes nothing more |
| Orders.MarkConserves | src/contexts/OrdersContext.tsx:71-84 | with distinct ids, `markAsReady` neither loses nor duplicates an order: the two lists together keep their size |
| Orders.RemoveReadyDropsOnlyId | src/contexts/OrdersContext.tsx:86-88 | `removeReadyOrder` drops every ready order with the id and keeps every other one |
| Orders.AddKeepsValid | src/contexts/OrdersContext.tsx:59-69 | `addOrder` keeps the ledger invariant: preparing orders in `orders`, ready ones in `readyOrders`, all ids distinct |
| Orders.MarkKeepsValid | src/contexts/OrdersContext.tsx:71-84 | `markAsReady` keeps the ledger invariant |
| Orders.RemoveKeepsValid | src/contexts/OrdersContext.tsx:86-88 | `removeReadyOrder` keeps the ledger invariant |
| Orders.NoReturnToPreparing | src/contexts/OrdersContext.tsx:59-88 | no operation moves an order back into preparation: what is preparing afterwards was preparing before or was just added, and what is ready was ready before or was just marked |
| Orders.OrderTypeNeverSet | src/contexts/OrdersContext.tsx:59-88 | no operation ever gives an order an order type |
| Orders.SeedValid | src/contexts/OrdersContext.tsx:24-57 | the three demonstration orders form a valid ledger with no ready orders and no order type |
| Orders.OrderLedger.constructor | src/contexts/OrdersContext.tsx:24-57 | the ledger starts with the demonstration orders in preparation and nothing ready |
| Orders.OrderLedger.AddOrder | src/contexts/OrdersContext.tsx:59-69 | one new preparing order for the comanda is appended and the ready list is untouched |
| Orders.OrderLedger.MarkAsReady | src/contexts/OrdersContext.tsx:71-84 | both lists change as `markAsReady` does, their total size is kept and the invariant holds |
| Orders.OrderLedger.RemoveReadyOrder | src/contexts/OrdersContext.tsx:86-88 | only the ready list changes, losing the orders with the id |
| CustomerCart.Mergeable | src/contexts/CartContext.tsx:56-61 | definition of the `findIndex` test: same product id and observation, and a plain line |
| CustomerCart.WithItemAdded | src/contexts/CartContext.tsx:34-71 | definition of `addItem`; CustomerCart.AddCompositeAppends, AddPlainMerges, AddPlainAppends and AddKeepsNoDuplicates state its effect |
| CustomerCart.WithoutLine | src/contexts/CartContext.tsx:73-75 | definition of `removeItem`; CustomerCart.RemoveSpec and RemoveTotals state its effect |
| CustomerCart.WithQuantity | src/contexts/CartContext.tsx:77-88 | definition of `updateQuantity`; CustomerCart.UpdateSpec states its effect |
| CustomerCart.LinePrice | src/contexts/CartContext.tsx:93-96 | definition of one line's share of `totalPrice`, `product.price * quantity` |
| CustomerCart.TotalItems | src/contexts/CartContext.tsx:92 | definition of `totalItems`; CustomerCart.AddTotalsMerged, AddTotalsAppended and RemoveTotals state how edits move it |
| CustomerCart.TotalPrice | src/contexts/CartContext.tsx:93-96 | definition of `totalPrice`; the same three lemmas state how edits move it |
| CustomerCart.MergeIndex | src/contexts/CartContext.tsx:56-61 | the first plain line with the same product id and observation, or −1 when no line matches |
| CustomerCart.AddCompositeAppends | src/contexts/CartContext.tsx:44-53 | a composite item always becomes a new last line, even beside an identical one, and the earlier lines stay as they were |
| CustomerCart.AddPlainMerges | src/contexts/CartContext.tsx:55-67 | a plain item matching a plain line raises that line's quantity by the amount and keeps that line's product; every other line is unchanged |
| CustomerCart.AddPlainAppends | src/contexts/CartContext.tsx:55-69 | with no matching plain line, a plain item is appended with only its product, quantity and observation |
| CustomerCart.AddKeepsNoDuplicates | src/contexts/CartContext.tsx:42-70 | `addItem` keeps the plain lines unique on product id and observation |
| CustomerCart.RaisedLinePrice | src/contexts/CartContext.tsx:93-96 | raising a line's quantity raises its price by the unit price times the increase |
| CustomerCart.AddTotalsMerged | src/contexts/CartContext.tsx:55-67 | a merge raises `totalItems` by the quantity and `totalPrice` by that quantity at the merged line's price, not the price of the product passed in |
| CustomerCart.AddTotalsAppended | src/contexts/CartContext.tsx:44-69 | an appended line raises `totalItems` by its quantity and `totalPrice` by its quantity at the product's price |
| CustomerCart.RemoveSpec | src/contexts/CartContext.tsx:73-75 | `removeItem` deletes exactly the line at the index and keeps the others in order; an index outside the cart changes nothing |
| CustomerCart.RemoveTotals | src/contexts/CartContext.tsx:73-75 | removing a line lowers both totals by exactly that line's share |
| CustomerCart.UpdateSpec | src/contexts/CartContext.tsx:77-88 | a quantity of 0 or less removes the line; a positive one sets that line's quantity and nothing else; an index outside the cart changes nothing |
| CustomerCart.EditKeepsNoDuplicates | src/contexts/CartContext.tsx:73-88 | removing a line or changing its quantity keeps the plain lines unique |
| CustomerCart.Cart.constructor | src/contexts/CartContext.tsx:32 | the cart starts empty, which satisfies the invariant that no two plain lines share a product and an observation |
| CustomerCart.Cart.AddItem | src/contexts/CartContext.tsx:34-71 | the new lines are the old ones with the item added as `addItem` says, and the invariant is kept |
| CustomerCart.Cart.RemoveItem | src/contexts/CartContext.tsx:73-75 | the new lines are the old ones without the line at the index, and the invariant is kept |
| CustomerCart.Cart.UpdateQuantity | src/contexts/CartContext.tsx:77-88 | the new lines are the old ones with that line re-quantified, or removed, and the invariant is kept |
| CustomerCart.Cart.ClearCart | src/contexts/CartContext.tsx:90-96 | the cart is empty and both totals are zero |
| StockDeduction.IngredientAmount | src/hooks/useStockDeduction.ts:23 | definition of `ingredient.quantity * item.quantity` |
| StockDeduction.DeductIngredient | src/hooks/useStockDeduction.ts:22-31 | definition of one ingredient's deduction; StockDeduction.UnitIngredientLookup, FractionalIngredientShort and FractionalIngredientInStock state its effect |
| StockDeduction.DeductIngredients | src/hooks/useStockDeduction.ts:20-33 | definition of the `forEach` over the selections; StockDeduction.DeductIngredientsConcat and ExcludedAreIrrelevant state its effect |
| StockDeduction.DeductItem | src/hooks/useStockDeduction.ts:16-40 | definition of `deductStockForItem`; StockDeduction.PlainLineLookup and ItemKeepsOthers state its effect, and DeductStockForItem is proved equal to it |
| StockDeduction.DeductOrder | src/hooks/useStockDeduction.ts:45-52 | definition of `deductStockForOrder`; StockDeduction.DeductOrderConcat and OrderKeepsNonNegative state its effect, and DeductStockForOrder is proved equal to it |
| StockDeduction.KeepsOutsideLookup | src/hooks/useStockDeduction.ts:16-40 | a product whose entries a deduction leaves alone reads the same stock afterwards |
| StockDeduction.DeductIngredientsConcat | src/hooks/useStockDeduction.ts:20-33 | the ingredients are deducted one after the other, so a skipped ingredient does not stop the ones after it |
| StockDeduction.ExcludedAreIrrelevant | src/hooks/useStockDeduction.ts:20-33 | excluded ingredients never change stock: deducting all selections is deducting only the included ones |
| StockDeduction.UnitIngredientLookup | src/hooks/useStockDeduction.ts:22-27 | an included ingredient counted in units lowers its product's stock by ingredient quantity × line quantity, clamped at 0, and no other product's stock |
| StockDeduction.FractionalIngredientShort | src/hooks/useStockDeduction.ts:28-31 | an included gram or millilitre ingredient that the render-time stock finds short changes nothing, and the refusal is dropped without a trace |
| StockDeduction.FractionalIngredientInStock | src/hooks/useStockDeduction.ts:28-31 | an included gram or millilitre ingredient covered by both the render-time stock and the ledger lowers its product's stock by exactly the amount and no other product's stock |
| StockDeduction.PlainLineLookup | src/hooks/useStockDeduction.ts:34-37 | a plain line, or a composite line without selections, lowers its own product's stock by the line quantity, clamped at 0 |
| StockDeduction.KeepsOutsideTrans | src/hooks/useStockDeduction.ts:45-52 | leaving products alone composes: two deductions in a row leave alone every product neither of them names |
| StockDeduction.IngredientKeepsOutside | src/hooks/useStockDeduction.ts:20-33 | one ingredient touches at most its own product's entries, and an excluded one touches none |
| StockDeduction.IngredientsKeepOutside | src/hooks/useStockDeduction.ts:20-33 | all the selections together touch only the products of included ingredients |
| StockDeduction.ItemKeepsOthers | src/hooks/useStockDeduction.ts:16-40 | a line touches only its own product or its included ingredients' products; every other product keeps its stock |
| StockDeduction.DeductOrderConcat | src/hooks/useStockDeduction.ts:45-52 | deducting an order is deducting its lines in sequence |
| StockDeduction.IngredientKeepsNonNegative | src/hooks/useStockDeduction.ts:20-33 | one ingredient's deduction keeps the stock non-negative |
| StockDeduction.OrderKeepsNonNegative | src/hooks/useStockDeduction.ts:16-52 | deducting any order, with any quantities, never drives stock below zero |
| StockDeduction.IngredientsKeepNonNegative | src/hooks/useStockDeduction.ts:20-33 | all the selections' deductions keep the stock non-negative |
| StockDeduction.DeductStockForItem | src/hooks/useStockDeduction.ts:16-40 | the ledger after the line is the ledger the line's deduction specifies |
| StockDeduction.DeductStockForOrder | src/hooks/useStockDeduction.ts:45-52 | the ledger after the order is the ledger the order's deduction specifies |
| Sales.NewSale | src/contexts/SalesContext.tsx:52-58 | definition of the sale `addSale` appends under a fresh id at the current time |
| Sales.WithinPeriod | src/contexts/SalesContext.tsx:63-65 | definition of the inclusive `createdAt` test of `getSalesByPeriod` |
| Sales.TotalSales | src/contexts/SalesContext.tsx:77-79 | definition of `getTotalSales`; Sales.AppendTotal and Sales.TypesPartition state its properties |
| Sales.AllItems | src/contexts/SalesContext.tsx:94-95 | definition of the items the nested `forEach` visits, in log order |
| Sales.Bump | src/contexts/SalesContext.tsx:96-99 | definition of one item's effect on the `counts` record; Sales.BumpShape, BumpIds and BumpAgrees state it |
| Sales.Tally | src/contexts/SalesContext.tsx:92-101 | definition of the `counts` record after the loops, in insertion order; Sales.TallyIds, TallyRows and TallySum state what it holds |
| Sales.InsertByCount | src/contexts/SalesContext.tsx:109 | definition of one insertion step of the stable sort; Sales.InsertSorted, InsertKeeps and InsertDistinct state its properties |
| Sales.SortByCount | src/contexts/SalesContext.tsx:109 | definition of the stable `b.count - a.count` sort; Sales.SortSpec states that it is a non-increasing permutation |
| Sales.ProductSalesCounts | src/contexts/SalesContext.tsx:91-110 | definition of `getProductSalesCount`; Sales.ProductSalesCountsSpec states what it returns |
| Sales.SalesByPeriod | src/contexts/SalesContext.tsx:61-68 | exactly the logged sales made within the period, both ends included |
| Sales.SalesByType | src/contexts/SalesContext.tsx:70-75 | exactly the logged sales of the given type |
| Sales.TodaySales | src/contexts/SalesContext.tsx:81-89 | exactly the logged sales made from the start of today, inclusive, to the start of tomorrow, exclusive |
| Sales.TodayIsPeriod | src/contexts/SalesContext.tsx:61-89 | on millisecond timestamps, today's sales are the period query ending one millisecond before tomorrow |
| Sales.TypesPartition | src/contexts/SalesContext.tsx:70-79 | the "pdv" and "comanda" queries split the log: their sizes and their totals add up to the whole log's |
| Sales.AppendTotal | src/contexts/SalesContext.tsx:52-79 | a new sale adds its own total to `getTotalSales` |
| Sales.RowIndex | src/contexts/SalesContext.tsx:96-99 | the position of a product's row in the tally, or the end when it has none |
| Sales.ItemIndex | src/contexts/SalesContext.tsx:94-101 | the position of the first sold item for a product, or the end when none |
| Sales.ItemIndexUnique | src/contexts/SalesContext.tsx:94-101 | that position is the only one with those properties |
| Sales.TallySnoc | src/contexts/SalesContext.tsx:94-101 | the tally of one more item is the old tally with that item counted in |
| Sales.CountIncreased | src/contexts/SalesContext.tsx:99 | adding to a product's count changes only that row's count, by exactly the item's quantity |
| Sales.FreshRowIncreased | src/contexts/SalesContext.tsx:96-99 | creating a missing product's row at zero and then adding the quantity gives the row with that quantity |
| Sales.BumpShape | src/contexts/SalesContext.tsx:96-99 | one item keeps every row's id and name, adds its quantity to its product's row only, and appends a row only for a product with none |
| Sales.BumpIds | src/contexts/SalesContext.tsx:96-99 | one item keeps the row ids distinct, keeps every product that had a row, and leaves a row for the item's product |
| Sales.BumpAgrees | src/contexts/SalesContext.tsx:96-99 | when every row agrees with the items seen so far, every row after one more item agrees with the longer list |
| Sales.TallyStep | src/contexts/SalesContext.tsx:95-100 | the tally after one more item of a sale is the old tally with that item counted in |
| Sales.TallySale | src/contexts/SalesContext.tsx:95-100 | the inner loop over one sale's items, creating each missing row at zero and then adding, counts the sale's items into the tally |
| Sales.MentionsSnoc | src/contexts/SalesContext.tsx:94-101 | one more item adds its product to the products sold and leaves every first appearance where it was |
| Sales.QuantitySnoc | src/contexts/SalesContext.tsx:99 | one more item adds its quantity to its own product's sum only |
| Sales.UnmentionedQuantity | src/contexts/SalesContext.tsx:99 | a product never sold has a summed quantity of 0 |
| Sales.TallyIds | src/contexts/SalesContext.tsx:92-101 | the tally has one row per product sold and no other row |
| Sales.TallyRows | src/contexts/SalesContext.tsx:96-99 | each row holds its product's summed quantity and the name on its first item |
| Sales.TallySum | src/contexts/SalesContext.tsx:92-101 | the counts add up to the total quantity sold |
| Sales.DistinctSnoc | src/contexts/SalesContext.tsx:109 | with distinct ids and one row last, the rows before it have distinct ids and, in any order, none shares the last row's id |
| Sales.Leading | src/contexts/SalesContext.tsx:109 | how many leading rows count at least a given amount |
| Sales.InsertSorted | src/contexts/SalesContext.tsx:109 | inserting a row into rows ordered by non-increasing count keeps them ordered |
| Sales.InsertKeeps | src/contexts/SalesContext.tsx:109 | an insertion loses and duplicates no row, and it adds the row's count to the sum |
| Sales.InsertDistinct | src/contexts/SalesContext.tsx:109 | inserting a row for a new product keeps the ids distinct |
| Sales.SortSpec | src/contexts/SalesContext.tsx:109 | the sort orders by non-increasing count and permutes the rows, so it also keeps their sum and distinct ids |
| Sales.ProductSalesCountsSpec | src/contexts/SalesContext.tsx:91-110 | `getProductSalesCount` gives one row per product sold, each with the product's summed quantity and first-seen name, heaviest first, with counts adding up to the log's total quantity |
| Sales.SalesLog.constructor | src/contexts/SalesContext.tsx:18-50 | the log starts with the mock sales, none of which has a generated id |
| Sales.SalesLog.AddSale | src/contexts/SalesContext.tsx:52-59 | exactly one sale is appended: the draft with a new id no earlier sale carries and the current time |
| Sales.SalesLog.ProductSalesCount | src/contexts/SalesContext.tsx:91-110 | the loop over every item of every sale, then the sort, gives the rows `getProductSalesCount` specifies |
| Products.NewProduct | src/contexts/ProductsContext.tsx:26-31 | definition of the product `addProduct` appends under a fresh id |
| Products.NewCategory | src/contexts/ProductsContext.tsx:46-51 | definition of the category `addCategory` appends under a fresh id |
| Products.PatchedProduct | src/contexts/ProductsContext.tsx:37 | definition of `{ ...product, ...productData }` |
| Products.PatchedCategory | src/contexts/ProductsContext.tsx:57 | definition of `{ ...category, ...categoryData }` |
| Products.ProductUpdated | src/contexts/ProductsContext.tsx:34-40 | definition of `updateProduct`; Products.UpdateLookups and Products.UpdateKeepsFresh state its effect |
| Products.CategoryUpdated | src/contexts/ProductsContext.tsx:54-60 | definition of `updateCategory`; Products.CategoryUpdateLookups and Products.CategoryUpdateKeepsFresh state its effect |
| Products.WholeProducts | src/contexts/ProductsContext.tsx:75-78 | definition of `getWholeProducts`; Products.TypeFilters states which products it lists |
| Products.FractionalProducts | src/contexts/ProductsContext.tsx:80-83 | definition of `getFractionalProducts`; Products.TypeFilters states which products it lists |
| Products.ActiveProducts | src/contexts/ProductsContext.tsx:85-88 | definition of `getActiveProducts`; Products.ActiveDefault states which products it lists |
| Products.FindProduct | src/components/admin/AdminCompositeProducts.tsx:108 | a lookup yields nothing exactly when no product has the id, and otherwise a catalog product with that id |
| Products.ProductDeleted | src/contexts/ProductsContext.tsx:42-44 | `deleteProduct` keeps every product with another id and no product with this one |
| Products.CategoryDeleted | src/contexts/ProductsContext.tsx:62-63 | `deleteCategory` keeps every category with another id and none with this one |
| Products.ProductsByCategory | src/contexts/ProductsContext.tsx:68-73 | exactly the products filed under the category |
| Products.OutsideCategory | src/contexts/ProductsContext.tsx:64-65 | exactly the products filed under another category |
| Products.TypeFilters | src/contexts/ProductsContext.tsx:75-83 | a product is whole-listed exactly when its type is "whole" and fractional-listed exactly when it is "fractional"; no product is in both, and one without a type is in neither |
| Products.ActiveDefault | src/contexts/ProductsContext.tsx:85-88 | a product is listed as active unless its flag is explicitly false, so one without the flag counts as active |
| Products.DeleteCategoryCascade | src/contexts/ProductsContext.tsx:62-66 | after `deleteCategory` no product or category has the id, and if every product's category existed before, it still exists |
| Products.AddLookups | src/contexts/ProductsContext.tsx:26-32 | the new product is found under its new id and no other lookup changes |
| Products.FindCategory | src/components/admin/AdminStock.tsx:307 | the lookup finds nothing exactly when no category has the id, and otherwise a category with that id |
| Products.UpdateKeepsFresh | src/contexts/ProductsContext.tsx:34-40 | an update that keeps the id leaves no generated product id at or above the counter |
| Products.CategoryUpdateLookups | src/contexts/ProductsContext.tsx:54-60 | an update that keeps the id merges the patch into that category's lookup, leaves every other lookup equal, and keeps every product's category resolvable |
| Products.CategoryUpdateKeepsFresh | src/contexts/ProductsContext.tsx:54-60 | an update that keeps the id leaves no generated category id at or above the counter |
| Products.UpdateLookups | src/contexts/ProductsContext.tsx:34-40 | an update that does not change the id merges the patch into that product's lookup and leaves every other lookup equal |
| Products.DeleteLookups | src/contexts/ProductsContext.tsx:42-44 | after `deleteProduct` the id finds nothing and every other lookup is unchanged |
| Products.Catalog.constructor | src/contexts/ProductsContext.tsx:23-24 | the catalog starts with the static menu's products and categories |
| Products.Catalog.AddProduct | src/contexts/ProductsContext.tsx:26-32 | one product is appended under an id no product had; the categories are untouched |
| Products.Catalog.UpdateProduct | src/contexts/ProductsContext.tsx:34-40 | the patch is merged into every product with the id; the categories are untouched; an update that keeps the id keeps every handed-out id below its counter |
| Products.Catalog.DeleteProduct | src/contexts/ProductsContext.tsx:42-44 | the products lose those with the id; the categories are untouched |
| Products.Catalog.AddCategory | src/contexts/ProductsContext.tsx:46-52 | one category is appended under an id no category had; the products are untouched |
| Products.Catalog.UpdateCategory | src/contexts/ProductsContext.tsx:54-60 | the patch is merged into every category with the id; the products are untouched; an update that keeps the id keeps the ids below the counter and every product's category resolvable |
| Products.Catalog.DeleteCategory | src/contexts/ProductsContext.tsx:62-66 | the category goes with every product filed under it, and every remaining product's category still exists |
| Portions.NewPortion | src/contexts/PortionsContext.tsx:60-65 | definition of the portion `addPortion` appends under a fresh id |
| Portions.Patched | src/contexts/PortionsContext.tsx:71 | definition of `{ ...portion, ...portionData }` |
| Portions.PortionUpdated | src/contexts/PortionsContext.tsx:68-74 | definition of `updatePortion`; Portions.UpdateLookups states its effect |
| Portions.SeedPortions | src/contexts/PortionsContext.tsx:16-55 | definition of the three demonstration portions; Portions.SeedPortionsShape states their shape |
| Portions.FindPortion | src/contexts/PortionsContext.tsx:80-83 | `getPortionById` yields nothing exactly when no portion has the id, and otherwise a portion with that id |
| Portions.PortionDeleted | src/contexts/PortionsContext.tsx:76-78 | `deletePortion` keeps every portion with another id and none with this one |
| Portions.ActivePortions | src/contexts/PortionsContext.tsx:85-88 | exactly the active portions |
| Portions.AddLookups | src/contexts/PortionsContext.tsx:60-66 | the new portion is found under its new id and no other lookup changes |
| Portions.UpdateLookups | src/contexts/PortionsContext.tsx:68-74 | an update that does not change the id merges the patch into that portion's lookup and leaves every other lookup equal |
| Portions.DeleteLookups | src/contexts/PortionsContext.tsx:76-78 | after `deletePortion` the id finds nothing and every other lookup is unchanged |
| Portions.SeedPortionsEach | src/contexts/PortionsContext.tsx:16-55 | each demonstration portion is active, has a named id and a non-empty recipe of positive amounts |
| Portions.SeedPortionsFresh | src/contexts/PortionsContext.tsx:16-55 | no demonstration portion carries a generated id, so the registry starts valid with its counter at zero |
| Portions.SeedPortionsShape | src/contexts/PortionsContext.tsx:16-55 | the demonstration portions are active, with named ids and non-empty recipes of positive amounts, so the active query returns all of them |
| Portions.PortionRegistry.constructor | src/contexts/PortionsContext.tsx:58 | the registry starts with the demonstration portions |
| Portions.PortionRegistry.AddPortion | src/contexts/PortionsContext.tsx:60-66 | one portion is appended under an id no portion had |
| Portions.PortionRegistry.UpdatePortion | src/contexts/PortionsContext.tsx:68-74 | the patch is merged into every portion with the id |
| Portions.PortionRegistry.DeletePortion | src/contexts/PortionsContext.tsx:76-78 | the portions lose those with the id |
| Composites.NewComposite | src/contexts/CompositeProductsContext.tsx:122-127 | definition of the product `addCompositeProduct` appends under a fresh id |
| Composites.PatchedComposite | src/contexts/CompositeProductsContext.tsx:133 | definition of `{ ...product, ...productData }` |
| Composites.CompositeUpdated | src/contexts/CompositeProductsContext.tsx:130-136 | definition of `updateCompositeProduct`; Composites.UpdateLookups states its effect |
| Composites.ActiveByType | src/contexts/CompositeProductsContext.tsx:147-150 | definition of `getActiveByType`; Composites.ActiveIsFilteredByType relates it to `getByType` |
| Composites.SeedLanches | src/contexts/CompositeProductsContext.tsx:18-52 | definition of the two demonstration lanches; Composites.SeedLanchesGroup states their shape |
| Composites.SeedPorcoes | src/contexts/CompositeProductsContext.tsx:54-82 | definition of the two demonstration porções; Composites.SeedPorcoesGroup states their shape |
| Composites.SeedDoses | src/contexts/CompositeProductsContext.tsx:84-116 | definition of the two demonstration doses; Composites.SeedDosesGroup states their shape |
| Composites.SeedComposites | src/contexts/CompositeProductsContext.tsx:16-117 | definition of the initial `compositeProducts`; Composites.SeedShape and SeedFresh state its shape |
| Composites.FindComposite | src/contexts/CompositeProductsContext.tsx:130-140 | the product a lookup by id sees: nothing exactly when no product has the id, otherwise a listed product with that id |
| Composites.CompositeDeleted | src/contexts/CompositeProductsContext.tsx:138-140 | `deleteCompositeProduct` keeps every product with another id and none with this one |
| Composites.ByType | src/contexts/CompositeProductsContext.tsx:142-145 | exactly the products of the given type |
| Composites.ByTypeConcat | src/contexts/CompositeProductsContext.tsx:142-145 | the type query over two lists joined is the query over each, joined in the same order |
| Composites.TypesPartition | src/contexts/CompositeProductsContext.tsx:142-145 | lanche, porção and dose split the list: the three queries' sizes add up to the whole |
| Composites.ActiveIsFilteredByType | src/contexts/CompositeProductsContext.tsx:142-150 | `getActiveByType` is `getByType` narrowed to the active products, in the same order |
| Composites.AddLookups | src/contexts/CompositeProductsContext.tsx:122-128 | the new product is found under its new id and no other lookup changes |
| Composites.UpdateLookups | src/contexts/CompositeProductsContext.tsx:130-136 | an update that does not change the id merges the patch into that product's lookup and leaves every other lookup equal |
| Composites.DeleteLookups | src/contexts/CompositeProductsContext.tsx:138-140 | after the delete the id finds nothing and every other lookup is unchanged |
| Composites.SeedLanchesGroup | src/contexts/CompositeProductsContext.tsx:16-117 | every demonstration lanche is of that type, needs preparation, is active and has every required ingredient on by default |
| Composites.SeedPorcoesGroup | src/contexts/CompositeProductsContext.tsx:16-117 | every demonstration porção is of that type, needs preparation, is active and has every required ingredient on by default |
| Composites.SeedDosesGroup | src/contexts/CompositeProductsContext.tsx:16-117 | every demonstration dose is of that type, needs preparation, is active and has every required ingredient on by default |
| Composites.GroupByType | src/contexts/CompositeProductsContext.tsx:142-145 | a list of one type gives all of itself to that type's query and nothing to another's |
| Composites.PickGroup | src/contexts/CompositeProductsContext.tsx:16-117 | over the lanches, porções and doses joined in that order, each type's query returns exactly its own group |
| Composites.SeedGroupShaped | src/contexts/CompositeProductsContext.tsx:16-117 | every member of a demonstration group needs preparation, is active and has every required ingredient on by default |
| Composites.ThreeGroups | src/contexts/CompositeProductsContext.tsx:142-145 | for three single-type lists laid end to end, each type's query gives back its own list |
| Composites.SeedShape | src/contexts/CompositeProductsContext.tsx:16-117 | the demonstration catalogue has two products of each type, all needing preparation and with every required ingredient on by default |
| Composites.SeedFresh | src/contexts/CompositeProductsContext.tsx:16-117 | no demonstration product carries a generated id |
| Composites.CompositeRegistry.constructor | src/contexts/CompositeProductsContext.tsx:120 | the registry starts with the demonstration catalogue |
| Composites.CompositeRegistry.AddCompositeProduct | src/contexts/CompositeProductsContext.tsx:122-128 | one product is appended under an id no product had |
| Composites.CompositeRegistry.UpdateCompositeProduct | src/contexts/CompositeProductsContext.tsx:130-136 | the patch is merged into every product with the id; an update that keeps the id keeps every handed-out id below the counter |
| Composites.CompositeRegistry.DeleteCompositeProduct | src/contexts/CompositeProductsContext.tsx:138-140 | the list loses the products with the id |
| CompositeItemModal.StartsIncluded | src/components/menu/AddCompositeItemModal.tsx:26 | definition of the initial flag `isRequired || defaultIncluded`; CompositeItemModal.InitialValues states it entry by entry |
| CompositeItemModal.IncludedIn | src/components/menu/AddCompositeItemModal.tsx:63-69 | definition of the flag `handleAdd` reads, with the default for a missing entry; CompositeItemModal.Snapshot states what it gives |
| CompositeItemModal.TypeName | src/components/menu/AddCompositeItemModal.tsx:77 | definition of the composite type's name, which becomes the cart product's category |
| CompositeItemModal.InitialSelections | src/components/menu/AddCompositeItemModal.tsx:22-29 | every recipe ingredient gets an entry and no other product does |
| CompositeItemModal.BuildSelections | src/components/menu/AddCompositeItemModal.tsx:33-37 | the loop writing one entry per ingredient in recipe order builds exactly the initial selections |
| CompositeItemModal.InitialValues | src/components/menu/AddCompositeItemModal.tsx:22-29 | with distinct product ids, a required ingredient starts included and any other at its default, so every required entry is on |
| CompositeItemModal.InitialSnoc | src/components/menu/AddCompositeItemModal.tsx:22-29 | writing the last ingredient's entry leaves every other product's entry as it was |
| CompositeItemModal.DuplicateIdLastWins | src/components/menu/AddCompositeItemModal.tsx:24-27 | a recipe listing one product twice, first required and then removable and off by default, starts with that product off: the later write wins and the required ingredient is not forced on |
| CompositeItemModal.Toggled | src/components/menu/AddCompositeItemModal.tsx:51-59 | a required ingredient cannot be toggled; any other has its entry flipped, a missing entry counting as off, and no other entry changes |
| CompositeItemModal.ToggleTwice | src/components/menu/AddCompositeItemModal.tsx:51-59 | toggling an ingredient with an entry twice restores the selection |
| CompositeItemModal.ToggleKeepsRequired | src/components/menu/AddCompositeItemModal.tsx:51-59 | with distinct ids, toggling a listed ingredient never turns a required one off and keeps every ingredient's entry |
| CompositeItemModal.Snapshot | src/components/menu/AddCompositeItemModal.tsx:63-69 | the snapshot has one row per recipe ingredient, with its product, name, amount and unit, included as its entry says or at its default when it has none; required rows are included when their entries are on |
| CompositeItemModal.VirtualProduct | src/components/menu/AddCompositeItemModal.tsx:72-81 | the product put in the cart has the composite's id, name and price, its type as category, product type "whole", and the composite's preparation and active flags |
| CompositeItemModal.ItemForm.constructor | src/components/menu/AddCompositeItemModal.tsx:17-29 | the dialog opens at quantity 1 with an empty observation and the initial selections |
| CompositeItemModal.ItemForm.Reset | src/components/menu/AddCompositeItemModal.tsx:32-40 | a change of product resets the selections, the quantity to 1 and the observation to empty |
| CompositeItemModal.ItemForm.ToggleIngredient | src/components/menu/AddCompositeItemModal.tsx:51-59 | only the selections change, as a toggle does, and a listed ingredient's toggle keeps the dialog's invariant |
| CompositeItemModal.ItemForm.SetObservation | src/components/menu/AddCompositeItemModal.tsx:18 | only the observation changes |
| CompositeItemModal.ItemForm.IncrementQuantity | src/components/menu/AddCompositeItemModal.tsx:91 | the quantity goes up by one and nothing else changes |
| CompositeItemModal.ItemForm.DecrementQuantity | src/components/menu/AddCompositeItemModal.tsx:92 | the quantity goes down by one but never below 1 |
| CompositeItemModal.ItemForm.Add | src/components/menu/AddCompositeItemModal.tsx:61-89 | exactly one composite line is appended, whatever the cart holds, with the dialog's quantity and the selections' snapshot, every required ingredient included when the recipe's ids are distinct; then the quantity is 1 and the observation empty |
| IngredientModal.CanToggle | src/components/admin/IngredientSelectionModal.tsx:54-56 | definition of `canToggle`; IngredientModal.FlipKeepsRequired relies on it |
| IngredientModal.Opened | src/components/admin/IngredientSelectionModal.tsx:28-42 | on opening, the list mirrors the recipe position by position, every ingredient included exactly when it is on by default |
| IngredientModal.Flipped | src/components/admin/IngredientSelectionModal.tsx:46-52 | a toggle flips every entry for that product and leaves every other entry equal |
| IngredientModal.FlipTwice | src/components/admin/IngredientSelectionModal.tsx:46-52 | toggling the same product twice restores the list |
| IngredientModal.FlipMirrors | src/components/admin/IngredientSelectionModal.tsx:46-52 | a toggle keeps the list a mirror of the recipe |
| IngredientModal.FlipKeepsRequired | src/components/admin/IngredientSelectionModal.tsx:54-119 | with distinct ids, a toggle through an enabled checkbox leaves every required ingredient at its recipe default |
| IngredientModal.RemovedIngredients | src/components/admin/IngredientSelectionModal.tsx:74 | exactly the entries not included |
| IngredientModal.RequiredNotForcedOn | src/components/admin/IngredientSelectionModal.tsx:28-42 | unlike the customer dialog, this one does not force a required ingredient on: one that is off by default opens off here and on there |
| IngredientModal.SelectionDialog.constructor | src/components/admin/IngredientSelectionModal.tsx:23-42 | the dialog opens on the recipe's defaults at quantity 1 with an empty observation |
| IngredientModal.SelectionDialog.Open | src/components/admin/IngredientSelectionModal.tsx:28-42 | each opening resets the list to the recipe's defaults, the quantity to 1 and the observation to empty |
| IngredientModal.SelectionDialog.ToggleIngredient | src/components/admin/IngredientSelectionModal.tsx:46-52 | only the list changes, as a toggle does; it stays a mirror of the recipe, and through an enabled checkbox the required entries stay at their defaults |
| IngredientModal.SelectionDialog.SetObservation | src/components/admin/IngredientSelectionModal.tsx:164-167 | only the observation changes |
| IngredientModal.SelectionDialog.IncrementQuantity | src/components/admin/IngredientSelectionModal.tsx:188 | the quantity goes up by one and nothing else changes |
| IngredientModal.SelectionDialog.DecrementQuantity | src/components/admin/IngredientSelectionModal.tsx:179 | the quantity goes down by one but never below 1 |
| IngredientModal.SelectionDialog.Confirm | src/components/admin/IngredientSelectionModal.tsx:69-72 | the dialog hands over the current list, the trimmed observation and a quantity of at least 1, the list still mirroring the recipe |
| ComandaQr.AsciiLower | src/components/admin/AdminPDV.tsx:351 | definition of the case folding the `i` flag applies to the letters of "comanda" |
| ComandaQr.KeywordAt | src/components/admin/AdminPDV.tsx:351 | definition of "comanda" matched in any letter case at a position; ComandaQr.Lowered states it |
| ComandaQr.IsSeparator | src/components/admin/AdminPDV.tsx:351 | definition of the class `[=\/:]` |
| ComandaQr.DigitsFrom | src/components/admin/AdminPDV.tsx:351 | definition of the greedy `\d+` run; ComandaQr.CaptureIsDigits states its shape |
| ComandaQr.MatchesAt | src/components/admin/AdminPDV.tsx:351 | definition of a match starting at a position; ComandaQr.CaptureStart states it |
| ComandaQr.MatchFrom | src/components/admin/AdminPDV.tsx:351 | definition of the leftmost match from a position; ComandaQr.MatchFromSpec states that it is the leftmost |
| ComandaQr.CapturedDigits | src/components/admin/AdminPDV.tsx:351 | definition of `text.match(...)?.[1]`; ComandaQr.CaptureIsDigits and CaptureParses state its properties |
| ComandaQr.QrComandaNumber | src/components/admin/AdminPDV.tsx:346-355 | definition of the number read from a QR text; ComandaQr.QrLeadingNumber and QrFallback state its two branches |
| Js.IsStrWhiteSpace | src/components/admin/AdminPDV.tsx:342 | definition of the white space `parseInt` and `trim` strip (ECMA-262 StrWhiteSpaceChar) |
| Js.TrimStart | src/components/admin/AdminPDV.tsx:342 | definition of the leading white-space strip of `parseInt`; Js.ParseIntByTrim and ParseIntSkipsSpace state its use |
| Js.DigitValue | src/components/admin/AdminPDV.tsx:342 | definition of the value of a digit or letter in radix notation |
| Js.DigitsValue | src/components/admin/AdminPDV.tsx:342 | definition of the number a digit string denotes; Js.DecimalStringValue states the decimal round trip |
| Js.StripSign | src/components/admin/AdminPDV.tsx:342 | definition of the sign step of `parseInt`; Js.ParseIntMinus states it |
| Js.ReadDigits | src/components/admin/AdminPDV.tsx:342 | definition of reading the leading radix digits; Js.ParseIntLeadingDigits states it |
| Js.ReadUnsigned | src/components/admin/AdminPDV.tsx:342 | definition of the radix choice, 16 after `0x`, else 10; Js.ParseIntHex and ParseIntUnsigned state it |
| Js.ParseInt | src/components/admin/AdminPDV.tsx:342 | definition of `parseInt(s)` with no radix, `None` for NaN; Js.ParseIntDecimal, ParseIntNoNumber and the other ParseInt lemmas state its behaviour |
| Js.DecimalString | src/components/admin/AdminPDV.tsx:342 | definition of the decimal numeral of a natural number; Js.ParseIntDecimal states that `parseInt` reads it back |
| ComandaQr.Lowered | src/components/admin/AdminPDV.tsx:351 | the `i` flag's case folding, position by position, on the letters the pattern can meet |
| ComandaQr.CaptureStart | src/components/admin/AdminPDV.tsx:351 | a match at a position needs "comanda" there in any letter case, then an optional `=`, `/` or `:`, then a digit, where the capture starts |
| ComandaQr.MatchFromSpec | src/components/admin/AdminPDV.tsx:351 | the search finds nothing exactly when no position matches, and otherwise returns the digits captured at the leftmost match |
| ComandaQr.CaptureIsDigits | src/components/admin/AdminPDV.tsx:351 | every capture is a non-empty run of decimal digits |
| ComandaQr.CaptureParses | src/components/admin/AdminPDV.tsx:351-353 | `parseInt` of a capture never fails and gives the capture's decimal value |
| ComandaQr.QrFallback | src/components/admin/AdminPDV.tsx:346-355 | when the text does not start with a number, the result is NaN exactly when the pattern matches nowhere, and otherwise the decimal value of the digits after the leftmost match |
| ComandaQr.QrLeadingNumber | src/components/admin/AdminPDV.tsx:346-348 | text that starts, after white space, with the numeral of a number is read as that number, whatever follows |
| Js.Trim | src/components/admin/AdminCompositeProducts.tsx:128 | the result of `trim` neither starts nor ends with white space |
| Js.TrimPadding | src/components/admin/AdminCompositeProducts.tsx:128 | `trim` removes exactly the surrounding white space: text without white space at its ends comes back from any padding unchanged |
| Js.TrimIdempotent | src/components/admin/AdminCompositeProducts.tsx:128 | trimming twice is trimming once |
| Js.DecimalStringValue | src/components/admin/AdminPDV.tsx:342 | a number's decimal numeral reads back as that number, is made of digits, and starts with 0 only for 0 itself |
| Js.ParseIntByTrim | src/components/admin/AdminPDV.tsx:342 | `parseInt` (ECMA-262 section 19.2.5) depends only on the text after its leading white space |
| Js.ParseIntSkipsSpace | src/components/admin/AdminPDV.tsx:342 | leading white space does not change what `parseInt` reads |
| Js.ParseIntUnsigned | src/components/admin/AdminPDV.tsx:342 | without white space or a sign in front, `parseInt` reads an unsigned numeral, or gives NaN |
| Js.ParseIntLeadingDigits | src/components/admin/AdminPDV.tsx:342 | `parseInt` reads the leading decimal digits after white space and ignores whatever follows them |
| Js.ParseIntMinus | src/components/admin/AdminPDV.tsx:342 | a leading minus sign negates the numeral after it |
| Js.ParseIntDecimal | src/components/admin/AdminPDV.tsx:342 | a number's numeral, after any white space, parses back to the number |
| Js.ParseIntNoNumber | src/components/admin/AdminPDV.tsx:342 | text whose first character after white space is no sign and no digit is NaN |
| Js.ParseIntHex | src/components/admin/AdminPDV.tsx:342 | after a `0x` prefix the digits are read in radix 16 |
| CounterCart.ProductLine | src/components/admin/AdminPDV.tsx:198-208 | definition of the line `addToCart` appends for a new product |
| CounterCart.PortionLine | src/components/admin/AdminPDV.tsx:237-248 | definition of the line `addPortionToCart` appends, always needing preparation |
| CounterCart.CompositeLine | src/components/admin/AdminPDV.tsx:154-175 | definition of the line `addCompositeToCart` appends under the synthetic id |
| CounterCart.Bumped | src/components/admin/AdminPDV.tsx:193 | definition of `{ ...item, quantity: item.quantity + 1 }` |
| CounterCart.Needed | src/components/admin/AdminPDV.tsx:130 | definition of `ingredient.consumeAmount * quantity` |
| CounterCart.Short | src/components/admin/AdminPDV.tsx:130-133 | definition of the stock test of `checkPortionStock`; CounterCart.MissingInRecipeOrder states what it selects |
| CounterCart.Names | src/components/admin/AdminPDV.tsx:132 | definition of the names pushed into `missing` |
| CounterCart.StockCovers | src/components/admin/AdminPDV.tsx:214-228 | definition of the stock gate `checkPortionStock(...).available`; CounterCart.PortionAddedGated states what it guarantees |
| CounterCart.CartItemCount | src/components/admin/AdminPDV.tsx:114-116 | definition of `cartItemCount`; CounterCart.ProductAddedCount states how `addToCart` moves it |
| CounterCart.CartTotal | src/components/admin/AdminPDV.tsx:110-112 | definition of `cartTotal`; Settlement.SaleItemsSpec ties it to the sale's items |
| CounterCart.NeedsPreparation | src/components/admin/AdminPDV.tsx:119-121 | definition of `hasItemsNeedingPreparation`; Settlement.BalcaoOf uses it for the kitchen ticket |
| CounterCart.TargetOf | src/components/admin/AdminPDV.tsx:267-272 | definition of the lines `updateCartQuantity` adjusts |
| CounterCart.AdjustBy | src/components/admin/AdminPDV.tsx:268 | definition of `Math.max(0, item.quantity + delta)` |
| CounterCart.CurrentQuantity | src/components/admin/AdminPDV.tsx:255-256 | definition of `currentItem?.quantity || 0` |
| CounterCart.IncreaseRefused | src/components/admin/AdminPDV.tsx:254-261 | definition of the refused increase; CounterCart.QuantityUpdated states that it is the only refusal |
| CounterCart.Missing | src/components/admin/AdminPDV.tsx:128-134 | the `missing` list is never longer than the recipe, and it is empty exactly when no ingredient is short for the quantity |
| CounterCart.NamesConcat | src/components/admin/AdminPDV.tsx:128-134 | the names of two runs of ingredients, laid end to end, are the two name lists laid end to end |
| CounterCart.MissingInRecipeOrder | src/components/admin/AdminPDV.tsx:128-134 | `missing` names exactly the short ingredients, in recipe order |
| CounterCart.PortionStock | src/components/admin/AdminPDV.tsx:124-137 | an unknown portion is unavailable with nothing missing; a known one lists its short ingredients, and a portion is available exactly when it is known and nothing is missing |
| CounterCart.MissingBy | src/components/admin/AdminPDV.tsx:128-134 | for any shortage test, the pushed names are empty exactly when no ingredient is short, and never outnumber the ingredients |
| CounterCart.MissingSnoc | src/components/admin/AdminPDV.tsx:129-134 | one more ingredient of the loop appends its name exactly when the stock cannot cover it |
| CounterCart.MissingByNames | src/components/admin/AdminPDV.tsx:128-134 | for any shortage test, the pushed names are the names of the short ingredients, in recipe order |
| CounterCart.PortionStockCovers | src/components/admin/AdminPDV.tsx:124-137 | a known portion is available exactly when the stock covers every one of its ingredients for the quantity |
| CounterCart.ProductAdded | src/components/admin/AdminPDV.tsx:187-210 | `addToCart` raises every plain line of the product by one, and only those, or, without one, appends a line of quantity 1 |
| CounterCart.ProductAddedCount | src/components/admin/AdminPDV.tsx:114-210 | with at most one plain line of the product, a click adds exactly one item to the count |
| CounterCart.PortionAdded | src/components/admin/AdminPDV.tsx:212-250 | `addPortionToCart` either refuses and leaves the cart unchanged, or succeeds only when one portion is in stock, appending a line of one when the portion has none |
| CounterCart.PortionAddedGated | src/components/admin/AdminPDV.tsx:212-250 | after a success the portion's first line asks for one more than before, or 1 for a new line, and the stock covers that quantity |
| CounterCart.QuantityUpdated | src/components/admin/AdminPDV.tsx:252-277 | `updateCartQuantity` is refused, leaving the cart unchanged, exactly when it raises a portion the stock cannot cover; otherwise every remaining line has a quantity above 0 |
| CounterCart.QuantityUpdatedLines | src/components/admin/AdminPDV.tsx:264-276 | an accepted update keeps the untouched positive lines and the adjusted lines still above 0, and every line it keeps comes from one of those |
| CounterCart.RemovedLines | src/components/admin/AdminPDV.tsx:279-285 | `removeFromCart` keeps exactly the lines it does not aim at |
| CounterCart.ProductAddedPositive | src/components/admin/AdminPDV.tsx:187-210 | `addToCart` keeps every line at quantity 1 or more |
| CounterCart.PortionAddedPositive | src/components/admin/AdminPDV.tsx:212-250 | `addPortionToCart` keeps every line at quantity 1 or more |
| CounterCart.GatedAdd | src/components/admin/AdminPDV.tsx:212-250 | for any stock gate, a refusal leaves the cart as it was, a success means one unit passed the gate, and a portion with no line gets a new line appended |
| CounterCart.GatedAddGated | src/components/admin/AdminPDV.tsx:212-250 | for any stock gate, after a success the first matching line holds one more than before, or is the new line of one, and the gate passes its quantity |
| CounterCart.QuantityUpdatedPositive | src/components/admin/AdminPDV.tsx:252-277 | refused or applied, an update keeps every line at quantity 1 or more |
| CounterCart.RemovedLinesPositive | src/components/admin/AdminPDV.tsx:279-285 | a removal keeps every line at quantity 1 or more |
| ComandaLoading.ForComanda | src/components/admin/AdminPDV.tsx:304-305 | definition of the comanda filter's test; ComandaLoading.ComandaOrders states what it keeps |
| ComandaLoading.AllLines | src/components/admin/AdminPDV.tsx:318-319 | definition of the lines the nested loop visits; ComandaLoading.AllLinesMember states where they come from |
| ComandaLoading.ComandaRow | src/components/admin/AdminPDV.tsx:324-330 | definition of the counter line a comanda line starts as; ComandaLoading.AggregateFirstLine states which fields it copies |
| ComandaLoading.Merged | src/components/admin/AdminPDV.tsx:320-330 | definition of one line's merge; ComandaLoading.MergedShape, MergedIds and MergedAgrees state its effect |
| ComandaLoading.Aggregate | src/components/admin/AdminPDV.tsx:317-333 | definition of the merged `items`; ComandaLoading.AggregateIds, AggregateFirstSeen, AggregateQuantities and AggregateFirstLine state what it holds |
| ComandaLoading.ComandaOrders | src/components/admin/AdminPDV.tsx:304-305 | exactly the preparing or ready orders that carry the number and the "comanda" order type |
| ComandaLoading.RowIndex | src/components/admin/AdminPDV.tsx:320 | the position of the product's row in the cart being built, or the end when it has none |
| ComandaLoading.LineIndex | src/components/admin/AdminPDV.tsx:318-333 | the position of the first ordered line for a product, or the end when none |
| ComandaLoading.LineIndexUnique | src/components/admin/AdminPDV.tsx:318-333 | that position is the only one with those properties |
| ComandaLoading.LoadedCart | src/components/admin/AdminPDV.tsx:298-339 | NaN or a number ≤ 0 loads nothing; a positive number loads exactly when the comanda has orders, and then the cart is the merge of all their lines |
| ComandaLoading.NeverLoads | src/components/admin/AdminPDV.tsx:304-310 | since no order ever gets an order type, no comanda number ever loads |
| ComandaLoading.AggregateSnoc | src/components/admin/AdminPDV.tsx:318-333 | the loop's cart after one more line is the old cart with that line merged in |
| ComandaLoading.RowIncreased | src/components/admin/AdminPDV.tsx:322 | adding to an existing row changes only that row's quantity, by exactly the line's quantity |
| ComandaLoading.MergedShape | src/components/admin/AdminPDV.tsx:320-330 | one line keeps every row's id, name, price and flag, adds its quantity to its product's row only, and appends a row only for a product with none |
| ComandaLoading.MergedIds | src/components/admin/AdminPDV.tsx:320-330 | one line keeps the row ids distinct, keeps every product that had a row, and leaves a row for the line's product |
| ComandaLoading.MergedFirstSeen | src/components/admin/AdminPDV.tsx:320-330 | one more line keeps the rows in the order their products first appear |
| ComandaLoading.MergedAgrees | src/components/admin/AdminPDV.tsx:320-330 | when every row agrees with the lines seen so far, every row after one more line agrees with the longer list |
| ComandaLoading.AggregateAgrees | src/components/admin/AdminPDV.tsx:317-333 | every loaded row carries its product's summed quantity and the name, price and flag of its first line |
| ComandaLoading.OrderedSnoc | src/components/admin/AdminPDV.tsx:318-333 | one more line adds its product to the products ordered and leaves every first appearance where it was |
| ComandaLoading.QuantitySnoc | src/components/admin/AdminPDV.tsx:322 | one more line adds its quantity to its own product's sum only |
| ComandaLoading.UnorderedQuantity | src/components/admin/AdminPDV.tsx:322 | a product not ordered sums to 0 |
| ComandaLoading.AggregateIds | src/components/admin/AdminPDV.tsx:317-333 | the loaded cart has one row per product ordered and no other row |
| ComandaLoading.AggregateFirstSeen | src/components/admin/AdminPDV.tsx:317-333 | the rows come in the order their products first appear |
| ComandaLoading.AggregateQuantities | src/components/admin/AdminPDV.tsx:320-323 | each row holds its product's quantity summed over every line of the comanda |
| ComandaLoading.AggregateFirstLine | src/components/admin/AdminPDV.tsx:324-330 | each row takes its name, price and preparation flag from its product's first line |
| ComandaLoading.AllLinesMember | src/components/admin/AdminPDV.tsx:318-319 | every line visited belongs to one of the comanda's orders |
| ComandaLoading.AggregatePositive | src/components/admin/AdminPDV.tsx:317-333 | merging lines of positive quantity gives rows of positive quantity |
| ComandaLoading.LoadedPositive | src/components/admin/AdminPDV.tsx:298-339 | a comanda made of positive lines loads as positive rows |
| Settlement.ComandaLoaded | src/components/admin/AdminPDV.tsx:416 | definition of the truthiness of `currentComanda` |
| Settlement.LineShort | src/components/admin/AdminPDV.tsx:372-378 | definition of a portion line the stock cannot cover; Settlement.FirstShortLine states which line stops the sale |
| Settlement.SaleItemOf | src/components/admin/AdminPDV.tsx:383-389 | definition of one sale item built from a cart line |
| Settlement.SaleItems | src/components/admin/AdminPDV.tsx:383-390 | definition of the sale's `items`; Settlement.SaleItemsSpec states them |
| Settlement.SaleDraftOf | src/components/admin/AdminPDV.tsx:382-394 | definition of the sale `handleFinalizeSale` records; Settlement.SaleDraftSpec states its fields |
| Settlement.SettleIngredients | src/components/admin/AdminPDV.tsx:402-407 | definition of a portion's ingredient deductions, each gated on the render-time stock; Settlement.SettleIngredientsNonNegative and SettleIngredientsExact state their effect |
| Settlement.SettleLine | src/components/admin/AdminPDV.tsx:400-412 | definition of one line's stock effect; Settlement.CompositeLineDeductsNothing states it for a composite line |
| Settlement.SettleStock | src/components/admin/AdminPDV.tsx:399-413 | definition of the stock after the sale, with every gate reading the render-time stock; Settlement.SettleNonNegative and PerLineValidation state its properties, and CounterPos.DeductCart is proved equal to it |
| Settlement.ComandaReady | src/components/admin/AdminPDV.tsx:417-419 | definition of the ready orders of the loaded comanda |
| Settlement.RemoveAll | src/components/admin/AdminPDV.tsx:420-422 | definition of `removeReadyOrder` per victim; Settlement.RemoveAllSpec states its effect |
| Settlement.SettledReady | src/components/admin/AdminPDV.tsx:416-423 | definition of what the sale does to `readyOrders`; Settlement.SettledReadySpec and SettleNeverClears state it |
| Settlement.FirstShortLine | src/components/admin/AdminPDV.tsx:371-379 | the validation loop stops at the first portion line the stock cannot cover; every line before it passes |
| Settlement.FirstShortLineIs | src/components/admin/AdminPDV.tsx:371-378 | an index before which no portion line is short, and at which one is, is the first short line |
| Settlement.LineTotalCommutes | src/components/admin/AdminPDV.tsx:388 | a sale item's total is the same number as the cart line's total |
| Settlement.SaleItemsSpec | src/components/admin/AdminPDV.tsx:383-390 | one sale item per cart line, in order, copying id, name, quantity and unit price, and the items add up to the cart total |
| Settlement.SaleDraftSpec | src/components/admin/AdminPDV.tsx:382-394 | the sale's total is the sum of its items, it carries the chosen payment, and it is a comanda sale with the comanda's number exactly when a comanda is loaded |
| Settlement.SettleIngredientsNonNegative | src/components/admin/AdminPDV.tsx:404-407 | deducting a portion's ingredients never leaves a stored quantity below zero |
| Settlement.SettleNonNegative | src/components/admin/AdminPDV.tsx:399-413 | the stock update over the whole cart never leaves a stored quantity below zero |
| Settlement.CompositeLineDeductsNothing | src/components/admin/AdminPDV.tsx:409-412 | a composite line is decreased under its synthetic line id, which no stock entry has, so the stock is unchanged by it |
| Settlement.ExactStep | src/components/admin/AdminPDV.tsx:404-407 | one more ingredient covered by both the render-time stock and the running stock, not yet in the recipe prefix, is lowered by exactly its need while every other product keeps its quantity |
| Settlement.SettleIngredientsExact | src/components/admin/AdminPDV.tsx:402-407 | with distinct ingredients that are all covered, by the render-time stock and the running stock, each ingredient is lowered by exactly what the portion needs and nothing else changes |
| Settlement.PerLineValidation | src/components/admin/AdminPDV.tsx:371-413 | two portions sharing an ingredient both pass validation when only one can be covered; both deductions then report success, because their gate reads the render-time 300 g, and the stock ends at 0 g, so the 100 g shortfall goes unreported |
| Settlement.RemoveAllSpec | src/components/admin/AdminPDV.tsx:420-422 | after removing each victim by id, an order survives exactly when no victim shares its id |
| Settlement.SettledReadySpec | src/components/admin/AdminPDV.tsx:416-423 | without a comanda the ready list is untouched; with one, exactly the orders sharing an id with that comanda's ready orders go |
| Settlement.SettleNeverClears | src/components/admin/AdminPDV.tsx:417-419 | ready orders never carry an order type, so a sale never removes any of them |
| Settlement.BalcaoOf | src/components/admin/AdminPDV.tsx:426-427 | a kitchen ticket is sent exactly when no comanda is loaded and some line needs preparation; it carries the whole cart and a name only when one was typed |
| CounterPos.CheckPortionStock | src/components/admin/AdminPDV.tsx:124-137 | the ingredient loop reports every ingredient the stock cannot cover for the quantity, and an unknown portion as unavailable |
| CounterPos.AddPortionLine | src/components/admin/AdminPDV.tsx:212-250 | the two stock checks and the cart change compute the outcome `addPortionToCart` specifies |
| CounterPos.MissingIngredients | src/components/admin/AdminPDV.tsx:128-134 | the loop pushes exactly the names of the ingredients the stock cannot cover, in recipe order |
| CounterPos.IncreaseGate | src/components/admin/AdminPDV.tsx:254-262 | only an increase of a portion line is checked, against the line's current quantity plus the step |
| CounterPos.ValidatePortions | src/components/admin/AdminPDV.tsx:371-379 | the loop returns the first portion line the stock cannot cover, or the end of the cart |
| CounterPos.SettlePortion | src/components/admin/AdminPDV.tsx:402-407 | the ingredient loop leaves the stock exactly as the portion's settlement describes, each gate reading the render-time stock passed in |
| CounterPos.DeductCart | src/components/admin/AdminPDV.tsx:399-413 | the loop leaves the stock exactly as the line-by-line settlement describes, with every gate reading the stock as it stood when the loop began |
| CounterPos.RemoveComandaReady | src/components/admin/AdminPDV.tsx:416-423 | the loop removes the comanda's ready orders captured before the first removal, touching neither the preparing orders nor the id counter |
| CounterPos.MergeLines | src/components/admin/AdminPDV.tsx:317-333 | the nested loop builds the same rows as the aggregation of all ordered lines, one per product |
| CounterPos.MergeStep | src/components/admin/AdminPDV.tsx:319-331 | the rows after one more line of an order are the old rows with that line merged in |
| CounterPos.MergeOrder | src/components/admin/AdminPDV.tsx:319-331 | the inner loop over one order's lines merges them into the rows built so far |
| CounterPos.CounterScreen.constructor | src/components/admin/AdminPDV.tsx:64-75 | an empty cart, cash payment, no comanda, no customer name, no composite chosen and no typed number |
| CounterPos.CounterScreen.AddToCart | src/components/admin/AdminPDV.tsx:187-210 | the cart becomes the product-added cart and nothing else on the screen changes |
| CounterPos.CounterScreen.AddPortionToCart | src/components/admin/AdminPDV.tsx:212-250 | the cart grows by one portion only when the stock covers the new quantity; otherwise it is untouched |
| CounterPos.CounterScreen.UpdateCartQuantity | src/components/admin/AdminPDV.tsx:252-277 | a refused portion increase leaves the cart as it was; otherwise the matching lines move by the step and lines reaching zero go |
| CounterPos.CounterScreen.RemoveFromCart | src/components/admin/AdminPDV.tsx:279-285 | the matching lines are dropped and the rest of the screen is kept |
| CounterPos.CounterScreen.ClearCart | src/components/admin/AdminPDV.tsx:287-291 | the cart, the loaded comanda and the customer name are all emptied |
| CounterPos.CounterScreen.OpenCompositeSelection | src/components/admin/AdminPDV.tsx:140-143 | the composite becomes the chosen one and the cart is untouched |
| CounterPos.CounterScreen.AddCompositeToCart | src/components/admin/AdminPDV.tsx:146-185 | without a chosen composite nothing happens; with one, exactly one new line is appended and the choice is cleared |
| CounterPos.CounterScreen.SetCustomerName | src/components/admin/AdminPDV.tsx:734 | only the customer name changes |
| CounterPos.CounterScreen.SelectPayment | src/components/admin/AdminPDV.tsx:888 | only the payment method changes |
| CounterPos.CounterScreen.SetQrInput | src/components/admin/AdminPDV.tsx:833 | only the typed comanda number changes |
| CounterPos.CounterScreen.OpenQrScanner | src/components/admin/AdminPDV.tsx:293-296 | the typed comanda number is emptied and nothing else changes |
| CounterPos.CounterScreen.LoadComandaByNumber | src/components/admin/AdminPDV.tsx:298-339 | an invalid number or a comanda with no orders changes nothing; otherwise the cart becomes the merged comanda lines and the comanda becomes current |
| CounterPos.CounterScreen.HandleScanComanda | src/components/admin/AdminPDV.tsx:341-344 | the typed text is read with parseInt and loaded as above |
| CounterPos.CounterScreen.HandleQrScanSuccess | src/components/admin/AdminPDV.tsx:346-362 | the number read from the scanned text is loaded only when it is a positive number |
| CounterPos.CounterScreen.HandleFinalizeSale | src/components/admin/AdminPDV.tsx:364-440 | an empty cart or an uncovered portion line changes nothing; otherwise the sale is logged, the stock deducted, the comanda's ready orders removed, a kitchen ticket sent when due, and the cart cleared |
| ComandaBoard.Placed | src/pages/PDV.tsx:36-37 | definition of `grouped.set(n, [...existing, order])`; ComandaBoard.PlacedContents, PlacedNumbers and PlacedDistinct state its effect |
| ComandaBoard.Grouped | src/pages/PDV.tsx:32-38 | definition of the Map after the `forEach`; ComandaBoard.GroupedSpec states what it holds |
| ComandaBoard.OrderItems | src/pages/PDV.tsx:43 | definition of one order's item count; ComandaBoard.TotalsFlatten sums it |
| ComandaBoard.OrderPrice | src/pages/PDV.tsx:48-49 | definition of one order's price; ComandaBoard.TotalsFlatten sums it |
| ComandaBoard.CardOf | src/pages/PDV.tsx:41-61 | definition of a card; ComandaBoard.Cards, StatusOf and CountExtremes state what it says |
| ComandaBoard.InsertByNumber | src/pages/PDV.tsx:63 | definition of one insertion step of the stable sort; ComandaBoard.InsertAscending, InsertKeeps and InsertDistinct state its properties |
| ComandaBoard.SortByNumber | src/pages/PDV.tsx:63 | definition of the `a.comandaNumber - b.comandaNumber` sort; ComandaBoard.SortSpec states that it is an ascending permutation |
| ComandaBoard.Board | src/pages/PDV.tsx:31-64 | definition of `comandasAgrupadas`; ComandaBoard.BoardSpec and ExactlyOneCard state what it shows |
| ComandaBoard.FinalizeVictims | src/pages/PDV.tsx:72-74 | definition of the orders `handleFinalizarComanda` removes; ComandaBoard.FinalizeExact states what is left |
| ComandaBoard.GroupIndex | src/pages/PDV.tsx:36 | the position of the map entry for the number, or the end when the map has none |
| ComandaBoard.FilterSnoc | src/pages/PDV.tsx:37 | appending an order adds it to its own number's orders and to no other number's |
| ComandaBoard.PlacedContents | src/pages/PDV.tsx:36-37 | one more order keeps every entry equal to exactly the orders with its number |
| ComandaBoard.PlacedNumbers | src/pages/PDV.tsx:36-37 | one more order keeps the map's keys equal to the numbers the orders carry |
| ComandaBoard.PlacedDistinct | src/pages/PDV.tsx:36-37 | one more order never creates a second entry for a number |
| ComandaBoard.GroupedSpec | src/pages/PDV.tsx:32-38 | each entry holds exactly the orders with its number, in collection order; keys are distinct; a number has an entry exactly when some order carries it |
| ComandaBoard.GroupOrders | src/pages/PDV.tsx:35-38 | the loop builds the same entries as the grouping |
| ComandaBoard.CountExtremes | src/pages/PDV.tsx:52-53 | all orders are ready exactly when the ready count is the length, none is ready exactly when the count is zero |
| ComandaBoard.StatusOf | src/pages/PDV.tsx:52-60 | ready when every order is ready, partial when some are and some are not, preparing when none is |
| ComandaBoard.Cards | src/pages/PDV.tsx:40-62 | one card per map entry, in the same order |
| ComandaBoard.TotalsFlatten | src/pages/PDV.tsx:42-51 | the nested reductions equal the item count and the price total over every line of every order |
| ComandaBoard.Leading | src/pages/PDV.tsx:63 | the number of leading cards numbered at most the given number |
| ComandaBoard.InsertAscending | src/pages/PDV.tsx:63 | inserting a card into an ascending list keeps it ascending |
| ComandaBoard.InsertKeeps | src/pages/PDV.tsx:63 | inserting a card adds exactly that card |
| ComandaBoard.InsertDistinct | src/pages/PDV.tsx:63 | inserting a card with a new number keeps numbers distinct |
| ComandaBoard.SortSpec | src/pages/PDV.tsx:63 | the sort is a permutation in non-decreasing number order that keeps numbers distinct |
| ComandaBoard.DistinctSnoc | src/pages/PDV.tsx:63 | with distinct numbers and one card last, the cards before it have distinct numbers and, in any order, none shares the last card's number |
| ComandaBoard.CardsOfGroups | src/pages/PDV.tsx:40-62 | cards built from the entries have distinct numbers and each tells the truth about its orders |
| ComandaBoard.SortedCards | src/pages/PDV.tsx:63 | sorting distinct truthful cards gives the same cards in strictly increasing number order |
| ComandaBoard.BoardSpec | src/pages/PDV.tsx:31-64 | one card per comanda number in use, in strictly increasing order, each holding exactly its orders, their totals and their status |
| ComandaBoard.ExactlyOneCard | src/pages/PDV.tsx:31-64 | an order appears on the card of its own number and on no other |
| ComandaBoard.PreparingFirst | src/pages/PDV.tsx:32-38 | a card lists its preparing orders before its ready ones, each in collection order |
| ComandaBoard.ComandaBoardOf | src/pages/PDV.tsx:31-64 | the loop-filled map, mapped and sorted, is the board |
| ComandaBoard.SelectedCard | src/pages/PDV.tsx:66-68 | the card for the selected number when the board has one, and nothing otherwise |
| ComandaBoard.FinalizeExact | src/pages/PDV.tsx:70-77 | closing a comanda removes exactly its ready orders, whatever their order type, and keeps every other ready order |
| ComandaBoard.BoardPage.constructor | src/pages/PDV.tsx:28 | no comanda is selected |
| ComandaBoard.BoardPage.SelectComanda | src/pages/PDV.tsx:140 | the clicked number becomes the selected comanda |
| ComandaBoard.BoardPage.CloseDetail | src/pages/PDV.tsx:221 | the selection is cleared |
| ComandaBoard.BoardPage.FinalizeComanda | src/pages/PDV.tsx:70-77 | the ready orders with the number, captured before the first removal, are removed one by one; preparing orders and the id counter are untouched; the dialog closes |
| Types.OrZero | src/components/admin/AdminStock.tsx:173 | definition of `parseFloat(text) || 0` on a number field |
| StockAdmin.CostOrUndefined | src/components/admin/AdminStock.tsx:131 | definition of `parseFloat(costPrice) || undefined` |
| StockAdmin.ProductData | src/components/admin/AdminStock.tsx:127-141 | definition of `productData`; StockAdmin.NewProductFields and EditToWholeKeepsVolume state its fields |
| StockAdmin.AsDraft | src/components/admin/AdminStock.tsx:147 | definition of `productData` as `addProduct` receives it |
| StockAdmin.EnteredStock | src/components/admin/AdminStock.tsx:172-181 | definition of what `handleStockChange` stores; StockAdmin.StockInputRoundTrip and StockInputUnknown state its effect |
| StockAdmin.StockUnitsForInput | src/components/admin/AdminStock.tsx:206-212 | definition of `getStockUnitsForInput`; StockAdmin.StockInputRoundTrip states that it reads the input back |
| StockAdmin.StockDisplay | src/components/admin/AdminStock.tsx:188-204 | definition of `getStockDisplay` without its display string; StockAdmin.StatusAgreesWithLowStock ties its status to the low-stock query |
| StockAdmin.CheckForm | src/components/admin/AdminStock.tsx:111-125 | accepted exactly when name and category are filled, a whole product has a price and a fractional one has unit volume and initial stock; a blank name or category is reported first |
| StockAdmin.NewProductFields | src/components/admin/AdminStock.tsx:127-141 | a new product carries the form's fields, a price defaulting to 0, a cost only when nonzero, and the three volume fields exactly when fractional |
| StockAdmin.EditToWholeKeepsVolume | src/components/admin/AdminStock.tsx:137-144 | editing a product into a whole one leaves its stored volume fields in place |
| StockAdmin.VolumeOr1 | src/components/admin/AdminStock.tsx:176 | the unit volume when it is set and nonzero, 1 otherwise, so never 0 |
| StockAdmin.EntryFor | src/components/admin/AdminStock.tsx:188-212 | the product's ledger entry, carrying the quantity the ledger reports, or none when it has no entry |
| StockAdmin.StockInputRoundTrip | src/components/admin/AdminStock.tsx:172-212 | over exact arithmetic, typing a number of units into a product's stock input and reading it back gives that number, 0 for a blank input |
| StockAdmin.StockInputUnknown | src/components/admin/AdminStock.tsx:172-212 | without a ledger entry the stock input writes nothing and shows 0 |
| StockAdmin.StatusAgreesWithLowStock | src/components/admin/AdminStock.tsx:188-204 | a missing entry shows 0 as normal; an entry is empty at 0, low at or under its minimum, and flagged exactly when the low-stock query lists it |
| StockAdmin.StockScreen.constructor | src/components/admin/AdminStock.tsx:76-80 | the given form, nothing being edited and the dialog closed |
| StockAdmin.StockScreen.SaveProduct | src/components/admin/AdminStock.tsx:111-152 | a rejected form changes nothing; an accepted one updates the edited product or adds a new one, and the dialog closes |
| StockAdmin.StockScreen.StockChange | src/components/admin/AdminStock.tsx:172-181 | the entry is overwritten with units times the unit volume for a fractional product and the units otherwise, 0 when unparsable |
| StockAdmin.StockScreen.MinQtyChange | src/components/admin/AdminStock.tsx:183-186 | the entry's minimum becomes the typed number, 0 when unparsable |
| PortionAdmin.RowsAdded | src/components/admin/AdminPortions.tsx:137-158 | definition of `handleAddIngredient`; PortionAdmin.RowsAddedSpec and RowsAddedDistinct state its effect |
| PortionAdmin.PortionData | src/components/admin/AdminPortions.tsx:110-117 | definition of `portionData`; PortionAdmin.EditOverwrites states what an edit stores |
| PortionAdmin.AsPatch | src/components/admin/AdminPortions.tsx:120 | definition of `portionData` as `updatePortion` receives it |
| PortionAdmin.NewRow | src/components/admin/AdminPortions.tsx:147-152 | a new row names the product, consumes nothing yet and uses the product's unit, or grams |
| PortionAdmin.RowsAddedSpec | src/components/admin/AdminPortions.tsx:137-158 | an id that is no fractional product, or already has a row, changes nothing; otherwise one row for that fractional product is appended |
| PortionAdmin.RowsAddedDistinct | src/components/admin/AdminPortions.tsx:141-145 | adding keeps one row per product, and the product then has a row |
| PortionAdmin.AmountSet | src/components/admin/AdminPortions.tsx:160-167 | only the rows for the product get the new amount; every row keeps its product and place |
| PortionAdmin.RowsRemoved | src/components/admin/AdminPortions.tsx:169-174 | no row for the product is left |
| PortionAdmin.RowsRemovedSpec | src/components/admin/AdminPortions.tsx:169-174 | exactly the other rows are kept, and one row per product stays so |
| PortionAdmin.RemoveUndoesAdd | src/components/admin/AdminPortions.tsx:137-174 | removing a row just added gives back the rows before the addition |
| PortionAdmin.CheckForm | src/components/admin/AdminPortions.tsx:99-108 | accepted exactly when name, price and category are filled and there is an ingredient; missing fields are reported first |
| PortionAdmin.EditOverwrites | src/components/admin/AdminPortions.tsx:110-120 | saving an edit overwrites every field of the portion but its id |
| PortionAdmin.PortionScreen.constructor | src/components/admin/AdminPortions.tsx:69-71 | an empty form, nothing being edited and the dialog closed |
| PortionAdmin.PortionScreen.AddIngredient | src/components/admin/AdminPortions.tsx:137-158 | only the rows change, as the row-adding rule says, and one row per product is kept |
| PortionAdmin.PortionScreen.UpdateIngredientAmount | src/components/admin/AdminPortions.tsx:160-167 | only the rows change, as the amount rule says, and one row per product is kept |
| PortionAdmin.PortionScreen.RemoveIngredient | src/components/admin/AdminPortions.tsx:169-174 | only the rows change, as the removal rule says, and one row per product is kept |
| PortionAdmin.PortionScreen.Save | src/components/admin/AdminPortions.tsx:99-128 | a rejected form changes nothing; an accepted one updates the edited portion or adds a new one, and the dialog closes |
| CompositeAdmin.BlankRow | src/components/admin/AdminCompositeProducts.tsx:93-103 | definition of the row `handleAddIngredient` appends; CompositeAdmin.BlankRowNotSaved and RemoveRowSpec state what becomes of it |
| CompositeAdmin.ChangedRow | src/components/admin/AdminCompositeProducts.tsx:105-121 | definition of one row after `handleUpdateIngredient`; CompositeAdmin.SetProductSpec and FieldChangeSpec state its effect |
| CompositeAdmin.CompositeData | src/components/admin/AdminCompositeProducts.tsx:137-146 | definition of `productData`; CompositeAdmin.SavedProductSpec states its fields |
| CompositeAdmin.AsPatch | src/components/admin/AdminCompositeProducts.tsx:149 | definition of `productData` as `updateCompositeProduct` receives it |
| CompositeAdmin.RowUpdated | src/components/admin/AdminCompositeProducts.tsx:105-121 | the row list keeps its length and every row but the one at the index |
| CompositeAdmin.SetProductSpec | src/components/admin/AdminCompositeProducts.tsx:107-116 | choosing a catalog product copies its id, name and unit, or "un", keeping amount, requirement and default; an unknown id changes nothing |
| CompositeAdmin.FieldChangeSpec | src/components/admin/AdminCompositeProducts.tsx:117-119 | any other change overwrites exactly that field of that row |
| CompositeAdmin.RemoveRowSpec | src/components/admin/AdminCompositeProducts.tsx:123-125 | the row at the index goes and the rest keep their order; an index out of range changes nothing; removing the row just added restores the list |
| CompositeAdmin.SavedRows | src/components/admin/AdminCompositeProducts.tsx:145 | exactly the rows that name a product are saved |
| CompositeAdmin.BlankRowNotSaved | src/components/admin/AdminCompositeProducts.tsx:93-145 | a blank row added and never given a product is not saved |
| CompositeAdmin.CheckForm | src/components/admin/AdminCompositeProducts.tsx:127-135 | accepted exactly when the trimmed name is not empty and the price is a number above zero; a blank name is reported first |
| CompositeAdmin.SavedProductSpec | src/components/admin/AdminCompositeProducts.tsx:137-149 | the saved product has the trimmed name, a positive price, the screen's type, preparation on and only rows naming a product; an edit keeps id and image |
| CompositeAdmin.CompositeScreen.constructor | src/components/admin/AdminCompositeProducts.tsx:53-63 | the screen's type, an empty form, nothing being edited and the dialog closed |
| CompositeAdmin.CompositeScreen.AddIngredient | src/components/admin/AdminCompositeProducts.tsx:93-103 | one blank row is appended and nothing else changes |
| CompositeAdmin.CompositeScreen.UpdateIngredient | src/components/admin/AdminCompositeProducts.tsx:105-121 | only the rows change, as the row-update rule says |
| CompositeAdmin.CompositeScreen.RemoveIngredient | src/components/admin/AdminCompositeProducts.tsx:123-125 | only the rows change, losing the row at the index |
| CompositeAdmin.CompositeScreen.Save | src/components/admin/AdminCompositeProducts.tsx:127-158 | a rejected form changes nothing; an accepted one updates the edited product or adds a new one, then closes the dialog and resets the form |
| KitchenNotification.Notifier.constructor | src/hooks/useKitchenNotification.ts:36-37 | the count seen is the first one and the first look is still pending |
| KitchenNotification.Notifier.Observe | src/hooks/useKitchenNotification.ts:39-53 | a signal exactly when this is not the first look and the count went up; the new count is remembered |
| KitchenNotification.Increases | src/hooks/useKitchenNotification.ts:48-50 | no increase for fewer than two observations, and at most one per step |
| KitchenNotification.NonIncreasingNeverSignals | src/hooks/useKitchenNotification.ts:48-50 | a count that never goes up gives no increase |
| KitchenNotification.RisingAlwaysSignals | src/hooks/useKitchenNotification.ts:48-50 | a count that goes up at every step signals every time but the first |
| KitchenNotification.Run | src/hooks/useKitchenNotification.ts:35-53 | feeding the hook every count in turn signals once per strict increase after the first look |

## Left out

- Rendering, styling, dialogs' open/closed flags where no handler reads them, toasts and navigation: they show state but compute none of it. This includes the warning toast for a comanda with orders still preparing (src/components/admin/AdminPDV.tsx:312-315).
- React scheduling: the render-time `stock` that `decreaseFractionalStock` closes over (src/contexts/StockContext.tsx:84) is an explicit parameter, `seen`. The model does not schedule renders: the counter sale and the deduction hook pass the stock as it stood when their handler began. Whole-unit decrements and every updater of the ledger run in sequence on the current state, as React's functional updaters do.
- React scheduling: two updaters change the previous state in place, and StrictMode may run an updater twice. The `setReadyOrders` call nested inside the `setOrders` updater (src/contexts/OrdersContext.tsx:80) would then append the ready copy twice. `updated[existingIndex].quantity += quantity` (src/contexts/CartContext.tsx:64-65) mutates the previous state's line, so a second run would add the quantity twice. The model runs each updater once: `Orders.OrderLedger.MarkAsReady` moves the order once and `CustomerCart.WithItemAdded` (src/contexts/CartContext.tsx:34-71) adds the quantity once.
- The random seed of whole-unit stock (src/contexts/StockContext.tsx:34): every entry's quantity is a parameter (`rolls`) of `Stock.InitialLedger`.
- The mock sales list (src/contexts/SalesContext.tsx:18-50) is the initial log passed to `Sales.SalesLog.constructor`.
- `Date.now()`: ids are made from a per-registry counter. The counter screen's composite line id is `Stamped(id, now)`. Times and "today" are parameters. The unique-id properties hold only because the counter never repeats. `Date.now()` can return the same millisecond twice, so two orders, sales, products, portions or composite products made in that millisecond would share an id. This concerns `Orders.ValidLedger` (its distinct ids, which `Orders.MarkConserves` and the size ensures of `Orders.OrderLedger.MarkAsReady` use), `Sales.SalesLog.AddSale`, `Products.Catalog.AddProduct`, `Products.Catalog.AddCategory`, `Portions.PortionRegistry.AddPortion` and `Composites.CompositeRegistry.AddCompositeProduct`.
- Numbers: JavaScript numbers are IEEE-754 doubles; the model's numbers are exact `real`s and unbounded `int`s. Rounding, the 2^53 limit of exact integers and Infinity are not modelled. For example, with 0.3 in stock and a consumption of 0.1 per portion, three portions need 0.30000000000000004 in JavaScript and are refused, while the model accepts them. This concerns `Stock.Available`, `Stock.CheckFractionalAvailable`, `Stock.FractionalDecrease`, `CounterCart.Needed`, `CounterCart.PortionStock`, `Settlement.SettleStock`, `StockAdmin.EnteredStock`, `StockAdmin.StockUnitsForInput`, `Js.ParseInt`, and the totals `CustomerCart.TotalPrice`, `CounterCart.CartTotal` and `Sales.TotalSales`.
- StockAdmin.StockInputRoundTrip: holds over exact arithmetic only. With doubles, typing 0.1 units of a product with volume 3 stores 0.30000000000000004, and the input then shows 0.10000000000000002.
- Js.ParseInt: returns the exact integer for any number of digits. JavaScript rounds past 2^53 (`parseInt("9007199254740993")` is 9007199254740992) and gives Infinity for a numeral beyond the double range; `Js.ParseIntDecimal`, `Js.ParseIntLeadingDigits` and `ComandaQr.CaptureParses` are stated over the exact value.
- `Object.entries` lists integer-like keys first. `Sales.ProductSalesCountsSpec` keeps the record's insertion order, which is what it is for the non-numeric ids the app generates.
- CartDrawer.tsx:69, 81 and 93 pass a product id where the cart's `removeItem` and `updateQuantity` expect an index. The cart is modelled by index, as the cart provider defines it.
- `addBalcaoOrder` is called but not defined by the order provider. `Settlement.BalcaoOf` and `CounterPos.CounterScreen.HandleFinalizeSale` return the ticket it would receive instead of calling it.
- `parseFloat` of number inputs: a field is `Blank` or holds a number (`NumberField`), and `NaN` is not modelled. `toFixed`, `toLocaleString`, the kg/L display (src/components/admin/AdminStock.tsx:191-197) and the margin percentage are presentation.
- The notification sound (src/hooks/useKitchenNotification.ts:4-33): `KitchenNotification.Notifier.Observe` returns the decision to play it.
- The `useStockDeduction` hook has no caller in the app. `StockDeduction` models what it would do when called.
- The admin screens' open-dialog handlers, their search and category filters, the delete confirmations and AdminStock's `handleAddCategory`: they only copy a record into the form or call a registry operation that is modelled.
- `CompositeAdmin.CompositeScreen.UpdateIngredient`: requires an in-range index, because the screen only calls it from an existing row. An out-of-range write would extend the JavaScript array.
- `ComandaBoard.FinalizeExact`: needs unique ready-order ids, because `removeReadyOrder` removes by id and would also take any other order sharing a victim's id. `ComandaBoard.BoardPage.FinalizeComanda` itself is stated for any ids.
- `Settlement.SettleIngredientsExact`: needs distinct ingredient ids and full coverage; `Settlement.SettleNonNegative` holds without them.
- The dashboard and reports screens only re-sum queries that are modelled, and they depend on a date library.
- The QR camera scanner is a foreign library; only its decoded text, parsed by `ComandaQr`, is modelled.
- Session storage and the password check, and the menu page's checkout glue (`addOrder` then `clearCart`), are plain calls of modelled operations.
