/** The counter screen itself (`src/components/admin/AdminPDV.tsx`): its
    state, the handlers that edit the cart, load a comanda and finalize a
    sale, and the loops those handlers run. */
module CounterPos {
  import opened Common
  import opened Types
  import Js
  import opened Stock
  import opened Portions
  import opened Orders
  import Sales
  import ComandaQr
  import opened CounterCart
  import opened ComandaLoading
  import opened Settlement

  /** `checkPortionStock`: look the portion up, then run the ingredient loop. */
  method CheckPortionStock(portions: seq<Portion>, stock: seq<StockItem>, portionId: Id, quantity: int)
    returns (check: StockCheck)
    ensures check == PortionStock(portions, stock, portionId, quantity)
  {
    var found := FindPortion(portions, portionId);
    if found.None? {
      return StockCheck(false, []);
    }
    var missing := MissingIngredients(stock, found.value.ingredients, quantity);
    return StockCheck(|missing| == 0, missing);
  }

  /** The loop over the ingredients, pushing the name of each one the stock cannot cover. */
  method MissingIngredients(stock: seq<StockItem>, ings: seq<PortionIngredient>, quantity: int)
    returns (missing: seq<string>)
    ensures missing == Missing(stock, ings, quantity)
  {
    missing := [];
    for i := 0 to |ings|
      invariant missing == Missing(stock, ings[..i], quantity)
    {
      MissingSnoc(stock, ings, i, quantity);
      if !CheckFractionalAvailable(stock, ings[i].productId, Needed(ings[i], quantity)) {
        missing := missing + [ings[i].productName];
      }
    }
    assert ings[..|ings|] == ings;
  }

  /** The stock gate at the head of `updateCartQuantity`. */
  method IncreaseGate(cart: seq<PDVCartItem>, portions: seq<Portion>, stock: seq<StockItem>,
                      delta: int, isPortion: bool, portionId: Option<Id>) returns (refused: bool)
    ensures refused == IncreaseRefused(cart, portions, stock, delta, isPortion, portionId)
  {
    if isPortion && delta > 0 && IdTruthy(portionId) {
      var current := CurrentQuantity(cart, portionId);
      var check := CheckPortionStock(portions, stock, portionId.value, current + delta);
      refused := !check.available;
    } else {
      refused := false;
    }
  }

  /** The validation loop of `handleFinalizeSale`: the index of the first
      portion line the stock cannot cover, `|cart|` when there is none. */
  method ValidatePortions(cart: seq<PDVCartItem>, portions: seq<Portion>, stock: seq<StockItem>) returns (k: nat)
    ensures k == FirstShortLine(cart, portions, stock)
  {
    for i := 0 to |cart|
      invariant forall j :: 0 <= j < i ==> !LineShort(portions, stock, cart[j])
    {
      var item := cart[i];
      if item.isPortion && IdTruthy(item.portionId) {
        var check := CheckPortionStock(portions, stock, item.portionId.value, item.quantity);
        if !check.available {
          FirstShortLineIs(cart, portions, stock, i);
          return i;
        }
      }
    }
    FirstShortLineIs(cart, portions, stock, |cart|);
    return |cart|;
  }

  /** A portion line's `forEach` over its ingredients. */
  method SettlePortion(ledger: StockLedger, seen: seq<StockItem>, ings: seq<PortionIngredient>, quantity: int)
    modifies ledger
    ensures ledger.items == SettleIngredients(seen, old(ledger.items), ings, quantity)
  {
    for j := 0 to |ings|
      invariant ledger.items == SettleIngredients(seen, old(ledger.items), ings[..j], quantity)
    {
      assert ings[..j + 1][..j] == ings[..j];
      var ok := ledger.DecreaseFractionalStock(seen, ings[j].productId, Needed(ings[j], quantity));
    }
    assert ings[..|ings|] == ings;
  }

  /** The stock loop of `handleFinalizeSale`. Every `decreaseFractionalStock`
      it makes reads the `stock` of the render the handler belongs to, which is
      the ledger as it stood when the loop began. */
  method DeductCart(ledger: StockLedger, cart: seq<PDVCartItem>, portions: seq<Portion>)
    modifies ledger
    ensures ledger.items == SettleStock(old(ledger.items), old(ledger.items), cart, portions)
  {
    var seen := ledger.items;
    for i := 0 to |cart|
      invariant ledger.items == SettleStock(seen, seen, cart[..i], portions)
    {
      assert cart[..i + 1][..i] == cart[..i];
      var item := cart[i];
      if item.isPortion && IdTruthy(item.portionId) {
        var found := FindPortion(portions, item.portionId.value);
        if found.Some? {
          SettlePortion(ledger, seen, found.value.ingredients, item.quantity);
        }
      } else {
        ledger.DecreaseStock(item.productId, item.quantity as real);
      }
    }
    assert cart[..|cart|] == cart;
  }

  /** The comanda branch of `handleFinalizeSale`: `removeReadyOrder` for each
      of the comanda's ready orders, as they stood before the first removal. */
  method RemoveComandaReady(ledger: OrderLedger, n: int)
    requires ledger.Valid()
    modifies ledger
    ensures ledger.readyOrders == RemoveAll(old(ledger.readyOrders), ComandaReady(old(ledger.readyOrders), n))
    ensures ledger.orders == old(ledger.orders) && ledger.nextSerial == old(ledger.nextSerial)
    ensures ledger.Valid()
  {
    var victims := ComandaReady(ledger.readyOrders, n);
    ghost var start := ledger.readyOrders;
    for i := 0 to |victims|
      invariant ledger.Valid()
      invariant ledger.readyOrders == RemoveAll(start, victims[..i])
      invariant ledger.orders == old(ledger.orders) && ledger.nextSerial == old(ledger.nextSerial)
    {
      assert victims[..i + 1][..i] == victims[..i];
      ledger.RemoveReadyOrder(victims[i].id);
    }
    assert victims[..|victims|] == victims;
  }

  /** The nested `forEach` of `loadComandaByNumber`: each line is added to
      its product's row, found with `items.find`, or pushed as a new row. */
  method MergeLines(matching: seq<Order>) returns (rows: seq<PDVCartItem>)
    ensures rows == Aggregate(AllLines(matching))
  {
    rows := [];
    for i := 0 to |matching|
      invariant rows == Aggregate(AllLines(matching[..i]))
    {
      assert matching[..i + 1][..i] == matching[..i];
      rows := MergeOrder(rows, AllLines(matching[..i]), matching[i].items);
    }
    assert matching[..|matching|] == matching;
  }

  lemma {:induction false} MergeStep(done: seq<CartItem>, items: seq<CartItem>, j: nat)
    requires j < |items|
    ensures Aggregate(done + items[..j + 1]) == Merged(Aggregate(done + items[..j]), items[j])
  {
    AggregateSnoc(done + items[..j], items[j]);
    assert done + items[..j + 1] == (done + items[..j]) + [items[j]];
  }

  /** The inner `forEach`: one order's lines merged into the rows built so far. */
  method MergeOrder(rows0: seq<PDVCartItem>, ghost done: seq<CartItem>, items: seq<CartItem>) returns (rows: seq<PDVCartItem>)
    requires rows0 == Aggregate(done)
    ensures rows == Aggregate(done + items)
  {
    rows := rows0;
    assert done + items[..0] == done;
    for j := 0 to |items|
      invariant rows == Aggregate(done + items[..j])
    {
      var item := items[j];
      MergeStep(done, items, j);
      var k := RowIndex(rows, item.product.id);
      if k < |rows| {
        rows := RowIncreased(rows, k, item.quantity);
      } else {
        rows := rows + [ComandaRow(item)];
      }
    }
    assert items[..|items|] == items;
  }

  /** The body of `addPortionToCart`: check one portion, then one more of a
      portion already in the cart, before touching the cart. */
  method AddPortionLine(cart0: seq<PDVCartItem>, portions: seq<Portion>, stock: seq<StockItem>, portion: Portion)
    returns (added: bool, cart: seq<PDVCartItem>)
    ensures (added, cart) == PortionAdded(cart0, portions, stock, portion)
  {
    cart := cart0;
    var check := CheckPortionStock(portions, stock, portion.id, 1);
    if !check.available {
      return false, cart;
    }
    var f := PortionIs(Some(portion.id));
    var existing := Find(cart, f);
    if existing.None? {
      return true, cart + [PortionLine(portion)];
    }
    var again := CheckPortionStock(portions, stock, portion.id, existing.value.quantity + 1);
    if !again.available {
      return false, cart;
    }
    return true, MapWhere(cart, f, Bumped);
  }

  /** The screen's state that the handlers read and write. */
  class CounterScreen {
    var cart: seq<PDVCartItem>
    var selectedPayment: PaymentMethod
    var currentComanda: Option<int>
    var customerName: string
    var selectedComposite: Option<CompositeProduct>
    var qrInput: string

    /** Every line holds at least one item, and a loaded comanda number is positive. */
    predicate Valid()
      reads this
    {
      PositiveLines(cart) && (currentComanda.Some? ==> currentComanda.value > 0)
    }

    constructor ()
      ensures cart == [] && selectedPayment == Dinheiro && currentComanda == None
      ensures customerName == "" && selectedComposite == None && qrInput == ""
      ensures Valid()
    {
      cart := [];
      selectedPayment := Dinheiro;
      currentComanda := None;
      customerName := "";
      selectedComposite := None;
      qrInput := "";
    }

    method AddToCart(product: Product)
      modifies this
      ensures cart == ProductAdded(old(cart), product)
      ensures currentComanda == old(currentComanda) && customerName == old(customerName)
      ensures selectedPayment == old(selectedPayment) && selectedComposite == old(selectedComposite)
      ensures qrInput == old(qrInput)
      ensures old(Valid()) ==> Valid()
    {
      if Valid() {
        ProductAddedPositive(cart, product);
      }
      cart := ProductAdded(cart, product);
    }

    /** `addPortionToCart`: `added` is false, and the cart untouched, when the
        stock cannot cover one portion, or one more of a portion already in the cart. */
    method AddPortionToCart(portion: Portion, registry: PortionRegistry, ledger: StockLedger) returns (added: bool)
      modifies this
      ensures (added, cart) == PortionAdded(old(cart), registry.portions, ledger.items, portion)
      ensures currentComanda == old(currentComanda) && customerName == old(customerName)
      ensures selectedPayment == old(selectedPayment) && selectedComposite == old(selectedComposite)
      ensures qrInput == old(qrInput)
      ensures old(Valid()) ==> Valid()
    {
      if Valid() {
        PortionAddedPositive(cart, registry.portions, ledger.items, portion);
      }
      added, cart := AddPortionLine(cart, registry.portions, ledger.items, portion);
    }

    /** `updateCartQuantity`: `applied` is false, and the cart untouched, when
        an increase of a portion line is refused by the stock. */
    method UpdateCartQuantity(productId: Id, delta: int, isPortion: bool, portionId: Option<Id>,
                              registry: PortionRegistry, ledger: StockLedger) returns (applied: bool)
      modifies this
      ensures (applied, cart) ==
              QuantityUpdated(old(cart), registry.portions, ledger.items, productId, delta, isPortion, portionId)
      ensures currentComanda == old(currentComanda) && customerName == old(customerName)
      ensures selectedPayment == old(selectedPayment) && selectedComposite == old(selectedComposite)
      ensures qrInput == old(qrInput)
      ensures old(Valid()) ==> Valid()
    {
      var refused := IncreaseGate(cart, registry.portions, ledger.items, delta, isPortion, portionId);
      if refused {
        return false;
      }
      if Valid() {
        QuantityUpdatedPositive(cart, registry.portions, ledger.items, productId, delta, isPortion, portionId);
      }
      cart := Filter(MapWhere(cart, TargetOf(productId, isPortion, portionId), AdjustBy(delta)), Positive);
      return true;
    }

    method RemoveFromCart(productId: Id, isPortion: bool, portionId: Option<Id>)
      modifies this
      ensures cart == RemovedLines(old(cart), productId, isPortion, portionId)
      ensures currentComanda == old(currentComanda) && customerName == old(customerName)
      ensures selectedPayment == old(selectedPayment) && selectedComposite == old(selectedComposite)
      ensures qrInput == old(qrInput)
      ensures old(Valid()) ==> Valid()
    {
      if Valid() {
        RemovedLinesPositive(cart, productId, isPortion, portionId);
      }
      cart := RemovedLines(cart, productId, isPortion, portionId);
    }

    /** `clearCart` also forgets the loaded comanda and the customer's name. */
    method ClearCart()
      modifies this
      ensures cart == [] && currentComanda == None && customerName == ""
      ensures selectedPayment == old(selectedPayment) && selectedComposite == old(selectedComposite)
      ensures qrInput == old(qrInput)
      ensures Valid()
    {
      cart := [];
      currentComanda := None;
      customerName := "";
    }

    method OpenCompositeSelection(composite: CompositeProduct)
      modifies this
      ensures selectedComposite == Some(composite)
      ensures cart == old(cart) && currentComanda == old(currentComanda) && customerName == old(customerName)
      ensures selectedPayment == old(selectedPayment) && qrInput == old(qrInput)
      ensures old(Valid()) ==> Valid()
    {
      selectedComposite := Some(composite);
    }

    /** `addCompositeToCart`: nothing without a chosen composite; otherwise one
        new line, whatever the cart holds, and the choice is cleared. */
    method AddCompositeToCart(selected: seq<SelectedIngredient>, observation: string, quantity: int, now: int)
      modifies this
      ensures old(selectedComposite).None? ==> cart == old(cart) && selectedComposite == None
      ensures old(selectedComposite).Some? ==>
                cart == old(cart) + [CompositeLine(old(selectedComposite).value, now, selected, observation, quantity)] &&
                selectedComposite == None
      ensures currentComanda == old(currentComanda) && customerName == old(customerName)
      ensures selectedPayment == old(selectedPayment) && qrInput == old(qrInput)
      ensures old(Valid()) && quantity > 0 ==> Valid()
    {
      if selectedComposite.None? {
        return;
      }
      cart := cart + [CompositeLine(selectedComposite.value, now, selected, observation, quantity)];
      selectedComposite := None;
    }

    method SetCustomerName(name: string)
      modifies this
      ensures customerName == name
      ensures cart == old(cart) && currentComanda == old(currentComanda) && selectedComposite == old(selectedComposite)
      ensures selectedPayment == old(selectedPayment) && qrInput == old(qrInput)
      ensures old(Valid()) ==> Valid()
    {
      customerName := name;
    }

    method SelectPayment(payment: PaymentMethod)
      modifies this
      ensures selectedPayment == payment
      ensures cart == old(cart) && currentComanda == old(currentComanda) && selectedComposite == old(selectedComposite)
      ensures customerName == old(customerName) && qrInput == old(qrInput)
      ensures old(Valid()) ==> Valid()
    {
      selectedPayment := payment;
    }

    method SetQrInput(text: string)
      modifies this
      ensures qrInput == text
      ensures cart == old(cart) && currentComanda == old(currentComanda) && selectedComposite == old(selectedComposite)
      ensures customerName == old(customerName) && selectedPayment == old(selectedPayment)
      ensures old(Valid()) ==> Valid()
    {
      qrInput := text;
    }

    /** `handleOpenQRScanner` empties the typed number. */
    method OpenQrScanner()
      modifies this
      ensures qrInput == ""
      ensures cart == old(cart) && currentComanda == old(currentComanda) && selectedComposite == old(selectedComposite)
      ensures customerName == old(customerName) && selectedPayment == old(selectedPayment)
      ensures old(Valid()) ==> Valid()
    {
      qrInput := "";
    }

    /** `loadComandaByNumber`: `number` is `None` for NaN. On success the cart
        is replaced by the merged lines and the comanda becomes current. */
    method LoadComandaByNumber(ledger: OrderLedger, number: Option<int>) returns (loaded: bool)
      modifies this
      ensures loaded == LoadedCart(ledger.orders, ledger.readyOrders, number).Some?
      ensures loaded ==> cart == LoadedCart(ledger.orders, ledger.readyOrders, number).value && currentComanda == number
      ensures !loaded ==> cart == old(cart) && currentComanda == old(currentComanda)
      ensures customerName == old(customerName) && selectedComposite == old(selectedComposite)
      ensures selectedPayment == old(selectedPayment) && qrInput == old(qrInput)
      ensures old(Valid()) && PositiveItems(ledger.orders) && PositiveItems(ledger.readyOrders) ==> Valid()
    {
      if number.None? || number.value <= 0 {
        return false;
      }
      var n := number.value;
      var matching := Filter(ledger.orders + ledger.readyOrders, ComandaFilter(n));
      if |matching| == 0 {
        return false;
      }
      var rows := MergeLines(matching);
      if PositiveItems(ledger.orders) && PositiveItems(ledger.readyOrders) {
        LoadedPositive(ledger.orders, ledger.readyOrders, number);
      }
      cart := rows;
      currentComanda := number;
      return true;
    }

    /** `handleScanComanda`: `parseInt` of the typed text. */
    method HandleScanComanda(ledger: OrderLedger) returns (loaded: bool)
      modifies this
      ensures loaded == LoadedCart(ledger.orders, ledger.readyOrders, Js.ParseInt(old(qrInput))).Some?
      ensures loaded ==> cart == LoadedCart(ledger.orders, ledger.readyOrders, Js.ParseInt(old(qrInput))).value &&
                         currentComanda == Js.ParseInt(old(qrInput))
      ensures !loaded ==> cart == old(cart) && currentComanda == old(currentComanda)
      ensures customerName == old(customerName) && selectedComposite == old(selectedComposite)
      ensures selectedPayment == old(selectedPayment) && qrInput == old(qrInput)
      ensures old(Valid()) && PositiveItems(ledger.orders) && PositiveItems(ledger.readyOrders) ==> Valid()
    {
      loaded := LoadComandaByNumber(ledger, Js.ParseInt(qrInput));
    }

    /** `handleQRScanSuccess`: the number read from the code's text, loaded
        only when it is positive. */
    method HandleQrScanSuccess(ledger: OrderLedger, decodedText: string) returns (loaded: bool)
      modifies this
      ensures loaded == LoadedCart(ledger.orders, ledger.readyOrders, ComandaQr.QrComandaNumber(decodedText)).Some?
      ensures loaded ==>
                cart == LoadedCart(ledger.orders, ledger.readyOrders, ComandaQr.QrComandaNumber(decodedText)).value &&
                currentComanda == ComandaQr.QrComandaNumber(decodedText)
      ensures !loaded ==> cart == old(cart) && currentComanda == old(currentComanda)
      ensures customerName == old(customerName) && selectedComposite == old(selectedComposite)
      ensures selectedPayment == old(selectedPayment) && qrInput == old(qrInput)
      ensures old(Valid()) && PositiveItems(ledger.orders) && PositiveItems(ledger.readyOrders) ==> Valid()
    {
      var number := ComandaQr.QrComandaNumber(decodedText);
      if number.Some? && number.value > 0 {
        loaded := LoadComandaByNumber(ledger, number);
      } else {
        loaded := false;
      }
    }

    /** `handleFinalizeSale`. An empty cart, or a portion line the stock
        cannot cover, stops it with nothing changed. Otherwise it records the
        sale, deducts the stock, clears the comanda's ready orders, hands the
        kitchen a ticket for a counter sale that needs preparing, and clears
        the cart. */
    method HandleFinalizeSale(sales: Sales.SalesLog, ledger: StockLedger, orders: OrderLedger,
                              registry: PortionRegistry, now: int) returns (outcome: Outcome)
      requires sales.Valid() && orders.Valid()
      modifies this, sales, ledger, orders
      ensures outcome.EmptyCart? <==> old(cart) == []
      ensures outcome.ShortStock? <==>
                old(cart) != [] && FirstShortLine(old(cart), registry.portions, old(ledger.items)) < |old(cart)|
      ensures outcome.ShortStock? ==> outcome.line == FirstShortLine(old(cart), registry.portions, old(ledger.items))
      ensures !outcome.Finalized? ==> unchanged(this, sales, ledger, orders)
      ensures outcome.Finalized? ==>
                sales.sales == old(sales.sales) +
                               [Sales.NewSale(SaleDraftOf(old(cart), old(currentComanda), selectedPayment),
                                              old(sales.nextSerial), now)] &&
                ledger.items == SettleStock(old(ledger.items), old(ledger.items), old(cart), registry.portions) &&
                orders.readyOrders == SettledReady(old(orders.readyOrders), old(currentComanda)) &&
                orders.orders == old(orders.orders) &&
                outcome.balcao == BalcaoOf(old(cart), old(currentComanda), old(customerName)) &&
                cart == [] && currentComanda == None && customerName == ""
      ensures selectedPayment == old(selectedPayment) && selectedComposite == old(selectedComposite)
      ensures qrInput == old(qrInput)
      ensures sales.Valid() && orders.Valid()
      ensures old(Valid()) ==> Valid()
    {
      if |cart| == 0 {
        return EmptyCart;
      }
      var bad := ValidatePortions(cart, registry.portions, ledger.items);
      if bad < |cart| {
        return ShortStock(bad);
      }
      var draft := SaleDraftOf(cart, currentComanda, selectedPayment);
      sales.AddSale(draft, now);
      DeductCart(ledger, cart, registry.portions);
      if ComandaLoaded(currentComanda) {
        RemoveComandaReady(orders, currentComanda.value);
      }
      var balcao := BalcaoOf(cart, currentComanda, customerName);
      ClearCart();
      return Finalized(balcao);
    }
  }
}
