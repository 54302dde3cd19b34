/** Settling the counter cart (`handleFinalizeSale` in
    `src/components/admin/AdminPDV.tsx`): the per-line portion gate, the sale
    record, the stock each line consumes, the ready orders the sale clears and
    the kitchen ticket for counter sales. */
module Settlement {
  import opened Common
  import opened Types
  import opened Stock
  import opened Portions
  import opened Orders
  import opened ComandaLoading
  import opened CounterCart

  /** Truthiness of the loaded comanda number (`null` and 0 are falsy). */
  predicate ComandaLoaded(c: Option<int>) {
    c.Some? && c.value != 0
  }

  // ---------------------------------------------------------------- validation

  /** A portion line whose full quantity the stock cannot cover. */
  predicate LineShort(portions: seq<Portion>, stock: seq<StockItem>, line: PDVCartItem) {
    IsPortionLine(line) && !PortionStock(portions, stock, line.portionId.value, line.quantity).available
  }

  function ShortLine(portions: seq<Portion>, stock: seq<StockItem>): PDVCartItem -> bool {
    (line: PDVCartItem) => LineShort(portions, stock, line)
  }

  /** The first line the validation loop rejects, `|cart|` when it passes them all. */
  function FirstShortLine(cart: seq<PDVCartItem>, portions: seq<Portion>, stock: seq<StockItem>): (k: nat)
    ensures k <= |cart|
    ensures forall j :: 0 <= j < k ==> !LineShort(portions, stock, cart[j])
    ensures k < |cart| ==> LineShort(portions, stock, cart[k])
  {
    FirstWhere(cart, ShortLine(portions, stock))
  }

  /** Whatever index has the two properties of `FirstShortLine` is `FirstShortLine`. */
  lemma {:induction false} FirstShortLineIs(cart: seq<PDVCartItem>, portions: seq<Portion>, stock: seq<StockItem>, k: nat)
    requires k <= |cart|
    requires forall j :: 0 <= j < k ==> !LineShort(portions, stock, cart[j])
    requires k < |cart| ==> LineShort(portions, stock, cart[k])
    ensures FirstShortLine(cart, portions, stock) == k
  {
    FirstWhereIs(cart, ShortLine(portions, stock), k);
  }

  // ---------------------------------------------------------------- the sale

  function SaleItemOf(line: PDVCartItem): SaleItem {
    SaleItem(line.productId, line.productName, line.quantity, line.unitPrice, line.quantity as real * line.unitPrice)
  }

  function SaleItems(cart: seq<PDVCartItem>): seq<SaleItem> {
    if cart == [] then [] else [SaleItemOf(cart[0])] + SaleItems(cart[1..])
  }

  function ItemTotal(item: SaleItem): real {
    item.total
  }

  /** The sale `handleFinalizeSale` records. */
  function SaleDraftOf(cart: seq<PDVCartItem>, comanda: Option<int>, payment: PaymentMethod): SaleDraft {
    SaleDraft(SaleItems(cart), CartTotal(cart), if ComandaLoaded(comanda) then ComandaSale else PdvSale,
              if ComandaLoaded(comanda) then comanda else None, payment)
  }

  lemma {:induction false} LineTotalCommutes(line: PDVCartItem)
    ensures SaleItemOf(line).total == LineTotal(line)
  {
  }

  /** One sale item per line, in order, whose totals add up to the sale total. */
  lemma {:induction false} SaleItemsSpec(cart: seq<PDVCartItem>)
    ensures |SaleItems(cart)| == |cart|
    ensures forall k :: 0 <= k < |cart| ==>
              SaleItems(cart)[k].productId == cart[k].productId && SaleItems(cart)[k].quantity == cart[k].quantity &&
              SaleItems(cart)[k].unitPrice == cart[k].unitPrice && SaleItems(cart)[k].productName == cart[k].productName
    ensures SumReal(SaleItems(cart), ItemTotal) == CartTotal(cart)
  {
    if cart != [] {
      SaleItemsSpec(cart[1..]);
      LineTotalCommutes(cart[0]);
      assert SaleItems(cart)[1..] == SaleItems(cart[1..]);
    }
  }

  /** The sale is a comanda sale, carrying the number, exactly when a comanda is loaded. */
  lemma {:induction false} SaleDraftSpec(cart: seq<PDVCartItem>, comanda: Option<int>, payment: PaymentMethod)
    ensures var d := SaleDraftOf(cart, comanda, payment);
            SumReal(d.items, ItemTotal) == d.total && d.paymentMethod == payment &&
            (d.kind == ComandaSale <==> ComandaLoaded(comanda)) &&
            (d.comandaNumber.Some? <==> ComandaLoaded(comanda)) &&
            (ComandaLoaded(comanda) ==> d.comandaNumber == comanda)
  {
    SaleItemsSpec(cart);
  }

  // ---------------------------------------------------------------- the stock

  /** The portion's ingredients in turn through `decreaseFractionalStock`,
      whose refusals are ignored. Every call's guard reads `seen`, the `stock`
      of the render in which the sale was finalized; the updates accumulate
      on `stock`. */
  function SettleIngredients(seen: seq<StockItem>, stock: seq<StockItem>, ings: seq<PortionIngredient>, quantity: int): seq<StockItem> {
    if ings == [] then stock
    else
      var n := |ings| - 1;
      FractionalDecrease(seen, SettleIngredients(seen, stock, ings[..n], quantity), ings[n].productId, Needed(ings[n], quantity)).1
  }

  /** A portion line consumes its recipe; any other line (a composite line
      too) goes through `decreaseStock` under its own product id. */
  function SettleLine(seen: seq<StockItem>, stock: seq<StockItem>, line: PDVCartItem, portions: seq<Portion>): seq<StockItem> {
    if IsPortionLine(line) then
      match FindPortion(portions, line.portionId.value)
      case None => stock
      case Some(p) => SettleIngredients(seen, stock, p.ingredients, line.quantity)
    else Decreased(stock, line.productId, line.quantity as real)
  }

  /** The stock after the sale's `forEach` over the cart, starting from
      `stock`, with every gate reading `seen`. The sale itself starts from
      the render's own stock: `SettleStock(s, s, cart, portions)`. */
  function SettleStock(seen: seq<StockItem>, stock: seq<StockItem>, cart: seq<PDVCartItem>, portions: seq<Portion>): seq<StockItem> {
    if cart == [] then stock
    else
      var n := |cart| - 1;
      SettleLine(seen, SettleStock(seen, stock, cart[..n], portions), cart[n], portions)
  }

  lemma {:induction false} SettleIngredientsNonNegative(seen: seq<StockItem>, stock: seq<StockItem>, ings: seq<PortionIngredient>, quantity: int)
    requires NonNegative(stock)
    ensures NonNegative(SettleIngredients(seen, stock, ings, quantity))
  {
    if ings != [] {
      var n := |ings| - 1;
      SettleIngredientsNonNegative(seen, stock, ings[..n], quantity);
      FractionalDecreasePreservesNonNegative(seen, SettleIngredients(seen, stock, ings[..n], quantity), ings[n].productId,
                                             Needed(ings[n], quantity));
    }
  }

  /** Settling never drives a stored quantity below zero. */
  lemma {:induction false} SettleNonNegative(seen: seq<StockItem>, stock: seq<StockItem>, cart: seq<PDVCartItem>, portions: seq<Portion>)
    requires NonNegative(stock)
    ensures NonNegative(SettleStock(seen, stock, cart, portions))
  {
    if cart != [] {
      var n := |cart| - 1;
      SettleNonNegative(seen, stock, cart[..n], portions);
      var mid := SettleStock(seen, stock, cart[..n], portions);
      var line := cart[n];
      if IsPortionLine(line) {
        match FindPortion(portions, line.portionId.value)
        case None =>
        case Some(p) => SettleIngredientsNonNegative(seen, mid, p.ingredients, line.quantity);
      } else {
        DecreasePreservesNonNegative(mid, line.productId, line.quantity as real);
      }
    }
  }

  /** A composite line decreases its synthetic id, which no stock entry
      carries, so its ingredients are never deducted. */
  lemma {:induction false} CompositeLineDeductsNothing(seen: seq<StockItem>, stock: seq<StockItem>, c: CompositeProduct, now: int,
                                    selected: seq<SelectedIngredient>, observation: string, quantity: int,
                                    portions: seq<Portion>)
    requires forall k :: 0 <= k < |stock| ==> !stock[k].productId.Stamped?
    ensures SettleLine(seen, stock, CompositeLine(c, now, selected, observation, quantity), portions) == stock
  {
    DecreaseUnknown(stock, Stamped(c.id, now), quantity as real);
  }

  predicate DistinctIngredients(ings: seq<PortionIngredient>) {
    forall i, j :: 0 <= i < j < |ings| ==> ings[i].productId != ings[j].productId
  }

  /** Every ingredient's lookup in `after` is its lookup in `stock` less what it needs. */
  predicate LoweredByNeed(after: seq<StockItem>, stock: seq<StockItem>, ings: seq<PortionIngredient>, quantity: int) {
    forall k :: 0 <= k < |ings| ==>
      Available(after, ings[k].productId) == Available(stock, ings[k].productId) - Needed(ings[k], quantity)
  }

  predicate Unlisted(ings: seq<PortionIngredient>, p: Id) {
    forall k :: 0 <= k < |ings| ==> ings[k].productId != p
  }

  /** Every product off the recipe keeps its lookup. */
  ghost predicate OthersKept(after: seq<StockItem>, stock: seq<StockItem>, ings: seq<PortionIngredient>) {
    forall p :: Unlisted(ings, p) ==> Available(after, p) == Available(stock, p)
  }

  /** Extending a settled prefix by one more, unlisted ingredient that both
      the snapshot and the stock cover. */
  lemma {:induction false} ExactStep(seen: seq<StockItem>, stock: seq<StockItem>, mid: seq<StockItem>, init: seq<PortionIngredient>,
                  last: PortionIngredient, quantity: int)
    requires SameIds(mid, stock) && LoweredByNeed(mid, stock, init, quantity) && OthersKept(mid, stock, init)
    requires Unlisted(init, last.productId) && HasEntry(stock, last.productId)
    requires !Short(seen, last, quantity) && !Short(stock, last, quantity)
    ensures var after := FractionalDecrease(seen, mid, last.productId, Needed(last, quantity)).1;
            SameIds(after, stock) && LoweredByNeed(after, stock, init + [last], quantity) &&
            OthersKept(after, stock, init + [last])
  {
    var ings := init + [last];
    var n := |init|;
    var need := Needed(last, quantity);
    SameIdsFirstIndex(mid, stock, last.productId);
    DecreaseEntries(mid, last.productId, need);
    var after := FractionalDecrease(seen, mid, last.productId, need).1;
    assert Available(mid, last.productId) == Available(stock, last.productId);
    forall p ensures Available(after, p) == if p == last.productId then Available(mid, p) - need else Available(mid, p)
    {
      FractionalDecreaseExact(seen, mid, last.productId, need, p);
    }
    forall k | 0 <= k < |ings|
      ensures Available(after, ings[k].productId) == Available(stock, ings[k].productId) - Needed(ings[k], quantity)
    {
      if k < n {
        assert ings[k] == init[k];
      }
    }
    forall p | Unlisted(ings, p) ensures Available(after, p) == Available(stock, p) {
      assert forall k :: 0 <= k < n ==> ings[k] == init[k];
      assert p != ings[n].productId;
    }
  }

  /** When every ingredient has an entry that covers what it needs, in the
      snapshot and in the stock, and no ingredient repeats, settling a
      portion lowers each ingredient by exactly what it needs and leaves
      every other product alone. */
  lemma {:induction false} SettleIngredientsExact(seen: seq<StockItem>, stock: seq<StockItem>, ings: seq<PortionIngredient>, quantity: int)
    requires DistinctIngredients(ings)
    requires forall k :: 0 <= k < |ings| ==>
               HasEntry(stock, ings[k].productId) && !Short(seen, ings[k], quantity) && !Short(stock, ings[k], quantity)
    ensures SameIds(SettleIngredients(seen, stock, ings, quantity), stock)
    ensures LoweredByNeed(SettleIngredients(seen, stock, ings, quantity), stock, ings, quantity)
    ensures OthersKept(SettleIngredients(seen, stock, ings, quantity), stock, ings)
  {
    if ings != [] {
      var n := |ings| - 1;
      var init := ings[..n];
      var last := ings[n];
      assert forall k :: 0 <= k < n ==> init[k] == ings[k];
      assert ings == init + [last];
      SettleIngredientsExact(seen, stock, init, quantity);
      ExactStep(seen, stock, SettleIngredients(seen, stock, init, quantity), init, last, quantity);
    }
  }

  /** Validation checks each portion line against the render's stock, not
      against what earlier lines will consume, and so does every deduction's
      gate. With 300 g for two portions of 200 g each, both lines pass, both
      deductions report success, and the stock ends at 0 g: 400 g are taken
      from 300 g and the 100 g shortfall goes unreported. */
  lemma {:induction false} PerLineValidation(b: Id, p1: Id, p2: Id)
    requires p1 != p2 && p1 != NoId && p2 != NoId
    ensures var stock := [StockItem(b, 300.0, 0.0)];
            var ing := PortionIngredient(b, "Batata Congelada", 200.0, G);
            var portions := [Portion(p1, "P", "", 14.0, NoId, true, [ing]), Portion(p2, "M", "", 20.0, NoId, true, [ing])];
            var cart := [PDVCartItem(p1, "P", 14.0, 1, true, Some(p1), true, false, None, "", []),
                         PDVCartItem(p2, "M", 20.0, 1, true, Some(p2), true, false, None, "", [])];
            var afterFirst := SettleStock(stock, stock, cart[..1], portions);
            FirstShortLine(cart, portions, stock) == |cart| &&
            FractionalDecrease(stock, stock, b, 200.0).0 &&
            FractionalDecrease(stock, afterFirst, b, 200.0).0 &&
            Available(afterFirst, b) == 100.0 &&
            Available(SettleStock(stock, stock, cart, portions), b) == 0.0
  {
    var stock := [StockItem(b, 300.0, 0.0)];
    var ing := PortionIngredient(b, "Batata Congelada", 200.0, G);
    var portions := [Portion(p1, "P", "", 14.0, NoId, true, [ing]), Portion(p2, "M", "", 20.0, NoId, true, [ing])];
    var l1 := PDVCartItem(p1, "P", 14.0, 1, true, Some(p1), true, false, None, "", []);
    var l2 := PDVCartItem(p2, "M", 20.0, 1, true, Some(p2), true, false, None, "", []);
    var cart := [l1, l2];
    assert FindPortion(portions, p1) == Some(portions[0]);
    assert FindPortion(portions, p2) == Some(portions[1]);
    assert Needed(ing, 1) == 200.0;
    assert Available(stock, b) == 300.0;
    assert !LineShort(portions, stock, l1) && !LineShort(portions, stock, l2);
    assert FirstShortLine(cart, portions, stock) == |cart| by {
      assert [l1, l2][1..] == [l2];
    }
    var after1 := [StockItem(b, 100.0, 0.0)];
    var after2 := [StockItem(b, 0.0, 0.0)];
    assert Decreased(stock, b, 200.0) == after1;
    assert Decreased(after1, b, 200.0) == after2;
    assert [ing][..0] == [];
    assert SettleIngredients(stock, stock, [ing], 1) == after1;
    assert cart[..1] == [l1];
    assert [l1][..0] == [];
    assert SettleStock(stock, stock, [l1], portions) == after1;
    assert Available(after1, b) == 100.0;
    assert SettleIngredients(stock, after1, [ing], 1) == after2;
    assert Available(after2, b) == 0.0;
  }

  // ---------------------------------------------------------------- ready orders

  /** The loaded comanda's ready orders, captured before any is removed. */
  function ComandaReady(ready: seq<Order>, n: int): seq<Order> {
    Filter(ready, ComandaFilter(n))
  }

  /** `removeReadyOrder` for each victim in turn. */
  function RemoveAll(ready: seq<Order>, victims: seq<Order>): seq<Order> {
    if victims == [] then ready
    else RemovedReady(RemoveAll(ready, victims[..|victims| - 1]), victims[|victims| - 1].id)
  }

  /** An order survives exactly when no victim shares its id. */
  lemma {:induction false} RemoveAllSpec(ready: seq<Order>, victims: seq<Order>)
    ensures forall o :: o in RemoveAll(ready, victims) <==> o in ready && forall v | v in victims :: v.id != o.id
  {
    if victims != [] {
      var n := |victims| - 1;
      RemoveAllSpec(ready, victims[..n]);
      assert forall v :: v in victims <==> v in victims[..n] || v == victims[n] by {
        assert victims == victims[..n] + [victims[n]];
      }
    }
  }

  /** What the sale does to `readyOrders`. */
  function SettledReady(ready: seq<Order>, comanda: Option<int>): seq<Order> {
    if ComandaLoaded(comanda) then RemoveAll(ready, ComandaReady(ready, comanda.value)) else ready
  }

  /** Only the loaded comanda's ready orders go (with anything sharing their id). */
  lemma {:induction false} SettledReadySpec(ready: seq<Order>, comanda: Option<int>)
    ensures !ComandaLoaded(comanda) ==> SettledReady(ready, comanda) == ready
    ensures ComandaLoaded(comanda) ==>
              forall o :: o in SettledReady(ready, comanda) <==>
                o in ready && forall v | v in ready && ForComanda(v, comanda.value) :: v.id != o.id
  {
    if ComandaLoaded(comanda) {
      RemoveAllSpec(ready, ComandaReady(ready, comanda.value));
    }
  }

  /** Ready orders never carry an `orderType`, so a sale never clears one. */
  lemma {:induction false} SettleNeverClears(ready: seq<Order>, comanda: Option<int>)
    requires NoOrderType(ready)
    ensures SettledReady(ready, comanda) == ready
  {
    if ComandaLoaded(comanda) {
      FilterNone(ready, ComandaFilter(comanda.value));
    }
  }

  // ---------------------------------------------------------------- the kitchen ticket

  /** What `addBalcaoOrder` receives: the whole cart and `customerName || undefined`. */
  datatype BalcaoTicket = BalcaoTicket(items: seq<PDVCartItem>, customerName: Option<string>)

  function BalcaoOf(cart: seq<PDVCartItem>, comanda: Option<int>, customerName: string): (r: Option<BalcaoTicket>)
    ensures r.Some? <==> !ComandaLoaded(comanda) && NeedsPreparation(cart)
    ensures r.Some? ==> r.value.items == cart && (r.value.customerName.None? <==> customerName == "")
  {
    if !ComandaLoaded(comanda) && NeedsPreparation(cart) then
      Some(BalcaoTicket(cart, if customerName == "" then None else Some(customerName)))
    else None
  }

  /** How `handleFinalizeSale` ends. */
  datatype Outcome = EmptyCart | ShortStock(line: nat) | Finalized(balcao: Option<BalcaoTicket>)
}
