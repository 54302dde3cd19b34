/** Loading a table's (comanda's) orders into the counter cart
    (`loadComandaByNumber` in `src/components/admin/AdminPDV.tsx`): the
    orders are selected by number and type, and their lines are merged per
    product, in first-seen order. */
module ComandaLoading {
  import opened Common
  import opened Types
  import opened Orders

  /** `o.comandaNumber === n && o.orderType === "comanda"`. */
  predicate ForComanda(o: Order, n: int) {
    o.comandaNumber == n && o.orderType == Some(ComandaOrder)
  }

  function ComandaFilter(n: int): Order -> bool {
    (o: Order) => ForComanda(o, n)
  }

  /** The comanda's orders among `[...orders, ...readyOrders]`, in that order. */
  function ComandaOrders(orders: seq<Order>, ready: seq<Order>, n: int): (r: seq<Order>)
    ensures forall o | o in r :: (o in orders || o in ready) && ForComanda(o, n)
    ensures forall o | (o in orders || o in ready) && ForComanda(o, n) :: o in r
  {
    Filter(orders + ready, ComandaFilter(n))
  }

  /** Every line of every order, in order. */
  function AllLines(os: seq<Order>): seq<CartItem> {
    if os == [] then [] else AllLines(os[..|os| - 1]) + os[|os| - 1].items
  }

  /** The counter line a comanda line starts as. */
  function ComandaRow(item: CartItem): PDVCartItem {
    PDVCartItem(item.product.id, item.product.name, item.product.price, item.quantity, false, None,
                item.product.needsPreparation.GetOr(false), false, None, "", [])
  }

  function RowIs(id: Id): PDVCartItem -> bool {
    (x: PDVCartItem) => x.productId == id
  }

  /** Position of the row for a product id, `|rows|` without one (`items.find`). */
  function RowIndex(rows: seq<PDVCartItem>, id: Id): (k: nat)
    ensures k <= |rows|
    ensures forall j :: 0 <= j < k ==> rows[j].productId != id
    ensures k < |rows| ==> rows[k].productId == id
  {
    FirstWhere(rows, RowIs(id))
  }

  function LineIs(id: Id): CartItem -> bool {
    (x: CartItem) => x.product.id == id
  }

  /** Position of the first line for a product id, `|lines|` without one. */
  function LineIndex(lines: seq<CartItem>, id: Id): (k: nat)
    ensures k <= |lines|
    ensures forall j :: 0 <= j < k ==> lines[j].product.id != id
    ensures k < |lines| ==> lines[k].product.id == id
  {
    FirstWhere(lines, LineIs(id))
  }

  lemma {:induction false} LineIndexUnique(lines: seq<CartItem>, id: Id, k: nat)
    requires k <= |lines|
    requires forall j :: 0 <= j < k ==> lines[j].product.id != id
    requires k < |lines| ==> lines[k].product.id == id
    ensures LineIndex(lines, id) == k
  {
    FirstWhereIs(lines, LineIs(id), k);
  }

  /** Some line is for the product. */
  predicate Ordered(lines: seq<CartItem>, id: Id) {
    LineIndex(lines, id) < |lines|
  }

  function ItemQuantity(item: CartItem): int {
    item.quantity
  }

  function ForProduct(id: Id): CartItem -> bool {
    (item: CartItem) => item.product.id == id
  }

  /** The reference meaning of a row's quantity: Σ quantity over the product's lines. */
  function OrderedQuantity(lines: seq<CartItem>, id: Id): int {
    SumInt(Filter(lines, ForProduct(id)), ItemQuantity)
  }

  predicate DistinctRows(rows: seq<PDVCartItem>) {
    forall i, j :: 0 <= i < j < |rows| ==> rows[i].productId != rows[j].productId
  }

  /** `existing.quantity += item.quantity`: row `k` gains `q` and nothing else changes. */
  function RowIncreased(rows: seq<PDVCartItem>, k: nat, q: int): (r: seq<PDVCartItem>)
    requires k < |rows|
    ensures |r| == |rows|
    ensures forall i :: 0 <= i < |rows| && i != k ==> r[i] == rows[i]
    ensures r[k].productId == rows[k].productId && r[k].quantity == rows[k].quantity + q
    ensures r[k].productName == rows[k].productName && r[k].unitPrice == rows[k].unitPrice
    ensures r[k].needsPreparation == rows[k].needsPreparation
  {
    rows[k := rows[k].(quantity := rows[k].quantity + q)]
  }

  /** One line of the loop: add to the product's row, or push a new row. */
  function Merged(rows: seq<PDVCartItem>, item: CartItem): seq<PDVCartItem> {
    var k := RowIndex(rows, item.product.id);
    if k < |rows| then RowIncreased(rows, k, item.quantity)
    else rows + [ComandaRow(item)]
  }

  /** The `items` array after the loop has visited `lines`. */
  function Aggregate(lines: seq<CartItem>): seq<PDVCartItem> {
    if lines == [] then [] else Merged(Aggregate(lines[..|lines| - 1]), lines[|lines| - 1])
  }

  /** `loadComandaByNumber`: `None` (cart untouched) for NaN, a number ≤ 0 or
      a comanda without orders, else the merged cart. */
  function LoadedCart(orders: seq<Order>, ready: seq<Order>, number: Option<int>): (r: Option<seq<PDVCartItem>>)
    ensures number.None? || number.value <= 0 ==> r.None?
    ensures number.Some? && number.value > 0 ==>
              (r.None? <==> forall o | o in orders || o in ready :: !ForComanda(o, number.value))
    ensures r.Some? ==> r.value == Aggregate(AllLines(ComandaOrders(orders, ready, number.value)))
  {
    if number.None? || number.value <= 0 then None
    else
      var matching := ComandaOrders(orders, ready, number.value);
      if matching == [] then None
      else
        assert matching[0] in matching;
        Some(Aggregate(AllLines(matching)))
  }

  /** Orders are never given an `orderType`, so no comanda ever loads. */
  lemma {:induction false} NeverLoads(orders: seq<Order>, ready: seq<Order>, number: Option<int>)
    requires NoOrderType(orders) && NoOrderType(ready)
    ensures LoadedCart(orders, ready, number).None?
  {
  }

  lemma {:induction false} AggregateSnoc(lines: seq<CartItem>, item: CartItem)
    ensures Aggregate(lines + [item]) == Merged(Aggregate(lines), item)
  {
    assert (lines + [item])[..|lines|] == lines;
  }

  lemma {:induction false} OrderedSnoc(init: seq<CartItem>, item: CartItem, id: Id)
    ensures Ordered(init + [item], id) <==> Ordered(init, id) || item.product.id == id
    ensures Ordered(init, id) ==> LineIndex(init + [item], id) == LineIndex(init, id)
    ensures !Ordered(init, id) && item.product.id == id ==> LineIndex(init + [item], id) == |init|
  {
    var s := init + [item];
    assert forall j :: 0 <= j < |init| ==> s[j] == init[j];
    var k := LineIndex(init, id);
    if k < |init| {
      LineIndexUnique(s, id, k);
    } else if item.product.id == id {
      LineIndexUnique(s, id, |init|);
    } else {
      LineIndexUnique(s, id, |s|);
    }
  }

  lemma {:induction false} QuantitySnoc(init: seq<CartItem>, item: CartItem, id: Id)
    ensures OrderedQuantity(init + [item], id) == OrderedQuantity(init, id) + (if item.product.id == id then item.quantity else 0)
  {
    var f := ForProduct(id);
    FilterConcat(init, [item], f);
    SumIntConcat(Filter(init, f), Filter([item], f), ItemQuantity);
    assert Filter([item], f) == if f(item) then [item] else [];
  }

  lemma {:induction false} UnorderedQuantity(lines: seq<CartItem>, id: Id)
    requires !Ordered(lines, id)
    ensures OrderedQuantity(lines, id) == 0
  {
    FilterNone(lines, ForProduct(id));
  }

  /** One merge keeps every row but the product's as it was, adds the line's
      quantity to the product's row, and appends a row only when there was none. */
  lemma {:induction false} MergedShape(rows: seq<PDVCartItem>, item: CartItem)
    ensures var r, k := Merged(rows, item), RowIndex(rows, item.product.id);
            |r| == (if k < |rows| then |rows| else |rows| + 1) &&
            (forall i :: 0 <= i < |rows| ==>
               r[i].productId == rows[i].productId && r[i].productName == rows[i].productName &&
               r[i].unitPrice == rows[i].unitPrice && r[i].needsPreparation == rows[i].needsPreparation &&
               r[i].quantity == rows[i].quantity + (if i == k then item.quantity else 0)) &&
            (k == |rows| ==> r[k] == ComandaRow(item))
  {
  }

  /** A merge keeps the rows' ids distinct, and every id that had a row, and the line's, has one after. */
  lemma {:induction false} MergedIds(rows: seq<PDVCartItem>, item: CartItem)
    requires DistinctRows(rows)
    ensures DistinctRows(Merged(rows, item))
    ensures forall i :: 0 <= i < |Merged(rows, item)| ==>
              Merged(rows, item)[i].productId == item.product.id ||
              (i < |rows| && Merged(rows, item)[i].productId == rows[i].productId)
    ensures forall id :: RowIndex(rows, id) < |rows| || id == item.product.id ==>
              RowIndex(Merged(rows, item), id) < |Merged(rows, item)|
  {
    MergedShape(rows, item);
    var r, k := Merged(rows, item), RowIndex(rows, item.product.id);
    forall id | RowIndex(rows, id) < |rows| || id == item.product.id ensures RowIndex(r, id) < |r| {
      if RowIndex(rows, id) < |rows| {
        assert r[RowIndex(rows, id)].productId == id;
      } else {
        assert r[k].productId == id;
      }
    }
  }

  /** The merged cart has one row per product ordered and no other row. */
  lemma {:induction false} AggregateIds(lines: seq<CartItem>)
    ensures DistinctRows(Aggregate(lines))
    ensures forall i :: 0 <= i < |Aggregate(lines)| ==> Ordered(lines, Aggregate(lines)[i].productId)
    ensures forall id :: Ordered(lines, id) ==> RowIndex(Aggregate(lines), id) < |Aggregate(lines)|
    decreases |lines|
  {
    if lines != [] {
      var n := |lines| - 1;
      var init, item := lines[..n], lines[n];
      assert lines == init + [item];
      AggregateIds(init);
      AggregateSnoc(init, item);
      MergedIds(Aggregate(init), item);
      forall id ensures Ordered(lines, id) <==> Ordered(init, id) || item.product.id == id {
        OrderedSnoc(init, item, id);
      }
    }
  }

  /** Rows in the order their products first appear among `lines`. */
  predicate FirstSeenOrder(lines: seq<CartItem>, rows: seq<PDVCartItem>) {
    forall i, j :: 0 <= i < j < |rows| ==> LineIndex(lines, rows[i].productId) < LineIndex(lines, rows[j].productId)
  }

  /** A merge keeps the rows in first-seen order, one more line included. */
  lemma {:induction false} MergedFirstSeen(init: seq<CartItem>, rows: seq<PDVCartItem>, item: CartItem)
    requires FirstSeenOrder(init, rows)
    requires forall i :: 0 <= i < |rows| ==> Ordered(init, rows[i].productId)
    requires forall id :: Ordered(init, id) ==> RowIndex(rows, id) < |rows|
    ensures FirstSeenOrder(init + [item], Merged(rows, item))
  {
    MergedShape(rows, item);
    var lines, after := init + [item], Merged(rows, item);
    forall i | 0 <= i < |rows| ensures LineIndex(lines, after[i].productId) == LineIndex(init, rows[i].productId) {
      OrderedSnoc(init, item, rows[i].productId);
    }
    if RowIndex(rows, item.product.id) == |rows| {
      OrderedSnoc(init, item, item.product.id);
      assert LineIndex(lines, after[|rows|].productId) == |init|;
    }
  }

  /** The rows come in the order their products first appear. */
  lemma {:induction false} AggregateFirstSeen(lines: seq<CartItem>)
    ensures forall i, j :: 0 <= i < j < |Aggregate(lines)| ==>
              LineIndex(lines, Aggregate(lines)[i].productId) < LineIndex(lines, Aggregate(lines)[j].productId)
    decreases |lines|
  {
    if lines != [] {
      var n := |lines| - 1;
      var init, item := lines[..n], lines[n];
      assert lines == init + [item];
      AggregateFirstSeen(init);
      AggregateIds(init);
      AggregateSnoc(init, item);
      MergedFirstSeen(init, Aggregate(init), item);
      assert FirstSeenOrder(lines, Aggregate(lines));
    }
  }

  /** A row agrees with `lines`: its product is ordered, its quantity is the
      product's summed quantity, and name, price and preparation flag are
      those of the product's first line. */
  predicate RowAgrees(lines: seq<CartItem>, r: PDVCartItem) {
    Ordered(lines, r.productId) && r.quantity == OrderedQuantity(lines, r.productId) &&
    var first := lines[LineIndex(lines, r.productId)];
    r.productName == first.product.name && r.unitPrice == first.product.price &&
    r.needsPreparation == first.product.needsPreparation.GetOr(false)
  }

  /** A merge keeps every row in agreement with the lines seen, one more line included. */
  lemma {:induction false} MergedAgrees(init: seq<CartItem>, rows: seq<PDVCartItem>, item: CartItem, i: nat)
    requires forall j :: 0 <= j < |rows| ==> RowAgrees(init, rows[j])
    requires forall id :: Ordered(init, id) ==> RowIndex(rows, id) < |rows|
    requires DistinctRows(rows)
    requires i < |Merged(rows, item)|
    ensures RowAgrees(init + [item], Merged(rows, item)[i])
  {
    MergedShape(rows, item);
    var lines, after := init + [item], Merged(rows, item);
    var p := after[i].productId;
    QuantitySnoc(init, item, p);
    OrderedSnoc(init, item, p);
    if i < |rows| {
      assert RowAgrees(init, rows[i]);
      assert lines[LineIndex(init, p)] == init[LineIndex(init, p)];
    } else {
      assert !Ordered(init, p);
      UnorderedQuantity(init, p);
    }
  }

  /** Every row of the merged cart agrees with the lines. */
  lemma {:induction false} AggregateAgrees(lines: seq<CartItem>)
    ensures forall i :: 0 <= i < |Aggregate(lines)| ==> RowAgrees(lines, Aggregate(lines)[i])
    decreases |lines|
  {
    if lines != [] {
      var n := |lines| - 1;
      var init, item := lines[..n], lines[n];
      assert lines == init + [item];
      AggregateAgrees(init);
      AggregateIds(init);
      AggregateSnoc(init, item);
      forall i | 0 <= i < |Aggregate(lines)| ensures RowAgrees(lines, Aggregate(lines)[i]) {
        MergedAgrees(init, Aggregate(init), item, i);
      }
    }
  }

  /** Each row holds its product's quantity summed over all the lines. */
  lemma {:induction false} AggregateQuantities(lines: seq<CartItem>)
    ensures forall i :: 0 <= i < |Aggregate(lines)| ==>
              Aggregate(lines)[i].quantity == OrderedQuantity(lines, Aggregate(lines)[i].productId)
  {
    AggregateAgrees(lines);
  }

  /** Each row takes name, price and preparation flag from its product's first line. */
  lemma {:induction false} AggregateFirstLine(lines: seq<CartItem>)
    ensures forall i :: 0 <= i < |Aggregate(lines)| ==>
              Ordered(lines, Aggregate(lines)[i].productId) &&
              var first := lines[LineIndex(lines, Aggregate(lines)[i].productId)];
              Aggregate(lines)[i].productName == first.product.name &&
              Aggregate(lines)[i].unitPrice == first.product.price &&
              Aggregate(lines)[i].needsPreparation == first.product.needsPreparation.GetOr(false)
  {
    AggregateAgrees(lines);
  }

  /** Every line of the orders has a quantity of one or more. */
  predicate PositiveItems(os: seq<Order>) {
    forall o, item | o in os && item in o.items :: item.quantity > 0
  }

  lemma {:induction false} AllLinesMember(os: seq<Order>, item: CartItem)
    requires item in AllLines(os)
    ensures exists o :: o in os && item in o.items
    decreases |os|
  {
    var n := |os| - 1;
    if item in os[n].items {
      assert os[n] in os;
    } else {
      AllLinesMember(os[..n], item);
      var o :| o in os[..n] && item in o.items;
      assert o in os;
    }
  }

  /** Merging positive lines gives positive rows. */
  lemma {:induction false} AggregatePositive(lines: seq<CartItem>)
    requires forall item | item in lines :: item.quantity > 0
    ensures forall row | row in Aggregate(lines) :: row.quantity > 0
    decreases |lines|
  {
    if lines != [] {
      var n := |lines| - 1;
      assert forall item | item in lines[..n] :: item in lines;
      AggregatePositive(lines[..n]);
      var before := Aggregate(lines[..n]);
      var after := Aggregate(lines);
      assert lines[n] in lines;
      forall row | row in after ensures row.quantity > 0 {
        var k :| 0 <= k < |after| && after[k] == row;
        if k < |before| {
          assert before[k] in before;
        }
      }
    }
  }

  /** A comanda assembled from positive lines loads as positive rows. */
  lemma {:induction false} LoadedPositive(orders: seq<Order>, ready: seq<Order>, number: Option<int>)
    requires PositiveItems(orders) && PositiveItems(ready)
    requires LoadedCart(orders, ready, number).Some?
    ensures forall row | row in LoadedCart(orders, ready, number).value :: row.quantity > 0
  {
    var matching := ComandaOrders(orders, ready, number.value);
    forall item | item in AllLines(matching) ensures item.quantity > 0 {
      AllLinesMember(matching, item);
    }
    AggregatePositive(AllLines(matching));
  }
}
