/** The order ledger (`src/contexts/OrdersContext.tsx`): orders in preparation
    and ready orders, and the two-step life cycle between them. */
module Orders {
  import opened Common
  import opened Types

  /** `prev.find(o => o.id === id)`. */
  function FindOrder(s: seq<Order>, id: Id): (r: Option<Order>)
    ensures r.None? <==> forall o | o in s :: o.id != id
    ensures r.Some? ==> r.value in s && r.value.id == id
    ensures r.Some? ==> exists k :: 0 <= k < |s| && s[k] == r.value && forall j :: 0 <= j < k ==> s[j].id != id
  {
    if s == [] then None
    else if s[0].id == id then Some(s[0])
    else
      var r := FindOrder(s[1..], id);
      if r.Some? then
        var k :| 0 <= k < |s[1..]| && s[1..][k] == r.value && forall j :: 0 <= j < k ==> s[1..][j].id != id;
        assert s[k + 1] == r.value;
        assert forall j :: 0 <= j < k + 1 ==> s[j].id != id by {
          forall j | 0 <= j < k + 1 ensures s[j].id != id {
            if j > 0 {
              assert s[j] == s[1..][j - 1];
            }
          }
        }
        r
      else
        r
  }

  predicate HasId(s: seq<Order>, id: Id) {
    exists o :: o in s && o.id == id
  }

  /** `prev.filter(o => o.id !== id)`. */
  function WithoutId(s: seq<Order>, id: Id): (r: seq<Order>)
    ensures forall o | o in r :: o in s && o.id != id
    ensures forall o | o in s && o.id != id :: o in r
  {
    Filter(s, (o: Order) => o.id != id)
  }

  /** The copy `markAsReady` moves: status ready and the time it was marked. */
  function ReadyCopy(o: Order, now: int): Order {
    o.(status := Ready, readyAt := Some(now))
  }

  /** The new order of `addOrder`. The order type is never set. */
  function NewOrder(serial: nat, items: seq<CartItem>, comandaNumber: int, now: int): Order {
    Order(Fresh("order", serial), comandaNumber, items, Preparing, now, None, None)
  }

  /** `markAsReady`, the preparing side: every order with the id is dropped. */
  function MarkedOrders(orders: seq<Order>, id: Id): seq<Order> {
    WithoutId(orders, id)
  }

  /** `markAsReady`, the ready side: one ready copy of the first order with the id, if any. */
  function MarkedReady(orders: seq<Order>, ready: seq<Order>, id: Id, now: int): seq<Order> {
    match FindOrder(orders, id)
    case None => ready
    case Some(o) => ready + [ReadyCopy(o, now)]
  }

  /** `removeReadyOrder`. */
  function RemovedReady(ready: seq<Order>, id: Id): seq<Order> {
    WithoutId(ready, id)
  }

  function DifferentIds(a: Order, b: Order): bool {
    a.id != b.id
  }

  predicate UniqueIds(s: seq<Order>) {
    Pairwise(s, DifferentIds)
  }

  predicate AllPreparing(s: seq<Order>) {
    forall o | o in s :: o.status == Preparing
  }

  predicate AllReady(s: seq<Order>) {
    forall o | o in s :: o.status == Ready && o.readyAt.Some?
  }

  /** No order in the ledger carries `orderType`. */
  predicate NoOrderType(s: seq<Order>) {
    forall o | o in s :: o.orderType.None?
  }

  /** Every `order-<n>` id in the ledger is below the counter that gives the next one. */
  predicate SerialsBelow(s: seq<Order>, next: nat) {
    forall o | o in s && o.id.Fresh? && o.id.prefix == "order" :: o.id.serial < next
  }

  /** The ledger invariant: `orders` holds preparing orders with distinct ids,
      `readyOrders` holds ready ones, and the id counter is ahead of both. */
  predicate ValidLedger(orders: seq<Order>, ready: seq<Order>, next: nat) {
    AllPreparing(orders) && AllReady(ready) && UniqueIds(orders) &&
    SerialsBelow(orders, next) && SerialsBelow(ready, next)
  }

  /** `markAsReady` on an id not in `orders`, unknown or already moved, changes neither collection. */
  lemma {:induction false} MarkUnknown(orders: seq<Order>, ready: seq<Order>, id: Id, now: int)
    requires !HasId(orders, id)
    ensures MarkedOrders(orders, id) == orders
    ensures MarkedReady(orders, ready, id, now) == ready
  {
    FilterAll(orders, (o: Order) => o.id != id);
  }

  /** `markAsReady` on an id in `orders` moves one ready copy of the first
      order with that id, with the same id, comanda number and items. */
  lemma {:induction false} MarkKnown(orders: seq<Order>, ready: seq<Order>, id: Id, now: int)
    requires HasId(orders, id)
    ensures !HasId(MarkedOrders(orders, id), id)
    ensures exists o :: o in orders && o.id == id &&
              MarkedReady(orders, ready, id, now) == ready + [o.(status := Ready, readyAt := Some(now))]
  {
  }

  /** A second `markAsReady` with the same id, at any time, changes nothing more. */
  lemma {:induction false} MarkIdempotent(orders: seq<Order>, ready: seq<Order>, id: Id, now: int, later: int)
    ensures MarkedOrders(MarkedOrders(orders, id), id) == MarkedOrders(orders, id)
    ensures MarkedReady(MarkedOrders(orders, id), MarkedReady(orders, ready, id, now), id, later) ==
            MarkedReady(orders, ready, id, now)
  {
    MarkUnknown(MarkedOrders(orders, id), MarkedReady(orders, ready, id, now), id, later);
  }

  /** With distinct ids in `orders`, `markAsReady` neither loses nor duplicates an order. */
  lemma {:induction false} MarkConserves(orders: seq<Order>, ready: seq<Order>, id: Id, now: int)
    requires UniqueIds(orders)
    ensures |MarkedOrders(orders, id)| + |MarkedReady(orders, ready, id, now)| == |orders| + |ready|
  {
    var f := (o: Order) => o.id != id;
    FilterLength(orders, f);
    if HasId(orders, id) {
      var o :| o in orders && o.id == id;
      var k :| 0 <= k < |orders| && orders[k] == o;
      forall j | 0 <= j < |orders| && j != k ensures f(orders[j]) {
        if j < k {
          assert DifferentIds(orders[j], orders[k]);
        } else {
          assert DifferentIds(orders[k], orders[j]);
        }
      }
      CountOne(orders, f, k);
    } else {
      MarkUnknown(orders, ready, id, now);
    }
  }

  /** `removeReadyOrder` drops exactly the ready orders with the id, in order, and only those. */
  lemma {:induction false} RemoveReadyDropsOnlyId(ready: seq<Order>, id: Id)
    ensures !HasId(RemovedReady(ready, id), id)
    ensures forall o | o in ready && o.id != id :: o in RemovedReady(ready, id)
    ensures |RemovedReady(ready, id)| <= |ready|
  {
  }

  /** Every operation keeps the ledger invariant. */
  lemma {:induction false} AddKeepsValid(orders: seq<Order>, ready: seq<Order>, next: nat, items: seq<CartItem>, comandaNumber: int, now: int)
    requires ValidLedger(orders, ready, next)
    ensures ValidLedger(orders + [NewOrder(next, items, comandaNumber, now)], ready, next + 1)
  {
    var n := NewOrder(next, items, comandaNumber, now);
    var s := orders + [n];
    forall i, j | 0 <= i < j < |s| ensures DifferentIds(s[i], s[j]) {
      if j < |orders| {
        assert DifferentIds(orders[i], orders[j]);
      } else {
        assert s[i] in orders;
      }
    }
  }

  lemma {:induction false} MarkKeepsValid(orders: seq<Order>, ready: seq<Order>, next: nat, id: Id, now: int)
    requires ValidLedger(orders, ready, next)
    ensures ValidLedger(MarkedOrders(orders, id), MarkedReady(orders, ready, id, now), next)
  {
    FilterPairwise(orders, (o: Order) => o.id != id, DifferentIds);
  }

  lemma {:induction false} RemoveKeepsValid(orders: seq<Order>, ready: seq<Order>, next: nat, id: Id)
    requires ValidLedger(orders, ready, next)
    ensures ValidLedger(orders, RemovedReady(ready, id), next)
  {
  }

  /** No operation moves an order back from `readyOrders` to `orders`: what is
      in `orders` afterwards was there before, or is the order just added. */
  lemma {:induction false} NoReturnToPreparing(orders: seq<Order>, ready: seq<Order>, next: nat, items: seq<CartItem>,
                            comandaNumber: int, id: Id, now: int)
    ensures forall o | o in orders + [NewOrder(next, items, comandaNumber, now)] ::
              o in orders || o == NewOrder(next, items, comandaNumber, now)
    ensures forall o | o in MarkedOrders(orders, id) :: o in orders
    ensures forall o | o in MarkedReady(orders, ready, id, now) :: o in ready || o.status == Ready
  {
  }

  /** No operation ever sets `orderType`. */
  lemma {:induction false} OrderTypeNeverSet(orders: seq<Order>, ready: seq<Order>, next: nat, items: seq<CartItem>,
                          comandaNumber: int, id: Id, now: int)
    requires NoOrderType(orders) && NoOrderType(ready)
    ensures NoOrderType(orders + [NewOrder(next, items, comandaNumber, now)])
    ensures NoOrderType(MarkedOrders(orders, id)) && NoOrderType(MarkedReady(orders, ready, id, now))
    ensures NoOrderType(RemovedReady(ready, id))
  {
  }

  /** A seed-menu product, with none of the optional fields. */
  function MenuProduct(id: string, name: string, description: string, price: real, category: string): Product {
    Product(Named(id), name, description, price, None, Named(category), None, None, None, None, None, None)
  }

  function SeedLine(p: Product, quantity: int, observation: string): CartItem {
    CartItem(p, quantity, observation, false, None, None)
  }

  /** The three demonstration orders, created 5, 3 and 1 minutes before `now` (milliseconds). */
  function SeedOrders(now: int): seq<Order> {
    [ Order(Named("demo-1"), 5,
            [ SeedLine(MenuProduct("1", "Açaí 300ml", "Açaí puro", 12.0, "acai"), 2, "Sem granola"),
              SeedLine(MenuProduct("2", "Açaí 500ml", "Açaí puro", 18.0, "acai"), 1, "") ],
            Preparing, now - 5 * 60000, None, None),
      Order(Named("demo-2"), 12,
            [ SeedLine(MenuProduct("3", "Pastel de Carne", "Pastel grande", 8.0, "pasteis"), 3, "Bem passado") ],
            Preparing, now - 3 * 60000, None, None),
      Order(Named("demo-3"), 8,
            [ SeedLine(MenuProduct("4", "Suco de Laranja", "Natural", 7.0, "bebidas"), 2, "Sem gelo"),
              SeedLine(MenuProduct("5", "Água Mineral", "500ml", 4.0, "bebidas"), 1, "") ],
            Preparing, now - 1 * 60000, None, None) ]
  }

  /** The initial ledger is valid, with every seed order preparing and none carrying an order type. */
  lemma {:induction false} SeedValid(now: int)
    ensures ValidLedger(SeedOrders(now), [], 0)
    ensures NoOrderType(SeedOrders(now))
  {
  }

  /** The provider's `orders` and `readyOrders` state; `nextSerial` stands for `Date.now()` in new ids. */
  class OrderLedger {
    var orders: seq<Order>
    var readyOrders: seq<Order>
    var nextSerial: nat

    predicate Valid()
      reads this
    {
      ValidLedger(orders, readyOrders, nextSerial) && NoOrderType(orders) && NoOrderType(readyOrders)
    }

    constructor (now: int)
      ensures orders == SeedOrders(now) && readyOrders == [] && nextSerial == 0
      ensures Valid()
    {
      orders := SeedOrders(now);
      readyOrders := [];
      nextSerial := 0;
      SeedValid(now);
    }

    /** `addOrder`: append one preparing order; the ready orders are untouched. */
    method AddOrder(items: seq<CartItem>, comandaNumber: int, now: int)
      requires Valid()
      modifies this
      ensures orders == old(orders) + [NewOrder(old(nextSerial), items, comandaNumber, now)]
      ensures readyOrders == old(readyOrders)
      ensures nextSerial == old(nextSerial) + 1
      ensures Valid()
    {
      AddKeepsValid(orders, readyOrders, nextSerial, items, comandaNumber, now);
      OrderTypeNeverSet(orders, readyOrders, nextSerial, items, comandaNumber, NoId, now);
      orders := orders + [NewOrder(nextSerial, items, comandaNumber, now)];
      nextSerial := nextSerial + 1;
    }

    method MarkAsReady(orderId: Id, now: int)
      requires Valid()
      modifies this
      ensures orders == MarkedOrders(old(orders), orderId)
      ensures readyOrders == MarkedReady(old(orders), old(readyOrders), orderId, now)
      ensures nextSerial == old(nextSerial)
      ensures |orders| + |readyOrders| == old(|orders| + |readyOrders|)
      ensures Valid()
    {
      MarkKeepsValid(orders, readyOrders, nextSerial, orderId, now);
      MarkConserves(orders, readyOrders, orderId, now);
      OrderTypeNeverSet(orders, readyOrders, nextSerial, [], 0, orderId, now);
      readyOrders := MarkedReady(orders, readyOrders, orderId, now);
      orders := MarkedOrders(orders, orderId);
    }

    method RemoveReadyOrder(orderId: Id)
      requires Valid()
      modifies this
      ensures readyOrders == RemovedReady(old(readyOrders), orderId)
      ensures orders == old(orders) && nextSerial == old(nextSerial)
      ensures Valid()
    {
      RemoveKeepsValid(orders, readyOrders, nextSerial, orderId);
      OrderTypeNeverSet(orders, readyOrders, nextSerial, [], 0, orderId, 0);
      readyOrders := RemovedReady(readyOrders, orderId);
    }
  }
}
