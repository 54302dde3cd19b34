/** The comanda board of the order screen (`src/pages/PDV.tsx`): every order,
    preparing or ready, is grouped by comanda number into a card with its
    item count, price and status; the cards are sorted by number, and
    closing a comanda removes its ready orders. */
module ComandaBoard {
  import opened Common
  import opened Types
  import opened Orders
  import opened ComandaLoading
  import opened Settlement

  // ---------------------------------------------------------------- grouping

  /** One entry of the `Map<number, Order[]>`. */
  datatype Group = Group(comandaNumber: int, orders: seq<Order>)

  predicate HasNumber(o: Order, n: int) {
    o.comandaNumber == n
  }

  function NumberFilter(n: int): Order -> bool {
    (o: Order) => HasNumber(o, n)
  }

  function GroupIs(n: int): Group -> bool {
    (x: Group) => x.comandaNumber == n
  }

  /** `grouped.get(n)`: the position of the entry for `n`, `|groups|` when there is none. */
  function GroupIndex(groups: seq<Group>, n: int): (k: nat)
    ensures k <= |groups|
    ensures forall j :: 0 <= j < k ==> groups[j].comandaNumber != n
    ensures k < |groups| ==> groups[k].comandaNumber == n
  {
    FirstWhere(groups, GroupIs(n))
  }

  /** `grouped.set(n, [...existing, order])`: an existing key keeps its place
      in the map, a new key goes last. */
  function Placed(groups: seq<Group>, o: Order): seq<Group> {
    var k := GroupIndex(groups, o.comandaNumber);
    if k < |groups| then groups[k := Group(o.comandaNumber, groups[k].orders + [o])]
    else groups + [Group(o.comandaNumber, [o])]
  }

  /** The map after the `forEach`, as its entries in insertion order. */
  function Grouped(all: seq<Order>): seq<Group> {
    if all == [] then [] else Placed(Grouped(all[..|all| - 1]), all[|all| - 1])
  }

  predicate DistinctNumbers(groups: seq<Group>) {
    forall i, j :: 0 <= i < j < |groups| ==> groups[i].comandaNumber != groups[j].comandaNumber
  }

  predicate HasGroup(groups: seq<Group>, n: int) {
    exists k :: 0 <= k < |groups| && groups[k].comandaNumber == n
  }

  predicate Mentioned(all: seq<Order>, n: int) {
    exists o :: o in all && o.comandaNumber == n
  }

  /** Every group holds exactly the orders of `all` with its number, and none is empty. */
  predicate GroupsOf(groups: seq<Group>, all: seq<Order>) {
    forall g | g in groups :: g.orders == Filter(all, NumberFilter(g.comandaNumber)) && g.orders != []
  }

  lemma {:induction false} FilterSnoc(init: seq<Order>, o: Order, n: int)
    ensures Filter(init + [o], NumberFilter(n)) == Filter(init, NumberFilter(n)) + (if o.comandaNumber == n then [o] else [])
  {
    var f := NumberFilter(n);
    FilterConcat(init, [o], f);
    assert Filter([o], f) == (if f(o) then [o] else []) + Filter([o][1..], f);
  }

  lemma {:induction false} PlacedContents(gs: seq<Group>, init: seq<Order>, o: Order)
    requires DistinctNumbers(gs) && GroupsOf(gs, init)
    requires forall n :: HasGroup(gs, n) <==> Mentioned(init, n)
    ensures GroupsOf(Placed(gs, o), init + [o])
  {
    var k := GroupIndex(gs, o.comandaNumber);
    var r := Placed(gs, o);
    forall g | g in r
      ensures g.orders == Filter(init + [o], NumberFilter(g.comandaNumber)) && g.orders != []
    {
      FilterSnoc(init, o, g.comandaNumber);
      var j :| 0 <= j < |r| && r[j] == g;
      if j < |gs| && j != k {
        assert g == gs[j];
        if k < |gs| {
          assert g.comandaNumber != o.comandaNumber by {
            if j < k { } else { assert gs[k].comandaNumber == o.comandaNumber; }
          }
        }
      } else if j == k && k < |gs| {
        assert gs[k] in gs;
      } else {
        assert !HasGroup(gs, o.comandaNumber);
        FilterNone(init, NumberFilter(o.comandaNumber));
      }
    }
  }

  lemma {:induction false} PlacedNumbers(gs: seq<Group>, init: seq<Order>, o: Order)
    requires forall n :: HasGroup(gs, n) <==> Mentioned(init, n)
    ensures forall n :: HasGroup(Placed(gs, o), n) <==> Mentioned(init + [o], n)
  {
    var k := GroupIndex(gs, o.comandaNumber);
    var r := Placed(gs, o);
    var all := init + [o];
    forall n ensures HasGroup(r, n) <==> Mentioned(all, n) {
      if HasGroup(r, n) {
        var j :| 0 <= j < |r| && r[j].comandaNumber == n;
        if j < |gs| {
          assert gs[j].comandaNumber == n;
          assert HasGroup(gs, n);
          var x :| x in init && x.comandaNumber == n;
          assert x in all;
        } else {
          assert o.comandaNumber == n;
          assert o in all;
        }
      }
      if Mentioned(all, n) {
        var x :| x in all && x.comandaNumber == n;
        if x in init {
          assert Mentioned(init, n);
          var j :| 0 <= j < |gs| && gs[j].comandaNumber == n;
          assert r[j].comandaNumber == n;
        } else {
          assert x == o;
          if k < |gs| {
            assert r[k].comandaNumber == n;
          } else {
            assert r[|gs|].comandaNumber == n;
          }
        }
      }
    }
  }

  lemma {:induction false} PlacedDistinct(gs: seq<Group>, o: Order)
    requires DistinctNumbers(gs)
    ensures DistinctNumbers(Placed(gs, o))
  {
    var r := Placed(gs, o);
    forall i, j | 0 <= i < j < |r| ensures r[i].comandaNumber != r[j].comandaNumber {
      if j == |gs| {
        assert r[i].comandaNumber == gs[i].comandaNumber;
      }
    }
  }

  /** Every group holds exactly the orders with its number, in collection
      order; numbers are distinct; and a number has a group exactly when some
      order carries it. */
  lemma {:induction false} GroupedSpec(all: seq<Order>)
    ensures DistinctNumbers(Grouped(all))
    ensures GroupsOf(Grouped(all), all)
    ensures forall n :: HasGroup(Grouped(all), n) <==> Mentioned(all, n)
    decreases |all|
  {
    if all != [] {
      var m := |all| - 1;
      var init, o := all[..m], all[m];
      assert all == init + [o];
      GroupedSpec(init);
      var gs := Grouped(init);
      PlacedContents(gs, init, o);
      PlacedNumbers(gs, init, o);
      PlacedDistinct(gs, o);
    }
  }

  /** The `forEach` filling the map: one lookup and one `set` per order. */
  method GroupOrders(all: seq<Order>) returns (groups: seq<Group>)
    ensures groups == Grouped(all)
  {
    groups := [];
    for i := 0 to |all|
      invariant groups == Grouped(all[..i])
    {
      var o := all[i];
      assert all[..i + 1][..i] == all[..i];
      var k := GroupIndex(groups, o.comandaNumber);
      if k < |groups| {
        groups := groups[k := Group(o.comandaNumber, groups[k].orders + [o])];
      } else {
        groups := groups + [Group(o.comandaNumber, [o])];
      }
    }
    assert all[..|all|] == all;
  }

  // ---------------------------------------------------------------- cards

  /** The `status` strings `"ready"`, `"partial"` and `"preparing"`. */
  datatype CardStatus = CardReady | CardPartial | CardPreparing

  /** One card of the board. */
  datatype ComandaCard = ComandaCard(comandaNumber: int, orders: seq<Order>, totalItems: int, totalPrice: real, status: CardStatus)

  function IsReadyOrder(o: Order): bool {
    o.status == Ready
  }

  lemma {:induction false} CountExtremes(s: seq<Order>)
    ensures Count(s, IsReadyOrder) == |s| <==> forall o | o in s :: o.status == Ready
    ensures Count(s, IsReadyOrder) == 0 <==> forall o | o in s :: o.status != Ready
    ensures Count(s, IsReadyOrder) <= |s|
  {
    if s != [] {
      CountExtremes(s[1..]);
      assert forall o :: o in s <==> o == s[0] || o in s[1..] by {
        assert s == [s[0]] + s[1..];
      }
    }
  }

  /** `allReady ? "ready" : someReady ? "partial" : "preparing"`, counting ready orders. */
  function StatusOf(os: seq<Order>): (r: CardStatus)
    ensures r == CardReady <==> forall o | o in os :: o.status == Ready
    ensures r == CardPartial <==> (exists o | o in os :: o.status == Ready) && (exists o | o in os :: o.status != Ready)
    ensures r == CardPreparing <==> os != [] && forall o | o in os :: o.status != Ready
  {
    CountExtremes(os);
    var c := Count(os, IsReadyOrder);
    if c == |os| then CardReady else if c > 0 then CardPartial else CardPreparing
  }

  function LineQuantity(i: CartItem): int {
    i.quantity
  }

  function LinePrice(i: CartItem): real {
    i.product.price * i.quantity as real
  }

  /** `order.items.reduce((s, i) => s + i.quantity, 0)`. */
  function OrderItems(o: Order): int {
    SumInt(o.items, LineQuantity)
  }

  /** `order.items.reduce((s, i) => s + i.product.price * i.quantity, 0)`. */
  function OrderPrice(o: Order): real {
    SumReal(o.items, LinePrice)
  }

  function CardOf(g: Group): ComandaCard {
    ComandaCard(g.comandaNumber, g.orders, SumInt(g.orders, OrderItems), SumReal(g.orders, OrderPrice), StatusOf(g.orders))
  }

  function Cards(groups: seq<Group>): (r: seq<ComandaCard>)
    ensures |r| == |groups|
    ensures forall k :: 0 <= k < |groups| ==> r[k] == CardOf(groups[k])
  {
    seq(|groups|, k requires 0 <= k < |groups| => CardOf(groups[k]))
  }

  /** The nested reductions add up every line of every order of the card. */
  lemma {:induction false} TotalsFlatten(os: seq<Order>)
    ensures SumInt(os, OrderItems) == SumInt(AllLines(os), LineQuantity)
    ensures SumReal(os, OrderPrice) == SumReal(AllLines(os), LinePrice)
    decreases |os|
  {
    if os != [] {
      var m := |os| - 1;
      assert os == os[..m] + [os[m]];
      TotalsFlatten(os[..m]);
      SumIntConcat(os[..m], [os[m]], OrderItems);
      SumRealConcat(os[..m], [os[m]], OrderPrice);
      SumIntConcat(AllLines(os[..m]), os[m].items, LineQuantity);
      SumRealConcat(AllLines(os[..m]), os[m].items, LinePrice);
    }
  }

  // ---------------------------------------------------------------- sorting

  /** How many leading cards have a number not above `n`. */
  function Leading(cards: seq<ComandaCard>, n: int): (m: nat)
    ensures m <= |cards|
    ensures forall i :: 0 <= i < m ==> cards[i].comandaNumber <= n
    ensures m < |cards| ==> cards[m].comandaNumber > n
  {
    if cards == [] || cards[0].comandaNumber > n then 0 else 1 + Leading(cards[1..], n)
  }

  /** Places `x` after every leading card numbered at most as much, as a stable sort does. */
  function InsertByNumber(x: ComandaCard, cards: seq<ComandaCard>): seq<ComandaCard> {
    var m := Leading(cards, x.comandaNumber);
    cards[..m] + [x] + cards[m..]
  }

  /** `.sort((a, b) => a.comandaNumber - b.comandaNumber)`. */
  function SortByNumber(cards: seq<ComandaCard>): seq<ComandaCard> {
    if cards == [] then [] else InsertByNumber(cards[|cards| - 1], SortByNumber(cards[..|cards| - 1]))
  }

  predicate Ascending(cards: seq<ComandaCard>) {
    forall i, j :: 0 <= i < j < |cards| ==> cards[i].comandaNumber <= cards[j].comandaNumber
  }

  predicate DistinctCards(cards: seq<ComandaCard>) {
    forall i, j :: 0 <= i < j < |cards| ==> cards[i].comandaNumber != cards[j].comandaNumber
  }

  lemma {:induction false} InsertAscending(x: ComandaCard, cards: seq<ComandaCard>)
    requires Ascending(cards)
    ensures Ascending(InsertByNumber(x, cards))
  {
    var m := Leading(cards, x.comandaNumber);
    var r := InsertByNumber(x, cards);
    assert forall i :: 0 <= i < m ==> r[i] == cards[i];
    assert r[m] == x;
    assert forall i :: m < i < |r| ==> r[i] == cards[i - 1];
    forall i, j | 0 <= i < j < |r| ensures r[i].comandaNumber <= r[j].comandaNumber {
      if j == m {
        assert cards[i].comandaNumber <= x.comandaNumber;
      } else if i == m {
        assert cards[m].comandaNumber <= cards[j - 1].comandaNumber;
      } else if j < m {
        assert cards[i].comandaNumber <= cards[j].comandaNumber;
      } else if i < m {
        assert cards[i].comandaNumber <= cards[j - 1].comandaNumber;
      } else {
        assert cards[i - 1].comandaNumber <= cards[j - 1].comandaNumber;
      }
    }
  }

  lemma {:induction false} InsertKeeps(x: ComandaCard, cards: seq<ComandaCard>)
    ensures multiset(InsertByNumber(x, cards)) == multiset(cards) + multiset{x}
  {
    var m := Leading(cards, x.comandaNumber);
    assert cards == cards[..m] + cards[m..];
  }

  lemma {:induction false} InsertDistinct(x: ComandaCard, cards: seq<ComandaCard>)
    requires DistinctCards(cards)
    requires forall c | c in cards :: c.comandaNumber != x.comandaNumber
    ensures DistinctCards(InsertByNumber(x, cards))
  {
    var m := Leading(cards, x.comandaNumber);
    var r := InsertByNumber(x, cards);
    assert forall i :: 0 <= i < m ==> r[i] == cards[i];
    assert r[m] == x;
    assert forall i :: m < i < |r| ==> r[i] == cards[i - 1];
    forall i, j | 0 <= i < j < |r| ensures r[i].comandaNumber != r[j].comandaNumber {
      if i == m {
        assert cards[j - 1] in cards;
      } else if j == m {
        assert cards[i] in cards;
      }
    }
  }

  /** Distinct numbers with `x` last: the cards before it have distinct
      numbers, and none of them, in any order, has `x`'s number. */
  lemma {:induction false} DistinctSnoc(init: seq<ComandaCard>, x: ComandaCard, s: seq<ComandaCard>)
    requires DistinctCards(init + [x]) && multiset(s) == multiset(init)
    ensures DistinctCards(init)
    ensures forall y | y in s :: y.comandaNumber != x.comandaNumber
  {
    var cards := init + [x];
    forall i, j | 0 <= i < j < |init| ensures init[i].comandaNumber != init[j].comandaNumber {
      assert init[i] == cards[i] && init[j] == cards[j];
    }
    forall y | y in s ensures y.comandaNumber != x.comandaNumber {
      assert y in multiset(s);
      var j :| 0 <= j < |init| && init[j] == y;
      assert cards[j] == y && cards[|init|] == x;
    }
  }

  /** The sort is a permutation in non-decreasing number order, and it keeps
      numbers distinct. */
  lemma {:induction false} SortSpec(cards: seq<ComandaCard>)
    ensures Ascending(SortByNumber(cards))
    ensures multiset(SortByNumber(cards)) == multiset(cards)
    ensures DistinctCards(cards) ==> DistinctCards(SortByNumber(cards))
    decreases |cards|
  {
    if cards != [] {
      var n := |cards| - 1;
      var init, x := cards[..n], cards[n];
      assert cards == init + [x];
      SortSpec(init);
      var s := SortByNumber(init);
      InsertAscending(x, s);
      InsertKeeps(x, s);
      if DistinctCards(cards) {
        DistinctSnoc(init, x, s);
        InsertDistinct(x, s);
      }
    }
  }

  // ---------------------------------------------------------------- the board

  /** `comandasAgrupadas` as a value. */
  function Board(orders: seq<Order>, ready: seq<Order>): seq<ComandaCard> {
    SortByNumber(Cards(Grouped(orders + ready)))
  }

  predicate HasCard(board: seq<ComandaCard>, n: int) {
    exists c :: c in board && c.comandaNumber == n
  }

  /** What a card says about the orders: exactly those with its number, in
      collection order; totals over every line of them; the status they give. */
  predicate CardFor(c: ComandaCard, all: seq<Order>) {
    c.orders == Filter(all, NumberFilter(c.comandaNumber)) && c.orders != [] &&
    c.totalItems == SumInt(AllLines(c.orders), LineQuantity) &&
    c.totalPrice == SumReal(AllLines(c.orders), LinePrice) &&
    c.status == StatusOf(c.orders)
  }

  predicate StrictlyAscending(cards: seq<ComandaCard>) {
    forall i, j :: 0 <= i < j < |cards| ==> cards[i].comandaNumber < cards[j].comandaNumber
  }

  lemma {:induction false} CardsOfGroups(gs: seq<Group>, all: seq<Order>)
    requires DistinctNumbers(gs) && GroupsOf(gs, all)
    ensures DistinctCards(Cards(gs))
    ensures forall c | c in Cards(gs) :: CardFor(c, all)
  {
    var cs := Cards(gs);
    forall i, j | 0 <= i < j < |cs| ensures cs[i].comandaNumber != cs[j].comandaNumber {
      assert cs[i].comandaNumber == gs[i].comandaNumber && cs[j].comandaNumber == gs[j].comandaNumber;
    }
    forall c | c in cs ensures CardFor(c, all) {
      var k :| 0 <= k < |cs| && cs[k] == c;
      assert gs[k] in gs;
      TotalsFlatten(gs[k].orders);
    }
  }

  lemma {:induction false} SortedCards(cs: seq<ComandaCard>, all: seq<Order>)
    requires DistinctCards(cs) && forall c | c in cs :: CardFor(c, all)
    ensures StrictlyAscending(SortByNumber(cs))
    ensures forall c | c in SortByNumber(cs) :: CardFor(c, all)
    ensures forall c :: c in SortByNumber(cs) <==> c in cs
  {
    SortSpec(cs);
    var b := SortByNumber(cs);
    forall c ensures c in b <==> c in cs {
      assert c in b <==> c in multiset(b);
    }
  }

  /** The board has one card per comanda number in use, in strictly increasing
      number order, and every card tells the truth about its orders. */
  lemma {:induction false} BoardSpec(orders: seq<Order>, ready: seq<Order>)
    ensures StrictlyAscending(Board(orders, ready))
    ensures forall c | c in Board(orders, ready) :: CardFor(c, orders + ready)
    ensures forall n :: HasCard(Board(orders, ready), n) <==> Mentioned(orders + ready, n)
  {
    var all := orders + ready;
    var gs := Grouped(all);
    GroupedSpec(all);
    var cs := Cards(gs);
    CardsOfGroups(gs, all);
    SortedCards(cs, all);
    var b := Board(orders, ready);
    forall n ensures HasCard(b, n) <==> Mentioned(all, n) {
      if HasCard(b, n) {
        var c :| c in b && c.comandaNumber == n;
        var k :| 0 <= k < |cs| && cs[k] == c;
        assert HasGroup(gs, n);
      }
      if Mentioned(all, n) {
        var k :| 0 <= k < |gs| && gs[k].comandaNumber == n;
        assert cs[k] in cs;
      }
    }
  }

  /** An order appears on the card of its own number and on no other. */
  lemma {:induction false} ExactlyOneCard(orders: seq<Order>, ready: seq<Order>, o: Order)
    requires o in orders + ready
    ensures HasCard(Board(orders, ready), o.comandaNumber)
    ensures forall c | c in Board(orders, ready) :: o in c.orders <==> c.comandaNumber == o.comandaNumber
  {
    BoardSpec(orders, ready);
    assert Mentioned(orders + ready, o.comandaNumber);
  }

  /** No ready order comes before a preparing one. */
  predicate ReadyAfterPreparing(s: seq<Order>) {
    forall i, j :: 0 <= i < j < |s| && s[i].status == Ready ==> s[j].status == Ready
  }

  /** With preparing orders in `orders` and ready ones in `readyOrders`, a
      card lists its preparing orders first and its ready ones after, each
      part in its collection's order. */
  lemma {:induction false} PreparingFirst(orders: seq<Order>, ready: seq<Order>, n: int)
    requires AllPreparing(orders) && AllReady(ready)
    ensures Filter(orders + ready, NumberFilter(n)) == Filter(orders, NumberFilter(n)) + Filter(ready, NumberFilter(n))
    ensures ReadyAfterPreparing(Filter(orders + ready, NumberFilter(n)))
  {
    var f := NumberFilter(n);
    FilterConcat(orders, ready, f);
    var a, b := Filter(orders, f), Filter(ready, f);
    var g := a + b;
    assert forall k :: 0 <= k < |a| ==> a[k] in a && g[k] == a[k];
    forall i, j | 0 <= i < j < |g| && g[i].status == Ready ensures g[j].status == Ready {
      assert g[j] == b[j - |a|];
      assert b[j - |a|] in b;
    }
  }

  /** `comandasAgrupadas`: the map is filled by the loop, then mapped to
      cards and sorted. */
  method ComandaBoardOf(orders: seq<Order>, ready: seq<Order>) returns (board: seq<ComandaCard>)
    ensures board == Board(orders, ready)
  {
    var groups := GroupOrders(orders + ready);
    board := SortByNumber(Cards(groups));
  }

  /** `selectedComandaData`: the card for the selected number, if any. */
  function SelectedCard(board: seq<ComandaCard>, selected: Option<int>): (r: Option<ComandaCard>)
    ensures r.Some? ==> selected.Some? && r.value in board && r.value.comandaNumber == selected.value
    ensures r.None? <==> selected.None? || !HasCard(board, selected.value)
  {
    if selected.None? then None else Find(board, (c: ComandaCard) => c.comandaNumber == selected.value)
  }

  // ---------------------------------------------------------------- closing a comanda

  /** The ready orders `handleFinalizarComanda` removes: those with the number,
      whatever their type. */
  function FinalizeVictims(ready: seq<Order>, n: int): seq<Order> {
    Filter(ready, NumberFilter(n))
  }

  /** With distinct ready ids, closing a comanda removes exactly its ready
      orders, and every other ready order stays. */
  lemma {:induction false} FinalizeExact(ready: seq<Order>, n: int)
    requires UniqueIds(ready)
    ensures forall o :: o in RemoveAll(ready, FinalizeVictims(ready, n)) <==> o in ready && o.comandaNumber != n
  {
    RemoveAllSpec(ready, FinalizeVictims(ready, n));
    forall o | o in ready && o.comandaNumber != n
      ensures forall v | v in FinalizeVictims(ready, n) :: v.id != o.id
    {
      forall v | v in FinalizeVictims(ready, n) ensures v.id != o.id {
        var i :| 0 <= i < |ready| && ready[i] == v;
        var j :| 0 <= j < |ready| && ready[j] == o;
        assert i != j;
        if i < j { assert DifferentIds(ready[i], ready[j]); } else { assert DifferentIds(ready[j], ready[i]); }
      }
    }
  }

  /** The board page's own state: the comanda whose detail dialog is open. */
  class BoardPage {
    var selectedComanda: Option<int>

    constructor ()
      ensures selectedComanda.None?
    {
      selectedComanda := None;
    }

    method SelectComanda(n: int)
      modifies this
      ensures selectedComanda == Some(n)
    {
      selectedComanda := Some(n);
    }

    /** Closing the dialog: `setSelectedComanda(null)`. */
    method CloseDetail()
      modifies this
      ensures selectedComanda.None?
    {
      selectedComanda := None;
    }

    /** `handleFinalizarComanda`: `removeReadyOrder` for each of the
        comanda's ready orders, as they stood before the first removal, then
        the dialog closes. Preparing orders are not touched. */
    method FinalizeComanda(ledger: OrderLedger, n: int)
      requires ledger.Valid()
      modifies this, ledger
      ensures ledger.readyOrders == RemoveAll(old(ledger.readyOrders), FinalizeVictims(old(ledger.readyOrders), n))
      ensures ledger.orders == old(ledger.orders) && ledger.nextSerial == old(ledger.nextSerial)
      ensures ledger.Valid()
      ensures selectedComanda.None?
    {
      var victims := FinalizeVictims(ledger.readyOrders, n);
      ghost var start := ledger.readyOrders;
      for i := 0 to |victims|
        invariant ledger.Valid()
        invariant ledger.readyOrders == RemoveAll(start, victims[..i])
        invariant ledger.orders == old(ledger.orders) && ledger.nextSerial == old(ledger.nextSerial)
      {
        assert victims[..i + 1][..i] == victims[..i];
        ledger.RemoveReadyOrder(victims[i].id);
      }
      assert victims[..|victims|] == victims;
      selectedComanda := None;
    }
  }
}
