/** The sales log (`src/contexts/SalesContext.tsx`): an append-only list of
    sales and the queries the reports read from it. Times are milliseconds
    since the epoch, so `Date` comparisons are integer comparisons. */
module Sales {
  import opened Common
  import opened Types

  /** `addSale`: the draft with a fresh id and the current time. */
  function NewSale(d: SaleDraft, serial: nat, now: int): Sale {
    Sale(Fresh("sale", serial), d.items, d.total, d.kind, d.comandaNumber, d.paymentMethod, now)
  }

  predicate WithinPeriod(s: Sale, start: int, end: int) {
    start <= s.createdAt <= end
  }

  /** `getSalesByPeriod`: both ends inclusive, in log order. */
  function SalesByPeriod(sales: seq<Sale>, start: int, end: int): (r: seq<Sale>)
    ensures forall s | s in r :: s in sales && start <= s.createdAt <= end
    ensures forall s | s in sales && start <= s.createdAt <= end :: s in r
  {
    Filter(sales, (s: Sale) => WithinPeriod(s, start, end))
  }

  /** `getSalesByType`. */
  function SalesByType(sales: seq<Sale>, kind: SaleType): (r: seq<Sale>)
    ensures forall s | s in r :: s in sales && s.kind == kind
    ensures forall s | s in sales && s.kind == kind :: s in r
  {
    Filter(sales, (s: Sale) => s.kind == kind)
  }

  function SaleTotal(s: Sale): real {
    s.total
  }

  /** `getTotalSales`. */
  function TotalSales(sales: seq<Sale>): real {
    SumReal(sales, SaleTotal)
  }

  /** `getTodaySales`: from the start of today (inclusive) to the start of
      tomorrow (exclusive), both computed from the clock by the caller. */
  function TodaySales(sales: seq<Sale>, dayStart: int, nextDayStart: int): (r: seq<Sale>)
    ensures forall s | s in r :: s in sales && dayStart <= s.createdAt < nextDayStart
    ensures forall s | s in sales && dayStart <= s.createdAt < nextDayStart :: s in r
  {
    Filter(sales, (s: Sale) => dayStart <= s.createdAt < nextDayStart)
  }

  /** On millisecond timestamps the half-open day is the inclusive period
      ending one millisecond before the next day starts. */
  lemma {:induction false} TodayIsPeriod(sales: seq<Sale>, dayStart: int, nextDayStart: int)
    ensures TodaySales(sales, dayStart, nextDayStart) == SalesByPeriod(sales, dayStart, nextDayStart - 1)
  {
    FilterCongruent(sales, (s: Sale) => dayStart <= s.createdAt < nextDayStart,
                    (s: Sale) => WithinPeriod(s, dayStart, nextDayStart - 1));
  }

  /** The "pdv" and "comanda" queries split the log: every sale is in exactly
      one of them, so their sizes and their totals add up to the whole log's. */
  lemma {:induction false} TypesPartition(sales: seq<Sale>)
    ensures |SalesByType(sales, PdvSale)| + |SalesByType(sales, ComandaSale)| == |sales|
    ensures TotalSales(SalesByType(sales, PdvSale)) + TotalSales(SalesByType(sales, ComandaSale)) == TotalSales(sales)
  {
    if sales != [] {
      var h, tail := sales[0], sales[1..];
      TypesPartition(tail);
      var p := if h.kind == PdvSale then [h] else [];
      var c := if h.kind == ComandaSale then [h] else [];
      assert SalesByType(sales, PdvSale) == p + SalesByType(tail, PdvSale);
      assert SalesByType(sales, ComandaSale) == c + SalesByType(tail, ComandaSale);
      SumRealConcat(p, SalesByType(tail, PdvSale), SaleTotal);
      SumRealConcat(c, SalesByType(tail, ComandaSale), SaleTotal);
      assert TotalSales(sales) == h.total + TotalSales(tail);
    }
  }

  /** Appending a sale adds its total to the grand total. */
  lemma {:induction false} AppendTotal(sales: seq<Sale>, s: Sale)
    ensures TotalSales(sales + [s]) == TotalSales(sales) + s.total
  {
    SumRealConcat(sales, [s], SaleTotal);
  }

  /** A row of `getProductSalesCount`. */
  datatype ProductCount = ProductCount(productId: Id, productName: string, count: int)

  function ItemQuantity(it: SaleItem): int {
    it.quantity
  }

  function RowCount(r: ProductCount): int {
    r.count
  }

  /** Every item of every sale, in log order. */
  function AllItems(sales: seq<Sale>): seq<SaleItem> {
    if sales == [] then [] else AllItems(sales[..|sales| - 1]) + sales[|sales| - 1].items
  }

  function CountIs(id: Id): ProductCount -> bool {
    (x: ProductCount) => x.productId == id
  }

  /** Position of the row for `id`, `|rows|` without one. */
  function RowIndex(rows: seq<ProductCount>, id: Id): (k: nat)
    ensures k <= |rows|
    ensures forall j :: 0 <= j < k ==> rows[j].productId != id
    ensures k < |rows| ==> rows[k].productId == id
  {
    FirstWhere(rows, CountIs(id))
  }

  function ItemIs(id: Id): SaleItem -> bool {
    (x: SaleItem) => x.productId == id
  }

  /** Position of the first item for `id`, `|items|` without one. */
  function ItemIndex(items: seq<SaleItem>, id: Id): (k: nat)
    ensures k <= |items|
    ensures forall j :: 0 <= j < k ==> items[j].productId != id
    ensures k < |items| ==> items[k].productId == id
  {
    FirstWhere(items, ItemIs(id))
  }

  lemma {:induction false} ItemIndexUnique(items: seq<SaleItem>, id: Id, k: nat)
    requires k <= |items|
    requires forall j :: 0 <= j < k ==> items[j].productId != id
    requires k < |items| ==> items[k].productId == id
    ensures ItemIndex(items, id) == k
  {
    FirstWhereIs(items, ItemIs(id), k);
  }

  /** Some item is for `id`. */
  predicate Mentions(items: seq<SaleItem>, id: Id) {
    ItemIndex(items, id) < |items|
  }

  /** The reference meaning of a count: Σ quantity over that product's items. */
  function QuantityOf(items: seq<SaleItem>, id: Id): int {
    SumInt(Filter(items, (it: SaleItem) => it.productId == id), ItemQuantity)
  }

  predicate DistinctIds(rows: seq<ProductCount>) {
    forall i, j :: 0 <= i < j < |rows| ==> rows[i].productId != rows[j].productId
  }

  /** `counts[id].count += quantity` on row `k`: nothing else changes. */
  function CountIncreased(rows: seq<ProductCount>, k: nat, q: int): (r: seq<ProductCount>)
    requires k < |rows|
    ensures |r| == |rows|
    ensures forall i :: 0 <= i < |rows| && i != k ==> r[i] == rows[i]
    ensures r[k].productId == rows[k].productId && r[k].productName == rows[k].productName
    ensures r[k].count == rows[k].count + q
  {
    rows[k := rows[k].(count := rows[k].count + q)]
  }

  /** One step of the tally: create the row on first sight, then add the quantity. */
  function Bump(rows: seq<ProductCount>, it: SaleItem): seq<ProductCount> {
    var k := RowIndex(rows, it.productId);
    if k < |rows| then CountIncreased(rows, k, it.quantity)
    else rows + [ProductCount(it.productId, it.productName, it.quantity)]
  }

  /** A row created at zero and then increased is the row created with the quantity. */
  lemma {:induction false} FreshRowIncreased(rows: seq<ProductCount>, it: SaleItem)
    ensures CountIncreased(rows + [ProductCount(it.productId, it.productName, 0)], |rows|, it.quantity) ==
            rows + [ProductCount(it.productId, it.productName, it.quantity)]
  {
    var r := CountIncreased(rows + [ProductCount(it.productId, it.productName, 0)], |rows|, it.quantity);
    assert r[|rows|] == ProductCount(it.productId, it.productName, it.quantity);
  }

  /** The `counts` record after visiting `items`, in key insertion order. */
  function Tally(items: seq<SaleItem>): seq<ProductCount> {
    if items == [] then [] else Bump(Tally(items[..|items| - 1]), items[|items| - 1])
  }

  lemma {:induction false} TallySnoc(items: seq<SaleItem>, it: SaleItem)
    ensures Tally(items + [it]) == Bump(Tally(items), it)
  {
    assert (items + [it])[..|items|] == items;
  }

  /** How one more item changes which products are mentioned and where each first appears. */
  lemma {:induction false} MentionsSnoc(init: seq<SaleItem>, it: SaleItem, id: Id)
    ensures Mentions(init + [it], id) <==> Mentions(init, id) || it.productId == id
    ensures Mentions(init, id) ==> ItemIndex(init + [it], id) == ItemIndex(init, id)
    ensures !Mentions(init, id) && it.productId == id ==> ItemIndex(init + [it], id) == |init|
  {
    var s := init + [it];
    assert forall j :: 0 <= j < |init| ==> s[j] == init[j];
    var k := ItemIndex(init, id);
    if k < |init| {
      ItemIndexUnique(s, id, k);
    } else if it.productId == id {
      ItemIndexUnique(s, id, |init|);
    } else {
      ItemIndexUnique(s, id, |s|);
    }
  }

  lemma {:induction false} QuantitySnoc(init: seq<SaleItem>, it: SaleItem, id: Id)
    ensures QuantityOf(init + [it], id) == QuantityOf(init, id) + (if it.productId == id then it.quantity else 0)
  {
    var f := (x: SaleItem) => x.productId == id;
    FilterConcat(init, [it], f);
    SumIntConcat(Filter(init, f), Filter([it], f), ItemQuantity);
    assert Filter([it], f) == if f(it) then [it] else [];
  }

  lemma {:induction false} UnmentionedQuantity(items: seq<SaleItem>, id: Id)
    requires !Mentions(items, id)
    ensures QuantityOf(items, id) == 0
  {
    var f := (x: SaleItem) => x.productId == id;
    if Filter(items, f) != [] {
      assert Filter(items, f)[0] in Filter(items, f);
    }
  }

  /** One bump keeps every row's id, and adds a row for the item's product only when it had none. */
  lemma {:induction false} BumpShape(rows: seq<ProductCount>, it: SaleItem)
    ensures var r, k := Bump(rows, it), RowIndex(rows, it.productId);
            |r| == (if k < |rows| then |rows| else |rows| + 1) &&
            (forall i :: 0 <= i < |rows| ==>
               r[i].productId == rows[i].productId && r[i].productName == rows[i].productName &&
               r[i].count == rows[i].count + (if i == k then it.quantity else 0)) &&
            (k == |rows| ==> r[k] == ProductCount(it.productId, it.productName, it.quantity))
  {
  }

  /** A bump keeps the ids distinct, and every id that had a row, and the item's, has one after. */
  lemma {:induction false} BumpIds(rows: seq<ProductCount>, it: SaleItem)
    requires DistinctIds(rows)
    ensures DistinctIds(Bump(rows, it))
    ensures forall i :: 0 <= i < |Bump(rows, it)| ==>
              Bump(rows, it)[i].productId == it.productId || (i < |rows| && Bump(rows, it)[i].productId == rows[i].productId)
    ensures forall id :: RowIndex(rows, id) < |rows| || id == it.productId ==> RowIndex(Bump(rows, it), id) < |Bump(rows, it)|
  {
    BumpShape(rows, it);
    var r, k := Bump(rows, it), RowIndex(rows, it.productId);
    forall id | RowIndex(rows, id) < |rows| || id == it.productId ensures RowIndex(r, id) < |r| {
      if RowIndex(rows, id) < |rows| {
        assert r[RowIndex(rows, id)].productId == id;
      } else {
        assert r[k].productId == id;
      }
    }
  }

  /** The tally has distinct ids, and a row exactly for each product mentioned. */
  lemma {:induction false} TallyIds(items: seq<SaleItem>)
    ensures DistinctIds(Tally(items))
    ensures forall i :: 0 <= i < |Tally(items)| ==> Mentions(items, Tally(items)[i].productId)
    ensures forall id :: Mentions(items, id) ==> RowIndex(Tally(items), id) < |Tally(items)|
    decreases |items|
  {
    if items != [] {
      var n := |items| - 1;
      var init, it := items[..n], items[n];
      assert items == init + [it];
      TallyIds(init);
      TallySnoc(init, it);
      BumpIds(Tally(init), it);
      forall id ensures Mentions(items, id) <==> Mentions(init, id) || it.productId == id {
        MentionsSnoc(init, it, id);
      }
    }
  }

  /** A row agrees with `items`: its product is mentioned, its count is the
      product's summed quantity and its name that of the product's first item. */
  predicate RowAgrees(items: seq<SaleItem>, r: ProductCount) {
    Mentions(items, r.productId) && r.count == QuantityOf(items, r.productId) &&
    r.productName == items[ItemIndex(items, r.productId)].productName
  }

  /** One bump keeps every row in agreement with the items seen, one more item included. */
  lemma {:induction false} BumpAgrees(init: seq<SaleItem>, rows: seq<ProductCount>, it: SaleItem, i: nat)
    requires forall j :: 0 <= j < |rows| ==> RowAgrees(init, rows[j])
    requires forall id :: Mentions(init, id) ==> RowIndex(rows, id) < |rows|
    requires DistinctIds(rows)
    requires i < |Bump(rows, it)|
    ensures RowAgrees(init + [it], Bump(rows, it)[i])
  {
    BumpShape(rows, it);
    var items, after := init + [it], Bump(rows, it);
    var p := after[i].productId;
    QuantitySnoc(init, it, p);
    MentionsSnoc(init, it, p);
    if i < |rows| {
      assert RowAgrees(init, rows[i]);
      assert items[ItemIndex(init, p)] == init[ItemIndex(init, p)];
    } else {
      assert !Mentions(init, p);
      UnmentionedQuantity(init, p);
    }
  }

  /** Each row holds its product's summed quantity and the name of its first item. */
  lemma {:induction false} TallyRows(items: seq<SaleItem>)
    ensures forall i :: 0 <= i < |Tally(items)| ==>
              Tally(items)[i].count == QuantityOf(items, Tally(items)[i].productId) &&
              Mentions(items, Tally(items)[i].productId) &&
              Tally(items)[i].productName == items[ItemIndex(items, Tally(items)[i].productId)].productName
    decreases |items|
  {
    if items != [] {
      var n := |items| - 1;
      var init, it := items[..n], items[n];
      assert items == init + [it];
      TallyRows(init);
      TallyIds(init);
      TallySnoc(init, it);
      var before := Tally(init);
      forall j | 0 <= j < |before| ensures RowAgrees(init, before[j]) {
      }
      forall i | 0 <= i < |Tally(items)| ensures RowAgrees(items, Tally(items)[i]) {
        BumpAgrees(init, before, it, i);
      }
    }
  }

  /** The counts add up to the total quantity sold. */
  lemma {:induction false} TallySum(items: seq<SaleItem>)
    ensures SumInt(Tally(items), RowCount) == SumInt(items, ItemQuantity)
    decreases |items|
  {
    if items != [] {
      var n := |items| - 1;
      var init, it := items[..n], items[n];
      assert items == init + [it];
      TallySum(init);
      SumIntConcat(init, [it], ItemQuantity);
      var before := Tally(init);
      TallySnoc(init, it);
      var k := RowIndex(before, it.productId);
      if k < |before| {
        SumIntUpdate(before, k, before[k].(count := before[k].count + it.quantity), RowCount);
      } else {
        SumIntConcat(before, [ProductCount(it.productId, it.productName, it.quantity)], RowCount);
      }
    }
  }

  predicate NonIncreasing(rows: seq<ProductCount>) {
    forall i, j :: 0 <= i < j < |rows| ==> rows[i].count >= rows[j].count
  }

  /** How many leading rows count at least `c`. */
  function Leading(rows: seq<ProductCount>, c: int): (m: nat)
    ensures m <= |rows|
    ensures forall i :: 0 <= i < m ==> rows[i].count >= c
    ensures m < |rows| ==> rows[m].count < c
  {
    if rows == [] || rows[0].count < c then 0 else 1 + Leading(rows[1..], c)
  }

  /** Places `x` after every leading row counting at least as much: earlier
      rows with an equal count stay in front, as in a stable sort. */
  function InsertByCount(x: ProductCount, rows: seq<ProductCount>): seq<ProductCount> {
    var m := Leading(rows, x.count);
    rows[..m] + [x] + rows[m..]
  }

  /** `.sort((a, b) => b.count - a.count)`, stable as the language requires. */
  function SortByCount(rows: seq<ProductCount>): seq<ProductCount> {
    if rows == [] then [] else InsertByCount(rows[|rows| - 1], SortByCount(rows[..|rows| - 1]))
  }

  lemma {:induction false} InsertSorted(x: ProductCount, rows: seq<ProductCount>)
    requires NonIncreasing(rows)
    ensures NonIncreasing(InsertByCount(x, rows))
  {
    var m := Leading(rows, x.count);
    var r := InsertByCount(x, rows);
    assert forall i :: 0 <= i < m ==> r[i] == rows[i];
    assert r[m] == x;
    assert forall i :: m < i < |r| ==> r[i] == rows[i - 1];
    forall i, j | 0 <= i < j < |r| ensures r[i].count >= r[j].count {
      if j == m {
        assert rows[i].count >= x.count;
      } else if i == m {
        assert rows[m].count >= rows[j - 1].count;
      } else if j < m {
        assert rows[i].count >= rows[j].count;
      } else if i < m {
        assert rows[i].count >= rows[j - 1].count;
      } else {
        assert rows[i - 1].count >= rows[j - 1].count;
      }
    }
  }

  lemma {:induction false} InsertKeeps(x: ProductCount, rows: seq<ProductCount>)
    ensures multiset(InsertByCount(x, rows)) == multiset(rows) + multiset{x}
    ensures SumInt(InsertByCount(x, rows), RowCount) == SumInt(rows, RowCount) + x.count
  {
    var m := Leading(rows, x.count);
    assert rows == rows[..m] + rows[m..];
    SumIntConcat(rows[..m] + [x], rows[m..], RowCount);
    SumIntConcat(rows[..m], [x], RowCount);
    SumIntConcat(rows[..m], rows[m..], RowCount);
  }

  lemma {:induction false} InsertDistinct(x: ProductCount, rows: seq<ProductCount>)
    requires DistinctIds(rows)
    requires forall r | r in rows :: r.productId != x.productId
    ensures DistinctIds(InsertByCount(x, rows))
  {
    var m := Leading(rows, x.count);
    var r := InsertByCount(x, rows);
    assert forall i :: 0 <= i < m ==> r[i] == rows[i];
    assert r[m] == x;
    assert forall i :: m < i < |r| ==> r[i] == rows[i - 1];
    forall i, j | 0 <= i < j < |r| ensures r[i].productId != r[j].productId {
      if i == m {
        assert rows[j - 1] in rows;
      } else if j == m {
        assert rows[i] in rows;
      }
    }
  }

  /** Distinct ids with `x` last: the rows before it have distinct ids, and
      none of them, in any order, has `x`'s id. */
  lemma {:induction false} DistinctSnoc(init: seq<ProductCount>, x: ProductCount, s: seq<ProductCount>)
    requires DistinctIds(init + [x]) && multiset(s) == multiset(init)
    ensures DistinctIds(init)
    ensures forall y | y in s :: y.productId != x.productId
  {
    var rows := init + [x];
    forall i, j | 0 <= i < j < |init| ensures init[i].productId != init[j].productId {
      assert init[i] == rows[i] && init[j] == rows[j];
    }
    forall y | y in s ensures y.productId != x.productId {
      assert y in multiset(s);
      var j :| 0 <= j < |init| && init[j] == y;
      assert rows[j] == y && rows[|init|] == x;
    }
  }

  /** The sort orders by non-increasing count and is a permutation, so it
      keeps the sum of counts and distinct ids. */
  lemma {:induction false} SortSpec(rows: seq<ProductCount>)
    ensures NonIncreasing(SortByCount(rows))
    ensures multiset(SortByCount(rows)) == multiset(rows)
    ensures SumInt(SortByCount(rows), RowCount) == SumInt(rows, RowCount)
    ensures DistinctIds(rows) ==> DistinctIds(SortByCount(rows))
    decreases |rows|
  {
    if rows != [] {
      var n := |rows| - 1;
      var init, x := rows[..n], rows[n];
      assert rows == init + [x];
      SortSpec(init);
      var s := SortByCount(init);
      InsertSorted(x, s);
      InsertKeeps(x, s);
      SumIntConcat(init, [x], RowCount);
      if DistinctIds(rows) {
        DistinctSnoc(init, x, s);
        InsertDistinct(x, s);
      }
    }
  }

  /** `getProductSalesCount` as a value. */
  function ProductSalesCounts(sales: seq<Sale>): seq<ProductCount> {
    SortByCount(Tally(AllItems(sales)))
  }

  /** The rows of `getProductSalesCount`: one per product sold, with distinct
      ids, the product's summed quantity and first-seen name, heaviest first,
      and counts adding up to the whole log's item quantity. */
  lemma {:induction false} ProductSalesCountsSpec(sales: seq<Sale>)
    ensures DistinctIds(ProductSalesCounts(sales))
    ensures NonIncreasing(ProductSalesCounts(sales))
    ensures forall r | r in ProductSalesCounts(sales) ::
              Mentions(AllItems(sales), r.productId) &&
              r.count == QuantityOf(AllItems(sales), r.productId) &&
              r.productName == AllItems(sales)[ItemIndex(AllItems(sales), r.productId)].productName
    ensures forall id :: Mentions(AllItems(sales), id) ==> exists r :: r in ProductSalesCounts(sales) && r.productId == id
    ensures SumInt(ProductSalesCounts(sales), RowCount) == SumInt(AllItems(sales), ItemQuantity)
  {
    var items := AllItems(sales);
    var t := Tally(items);
    TallyIds(items);
    TallyRows(items);
    TallySum(items);
    SortSpec(t);
    var r := ProductSalesCounts(sales);
    forall x | x in r ensures x in t {
      assert x in multiset(r);
    }
    forall id | Mentions(items, id) ensures exists x :: x in r && x.productId == id {
      var k := RowIndex(t, id);
      assert t[k] in multiset(t);
      assert t[k] in r;
    }
  }

  lemma {:induction false} TallyStep(done: seq<SaleItem>, items: seq<SaleItem>, j: nat)
    requires j < |items|
    ensures Tally(done + items[..j + 1]) == Bump(Tally(done + items[..j]), items[j])
  {
    TallySnoc(done + items[..j], items[j]);
    assert done + items[..j + 1] == (done + items[..j]) + [items[j]];
  }

  /** One sale's `forEach`: each item's count is created at zero when missing, then increased. */
  method TallySale(counts0: seq<ProductCount>, ghost done: seq<SaleItem>, items: seq<SaleItem>) returns (counts: seq<ProductCount>)
    requires counts0 == Tally(done)
    ensures counts == Tally(done + items)
  {
    counts := counts0;
    assert done + items[..0] == done;
    for j := 0 to |items|
      invariant counts == Tally(done + items[..j])
    {
      var it := items[j];
      ghost var before := counts;
      TallyStep(done, items, j);
      var k := RowIndex(counts, it.productId);
      if k == |counts| {
        counts := counts + [ProductCount(it.productId, it.productName, 0)];
        FreshRowIncreased(before, it);
      }
      counts := CountIncreased(counts, k, it.quantity);
    }
    assert items[..|items|] == items;
  }

  /** The log with its fresh-id counter. */
  class SalesLog {
    var sales: seq<Sale>
    var nextSerial: nat

    /** Every id this log handed out has a serial below the counter. */
    predicate Valid()
      reads this
    {
      forall s | s in sales && s.id.Fresh? && s.id.prefix == "sale" :: s.id.serial < nextSerial
    }

    /** The mock sales of the provider's initialiser come in as a parameter. */
    constructor (mock: seq<Sale>)
      requires forall s | s in mock :: !s.id.Fresh?
      ensures sales == mock && nextSerial == 0 && Valid()
    {
      sales := mock;
      nextSerial := 0;
    }

    /** `addSale` appends exactly one sale, whose id no earlier sale carries. */
    method AddSale(d: SaleDraft, now: int)
      requires Valid()
      modifies this
      ensures sales == old(sales) + [NewSale(d, old(nextSerial), now)]
      ensures nextSerial == old(nextSerial) + 1
      ensures forall s | s in old(sales) :: s.id != NewSale(d, old(nextSerial), now).id
      ensures Valid()
    {
      sales := sales + [NewSale(d, nextSerial, now)];
      nextSerial := nextSerial + 1;
    }

    /** The loop of `getProductSalesCount`, followed by the sort. */
    method ProductSalesCount() returns (rows: seq<ProductCount>)
      ensures rows == ProductSalesCounts(sales)
    {
      var counts: seq<ProductCount> := [];
      var i := 0;
      while i < |sales|
        invariant 0 <= i <= |sales|
        invariant counts == Tally(AllItems(sales[..i]))
      {
        counts := TallySale(counts, AllItems(sales[..i]), sales[i].items);
        assert sales[..i + 1][..i] == sales[..i];
        i := i + 1;
      }
      assert sales[..i] == sales;
      rows := SortByCount(counts);
    }
  }
}
