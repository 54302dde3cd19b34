/** The stock ledger (`src/contexts/StockContext.tsx`): one entry per stocked
    product, holding whole units for whole products and total grams or
    millilitres for fractional ones. */
module Stock {
  import opened Common
  import opened Types

  /** Position of the first entry for `id`, as `Array.prototype.find` scans; `|items|` when there is none. */
  function FirstIndex(items: seq<StockItem>, id: Id): (k: nat)
    ensures k <= |items|
    ensures forall j :: 0 <= j < k ==> items[j].productId != id
    ensures k < |items| ==> items[k].productId == id
  {
    if items == [] then 0
    else if items[0].productId == id then 0
    else 1 + FirstIndex(items[1..], id)
  }

  /** Whatever index has the two properties of `FirstIndex` is `FirstIndex`. */
  lemma {:induction false} FirstIndexUnique(items: seq<StockItem>, id: Id, k: nat)
    requires k <= |items|
    requires forall j :: 0 <= j < k ==> items[j].productId != id
    requires k < |items| ==> items[k].productId == id
    ensures FirstIndex(items, id) == k
  {
  }

  predicate HasEntry(items: seq<StockItem>, id: Id) {
    exists k :: 0 <= k < |items| && items[k].productId == id
  }

  /** `getStockForProduct` and `getTotalVolume`: the quantity of the first entry for the id, 0 without one. */
  function Available(items: seq<StockItem>, id: Id): (q: real)
    ensures !HasEntry(items, id) ==> q == 0.0
    ensures forall k :: (0 <= k < |items| && items[k].productId == id &&
                         (forall j :: 0 <= j < k ==> items[j].productId != id)) ==> q == items[k].quantity
  {
    var k := FirstIndex(items, id);
    if k < |items| then items[k].quantity else 0.0
  }

  /** Every stored quantity is at least zero. */
  predicate NonNegative(items: seq<StockItem>) {
    forall k :: 0 <= k < |items| ==> items[k].quantity >= 0.0
  }

  lemma {:induction false} AvailableNonNegative(items: seq<StockItem>, id: Id)
    requires NonNegative(items)
    ensures Available(items, id) >= 0.0
  {
  }

  function Max0(x: real): real {
    if x > 0.0 then x else 0.0
  }

  /** `prev.map(item => item.productId === id ? f(item) : item)`. */
  function Touched(items: seq<StockItem>, id: Id, f: StockItem -> StockItem): (r: seq<StockItem>) {
    seq(|items|, k requires 0 <= k < |items| => if items[k].productId == id then f(items[k]) else items[k])
  }

  /** `updateStock`: overwrite the quantity of the entries for `id`. */
  function Overwritten(items: seq<StockItem>, id: Id, quantity: real): seq<StockItem> {
    Touched(items, id, (e: StockItem) => e.(quantity := quantity))
  }

  /** `decreaseStock`: lower the entries for `id` by `amount`, clamped at zero. */
  function Decreased(items: seq<StockItem>, id: Id, amount: real): seq<StockItem> {
    Touched(items, id, (e: StockItem) => e.(quantity := Max0(e.quantity - amount)))
  }

  /** `setMinQuantity`: overwrite the threshold of the entries for `id`. */
  function WithMinQuantity(items: seq<StockItem>, id: Id, minQty: real): seq<StockItem> {
    Touched(items, id, (e: StockItem) => e.(minQuantity := minQty))
  }

  /** `checkFractionalStockAvailable`. */
  function CheckFractionalAvailable(items: seq<StockItem>, id: Id, volumeNeeded: real): bool {
    Available(items, id) >= volumeNeeded
  }

  /** `decreaseFractionalStock`. Its guard reads `seen`, the `stock` of the
      render whose callback is running; its updater lowers `items`, the ledger
      as it stands, clamped at zero as `decreaseStock` does. A refusal changes
      nothing. The first call of an event has `seen == items`; later calls of
      the same event still read the earlier render. */
  function FractionalDecrease(seen: seq<StockItem>, items: seq<StockItem>, id: Id, volumeAmount: real): (r: (bool, seq<StockItem>))
    ensures !r.0 <==> Available(seen, id) < volumeAmount
    ensures !r.0 ==> r.1 == items
  {
    if Available(seen, id) < volumeAmount then (false, items) else (true, Decreased(items, id, volumeAmount))
  }

  predicate IsLow(e: StockItem) {
    e.quantity <= e.minQuantity
  }

  /** `getLowStockItems`. */
  function LowStockItems(items: seq<StockItem>): (r: seq<StockItem>)
    ensures forall e | e in r :: e in items && e.quantity <= e.minQuantity
    ensures forall e | e in items && e.quantity <= e.minQuantity :: e in r
    ensures |r| == Count(items, IsLow)
  {
    FilterLength(items, IsLow);
    Filter(items, IsLow)
  }

  /** Same ids at the same positions. */
  predicate SameIds(a: seq<StockItem>, b: seq<StockItem>) {
    |a| == |b| && forall k :: 0 <= k < |a| ==> a[k].productId == b[k].productId
  }

  lemma {:induction false} SameIdsFirstIndex(a: seq<StockItem>, b: seq<StockItem>, id: Id)
    requires SameIds(a, b)
    ensures FirstIndex(a, id) == FirstIndex(b, id)
    ensures HasEntry(a, id) == HasEntry(b, id)
  {
    FirstIndexUnique(b, id, FirstIndex(a, id));
  }

  /** Touching the entries of `id` with an id-preserving update changes the
      lookup of `id` to the updated first entry and no other lookup. */
  lemma {:induction false} TouchedLookup(items: seq<StockItem>, id: Id, f: StockItem -> StockItem, p: Id)
    requires forall e :: f(e).productId == e.productId
    ensures SameIds(Touched(items, id, f), items)
    ensures Available(Touched(items, id, f), p) ==
            if p == id && HasEntry(items, id) then f(items[FirstIndex(items, id)]).quantity else Available(items, p)
  {
    var r := Touched(items, id, f);
    SameIdsFirstIndex(r, items, p);
  }

  /** `decreaseStock` sets the looked-up quantity of `id` to max(0, quantity - amount) and leaves every other lookup alone. */
  lemma {:induction false} DecreaseLookup(items: seq<StockItem>, id: Id, amount: real, p: Id)
    ensures Available(Decreased(items, id, amount), p) ==
            if p == id && HasEntry(items, id) then Max0(Available(items, id) - amount) else Available(items, p)
  {
    TouchedLookup(items, id, (e: StockItem) => e.(quantity := Max0(e.quantity - amount)), p);
  }

  /** `decreaseStock` changes quantities only, only of entries for `id`, to the clamped difference. */
  lemma {:induction false} DecreaseEntries(items: seq<StockItem>, id: Id, amount: real)
    ensures SameIds(Decreased(items, id, amount), items)
    ensures forall k :: 0 <= k < |items| && items[k].productId != id ==> Decreased(items, id, amount)[k] == items[k]
    ensures forall k :: 0 <= k < |items| && items[k].productId == id ==>
              Decreased(items, id, amount)[k] == items[k].(quantity := Max0(items[k].quantity - amount))
  {
  }

  /** A non-negative ledger stays non-negative under `decreaseStock`, whatever the amount. */
  lemma {:induction false} DecreasePreservesNonNegative(items: seq<StockItem>, id: Id, amount: real)
    requires NonNegative(items)
    ensures NonNegative(Decreased(items, id, amount))
  {
  }

  /** Decreasing an id without an entry changes nothing. */
  lemma {:induction false} DecreaseUnknown(items: seq<StockItem>, id: Id, amount: real)
    requires !HasEntry(items, id)
    ensures Decreased(items, id, amount) == items
  {
  }

  /** The availability check predicts exactly whether the fractional decrement succeeds. */
  lemma {:induction false} CheckPredictsFractionalDecrease(seen: seq<StockItem>, items: seq<StockItem>, id: Id, volume: real)
    ensures FractionalDecrease(seen, items, id, volume).0 == CheckFractionalAvailable(seen, id, volume)
  {
  }

  /** A successful fractional decrement lowers the looked-up quantity of the
      product to max(0, quantity - volume) and leaves every other lookup
      alone; when the ledger itself covers the volume, by exactly the volume. */
  lemma {:induction false} FractionalDecreaseExact(seen: seq<StockItem>, items: seq<StockItem>, id: Id, volume: real, p: Id)
    requires HasEntry(items, id) && FractionalDecrease(seen, items, id, volume).0
    ensures Available(FractionalDecrease(seen, items, id, volume).1, p) ==
            if p == id then Max0(Available(items, id) - volume) else Available(items, p)
    ensures Available(items, id) >= volume ==>
              Available(FractionalDecrease(seen, items, id, volume).1, id) == Available(items, id) - volume
  {
    DecreaseLookup(items, id, volume, p);
    DecreaseLookup(items, id, volume, id);
  }

  /** When the snapshot still covers the volume but the ledger no longer
      does, the call reports success and the product's stock drops to zero:
      the shortfall vanishes without a refusal. */
  lemma {:induction false} FractionalDecreaseOverdraws(seen: seq<StockItem>, items: seq<StockItem>, id: Id, volume: real)
    requires HasEntry(items, id)
    requires Available(seen, id) >= volume > Available(items, id)
    ensures FractionalDecrease(seen, items, id, volume).0
    ensures Available(FractionalDecrease(seen, items, id, volume).1, id) == 0.0
  {
    DecreaseLookup(items, id, volume, id);
  }

  lemma {:induction false} FractionalDecreasePreservesNonNegative(seen: seq<StockItem>, items: seq<StockItem>, id: Id, volume: real)
    requires NonNegative(items)
    ensures NonNegative(FractionalDecrease(seen, items, id, volume).1)
  {
    DecreasePreservesNonNegative(items, id, volume);
  }

  /** `updateStock` overwrites the looked-up quantity of a known id; an unknown id changes nothing. */
  lemma {:induction false} OverwriteLookup(items: seq<StockItem>, id: Id, quantity: real, p: Id)
    ensures Available(Overwritten(items, id, quantity), p) ==
            if p == id && HasEntry(items, id) then quantity else Available(items, p)
    ensures !HasEntry(items, id) ==> Overwritten(items, id, quantity) == items
    ensures forall k :: 0 <= k < |items| ==>
              Overwritten(items, id, quantity)[k].minQuantity == items[k].minQuantity
  {
    TouchedLookup(items, id, (e: StockItem) => e.(quantity := quantity), p);
  }

  /** `updateStock` is the one mutator that can break non-negativity: it keeps it exactly for a non-negative quantity. */
  lemma {:induction false} OverwritePreservesNonNegative(items: seq<StockItem>, id: Id, quantity: real)
    requires NonNegative(items) && quantity >= 0.0
    ensures NonNegative(Overwritten(items, id, quantity))
  {
  }

  /** `setMinQuantity` never changes a lookup. */
  lemma {:induction false} MinQuantityKeepsLookups(items: seq<StockItem>, id: Id, minQty: real, p: Id)
    ensures Available(WithMinQuantity(items, id, minQty), p) == Available(items, p)
    ensures NonNegative(items) ==> NonNegative(WithMinQuantity(items, id, minQty))
  {
    TouchedLookup(items, id, (e: StockItem) => e.(minQuantity := minQty), p);
  }

  /** The initial entry of one catalog product (`StockContext.tsx:21-37`); `roll`
      stands for `Math.floor(Math.random() * 80)`. */
  function InitialEntry(p: Product, roll: nat): (e: StockItem)
    requires roll < 80
    ensures e.productId == p.id
    ensures p.productType == Some(Fractional) && Truthy(p.unitVolume) && p.stockUnits.Some? ==>
              e.quantity == p.stockUnits.value * p.unitVolume.value && e.minQuantity == p.unitVolume.value * 0.5
    ensures !(p.productType == Some(Fractional) && Truthy(p.unitVolume) && p.stockUnits.Some?) ==>
              20.0 <= e.quantity < 100.0 && e.minQuantity == 10.0
  {
    if p.productType == Some(Fractional) && Truthy(p.unitVolume) && p.stockUnits.Some? then
      StockItem(p.id, p.stockUnits.value * p.unitVolume.value, p.unitVolume.value * 0.5)
    else
      StockItem(p.id, (roll + 20) as real, 10.0)
  }

  predicate ValidRolls(products: seq<Product>, rolls: seq<nat>) {
    |rolls| == |products| && forall k :: 0 <= k < |rolls| ==> rolls[k] < 80
  }

  function InitialLedger(products: seq<Product>, rolls: seq<nat>): (r: seq<StockItem>)
    requires ValidRolls(products, rolls)
    ensures |r| == |products|
    ensures forall k :: 0 <= k < |r| ==> r[k] == InitialEntry(products[k], rolls[k])
  {
    seq(|products|, k requires 0 <= k < |products| => InitialEntry(products[k], rolls[k]))
  }

  /** The initial ledger is non-negative when no fractional product declares negative stock. */
  lemma {:induction false} InitialLedgerNonNegative(products: seq<Product>, rolls: seq<nat>)
    requires ValidRolls(products, rolls)
    requires forall p | p in products && p.unitVolume.Some? && p.stockUnits.Some? ::
               p.unitVolume.value >= 0.0 && p.stockUnits.value >= 0.0
    ensures NonNegative(InitialLedger(products, rolls))
  {
    var r := InitialLedger(products, rolls);
    forall k | 0 <= k < |r| ensures r[k].quantity >= 0.0 {
      var p := products[k];
      if p.productType == Some(Fractional) && Truthy(p.unitVolume) && p.stockUnits.Some? {
        assert p in products;
        assert p.unitVolume.value >= 0.0 && p.stockUnits.value >= 0.0;
      }
    }
  }

  /** The provider's `stock` state and its mutators. */
  class StockLedger {
    var items: seq<StockItem>

    constructor (products: seq<Product>, rolls: seq<nat>)
      requires ValidRolls(products, rolls)
      ensures items == InitialLedger(products, rolls)
    {
      items := InitialLedger(products, rolls);
    }

    method UpdateStock(productId: Id, quantity: real)
      modifies this
      ensures items == Overwritten(old(items), productId, quantity)
    {
      items := Overwritten(items, productId, quantity);
    }

    method DecreaseStock(productId: Id, amount: real)
      modifies this
      ensures items == Decreased(old(items), productId, amount)
    {
      items := Decreased(items, productId, amount);
    }

    /** `seen` is the `stock` the calling callback closed over. */
    method DecreaseFractionalStock(seen: seq<StockItem>, productId: Id, volumeAmount: real) returns (ok: bool)
      modifies this
      ensures (ok, items) == FractionalDecrease(seen, old(items), productId, volumeAmount)
      ensures !ok ==> items == old(items)
    {
      if Available(seen, productId) < volumeAmount {
        return false;
      }
      items := Decreased(items, productId, volumeAmount);
      return true;
    }

    method SetMinQuantity(productId: Id, minQty: real)
      modifies this
      ensures items == WithMinQuantity(old(items), productId, minQty)
    {
      items := WithMinQuantity(items, productId, minQty);
    }
  }
}
