/** The counter (PDV) screen's cart logic (`src/components/admin/AdminPDV.tsx`):
    the lines it builds, the portion stock gate, the cart edits and totals. */
module CounterCart {
  import opened Common
  import opened Types
  import opened Stock
  import opened Portions

  /** JavaScript truthiness of an optional id (`undefined` and "" are falsy). */
  predicate IdTruthy(id: Option<Id>) {
    id.Some? && id.value != NoId
  }

  /** A line the stock handlers treat as a portion: `item.isPortion && item.portionId`. */
  predicate IsPortionLine(line: PDVCartItem) {
    line.isPortion && IdTruthy(line.portionId)
  }

  /** The line `addToCart` appends for a whole product. */
  function ProductLine(p: Product): PDVCartItem {
    PDVCartItem(p.id, p.name, p.price, 1, false, None, p.needsPreparation.GetOr(false), false, None, "", [])
  }

  /** The line `addPortionToCart` appends: portions always need preparation. */
  function PortionLine(p: Portion): PDVCartItem {
    PDVCartItem(p.id, p.name, p.price, 1, true, Some(p.id), true, false, None, "", [])
  }

  /** The line `addCompositeToCart` appends, under the synthetic id
      `${composite.id}-${Date.now()}` with `now` the time of the click. */
  function CompositeLine(c: CompositeProduct, now: int, selected: seq<SelectedIngredient>,
                         observation: string, quantity: int): PDVCartItem
  {
    PDVCartItem(Stamped(c.id, now), c.name, c.price, quantity, false, None, c.needsPreparation, true,
                Some(c.id), observation, selected)
  }

  function Bumped(line: PDVCartItem): PDVCartItem {
    line.(quantity := line.quantity + 1)
  }

  // ---------------------------------------------------------------- stock gate

  /** `ingredient.consumeAmount * quantity`. */
  function Needed(ing: PortionIngredient, quantity: int): real {
    ing.consumeAmount * quantity as real
  }

  /** The ingredient's stock cannot cover `quantity` portions. */
  predicate Short(stock: seq<StockItem>, ing: PortionIngredient, quantity: int) {
    !CheckFractionalAvailable(stock, ing.productId, Needed(ing, quantity))
  }

  function ShortIn(stock: seq<StockItem>, quantity: int): PortionIngredient -> bool {
    (ing: PortionIngredient) => Short(stock, ing, quantity)
  }

  /** The names pushed by a loop that pushes every ingredient `short` picks;
      `short` is kept abstract so that the list reasoning does not see the stock. */
  function MissingBy(ings: seq<PortionIngredient>, short: PortionIngredient -> bool): (r: seq<string>)
    ensures |r| <= |ings|
    ensures r == [] <==> forall k :: 0 <= k < |ings| ==> !short(ings[k])
  {
    if ings == [] then []
    else
      var n := |ings| - 1;
      assert forall k :: 0 <= k < n ==> ings[..n][k] == ings[k];
      MissingBy(ings[..n], short) + (if short(ings[n]) then [ings[n].productName] else [])
  }

  /** The `missing` list the loop of `checkPortionStock` pushes. */
  function Missing(stock: seq<StockItem>, ings: seq<PortionIngredient>, quantity: int): (r: seq<string>)
    ensures |r| <= |ings|
    ensures r == [] <==> forall k :: 0 <= k < |ings| ==> !Short(stock, ings[k], quantity)
  {
    MissingBy(ings, ShortIn(stock, quantity))
  }

  /** One more ingredient of the loop. */
  lemma {:induction false} MissingSnoc(stock: seq<StockItem>, ings: seq<PortionIngredient>, i: nat, quantity: int)
    requires i < |ings|
    ensures Missing(stock, ings[..i + 1], quantity) ==
            Missing(stock, ings[..i], quantity) + (if Short(stock, ings[i], quantity) then [ings[i].productName] else [])
  {
    var f := ShortIn(stock, quantity);
    assert ings[..i + 1][..i] == ings[..i];
    assert MissingBy(ings[..i + 1], f) == MissingBy(ings[..i], f) + (if f(ings[i]) then [ings[i].productName] else []);
  }

  function Names(ings: seq<PortionIngredient>): seq<string> {
    if ings == [] then [] else [ings[0].productName] + Names(ings[1..])
  }

  lemma {:induction false} NamesConcat(a: seq<PortionIngredient>, b: seq<PortionIngredient>)
    ensures Names(a + b) == Names(a) + Names(b)
  {
    if a != [] {
      assert (a + b)[1..] == a[1..] + b;
      NamesConcat(a[1..], b);
    } else {
      assert a + b == b;
    }
  }

  lemma {:induction false} MissingByNames(ings: seq<PortionIngredient>, f: PortionIngredient -> bool)
    ensures MissingBy(ings, f) == Names(Filter(ings, f))
  {
    if ings != [] {
      var n := |ings| - 1;
      var init, x := ings[..n], ings[n];
      assert ings == init + [x];
      MissingByNames(init, f);
      FilterConcat(init, [x], f);
      var last := Filter([x], f);
      assert last == if f(x) then [x] else [];
      assert Names(last) == if f(x) then [x.productName] else [];
      NamesConcat(Filter(init, f), last);
      assert MissingBy(ings, f) == MissingBy(init, f) + (if f(x) then [x.productName] else []);
    }
  }

  /** `missing` names exactly the short ingredients, in recipe order. */
  lemma {:induction false} MissingInRecipeOrder(stock: seq<StockItem>, ings: seq<PortionIngredient>, quantity: int)
    ensures Missing(stock, ings, quantity) == Names(Filter(ings, ShortIn(stock, quantity)))
  {
    MissingByNames(ings, ShortIn(stock, quantity));
  }

  /** `checkPortionStock`'s result. */
  datatype StockCheck = StockCheck(available: bool, missing: seq<string>)

  /** `checkPortionStock`: an unknown portion is unavailable with nothing
      missing; a known one is available exactly when nothing is missing. */
  function PortionStock(portions: seq<Portion>, stock: seq<StockItem>, portionId: Id, quantity: int): (r: StockCheck)
    ensures FindPortion(portions, portionId).None? ==> r == StockCheck(false, [])
    ensures FindPortion(portions, portionId).Some? ==>
              r.missing == Missing(stock, FindPortion(portions, portionId).value.ingredients, quantity)
    ensures r.available <==> FindPortion(portions, portionId).Some? && r.missing == []
  {
    match FindPortion(portions, portionId)
    case None => StockCheck(false, [])
    case Some(p) =>
      var missing := Missing(stock, p.ingredients, quantity);
      StockCheck(missing == [], missing)
  }

  /** A known portion is available exactly when the stock covers every one
      of its ingredients for the quantity. */
  lemma {:induction false} PortionStockCovers(portions: seq<Portion>, stock: seq<StockItem>, portionId: Id, quantity: int)
    requires FindPortion(portions, portionId).Some?
    ensures var ings := FindPortion(portions, portionId).value.ingredients;
            PortionStock(portions, stock, portionId, quantity).available <==>
              forall k :: 0 <= k < |ings| ==> Available(stock, ings[k].productId) >= Needed(ings[k], quantity)
  {
    var ings := FindPortion(portions, portionId).value.ingredients;
    assert Missing(stock, ings, quantity) == [] <==> forall k :: 0 <= k < |ings| ==> !Short(stock, ings[k], quantity);
  }

  // ---------------------------------------------------------------- cart edits

  /** The lines `addToCart` merges into: same product id, not a portion. */
  function PlainFor(id: Id): PDVCartItem -> bool {
    (line: PDVCartItem) => line.productId == id && !line.isPortion
  }

  /** The lines of a portion. */
  function PortionIs(portionId: Option<Id>): PDVCartItem -> bool {
    (line: PDVCartItem) => line.portionId == portionId
  }

  /** `addToCart`: every plain line of the product gains one, or a new line of one is appended. */
  function ProductAdded(cart: seq<PDVCartItem>, p: Product): (r: seq<PDVCartItem>)
    ensures Find(cart, PlainFor(p.id)).None? ==> r == cart + [ProductLine(p)]
    ensures Find(cart, PlainFor(p.id)).Some? ==>
              |r| == |cart| && forall k :: 0 <= k < |cart| ==> r[k] == if PlainFor(p.id)(cart[k]) then Bumped(cart[k]) else cart[k]
  {
    if Find(cart, PlainFor(p.id)).Some? then MapWhere(cart, PlainFor(p.id), Bumped) else cart + [ProductLine(p)]
  }

  function LineQuantity(line: PDVCartItem): int {
    line.quantity
  }

  function LineTotal(line: PDVCartItem): real {
    line.unitPrice * line.quantity as real
  }

  /** `cartItemCount`. */
  function CartItemCount(cart: seq<PDVCartItem>): int {
    SumInt(cart, LineQuantity)
  }

  /** `cartTotal`. */
  function CartTotal(cart: seq<PDVCartItem>): real {
    SumReal(cart, LineTotal)
  }

  /** `hasItemsNeedingPreparation`. */
  predicate NeedsPreparation(cart: seq<PDVCartItem>) {
    exists k :: 0 <= k < |cart| && cart[k].needsPreparation
  }

  /** One click on a product adds exactly one item when at most one plain line of it exists. */
  lemma {:induction false} ProductAddedCount(cart: seq<PDVCartItem>, p: Product)
    requires Count(cart, PlainFor(p.id)) <= 1
    ensures CartItemCount(ProductAdded(cart, p)) == CartItemCount(cart) + 1
  {
    var f := PlainFor(p.id);
    if Find(cart, f).Some? {
      SumIntMapWhere(cart, f, Bumped, LineQuantity);
      var k := FirstWhere(cart, f);
      assert Filter(cart, f) != [] by {
        assert cart[k] in Filter(cart, f);
      }
      FilterLength(cart, f);
    } else {
      SumIntConcat(cart, [ProductLine(p)], LineQuantity);
    }
  }

  /** Whether the stock covers a quantity of the portion. */
  function StockCovers(portions: seq<Portion>, stock: seq<StockItem>, portionId: Id): int -> bool {
    (q: int) => PortionStock(portions, stock, portionId, q).available
  }

  /** The shape of `addPortionToCart` for any stock gate `ok`: refuse when one
      is not covered; otherwise append `line`, or, when a line `f` picks
      exists, raise the lines `f` picks by one if their new quantity is covered. */
  function GatedAdd(cart: seq<PDVCartItem>, line: PDVCartItem, f: PDVCartItem -> bool, ok: int -> bool)
    : (r: (bool, seq<PDVCartItem>))
    ensures !r.0 ==> r.1 == cart
    ensures r.0 ==> ok(1)
    ensures r.0 && Find(cart, f).None? ==> r.1 == cart + [line]
  {
    if !ok(1) then (false, cart)
    else match Find(cart, f)
      case None => (true, cart + [line])
      case Some(l) =>
        if !ok(l.quantity + 1) then (false, cart)
        else (true, MapWhere(cart, f, Bumped))
  }

  /** After a successful add, the first line `f` picks has one more than
      before, or is the new line of one, and `ok` holds of its quantity. */
  lemma {:induction false} GatedAddGated(cart: seq<PDVCartItem>, line: PDVCartItem, f: PDVCartItem -> bool, ok: int -> bool)
    requires f(line) && line.quantity == 1 && forall x :: f(x) ==> f(Bumped(x))
    requires GatedAdd(cart, line, f, ok).0
    ensures var after := GatedAdd(cart, line, f, ok).1;
            Find(after, f).Some? &&
            Find(after, f).value.quantity == (if Find(cart, f).Some? then Find(cart, f).value.quantity + 1 else 1) &&
            ok(Find(after, f).value.quantity)
  {
    var after := GatedAdd(cart, line, f, ok).1;
    if Find(cart, f).None? {
      assert after == cart + [line];
      FindAppend(cart, line, f);
    } else {
      var l := Find(cart, f).value;
      assert ok(l.quantity + 1) && after == MapWhere(cart, f, Bumped);
      FindMapSame(cart, f, Bumped);
      assert Find(after, f) == Some(Bumped(l));
    }
  }

  /** `addPortionToCart`: `true` with the new cart, or `false` with the cart unchanged. */
  function PortionAdded(cart: seq<PDVCartItem>, portions: seq<Portion>, stock: seq<StockItem>, portion: Portion)
    : (r: (bool, seq<PDVCartItem>))
    ensures !r.0 ==> r.1 == cart
    ensures r.0 ==> PortionStock(portions, stock, portion.id, 1).available
    ensures r.0 && Find(cart, PortionIs(Some(portion.id))).None? ==> r.1 == cart + [PortionLine(portion)]
  {
    GatedAdd(cart, PortionLine(portion), PortionIs(Some(portion.id)), StockCovers(portions, stock, portion.id))
  }

  /** After a successful `addPortionToCart` the first line of the portion asks
      for a quantity the stock covers, one more than before or 1 for a new line. */
  lemma {:induction false} PortionAddedGated(cart: seq<PDVCartItem>, portions: seq<Portion>, stock: seq<StockItem>, portion: Portion)
    requires PortionAdded(cart, portions, stock, portion).0
    ensures var after := PortionAdded(cart, portions, stock, portion).1;
            var f := PortionIs(Some(portion.id));
            Find(after, f).Some? &&
            Find(after, f).value.quantity == (if Find(cart, f).Some? then Find(cart, f).value.quantity + 1 else 1) &&
            PortionStock(portions, stock, portion.id, Find(after, f).value.quantity).available
  {
    GatedAddGated(cart, PortionLine(portion), PortionIs(Some(portion.id)), StockCovers(portions, stock, portion.id));
  }

  /** The lines `updateCartQuantity` and `removeFromCart` act on. */
  function TargetOf(productId: Id, isPortion: bool, portionId: Option<Id>): PDVCartItem -> bool {
    (line: PDVCartItem) =>
      if isPortion then line.portionId == portionId else line.productId == productId && !line.isPortion
  }

  /** `Math.max(0, item.quantity + delta)`. */
  function AdjustBy(delta: int): PDVCartItem -> PDVCartItem {
    (line: PDVCartItem) => line.(quantity := if line.quantity + delta > 0 then line.quantity + delta else 0)
  }

  function Positive(line: PDVCartItem): bool {
    line.quantity > 0
  }

  /** `currentItem?.quantity || 0`. */
  function CurrentQuantity(cart: seq<PDVCartItem>, portionId: Option<Id>): int {
    match Find(cart, PortionIs(portionId))
    case None => 0
    case Some(line) => line.quantity
  }

  /** An increase of a portion line that the stock cannot cover. */
  predicate IncreaseRefused(cart: seq<PDVCartItem>, portions: seq<Portion>, stock: seq<StockItem>,
                            delta: int, isPortion: bool, portionId: Option<Id>)
  {
    isPortion && delta > 0 && IdTruthy(portionId) &&
    !PortionStock(portions, stock, portionId.value, CurrentQuantity(cart, portionId) + delta).available
  }

  /** `updateCartQuantity`: `false` with the cart unchanged when the stock gate
      refuses, otherwise `true` with the adjusted lines that stay above zero. */
  function QuantityUpdated(cart: seq<PDVCartItem>, portions: seq<Portion>, stock: seq<StockItem>,
                           productId: Id, delta: int, isPortion: bool, portionId: Option<Id>)
    : (r: (bool, seq<PDVCartItem>))
    ensures r.0 <==> !IncreaseRefused(cart, portions, stock, delta, isPortion, portionId)
    ensures !r.0 ==> r.1 == cart
    ensures forall line | line in r.1 :: line.quantity > 0 || (!r.0 && line in cart)
  {
    if IncreaseRefused(cart, portions, stock, delta, isPortion, portionId) then (false, cart)
    else (true, Filter(MapWhere(cart, TargetOf(productId, isPortion, portionId), AdjustBy(delta)), Positive))
  }

  /** What an accepted update keeps: untouched lines with a positive quantity,
      and the adjusted lines still above zero; nothing else. */
  lemma {:induction false} QuantityUpdatedLines(cart: seq<PDVCartItem>, portions: seq<Portion>, stock: seq<StockItem>,
                             productId: Id, delta: int, isPortion: bool, portionId: Option<Id>)
    requires !IncreaseRefused(cart, portions, stock, delta, isPortion, portionId)
    ensures var r := QuantityUpdated(cart, portions, stock, productId, delta, isPortion, portionId).1;
            var t := TargetOf(productId, isPortion, portionId);
            (forall line | line in cart && !t(line) && line.quantity > 0 :: line in r) &&
            (forall line | line in cart && t(line) && line.quantity + delta > 0 :: AdjustBy(delta)(line) in r) &&
            (forall line | line in r :: line.quantity > 0 &&
               exists k :: 0 <= k < |cart| && line == (if t(cart[k]) then AdjustBy(delta)(cart[k]) else cart[k]))
  {
    var t := TargetOf(productId, isPortion, portionId);
    var m := MapWhere(cart, t, AdjustBy(delta));
    forall line | line in cart
      ensures (if t(line) then AdjustBy(delta)(line) else line) in m
    {
      var k :| 0 <= k < |cart| && cart[k] == line;
      assert m[k] == (if t(line) then AdjustBy(delta)(line) else line);
    }
    forall line | line in Filter(m, Positive)
      ensures exists k :: 0 <= k < |cart| && line == (if t(cart[k]) then AdjustBy(delta)(cart[k]) else cart[k])
    {
      var k :| 0 <= k < |m| && m[k] == line;
    }
  }

  /** `removeFromCart`: exactly the lines it does not aim at stay, in order. */
  function RemovedLines(cart: seq<PDVCartItem>, productId: Id, isPortion: bool, portionId: Option<Id>)
    : (r: seq<PDVCartItem>)
    ensures forall line | line in r :: line in cart && !TargetOf(productId, isPortion, portionId)(line)
    ensures forall line | line in cart && !TargetOf(productId, isPortion, portionId)(line) :: line in r
  {
    Filter(cart, (line: PDVCartItem) => !TargetOf(productId, isPortion, portionId)(line))
  }

  // ---------------------------------------------------------------- the cart invariant

  /** No line of the cart has a quantity below one. */
  predicate PositiveLines(cart: seq<PDVCartItem>) {
    forall line | line in cart :: line.quantity > 0
  }

  lemma {:induction false} ProductAddedPositive(cart: seq<PDVCartItem>, p: Product)
    requires PositiveLines(cart)
    ensures PositiveLines(ProductAdded(cart, p))
  {
    var r := ProductAdded(cart, p);
    forall line | line in r ensures line.quantity > 0 {
      var k :| 0 <= k < |r| && r[k] == line;
      if k < |cart| {
        assert cart[k] in cart;
      }
    }
  }

  lemma {:induction false} PortionAddedPositive(cart: seq<PDVCartItem>, portions: seq<Portion>, stock: seq<StockItem>, portion: Portion)
    requires PositiveLines(cart)
    ensures PositiveLines(PortionAdded(cart, portions, stock, portion).1)
  {
    var f := PortionIs(Some(portion.id));
    var r := PortionAdded(cart, portions, stock, portion).1;
    forall line | line in r ensures line.quantity > 0 {
      var k :| 0 <= k < |r| && r[k] == line;
      if k < |cart| {
        assert cart[k] in cart;
      }
    }
  }

  /** An update keeps every line at one or more, whether it is refused or applied. */
  lemma {:induction false} QuantityUpdatedPositive(cart: seq<PDVCartItem>, portions: seq<Portion>, stock: seq<StockItem>,
                                productId: Id, delta: int, isPortion: bool, portionId: Option<Id>)
    requires PositiveLines(cart)
    ensures PositiveLines(QuantityUpdated(cart, portions, stock, productId, delta, isPortion, portionId).1)
  {
  }

  lemma {:induction false} RemovedLinesPositive(cart: seq<PDVCartItem>, productId: Id, isPortion: bool, portionId: Option<Id>)
    requires PositiveLines(cart)
    ensures PositiveLines(RemovedLines(cart, productId, isPortion, portionId))
  {
  }
}
