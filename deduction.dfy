/** Ingredient-aware stock deduction (`src/hooks/useStockDeduction.ts`): a
    composite line with selections lowers the stock of its included
    ingredients, counted in units through the clamped decrement and in grams or
    millilitres through the gated one; any other line lowers its own product. */
module StockDeduction {
  import opened Common
  import opened Types
  import opened Stock

  /** `ingredient.quantity * item.quantity`: what one ingredient of a line consumes. */
  function IngredientAmount(ing: SelectedIngredient, lineQuantity: int): real {
    ing.quantity * lineQuantity as real
  }

  /** The effect of one selected ingredient of a line of `lineQuantity`. The
      gated decrement's verdict is discarded, so a short ingredient is skipped.
      `seen` is the `stock` the hook's callbacks closed over, which the gate
      reads while the updates lower `items`. */
  function DeductIngredient(seen: seq<StockItem>, items: seq<StockItem>, ing: SelectedIngredient, lineQuantity: int): seq<StockItem> {
    if !ing.included then items
    else
      var amount := IngredientAmount(ing, lineQuantity);
      if ing.measureUnit == Un then Decreased(items, ing.productId, amount)
      else FractionalDecrease(seen, items, ing.productId, amount).1
  }

  /** The `forEach` over the selections, one ingredient after the other. */
  function DeductIngredients(seen: seq<StockItem>, items: seq<StockItem>, ings: seq<SelectedIngredient>, lineQuantity: int): seq<StockItem> {
    if ings == [] then items
    else DeductIngredient(seen, DeductIngredients(seen, items, ings[..|ings| - 1], lineQuantity), ings[|ings| - 1], lineQuantity)
  }

  predicate HasSelections(line: CartItem) {
    line.isComposite && line.selectedIngredients.Some?
  }

  /** `deductStockForItem`. */
  function DeductItem(seen: seq<StockItem>, items: seq<StockItem>, line: CartItem): seq<StockItem> {
    if HasSelections(line) then DeductIngredients(seen, items, line.selectedIngredients.value, line.quantity)
    else Decreased(items, line.product.id, line.quantity as real)
  }

  /** `deductStockForOrder`: `deductStockForItem` on each line in order. */
  function DeductOrder(seen: seq<StockItem>, items: seq<StockItem>, lines: seq<CartItem>): seq<StockItem> {
    if lines == [] then items
    else DeductItem(seen, DeductOrder(seen, items, lines[..|lines| - 1]), lines[|lines| - 1])
  }

  function IsIncluded(ing: SelectedIngredient): bool {
    ing.included
  }

  /** The products a line can touch. */
  function IncludedIds(ings: seq<SelectedIngredient>): set<Id> {
    set k | 0 <= k < |ings| && ings[k].included :: ings[k].productId
  }

  function NamedBy(line: CartItem): set<Id> {
    if HasSelections(line) then IncludedIds(line.selectedIngredients.value) else {line.product.id}
  }

  /** `after` has the entries of `before`, with the same ids in the same places,
      and every entry of a product outside `named` is unchanged. */
  predicate KeepsOutside(before: seq<StockItem>, after: seq<StockItem>, named: set<Id>) {
    SameIds(after, before) &&
    forall k :: 0 <= k < |before| && before[k].productId !in named ==> after[k] == before[k]
  }

  lemma {:induction false} KeepsOutsideLookup(before: seq<StockItem>, after: seq<StockItem>, named: set<Id>, p: Id)
    requires KeepsOutside(before, after, named) && p !in named
    ensures Available(after, p) == Available(before, p)
  {
    SameIdsFirstIndex(after, before, p);
  }

  /** Ingredient-level deduction runs left to right: the selections `a + b`
      deduct as `a` followed by `b`, so a skipped ingredient does not stop the rest. */
  lemma {:induction false} DeductIngredientsConcat(seen: seq<StockItem>, items: seq<StockItem>, a: seq<SelectedIngredient>,
                                                   b: seq<SelectedIngredient>, q: int)
    ensures DeductIngredients(seen, items, a + b, q) == DeductIngredients(seen, DeductIngredients(seen, items, a, q), b, q)
    decreases |b|
  {
    if b == [] {
      assert a + b == a;
    } else {
      assert (a + b)[..|a + b| - 1] == a + b[..|b| - 1];
      assert (a + b)[|a + b| - 1] == b[|b| - 1];
      DeductIngredientsConcat(seen, items, a, b[..|b| - 1], q);
    }
  }

  /** Excluded ingredients never change stock: deducting the selections is
      deducting only the included ones. */
  lemma {:induction false} ExcludedAreIrrelevant(seen: seq<StockItem>, items: seq<StockItem>, ings: seq<SelectedIngredient>, q: int)
    ensures DeductIngredients(seen, items, ings, q) == DeductIngredients(seen, items, Filter(ings, IsIncluded), q)
    decreases |ings|
  {
    if ings != [] {
      var init := ings[..|ings| - 1];
      var last := ings[|ings| - 1];
      assert ings == init + [last];
      FilterConcat(init, [last], IsIncluded);
      ExcludedAreIrrelevant(seen, items, init, q);
      DeductIngredientsConcat(seen, items, Filter(init, IsIncluded), Filter([last], IsIncluded), q);
      if last.included {
        assert Filter([last], IsIncluded) == [last];
      } else {
        assert Filter([last], IsIncluded) == [];
        assert Filter(init, IsIncluded) + [] == Filter(init, IsIncluded);
      }
    }
  }

  /** One included unit ingredient lowers the looked-up stock of its product
      by ingredient quantity times line quantity, clamped at 0. */
  lemma {:induction false} UnitIngredientLookup(seen: seq<StockItem>, items: seq<StockItem>, ing: SelectedIngredient, q: int, p: Id)
    requires ing.included && ing.measureUnit == Un
    ensures Available(DeductIngredient(seen, items, ing, q), p) ==
            if p == ing.productId && HasEntry(items, p) then Max0(Available(items, p) - IngredientAmount(ing, q))
            else Available(items, p)
  {
    var amount := IngredientAmount(ing, q);
    assert DeductIngredient(seen, items, ing, q) == Decreased(items, ing.productId, amount);
    DecreaseLookup(items, ing.productId, amount, p);
  }

  /** One included gram or millilitre ingredient that the snapshot finds
      short changes nothing. */
  lemma {:induction false} FractionalIngredientShort(seen: seq<StockItem>, items: seq<StockItem>, ing: SelectedIngredient, q: int)
    requires ing.included && ing.measureUnit != Un
    requires Available(seen, ing.productId) < IngredientAmount(ing, q)
    ensures DeductIngredient(seen, items, ing, q) == items
  {
    var amount := IngredientAmount(ing, q);
    assert DeductIngredient(seen, items, ing, q) == FractionalDecrease(seen, items, ing.productId, amount).1;
  }

  /** One included gram or millilitre ingredient in stock, both in the
      snapshot and in the ledger, lowers its product's looked-up stock by
      exactly the amount and no other lookup. */
  lemma {:induction false} FractionalIngredientInStock(seen: seq<StockItem>, items: seq<StockItem>, ing: SelectedIngredient, q: int, p: Id)
    requires ing.included && ing.measureUnit != Un && HasEntry(items, ing.productId)
    requires Available(seen, ing.productId) >= IngredientAmount(ing, q)
    requires Available(items, ing.productId) >= IngredientAmount(ing, q)
    ensures Available(DeductIngredient(seen, items, ing, q), p) ==
            if p == ing.productId then Available(items, p) - IngredientAmount(ing, q) else Available(items, p)
  {
    var amount := IngredientAmount(ing, q);
    assert DeductIngredient(seen, items, ing, q) == FractionalDecrease(seen, items, ing.productId, amount).1;
    FractionalDecreaseExact(seen, items, ing.productId, amount, p);
  }

  /** A plain line, or a composite one without selections, lowers its own
      product's looked-up stock by the line quantity, clamped at 0. */
  lemma {:induction false} PlainLineLookup(seen: seq<StockItem>, items: seq<StockItem>, line: CartItem, p: Id)
    requires !HasSelections(line)
    ensures Available(DeductItem(seen, items, line), p) ==
            if p == line.product.id && HasEntry(items, p) then Max0(Available(items, p) - line.quantity as real)
            else Available(items, p)
  {
    DecreaseLookup(items, line.product.id, line.quantity as real, p);
  }

  lemma {:induction false} KeepsOutsideTrans(a: seq<StockItem>, b: seq<StockItem>, c: seq<StockItem>, n1: set<Id>, n2: set<Id>, n: set<Id>)
    requires KeepsOutside(a, b, n1) && KeepsOutside(b, c, n2) && n1 <= n && n2 <= n
    ensures KeepsOutside(a, c, n)
  {
  }

  lemma {:induction false} IngredientKeepsOutside(seen: seq<StockItem>, items: seq<StockItem>, ing: SelectedIngredient, q: int)
    ensures KeepsOutside(items, DeductIngredient(seen, items, ing, q), if ing.included then {ing.productId} else {})
  {
    if ing.included {
      DecreaseEntries(items, ing.productId, IngredientAmount(ing, q));
    }
  }

  lemma {:induction false} IngredientsKeepOutside(seen: seq<StockItem>, items: seq<StockItem>, ings: seq<SelectedIngredient>, q: int)
    ensures KeepsOutside(items, DeductIngredients(seen, items, ings, q), IncludedIds(ings))
    decreases |ings|
  {
    if ings != [] {
      var init := ings[..|ings| - 1];
      var last := ings[|ings| - 1];
      IngredientsKeepOutside(seen, items, init, q);
      IngredientKeepsOutside(seen, DeductIngredients(seen, items, init, q), last, q);
      assert IncludedIds(init) <= IncludedIds(ings) by {
        forall x | x in IncludedIds(init) ensures x in IncludedIds(ings) {
          var k :| 0 <= k < |init| && init[k].included && init[k].productId == x;
          assert ings[k] == init[k];
        }
      }
      assert last.included ==> last.productId in IncludedIds(ings) by {
        if last.included {
          assert ings[|ings| - 1] == last;
        }
      }
      KeepsOutsideTrans(items, DeductIngredients(seen, items, init, q), DeductIngredients(seen, items, ings, q),
                        IncludedIds(init), if last.included then {last.productId} else {}, IncludedIds(ings));
    }
  }

  /** Products named neither by the line nor by its included ingredients keep
      their entries, and so their stock. */
  lemma {:induction false} ItemKeepsOthers(seen: seq<StockItem>, items: seq<StockItem>, line: CartItem, p: Id)
    ensures KeepsOutside(items, DeductItem(seen, items, line), NamedBy(line))
    ensures p !in NamedBy(line) ==> Available(DeductItem(seen, items, line), p) == Available(items, p)
  {
    if HasSelections(line) {
      IngredientsKeepOutside(seen, items, line.selectedIngredients.value, line.quantity);
    } else {
      DecreaseEntries(items, line.product.id, line.quantity as real);
    }
    if p !in NamedBy(line) {
      KeepsOutsideLookup(items, DeductItem(seen, items, line), NamedBy(line), p);
    }
  }

  /** Deducting an order is deducting its lines in sequence: `a + b` is `a` then `b`. */
  lemma {:induction false} DeductOrderConcat(seen: seq<StockItem>, items: seq<StockItem>, a: seq<CartItem>, b: seq<CartItem>)
    ensures DeductOrder(seen, items, a + b) == DeductOrder(seen, DeductOrder(seen, items, a), b)
    decreases |b|
  {
    if b == [] {
      assert a + b == a;
    } else {
      assert (a + b)[..|a + b| - 1] == a + b[..|b| - 1];
      assert (a + b)[|a + b| - 1] == b[|b| - 1];
      DeductOrderConcat(seen, items, a, b[..|b| - 1]);
    }
  }

  lemma {:induction false} IngredientKeepsNonNegative(seen: seq<StockItem>, items: seq<StockItem>, ing: SelectedIngredient, q: int)
    requires NonNegative(items)
    ensures NonNegative(DeductIngredient(seen, items, ing, q))
  {
    if ing.included {
      DecreasePreservesNonNegative(items, ing.productId, IngredientAmount(ing, q));
    }
  }

  /** Deduction never drives stock below zero, whatever the quantities. */
  lemma {:induction false} OrderKeepsNonNegative(seen: seq<StockItem>, items: seq<StockItem>, lines: seq<CartItem>)
    requires NonNegative(items)
    ensures NonNegative(DeductOrder(seen, items, lines))
    decreases |lines|
  {
    if lines != [] {
      OrderKeepsNonNegative(seen, items, lines[..|lines| - 1]);
      var before := DeductOrder(seen, items, lines[..|lines| - 1]);
      var line := lines[|lines| - 1];
      if HasSelections(line) {
        IngredientsKeepNonNegative(seen, before, line.selectedIngredients.value, line.quantity);
      } else {
        DecreasePreservesNonNegative(before, line.product.id, line.quantity as real);
      }
    }
  }

  lemma {:induction false} IngredientsKeepNonNegative(seen: seq<StockItem>, items: seq<StockItem>, ings: seq<SelectedIngredient>, q: int)
    requires NonNegative(items)
    ensures NonNegative(DeductIngredients(seen, items, ings, q))
    decreases |ings|
  {
    if ings != [] {
      IngredientsKeepNonNegative(seen, items, ings[..|ings| - 1], q);
      IngredientKeepsNonNegative(seen, DeductIngredients(seen, items, ings[..|ings| - 1], q), ings[|ings| - 1], q);
    }
  }

  /** `deductStockForItem` against the ledger; `seen` is the `stock` its
      `decreaseFractionalStock` closed over. */
  method DeductStockForItem(ledger: StockLedger, seen: seq<StockItem>, item: CartItem)
    modifies ledger
    ensures ledger.items == DeductItem(seen, old(ledger.items), item)
  {
    if item.isComposite && item.selectedIngredients.Some? {
      var selected := item.selectedIngredients.value;
      var i := 0;
      while i < |selected|
        invariant 0 <= i <= |selected|
        invariant ledger.items == DeductIngredients(seen, old(ledger.items), selected[..i], item.quantity)
      {
        var ing := selected[i];
        if ing.included {
          var amount := IngredientAmount(ing, item.quantity);
          if ing.measureUnit == Un {
            ledger.DecreaseStock(ing.productId, amount);
          } else {
            var ok := ledger.DecreaseFractionalStock(seen, ing.productId, amount);
          }
        }
        assert selected[..i + 1][i] == ing;
        assert selected[..i + 1][..i] == selected[..i];
        i := i + 1;
      }
      assert selected[..|selected|] == selected;
    } else {
      ledger.DecreaseStock(item.product.id, item.quantity as real);
    }
  }

  /** `deductStockForOrder` against the ledger. */
  method DeductStockForOrder(ledger: StockLedger, seen: seq<StockItem>, items: seq<CartItem>)
    modifies ledger
    ensures ledger.items == DeductOrder(seen, old(ledger.items), items)
  {
    var i := 0;
    while i < |items|
      invariant 0 <= i <= |items|
      invariant ledger.items == DeductOrder(seen, old(ledger.items), items[..i])
    {
      DeductStockForItem(ledger, seen, items[i]);
      assert items[..i + 1][..i] == items[..i];
      i := i + 1;
    }
    assert items[..|items|] == items;
  }
}
