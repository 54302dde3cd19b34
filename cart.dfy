/** The customer cart (`src/contexts/CartContext.tsx`): plain lines merge on
    product id and observation, composite lines are always new, and lines are
    removed or re-quantified by position. */
module CustomerCart {
  import opened Common
  import opened Types

  /** The line a plain product merges into: `prev.findIndex(...)`, -1 for none. */
  function MergeIndex(items: seq<CartItem>, productId: Id, observation: string): (k: int)
    ensures -1 <= k < |items|
    ensures k >= 0 ==> Mergeable(items[k], productId, observation)
    ensures forall j :: 0 <= j < |items| && (k == -1 || j < k) ==> !Mergeable(items[j], productId, observation)
  {
    if items == [] then -1
    else if Mergeable(items[0], productId, observation) then 0
    else
      var k := MergeIndex(items[1..], productId, observation);
      if k == -1 then -1 else k + 1
  }

  predicate Mergeable(line: CartItem, productId: Id, observation: string) {
    line.product.id == productId && line.observation == observation && !line.isComposite
  }

  /** `addItem`. A composite line keeps its composite id and selections; a
      plain line stores only product, quantity and observation. */
  function WithItemAdded(items: seq<CartItem>, product: Product, quantity: int, observation: string,
                         isComposite: bool, compositeId: Option<Id>,
                         selected: Option<seq<SelectedIngredient>>): seq<CartItem>
  {
    if isComposite then
      items + [CartItem(product, quantity, observation, true, compositeId, selected)]
    else
      var k := MergeIndex(items, product.id, observation);
      if k >= 0 then items[k := items[k].(quantity := items[k].quantity + quantity)]
      else items + [CartItem(product, quantity, observation, false, None, None)]
  }

  /** `removeItem`: the lines at every other position. */
  function WithoutLine(items: seq<CartItem>, index: int): seq<CartItem> {
    DropIndex(items, index)
  }

  /** `updateQuantity`: a quantity of 0 or less removes the line. */
  function WithQuantity(items: seq<CartItem>, index: int, quantity: int): seq<CartItem> {
    if quantity <= 0 then WithoutLine(items, index)
    else seq(|items|, k requires 0 <= k < |items| => if k == index then items[k].(quantity := quantity) else items[k])
  }

  function LineQuantity(line: CartItem): int {
    line.quantity
  }

  function LinePrice(line: CartItem): real {
    line.product.price * line.quantity as real
  }

  /** `totalItems`. */
  function TotalItems(items: seq<CartItem>): int {
    SumInt(items, LineQuantity)
  }

  /** `totalPrice`. */
  function TotalPrice(items: seq<CartItem>): real {
    SumReal(items, LinePrice)
  }

  /** No two plain lines share product id and observation. */
  predicate NoDuplicatePlainLines(items: seq<CartItem>) {
    forall i, j :: 0 <= i < j < |items| && !items[i].isComposite && !items[j].isComposite ==>
      (items[i].product.id, items[i].observation) != (items[j].product.id, items[j].observation)
  }

  /** A composite item is always appended as a line of its own, even beside an identical one. */
  lemma {:induction false} AddCompositeAppends(items: seq<CartItem>, product: Product, quantity: int, observation: string,
                            compositeId: Option<Id>, selected: Option<seq<SelectedIngredient>>)
    ensures |WithItemAdded(items, product, quantity, observation, true, compositeId, selected)| == |items| + 1
    ensures WithItemAdded(items, product, quantity, observation, true, compositeId, selected)[..|items|] == items
    ensures WithItemAdded(items, product, quantity, observation, true, compositeId, selected)[|items|].product == product
  {
  }

  /** A plain item whose product id and observation match an existing plain
      line raises that line's quantity; nothing else changes. */
  lemma {:induction false} AddPlainMerges(items: seq<CartItem>, product: Product, quantity: int, observation: string,
                       compositeId: Option<Id>, selected: Option<seq<SelectedIngredient>>, k: nat)
    requires k < |items| && Mergeable(items[k], product.id, observation)
    requires NoDuplicatePlainLines(items)
    ensures var r := WithItemAdded(items, product, quantity, observation, false, compositeId, selected);
            |r| == |items| && r[k].quantity == items[k].quantity + quantity &&
            r[k].product == items[k].product &&
            forall j :: 0 <= j < |items| && j != k ==> r[j] == items[j]
  {
  }

  /** Without a matching plain line, a plain item becomes a new last line. */
  lemma {:induction false} AddPlainAppends(items: seq<CartItem>, product: Product, quantity: int, observation: string,
                        compositeId: Option<Id>, selected: Option<seq<SelectedIngredient>>)
    requires forall j :: 0 <= j < |items| ==> !Mergeable(items[j], product.id, observation)
    ensures WithItemAdded(items, product, quantity, observation, false, compositeId, selected) ==
            items + [CartItem(product, quantity, observation, false, None, None)]
  {
  }

  /** `addItem` keeps plain lines unique on (product id, observation). */
  lemma {:induction false} AddKeepsNoDuplicates(items: seq<CartItem>, product: Product, quantity: int, observation: string,
                             isComposite: bool, compositeId: Option<Id>, selected: Option<seq<SelectedIngredient>>)
    requires NoDuplicatePlainLines(items)
    ensures NoDuplicatePlainLines(WithItemAdded(items, product, quantity, observation, isComposite, compositeId, selected))
  {
    var r := WithItemAdded(items, product, quantity, observation, isComposite, compositeId, selected);
    if !isComposite && MergeIndex(items, product.id, observation) == -1 {
      forall i, j | 0 <= i < j < |r| && !r[i].isComposite && !r[j].isComposite
        ensures (r[i].product.id, r[i].observation) != (r[j].product.id, r[j].observation)
      {
        if j == |items| {
          assert !Mergeable(items[i], product.id, observation);
        }
      }
    }
  }

  /** Raising a line's quantity raises its price by the unit price times the increase. */
  lemma {:induction false} RaisedLinePrice(line: CartItem, quantity: int)
    ensures LinePrice(line.(quantity := line.quantity + quantity)) == LinePrice(line) + line.product.price * quantity as real
  {
    var p := line.product.price;
    var a := line.quantity as real;
    var b := quantity as real;
    assert (line.quantity + quantity) as real == a + b;
    assert p * (a + b) == p * a + p * b;
  }

  /** The totals after `addItem` merges into line `k`: the quantity added,
      priced at that line's product (not the product passed in). */
  lemma {:induction false} AddTotalsMerged(items: seq<CartItem>, product: Product, quantity: int, observation: string,
                        compositeId: Option<Id>, selected: Option<seq<SelectedIngredient>>, k: nat)
    requires k == MergeIndex(items, product.id, observation)
    ensures TotalItems(WithItemAdded(items, product, quantity, observation, false, compositeId, selected)) ==
            TotalItems(items) + quantity
    ensures TotalPrice(WithItemAdded(items, product, quantity, observation, false, compositeId, selected)) ==
            TotalPrice(items) + items[k].product.price * quantity as real
  {
    var line := items[k].(quantity := items[k].quantity + quantity);
    assert WithItemAdded(items, product, quantity, observation, false, compositeId, selected) == items[k := line];
    SumIntUpdate(items, k, line, LineQuantity);
    SumRealUpdate(items, k, line, LinePrice);
    RaisedLinePrice(items[k], quantity);
  }

  /** The totals after `addItem` appends a line: the quantity added, priced at the product passed in. */
  lemma {:induction false} AddTotalsAppended(items: seq<CartItem>, product: Product, quantity: int, observation: string,
                          isComposite: bool, compositeId: Option<Id>, selected: Option<seq<SelectedIngredient>>)
    requires isComposite || MergeIndex(items, product.id, observation) == -1
    ensures TotalItems(WithItemAdded(items, product, quantity, observation, isComposite, compositeId, selected)) ==
            TotalItems(items) + quantity
    ensures TotalPrice(WithItemAdded(items, product, quantity, observation, isComposite, compositeId, selected)) ==
            TotalPrice(items) + product.price * quantity as real
  {
    var r := WithItemAdded(items, product, quantity, observation, isComposite, compositeId, selected);
    var line := r[|items|];
    assert r == items + [line];
    SumIntConcat(items, [line], LineQuantity);
    SumRealConcat(items, [line], LinePrice);
  }

  /** `removeItem` deletes exactly the line at the index and keeps the others in
      order; an index outside the cart changes nothing. */
  lemma {:induction false} RemoveSpec(items: seq<CartItem>, index: int)
    ensures 0 <= index < |items| ==> WithoutLine(items, index) == items[..index] + items[index + 1..]
    ensures !(0 <= index < |items|) ==> WithoutLine(items, index) == items
  {
    DropIndexSpec(items, index);
  }

  /** Removing a line lowers the item count by its quantity. */
  lemma {:induction false} RemoveTotals(items: seq<CartItem>, index: nat)
    requires index < |items|
    ensures TotalItems(WithoutLine(items, index)) == TotalItems(items) - items[index].quantity
    ensures TotalPrice(WithoutLine(items, index)) == TotalPrice(items) - LinePrice(items[index])
  {
    DropIndexSpec(items, index);
    assert items == items[..index] + [items[index]] + items[index + 1..];
    SumIntConcat(items[..index] + [items[index]], items[index + 1..], LineQuantity);
    SumIntConcat(items[..index], [items[index]], LineQuantity);
    SumIntConcat(items[..index], items[index + 1..], LineQuantity);
    SumRealConcat(items[..index] + [items[index]], items[index + 1..], LinePrice);
    SumRealConcat(items[..index], [items[index]], LinePrice);
    SumRealConcat(items[..index], items[index + 1..], LinePrice);
  }

  /** `updateQuantity` with a quantity of 0 or less is `removeItem`; with a
      positive one it sets that line's quantity only. */
  lemma {:induction false} UpdateSpec(items: seq<CartItem>, index: int, quantity: int)
    ensures quantity <= 0 ==> WithQuantity(items, index, quantity) == WithoutLine(items, index)
    ensures quantity > 0 && 0 <= index < |items| ==>
              WithQuantity(items, index, quantity) == items[index := items[index].(quantity := quantity)]
    ensures quantity > 0 && !(0 <= index < |items|) ==> WithQuantity(items, index, quantity) == items
  {
  }

  /** Removing and re-quantifying keep plain lines unique. */
  lemma {:induction false} EditKeepsNoDuplicates(items: seq<CartItem>, index: int, quantity: int)
    requires NoDuplicatePlainLines(items)
    ensures NoDuplicatePlainLines(WithoutLine(items, index))
    ensures NoDuplicatePlainLines(WithQuantity(items, index, quantity))
  {
    DropIndexSpec(items, index);
    if 0 <= index < |items| {
      var r := items[..index] + items[index + 1..];
      forall i, j | 0 <= i < j < |r| && !r[i].isComposite && !r[j].isComposite
        ensures (r[i].product.id, r[i].observation) != (r[j].product.id, r[j].observation)
      {
        var i' := if i < index then i else i + 1;
        var j' := if j < index then j else j + 1;
        assert r[i] == items[i'] && r[j] == items[j'];
      }
    }
  }

  /** The provider's `items` state. */
  class Cart {
    var items: seq<CartItem>

    /** No two plain lines share a product and an observation. */
    predicate Valid()
      reads this
    {
      NoDuplicatePlainLines(items)
    }

    constructor ()
      ensures items == [] && Valid()
    {
      items := [];
    }

    method AddItem(product: Product, quantity: int, observation: string, isComposite: bool,
                   compositeId: Option<Id>, selected: Option<seq<SelectedIngredient>>)
      modifies this
      ensures items == WithItemAdded(old(items), product, quantity, observation, isComposite, compositeId, selected)
      ensures old(Valid()) ==> Valid()
    {
      if Valid() {
        AddKeepsNoDuplicates(items, product, quantity, observation, isComposite, compositeId, selected);
      }
      items := WithItemAdded(items, product, quantity, observation, isComposite, compositeId, selected);
    }

    method RemoveItem(itemIndex: int)
      modifies this
      ensures items == WithoutLine(old(items), itemIndex)
      ensures old(Valid()) ==> Valid()
    {
      if Valid() {
        EditKeepsNoDuplicates(items, itemIndex, 0);
      }
      items := WithoutLine(items, itemIndex);
    }

    method UpdateQuantity(itemIndex: int, quantity: int)
      modifies this
      ensures items == WithQuantity(old(items), itemIndex, quantity)
      ensures old(Valid()) ==> Valid()
    {
      if Valid() {
        EditKeepsNoDuplicates(items, itemIndex, quantity);
      }
      if quantity <= 0 {
        RemoveItem(itemIndex);
        return;
      }
      items := WithQuantity(items, itemIndex, quantity);
    }

    method ClearCart()
      modifies this
      ensures items == [] && TotalItems(items) == 0 && TotalPrice(items) == 0.0
      ensures Valid()
    {
      items := [];
    }
  }
}
