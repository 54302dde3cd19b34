/** The customer-side dialog that puts a composite product (lanche, porção,
    dose) into the cart with a choice of ingredients
    (`src/components/menu/AddCompositeItemModal.tsx`). */
module CompositeItemModal {
  import opened Common
  import opened Types
  import CustomerCart

  /** Where an ingredient starts: a required one is always in, any other at its default. */
  function StartsIncluded(ing: CompositeIngredient): bool {
    if ing.requirement == Required then true else ing.isDefault
  }

  /** The `Record<string, boolean>` the initial `forEach` builds; a later
      ingredient with the same product id overwrites an earlier one. */
  function InitialSelections(ings: seq<CompositeIngredient>): (m: map<Id, bool>)
    ensures forall k :: 0 <= k < |ings| ==> ings[k].productId in m
    ensures forall id | id in m :: exists k :: 0 <= k < |ings| && ings[k].productId == id
  {
    if ings == [] then map[]
    else
      var init := ings[..|ings| - 1];
      var m := InitialSelections(init);
      assert forall k :: 0 <= k < |init| ==> init[k] == ings[k];
      m[ings[|ings| - 1].productId := StartsIncluded(ings[|ings| - 1])]
  }

  predicate DistinctIngredientIds(ings: seq<CompositeIngredient>) {
    forall i, j :: 0 <= i < j < |ings| ==> ings[i].productId != ings[j].productId
  }

  /** Every recipe ingredient has an entry. */
  predicate Covers(ings: seq<CompositeIngredient>, sel: map<Id, bool>) {
    forall k :: 0 <= k < |ings| ==> ings[k].productId in sel
  }

  /** Every required ingredient's entry is on. */
  predicate RequiredOn(ings: seq<CompositeIngredient>, sel: map<Id, bool>) {
    forall k :: 0 <= k < |ings| && ings[k].requirement == Required ==>
      ings[k].productId in sel && sel[ings[k].productId]
  }

  /** The entry of a product the last ingredient does not name is left as it was. */
  lemma {:induction false} InitialSnoc(ings: seq<CompositeIngredient>, id: Id)
    requires ings != [] && id != ings[|ings| - 1].productId && id in InitialSelections(ings[..|ings| - 1])
    ensures id in InitialSelections(ings)
    ensures InitialSelections(ings)[id] == InitialSelections(ings[..|ings| - 1])[id]
  {
  }

  /** With distinct product ids, every ingredient starts at `StartsIncluded`:
      required ones on, the others at their default. */
  lemma {:induction false} InitialValues(ings: seq<CompositeIngredient>)
    requires DistinctIngredientIds(ings)
    ensures forall k :: 0 <= k < |ings| ==> InitialSelections(ings)[ings[k].productId] == StartsIncluded(ings[k])
    ensures RequiredOn(ings, InitialSelections(ings))
  {
    if ings != [] {
      var n := |ings| - 1;
      var init := ings[..n];
      assert forall k :: 0 <= k < n ==> init[k] == ings[k];
      assert DistinctIngredientIds(init);
      InitialValues(init);
      forall k | 0 <= k < n
        ensures InitialSelections(ings)[ings[k].productId] == StartsIncluded(ings[k])
      {
        assert init[k].productId in InitialSelections(init);
        InitialSnoc(ings, ings[k].productId);
      }
    }
  }

  /** A recipe that lists one product twice, once required and once
      removable, starts with that product on only if the removable copy's
      default is on: the later write wins. */
  lemma {:induction false} DuplicateIdLastWins(a: CompositeIngredient, b: CompositeIngredient)
    requires a.productId == b.productId && a.requirement == Required && b.requirement == Removable && !b.isDefault
    ensures !InitialSelections([a, b])[a.productId]
    ensures !RequiredOn([a, b], InitialSelections([a, b]))
  {
    assert [a, b][..1] == [a];
    assert [a][..0] == [];
    assert [a, b][0] == a;
  }

  /** `handleIngredientToggle`: a required ingredient cannot be toggled; any
      other flips its entry, a missing entry counting as off. */
  function Toggled(sel: map<Id, bool>, id: Id, req: Requirement): (r: map<Id, bool>)
    ensures req == Required ==> r == sel
    ensures req != Required ==> r.Keys == sel.Keys + {id} && r[id] == !(id in sel && sel[id])
    ensures forall q | q in sel && q != id :: q in r && r[q] == sel[q]
  {
    if req == Required then sel else sel[id := !(id in sel && sel[id])]
  }

  /** Toggling an ingredient that has an entry twice restores the selection. */
  lemma {:induction false} ToggleTwice(sel: map<Id, bool>, id: Id, req: Requirement)
    requires id in sel
    ensures Toggled(Toggled(sel, id, req), id, req) == sel
  {
    if req != Required {
      var once := Toggled(sel, id, req);
      assert once[id] == !sel[id];
      assert Toggled(once, id, req)[id] == sel[id];
    }
  }

  /** An ingredient the dialog lists under that requirement. */
  predicate OnRecipe(ings: seq<CompositeIngredient>, id: Id, req: Requirement) {
    exists k :: 0 <= k < |ings| && ings[k].productId == id && ings[k].requirement == req
  }

  /** Toggling a listed ingredient never turns a required one off (ids distinct). */
  lemma {:induction false} ToggleKeepsRequired(ings: seq<CompositeIngredient>, sel: map<Id, bool>, id: Id, req: Requirement)
    requires DistinctIngredientIds(ings) && RequiredOn(ings, sel) && OnRecipe(ings, id, req)
    ensures RequiredOn(ings, Toggled(sel, id, req))
    ensures Covers(ings, sel) ==> Covers(ings, Toggled(sel, id, req))
  {
    var j :| 0 <= j < |ings| && ings[j].productId == id && ings[j].requirement == req;
    forall k | 0 <= k < |ings| && ings[k].requirement == Required
      ensures ings[k].productId in Toggled(sel, id, req) && Toggled(sel, id, req)[ings[k].productId]
    {
      if req != Required {
        assert k != j;
      }
    }
  }

  /** The included flag `handleAdd` reads: the entry, or the default when there is none. */
  function IncludedIn(sel: map<Id, bool>, ing: CompositeIngredient): bool {
    if ing.productId in sel then sel[ing.productId] else ing.isDefault
  }

  /** The `SelectedIngredient[]` snapshot handed to the cart. */
  function Snapshot(ings: seq<CompositeIngredient>, sel: map<Id, bool>): (r: seq<SelectedIngredient>)
    ensures |r| == |ings|
    ensures forall k :: 0 <= k < |ings| ==>
      r[k].productId == ings[k].productId && r[k].productName == ings[k].productName &&
      r[k].quantity == ings[k].quantity && r[k].measureUnit == ings[k].measureUnit
    ensures RequiredOn(ings, sel) ==> forall k :: 0 <= k < |ings| && ings[k].requirement == Required ==> r[k].included
    ensures Covers(ings, sel) ==> forall k :: 0 <= k < |ings| ==> r[k].included == sel[ings[k].productId]
  {
    seq(|ings|, k requires 0 <= k < |ings| =>
      SelectedIngredient(ings[k].productId, ings[k].productName, ings[k].quantity, ings[k].measureUnit,
                         IncludedIn(sel, ings[k])))
  }

  function TypeName(kind: CompositeType): string {
    match kind
    case Lanche => "lanche"
    case Porcao => "porcao"
    case Dose => "dose"
  }

  /** The cart-compatible product built from the composite: its category is
      the composite type's name, its product type "whole". */
  function VirtualProduct(c: CompositeProduct): (p: Product)
    ensures p.id == c.id && p.name == c.name && p.price == c.price
    ensures p.category == Named(TypeName(c.kind)) && p.productType == Some(Whole)
    ensures p.needsPreparation == Some(c.needsPreparation) && p.active == Some(c.active)
  {
    Product(c.id, c.name, c.description, c.price, None, Named(TypeName(c.kind)), Some(Whole),
            Some(c.active), Some(c.needsPreparation), None, None, None)
  }

  /** The initial `forEach`: one map write per ingredient, in recipe order. */
  method BuildSelections(ings: seq<CompositeIngredient>) returns (initial: map<Id, bool>)
    ensures initial == InitialSelections(ings)
  {
    initial := map[];
    var i := 0;
    while i < |ings|
      invariant 0 <= i <= |ings|
      invariant initial == InitialSelections(ings[..i])
    {
      assert ings[..i + 1][..i] == ings[..i];
      initial := initial[ings[i].productId := StartsIncluded(ings[i])];
      i := i + 1;
    }
    assert ings[..i] == ings;
  }

  /** The dialog's state: the product shown and its `quantity`,
      `observation` and `ingredientSelections`. */
  class ItemForm {
    var product: CompositeProduct
    var quantity: int
    var observation: string
    var selections: map<Id, bool>

    /** The quantity is at least 1, every recipe ingredient has an entry and,
        when the recipe's ids are distinct, every required entry is on. */
    predicate Valid()
      reads this
    {
      quantity >= 1 && Covers(product.ingredients, selections) &&
      (DistinctIngredientIds(product.ingredients) ==> RequiredOn(product.ingredients, selections))
    }

    constructor (p: CompositeProduct)
      ensures product == p && quantity == 1 && observation == ""
      ensures selections == InitialSelections(p.ingredients) && Valid()
    {
      product := p;
      quantity := 1;
      observation := "";
      selections := map[];
      new;
      Reset(p);
    }

    /** The reset run when the product changes: the initial selections again,
        quantity 1 and an empty observation. */
    method Reset(p: CompositeProduct)
      modifies this
      ensures product == p && quantity == 1 && observation == ""
      ensures selections == InitialSelections(p.ingredients) && Valid()
    {
      var initial := BuildSelections(p.ingredients);
      product := p;
      selections := initial;
      quantity := 1;
      observation := "";
      if DistinctIngredientIds(p.ingredients) {
        InitialValues(p.ingredients);
      }
    }

    method ToggleIngredient(productId: Id, requirement: Requirement)
      modifies this
      ensures selections == Toggled(old(selections), productId, requirement)
      ensures product == old(product) && quantity == old(quantity) && observation == old(observation)
      ensures old(Valid()) && OnRecipe(product.ingredients, productId, requirement) ==> Valid()
    {
      if old(Valid()) && OnRecipe(product.ingredients, productId, requirement) && DistinctIngredientIds(product.ingredients) {
        ToggleKeepsRequired(product.ingredients, selections, productId, requirement);
      }
      if requirement == Required {
        return;
      }
      selections := selections[productId := !(productId in selections && selections[productId])];
    }

    method SetObservation(text: string)
      modifies this
      ensures observation == text
      ensures product == old(product) && quantity == old(quantity) && selections == old(selections)
      ensures old(Valid()) ==> Valid()
    {
      observation := text;
    }

    method IncrementQuantity()
      modifies this
      ensures quantity == old(quantity) + 1
      ensures product == old(product) && observation == old(observation) && selections == old(selections)
      ensures old(Valid()) ==> Valid()
    {
      quantity := quantity + 1;
    }

    /** `Math.max(1, q - 1)`: never below 1. */
    method DecrementQuantity()
      modifies this
      ensures quantity >= 1
      ensures old(quantity) > 1 ==> quantity == old(quantity) - 1
      ensures old(quantity) <= 1 ==> quantity == 1
      ensures product == old(product) && observation == old(observation) && selections == old(selections)
      ensures old(Valid()) ==> Valid()
    {
      quantity := if quantity - 1 > 1 then quantity - 1 else 1;
    }

    /** `handleAdd`: one new composite line, whatever the cart holds, with the
        snapshot of the selections; then quantity and observation reset. */
    method Add(cart: CustomerCart.Cart)
      modifies this, cart
      ensures cart.items == CustomerCart.WithItemAdded(old(cart.items), VirtualProduct(product), old(quantity),
                                                      old(observation), true, Some(product.id),
                                                      Some(Snapshot(product.ingredients, selections)))
      ensures |cart.items| == |old(cart.items)| + 1 && cart.items[..|old(cart.items)|] == old(cart.items)
      ensures cart.items[|old(cart.items)|].isComposite && cart.items[|old(cart.items)|].compositeId == Some(product.id)
      ensures cart.items[|old(cart.items)|].quantity == old(quantity)
      ensures old(Valid()) && DistinctIngredientIds(product.ingredients) ==>
        forall k :: 0 <= k < |product.ingredients| && product.ingredients[k].requirement == Required ==>
          cart.items[|old(cart.items)|].selectedIngredients.value[k].included
      ensures product == old(product) && selections == old(selections) && quantity == 1 && observation == ""
      ensures old(Valid()) ==> Valid()
    {
      var snapshot := Snapshot(product.ingredients, selections);
      cart.AddItem(VirtualProduct(product), quantity, observation, true, Some(product.id), Some(snapshot));
      quantity := 1;
      observation := "";
    }
  }
}
