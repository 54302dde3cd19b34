/** The counter-side dialog that picks a composite product's ingredients
    before it goes into the counter cart
    (`src/components/admin/IngredientSelectionModal.tsx`). */
module IngredientModal {
  import opened Common
  import opened Types
  import Js
  import CompositeItemModal

  /** Same product, name, amount and unit as the recipe, position by position. */
  predicate Mirrors(ings: seq<CompositeIngredient>, s: seq<SelectedIngredient>) {
    |s| == |ings| &&
    forall k :: 0 <= k < |ings| ==>
      s[k].productId == ings[k].productId && s[k].productName == ings[k].productName &&
      s[k].quantity == ings[k].quantity && s[k].measureUnit == ings[k].measureUnit
  }

  /** Every required ingredient's entry is at the recipe default. */
  predicate RequiredAtDefault(ings: seq<CompositeIngredient>, s: seq<SelectedIngredient>) {
    forall k :: 0 <= k < |ings| && k < |s| && ings[k].requirement == Required ==> s[k].included == ings[k].isDefault
  }

  /** The list the dialog starts from when it opens. */
  function Opened(ings: seq<CompositeIngredient>): (r: seq<SelectedIngredient>)
    ensures Mirrors(ings, r)
    ensures forall k :: 0 <= k < |ings| ==> r[k].included == ings[k].isDefault
  {
    seq(|ings|, k requires 0 <= k < |ings| =>
      SelectedIngredient(ings[k].productId, ings[k].productName, ings[k].quantity, ings[k].measureUnit, ings[k].isDefault))
  }

  /** `handleToggleIngredient`: every entry with that product id flips. */
  function Flipped(s: seq<SelectedIngredient>, id: Id): (r: seq<SelectedIngredient>)
    ensures |r| == |s|
    ensures forall k :: 0 <= k < |s| && s[k].productId == id ==> r[k] == s[k].(included := !s[k].included)
    ensures forall k :: 0 <= k < |s| && s[k].productId != id ==> r[k] == s[k]
  {
    MapWhere(s, (x: SelectedIngredient) => x.productId == id, (x: SelectedIngredient) => x.(included := !x.included))
  }

  /** Two toggles of the same product restore the list. */
  lemma {:induction false} FlipTwice(s: seq<SelectedIngredient>, id: Id)
    ensures Flipped(Flipped(s, id), id) == s
  {
    var r := Flipped(Flipped(s, id), id);
    assert forall k :: 0 <= k < |s| ==> r[k] == s[k];
  }

  /** Toggling keeps the list a mirror of the recipe. */
  lemma {:induction false} FlipMirrors(ings: seq<CompositeIngredient>, s: seq<SelectedIngredient>, id: Id)
    requires Mirrors(ings, s)
    ensures Mirrors(ings, Flipped(s, id))
  {
  }

  /** `canToggle`. */
  predicate CanToggle(ing: CompositeIngredient) {
    ing.requirement != Required
  }

  /** A product whose checkbox is enabled: some recipe ingredient with that id can be toggled. */
  predicate ToggleableId(ings: seq<CompositeIngredient>, id: Id) {
    exists k :: 0 <= k < |ings| && ings[k].productId == id && CanToggle(ings[k])
  }

  /** The checkbox of a required ingredient is disabled, and nothing else
      changes its entry, so it stays at the recipe default (ids distinct). */
  lemma {:induction false} FlipKeepsRequired(ings: seq<CompositeIngredient>, s: seq<SelectedIngredient>, id: Id)
    requires CompositeItemModal.DistinctIngredientIds(ings) && Mirrors(ings, s)
    requires RequiredAtDefault(ings, s) && ToggleableId(ings, id)
    ensures RequiredAtDefault(ings, Flipped(s, id))
  {
    var j :| 0 <= j < |ings| && ings[j].productId == id && CanToggle(ings[j]);
    forall k | 0 <= k < |ings| && ings[k].requirement == Required
      ensures Flipped(s, id)[k].included == ings[k].isDefault
    {
      assert k != j;
      assert s[k].productId != id;
    }
  }

  /** `removedIngredients`: exactly the entries not included, in list order. */
  function RemovedIngredients(s: seq<SelectedIngredient>): (r: seq<SelectedIngredient>)
    ensures forall x | x in r :: x in s && !x.included
    ensures forall x | x in s && !x.included :: x in r
  {
    Filter(s, (x: SelectedIngredient) => !x.included)
  }

  /** Unlike the customer dialog, this one does not force a required
      ingredient on: a required ingredient whose default is off opens off
      here and on there. */
  lemma {:induction false} RequiredNotForcedOn(ing: CompositeIngredient)
    requires ing.requirement == Required && !ing.isDefault
    ensures !Opened([ing])[0].included
    ensures CompositeItemModal.Snapshot([ing], CompositeItemModal.InitialSelections([ing]))[0].included
  {
    var m := CompositeItemModal.InitialSelections([ing]);
    assert [ing][..0] == [];
    assert m == map[ing.productId := true];
  }

  /** The dialog's state: the product and its `quantity`, `observation` and
      `selectedIngredients`. */
  class SelectionDialog {
    var product: CompositeProduct
    var quantity: int
    var observation: string
    var selected: seq<SelectedIngredient>

    predicate Valid()
      reads this
    {
      quantity >= 1 && Mirrors(product.ingredients, selected)
    }

    constructor (p: CompositeProduct)
      ensures product == p && selected == Opened(p.ingredients) && quantity == 1 && observation == ""
      ensures Valid() && RequiredAtDefault(product.ingredients, selected)
    {
      product := p;
      selected := Opened(p.ingredients);
      quantity := 1;
      observation := "";
    }

    /** The reset run whenever the dialog opens on a product. */
    method Open(p: CompositeProduct)
      modifies this
      ensures product == p && selected == Opened(p.ingredients) && quantity == 1 && observation == ""
      ensures Valid() && RequiredAtDefault(product.ingredients, selected)
    {
      product := p;
      selected := Opened(p.ingredients);
      quantity := 1;
      observation := "";
    }

    method ToggleIngredient(productId: Id)
      modifies this
      ensures selected == Flipped(old(selected), productId)
      ensures product == old(product) && quantity == old(quantity) && observation == old(observation)
      ensures old(Valid()) ==> Valid()
      ensures old(Valid()) && old(RequiredAtDefault(product.ingredients, selected)) &&
              CompositeItemModal.DistinctIngredientIds(product.ingredients) && ToggleableId(product.ingredients, productId) ==>
                RequiredAtDefault(product.ingredients, selected)
    {
      if Valid() {
        FlipMirrors(product.ingredients, selected, productId);
        if RequiredAtDefault(product.ingredients, selected) &&
           CompositeItemModal.DistinctIngredientIds(product.ingredients) && ToggleableId(product.ingredients, productId) {
          FlipKeepsRequired(product.ingredients, selected, productId);
        }
      }
      selected := Flipped(selected, productId);
    }

    method SetObservation(text: string)
      modifies this
      ensures observation == text
      ensures product == old(product) && quantity == old(quantity) && selected == old(selected)
    {
      observation := text;
    }

    method IncrementQuantity()
      modifies this
      ensures quantity == old(quantity) + 1
      ensures product == old(product) && observation == old(observation) && selected == old(selected)
      ensures old(Valid()) ==> Valid()
    {
      quantity := quantity + 1;
    }

    /** `Math.max(1, quantity - 1)`: never below 1. */
    method DecrementQuantity()
      modifies this
      ensures quantity >= 1
      ensures old(quantity) > 1 ==> quantity == old(quantity) - 1
      ensures old(quantity) <= 1 ==> quantity == 1
      ensures product == old(product) && observation == old(observation) && selected == old(selected)
      ensures old(Valid()) ==> Valid()
    {
      quantity := if quantity - 1 > 1 then quantity - 1 else 1;
    }

    /** `handleConfirm`: the current list, the trimmed observation and the quantity. */
    method Confirm() returns (ingredients: seq<SelectedIngredient>, note: string, count: int)
      ensures ingredients == selected && note == Js.Trim(observation) && count == quantity
      ensures Valid() ==> count >= 1 && Mirrors(product.ingredients, ingredients)
    {
      ingredients := selected;
      note := Js.Trim(observation);
      count := quantity;
    }
  }
}
