/** The portion administration screen (`src/components/admin/AdminPortions.tsx`):
    the form's ingredient rows and its save rules. */
module PortionAdmin {
  import opened Common
  import opened Types
  import opened Products
  import opened Portions

  /** `PortionFormData`. */
  datatype PortionForm = PortionForm(
    name: string,
    description: string,
    price: NumberField,
    category: Id,
    active: bool,
    ingredients: seq<PortionIngredient>)

  /** At most one row per product. */
  predicate DistinctRows(ings: seq<PortionIngredient>) {
    forall i, j :: 0 <= i < j < |ings| ==> ings[i].productId != ings[j].productId
  }

  predicate HasRow(ings: seq<PortionIngredient>, id: Id) {
    exists k :: 0 <= k < |ings| && ings[k].productId == id
  }

  // ---------------------------------------------------------------- ingredient rows

  /** How `handleAddIngredient` ends. */
  datatype AddRow = NotFractional | AlreadyAdded | RowAdded

  /** The row a fractional product starts with: nothing consumed yet, in the
      product's unit or grams. */
  function NewRow(p: Product): (row: PortionIngredient)
    ensures row.productId == p.id && row.productName == p.name && row.consumeAmount == 0.0
    ensures row.unit == (if p.measureUnit.Some? then p.measureUnit.value else G)
  {
    PortionIngredient(p.id, p.name, 0.0, p.measureUnit.GetOr(G))
  }

  /** `handleAddIngredient` against the catalog's fractional products. */
  function RowsAdded(ings: seq<PortionIngredient>, products: seq<Product>, id: Id): (r: (AddRow, seq<PortionIngredient>)) {
    match FindProduct(FractionalProducts(products), id)
    case None => (NotFractional, ings)
    case Some(p) => if HasRow(ings, id) then (AlreadyAdded, ings) else (RowAdded, ings + [NewRow(p)])
  }

  /** An id that is no fractional product, or already has a row, changes
      nothing; otherwise exactly one row for a fractional catalog product with
      that id is appended. */
  lemma {:induction false} RowsAddedSpec(ings: seq<PortionIngredient>, products: seq<Product>, id: Id)
    ensures RowsAdded(ings, products, id).0 == NotFractional <==>
              forall p | p in products :: !(p.id == id && p.productType == Some(Fractional))
    ensures RowsAdded(ings, products, id).0 == AlreadyAdded ==> HasRow(ings, id)
    ensures RowsAdded(ings, products, id).0 != RowAdded ==> RowsAdded(ings, products, id).1 == ings
    ensures RowsAdded(ings, products, id).0 == RowAdded ==>
              !HasRow(ings, id) &&
              exists p :: p in products && p.id == id && p.productType == Some(Fractional) &&
                          RowsAdded(ings, products, id).1 == ings + [NewRow(p)]
  {
    var fr := FractionalProducts(products);
    var r := FindProduct(fr, id);
    assert forall p | p in products && p.productType == Some(Fractional) :: p in fr;
    if r.Some? {
      assert r.value in products;
    }
  }

  /** Adding keeps one row per product, and the product then has a row. */
  lemma {:induction false} RowsAddedDistinct(ings: seq<PortionIngredient>, products: seq<Product>, id: Id)
    requires DistinctRows(ings)
    ensures DistinctRows(RowsAdded(ings, products, id).1)
    ensures RowsAdded(ings, products, id).0 != NotFractional ==> HasRow(RowsAdded(ings, products, id).1, id)
  {
    var r := RowsAdded(ings, products, id);
    if r.0 == RowAdded {
      var s := r.1;
      assert s[|ings|].productId == id;
      forall i, j | 0 <= i < j < |s| ensures s[i].productId != s[j].productId {
        if j == |ings| {
          assert s[i] == ings[i];
        }
      }
    }
  }

  /** `handleUpdateIngredientAmount`. */
  function AmountSet(ings: seq<PortionIngredient>, id: Id, amount: real): (r: seq<PortionIngredient>)
    ensures |r| == |ings|
    ensures forall k :: 0 <= k < |ings| ==> r[k].productId == ings[k].productId
    ensures forall k :: 0 <= k < |ings| && ings[k].productId == id ==> r[k] == ings[k].(consumeAmount := amount)
    ensures forall k :: 0 <= k < |ings| && ings[k].productId != id ==> r[k] == ings[k]
  {
    seq(|ings|, k requires 0 <= k < |ings| => if ings[k].productId == id then ings[k].(consumeAmount := amount) else ings[k])
  }

  /** `handleRemoveIngredient`. */
  function RowsRemoved(ings: seq<PortionIngredient>, id: Id): (r: seq<PortionIngredient>)
    ensures !HasRow(r, id)
  {
    var r := Filter(ings, (i: PortionIngredient) => i.productId != id);
    assert forall k :: 0 <= k < |r| ==> r[k] in r;
    r
  }

  /** Removing keeps every other row, in order, and one row per product. */
  lemma {:induction false} RowsRemovedSpec(ings: seq<PortionIngredient>, id: Id)
    ensures forall row | row in RowsRemoved(ings, id) :: row in ings && row.productId != id
    ensures forall row | row in ings && row.productId != id :: row in RowsRemoved(ings, id)
    ensures DistinctRows(ings) ==> DistinctRows(RowsRemoved(ings, id))
  {
    var f := (i: PortionIngredient) => i.productId != id;
    var r := (a: PortionIngredient, b: PortionIngredient) => a.productId != b.productId;
    if DistinctRows(ings) {
      assert Pairwise(ings, r);
      FilterPairwise(ings, f, r);
      assert Pairwise(Filter(ings, f), r);
    }
  }

  /** Removing a row just added gives back the rows before the addition. */
  lemma {:induction false} RemoveUndoesAdd(ings: seq<PortionIngredient>, products: seq<Product>, id: Id)
    requires RowsAdded(ings, products, id).0 == RowAdded
    ensures RowsRemoved(RowsAdded(ings, products, id).1, id) == ings
  {
    RowsAddedSpec(ings, products, id);
    var f := (i: PortionIngredient) => i.productId != id;
    var p :| p in products && p.id == id && p.productType == Some(Fractional) &&
             RowsAdded(ings, products, id).1 == ings + [NewRow(p)];
    FilterConcat(ings, [NewRow(p)], f);
    assert Filter([NewRow(p)], f) == [] by {
      assert Filter([NewRow(p)], f) == (if f(NewRow(p)) then [NewRow(p)] else []) + Filter([NewRow(p)][1..], f);
    }
    forall x | x in ings ensures f(x) {
      var k :| 0 <= k < |ings| && ings[k] == x;
    }
    FilterAll(ings, f);
  }

  // ---------------------------------------------------------------- saving

  /** Why `handleSave` stops, or that it goes on. */
  datatype SaveCheck = MissingFields | NoIngredients | Accepted

  function CheckForm(f: PortionForm): (r: SaveCheck)
    ensures r == Accepted <==> f.name != "" && f.price.Num? && f.category != NoId && f.ingredients != []
    ensures r == MissingFields <==> f.name == "" || f.price.Blank? || f.category == NoId
  {
    if f.name == "" || f.price.Blank? || f.category == NoId then MissingFields
    else if |f.ingredients| == 0 then NoIngredients
    else Accepted
  }

  /** `portionData`. */
  function PortionData(f: PortionForm): PortionDraft {
    PortionDraft(f.name, f.description, if f.price.Num? then f.price.value else 0.0, f.category, f.active, f.ingredients)
  }

  /** `updatePortion` receives every field but the id. */
  function AsPatch(d: PortionDraft): PortionPatch {
    PortionPatch(Keep, Set(d.name), Set(d.description), Set(d.price), Set(d.category), Set(d.active), Set(d.ingredients))
  }

  /** Saving an edit overwrites every field of the edited portion but its id. */
  lemma {:induction false} EditOverwrites(p: Portion, f: PortionForm)
    ensures Patched(p, AsPatch(PortionData(f))) ==
            NewPortion(PortionData(f), 0).(id := p.id)
  {
  }

  /** The screen's dialog state. */
  class PortionScreen {
    var form: PortionForm
    var editing: Option<Portion>
    var showModal: bool

    /** The form keeps one row per product. */
    predicate Valid()
      reads this
    {
      DistinctRows(form.ingredients)
    }

    constructor ()
      ensures form == PortionForm("", "", Blank, NoId, true, []) && editing.None? && !showModal
      ensures Valid()
    {
      form := PortionForm("", "", Blank, NoId, true, []);
      editing := None;
      showModal := false;
    }

    method AddIngredient(products: seq<Product>, productId: Id) returns (outcome: AddRow)
      modifies this
      ensures (outcome, form.ingredients) == RowsAdded(old(form.ingredients), products, productId)
      ensures form == old(form).(ingredients := form.ingredients)
      ensures editing == old(editing) && showModal == old(showModal)
      ensures old(Valid()) ==> Valid()
    {
      if Valid() {
        RowsAddedDistinct(form.ingredients, products, productId);
      }
      var r := RowsAdded(form.ingredients, products, productId);
      outcome := r.0;
      form := form.(ingredients := r.1);
    }

    method UpdateIngredientAmount(productId: Id, amount: real)
      modifies this
      ensures form == old(form).(ingredients := AmountSet(old(form.ingredients), productId, amount))
      ensures editing == old(editing) && showModal == old(showModal)
      ensures old(Valid()) ==> Valid()
    {
      form := form.(ingredients := AmountSet(form.ingredients, productId, amount));
    }

    method RemoveIngredient(productId: Id)
      modifies this
      ensures form == old(form).(ingredients := RowsRemoved(old(form.ingredients), productId))
      ensures editing == old(editing) && showModal == old(showModal)
      ensures old(Valid()) ==> Valid()
    {
      RowsRemovedSpec(form.ingredients, productId);
      form := form.(ingredients := RowsRemoved(form.ingredients, productId));
    }

    /** `handleSave`: a rejected form changes nothing; an accepted one updates
        the portion being edited, or adds a new one, and the dialog closes. */
    method Save(registry: PortionRegistry) returns (check: SaveCheck)
      requires registry.Valid()
      modifies this, registry
      ensures check == CheckForm(form)
      ensures form == old(form) && editing == old(editing)
      ensures check != Accepted ==> showModal == old(showModal) && unchanged(registry)
      ensures check == Accepted && editing.Some? ==>
                registry.portions == PortionUpdated(old(registry.portions), editing.value.id, AsPatch(PortionData(form))) &&
                registry.nextSerial == old(registry.nextSerial)
      ensures check == Accepted && editing.None? ==>
                registry.portions == old(registry.portions) + [NewPortion(PortionData(form), old(registry.nextSerial))] &&
                registry.nextSerial == old(registry.nextSerial) + 1
      ensures check == Accepted ==> !showModal
      ensures registry.Valid()
    {
      check := CheckForm(form);
      if check != Accepted {
        return;
      }
      if editing.Some? {
        registry.UpdatePortion(editing.value.id, AsPatch(PortionData(form)));
      } else {
        registry.AddPortion(PortionData(form));
      }
      showModal := false;
    }
  }
}
