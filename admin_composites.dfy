/** The composite-product administration screen
    (`src/components/admin/AdminCompositeProducts.tsx`): one screen per
    product type, editing a recipe as a list of ingredient rows. */
module CompositeAdmin {
  import opened Common
  import opened Types
  import Js
  import opened Products
  import opened Composites

  // ---------------------------------------------------------------- ingredient rows

  /** The row `handleAddIngredient` appends: no product yet, one gram,
      removable and on by default. */
  function BlankRow(): CompositeIngredient {
    CompositeIngredient(NoId, "", 1.0, G, Removable, true)
  }

  /** Which field `handleUpdateIngredient` is called for, with its value. */
  datatype RowChange =
    | SetProduct(productId: Id)
    | SetName(productName: string)
    | SetQuantity(quantity: real)
    | SetUnit(measureUnit: Unit)
    | SetRequirement(requirement: Requirement)
    | SetDefault(isDefault: bool)

  /** One row after a change. Choosing a product copies its name and its unit
      (`"un"` when it has none), and an id the catalog lacks leaves the row
      as it was; every other field is simply overwritten. */
  function ChangedRow(row: CompositeIngredient, change: RowChange, products: seq<Product>): CompositeIngredient {
    match change
    case SetProduct(id) =>
      (match FindProduct(products, id)
       case None => row
       case Some(p) => row.(productId := id, productName := p.name, measureUnit := p.measureUnit.GetOr(Un)))
    case SetName(n) => row.(productName := n)
    case SetQuantity(q) => row.(quantity := q)
    case SetUnit(u) => row.(measureUnit := u)
    case SetRequirement(r) => row.(requirement := r)
    case SetDefault(b) => row.(isDefault := b)
  }

  /** `handleUpdateIngredient`: only the row at `index` can change. */
  function RowUpdated(rows: seq<CompositeIngredient>, index: nat, change: RowChange, products: seq<Product>): (r: seq<CompositeIngredient>)
    requires index < |rows|
    ensures |r| == |rows|
    ensures forall k :: 0 <= k < |rows| && k != index ==> r[k] == rows[k]
  {
    rows[index := ChangedRow(rows[index], change, products)]
  }

  /** Picking a catalog product copies its id, name and unit (default
      `"un"`) and keeps the amount, requirement and default; an unknown id
      changes nothing. */
  lemma {:induction false} SetProductSpec(rows: seq<CompositeIngredient>, index: nat, id: Id, products: seq<Product>)
    requires index < |rows|
    ensures (forall p | p in products :: p.id != id) ==> RowUpdated(rows, index, SetProduct(id), products) == rows
    ensures FindProduct(products, id).Some? ==>
              var p, row := FindProduct(products, id).value, RowUpdated(rows, index, SetProduct(id), products)[index];
              p in products && row.productId == id && row.productName == p.name &&
              row.measureUnit == (if p.measureUnit.Some? then p.measureUnit.value else Un) &&
              row.quantity == rows[index].quantity && row.requirement == rows[index].requirement &&
              row.isDefault == rows[index].isDefault
  {
    if forall p | p in products :: p.id != id {
      assert rows[index := rows[index]] == rows;
    }
  }

  /** Any other field change touches that field of that row and nothing else. */
  lemma {:induction false} FieldChangeSpec(rows: seq<CompositeIngredient>, index: nat, change: RowChange, products: seq<Product>)
    requires index < |rows| && !change.SetProduct?
    ensures var row, old_ := RowUpdated(rows, index, change, products)[index], rows[index];
            row.productId == old_.productId &&
            (if change.SetName? then row.productName == change.productName else row.productName == old_.productName) &&
            (if change.SetQuantity? then row.quantity == change.quantity else row.quantity == old_.quantity) &&
            (if change.SetUnit? then row.measureUnit == change.measureUnit else row.measureUnit == old_.measureUnit) &&
            (if change.SetRequirement? then row.requirement == change.requirement else row.requirement == old_.requirement) &&
            (if change.SetDefault? then row.isDefault == change.isDefault else row.isDefault == old_.isDefault)
  {
  }

  /** `handleRemoveIngredient` drops exactly the row at the index, and
      removing the row just added restores the list. */
  lemma {:induction false} RemoveRowSpec(rows: seq<CompositeIngredient>, index: int)
    ensures 0 <= index < |rows| ==> DropIndex(rows, index) == rows[..index] + rows[index + 1..]
    ensures !(0 <= index < |rows|) ==> DropIndex(rows, index) == rows
    ensures DropIndex(rows + [BlankRow()], |rows|) == rows
  {
    DropIndexSpec(rows, index);
    DropIndexSpec(rows + [BlankRow()], |rows|);
    assert (rows + [BlankRow()])[..|rows|] == rows;
  }

  // ---------------------------------------------------------------- saving

  /** `ingredients: formIngredients.filter(i => i.productId)`: rows with no product are dropped. */
  function SavedRows(rows: seq<CompositeIngredient>): (r: seq<CompositeIngredient>)
    ensures forall x | x in r :: x in rows && x.productId != NoId
    ensures forall x | x in rows && x.productId != NoId :: x in r
  {
    Filter(rows, (i: CompositeIngredient) => i.productId != NoId)
  }

  /** A blank row that was never given a product is not saved. */
  lemma {:induction false} BlankRowNotSaved(rows: seq<CompositeIngredient>)
    ensures SavedRows(rows + [BlankRow()]) == SavedRows(rows)
  {
    var f := (i: CompositeIngredient) => i.productId != NoId;
    FilterConcat(rows, [BlankRow()], f);
    assert Filter([BlankRow()], f) == (if f(BlankRow()) then [BlankRow()] else []) + Filter([BlankRow()][1..], f);
  }

  /** Why `handleSave` stops, or that it goes on. */
  datatype SaveCheck = BlankName | BadPrice | Accepted

  function CheckForm(name: string, price: NumberField): (r: SaveCheck)
    ensures r == Accepted <==> Js.Trim(name) != "" && price.Num? && price.value > 0.0
    ensures r == BlankName <==> Js.Trim(name) == ""
  {
    if Js.Trim(name) == "" then BlankName
    else if price.Blank? || price.value <= 0.0 then BadPrice
    else Accepted
  }

  /** The form's state: the product's fields as typed and its rows. */
  datatype CompositeForm = CompositeForm(
    name: string,
    description: string,
    price: NumberField,
    costPrice: NumberField,
    active: bool,
    ingredients: seq<CompositeIngredient>)

  const EmptyForm := CompositeForm("", "", Blank, Blank, true, [])

  /** `productData`. A typed cost, even 0, is kept. */
  function CompositeData(f: CompositeForm, kind: CompositeType): CompositeDraft {
    CompositeDraft(Js.Trim(f.name), Js.Trim(f.description), if f.price.Num? then f.price.value else 0.0,
                   if f.costPrice.Num? then Some(f.costPrice.value) else None,
                   kind, f.active, true, SavedRows(f.ingredients), None)
  }

  /** `updateCompositeProduct` receives every key of `productData`; the image is not among them. */
  function AsPatch(d: CompositeDraft): CompositePatch {
    CompositePatch(Keep, Set(d.name), Set(d.description), Set(d.price), Set(d.costPrice), Set(d.kind),
                   Set(d.active), Set(d.needsPreparation), Set(d.ingredients), Keep)
  }

  /** What an accepted save stores: the trimmed name, a positive price, the
      screen's type, preparation always on, and only rows naming a product.
      An edit keeps the product's id and image. */
  lemma {:induction false} SavedProductSpec(f: CompositeForm, kind: CompositeType, p: CompositeProduct)
    requires CheckForm(f.name, f.price) == Accepted
    ensures var d := CompositeData(f, kind);
            d.name == Js.Trim(f.name) && d.name != "" && d.price == f.price.value && d.price > 0.0 &&
            d.kind == kind && d.needsPreparation && d.image.None? &&
            forall x | x in d.ingredients :: x.productId != NoId
    ensures var e := PatchedComposite(p, AsPatch(CompositeData(f, kind)));
            e.id == p.id && e.image == p.image && e.kind == kind && e.needsPreparation &&
            e.ingredients == SavedRows(f.ingredients)
  {
  }

  /** The screen for one product type. */
  class CompositeScreen {
    const kind: CompositeType
    var form: CompositeForm
    var editing: Option<CompositeProduct>
    var isDialogOpen: bool

    constructor (kind: CompositeType)
      ensures this.kind == kind && form == EmptyForm && editing.None? && !isDialogOpen
    {
      this.kind := kind;
      form := EmptyForm;
      editing := None;
      isDialogOpen := false;
    }

    method AddIngredient()
      modifies this
      ensures form == old(form).(ingredients := old(form.ingredients) + [BlankRow()])
      ensures editing == old(editing) && isDialogOpen == old(isDialogOpen)
    {
      form := form.(ingredients := form.ingredients + [BlankRow()]);
    }

    /** `handleUpdateIngredient`, called by the row at `index`. */
    method UpdateIngredient(index: nat, change: RowChange, products: seq<Product>)
      requires index < |form.ingredients|
      modifies this
      ensures form == old(form).(ingredients := RowUpdated(old(form.ingredients), index, change, products))
      ensures editing == old(editing) && isDialogOpen == old(isDialogOpen)
    {
      form := form.(ingredients := RowUpdated(form.ingredients, index, change, products));
    }

    method RemoveIngredient(index: int)
      modifies this
      ensures form == old(form).(ingredients := DropIndex(old(form.ingredients), index))
      ensures editing == old(editing) && isDialogOpen == old(isDialogOpen)
    {
      form := form.(ingredients := DropIndex(form.ingredients, index));
    }

    /** `handleSave`: a rejected form changes nothing; an accepted one updates
        the product being edited, or adds a new one, then the dialog closes
        and the form is reset. */
    method Save(registry: CompositeRegistry) returns (check: SaveCheck)
      requires registry.Valid()
      modifies this, registry
      ensures check == CheckForm(old(form).name, old(form).price)
      ensures check != Accepted ==>
                form == old(form) && editing == old(editing) && isDialogOpen == old(isDialogOpen) && unchanged(registry)
      ensures check == Accepted && old(editing).Some? ==>
                registry.compositeProducts ==
                  CompositeUpdated(old(registry.compositeProducts), old(editing).value.id, AsPatch(CompositeData(old(form), kind))) &&
                registry.nextSerial == old(registry.nextSerial)
      ensures check == Accepted && old(editing).None? ==>
                registry.compositeProducts ==
                  old(registry.compositeProducts) + [NewComposite(CompositeData(old(form), kind), old(registry.nextSerial))] &&
                registry.nextSerial == old(registry.nextSerial) + 1
      ensures check == Accepted ==> !isDialogOpen && form == EmptyForm && editing.None?
      ensures registry.Valid()
    {
      check := CheckForm(form.name, form.price);
      if check != Accepted {
        return;
      }
      var data := CompositeData(form, kind);
      if editing.Some? {
        registry.UpdateCompositeProduct(editing.value.id, AsPatch(data));
      } else {
        registry.AddCompositeProduct(data);
      }
      isDialogOpen := false;
      form := EmptyForm;
      editing := None;
    }
  }
}
