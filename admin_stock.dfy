/** The stock administration screen (`src/components/admin/AdminStock.tsx`):
    the product form's save rules, the stock and threshold inputs, and the
    per-product stock status. */
module StockAdmin {
  import opened Common
  import opened Types
  import opened Stock
  import opened Products

  // ---------------------------------------------------------------- the product form

  /** `ProductFormData`: the text inputs as the browser reports them. */
  datatype ProductForm = ProductForm(
    name: string,
    description: string,
    price: NumberField,
    costPrice: NumberField,
    category: Id,
    productType: ProductType,
    measureUnit: Unit,
    unitVolume: NumberField,
    stockUnits: NumberField,
    active: bool)

  /** Why `handleSaveProduct` stops, or that it goes on. */
  datatype SaveCheck = MissingRequired | MissingPrice | MissingVolume | Accepted

  /** The three guards of `handleSaveProduct`, in order. An empty text field
      is falsy; a field holding `"0"` is not. */
  function CheckForm(f: ProductForm): (r: SaveCheck)
    ensures r == Accepted <==>
              f.name != "" && f.category != NoId &&
              (f.productType == Whole ==> f.price.Num?) &&
              (f.productType == Fractional ==> f.unitVolume.Num? && f.stockUnits.Num?)
    ensures r == MissingRequired <==> f.name == "" || f.category == NoId
  {
    if f.name == "" || f.category == NoId then MissingRequired
    else if f.productType == Whole && f.price.Blank? then MissingPrice
    else if f.productType == Fractional && (f.unitVolume.Blank? || f.stockUnits.Blank?) then MissingVolume
    else Accepted
  }

  /** `parseFloat(text) || undefined`: a blank or zero cost is no cost. */
  function CostOrUndefined(x: NumberField): Option<real> {
    if x.Num? && x.value != 0.0 then Some(x.value) else None
  }

  /** `parseFloat(text)` of a field the guards have checked is not blank. */
  function Parsed(x: NumberField): real {
    if x.Num? then x.value else 0.0
  }

  /** The `productData` object: the listed keys always, the three volume keys
      only for a fractional product. An absent key is `Keep`. */
  function ProductData(f: ProductForm): ProductPatch {
    var fractional := f.productType == Fractional;
    ProductPatch(
      Keep, Set(f.name), Set(f.description), Set(f.price.OrZero()), Set(CostOrUndefined(f.costPrice)),
      Set(f.category), Set(Some(f.productType)), Set(Some(f.active)), Keep,
      if fractional then Set(Some(f.measureUnit)) else Keep,
      if fractional then Set(Some(Parsed(f.unitVolume))) else Keep,
      if fractional then Set(Some(Parsed(f.stockUnits))) else Keep)
  }

  /** The object as `addProduct` receives it: an absent key reads as `undefined`. */
  function AsDraft(u: ProductPatch): ProductDraft {
    ProductDraft(
      u.name.Apply(""), u.description.Apply(""), u.price.Apply(0.0), u.costPrice.Apply(None),
      u.category.Apply(NoId), u.productType.Apply(None), u.active.Apply(None), u.needsPreparation.Apply(None),
      u.measureUnit.Apply(None), u.unitVolume.Apply(None), u.stockUnits.Apply(None))
  }

  /** A new product saved from an accepted form: the form's name, category,
      type and flag; the price, or 0 when blank; the volume fields exactly
      when fractional, taken from the form; and no preparation flag. */
  lemma {:induction false} NewProductFields(f: ProductForm)
    requires CheckForm(f) == Accepted
    ensures AsDraft(ProductData(f)).name == f.name && AsDraft(ProductData(f)).category == f.category
    ensures AsDraft(ProductData(f)).productType == Some(f.productType) && AsDraft(ProductData(f)).active == Some(f.active)
    ensures AsDraft(ProductData(f)).price == (if f.price.Num? then f.price.value else 0.0)
    ensures f.productType == Whole ==> AsDraft(ProductData(f)).price == f.price.value
    ensures AsDraft(ProductData(f)).costPrice.Some? ==> AsDraft(ProductData(f)).costPrice.value != 0.0
    ensures AsDraft(ProductData(f)).measureUnit.Some? <==> f.productType == Fractional
    ensures AsDraft(ProductData(f)).unitVolume.Some? <==> f.productType == Fractional
    ensures AsDraft(ProductData(f)).stockUnits.Some? <==> f.productType == Fractional
    ensures f.productType == Fractional ==>
              AsDraft(ProductData(f)).measureUnit == Some(f.measureUnit) &&
              AsDraft(ProductData(f)).unitVolume == Some(f.unitVolume.value) &&
              AsDraft(ProductData(f)).stockUnits == Some(f.stockUnits.value)
    ensures AsDraft(ProductData(f)).needsPreparation.None?
  {
  }

  /** Editing a product into a whole one sends no volume keys, so the
      product keeps whatever volume fields it had. */
  lemma {:induction false} EditToWholeKeepsVolume(p: Product, f: ProductForm)
    requires CheckForm(f) == Accepted && f.productType == Whole
    ensures PatchedProduct(p, ProductData(f)).unitVolume == p.unitVolume
    ensures PatchedProduct(p, ProductData(f)).stockUnits == p.stockUnits
    ensures PatchedProduct(p, ProductData(f)).measureUnit == p.measureUnit
    ensures PatchedProduct(p, ProductData(f)).productType == Some(Whole)
    ensures PatchedProduct(p, ProductData(f)).id == p.id
  {
  }

  // ---------------------------------------------------------------- stock inputs

  /** `product.unitVolume || 1`. */
  function VolumeOr1(p: Product): (v: real)
    ensures v != 0.0
    ensures Truthy(p.unitVolume) ==> v == p.unitVolume.value
  {
    if Truthy(p.unitVolume) then p.unitVolume.value else 1.0
  }

  /** What `handleStockChange` stores: units times the unit volume for a
      fractional product, the units themselves otherwise. */
  function EnteredStock(value: NumberField, p: Product): real {
    var qty := value.OrZero();
    if p.productType == Some(Fractional) then qty * VolumeOr1(p) else qty
  }

  /** `stock.find(s => s.productId === product.id)`. */
  function EntryFor(items: seq<StockItem>, id: Id): (r: Option<StockItem>)
    ensures r.None? <==> !HasEntry(items, id)
    ensures r.Some? ==> r.value.productId == id && r.value.quantity == Available(items, id)
  {
    var k := FirstIndex(items, id);
    if k < |items| then Some(items[k]) else None
  }

  /** `getStockUnitsForInput`: the value the stock input shows. */
  function StockUnitsForInput(p: Product, entry: Option<StockItem>): real {
    if entry.None? then 0.0
    else if p.productType == Some(Fractional) && Truthy(p.unitVolume) then entry.value.quantity / p.unitVolume.value
    else entry.value.quantity
  }

  /** Typing `u` into a product's stock input and reading the input back
      gives `u` (0 for a blank input), for every product with a ledger entry:
      the volume factor is 1 exactly when the read-back does not divide. */
  lemma {:induction false} StockInputRoundTrip(items: seq<StockItem>, p: Product, value: NumberField)
    requires HasEntry(items, p.id)
    ensures StockUnitsForInput(p, EntryFor(Overwritten(items, p.id, EnteredStock(value, p)), p.id)) == value.OrZero()
  {
    var after := Overwritten(items, p.id, EnteredStock(value, p));
    var k := FirstIndex(items, p.id);
    assert after[k].productId == p.id;
    assert FirstIndex(after, p.id) == k by {
      FirstIndexUnique(after, p.id, k);
    }
    assert after[k].quantity == EnteredStock(value, p);
  }

  /** Without a ledger entry, the stock input writes nothing and shows 0. */
  lemma {:induction false} StockInputUnknown(items: seq<StockItem>, p: Product, value: NumberField)
    requires !HasEntry(items, p.id)
    ensures Overwritten(items, p.id, EnteredStock(value, p)) == items
    ensures StockUnitsForInput(p, EntryFor(items, p.id)) == 0.0
  {
    var after := Overwritten(items, p.id, EnteredStock(value, p));
    assert forall k :: 0 <= k < |items| ==> after[k] == items[k];
  }

  // ---------------------------------------------------------------- stock status

  /** The `status` of `getStockDisplay`. */
  datatype StockLevel = Normal | Low | Empty

  /** `getStockDisplay` without the display string: the value shown and the
      status. Both branches of the source classify the stored quantity alike. */
  function StockDisplay(p: Product, entry: Option<StockItem>): (real, StockLevel) {
    if entry.None? then (0.0, Normal)
    else
      var q := entry.value.quantity;
      (q, if q == 0.0 then Empty else if q <= entry.value.minQuantity then Low else Normal)
  }

  /** The screen flags an entry (empty or low) exactly when the low-stock
      query lists it, given a non-negative threshold; a product without an
      entry shows 0 and is never flagged. */
  lemma {:induction false} StatusAgreesWithLowStock(items: seq<StockItem>, p: Product)
    requires forall e | e in items :: e.minQuantity >= 0.0
    ensures EntryFor(items, p.id).None? ==> StockDisplay(p, EntryFor(items, p.id)) == (0.0, Normal)
    ensures EntryFor(items, p.id).Some? ==>
              (StockDisplay(p, EntryFor(items, p.id)).1 != Normal <==> EntryFor(items, p.id).value in LowStockItems(items))
    ensures EntryFor(items, p.id).Some? ==>
              (StockDisplay(p, EntryFor(items, p.id)).1 == Empty <==> Available(items, p.id) == 0.0)
  {
    var r := EntryFor(items, p.id);
    if r.Some? {
      assert r.value == items[FirstIndex(items, p.id)];
      assert r.value in items;
    }
  }

  /** The screen's editing state and the two ledger inputs. */
  class StockScreen {
    var form: ProductForm
    var editing: Option<Product>
    var showProductModal: bool

    constructor (f: ProductForm)
      ensures form == f && editing.None? && !showProductModal
    {
      form := f;
      editing := None;
      showProductModal := false;
    }

    /** `handleSaveProduct`: a rejected form changes nothing; an accepted
        one updates the product being edited, or adds a new one, and the
        dialog closes. */
    method SaveProduct(catalog: Catalog) returns (check: SaveCheck)
      requires catalog.Valid()
      modifies this, catalog
      ensures check == CheckForm(form)
      ensures form == old(form) && editing == old(editing)
      ensures check != Accepted ==>
                showProductModal == old(showProductModal) && unchanged(catalog)
      ensures check == Accepted && editing.Some? ==>
                catalog.products == ProductUpdated(old(catalog.products), editing.value.id, ProductData(form)) &&
                catalog.nextProduct == old(catalog.nextProduct)
      ensures check == Accepted && editing.None? ==>
                catalog.products == old(catalog.products) + [NewProduct(AsDraft(ProductData(form)), old(catalog.nextProduct))] &&
                catalog.nextProduct == old(catalog.nextProduct) + 1
      ensures check == Accepted ==>
                !showProductModal && catalog.categories == old(catalog.categories) &&
                catalog.nextCategory == old(catalog.nextCategory)
      ensures catalog.Valid()
    {
      check := CheckForm(form);
      if check != Accepted {
        return;
      }
      var data := ProductData(form);
      if editing.Some? {
        catalog.UpdateProduct(editing.value.id, data);
      } else {
        catalog.AddProduct(AsDraft(data));
      }
      showProductModal := false;
    }

    /** `handleStockChange`. */
    method StockChange(ledger: StockLedger, productId: Id, value: NumberField, product: Product)
      modifies ledger
      ensures ledger.items == Overwritten(old(ledger.items), productId, EnteredStock(value, product))
    {
      ledger.UpdateStock(productId, EnteredStock(value, product));
    }

    /** `handleMinQtyChange`: unparsable input counts as 0. */
    method MinQtyChange(ledger: StockLedger, productId: Id, value: NumberField)
      modifies ledger
      ensures ledger.items == WithMinQuantity(old(ledger.items), productId, value.OrZero())
    {
      ledger.SetMinQuantity(productId, value.OrZero());
    }
  }
}
