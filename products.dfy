/** The product catalog (`src/contexts/ProductsContext.tsx`): products and
    categories, their edits, and the filters the screens read. */
module Products {
  import opened Common
  import opened Types

  /** `Omit<Product, "id">`. */
  datatype ProductDraft = ProductDraft(
    name: string,
    description: string,
    price: real,
    costPrice: Option<real>,
    category: Id,
    productType: Option<ProductType>,
    active: Option<bool>,
    needsPreparation: Option<bool>,
    measureUnit: Option<Unit>,
    unitVolume: Option<real>,
    stockUnits: Option<real>)

  /** `Partial<Product>`. An optional field can also be present as `undefined`: `Set(None)`. */
  datatype ProductPatch = ProductPatch(
    id: Patch<Id>,
    name: Patch<string>,
    description: Patch<string>,
    price: Patch<real>,
    costPrice: Patch<Option<real>>,
    category: Patch<Id>,
    productType: Patch<Option<ProductType>>,
    active: Patch<Option<bool>>,
    needsPreparation: Patch<Option<bool>>,
    measureUnit: Patch<Option<Unit>>,
    unitVolume: Patch<Option<real>>,
    stockUnits: Patch<Option<real>>)

  datatype CategoryPatch = CategoryPatch(id: Patch<Id>, name: Patch<string>, icon: Patch<Option<string>>)

  function NewProduct(d: ProductDraft, serial: nat): Product {
    Product(Fresh("product", serial), d.name, d.description, d.price, d.costPrice, d.category, d.productType,
            d.active, d.needsPreparation, d.measureUnit, d.unitVolume, d.stockUnits)
  }

  function NewCategory(name: string, icon: Option<string>, serial: nat): Category {
    Category(Fresh("category", serial), name, icon)
  }

  /** `{ ...product, ...productData }`. */
  function PatchedProduct(p: Product, u: ProductPatch): Product {
    Product(u.id.Apply(p.id), u.name.Apply(p.name), u.description.Apply(p.description), u.price.Apply(p.price),
            u.costPrice.Apply(p.costPrice), u.category.Apply(p.category), u.productType.Apply(p.productType),
            u.active.Apply(p.active), u.needsPreparation.Apply(p.needsPreparation), u.measureUnit.Apply(p.measureUnit),
            u.unitVolume.Apply(p.unitVolume), u.stockUnits.Apply(p.stockUnits))
  }

  function PatchedCategory(c: Category, u: CategoryPatch): Category {
    Category(u.id.Apply(c.id), u.name.Apply(c.name), u.icon.Apply(c.icon))
  }

  /** `products.find(p => p.id === id)`, as the screens look products up. */
  function FindProduct(products: seq<Product>, id: Id): (r: Option<Product>)
    ensures r.None? <==> forall p | p in products :: p.id != id
    ensures r.Some? ==> r.value in products && r.value.id == id
  {
    Find(products, (p: Product) => p.id == id)
  }

  /** `updateProduct`. */
  function ProductUpdated(products: seq<Product>, id: Id, u: ProductPatch): seq<Product> {
    MapWhere(products, (p: Product) => p.id == id, (p: Product) => PatchedProduct(p, u))
  }

  /** `deleteProduct`. */
  function ProductDeleted(products: seq<Product>, id: Id): (r: seq<Product>)
    ensures forall p | p in r :: p in products && p.id != id
    ensures forall p | p in products && p.id != id :: p in r
  {
    Filter(products, (p: Product) => p.id != id)
  }

  /** `categories.find(c => c.id === id)`, as the stock screen resolves a product's category. */
  function FindCategory(categories: seq<Category>, id: Id): (r: Option<Category>)
    ensures r.None? <==> forall c | c in categories :: c.id != id
    ensures r.Some? ==> r.value in categories && r.value.id == id
  {
    Find(categories, (c: Category) => c.id == id)
  }

  /** `updateCategory`. */
  function CategoryUpdated(categories: seq<Category>, id: Id, u: CategoryPatch): seq<Category> {
    MapWhere(categories, (c: Category) => c.id == id, (c: Category) => PatchedCategory(c, u))
  }

  /** `deleteCategory`, the categories side. */
  function CategoryDeleted(categories: seq<Category>, id: Id): (r: seq<Category>)
    ensures forall c | c in r :: c in categories && c.id != id
    ensures forall c | c in categories && c.id != id :: c in r
  {
    Filter(categories, (c: Category) => c.id != id)
  }

  /** `getProductsByCategory`; also the products side of `deleteCategory`, negated. */
  function ProductsByCategory(products: seq<Product>, categoryId: Id): (r: seq<Product>)
    ensures forall p | p in r :: p in products && p.category == categoryId
    ensures forall p | p in products && p.category == categoryId :: p in r
  {
    Filter(products, (p: Product) => p.category == categoryId)
  }

  /** `deleteCategory`, the products side. */
  function OutsideCategory(products: seq<Product>, categoryId: Id): (r: seq<Product>)
    ensures forall p | p in r :: p in products && p.category != categoryId
    ensures forall p | p in products && p.category != categoryId :: p in r
  {
    Filter(products, (p: Product) => p.category != categoryId)
  }

  /** `getWholeProducts`. */
  function WholeProducts(products: seq<Product>): seq<Product> {
    Filter(products, (p: Product) => p.productType == Some(Whole))
  }

  /** `getFractionalProducts`. */
  function FractionalProducts(products: seq<Product>): seq<Product> {
    Filter(products, (p: Product) => p.productType == Some(Fractional))
  }

  /** `getActiveProducts`: only an explicit `false` hides a product. */
  function ActiveProducts(products: seq<Product>): seq<Product> {
    Filter(products, (p: Product) => p.active != Some(false))
  }

  /** The whole and fractional filters are disjoint; a product without a type is in neither. */
  lemma {:induction false} TypeFilters(products: seq<Product>)
    ensures forall p | p in WholeProducts(products) :: p !in FractionalProducts(products)
    ensures forall p | p in products && p.productType.None? :: p !in WholeProducts(products) && p !in FractionalProducts(products)
    ensures forall p | p in products :: (p in WholeProducts(products) <==> p.productType == Some(Whole))
    ensures forall p | p in products :: (p in FractionalProducts(products) <==> p.productType == Some(Fractional))
  {
  }

  /** A product is listed as active unless its flag is explicitly `false`, so a
      missing flag counts as active. */
  lemma {:induction false} ActiveDefault(products: seq<Product>)
    ensures forall p | p in products :: (p in ActiveProducts(products) <==> p.active != Some(false))
    ensures forall p | p in products && p.active.None? :: p in ActiveProducts(products)
  {
  }

  /** Every product's category is one of the categories. */
  predicate CategoriesResolve(products: seq<Product>, categories: seq<Category>) {
    forall p | p in products :: exists c :: c in categories && c.id == p.category
  }

  /** `deleteCategory` leaves no product in the deleted category, keeps every
      other product and category, and so keeps every product's category present. */
  lemma {:induction false} DeleteCategoryCascade(products: seq<Product>, categories: seq<Category>, id: Id)
    ensures forall p | p in OutsideCategory(products, id) :: p.category != id
    ensures forall c | c in CategoryDeleted(categories, id) :: c.id != id
    ensures CategoriesResolve(products, categories) ==>
              CategoriesResolve(OutsideCategory(products, id), CategoryDeleted(categories, id))
  {
    if CategoriesResolve(products, categories) {
      forall p | p in OutsideCategory(products, id)
        ensures exists c :: c in CategoryDeleted(categories, id) && c.id == p.category
      {
        var c :| c in categories && c.id == p.category;
        assert c in CategoryDeleted(categories, id);
      }
    }
  }

  /** `addProduct` finds the new product under its id and changes no earlier lookup. */
  lemma {:induction false} AddLookups(products: seq<Product>, x: Product, q: Id)
    requires forall p | p in products :: p.id != x.id
    ensures FindProduct(products + [x], q) == if q == x.id then Some(x) else FindProduct(products, q)
  {
    FindAppend(products, x, (p: Product) => p.id == q);
  }

  /** `updateProduct` (without a new id) merges into the product with that id only. */
  lemma {:induction false} UpdateLookups(products: seq<Product>, id: Id, u: ProductPatch, q: Id)
    requires u.id.Keep?
    ensures q == id ==> FindProduct(ProductUpdated(products, id, u), q) ==
                        if FindProduct(products, id).Some? then Some(PatchedProduct(FindProduct(products, id).value, u)) else None
    ensures q != id ==> FindProduct(ProductUpdated(products, id, u), q) == FindProduct(products, q)
  {
    var f := (p: Product) => p.id == id;
    var h := (p: Product) => PatchedProduct(p, u);
    if q == id {
      FindMapSame(products, f, h);
    } else {
      FindMapOther(products, f, h, (p: Product) => p.id == q);
    }
  }

  /** An update that keeps the id keeps every product's id, so no handed-out
      id rises above the counter. */
  lemma {:induction false} UpdateKeepsFresh(before: seq<Product>, id: Id, u: ProductPatch, next: nat)
    requires u.id.Keep?
    requires forall p | p in before && p.id.Fresh? && p.id.prefix == "product" :: p.id.serial < next
    ensures forall p | p in ProductUpdated(before, id, u) && p.id.Fresh? && p.id.prefix == "product" :: p.id.serial < next
  {
    var after := ProductUpdated(before, id, u);
    forall p | p in after && p.id.Fresh? && p.id.prefix == "product" ensures p.id.serial < next {
      var k :| 0 <= k < |after| && after[k] == p;
      assert before[k] in before;
    }
  }

  /** `updateCategory` (without a new id) merges into the category with that
      id only, and every product's category still resolves. */
  lemma {:induction false} CategoryUpdateLookups(categories: seq<Category>, products: seq<Product>, id: Id, u: CategoryPatch, q: Id)
    requires u.id.Keep?
    ensures q == id ==> FindCategory(CategoryUpdated(categories, id, u), q) ==
                        if FindCategory(categories, id).Some? then Some(PatchedCategory(FindCategory(categories, id).value, u)) else None
    ensures q != id ==> FindCategory(CategoryUpdated(categories, id, u), q) == FindCategory(categories, q)
    ensures CategoriesResolve(products, categories) ==> CategoriesResolve(products, CategoryUpdated(categories, id, u))
  {
    var f := (c: Category) => c.id == id;
    var h := (c: Category) => PatchedCategory(c, u);
    if q == id {
      FindMapSame(categories, f, h);
    } else {
      FindMapOther(categories, f, h, (c: Category) => c.id == q);
    }
    var after := CategoryUpdated(categories, id, u);
    if CategoriesResolve(products, categories) {
      forall p | p in products ensures exists c :: c in after && c.id == p.category {
        var c :| c in categories && c.id == p.category;
        var k :| 0 <= k < |categories| && categories[k] == c;
        assert after[k] in after && after[k].id == c.id;
      }
    }
  }

  /** An update that keeps the id keeps every category's id. */
  lemma {:induction false} CategoryUpdateKeepsFresh(before: seq<Category>, id: Id, u: CategoryPatch, next: nat)
    requires u.id.Keep?
    requires forall c | c in before && c.id.Fresh? && c.id.prefix == "category" :: c.id.serial < next
    ensures forall c | c in CategoryUpdated(before, id, u) && c.id.Fresh? && c.id.prefix == "category" :: c.id.serial < next
  {
    var after := CategoryUpdated(before, id, u);
    forall c | c in after && c.id.Fresh? && c.id.prefix == "category" ensures c.id.serial < next {
      var k :| 0 <= k < |after| && after[k] == c;
      assert before[k] in before;
    }
  }

  /** `deleteProduct` removes the id from every lookup and keeps every other. */
  lemma {:induction false} DeleteLookups(products: seq<Product>, id: Id, q: Id)
    ensures FindProduct(ProductDeleted(products, id), id) == None
    ensures q != id ==> FindProduct(ProductDeleted(products, id), q) == FindProduct(products, q)
  {
    if q != id {
      FindFilter(products, (p: Product) => p.id == q, (p: Product) => p.id != id);
    }
  }

  /** The provider's `products` and `categories` state; the initial lists come
      from the static menu data and are passed in. */
  class Catalog {
    var products: seq<Product>
    var categories: seq<Category>
    var nextProduct: nat
    var nextCategory: nat

    /** No id handed out is above its counter. */
    predicate Valid()
      reads this
    {
      (forall p | p in products && p.id.Fresh? && p.id.prefix == "product" :: p.id.serial < nextProduct) &&
      (forall c | c in categories && c.id.Fresh? && c.id.prefix == "category" :: c.id.serial < nextCategory)
    }

    constructor (initialProducts: seq<Product>, initialCategories: seq<Category>)
      requires forall p | p in initialProducts :: p.id.Named?
      requires forall c | c in initialCategories :: c.id.Named?
      ensures products == initialProducts && categories == initialCategories
      ensures nextProduct == 0 && nextCategory == 0 && Valid()
    {
      products := initialProducts;
      categories := initialCategories;
      nextProduct := 0;
      nextCategory := 0;
    }

    /** `addProduct`: one new product at the end, under an id no product had. */
    method AddProduct(d: ProductDraft)
      requires Valid()
      modifies this
      ensures products == old(products) + [NewProduct(d, old(nextProduct))]
      ensures forall p | p in old(products) :: p.id != NewProduct(d, old(nextProduct)).id
      ensures categories == old(categories) && nextProduct == old(nextProduct) + 1
      ensures nextCategory == old(nextCategory) && Valid()
    {
      products := products + [NewProduct(d, nextProduct)];
      nextProduct := nextProduct + 1;
    }

    method UpdateProduct(id: Id, u: ProductPatch)
      modifies this
      ensures products == ProductUpdated(old(products), id, u)
      ensures categories == old(categories) && nextProduct == old(nextProduct) && nextCategory == old(nextCategory)
      ensures old(Valid()) && u.id.Keep? ==> Valid()
    {
      if Valid() && u.id.Keep? {
        UpdateKeepsFresh(products, id, u, nextProduct);
      }
      products := ProductUpdated(products, id, u);
    }

    method DeleteProduct(id: Id)
      requires Valid()
      modifies this
      ensures products == ProductDeleted(old(products), id)
      ensures categories == old(categories) && nextProduct == old(nextProduct) && nextCategory == old(nextCategory)
      ensures Valid()
    {
      products := ProductDeleted(products, id);
    }

    /** `addCategory`. */
    method AddCategory(name: string, icon: Option<string>)
      requires Valid()
      modifies this
      ensures categories == old(categories) + [NewCategory(name, icon, old(nextCategory))]
      ensures forall c | c in old(categories) :: c.id != NewCategory(name, icon, old(nextCategory)).id
      ensures products == old(products) && nextCategory == old(nextCategory) + 1
      ensures nextProduct == old(nextProduct) && Valid()
    {
      categories := categories + [NewCategory(name, icon, nextCategory)];
      nextCategory := nextCategory + 1;
    }

    method UpdateCategory(id: Id, u: CategoryPatch)
      modifies this
      ensures categories == CategoryUpdated(old(categories), id, u)
      ensures products == old(products) && nextProduct == old(nextProduct) && nextCategory == old(nextCategory)
      ensures old(Valid()) && u.id.Keep? ==> Valid()
      ensures u.id.Keep? && old(CategoriesResolve(products, categories)) ==> CategoriesResolve(products, categories)
    {
      if Valid() && u.id.Keep? {
        CategoryUpdateKeepsFresh(categories, id, u, nextCategory);
      }
      if u.id.Keep? {
        CategoryUpdateLookups(categories, products, id, u, id);
      }
      categories := CategoryUpdated(categories, id, u);
    }

    /** `deleteCategory`: the category goes, and every product filed under it. */
    method DeleteCategory(id: Id)
      requires Valid()
      modifies this
      ensures categories == CategoryDeleted(old(categories), id)
      ensures products == OutsideCategory(old(products), id)
      ensures nextProduct == old(nextProduct) && nextCategory == old(nextCategory)
      ensures old(CategoriesResolve(products, categories)) ==> CategoriesResolve(products, categories)
      ensures Valid()
    {
      DeleteCategoryCascade(products, categories, id);
      categories := CategoryDeleted(categories, id);
      products := OutsideCategory(products, id);
    }
  }
}
