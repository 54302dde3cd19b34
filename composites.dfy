/** The composite-product registry (`src/contexts/CompositeProductsContext.tsx`):
    lanches, porções and doses with ingredient recipes. */
module Composites {
  import opened Common
  import opened Types

  /** `Omit<CompositeProduct, "id">`. */
  datatype CompositeDraft = CompositeDraft(
    name: string,
    description: string,
    price: real,
    costPrice: Option<real>,
    kind: CompositeType,
    active: bool,
    needsPreparation: bool,
    ingredients: seq<CompositeIngredient>,
    image: Option<string>)

  /** `Partial<CompositeProduct>`. */
  datatype CompositePatch = CompositePatch(
    id: Patch<Id>,
    name: Patch<string>,
    description: Patch<string>,
    price: Patch<real>,
    costPrice: Patch<Option<real>>,
    kind: Patch<CompositeType>,
    active: Patch<bool>,
    needsPreparation: Patch<bool>,
    ingredients: Patch<seq<CompositeIngredient>>,
    image: Patch<Option<string>>)

  function NewComposite(d: CompositeDraft, serial: nat): CompositeProduct {
    CompositeProduct(Fresh("composite", serial), d.name, d.description, d.price, d.costPrice, d.kind, d.active,
                     d.needsPreparation, d.ingredients, d.image)
  }

  function PatchedComposite(p: CompositeProduct, u: CompositePatch): CompositeProduct {
    CompositeProduct(u.id.Apply(p.id), u.name.Apply(p.name), u.description.Apply(p.description), u.price.Apply(p.price),
                     u.costPrice.Apply(p.costPrice), u.kind.Apply(p.kind), u.active.Apply(p.active),
                     u.needsPreparation.Apply(p.needsPreparation), u.ingredients.Apply(p.ingredients), u.image.Apply(p.image))
  }

  function FindComposite(products: seq<CompositeProduct>, id: Id): (r: Option<CompositeProduct>)
    ensures r.None? <==> forall p | p in products :: p.id != id
    ensures r.Some? ==> r.value in products && r.value.id == id
  {
    Find(products, (p: CompositeProduct) => p.id == id)
  }

  /** `updateCompositeProduct`. */
  function CompositeUpdated(products: seq<CompositeProduct>, id: Id, u: CompositePatch): seq<CompositeProduct> {
    MapWhere(products, (p: CompositeProduct) => p.id == id, (p: CompositeProduct) => PatchedComposite(p, u))
  }

  /** `deleteCompositeProduct`. */
  function CompositeDeleted(products: seq<CompositeProduct>, id: Id): (r: seq<CompositeProduct>)
    ensures forall p | p in r :: p in products && p.id != id
    ensures forall p | p in products && p.id != id :: p in r
  {
    Filter(products, (p: CompositeProduct) => p.id != id)
  }

  function KindIs(kind: CompositeType): CompositeProduct -> bool {
    (p: CompositeProduct) => p.kind == kind
  }

  /** `getByType`. */
  function ByType(products: seq<CompositeProduct>, kind: CompositeType): (r: seq<CompositeProduct>)
    ensures forall p | p in r :: p in products && p.kind == kind
    ensures forall p | p in products && p.kind == kind :: p in r
  {
    Filter(products, KindIs(kind))
  }

  /** `getActiveByType`. */
  function ActiveByType(products: seq<CompositeProduct>, kind: CompositeType): seq<CompositeProduct> {
    Filter(products, (p: CompositeProduct) => p.kind == kind && p.active)
  }

  /** The three types split the list: their sizes add up to the whole. */
  lemma {:induction false} TypesPartition(products: seq<CompositeProduct>)
    ensures |ByType(products, Lanche)| + |ByType(products, Porcao)| + |ByType(products, Dose)| == |products|
  {
    if products != [] {
      TypesPartition(products[1..]);
      var h := products[0];
      assert ByType(products, Lanche) == (if h.kind == Lanche then [h] else []) + ByType(products[1..], Lanche);
      assert ByType(products, Porcao) == (if h.kind == Porcao then [h] else []) + ByType(products[1..], Porcao);
      assert ByType(products, Dose) == (if h.kind == Dose then [h] else []) + ByType(products[1..], Dose);
    }
  }

  /** `getActiveByType` is `getByType` narrowed to the active products, in the same order. */
  lemma {:induction false} ActiveIsFilteredByType(products: seq<CompositeProduct>, kind: CompositeType)
    ensures ActiveByType(products, kind) == Filter(ByType(products, kind), (p: CompositeProduct) => p.active)
  {
    FilterFilter(products, KindIs(kind), (p: CompositeProduct) => p.active,
                 (p: CompositeProduct) => p.kind == kind && p.active);
  }

  lemma {:induction false} AddLookups(products: seq<CompositeProduct>, x: CompositeProduct, q: Id)
    requires forall p | p in products :: p.id != x.id
    ensures FindComposite(products + [x], q) == if q == x.id then Some(x) else FindComposite(products, q)
  {
    FindAppend(products, x, (p: CompositeProduct) => p.id == q);
  }

  /** `updateCompositeProduct` (without a new id) changes only the product with that id. */
  lemma {:induction false} UpdateLookups(products: seq<CompositeProduct>, id: Id, u: CompositePatch, q: Id)
    requires u.id.Keep?
    ensures q == id ==> FindComposite(CompositeUpdated(products, id, u), q) ==
                        if FindComposite(products, id).Some? then Some(PatchedComposite(FindComposite(products, id).value, u)) else None
    ensures q != id ==> FindComposite(CompositeUpdated(products, id, u), q) == FindComposite(products, q)
  {
    var f := (p: CompositeProduct) => p.id == id;
    var h := (p: CompositeProduct) => PatchedComposite(p, u);
    if q == id {
      FindMapSame(products, f, h);
    } else {
      FindMapOther(products, f, h, (p: CompositeProduct) => p.id == q);
    }
  }

  lemma {:induction false} DeleteLookups(products: seq<CompositeProduct>, id: Id, q: Id)
    ensures FindComposite(CompositeDeleted(products, id), id) == None
    ensures q != id ==> FindComposite(CompositeDeleted(products, id), q) == FindComposite(products, q)
  {
    if q != id {
      FindFilter(products, (p: CompositeProduct) => p.id == q, (p: CompositeProduct) => p.id != id);
    }
  }

  function Ing(id: string, name: string, quantity: real, unit: Unit, requirement: Requirement): CompositeIngredient {
    CompositeIngredient(Named(id), name, quantity, unit, requirement, true)
  }

  function Seed(id: string, name: string, description: string, price: real, cost: real, kind: CompositeType,
                ingredients: seq<CompositeIngredient>): CompositeProduct {
    CompositeProduct(Named(id), name, description, price, Some(cost), kind, true, true, ingredients, None)
  }

  /** The demonstration lanches. */
  function SeedLanches(): seq<CompositeProduct> {
    [ Seed("lanche-1", "X-Burguer", "Hambúrguer com queijo, alface, tomate e molho especial", 18.0, 8.0, Lanche,
           [ Ing("ing-pao", "Pão de hambúrguer", 1.0, Un, Required),
             Ing("ing-carne", "Hambúrguer 150g", 150.0, G, Required),
             Ing("ing-queijo", "Queijo", 30.0, G, Removable),
             Ing("ing-alface", "Alface", 20.0, G, Removable),
             Ing("ing-tomate", "Tomate", 30.0, G, Removable),
             Ing("ing-molho", "Molho especial", 15.0, Ml, Removable) ]),
      Seed("lanche-2", "X-Bacon", "Hambúrguer com bacon crocante, queijo e cebola caramelizada", 22.0, 10.0, Lanche,
           [ Ing("ing-pao", "Pão de hambúrguer", 1.0, Un, Required),
             Ing("ing-carne", "Hambúrguer 150g", 150.0, G, Required),
             Ing("ing-bacon", "Bacon", 40.0, G, Removable),
             Ing("ing-queijo", "Queijo", 30.0, G, Removable),
             Ing("ing-cebola", "Cebola caramelizada", 25.0, G, Removable) ]) ]
  }

  /** The demonstration porções. */
  function SeedPorcoes(): seq<CompositeProduct> {
    [ Seed("porcao-1", "Batata Frita P", "Porção pequena de batata frita crocante", 15.0, 5.0, Porcao,
           [ Ing("ing-batata", "Batata", 200.0, G, Required),
             Ing("ing-sal", "Sal", 5.0, G, Removable) ]),
      Seed("porcao-2", "Batata com Cheddar", "Batata frita com cheddar cremoso e bacon", 25.0, 10.0, Porcao,
           [ Ing("ing-batata", "Batata", 300.0, G, Required),
             Ing("ing-cheddar", "Cheddar", 80.0, Ml, Removable),
             Ing("ing-bacon", "Bacon", 30.0, G, Removable) ]) ]
  }

  /** The demonstration doses. */
  function SeedDoses(): seq<CompositeProduct> {
    [ Seed("dose-1", "Caipirinha", "Caipirinha tradicional de limão", 16.0, 6.0, Dose,
           [ Ing("ing-cachaca", "Cachaça", 50.0, Ml, Required),
             Ing("ing-limao", "Limão", 1.0, Un, Required),
             Ing("ing-acucar", "Açúcar", 20.0, G, Removable),
             Ing("ing-gelo", "Gelo", 100.0, G, Removable) ]),
      Seed("dose-2", "Mojito", "Drink refrescante com rum, hortelã e limão", 20.0, 8.0, Dose,
           [ Ing("ing-rum", "Rum", 50.0, Ml, Required),
             Ing("ing-hortela", "Hortelã", 10.0, G, Removable),
             Ing("ing-limao", "Limão", 1.0, Un, Required),
             Ing("ing-acucar", "Açúcar", 15.0, G, Removable),
             Ing("ing-agua-gas", "Água com gás", 100.0, Ml, Removable) ]) ]
  }

  /** The initial `compositeProducts`. */
  function SeedComposites(): seq<CompositeProduct> {
    SeedLanches() + SeedPorcoes() + SeedDoses()
  }

  /** What the catalogue promises of a seed product: it needs preparation, is
      active, and every required ingredient starts included. */
  predicate SeedShaped(p: CompositeProduct) {
    p.needsPreparation && p.active && p.id.Named? &&
    forall j :: 0 <= j < |p.ingredients| ==> p.ingredients[j].requirement == Required ==> p.ingredients[j].isDefault
  }

  /** Every product of one type, shaped as the catalogue promises. */
  predicate SeedGroup(s: seq<CompositeProduct>, kind: CompositeType) {
    forall k :: 0 <= k < |s| ==> s[k].kind == kind && SeedShaped(s[k])
  }

  lemma {:induction false} SeedLanchesGroup()
    ensures SeedGroup(SeedLanches(), Lanche)
  {
  }

  lemma {:induction false} SeedPorcoesGroup()
    ensures SeedGroup(SeedPorcoes(), Porcao)
  {
  }

  lemma {:induction false} SeedDosesGroup()
    ensures SeedGroup(SeedDoses(), Dose)
  {
  }

  /** A list of one type contributes all of itself to that type and nothing to the others. */
  lemma {:induction false} GroupByType(s: seq<CompositeProduct>, kind: CompositeType, other: CompositeType)
    requires SeedGroup(s, kind) && other != kind
    ensures ByType(s, kind) == s && ByType(s, other) == []
  {
    FilterAll(s, KindIs(kind));
    FilterNone(s, KindIs(other));
  }

  lemma {:induction false} ByTypeConcat(a: seq<CompositeProduct>, b: seq<CompositeProduct>, kind: CompositeType)
    ensures ByType(a + b, kind) == ByType(a, kind) + ByType(b, kind)
  {
    FilterConcat(a, b, KindIs(kind));
  }

  lemma {:induction false} SeedGroupShaped(s: seq<CompositeProduct>, kind: CompositeType)
    requires SeedGroup(s, kind)
    ensures forall x | x in s :: SeedShaped(x)
  {
    forall x | x in s ensures SeedShaped(x) {
      var k :| 0 <= k < |s| && s[k] == x;
    }
  }

  /** The group of `kind` among three single-type lists is the list of that type. */
  lemma {:induction false} PickGroup(l: seq<CompositeProduct>, p: seq<CompositeProduct>, d: seq<CompositeProduct>, kind: CompositeType)
    requires SeedGroup(l, Lanche) && SeedGroup(p, Porcao) && SeedGroup(d, Dose)
    ensures ByType(l + p + d, kind) == (match kind case Lanche => l case Porcao => p case Dose => d)
  {
    ByTypeConcat(l + p, d, kind);
    ByTypeConcat(l, p, kind);
    match kind
    case Lanche =>
      GroupByType(l, Lanche, Porcao);
      GroupByType(p, Porcao, Lanche);
      GroupByType(d, Dose, Lanche);
      assert ByType(l + p + d, kind) == l + [] + [];
    case Porcao =>
      GroupByType(l, Lanche, Porcao);
      GroupByType(p, Porcao, Lanche);
      GroupByType(d, Dose, Porcao);
      assert ByType(l + p + d, kind) == [] + p + [];
    case Dose =>
      GroupByType(l, Lanche, Dose);
      GroupByType(p, Porcao, Dose);
      GroupByType(d, Dose, Lanche);
      assert ByType(l + p + d, kind) == [] + [] + d;
  }

  /** Three single-type lists, concatenated: each type's query gives back its list. */
  lemma {:induction false} ThreeGroups(l: seq<CompositeProduct>, p: seq<CompositeProduct>, d: seq<CompositeProduct>)
    requires SeedGroup(l, Lanche) && SeedGroup(p, Porcao) && SeedGroup(d, Dose)
    ensures forall x | x in l + p + d :: SeedShaped(x)
    ensures ByType(l + p + d, Lanche) == l && ByType(l + p + d, Porcao) == p && ByType(l + p + d, Dose) == d
  {
    SeedGroupShaped(l, Lanche);
    SeedGroupShaped(p, Porcao);
    SeedGroupShaped(d, Dose);
    PickGroup(l, p, d, Lanche);
    PickGroup(l, p, d, Porcao);
    PickGroup(l, p, d, Dose);
  }

  /** In the seed catalogue every product needs preparation and every required
      ingredient starts included; there are two of each type. */
  lemma {:induction false} SeedShape()
    ensures forall p | p in SeedComposites() :: SeedShaped(p)
    ensures ByType(SeedComposites(), Lanche) == SeedLanches()
    ensures ByType(SeedComposites(), Porcao) == SeedPorcoes()
    ensures ByType(SeedComposites(), Dose) == SeedDoses()
    ensures |SeedLanches()| == 2 && |SeedPorcoes()| == 2 && |SeedDoses()| == 2
  {
    SeedLanchesGroup();
    SeedPorcoesGroup();
    SeedDosesGroup();
    ThreeGroups(SeedLanches(), SeedPorcoes(), SeedDoses());
  }

  /** Every id handed out by the registry has a serial below its counter. */
  predicate FreshBelow(products: seq<CompositeProduct>, next: nat) {
    forall p | p in products && p.id.Fresh? && p.id.prefix == "composite" :: p.id.serial < next
  }

  lemma {:induction false} SeedFresh()
    ensures FreshBelow(SeedComposites(), 0)
  {
    SeedShape();
  }

  class CompositeRegistry {
    var compositeProducts: seq<CompositeProduct>
    var nextSerial: nat

    predicate Valid()
      reads this
    {
      FreshBelow(compositeProducts, nextSerial)
    }

    constructor ()
      ensures compositeProducts == SeedComposites() && nextSerial == 0 && Valid()
    {
      compositeProducts := SeedComposites();
      nextSerial := 0;
      SeedFresh();
    }

    /** `addCompositeProduct`: one new product at the end, under an id no product had. */
    method AddCompositeProduct(d: CompositeDraft)
      requires Valid()
      modifies this
      ensures compositeProducts == old(compositeProducts) + [NewComposite(d, old(nextSerial))]
      ensures forall p | p in old(compositeProducts) :: p.id != NewComposite(d, old(nextSerial)).id
      ensures nextSerial == old(nextSerial) + 1 && Valid()
    {
      compositeProducts := compositeProducts + [NewComposite(d, nextSerial)];
      nextSerial := nextSerial + 1;
    }

    method UpdateCompositeProduct(id: Id, u: CompositePatch)
      modifies this
      ensures compositeProducts == CompositeUpdated(old(compositeProducts), id, u)
      ensures nextSerial == old(nextSerial)
      ensures old(Valid()) && u.id.Keep? ==> Valid()
    {
      ghost var before := compositeProducts;
      compositeProducts := CompositeUpdated(compositeProducts, id, u);
      if u.id.Keep? {
        forall p | p in compositeProducts
          ensures p.id.Fresh? && p.id.prefix == "composite" ==> exists q :: q in before && q.id == p.id
        {
          var k :| 0 <= k < |compositeProducts| && compositeProducts[k] == p;
          assert before[k] in before;
        }
      }
    }

    method DeleteCompositeProduct(id: Id)
      requires Valid()
      modifies this
      ensures compositeProducts == CompositeDeleted(old(compositeProducts), id)
      ensures nextSerial == old(nextSerial) && Valid()
    {
      compositeProducts := CompositeDeleted(compositeProducts, id);
    }
  }
}
