/** The portion registry (`src/contexts/PortionsContext.tsx`): counter-sold
    portions, each consuming fixed amounts of fractional stock. */
module Portions {
  import opened Common
  import opened Types

  /** `Omit<Portion, "id">`, what `addPortion` receives. */
  datatype PortionDraft = PortionDraft(
    name: string,
    description: string,
    price: real,
    category: Id,
    active: bool,
    ingredients: seq<PortionIngredient>)

  /** `Partial<Portion>`: each field present or absent. */
  datatype PortionPatch = PortionPatch(
    id: Patch<Id>,
    name: Patch<string>,
    description: Patch<string>,
    price: Patch<real>,
    category: Patch<Id>,
    active: Patch<bool>,
    ingredients: Patch<seq<PortionIngredient>>)

  function NewPortion(d: PortionDraft, serial: nat): Portion {
    Portion(Fresh("portion", serial), d.name, d.description, d.price, d.category, d.active, d.ingredients)
  }

  /** `{ ...portion, ...portionData }`. */
  function Patched(p: Portion, u: PortionPatch): Portion {
    Portion(u.id.Apply(p.id), u.name.Apply(p.name), u.description.Apply(p.description), u.price.Apply(p.price),
            u.category.Apply(p.category), u.active.Apply(p.active), u.ingredients.Apply(p.ingredients))
  }

  /** `getPortionById`. */
  function FindPortion(portions: seq<Portion>, id: Id): (r: Option<Portion>)
    ensures r.None? <==> forall p | p in portions :: p.id != id
    ensures r.Some? ==> r.value in portions && r.value.id == id
  {
    Find(portions, (p: Portion) => p.id == id)
  }

  /** `updatePortion`. */
  function PortionUpdated(portions: seq<Portion>, id: Id, u: PortionPatch): seq<Portion> {
    MapWhere(portions, (p: Portion) => p.id == id, (p: Portion) => Patched(p, u))
  }

  /** `deletePortion`. */
  function PortionDeleted(portions: seq<Portion>, id: Id): (r: seq<Portion>)
    ensures forall p | p in r :: p in portions && p.id != id
    ensures forall p | p in portions && p.id != id :: p in r
  {
    Filter(portions, (p: Portion) => p.id != id)
  }

  /** `getActivePortions`. */
  function ActivePortions(portions: seq<Portion>): (r: seq<Portion>)
    ensures forall p | p in r :: p in portions && p.active
    ensures forall p | p in portions && p.active :: p in r
  {
    Filter(portions, (p: Portion) => p.active)
  }

  /** After `addPortion`, every earlier lookup is unchanged and the new id finds the new portion. */
  lemma {:induction false} AddLookups(portions: seq<Portion>, x: Portion, q: Id)
    requires forall p | p in portions :: p.id != x.id
    ensures FindPortion(portions + [x], q) == if q == x.id then Some(x) else FindPortion(portions, q)
  {
    FindAppend(portions, x, (p: Portion) => p.id == q);
  }

  /** `updatePortion` (without a new id) merges the patch into the portion with
      that id, as every lookup then sees, and no other lookup changes. */
  lemma {:induction false} UpdateLookups(portions: seq<Portion>, id: Id, u: PortionPatch, q: Id)
    requires u.id.Keep?
    ensures q == id ==> FindPortion(PortionUpdated(portions, id, u), q) ==
                        if FindPortion(portions, id).Some? then Some(Patched(FindPortion(portions, id).value, u)) else None
    ensures q != id ==> FindPortion(PortionUpdated(portions, id, u), q) == FindPortion(portions, q)
  {
    var f := (p: Portion) => p.id == id;
    var h := (p: Portion) => Patched(p, u);
    if q == id {
      FindMapSame(portions, f, h);
    } else {
      FindMapOther(portions, f, h, (p: Portion) => p.id == q);
    }
  }

  /** After `deletePortion` the id finds nothing, and every other id finds what it found before. */
  lemma {:induction false} DeleteLookups(portions: seq<Portion>, id: Id, q: Id)
    ensures FindPortion(PortionDeleted(portions, id), id) == None
    ensures q != id ==> FindPortion(PortionDeleted(portions, id), q) == FindPortion(portions, q)
  {
    if q != id {
      FindFilter(portions, (p: Portion) => p.id == q, (p: Portion) => p.id != id);
    }
  }

  function SeedIngredient(id: string, name: string, amount: real, unit: Unit): PortionIngredient {
    PortionIngredient(Named(id), name, amount, unit)
  }

  /** The three demonstration portions. */
  function SeedPortions(): seq<Portion> {
    [ Portion(Named("portion-batata-p"), "Batata P c/ Cheddar", "Porção pequena de batata com cheddar", 14.0,
              Named("batata"), true,
              [ SeedIngredient("batata-congelada", "Batata Congelada", 200.0, G),
                SeedIngredient("cheddar-liquido", "Cheddar Líquido", 40.0, Ml) ]),
      Portion(Named("portion-batata-m"), "Batata M c/ Cheddar e Bacon", "Porção média de batata com cheddar e bacon", 20.0,
              Named("batata"), true,
              [ SeedIngredient("batata-congelada", "Batata Congelada", 350.0, G),
                SeedIngredient("cheddar-liquido", "Cheddar Líquido", 60.0, Ml),
                SeedIngredient("bacon-picado", "Bacon Picado", 30.0, G) ]),
      Portion(Named("portion-batata-g"), "Batata G c/ Cheddar e Bacon", "Porção grande de batata com cheddar e bacon", 28.0,
              Named("batata"), true,
              [ SeedIngredient("batata-congelada", "Batata Congelada", 500.0, G),
                SeedIngredient("cheddar-liquido", "Cheddar Líquido", 100.0, Ml),
                SeedIngredient("bacon-picado", "Bacon Picado", 50.0, G) ]) ]
  }

  /** Every id handed out by the registry has a serial below its counter. */
  predicate FreshBelow(portions: seq<Portion>, next: nat) {
    forall p | p in portions && p.id.Fresh? && p.id.prefix == "portion" :: p.id.serial < next
  }

  /** Active, with a named id and a non-empty recipe of positive amounts. */
  predicate SeedPortionShaped(p: Portion) {
    p.active && |p.ingredients| > 0 && p.id.Named? &&
    forall j :: 0 <= j < |p.ingredients| ==> p.ingredients[j].consumeAmount > 0.0
  }

  lemma {:induction false} SeedPortionsEach()
    ensures forall p | p in SeedPortions() :: SeedPortionShaped(p)
  {
    var s := SeedPortions();
    assert SeedPortionShaped(s[0]);
    assert SeedPortionShaped(s[1]);
    assert SeedPortionShaped(s[2]);
  }

  /** No seed portion carries a fresh id. */
  lemma {:induction false} SeedPortionsFresh()
    ensures FreshBelow(SeedPortions(), 0)
  {
    var s := SeedPortions();
    assert s[0].id.Named? && s[1].id.Named? && s[2].id.Named?;
  }

  /** The seed portions are all active, with named ids and a non-empty recipe of positive amounts. */
  lemma {:induction false} SeedPortionsShape()
    ensures FreshBelow(SeedPortions(), 0)
    ensures forall p | p in SeedPortions() :: p.active && |p.ingredients| > 0 && p.id.Named?
    ensures forall p, i | p in SeedPortions() && i in p.ingredients :: i.consumeAmount > 0.0
    ensures ActivePortions(SeedPortions()) == SeedPortions()
  {
    SeedPortionsFresh();
    SeedPortionsEach();
    forall p, i | p in SeedPortions() && i in p.ingredients ensures i.consumeAmount > 0.0 {
      var j :| 0 <= j < |p.ingredients| && p.ingredients[j] == i;
    }
    FilterAll(SeedPortions(), (p: Portion) => p.active);
  }

  /** The provider's `portions` state; `nextSerial` stands for `Date.now()` in new ids. */
  class PortionRegistry {
    var portions: seq<Portion>
    var nextSerial: nat

    predicate Valid()
      reads this
    {
      FreshBelow(portions, nextSerial)
    }

    constructor ()
      ensures portions == SeedPortions() && nextSerial == 0 && Valid()
    {
      portions := SeedPortions();
      nextSerial := 0;
      SeedPortionsFresh();
    }

    /** `addPortion`: one new portion at the end, under an id no portion had. */
    method AddPortion(d: PortionDraft)
      requires Valid()
      modifies this
      ensures portions == old(portions) + [NewPortion(d, old(nextSerial))]
      ensures forall p | p in old(portions) :: p.id != NewPortion(d, old(nextSerial)).id
      ensures nextSerial == old(nextSerial) + 1 && Valid()
    {
      portions := portions + [NewPortion(d, nextSerial)];
      nextSerial := nextSerial + 1;
    }

    method UpdatePortion(id: Id, u: PortionPatch)
      modifies this
      ensures portions == PortionUpdated(old(portions), id, u)
      ensures nextSerial == old(nextSerial)
      ensures old(Valid()) && u.id.Keep? ==> Valid()
    {
      ghost var before := portions;
      portions := PortionUpdated(portions, id, u);
      if u.id.Keep? {
        forall p | p in portions ensures p.id.Fresh? && p.id.prefix == "portion" ==> exists q :: q in before && q.id == p.id {
          var k :| 0 <= k < |portions| && portions[k] == p;
          assert before[k] in before;
        }
      }
    }

    method DeletePortion(id: Id)
      requires Valid()
      modifies this
      ensures portions == PortionDeleted(old(portions), id)
      ensures nextSerial == old(nextSerial) && Valid()
    {
      portions := PortionDeleted(portions, id);
    }
  }
}
