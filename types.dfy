/** The records the application passes around (the files under `src/types`, plus the
    fields the contexts and screens read that those files leave out). */
module Types {
  import opened Common

  /** Identifiers. Catalog seeds and form values carry a literal string
      (`Named`); every `${prefix}-${Date.now()}` id is a `Fresh` id whose serial
      comes from the owning registry's counter; the counter-cart line id
      `${composite.id}-${Date.now()}` is `Stamped` with the time of the click. */
  datatype Id = Named(name: string) | Fresh(prefix: string, serial: nat) | Stamped(base: Id, stamp: int)

  /** The empty string, used by the forms for "nothing selected". */
  const NoId: Id := Named("")

  datatype Unit = G | Ml | Un
  datatype ProductType = Whole | Fractional
  datatype Requirement = Required | Optional | Removable
  datatype CompositeType = Lanche | Porcao | Dose
  datatype OrderStatus = Preparing | Ready
  datatype OrderType = ComandaOrder | BalcaoOrder
  datatype SaleType = PdvSale | ComandaSale
  datatype PaymentMethod = Dinheiro | Pix | CartaoDebito | CartaoCredito

  /** A catalog product. The optional fields are `undefined` for the seed menu. */
  datatype Product = Product(
    id: Id,
    name: string,
    description: string,
    price: real,
    costPrice: Option<real>,
    category: Id,
    productType: Option<ProductType>,
    active: Option<bool>,
    needsPreparation: Option<bool>,
    measureUnit: Option<Unit>,
    unitVolume: Option<real>,
    stockUnits: Option<real>)

  datatype Category = Category(id: Id, name: string, icon: Option<string>)

  datatype CompositeIngredient = CompositeIngredient(
    productId: Id,
    productName: string,
    quantity: real,
    measureUnit: Unit,
    requirement: Requirement,
    isDefault: bool)

  /** A lanche, porção or dose; `kind` is the source's `type` field. */
  datatype CompositeProduct = CompositeProduct(
    id: Id,
    name: string,
    description: string,
    price: real,
    costPrice: Option<real>,
    kind: CompositeType,
    active: bool,
    needsPreparation: bool,
    ingredients: seq<CompositeIngredient>,
    image: Option<string>)

  /** The per-order snapshot of one recipe ingredient. */
  datatype SelectedIngredient = SelectedIngredient(
    productId: Id,
    productName: string,
    quantity: real,
    measureUnit: Unit,
    included: bool)

  /** A line of the customer cart, also the item type of an order. */
  datatype CartItem = CartItem(
    product: Product,
    quantity: int,
    observation: string,
    isComposite: bool,
    compositeId: Option<Id>,
    selectedIngredients: Option<seq<SelectedIngredient>>)

  datatype Order = Order(
    id: Id,
    comandaNumber: int,
    items: seq<CartItem>,
    status: OrderStatus,
    createdAt: int,
    readyAt: Option<int>,
    orderType: Option<OrderType>)

  datatype StockItem = StockItem(productId: Id, quantity: real, minQuantity: real)

  datatype SaleItem = SaleItem(productId: Id, productName: string, quantity: int, unitPrice: real, total: real)

  /** What a caller passes to `addSale`: a sale without id and timestamp. */
  datatype SaleDraft = SaleDraft(
    items: seq<SaleItem>,
    total: real,
    kind: SaleType,
    comandaNumber: Option<int>,
    paymentMethod: PaymentMethod)

  datatype Sale = Sale(
    id: Id,
    items: seq<SaleItem>,
    total: real,
    kind: SaleType,
    comandaNumber: Option<int>,
    paymentMethod: PaymentMethod,
    createdAt: int)

  datatype PortionIngredient = PortionIngredient(productId: Id, productName: string, consumeAmount: real, unit: Unit)

  datatype Portion = Portion(
    id: Id,
    name: string,
    description: string,
    price: real,
    category: Id,
    active: bool,
    ingredients: seq<PortionIngredient>)

  /** A line of the counter (PDV) cart. */
  datatype PDVCartItem = PDVCartItem(
    productId: Id,
    productName: string,
    unitPrice: real,
    quantity: int,
    isPortion: bool,
    portionId: Option<Id>,
    needsPreparation: bool,
    isComposite: bool,
    compositeId: Option<Id>,
    observation: string,
    selectedIngredients: seq<SelectedIngredient>)

  /** A numeric form field read from an `<input type="number">`: the browser
      reports either the empty string or a well-formed number. */
  datatype NumberField = Blank | Num(value: real) {
    /** `parseFloat(text) || 0`. */
    function OrZero(): real {
      if Num? then value else 0.0
    }
  }

  /** JavaScript truthiness of an optional number (`undefined` and 0 are falsy). */
  predicate Truthy(x: Option<real>) {
    x.Some? && x.value != 0.0
  }
}
