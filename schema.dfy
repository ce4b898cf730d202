/** Optional values, standing for JavaScript's `null` / `undefined`. */
module Wrappers {
  datatype Option<+T> = None | Some(value: T) {
    /** The value, or `default` when there is none (JavaScript's `x || default` on a present, truthy `x`). */
    function GetOr(default: T): T {
      if Some? then value else default
    }
  }
}

/**
 * The persistent entities of the storefront and the database that holds them.
 * Money is an exact `real`; quantities and stock are unbounded integers;
 * dates are instants given as integers (milliseconds).
 */
module Schema {
  import opened Wrappers

  type Id = string

  datatype Role = Admin | Customer

  /** What the session lookup yields for a signed-in user. */
  datatype Session = Session(userId: Id, role: Role)

  datatype Variant = Variant(id: Id, price: real, stock: int)

  /** An order line: the quantity and the unit price snapshot taken at order time. */
  datatype LineItem = LineItem(variantId: Id, quantity: int, price: real)

  datatype DiscountType = Percentage | Fixed

  /**
   * A discount code. The optional fields are the nullable columns; a `Some(0)`
   * in `minAmount` or `maxUses` is kept apart from `None` because the order
   * route tests them for falsiness, which treats 0 like null.
   */
  datatype Discount = Discount(
    id: Id,
    code: string,
    kind: DiscountType,
    value: real,
    minAmount: Option<real>,
    maxUses: Option<int>,
    usedCount: int,
    startDate: Option<int>,
    endDate: Option<int>,
    active: bool)

  datatype OrderStatus = Pending | Processing | Cancelled

  datatype PaymentStatus = PaymentPending | Succeeded | Failed

  datatype Order = Order(
    id: Id,
    userId: Id,
    orderNumber: string,
    items: seq<LineItem>,
    subtotal: real,
    tax: real,
    shipping: real,
    discount: real,
    total: real,
    shippingAddressId: Id,
    discountId: Option<Id>,
    paymentIntentId: Option<string>,
    status: OrderStatus,
    paymentStatus: PaymentStatus,
    createdAt: int)

  /** The natural key of a server-side cart row. */
  datatype CartKey = CartKey(userId: Id, variantId: Id)

  datatype Review = Review(rating: int, approved: bool)

  datatype Product = Product(
    id: Id,
    name: string,
    slug: string,
    description: string,
    basePrice: real,
    categoryId: Id,
    brand: string,
    featured: bool,
    createdAt: int,
    reviews: seq<Review>)

  /** The four tables the checkout flow writes, as one value. */
  datatype Tables = Tables(
    orders: map<Id, Order>,
    variants: map<Id, Variant>,
    discounts: map<Id, Discount>,
    cart: map<CartKey, int>)

  /** Every row is filed under its own primary key, and discount codes are unique. */
  ghost predicate WellKeyed(t: Tables) {
    && (forall k :: k in t.orders ==> t.orders[k].id == k)
    && (forall k :: k in t.variants ==> t.variants[k].id == k)
    && (forall k :: k in t.discounts ==> t.discounts[k].id == k)
    && (forall a, b :: a in t.discounts && b in t.discounts && t.discounts[a].code == t.discounts[b].code ==> a == b)
  }

  /** Filing a row under its own id keeps the tables well keyed. */
  lemma OrderWriteKeepsKeys(t: Tables, o: Order)
    requires WellKeyed(t)
    ensures WellKeyed(t.(orders := t.orders[o.id := o]))
  {
  }

  lemma VariantWriteKeepsKeys(t: Tables, v: Variant)
    requires WellKeyed(t)
    ensures WellKeyed(t.(variants := t.variants[v.id := v]))
  {
  }

  lemma DiscountWriteKeepsKeys(t: Tables, d: Discount)
    requires WellKeyed(t) && d.id in t.discounts && t.discounts[d.id].code == d.code
    ensures WellKeyed(t.(discounts := t.discounts[d.id := d]))
  {
  }

  /** The relational store, one field per table; a cart row maps its key to its quantity. */
  class Database {
    var orders: map<Id, Order>
    var variants: map<Id, Variant>
    var discounts: map<Id, Discount>
    var cart: map<CartKey, int>
    var products: seq<Product>
    var categories: map<Id, string>  // category id to slug
    var addresses: set<Id>           // ids of the stored shipping addresses

    function Snapshot(): (t: Tables)
      reads this
      ensures t.orders == orders && t.variants == variants && t.discounts == discounts && t.cart == cart
    {
      Tables(orders, variants, discounts, cart)
    }

    ghost predicate Valid()
      reads this
    {
      WellKeyed(Snapshot())
    }

    constructor ()
      ensures Valid()
      ensures orders == map[] && variants == map[] && discounts == map[] && cart == map[]
      ensures products == [] && categories == map[] && addresses == {}
    {
      orders, variants, discounts, cart := map[], map[], map[], map[];
      products, categories, addresses := [], map[], {};
    }
  }
}
