/**
 * The order route: listing a user's orders and creating an order from a
 * checkout request, then asking the payment provider for a payment intent.
 */
module Orders {
  import opened Wrappers
  import opened Schema
  import opened Pricing

  /** What the payment provider returns when an intent is created. */
  datatype Intent = Intent(id: string, clientSecret: string)

  /** The charge requested from the payment provider, tagged with the order it pays for. */
  datatype Charge = Charge(amount: int, currency: string, orderId: Id, orderNumber: string)

  datatype OrderReply =
    | Created(order: Order, clientSecret: string)  // 200
    | Unauthorized                                  // 401
    | CreateFailed                                  // 500

  datatype ListReply = Listed(orders: map<Id, Order>) | ListUnauthorized

  /** A JavaScript-truthy discount code: present and not empty. */
  predicate Truthy(code: Option<string>) {
    code.Some? && code.value != ""
  }

  /** The record a lookup by unique code restricted to active discounts finds. */
  ghost function ActiveByCode(discounts: map<Id, Discount>, code: string): (found: Option<Discount>)
    ensures found.Some? <==> exists k :: k in discounts && discounts[k].code == code && discounts[k].active
    ensures found.Some? ==> exists k :: k in discounts && discounts[k] == found.value && found.value.code == code && found.value.active
  {
    if exists k :: k in discounts && discounts[k].code == code && discounts[k].active then
      var k :| k in discounts && discounts[k].code == code && discounts[k].active;
      Some(discounts[k])
    else
      None
  }

  method FindDiscount(db: Database, code: string) returns (found: Option<Discount>)
    requires db.Valid()
    ensures found == ActiveByCode(db.discounts, code)
    ensures found.Some? ==> found.value in db.discounts.Values && found.value.code == code && found.value.active
  {
    if exists k :: k in db.discounts && db.discounts[k].code == code && db.discounts[k].active {
      var k :| k in db.discounts && db.discounts[k].code == code && db.discounts[k].active;
      found := Some(db.discounts[k]);
      ghost var f := ActiveByCode(db.discounts, code);
      assert f.Some?;
      ghost var k' :| k' in db.discounts && db.discounts[k'] == f.value;
      assert f.value.code == code;
      assert WellKeyed(db.Snapshot());
    } else {
      found := None;
    }
  }

  /** The discount, shipping, tax and total the route computes for a validated request. */
  ghost function QuoteFor(variants: map<Id, Variant>, discounts: map<Id, Discount>, items: seq<RequestItem>,
                          code: Option<string>, now: int): Quote
    requires AllAvailable(variants, items)
  {
    var subtotal := Subtotal(Lines(variants, items));
    var found := if Truthy(code) then ActiveByCode(discounts, code.value) else None;
    Charges(subtotal, ApplyDiscount(found, subtotal, now))
  }

  /** The row written for a new order, before the payment intent is attached. */
  function NewOrder(id: Id, userId: Id, orderNumber: string, lines: seq<LineItem>, q: Quote,
                    shippingAddressId: Id, now: int): (o: Order)
    ensures o.id == id && o.userId == userId && o.orderNumber == orderNumber && o.items == lines
    ensures o.subtotal == q.subtotal && o.tax == q.tax && o.shipping == q.shipping
    ensures o.discount == q.discount && o.total == q.total && o.discountId == q.discountId
    ensures o.shippingAddressId == shippingAddressId && o.paymentIntentId.None?
    ensures o.status == Pending && o.paymentStatus == PaymentPending && o.createdAt == now
  {
    Order(id, userId, orderNumber, lines, q.subtotal, q.tax, q.shipping, q.discount, q.total,
          shippingAddressId, q.discountId, None, Pending, PaymentPending, now)
  }

  predicate NumberTaken(orders: map<Id, Order>, orderNumber: string) {
    exists k :: k in orders && orders[k].orderNumber == orderNumber
  }

  /** The orders of the signed-in user. */
  method ListOrders(db: Database, session: Option<Session>) returns (r: ListReply)
    ensures session.None? ==> r == ListUnauthorized
    ensures session.Some? ==> r.Listed?
    ensures session.Some? ==> forall k :: k in r.orders <==> k in db.orders && db.orders[k].userId == session.value.userId
    ensures session.Some? ==> forall k :: k in r.orders ==> r.orders[k] == db.orders[k]
  {
    if session.None? {
      return ListUnauthorized;
    }
    var user := session.value.userId;
    r := Listed(map k | k in db.orders && db.orders[k].userId == user :: db.orders[k]);
  }

  datatype Priced = Priced(lines: seq<LineItem>, quote: Quote)

  /**
   * The pricing half of order creation: validates the request against the
   * stored variants, looks the code up when it is truthy, and computes the
   * discount, shipping, tax and total. `None` is the "Product not available" abort.
   */
  method PriceOrder(db: Database, items: seq<RequestItem>, discountCode: Option<string>, now: int)
    returns (r: Option<Priced>)
    requires db.Valid()
    ensures r.Some? <==> AllAvailable(db.variants, items)
    ensures r.Some? ==> r.value.lines == Lines(db.variants, items)
    ensures r.Some? ==> r.value.quote == QuoteFor(db.variants, db.discounts, items, discountCode, now)
  {
    var validated := ValidateItems(db.variants, items);
    if validated.None? {
      return None;
    }
    var subtotal := validated.value.subtotal;

    var discount := 0.0;
    var discountId: Option<Id> := None;
    var found: Option<Discount> := None;
    if Truthy(discountCode) {
      found := FindDiscount(db, discountCode.value);
      if found.Some? {
        var d := found.value;
        if Eligible(d, subtotal, now) {
          discountId := Some(d.id);
          if d.kind == Percentage {
            discount := subtotal * d.value / 100.0;
          } else {
            discount := d.value;
          }
        }
      }
    }
    assert found == (if Truthy(discountCode) then ActiveByCode(db.discounts, discountCode.value) else None);
    assert Applied(discount, discountId) == ApplyDiscount(found, subtotal, now);

    var shipping := if subtotal > 100.0 then 0.0 else 10.0;
    var tax := subtotal * 0.1;
    var total := subtotal + shipping + tax - discount;
    r := Some(Priced(validated.value.lines, Quote(subtotal, discount, shipping, tax, total, discountId)));
  }

  /**
   * Creates an order. `orderId` and `orderNumber` are the fresh identifiers the
   * database and the number generator supply; `gateway` is the provider's answer
   * to the charge request, `None` when that call fails. `charge` is the request
   * sent to the provider, if the route got that far.
   */
  method CreateOrder(db: Database, session: Option<Session>, items: seq<RequestItem>, shippingAddressId: Id,
                     discountCode: Option<string>, now: int, orderId: Id, orderNumber: string,
                     gateway: Option<Intent>)
    returns (reply: OrderReply, charge: Option<Charge>)
    requires db.Valid()
    modifies db
    ensures db.Valid()
    ensures db.variants == old(db.variants) && db.discounts == old(db.discounts) && db.cart == old(db.cart)
    ensures db.products == old(db.products) && db.categories == old(db.categories) && db.addresses == old(db.addresses)
    ensures session.None? ==> reply == Unauthorized && charge.None? && db.orders == old(db.orders)
    ensures session.Some? && !AllAvailable(old(db.variants), items) ==>
              reply == CreateFailed && charge.None? && db.orders == old(db.orders)
    ensures session.Some? && AllAvailable(old(db.variants), items) &&
            (orderId in old(db.orders) || NumberTaken(old(db.orders), orderNumber) ||
             shippingAddressId !in old(db.addresses)) ==>
              reply == CreateFailed && charge.None? && db.orders == old(db.orders)
    ensures session.Some? && AllAvailable(old(db.variants), items) &&
            orderId !in old(db.orders) && !NumberTaken(old(db.orders), orderNumber) &&
            shippingAddressId in old(db.addresses) ==>
              var q := QuoteFor(old(db.variants), old(db.discounts), items, discountCode, now);
              var order := NewOrder(orderId, session.value.userId, orderNumber, Lines(old(db.variants), items),
                                    q, shippingAddressId, now);
              && charge == Some(Charge(PaymentAmount(q.total), "usd", orderId, orderNumber))
              && reply == (if gateway.Some? then Created(order, gateway.value.clientSecret) else CreateFailed)
              && db.orders == old(db.orders)[orderId :=
                   if gateway.Some? then order.(paymentIntentId := Some(gateway.value.id)) else order]
  {
    charge := None;
    if session.None? {
      return Unauthorized, charge;
    }
    var priced := PriceOrder(db, items, discountCode, now);
    if priced.None? {
      return CreateFailed, charge;
    }
    var q := priced.value.quote;

    // The id and the order number are unique columns: a clash makes the insert throw.
    if orderId in db.orders || exists k :: k in db.orders && db.orders[k].orderNumber == orderNumber {
      return CreateFailed, charge;
    }
    // The shipping address is a relation: an id naming no stored address makes the insert throw.
    if shippingAddressId !in db.addresses {
      return CreateFailed, charge;
    }
    var order := Order(orderId, session.value.userId, orderNumber, priced.value.lines, q.subtotal, q.tax,
                       q.shipping, q.discount, q.total, shippingAddressId, q.discountId, None, Pending,
                       PaymentPending, now);
    OrderWriteKeepsKeys(db.Snapshot(), order);
    db.orders := db.orders[orderId := order];

    charge := Some(Charge(PaymentAmount(q.total), "usd", order.id, order.orderNumber));
    if gateway.None? {
      return CreateFailed, charge;
    }
    var intent := gateway.value;
    OrderWriteKeepsKeys(db.Snapshot(), order.(paymentIntentId := Some(intent.id)));
    db.orders := db.orders[orderId := db.orders[orderId].(paymentIntentId := Some(intent.id))];
    reply := Created(order, intent.clientSecret);
  }

  /**
   * A failed call to the payment provider still leaves the new order in the
   * table, pending and without a payment intent.
   */
  method GatewayFailureLeavesOrphan(db: Database, user: Session, items: seq<RequestItem>, address: Id,
                                    orderId: Id, orderNumber: string)
    requires db.Valid() && AllAvailable(db.variants, items)
    requires orderId !in db.orders && !NumberTaken(db.orders, orderNumber)
    requires address in db.addresses
    modifies db
    ensures orderId in db.orders && db.orders[orderId].paymentIntentId.None?
    ensures db.orders[orderId].status == Pending && db.orders[orderId].paymentStatus == PaymentPending
  {
    var reply, charge := CreateOrder(db, Some(user), items, address, None, 0, orderId, orderNumber, None);
    assert reply == CreateFailed;
  }
}
