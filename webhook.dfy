/**
 * The payment provider's webhook: a signed event settles an order. A
 * succeeded payment marks the order, takes its items out of stock, empties
 * the buyer's cart and counts one more use of its discount; a failed payment
 * cancels the order. Nothing checks whether the order was already settled,
 * and nothing stops stock from going below zero.
 */
module Webhook {
  import opened Wrappers
  import opened Schema

  datatype EventType = PaymentSucceeded | PaymentFailed | Unhandled(name: string)

  /** A verified event: its type and the order id carried in the intent's metadata. */
  datatype Event = Event(kind: EventType, orderId: Id)

  datatype Reply =
    | Received            // 200 {received: true}
    | SignatureRejected   // 400
    | ProcessingFailed    // 500

  /** The tables after handling one event, and the reply. */
  datatype Step = Step(tables: Tables, reply: Reply)

  /** The stock table after the decrement loop, and whether the loop ran to the end. */
  datatype Decrement = Decrement(variants: map<Id, Variant>, complete: bool)

  /**
   * Decrements each line's variant by the line's quantity, in order, without a
   * floor. A line whose variant is missing makes the update throw: the loop
   * stops there and the earlier decrements stay.
   */
  function DecrementStock(variants: map<Id, Variant>, items: seq<LineItem>): Decrement
    decreases |items|
  {
    if items == [] then
      Decrement(variants, true)
    else if items[0].variantId !in variants then
      Decrement(variants, false)
    else
      var id := items[0].variantId;
      var v := variants[id];
      DecrementStock(variants[id := v.(stock := v.stock - items[0].quantity)], items[1..])
  }

  /**
   * The loop only ever changes stock, never adds or drops a variant, and runs
   * to the end exactly when every line's variant exists.
   */
  lemma {:induction false} DecrementStockShape(variants: map<Id, Variant>, items: seq<LineItem>)
    ensures var r := DecrementStock(variants, items);
            && r.variants.Keys == variants.Keys
            && (forall k :: k in variants ==> r.variants[k] == variants[k].(stock := r.variants[k].stock))
            && (r.complete <==> forall i :: 0 <= i < |items| ==> items[i].variantId in variants)
    decreases |items|
  {
    if items != [] && items[0].variantId in variants {
      var id := items[0].variantId;
      var v := variants[id];
      DecrementStockShape(variants[id := v.(stock := v.stock - items[0].quantity)], items[1..]);
      assert forall i :: 1 <= i < |items| ==> items[i] == items[1..][i - 1];
    }
  }

  /** One turn of the decrement loop. */
  lemma DecrementStockStep(variants: map<Id, Variant>, items: seq<LineItem>)
    requires items != []
    ensures items[0].variantId !in variants ==> DecrementStock(variants, items) == Decrement(variants, false)
    ensures items[0].variantId in variants ==>
              var v := variants[items[0].variantId];
              DecrementStock(variants, items) ==
                DecrementStock(variants[items[0].variantId := v.(stock := v.stock - items[0].quantity)], items[1..])
  {
  }

  /** The total quantity the lines order of one variant. */
  function OrderedQuantity(items: seq<LineItem>, id: Id): int
    decreases |items|
  {
    if items == [] then 0
    else (if items[0].variantId == id then items[0].quantity else 0) + OrderedQuantity(items[1..], id)
  }

  lemma {:induction false} OrderedQuantityOfAbsent(items: seq<LineItem>, id: Id)
    requires forall i :: 0 <= i < |items| ==> items[i].variantId != id
    ensures OrderedQuantity(items, id) == 0
    decreases |items|
  {
    if items != [] {
      OrderedQuantityOfAbsent(items[1..], id);
    }
  }

  /**
   * When every variant exists, each one's stock drops by exactly the quantity
   * the order holds of it; a variant the order does not mention keeps its stock.
   */
  lemma {:induction false} DecrementStockExact(variants: map<Id, Variant>, items: seq<LineItem>, k: Id)
    requires DecrementStock(variants, items).complete
    requires k in variants
    ensures var r := DecrementStock(variants, items);
            k in r.variants && r.variants[k] == variants[k].(stock := variants[k].stock - OrderedQuantity(items, k))
    decreases |items|
  {
    DecrementStockShape(variants, items);
    if items != [] {
      var id := items[0].variantId;
      var v := variants[id];
      var next := variants[id := v.(stock := v.stock - items[0].quantity)];
      assert forall i :: 0 <= i < |items[1..]| ==> items[1..][i] == items[i + 1];
      DecrementStockExact(next, items[1..], k);
    }
  }

  /** The cart table without the rows of one user. */
  function WithoutUser(cart: map<CartKey, int>, userId: Id): (r: map<CartKey, int>)
    ensures forall key :: key in r <==> key in cart && key.userId != userId
    ensures forall key :: key in r ==> r[key] == cart[key]
  {
    map key | key in cart && key.userId != userId :: cart[key]
  }

  /**
   * The succeeded branch, writing in the order the handler writes. The order's
   * status is written first and stays written even when a later step throws.
   */
  function Succeed(t: Tables, orderId: Id): (s: Step)
    ensures orderId !in t.orders ==> s == Step(t, ProcessingFailed)
    ensures orderId in t.orders ==>
              s.tables.orders == t.orders[orderId := t.orders[orderId].(paymentStatus := Succeeded, status := Processing)]
    ensures s.reply == Received <==> Settleable(t, orderId)
    ensures s.reply != Received ==> s.reply == ProcessingFailed
  {
    if orderId !in t.orders then
      Step(t, ProcessingFailed)
    else
      var order := t.orders[orderId].(paymentStatus := Succeeded, status := Processing);
      var orders := t.orders[orderId := order];
      var stock := DecrementStock(t.variants, order.items);
      DecrementStockShape(t.variants, order.items);
      if !stock.complete then
        Step(Tables(orders, stock.variants, t.discounts, t.cart), ProcessingFailed)
      else
        var cart := WithoutUser(t.cart, order.userId);
        if order.discountId.None? then
          Step(Tables(orders, stock.variants, t.discounts, cart), Received)
        else if order.discountId.value !in t.discounts then
          Step(Tables(orders, stock.variants, t.discounts, cart), ProcessingFailed)
        else
          var d := t.discounts[order.discountId.value];
          Step(Tables(orders, stock.variants, t.discounts[order.discountId.value := d.(usedCount := d.usedCount + 1)], cart), Received)
  }

  /** The payment_failed branch. */
  function Fail(t: Tables, orderId: Id): (s: Step)
    ensures orderId !in t.orders ==> s == Step(t, ProcessingFailed)
    ensures orderId in t.orders ==>
              && s.reply == Received
              && s.tables.orders.Keys == t.orders.Keys
              && s.tables.orders[orderId].paymentStatus == Failed && s.tables.orders[orderId].status == Cancelled
              && s.tables.orders[orderId].items == t.orders[orderId].items
              && (forall k :: k in t.orders && k != orderId ==> s.tables.orders[k] == t.orders[k])
              && s.tables.variants == t.variants && s.tables.cart == t.cart && s.tables.discounts == t.discounts
  {
    if orderId !in t.orders then
      Step(t, ProcessingFailed)
    else
      Step(t.(orders := t.orders[orderId := t.orders[orderId].(paymentStatus := Failed, status := Cancelled)]), Received)
  }

  /** The whole handler as a function of the tables before the event. */
  function Handle(t: Tables, signatureValid: bool, event: Event): (s: Step)
    ensures !signatureValid ==> s == Step(t, SignatureRejected)
    ensures signatureValid ==> s.reply != SignatureRejected
    ensures signatureValid && event.kind.Unhandled? ==> s == Step(t, Received)
  {
    if !signatureValid then
      Step(t, SignatureRejected)
    else
      match event.kind
      case PaymentSucceeded => Succeed(t, event.orderId)
      case PaymentFailed => Fail(t, event.orderId)
      case Unhandled(_) => Step(t, Received)
  }

  /** An event for an order that does not exist changes nothing and fails. */
  lemma UnknownOrderChangesNothing(t: Tables, event: Event)
    requires event.orderId !in t.orders && !event.kind.Unhandled?
    ensures Handle(t, true, event) == Step(t, ProcessingFailed)
  {
  }

  /** The order, all of whose variants and discount exist, that a success event settles fully. */
  predicate Settleable(t: Tables, orderId: Id) {
    && orderId in t.orders
    && (forall i :: 0 <= i < |t.orders[orderId].items| ==> t.orders[orderId].items[i].variantId in t.variants)
    && (t.orders[orderId].discountId.Some? ==> t.orders[orderId].discountId.value in t.discounts)
  }

  /**
   * A succeeded payment for a settleable order: the order is PROCESSING and
   * SUCCEEDED, every variant loses exactly what the order holds of it, the
   * buyer's cart rows (and only those) are gone, and the order's discount,
   * if any, is used once more.
   */
  lemma {:induction false} SucceededEffects(t: Tables, orderId: Id)
    requires WellKeyed(t) && Settleable(t, orderId)
    ensures var o := t.orders[orderId];
            var s := Handle(t, true, Event(PaymentSucceeded, orderId));
            && s.reply == Received
            && s.tables.orders == t.orders[orderId := o.(paymentStatus := Succeeded, status := Processing)]
            && s.tables.variants.Keys == t.variants.Keys
            && (forall k :: k in t.variants ==>
                  s.tables.variants[k] == t.variants[k].(stock := t.variants[k].stock - OrderedQuantity(o.items, k)))
            && (forall key :: key in s.tables.cart <==> key in t.cart && key.userId != o.userId)
            && (forall key :: key in s.tables.cart ==> s.tables.cart[key] == t.cart[key])
            && s.tables.discounts.Keys == t.discounts.Keys
            && (forall k :: k in t.discounts ==>
                  s.tables.discounts[k] ==
                    t.discounts[k].(usedCount := t.discounts[k].usedCount + (if o.discountId == Some(k) then 1 else 0)))
  {
    var o := t.orders[orderId];
    DecrementStockShape(t.variants, o.items);
    var s := Handle(t, true, Event(PaymentSucceeded, orderId));
    forall k | k in t.variants
      ensures s.tables.variants[k] == t.variants[k].(stock := t.variants[k].stock - OrderedQuantity(o.items, k))
    {
      DecrementStockExact(t.variants, o.items, k);
    }
  }

  /** A failed payment cancels the order and touches no stock, cart or discount. */
  lemma FailedEffects(t: Tables, orderId: Id)
    requires orderId in t.orders
    ensures var s := Handle(t, true, Event(PaymentFailed, orderId));
            && s.reply == Received
            && s.tables.orders == t.orders[orderId := t.orders[orderId].(paymentStatus := Failed, status := Cancelled)]
            && s.tables.variants == t.variants && s.tables.cart == t.cart && s.tables.discounts == t.discounts
  {
  }

  lemma SucceedKeepsKeys(t: Tables, orderId: Id)
    requires WellKeyed(t)
    ensures WellKeyed(Succeed(t, orderId).tables)
  {
    if orderId in t.orders {
      var o := t.orders[orderId].(paymentStatus := Succeeded, status := Processing);
      OrderWriteKeepsKeys(t, o);
      var t1 := t.(orders := t.orders[orderId := o]);
      var stock := DecrementStock(t.variants, o.items);
      DecrementStockShape(t.variants, o.items);
      var t2 := t1.(variants := stock.variants, cart := WithoutUser(t.cart, o.userId));
      assert WellKeyed(t2);
      if stock.complete && o.discountId.Some? && o.discountId.value in t.discounts {
        var d := t.discounts[o.discountId.value];
        DiscountWriteKeepsKeys(t2, d.(usedCount := d.usedCount + 1));
      }
    }
  }

  /** Handling any event keeps every row under its own key and discount codes unique. */
  lemma HandleKeepsKeys(t: Tables, signatureValid: bool, event: Event)
    requires WellKeyed(t)
    ensures WellKeyed(Handle(t, signatureValid, event).tables)
  {
    if signatureValid && event.kind.PaymentSucceeded? {
      SucceedKeepsKeys(t, event.orderId);
    }
    if signatureValid && event.kind.PaymentFailed? && event.orderId in t.orders {
      OrderWriteKeepsKeys(t, t.orders[event.orderId].(paymentStatus := Failed, status := Cancelled));
    }
  }

  /**
   * The same succeeded event delivered twice settles the order twice: stock
   * falls by twice the ordered quantity and the discount counts two uses.
   */
  lemma {:induction false} RedeliverySettlesTwice(t: Tables, orderId: Id)
    requires WellKeyed(t) && Settleable(t, orderId)
    ensures var e := Event(PaymentSucceeded, orderId);
            var once := Handle(t, true, e);
            var twice := Handle(once.tables, true, e);
            var o := t.orders[orderId];
            && twice.reply == Received
            && twice.tables.orders == once.tables.orders
            && (forall k :: k in t.variants ==>
                  k in twice.tables.variants && twice.tables.variants[k].stock == t.variants[k].stock - 2 * OrderedQuantity(o.items, k))
            && (o.discountId.Some? ==>
                  twice.tables.discounts[o.discountId.value].usedCount == t.discounts[o.discountId.value].usedCount + 2)
  {
    var e := Event(PaymentSucceeded, orderId);
    var o := t.orders[orderId];
    SucceededEffects(t, orderId);
    var once := Handle(t, true, e);
    HandleKeepsKeys(t, true, e);
    assert once.tables.orders[orderId].items == o.items;
    SucceededEffects(once.tables, orderId);
  }

  /**
   * The handler. `signatureValid` is the outcome of checking the payload's
   * signature against the shared secret; `event` is the parsed event.
   */
  method HandleEvent(db: Database, signatureValid: bool, event: Event) returns (reply: Reply)
    requires db.Valid()
    modifies db
    ensures db.Valid()
    ensures Step(db.Snapshot(), reply) == Handle(old(db.Snapshot()), signatureValid, event)
    ensures db.products == old(db.products) && db.categories == old(db.categories) && db.addresses == old(db.addresses)
  {
    if !signatureValid {
      return SignatureRejected;
    }
    match event.kind {
      case PaymentSucceeded =>
        reply := SettleSucceeded(db, event.orderId);
        HandleKeepsKeys(old(db.Snapshot()), signatureValid, event);
      case PaymentFailed =>
        if event.orderId !in db.orders {
          return ProcessingFailed;
        }
        var order := db.orders[event.orderId];
        OrderWriteKeepsKeys(db.Snapshot(), order.(paymentStatus := Failed, status := Cancelled));
        db.orders := db.orders[event.orderId := order.(paymentStatus := Failed, status := Cancelled)];
        reply := Received;
      case Unhandled(_) =>
        reply := Received;
    }
  }

  method SettleSucceeded(db: Database, orderId: Id) returns (reply: Reply)
    modifies db
    ensures Step(db.Snapshot(), reply) == Succeed(old(db.Snapshot()), orderId)
    ensures db.products == old(db.products) && db.categories == old(db.categories) && db.addresses == old(db.addresses)
  {
    if orderId !in db.orders {
      return ProcessingFailed;
    }
    var settled := db.orders[orderId].(paymentStatus := Succeeded, status := Processing);
    db.orders := db.orders[orderId := settled];

    var order := db.orders[orderId];
    var complete := DecrementEach(db, order.items);
    if !complete {
      return ProcessingFailed;
    }

    db.cart := WithoutUser(db.cart, order.userId);

    if order.discountId.Some? {
      if order.discountId.value !in db.discounts {
        return ProcessingFailed;
      }
      var d := db.discounts[order.discountId.value];
      db.discounts := db.discounts[order.discountId.value := d.(usedCount := d.usedCount + 1)];
    }
    reply := Received;
  }

  /** The decrement loop: one stock update per line, stopping at the first missing variant. */
  method DecrementEach(db: Database, items: seq<LineItem>) returns (complete: bool)
    modifies db`variants
    ensures Decrement(db.variants, complete) == DecrementStock(old(db.variants), items)
  {
    var i := 0;
    while i < |items|
      invariant 0 <= i <= |items|
      invariant DecrementStock(old(db.variants), items) == DecrementStock(db.variants, items[i..])
    {
      var item := items[i];
      DecrementStockStep(db.variants, items[i..]);
      assert items[i..][0] == item && items[i..][1..] == items[i + 1..];
      if item.variantId !in db.variants {
        return false;
      }
      var v := db.variants[item.variantId];
      db.variants := db.variants[item.variantId := v.(stock := v.stock - item.quantity)];
      i := i + 1;
    }
    assert items[i..] == [];
    complete := true;
  }
}
