/**
 * The money arithmetic of order creation: line validation against stored
 * variants, the subtotal, discount eligibility and amount, shipping, tax,
 * total and the amount charged in cents.
 */
module Pricing {
  import opened Wrappers
  import opened Schema

  /** One line of the client's order request: only a variant and a quantity are used. */
  datatype RequestItem = RequestItem(variantId: Id, quantity: int)

  /** The variant exists and holds at least the requested quantity. */
  predicate Available(variants: map<Id, Variant>, item: RequestItem) {
    item.variantId in variants && variants[item.variantId].stock >= item.quantity
  }

  predicate AllAvailable(variants: map<Id, Variant>, items: seq<RequestItem>) {
    forall i :: 0 <= i < |items| ==> Available(variants, items[i])
  }

  /** The order line recorded for a request: the stored price, never one sent by the client. */
  function LineFor(variants: map<Id, Variant>, item: RequestItem): (l: LineItem)
    requires item.variantId in variants
    ensures l.variantId == item.variantId && l.quantity == item.quantity
    ensures l.price == variants[item.variantId].price
  {
    LineItem(item.variantId, item.quantity, variants[item.variantId].price)
  }

  function Lines(variants: map<Id, Variant>, items: seq<RequestItem>): (lines: seq<LineItem>)
    requires AllAvailable(variants, items)
    ensures |lines| == |items|
    ensures forall i :: 0 <= i < |items| ==> lines[i] == LineFor(variants, items[i])
  {
    seq(|items|, i requires 0 <= i < |items| && AllAvailable(variants, items) => LineFor(variants, items[i]))
  }

  function LineAmount(l: LineItem): real {
    l.price * l.quantity as real
  }

  /** The sum of price times quantity, accumulated from the first line on. */
  function Subtotal(lines: seq<LineItem>): real {
    if lines == [] then 0.0 else Subtotal(lines[..|lines| - 1]) + LineAmount(lines[|lines| - 1])
  }

  lemma {:induction false} SubtotalAppend(a: seq<LineItem>, b: seq<LineItem>)
    ensures Subtotal(a + b) == Subtotal(a) + Subtotal(b)
    decreases |b|
  {
    if b == [] {
      assert a + b == a;
    } else {
      var b' := b[..|b| - 1];
      assert (a + b)[..|a + b| - 1] == a + b';
      SubtotalAppend(a, b');
    }
  }

  lemma {:induction false} SubtotalNonNegative(lines: seq<LineItem>)
    requires forall i :: 0 <= i < |lines| ==> lines[i].price >= 0.0 && lines[i].quantity >= 0
    ensures Subtotal(lines) >= 0.0
  {
    if lines != [] {
      SubtotalNonNegative(lines[..|lines| - 1]);
    }
  }

  datatype Validated = Validated(lines: seq<LineItem>, subtotal: real)

  /**
   * Resolves every requested line against the stored variants, failing as a
   * whole when one is missing or short of stock, and accumulates the subtotal.
   */
  method ValidateItems(variants: map<Id, Variant>, items: seq<RequestItem>) returns (r: Option<Validated>)
    ensures r.Some? <==> AllAvailable(variants, items)
    ensures r.Some? ==> r.value.lines == Lines(variants, items)
    ensures r.Some? ==> r.value.subtotal == Subtotal(r.value.lines)
  {
    var lines: seq<LineItem> := [];
    var subtotal := 0.0;
    var i := 0;
    while i < |items|
      invariant 0 <= i <= |items|
      invariant forall j :: 0 <= j < i ==> Available(variants, items[j])
      invariant |lines| == i
      invariant forall j :: 0 <= j < i ==> lines[j] == LineFor(variants, items[j])
      invariant subtotal == Subtotal(lines)
    {
      var item := items[i];
      if item.variantId !in variants || variants[item.variantId].stock < item.quantity {
        return None;
      }
      var variant := variants[item.variantId];
      subtotal := subtotal + variant.price * item.quantity as real;
      var line := LineItem(item.variantId, item.quantity, variant.price);
      assert (lines + [line])[..|lines|] == lines;
      lines := lines + [line];
      i := i + 1;
    }
    r := Some(Validated(lines, subtotal));
  }

  /**
   * The date, minimum-amount and usage conditions of a discount. The optional
   * columns are tested for falsiness, so a minimum or a usage cap of 0 is no
   * condition at all.
   */
  predicate Eligible(d: Discount, subtotal: real, now: int)
    ensures d.startDate.Some? && now < d.startDate.value ==> !Eligible(d, subtotal, now)
    ensures d.endDate.Some? && d.endDate.value < now ==> !Eligible(d, subtotal, now)
    ensures d.minAmount.Some? && d.minAmount.value != 0.0 && subtotal < d.minAmount.value ==> !Eligible(d, subtotal, now)
    ensures d.maxUses.Some? && d.maxUses.value != 0 && d.usedCount >= d.maxUses.value ==> !Eligible(d, subtotal, now)
    ensures d.startDate.None? && d.endDate.None? && d.minAmount.None? && d.maxUses.None? ==> Eligible(d, subtotal, now)
  {
    && (d.startDate.None? || d.startDate.value <= now)
    && (d.endDate.None? || d.endDate.value >= now)
    && (d.minAmount.None? || d.minAmount.value == 0.0 || subtotal >= d.minAmount.value)
    && (d.maxUses.None? || d.maxUses.value == 0 || d.usedCount < d.maxUses.value)
  }

  function DiscountAmount(d: Discount, subtotal: real): (amount: real)
    ensures d.kind == Percentage ==> amount * 100.0 == subtotal * d.value
    ensures d.kind == Fixed ==> amount == d.value
  {
    if d.kind == Percentage then subtotal * d.value / 100.0 else d.value
  }

  datatype Applied = Applied(amount: real, discountId: Option<Id>)

  /**
   * The discount taken off an order, given the active record found for the
   * code (if any): nothing unless the record is eligible, and then its amount.
   * No error is ever raised for an unknown or ineligible code.
   */
  function ApplyDiscount(found: Option<Discount>, subtotal: real, now: int): (a: Applied)
    ensures a.discountId.Some? <==> found.Some? && Eligible(found.value, subtotal, now)
    ensures a.discountId.Some? ==> a.discountId.value == found.value.id
    ensures a.discountId.Some? ==> a.amount == DiscountAmount(found.value, subtotal)
    ensures a.discountId.None? ==> a.amount == 0.0
  {
    if found.Some? && Eligible(found.value, subtotal, now) then
      Applied(DiscountAmount(found.value, subtotal), Some(found.value.id))
    else
      Applied(0.0, None)
  }

  datatype Quote = Quote(subtotal: real, discount: real, shipping: real, tax: real, total: real, discountId: Option<Id>)

  /** Shipping, the 10% tax and the total for a subtotal and an applied discount. */
  function Charges(subtotal: real, applied: Applied): (q: Quote)
    ensures q.subtotal == subtotal && q.discount == applied.amount && q.discountId == applied.discountId
    ensures q.shipping == 0.0 <==> subtotal > 100.0
    ensures q.shipping == 0.0 || q.shipping == 10.0
    ensures 10.0 * q.tax == subtotal
    ensures q.total == q.subtotal + q.shipping + q.tax - q.discount
  {
    var shipping := if subtotal > 100.0 then 0.0 else 10.0;
    var tax := subtotal * 0.1;
    Quote(subtotal, applied.amount, shipping, tax, subtotal + shipping + tax - applied.amount, applied.discountId)
  }

  /** `Math.round(total * 100)`: the nearest whole number of cents, halves rounded up. */
  function PaymentAmount(total: real): (cents: int)
    ensures cents as real - 0.5 <= total * 100.0 < cents as real + 0.5
  {
    (total * 100.0 + 0.5).Floor
  }

  /** A discount no larger than the subtotal never drives the total below zero. */
  lemma TotalNonNegative(subtotal: real, applied: Applied)
    requires 0.0 <= subtotal && applied.amount <= subtotal
    ensures Charges(subtotal, applied).total >= 0.0
  {
  }

  lemma ProductNonNegative(a: real, b: real)
    requires 0.0 <= a && 0.0 <= b
    ensures 0.0 <= a * b
  {
  }

  /** A percentage of at most 100 on a non-negative subtotal stays within the subtotal. */
  lemma PercentageWithinSubtotal(d: Discount, subtotal: real)
    requires d.kind == Percentage && 0.0 <= d.value <= 100.0 && 0.0 <= subtotal
    ensures 0.0 <= DiscountAmount(d, subtotal) <= subtotal
  {
    var amount := DiscountAmount(d, subtotal);
    assert amount * 100.0 == subtotal * d.value;
    ProductNonNegative(subtotal, d.value);
    ProductNonNegative(subtotal, 100.0 - d.value);
    assert subtotal * (100.0 - d.value) == subtotal * 100.0 - subtotal * d.value;
  }

  /**
   * Nothing clamps the discount: a fixed discount larger than a small subtotal
   * yields a negative total.
   */
  lemma FixedDiscountIsNotClamped(d: Discount, now: int)
    requires d.kind == Fixed && d.value == 50.0 && d.minAmount.None? && d.maxUses.None?
    requires d.startDate.None? && d.endDate.None?
    ensures Charges(20.0, ApplyDiscount(Some(d), 20.0, now)).total == -18.0
  {
  }

  /** A usage cap that has been reached turns the code away. */
  lemma ExhaustedCodeIsRejected(d: Discount, subtotal: real, now: int)
    requires d.maxUses.Some? && d.maxUses.value != 0 && d.usedCount >= d.maxUses.value
    ensures ApplyDiscount(Some(d), subtotal, now) == Applied(0.0, None)
  {
  }

  /** A usage cap of 0 is falsy and therefore no cap: the usage count never matters. */
  lemma ZeroMaxUsesIsUnlimited(d: Discount, subtotal: real, now: int, used: int)
    requires d.maxUses == Some(0)
    ensures Eligible(d.(usedCount := used), subtotal, now) == Eligible(d, subtotal, now)
  {
  }

  /** A minimum amount of 0 is falsy and therefore no minimum: the subtotal never matters. */
  lemma ZeroMinAmountIsNoMinimum(d: Discount, subtotal: real, other: real, now: int)
    requires d.minAmount == Some(0.0)
    ensures Eligible(d, subtotal, now) == Eligible(d, other, now)
  {
  }

  /** The seeded WELCOME10 code: 10% off from 50, at most 100 uses, no dates. */
  function Welcome10(id: Id): Discount {
    Discount(id, "WELCOME10", Percentage, 10.0, Some(50.0), Some(100), 0, None, None, true)
  }

  /** Two units at 40 with WELCOME10: subtotal 80, discount 8, shipping 10, tax 8, total 90. */
  lemma Welcome10Example(id: Id, v: Variant, now: int)
    requires v.price == 40.0 && v.stock >= 2
    ensures var variants := map[v.id := v];
            var items := [RequestItem(v.id, 2)];
            AllAvailable(variants, items) &&
            var subtotal := Subtotal(Lines(variants, items));
            var q := Charges(subtotal, ApplyDiscount(Some(Welcome10(id)), subtotal, now));
            q == Quote(80.0, 8.0, 10.0, 8.0, 90.0, Some(id)) && PaymentAmount(q.total) == 9000
  {
    var variants := map[v.id := v];
    var items := [RequestItem(v.id, 2)];
    var lines := Lines(variants, items);
    assert lines == [LineItem(v.id, 2, 40.0)];
    assert lines[..0] == [];
    assert Subtotal(lines) == 80.0;
  }

  /** A subtotal of 120 without a discount: free shipping, tax 12, total 132. */
  lemma NoDiscountExample(now: int)
    ensures Charges(120.0, ApplyDiscount(None, 120.0, now)) == Quote(120.0, 0.0, 0.0, 12.0, 132.0, None)
  {
  }

  /** The order summary on the cart page: subtotal, shipping and tax, no discount. */
  function CartSummaryTotal(subtotal: real): real {
    subtotal + (if subtotal > 100.0 then 0.0 else 10.0) + subtotal * 0.1
  }

  /** The cart page's summary agrees with the total the order route computes without a discount. */
  lemma CartSummaryMatchesCheckout(subtotal: real, now: int)
    ensures CartSummaryTotal(subtotal) == Charges(subtotal, ApplyDiscount(None, subtotal, now)).total
  {
  }
}
