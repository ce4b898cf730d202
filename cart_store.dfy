/**
 * The browser-side cart store: a list of cart lines keyed by variant id that
 * the store replaces wholesale on every change, and a total computed from it.
 */
module CartStore {

  datatype CartLine = CartLine(
    variantId: string,
    quantity: int,
    productName: string,
    variantDetails: string,
    price: real,
    image: string)

  predicate Holds(items: seq<CartLine>, variantId: string) {
    exists i :: 0 <= i < |items| && items[i].variantId == variantId
  }

  /** No two lines share a variant id. */
  predicate UniqueKeys(items: seq<CartLine>) {
    forall i, j :: 0 <= i < j < |items| ==> items[i].variantId != items[j].variantId
  }

  /** Every line for the item's variant grows by the item's quantity; the rest stay as they are. */
  function Merged(items: seq<CartLine>, item: CartLine): (r: seq<CartLine>)
    ensures |r| == |items|
    ensures forall i :: 0 <= i < |items| ==>
              r[i] == if items[i].variantId == item.variantId
                      then items[i].(quantity := items[i].quantity + item.quantity) else items[i]
  {
    seq(|items|, i requires 0 <= i < |items| =>
      if items[i].variantId == item.variantId then items[i].(quantity := items[i].quantity + item.quantity)
      else items[i])
  }

  /** The list after `addItem`: merge into a present line, otherwise append. */
  function Added(items: seq<CartLine>, item: CartLine): seq<CartLine> {
    if Holds(items, item.variantId) then Merged(items, item) else items + [item]
  }

  /** The lines whose variant is not `variantId`, in their original order. */
  function Removed(items: seq<CartLine>, variantId: string): seq<CartLine>
    decreases |items|
  {
    if items == [] then []
    else (if items[0].variantId == variantId then [] else [items[0]]) + Removed(items[1..], variantId)
  }

  /** The lines whose variant is `variantId`: what `removeItem` drops. */
  function Dropped(items: seq<CartLine>, variantId: string): seq<CartLine>
    decreases |items|
  {
    if items == [] then []
    else (if items[0].variantId == variantId then [items[0]] else []) + Dropped(items[1..], variantId)
  }

  /** The list after `updateQuantity`: matching lines take the new quantity. */
  function WithQuantity(items: seq<CartLine>, variantId: string, quantity: int): (r: seq<CartLine>)
    ensures |r| == |items|
    ensures forall i :: 0 <= i < |items| ==>
              r[i] == if items[i].variantId == variantId then items[i].(quantity := quantity) else items[i]
  {
    seq(|items|, i requires 0 <= i < |items| =>
      if items[i].variantId == variantId then items[i].(quantity := quantity) else items[i])
  }

  function LineTotal(l: CartLine): real {
    l.price * l.quantity as real
  }

  /** `getTotal`: price times quantity, summed from the first line on, starting at 0. */
  function Total(items: seq<CartLine>): real {
    if items == [] then 0.0 else Total(items[..|items| - 1]) + LineTotal(items[|items| - 1])
  }

  /** Price times quantity summed head first: the plain sum the reduce computes. */
  function SumOfLines(items: seq<CartLine>): real
    decreases |items|
  {
    if items == [] then 0.0 else LineTotal(items[0]) + SumOfLines(items[1..])
  }

  /** The left-to-right reduce and the plain sum agree. */
  lemma {:induction false} TotalIsSumOfLines(items: seq<CartLine>)
    ensures Total(items) == SumOfLines(items)
    decreases |items|
  {
    if items != [] {
      TotalIsSumOfLines(items[1..]);
      assert items == [items[0]] + items[1..];
      TotalAppend([items[0]], items[1..]);
      assert [items[0]][..0] == [];
    }
  }

  /** Adding to a present variant keeps the length and changes only that variant's line. */
  lemma AddMergesPresent(items: seq<CartLine>, item: CartLine)
    requires Holds(items, item.variantId)
    ensures var r := Added(items, item);
            && |r| == |items|
            && forall i :: 0 <= i < |items| ==>
                 if items[i].variantId == item.variantId
                 then r[i] == items[i].(quantity := items[i].quantity + item.quantity)
                 else r[i] == items[i]
  {
  }

  /** Adding a new variant appends the item at the end. */
  lemma AddAppendsNew(items: seq<CartLine>, item: CartLine)
    requires !Holds(items, item.variantId)
    ensures Added(items, item) == items + [item]
  {
  }

  lemma AddKeepsKeysUnique(items: seq<CartLine>, item: CartLine)
    requires UniqueKeys(items)
    ensures UniqueKeys(Added(items, item))
  {
    if !Holds(items, item.variantId) {
      var r := items + [item];
      forall i, j | 0 <= i < j < |r| ensures r[i].variantId != r[j].variantId {
        if j == |items| {
          assert r[i] == items[i];
        }
      }
    }
  }

  lemma {:induction false} RemovedLines(items: seq<CartLine>, variantId: string)
    ensures forall l :: l in Removed(items, variantId) <==> l in items && l.variantId != variantId
    decreases |items|
  {
    if items != [] {
      RemovedLines(items[1..], variantId);
      assert items == [items[0]] + items[1..];
    }
  }

  /** Filtering distributes over concatenation, so the kept lines keep their relative order. */
  lemma {:induction false} RemovedAppend(a: seq<CartLine>, b: seq<CartLine>, variantId: string)
    ensures Removed(a + b, variantId) == Removed(a, variantId) + Removed(b, variantId)
    decreases |a|
  {
    if a == [] {
      assert a + b == b;
    } else {
      assert (a + b)[1..] == a[1..] + b;
      RemovedAppend(a[1..], b, variantId);
    }
  }

  /** Removal keeps unique variant ids unique: it only ever drops lines. */
  lemma {:induction false} RemovedKeepsKeysUnique(items: seq<CartLine>, variantId: string)
    requires UniqueKeys(items)
    ensures UniqueKeys(Removed(items, variantId))
    decreases |items|
  {
    if items != [] {
      var rest := Removed(items[1..], variantId);
      assert UniqueKeys(items[1..]);
      RemovedKeepsKeysUnique(items[1..], variantId);
      RemovedLines(items[1..], variantId);
      if items[0].variantId != variantId {
        var r := [items[0]] + rest;
        forall i, j | 0 <= i < j < |r| ensures r[i].variantId != r[j].variantId {
          if i == 0 {
            assert r[j] == rest[j - 1];
            assert rest[j - 1] in items[1..];
            var k :| 0 <= k < |items[1..]| && items[1..][k] == rest[j - 1];
            assert items[k + 1] == rest[j - 1];
          } else {
            assert r[i] == rest[i - 1] && r[j] == rest[j - 1];
          }
        }
      }
    }
  }

  lemma UpdateAbsentIsNoOp(items: seq<CartLine>, variantId: string, quantity: int)
    requires !Holds(items, variantId)
    ensures WithQuantity(items, variantId, quantity) == items
  {
  }

  lemma UpdateKeepsKeysUnique(items: seq<CartLine>, variantId: string, quantity: int)
    requires UniqueKeys(items)
    ensures UniqueKeys(WithQuantity(items, variantId, quantity))
  {
  }

  lemma {:induction false} TotalAppend(a: seq<CartLine>, b: seq<CartLine>)
    ensures Total(a + b) == Total(a) + Total(b)
    decreases |b|
  {
    if b == [] {
      assert a + b == a;
    } else {
      var b' := b[..|b| - 1];
      assert (a + b)[..|a + b| - 1] == a + b';
      TotalAppend(a, b');
    }
  }

  /** The total splits into what `removeItem` keeps and what it drops. */
  lemma {:induction false} TotalAfterRemove(items: seq<CartLine>, variantId: string)
    ensures Total(items) == Total(Removed(items, variantId)) + Total(Dropped(items, variantId))
    decreases |items|
  {
    if items != [] {
      var head := [items[0]];
      TotalAfterRemove(items[1..], variantId);
      assert items == head + items[1..];
      TotalAppend(head, items[1..]);
      var kept := if items[0].variantId == variantId then [] else head;
      var gone := if items[0].variantId == variantId then head else [];
      TotalAppend(kept, Removed(items[1..], variantId));
      TotalAppend(gone, Dropped(items[1..], variantId));
      assert head[..0] == [];
    }
  }

  /** With unique keys, the only line `removeItem` drops is the one holding that variant. */
  lemma {:induction false} DroppedUniqueLine(items: seq<CartLine>, k: nat)
    requires UniqueKeys(items) && k < |items|
    ensures Dropped(items, items[k].variantId) == [items[k]]
    decreases |items|
  {
    var id := items[k].variantId;
    if k == 0 {
      NoneDropped(items[1..], id);
    } else {
      assert UniqueKeys(items[1..]);
      DroppedUniqueLine(items[1..], k - 1);
    }
  }

  lemma {:induction false} NoneDropped(items: seq<CartLine>, variantId: string)
    requires !Holds(items, variantId)
    ensures Dropped(items, variantId) == []
    decreases |items|
  {
    if items != [] {
      assert !Holds(items[1..], variantId) by {
        forall i | 0 <= i < |items[1..]| ensures items[1..][i].variantId != variantId {
          assert items[1..][i] == items[i + 1];
        }
      }
      NoneDropped(items[1..], variantId);
    }
  }

  /** With unique keys, removing a variant lowers the total by exactly that line's price times quantity. */
  lemma TotalDropsByRemovedLine(items: seq<CartLine>, k: nat)
    requires UniqueKeys(items) && k < |items|
    ensures Total(Removed(items, items[k].variantId)) == Total(items) - LineTotal(items[k])
  {
    var line := items[k];
    TotalAfterRemove(items, line.variantId);
    DroppedUniqueLine(items, k);
    assert Total([line]) == LineTotal(line) by {
      assert [line][..0] == [];
    }
  }

  /** The store object: its one field is replaced by each operation. */
  class Store {
    var items: seq<CartLine>

    /** The store's invariant: one line per variant. */
    ghost predicate Valid()
      reads this
    {
      UniqueKeys(items)
    }

    constructor ()
      ensures items == [] && Valid()
    {
      items := [];
    }

    method AddItem(item: CartLine)
      modifies this
      ensures items == Added(old(items), item)
      ensures old(Valid()) ==> Valid()
    {
      if UniqueKeys(items) {
        AddKeepsKeysUnique(items, item);
      }
      if exists i :: 0 <= i < |items| && items[i].variantId == item.variantId {
        items := Merged(items, item);
      } else {
        items := items + [item];
      }
    }

    method RemoveItem(variantId: string)
      modifies this
      ensures items == Removed(old(items), variantId)
      ensures forall l :: l in items <==> l in old(items) && l.variantId != variantId
      ensures old(Valid()) ==> Valid()
      ensures forall k :: old(Valid()) && 0 <= k < |old(items)| && old(items)[k].variantId == variantId ==>
                GetTotal() == old(GetTotal()) - LineTotal(old(items)[k])
    {
      RemovedLines(items, variantId);
      if UniqueKeys(items) {
        RemovedKeepsKeysUnique(items, variantId);
        forall k | 0 <= k < |items| && items[k].variantId == variantId
          ensures Total(Removed(items, variantId)) == Total(items) - LineTotal(items[k])
        {
          TotalDropsByRemovedLine(items, k);
        }
      }
      items := Removed(items, variantId);
    }

    method UpdateQuantity(variantId: string, quantity: int)
      modifies this
      ensures items == WithQuantity(old(items), variantId, quantity)
      ensures old(Valid()) ==> Valid()
    {
      if UniqueKeys(items) {
        UpdateKeepsKeysUnique(items, variantId, quantity);
      }
      items := WithQuantity(items, variantId, quantity);
    }

    method ClearCart()
      modifies this
      ensures items == [] && Valid() && GetTotal() == 0.0
    {
      items := [];
    }

    /** `getTotal`: the sum of price times quantity over the lines, 0 for an empty cart. */
    function GetTotal(): (total: real)
      reads this
      ensures total == SumOfLines(items)
      ensures items == [] ==> total == 0.0
    {
      TotalIsSumOfLines(items);
      Total(items)
    }
  }
}
