/**
 * The server-side cart route: a table of rows keyed by (user, variant) holding
 * a quantity. Reading lists the caller's rows; adding checks the variant's
 * stock against the requested quantity and inserts or increments; removing
 * deletes the caller's row for one variant.
 */
module CartApi {
  import opened Wrappers
  import opened Schema

  datatype CartRow = CartRow(userId: Id, variantId: Id, quantity: int)

  datatype Reply<T> =
    | Ok(value: T)     // 200 / 201
    | Unauthorized     // 401
    | BadRequest       // 400
    | ServerError      // 500

  /** The stock check made before adding: only the requested quantity is compared. */
  predicate StockAllows(variants: map<Id, Variant>, variantId: Id, quantity: int) {
    variantId in variants && variants[variantId].stock >= quantity
  }

  /** The cart after an upsert: an existing row grows by `quantity`, a new one starts at it. */
  function Upserted(cart: map<CartKey, int>, key: CartKey, quantity: int): (r: map<CartKey, int>)
    ensures r.Keys == cart.Keys + {key}
    ensures r[key] == if key in cart then cart[key] + quantity else quantity
    ensures forall k :: k in cart && k != key ==> r[k] == cart[k]
  {
    cart[key := if key in cart then cart[key] + quantity else quantity]
  }

  /** The caller's rows, as variant id to quantity. */
  method GetCart(db: Database, session: Option<Session>) returns (r: Reply<map<Id, int>>)
    ensures session.None? ==> r == Unauthorized
    ensures session.Some? ==> r.Ok?
    ensures session.Some? ==>
              forall v :: v in r.value <==> CartKey(session.value.userId, v) in db.cart
    ensures session.Some? ==>
              forall v :: v in r.value ==> r.value[v] == db.cart[CartKey(session.value.userId, v)]
  {
    if session.None? {
      return Unauthorized;
    }
    var user := session.value.userId;
    r := Ok(map key | key in db.cart && key.userId == user :: key.variantId := db.cart[key]);
    assert forall v :: CartKey(user, v) in db.cart ==> v in r.value;
  }

  method AddToCart(db: Database, session: Option<Session>, variantId: Id, quantity: int) returns (r: Reply<CartRow>)
    requires db.Valid()
    modifies db`cart
    ensures db.Valid()
    ensures session.None? ==> r == Unauthorized && db.cart == old(db.cart)
    ensures session.Some? && !StockAllows(db.variants, variantId, quantity) ==>
              r == BadRequest && db.cart == old(db.cart)
    ensures session.Some? && StockAllows(db.variants, variantId, quantity) ==>
              var key := CartKey(session.value.userId, variantId);
              && db.cart == Upserted(old(db.cart), key, quantity)
              && r == Ok(CartRow(key.userId, variantId, db.cart[key]))
  {
    if session.None? {
      return Unauthorized;
    }
    if variantId !in db.variants || db.variants[variantId].stock < quantity {
      return BadRequest;
    }
    var key := CartKey(session.value.userId, variantId);
    if key in db.cart {
      db.cart := db.cart[key := db.cart[key] + quantity];
    } else {
      db.cart := db.cart[key := quantity];
    }
    r := Ok(CartRow(key.userId, variantId, db.cart[key]));
  }

  /**
   * `variantId` is the query parameter, `None` when absent. Deleting a row that
   * does not exist throws in the database layer and yields a 500.
   */
  method RemoveFromCart(db: Database, session: Option<Session>, variantId: Option<string>) returns (r: Reply<bool>)
    requires db.Valid()
    modifies db`cart
    ensures db.Valid()
    ensures session.None? ==> r == Unauthorized && db.cart == old(db.cart)
    ensures session.Some? && (variantId.None? || variantId.value == "") ==>
              r == BadRequest && db.cart == old(db.cart)
    ensures session.Some? && variantId.Some? && variantId.value != "" ==>
              var key := CartKey(session.value.userId, variantId.value);
              if key in old(db.cart) then r == Ok(true) && db.cart == old(db.cart) - {key}
              else r == ServerError && db.cart == old(db.cart)
  {
    if session.None? {
      return Unauthorized;
    }
    if variantId.None? || variantId.value == "" {
      return BadRequest;
    }
    var key := CartKey(session.value.userId, variantId.value);
    if key !in db.cart {
      return ServerError;
    }
    db.cart := db.cart - {key};
    r := Ok(true);
  }

  /** Removing a row takes away exactly that row: every other row, of any user, stays. */
  lemma RemoveTouchesOnlyThatRow(cart: map<CartKey, int>, key: CartKey)
    requires key in cart
    ensures var r := cart - {key};
            && key !in r && |r| == |cart| - 1
            && (forall k :: k in cart && k != key ==> k in r && r[k] == cart[k])
  {
    var r := cart - {key};
    assert r.Keys == cart.Keys - {key};
  }

  /**
   * The stock check looks at the requested quantity alone, so repeated adds can
   * accumulate a row larger than the stock: with 5 in stock and 4 already in the
   * cart, adding 3 passes the check and leaves 7.
   */
  lemma CartCanExceedStock(variants: map<Id, Variant>, cart: map<CartKey, int>, key: CartKey)
    requires key.variantId in variants && variants[key.variantId].stock == 5
    requires key in cart && cart[key] == 4
    ensures StockAllows(variants, key.variantId, 3)
    ensures Upserted(cart, key, 3)[key] == 7 > variants[key.variantId].stock
  {
  }

  /** Two adds of the same variant leave one row holding their sum. */
  lemma UpsertsAccumulate(cart: map<CartKey, int>, key: CartKey, a: int, b: int)
    ensures Upserted(Upserted(cart, key, a), key, b)[key] == (if key in cart then cart[key] else 0) + a + b
    ensures Upserted(Upserted(cart, key, a), key, b).Keys == cart.Keys + {key}
  {
  }
}
