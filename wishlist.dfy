/** /api/account/wishlist (src/app/api/account/wishlist/route.ts): a customer's saved products.
    The wishlist table is the set of (customer id, product id) pairs it holds. Whether the store
    answers at all is the parameter `ok`; product details in the GET reply are not modelled. */
module Wishlist {
  import opened Base
  import opened Store

  const ProductIdRequired := "Product ID required"

  datatype Action = Added | Removed | Unavailable

  /** GET: the customer's product ids, or the empty list when the query throws. */
  function ListSpec(wishlist: set<(string, string)>, session: Session, ok: bool): (r: Reply<set<string>>)
    ensures !IsCustomer(session) ==> r == Failure(401, Unauthorized)
    ensures IsCustomer(session) && !ok ==> r == Success({})
    ensures IsCustomer(session) && ok ==> r.Success? && forall p :: p in r.body <==> (session.id, p) in wishlist
  {
    if !IsCustomer(session) then Failure(401, Unauthorized)
    else if !ok then Success({})
    else Success(set pair | pair in wishlist && pair.0 == session.id :: pair.1)
  }

  /** POST: `productId` is None when missing or empty. Adding a product that does not exist, or
      for a session whose customer row is gone, breaks a foreign key and the insert throws, like
      an unavailable store. */
  function ToggleSpec(t: Tables, session: Session, productId: Option<string>, ok: bool)
    : (r: (set<(string, string)>, Reply<Action>))
    ensures !IsCustomer(session) ==> r == (t.wishlist, Failure(401, Unauthorized))
    ensures IsCustomer(session) && productId.None? ==> r == (t.wishlist, Failure(400, ProductIdRequired))
    ensures r.1.Failure? || r.1 == Success(Unavailable) ==> r.0 == t.wishlist
    ensures r.1 == Success(Removed) <==> IsCustomer(session) && productId.Some? && ok &&
                                         (session.id, productId.value) in t.wishlist
    ensures r.1 == Success(Added) <==> IsCustomer(session) && productId.Some? && ok &&
                                       (session.id, productId.value) !in t.wishlist && productId.value in t.products &&
                                       session.id in t.customers
    ensures r.1 == Success(Removed) ==> r.0 == t.wishlist - {(session.id, productId.value)}
    ensures r.1 == Success(Added) ==> r.0 == t.wishlist + {(session.id, productId.value)}
  {
    if !IsCustomer(session) then (t.wishlist, Failure(401, Unauthorized))
    else if productId.None? then (t.wishlist, Failure(400, ProductIdRequired))
    else if !ok then (t.wishlist, Success(Unavailable))
    else
      var pair := (session.id, productId.value);
      if pair in t.wishlist then (t.wishlist - {pair}, Success(Removed))
      else if productId.value !in t.products || session.id !in t.customers then (t.wishlist, Success(Unavailable))
      else (t.wishlist + {pair}, Success(Added))
  }

  method Toggle(db: Db, session: Session, productId: Option<string>, ok: bool) returns (r: Reply<Action>)
    modifies db
    ensures (db.Snapshot(), r) == (var (w, reply) := ToggleSpec(old(db.Snapshot()), session, productId, ok);
                                   (old(db.Snapshot()).(wishlist := w), reply))
  {
    if !IsCustomer(session) {
      return Failure(401, Unauthorized);
    }
    if productId.None? {
      return Failure(400, ProductIdRequired);
    }
    if !ok {
      return Success(Unavailable);
    }
    var pair := (session.id, productId.value);
    if pair in db.wishlist {
      db.wishlist := db.wishlist - {pair};
      return Success(Removed);
    }
    if productId.value !in db.products || session.id !in db.customers {
      return Success(Unavailable);
    }
    db.wishlist := db.wishlist + {pair};
    r := Success(Added);
  }

  /** Two toggles of the same product restore the original wishlist. */
  lemma {:induction false} ToggleTwiceRestores(t: Tables, session: Session, p: string)
    requires IsCustomer(session) && p in t.products && session.id in t.customers
    ensures var t1 := t.(wishlist := ToggleSpec(t, session, Some(p), true).0);
            ToggleSpec(t1, session, Some(p), true).0 == t.wishlist
  {
    var pair := (session.id, p);
    var t1 := t.(wishlist := ToggleSpec(t, session, Some(p), true).0);
    if pair in t.wishlist {
      assert t1.wishlist + {pair} == t.wishlist;
    } else {
      assert t1.wishlist - {pair} == t.wishlist;
    }
  }

  /** A toggle flips membership of the one pair and touches no other. */
  lemma {:induction false} ToggleTouchesOnePair(t: Tables, session: Session, p: string, ok: bool, other: (string, string))
    requires IsCustomer(session) && other != (session.id, p)
    ensures var w := ToggleSpec(t, session, Some(p), ok).0;
            (other in w <==> other in t.wishlist) &&
            (ToggleSpec(t, session, Some(p), ok).1 == Success(Added) ==> (session.id, p) in w) &&
            (ToggleSpec(t, session, Some(p), ok).1 == Success(Removed) ==> (session.id, p) !in w)
  {
  }
}
