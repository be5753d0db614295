/** POST /api/reviews (src/app/api/reviews/route.ts): a customer submits a review, at most one per
    product, under the review rate limit. The clock and the new row's id are parameters. */
module Reviews {
  import opened Base
  import opened Text
  import opened Schemas
  import opened Store
  import opened RateLimit

  const ReviewPreset: Preset := Preset.Review
  const LoginRequired := "Please login to submit a review"
  const TooMany := "You have submitted too many reviews recently. Please try again later."
  const AlreadyReviewed := "You have already reviewed this product"
  const SubmitFailed := "Failed to submit review"

  /** Some review of this product by this customer. */
  predicate HasReviewed(reviews: map<string, Review>, customerId: string, productId: string) {
    exists id :: id in reviews && reviews[id].customerId == customerId && reviews[id].productId == productId
  }

  /** The row: `title?.trim() || null`, the body trimmed, not yet published. */
  function NewReview(customerId: string, b: ReviewBody): (r: Review)
    ensures r.customerId == customerId && r.productId == b.productId && r.rating == b.rating && !r.isPublished
    ensures r.body == Trim(b.body)
    ensures r.title.None? <==> b.title.None? || Trim(b.title.value) == ""
    ensures r.title.Some? ==> r.title.value == Trim(b.title.value)
  {
    Store.Review(customerId, b.productId, b.rating,
           if b.title.Some? && Trim(b.title.value) != "" then Some(Trim(b.title.value)) else None,
           Trim(b.body), false)
  }

  /** The route on the store and the limiter's map. A product that does not exist, or a session
      whose customer row is gone, breaks a foreign key: the insert throws and the reply is 500. */
  function SubmitSpec(t: Tables, limits: map<string, Entry>, session: Session, b: ReviewBody, now: int, newId: string)
    : (r: (Tables, map<string, Entry>, Reply<string>))
    ensures !IsCustomer(session) ==> r == (t, limits, Failure(401, LoginRequired))
    ensures IsCustomer(session) ==>
      r.1 == Hit(limits, Key(ReviewPreset, session.id), Settings(ReviewPreset).0, Settings(ReviewPreset).1, now).0
    ensures r.2.Failure? ==> r.0 == t
    ensures r.2.Success? <==>
      IsCustomer(session) && Hit(limits, Key(ReviewPreset, session.id), Settings(ReviewPreset).0, Settings(ReviewPreset).1, now).1.success &&
      ReviewIssues(b) == [] && !HasReviewed(t.reviews, session.id, b.productId) &&
      b.productId in t.products && session.id in t.customers && newId !in t.reviews
    ensures r.2.Success? ==> r.2.body == newId && r.0 == t.(reviews := t.reviews[newId := NewReview(session.id, b)])
  {
    if !IsCustomer(session) then (t, limits, Failure(401, LoginRequired))
    else
      var (limits', rl) := Hit(limits, Key(ReviewPreset, session.id), Settings(ReviewPreset).0, Settings(ReviewPreset).1, now);
      if !rl.success then (t, limits', Failure(429, TooMany))
      else
        var issues := ReviewIssues(b);
        if issues != [] then (t, limits', Failure(400, issues[0]))
        else if HasReviewed(t.reviews, session.id, b.productId) then (t, limits', Failure(409, AlreadyReviewed))
        else if b.productId !in t.products || session.id !in t.customers || newId in t.reviews then (t, limits', Failure(500, SubmitFailed))
        else (t.(reviews := t.reviews[newId := NewReview(session.id, b)]), limits', Success(newId))
  }

  method Submit(db: Db, limiter: Limiter, session: Session, b: ReviewBody, now: int, newId: string)
    returns (r: Reply<string>)
    modifies db, limiter
    ensures (db.Snapshot(), limiter.store, r) == SubmitSpec(old(db.Snapshot()), old(limiter.store), session, b, now, newId)
  {
    if !IsCustomer(session) {
      return Failure(401, LoginRequired);
    }
    var rl := limiter.Limit(ReviewPreset, session.id, now);
    if !rl.success {
      return Failure(429, TooMany);
    }
    var issues := ReviewIssues(b);
    if issues != [] {
      return Failure(400, issues[0]);
    }
    if HasReviewed(db.reviews, session.id, b.productId) {
      return Failure(409, AlreadyReviewed);
    }
    if b.productId !in db.products || session.id !in db.customers || newId in db.reviews {
      return Failure(500, SubmitFailed);
    }
    db.reviews := db.reviews[newId := NewReview(session.id, b)];
    r := Success(newId);
  }

  // ---------------------------------------------------------------------------------------------
  // Properties

  /** No two reviews of the same product by the same customer. */
  predicate OnePerProduct(reviews: map<string, Review>) {
    forall a, b ::
      (a in reviews && b in reviews && reviews[a].customerId == reviews[b].customerId &&
       reviews[a].productId == reviews[b].productId) ==> a == b
  }

  /** Inserting a review for a pair that has none keeps one review per pair. */
  lemma {:induction false} InsertKeepsOnePerProduct(reviews: map<string, Review>, newId: string, r: Review)
    requires OnePerProduct(reviews) && newId !in reviews && !HasReviewed(reviews, r.customerId, r.productId)
    ensures OnePerProduct(reviews[newId := r])
  {
  }

  /** Submitting keeps one review per (customer, product), and a second submission for the same
      product is refused with 409 (when the limiter lets it through). */
  lemma {:induction false} SubmitKeepsOnePerProduct(t: Tables, limits: map<string, Entry>, session: Session,
                                                    b: ReviewBody, now: int, newId: string, later: int, otherId: string)
    requires OnePerProduct(t.reviews)
    ensures var (t1, l1, r) := SubmitSpec(t, limits, session, b, now, newId);
            OnePerProduct(t1.reviews) &&
            (r.Success? && Hit(l1, Key(ReviewPreset, session.id), Settings(ReviewPreset).0, Settings(ReviewPreset).1, later).1.success ==>
               SubmitSpec(t1, l1, session, b, later, otherId).2 == Failure(409, AlreadyReviewed))
  {
    var (t1, l1, r) := SubmitSpec(t, limits, session, b, now, newId);
    if r.Success? {
      InsertKeepsOnePerProduct(t.reviews, newId, NewReview(session.id, b));
      assert t1.reviews[newId].customerId == session.id && t1.reviews[newId].productId == b.productId;
    }
  }

  /** The limiter counts the request before the body is read: a rejected body uses up a slot
      just as an accepted one does, and a request over the limit is refused whatever its body. */
  lemma {:induction false} LimitBeforeValidation(t: Tables, limits: map<string, Entry>, session: Session,
                                                 b: ReviewBody, c: ReviewBody, now: int, newId: string)
    requires IsCustomer(session)
    ensures SubmitSpec(t, limits, session, b, now, newId).1 == SubmitSpec(t, limits, session, c, now, newId).1
    ensures !Hit(limits, Key(ReviewPreset, session.id), Settings(ReviewPreset).0, Settings(ReviewPreset).1, now).1.success ==>
              SubmitSpec(t, limits, session, b, now, newId) == SubmitSpec(t, limits, session, c, now, newId) &&
              SubmitSpec(t, limits, session, b, now, newId).2 == Failure(429, TooMany)
  {
  }

  /** A new review never appears on the site before an admin publishes it. */
  lemma {:induction false} NewReviewsUnpublished(t: Tables, limits: map<string, Entry>, session: Session,
                                                 b: ReviewBody, now: int, newId: string, id: string)
    requires id in t.reviews ==> !t.reviews[id].isPublished
    ensures var t1 := SubmitSpec(t, limits, session, b, now, newId).0;
            id in t1.reviews ==> !t1.reviews[id].isPublished
  {
  }
}
