/** GET /api/cron/abandoned-cart (src/app/api/cron/abandoned-cart/route.ts): the two-stage
    WhatsApp reminder job. It picks at most 50 idle carts of opted-in customers with a phone and
    takes each one step along first reminder, then (a day later) a one-use discount coupon.
    The sends are fire-and-forget (their failures are caught and ignored), so they are no-ops
    here; the clock and the random coupon suffixes are parameters. */
module AbandonedCart {
  import opened Base
  import opened Coupons
  import opened Store

  const HourMs := 3600000
  const DayMs := 86400000
  const BatchSize := 50
  /** The route has no try/catch, so a throw reaches the framework, which answers a bare 500
      without the error's message; this body stands for that generic reply. */
  const Unhandled := "Internal Server Error"

  /** A selected cart with the customer fields the loop reads. */
  datatype Candidate = Candidate(cart: Cart, phone: Option<string>)

  /** The query's filter: updated at least an hour ago, with an item, owned by an opted-in
      customer whose phone is not null. */
  predicate Eligible(t: Tables, c: Cart, now: int) {
    c.updatedAt <= now - HourMs && c.itemCount > 0 && c.customerId.Some? && c.customerId.value in t.customers &&
    t.customers[c.customerId.value].phone.Some? && t.customers[c.customerId.value].whatsappOptIn
  }

  function EligibleOf(t: Tables, carts: seq<Cart>, now: int): (r: seq<Candidate>)
    ensures |r| <= |carts|
    ensures forall k :: 0 <= k < |r| ==> r[k].cart in carts && Eligible(t, r[k].cart, now) &&
                                         r[k].phone == t.customers[r[k].cart.customerId.value].phone
  {
    if carts == [] then []
    else
      var rest := EligibleOf(t, carts[1..], now);
      if Eligible(t, carts[0], now) then [Candidate(carts[0], t.customers[carts[0].customerId.value].phone)] + rest
      else rest
  }

  /** Nothing eligible is missed: every eligible cart of the table is a candidate. */
  lemma {:induction false} EligibleOfComplete(t: Tables, carts: seq<Cart>, now: int, c: Cart)
    requires c in carts && Eligible(t, c, now)
    ensures exists k :: 0 <= k < |EligibleOf(t, carts, now)| && EligibleOf(t, carts, now)[k].cart == c
  {
    var r := EligibleOf(t, carts, now);
    var rest := EligibleOf(t, carts[1..], now);
    if c == carts[0] {
      assert r[0].cart == c;
    } else {
      assert c in carts[1..];
      EligibleOfComplete(t, carts[1..], now, c);
      var k :| 0 <= k < |rest| && rest[k].cart == c;
      if Eligible(t, carts[0], now) {
        assert r[k + 1] == rest[k];
      } else {
        assert r[k] == rest[k];
      }
    }
  }

  /** The filter keeps table order: filtering a concatenation filters each part. */
  lemma {:induction false} EligibleOfAppend(t: Tables, a: seq<Cart>, b: seq<Cart>, now: int)
    ensures EligibleOf(t, a + b, now) == EligibleOf(t, a, now) + EligibleOf(t, b, now)
  {
    if a == [] {
      assert a + b == b;
    } else {
      var ab := a + b;
      assert ab[0] == a[0] && ab[1..] == a[1..] + b;
      EligibleOfAppend(t, a[1..], b, now);
      var head := EligibleOf(t, [a[0]], now);
      EligibleOfSingle(t, a[0], now);
      assert EligibleOf(t, ab, now) == head + EligibleOf(t, ab[1..], now);
      assert EligibleOf(t, a, now) == head + EligibleOf(t, a[1..], now);
    }
  }

  /** A single cart is kept exactly when it is eligible, with its customer's phone. */
  lemma EligibleOfSingle(t: Tables, c: Cart, now: int)
    ensures EligibleOf(t, [c], now) == if Eligible(t, c, now) then [Candidate(c, t.customers[c.customerId.value].phone)] else []
  {
    assert [c][1..] == [];
  }

  /** `take: 50` of the filtered carts, in table order. */
  function Selected(t: Tables, now: int): (r: seq<Candidate>)
    ensures |r| <= BatchSize
    ensures forall k :: 0 <= k < |r| ==> r[k].cart in t.carts && Eligible(t, r[k].cart, now)
    ensures |r| == Min(BatchSize, |EligibleOf(t, t.carts, now)|)
    ensures r == EligibleOf(t, t.carts, now)[..|r|]
  {
    var all := EligibleOf(t, t.carts, now);
    if |all| <= BatchSize then all else all[..BatchSize]
  }

  datatype Action = NoAction | FirstReminder | DiscountReminder

  /** What the loop does with one cart: skip it without a usable phone or items; the first
      reminder when none was sent; the discount when the first is a day old and no discount was
      sent; otherwise nothing. */
  function ActionFor(c: Candidate, now: int): (a: Action)
    ensures a == FirstReminder <==> c.phone.Some? && c.phone.value != "" && c.cart.itemCount > 0 &&
                                    c.cart.recoveryWASentAt.None?
    ensures a == DiscountReminder <==> c.phone.Some? && c.phone.value != "" && c.cart.itemCount > 0 &&
                                       c.cart.recoveryWASentAt.Some? && c.cart.recoveryWASentAt.value <= now - DayMs &&
                                       c.cart.recoveryEmailSentAt.None?
  {
    if c.phone.None? || c.phone.value == "" || c.cart.itemCount == 0 then NoAction
    else if c.cart.recoveryWASentAt.None? then FirstReminder
    else if c.cart.recoveryWASentAt.value <= now - DayMs && c.cart.recoveryEmailSentAt.None? then DiscountReminder
    else NoAction
  }

  /** The cart row after its action. */
  function Advanced(c: Cart, a: Action, now: int): Cart {
    match a
    case NoAction => c
    case FirstReminder => c.(recoveryWASentAt := Some(now))
    case DiscountReminder => c.(recoveryEmailSentAt := Some(now))
  }

  /** `cart.update({ where: { id } })` on every row with that id. */
  function UpdateCart(carts: seq<Cart>, id: string, a: Action, now: int): (r: seq<Cart>)
    ensures |r| == |carts|
    ensures forall k :: 0 <= k < |r| ==> r[k] == (if carts[k].id == id then Advanced(carts[k], a, now) else carts[k])
  {
    seq(|carts|, k requires 0 <= k < |carts| => if carts[k].id == id then Advanced(carts[k], a, now) else carts[k])
  }

  /** The one-use 5% coupon of the second stage; the other columns take their defaults. */
  function BackCoupon(code: string, now: int): (c: Coupon)
    ensures c.code == code && c.discountType == Percent && c.discountValue == 5
    ensures c.maxUses == Some(1) && c.usedCount == 0 && c.expiresAt == Some(now + DayMs) && c.isActive
  {
    Coupon(code, Percent, 5, 0, Some(1), 0, Some(now + DayMs), true, None)
  }

  /** One iteration's writes; None when the coupon insert throws on a taken code. */
  function StepTables(t: Tables, c: Candidate, now: int, code: string): (r: Option<Tables>)
    ensures ActionFor(c, now) == NoAction ==> r == Some(t)
    ensures r.None? <==> ActionFor(c, now) == DiscountReminder && code in t.coupons
    ensures r.Some? ==> r.value.carts == UpdateCart(t.carts, c.cart.id, ActionFor(c, now), now)
    ensures r.Some? ==> r.value.(carts := t.carts, coupons := t.coupons) == t
    ensures r.Some? ==> forall k :: k in t.coupons ==> k in r.value.coupons && r.value.coupons[k] == t.coupons[k]
  {
    match ActionFor(c, now)
    case NoAction => Some(t)
    case FirstReminder => Some(t.(carts := UpdateCart(t.carts, c.cart.id, FirstReminder, now)))
    case DiscountReminder =>
      if code in t.coupons then None
      else
        Some(t.(coupons := t.coupons[code := BackCoupon(code, now)],
                carts := UpdateCart(t.carts, c.cart.id, DiscountReminder, now)))
  }

  datatype RunState = RunState(t: Tables, firstReminders: nat, discountReminders: nat)

  /** One iteration with its counters. */
  function Step(s: RunState, c: Candidate, now: int, code: string): (r: Option<RunState>)
    ensures r.Some? ==> r.value.firstReminders + r.value.discountReminders <=
                        s.firstReminders + s.discountReminders + 1
  {
    match StepTables(s.t, c, now, code)
    case None => None
    case Some(t') =>
      var a := ActionFor(c, now);
      Some(RunState(t', s.firstReminders + (if a == FirstReminder then 1 else 0),
                    s.discountReminders + (if a == DiscountReminder then 1 else 0)))
  }

  datatype Outcome = Done(s: RunState) | Crashed(t: Tables)

  /** The loop from the `i`-th selected cart on; `codes(i)` is the suffix drawn for that cart.
      A throw ends the run with the writes made so far. */
  function Process(s: RunState, sel: seq<Candidate>, now: int, codes: nat -> string, i: nat): (o: Outcome)
    requires i <= |sel|
    decreases |sel| - i
  {
    if i == |sel| then Done(s)
    else match Step(s, sel[i], now, "BACK" + codes(i))
      case None => Crashed(s.t)
      case Some(next) => Process(next, sel, now, codes, i + 1)
  }

  datatype Counts = Counts(firstReminders: nat, discountReminders: nat)

  /** The route on the store. */
  function RunSpec(t: Tables, secret: Option<string>, configured: Option<string>, now: int, codes: nat -> string)
    : (r: (Tables, Reply<Counts>))
    ensures !(secret.Some? && secret == configured) ==> r == (t, Failure(401, Unauthorized))
  {
    if !(secret.Some? && secret == configured) then (t, Failure(401, Unauthorized))
    else
      match Process(RunState(t, 0, 0), Selected(t, now), now, codes, 0)
      case Crashed(t') => (t', Failure(500, Unhandled))
      case Done(s) => (s.t, Success(Counts(s.firstReminders, s.discountReminders)))
  }

  method Run(db: Db, secret: Option<string>, configured: Option<string>, now: int, codes: nat -> string)
    returns (r: Reply<Counts>)
    modifies db
    ensures (db.Snapshot(), r) == RunSpec(old(db.Snapshot()), secret, configured, now, codes)
  {
    if !(secret.Some? && secret == configured) {
      return Failure(401, Unauthorized);
    }
    ghost var t0 := db.Snapshot();
    var sel := Selected(db.Snapshot(), now);
    var firstReminders, discountReminders := 0, 0;
    var i := 0;
    while i < |sel|
      invariant 0 <= i <= |sel|
      invariant Process(RunState(db.Snapshot(), firstReminders, discountReminders), sel, now, codes, i) ==
                Process(RunState(t0, 0, 0), sel, now, codes, 0)
      decreases |sel| - i
    {
      ghost var s := RunState(db.Snapshot(), firstReminders, discountReminders);
      var ok;
      ok, firstReminders, discountReminders := Advance(db, sel[i], now, "BACK" + codes(i), firstReminders, discountReminders);
      if !ok {
        assert Process(s, sel, now, codes, i) == Crashed(s.t);
        return Failure(500, Unhandled);
      }
      i := i + 1;
    }
    r := Success(Counts(firstReminders, discountReminders));
  }

  /** One iteration: the writes for the cart and the counter it bumps. */
  method Advance(db: Db, c: Candidate, now: int, code: string, first: nat, discount: nat)
    returns (ok: bool, first': nat, discount': nat)
    modifies db
    ensures var next := Step(RunState(old(db.Snapshot()), first, discount), c, now, code);
            (ok <==> next.Some?) && (ok ==> RunState(db.Snapshot(), first', discount') == next.value) &&
            (!ok ==> db.Snapshot() == old(db.Snapshot()))
  {
    ok := Remind(db, c, now, code);
    var a := ActionFor(c, now);
    first', discount' := first, discount;
    if a == FirstReminder {
      first' := first + 1;
    } else if a == DiscountReminder {
      discount' := discount + 1;
    }
  }

  /** The writes for one cart: the coupon insert (second stage) and the cart update. */
  method Remind(db: Db, c: Candidate, now: int, code: string) returns (ok: bool)
    modifies db
    ensures ok <==> StepTables(old(db.Snapshot()), c, now, code).Some?
    ensures ok ==> db.Snapshot() == StepTables(old(db.Snapshot()), c, now, code).value
    ensures !ok ==> db.Snapshot() == old(db.Snapshot())
  {
    var a := ActionFor(c, now);
    if a == FirstReminder {
      db.carts := UpdateCart(db.carts, c.cart.id, FirstReminder, now);
    } else if a == DiscountReminder {
      if code in db.coupons {
        return false;
      }
      db.coupons := db.coupons[code := BackCoupon(code, now)];
      db.carts := UpdateCart(db.carts, c.cart.id, DiscountReminder, now);
    }
    return true;
  }

  // ---------------------------------------------------------------------------------------------
  // Properties

  /** Each selected cart takes at most one action, so a finished run counts at most one reminder
      per selected cart, and never more than 50. */
  lemma {:induction false} ProcessCountsBounded(s: RunState, sel: seq<Candidate>, now: int, codes: nat -> string, i: nat)
    requires i <= |sel|
    requires Process(s, sel, now, codes, i).Done?
    ensures var d := Process(s, sel, now, codes, i).s;
            d.firstReminders + d.discountReminders <= s.firstReminders + s.discountReminders + (|sel| - i)
    decreases |sel| - i
  {
    if i < |sel| {
      var next := Step(s, sel[i], now, "BACK" + codes(i));
      ProcessCountsBounded(next.value, sel, now, codes, i + 1);
    }
  }

  lemma {:induction false} RunCountsBounded(t: Tables, secret: Option<string>, configured: Option<string>, now: int,
                                            codes: nat -> string)
    requires RunSpec(t, secret, configured, now, codes).1.Success?
    ensures var n := RunSpec(t, secret, configured, now, codes).1.body;
            n.firstReminders + n.discountReminders <= |Selected(t, now)| <= BatchSize
  {
    ProcessCountsBounded(RunState(t, 0, 0), Selected(t, now), now, codes, 0);
  }

  /** The timestamps guard the stages: after the first reminder a cart never gets it again, and
      after the discount it never gets anything again, whatever the time of later runs. */
  lemma {:induction false} StagesHappenOnce(c: Candidate, now: int, later: int)
    ensures ActionFor(c, now) == FirstReminder ==>
      ActionFor(c.(cart := Advanced(c.cart, FirstReminder, now)), later) != FirstReminder
    ensures ActionFor(c, now) == DiscountReminder ==>
      ActionFor(c.(cart := Advanced(c.cart, DiscountReminder, now)), later) == NoAction
  {
  }

  /** The discount stage needs a full day since the first reminder: a run in the same day leaves
      a freshly reminded cart alone. */
  lemma {:induction false} DiscountWaitsADay(c: Candidate, now: int, later: int)
    requires ActionFor(c, now) == FirstReminder
    requires later < now + DayMs
    ensures ActionFor(c.(cart := Advanced(c.cart, FirstReminder, now)), later) == NoAction
  {
  }

  /** A whole run only touches the cart rows' reminder stamps and adds coupons: every other
      table is the same, no coupon is overwritten, and each cart row keeps its id, owner, time
      and items. */
  lemma {:induction false} ProcessFrame(s: RunState, sel: seq<Candidate>, now: int, codes: nat -> string, i: nat)
    requires i <= |sel|
    ensures var t' := match Process(s, sel, now, codes, i) case Done(d) => d.t case Crashed(x) => x;
            t'.(carts := s.t.carts, coupons := s.t.coupons) == s.t &&
            (forall code :: code in s.t.coupons ==> code in t'.coupons && t'.coupons[code] == s.t.coupons[code]) &&
            |t'.carts| == |s.t.carts| &&
            (forall k :: 0 <= k < |t'.carts| ==>
               t'.carts[k].(recoveryWASentAt := s.t.carts[k].recoveryWASentAt,
                            recoveryEmailSentAt := s.t.carts[k].recoveryEmailSentAt) == s.t.carts[k])
    decreases |sel| - i
  {
    if i < |sel| {
      var next := Step(s, sel[i], now, "BACK" + codes(i));
      if next.Some? {
        assert next.value.t == StepTables(s.t, sel[i], now, "BACK" + codes(i)).value;
        ProcessFrame(next.value, sel, now, codes, i + 1);
      }
    }
  }
}
