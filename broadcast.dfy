/** POST /api/admin/marketing/broadcast (src/app/api/admin/marketing/broadcast/route.ts): send a
    WhatsApp message or an e-mail campaign to a customer segment and log the run. The order in
    which the store returns customers is the parameter `scan` (customer ids); whether each
    WhatsApp send settles as fulfilled is the parameter `fulfilled` (by position). */
module Broadcast {
  import opened Base
  import opened Store

  const TypeRequired := "type is required"
  const MessageRequired := "message is required"
  const SubjectAndBodyRequired := "subject and body are required"

  /** The JSON body; a field that is missing or empty (falsy) is None. */
  datatype BroadcastBody = BroadcastBody(kind: Option<string>, message: Option<string>, subject: Option<string>,
                                         body: Option<string>, segment: Option<string>)

  /** The segment filter: BUYERS, NON_BUYERS and REPEAT restrict on the order count; any other
      segment (or none) selects everyone. */
  predicate InSegment(segment: Option<string>, c: Customer) {
    if segment == Some("BUYERS") then c.totalOrders > 0
    else if segment == Some("NON_BUYERS") then c.totalOrders == 0
    else if segment == Some("REPEAT") then c.totalOrders > 1
    else true
  }

  /** The whole `where`: WhatsApp also needs the opt-in and a non-null phone. */
  predicate Wanted(kind: string, segment: Option<string>, c: Customer) {
    (kind == "whatsapp" ==> c.whatsappOptIn && c.phone.Some?) && InSegment(segment, c)
  }

  /** `customer.findMany({ where })` over the scanned rows, in scan order. */
  function Audience(t: Tables, scan: seq<string>, kind: string, segment: Option<string>): (r: seq<Customer>)
    ensures forall c :: c in r <==> exists id :: id in scan && id in t.customers && t.customers[id] == c && Wanted(kind, segment, c)
  {
    if scan == [] then []
    else
      var rest := Audience(t, scan[1..], kind, segment);
      assert forall id :: id in scan <==> id == scan[0] || id in scan[1..];
      if scan[0] in t.customers && Wanted(kind, segment, t.customers[scan[0]]) then [t.customers[scan[0]]] + rest else rest
  }

  /** `customers.map(c => c.phone!).filter(Boolean)` */
  function Phones(cs: seq<Customer>): (r: seq<string>)
    ensures |r| <= |cs|
    ensures forall p :: p in r <==> p != "" && exists c :: c in cs && c.phone == Some(p)
  {
    if cs == [] then []
    else
      var rest := Phones(cs[1..]);
      assert forall c :: c in cs <==> c == cs[0] || c in cs[1..];
      (if cs[0].phone.Some? && cs[0].phone.value != "" then [cs[0].phone.value] else []) + rest
  }

  function Emails(cs: seq<Customer>): (r: seq<string>)
    ensures |r| == |cs| && forall k :: 0 <= k < |cs| ==> r[k] == cs[k].email
  {
    if cs == [] then [] else [cs[0].email] + Emails(cs[1..])
  }

  /** How many of the first `n` sends settled as fulfilled. */
  function Fulfilled(fulfilled: nat -> bool, n: nat): (r: nat)
    ensures r <= n
    ensures (forall k :: 0 <= k < n ==> fulfilled(k)) ==> r == n
    ensures (forall k :: 0 <= k < n ==> !fulfilled(k)) ==> r == 0
  {
    if n == 0 then 0 else Fulfilled(fulfilled, n - 1) + (if fulfilled(n - 1) then 1 else 0)
  }

  /** The route on the store; the reply carries `sent`. */
  function BroadcastSpec(t: Tables, session: Session, b: BroadcastBody, scan: seq<string>, fulfilled: nat -> bool)
    : (r: (Tables, Reply<int>))
    ensures !IsAdmin(session) ==> r == (t, Failure(401, Unauthorized))
    ensures IsAdmin(session) && b.kind.None? ==> r == (t, Failure(400, TypeRequired))
    ensures IsAdmin(session) && b.kind == Some("whatsapp") && b.message.None? ==> r == (t, Failure(400, MessageRequired))
    ensures IsAdmin(session) && b.kind == Some("email") && (b.subject.None? || b.body.None?) ==>
              r == (t, Failure(400, SubjectAndBodyRequired))
    ensures r.1.Failure? ==> r.0 == t
    ensures r.0.(broadcasts := t.broadcasts) == t
    ensures |t.broadcasts| <= |r.0.broadcasts| <= |t.broadcasts| + 1 && r.0.broadcasts[..|t.broadcasts|] == t.broadcasts
    ensures |r.0.broadcasts| == |t.broadcasts| + 1 <==> r.1.Success? && b.kind.value in {"whatsapp", "email"}
  {
    if !IsAdmin(session) then (t, Failure(401, Unauthorized))
    else if b.kind.None? then (t, Failure(400, TypeRequired))
    else
      var kind := b.kind.value;
      if kind == "whatsapp" && b.message.None? then (t, Failure(400, MessageRequired))
      else if kind == "email" && (b.subject.None? || b.body.None?) then (t, Failure(400, SubjectAndBodyRequired))
      else
        var cs := Audience(t, scan, kind, b.segment);
        var logged := if b.segment.Some? then b.segment.value else "ALL";
        if kind == "whatsapp" then
          var phones := Phones(cs);
          var sent := Fulfilled(fulfilled, |phones|);
          (t.(broadcasts := t.broadcasts + [BroadcastLog(WhatsApp, logged, sent, |phones| - sent)]), Success(sent))
        else if kind == "email" then
          var sent := |Emails(cs)|;
          (t.(broadcasts := t.broadcasts + [BroadcastLog(Email, logged, sent, 0)]), Success(sent))
        else (t, Success(0))
  }

  method Send(db: Db, session: Session, b: BroadcastBody, scan: seq<string>, fulfilled: nat -> bool)
    returns (r: Reply<int>)
    modifies db
    ensures (db.Snapshot(), r) == BroadcastSpec(old(db.Snapshot()), session, b, scan, fulfilled)
  {
    if !IsAdmin(session) {
      return Failure(401, Unauthorized);
    }
    if b.kind.None? {
      return Failure(400, TypeRequired);
    }
    var kind := b.kind.value;
    if kind == "whatsapp" && b.message.None? {
      return Failure(400, MessageRequired);
    }
    if kind == "email" && (b.subject.None? || b.body.None?) {
      return Failure(400, SubjectAndBodyRequired);
    }
    var cs := Audience(db.Snapshot(), scan, kind, b.segment);
    var logged := if b.segment.Some? then b.segment.value else "ALL";
    var sent := 0;
    if kind == "whatsapp" {
      var phones := Phones(cs);
      sent := Fulfilled(fulfilled, |phones|);
      db.broadcasts := db.broadcasts + [BroadcastLog(WhatsApp, logged, sent, |phones| - sent)];
    } else if kind == "email" {
      sent := |Emails(cs)|;
      db.broadcasts := db.broadcasts + [BroadcastLog(Email, logged, sent, 0)];
    }
    r := Success(sent);
  }

  // ---------------------------------------------------------------------------------------------
  // Properties

  /** A WhatsApp message only goes to opted-in customers with a phone, in the chosen segment. */
  lemma {:induction false} WhatsAppOnlyToOptedIn(t: Tables, scan: seq<string>, segment: Option<string>, p: string)
    requires p in Phones(Audience(t, scan, "whatsapp", segment))
    ensures exists id :: id in scan && id in t.customers && t.customers[id].phone == Some(p) &&
                         t.customers[id].whatsappOptIn && InSegment(segment, t.customers[id])
  {
    var c :| c in Audience(t, scan, "whatsapp", segment) && c.phone == Some(p);
    var id :| id in scan && id in t.customers && t.customers[id] == c && Wanted("whatsapp", segment, c);
  }

  /** The segments: REPEAT customers are buyers, and BUYERS and NON_BUYERS split the customers
      (order counts being never negative); an unknown segment selects everyone. */
  lemma {:induction false} SegmentsPartition(c: Customer, other: string)
    requires c.totalOrders >= 0 && other !in {"BUYERS", "NON_BUYERS", "REPEAT"}
    ensures InSegment(Some("REPEAT"), c) ==> InSegment(Some("BUYERS"), c)
    ensures InSegment(Some("BUYERS"), c) != InSegment(Some("NON_BUYERS"), c)
    ensures InSegment(Some(other), c) && InSegment(None, c)
  {
  }

  /** The WhatsApp log row splits every send into fulfilled and rejected ones; the e-mail count
      is every recipient, whatever became of each send. */
  lemma {:induction false} LoggedCounts(t: Tables, session: Session, b: BroadcastBody, scan: seq<string>,
                                        fulfilled: nat -> bool)
    requires BroadcastSpec(t, session, b, scan, fulfilled).1.Success? && b.kind.value in {"whatsapp", "email"}
    ensures var (t', r) := BroadcastSpec(t, session, b, scan, fulfilled);
            var log := t'.broadcasts[|t.broadcasts|];
            var cs := Audience(t, scan, b.kind.value, b.segment);
            log.sent == r.body && log.sent >= 0 && log.failed >= 0 &&
            log.segment == (if b.segment.Some? then b.segment.value else "ALL") &&
            (b.kind.value == "whatsapp" ==> log.channel == WhatsApp && log.sent + log.failed == |Phones(cs)|) &&
            (b.kind.value == "email" ==> log.channel == Email && log.sent == |cs| && log.failed == 0)
  {
  }
}
