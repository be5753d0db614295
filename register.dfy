/** POST /api/auth/register (src/app/api/auth/register/route.ts): the register limiter first,
    then `RegisterSchema`, the duplicate-email check and the customer insert. The client IP, the
    clock, the new row's id and bcrypt (`hash`) are parameters. */
module Register {
  import opened Base
  import opened Schemas
  import opened Store
  import opened RateLimit

  /** The fields the route selects from the new row. */
  datatype Registered = Registered(id: string, name: string, email: string)

  /** A reply and the Retry-After header (seconds) that comes with a 429. */
  datatype Response = Response(reply: Reply<Registered>, retryAfter: Option<int>)

  const TooMany := "Too many registration attempts. Please try again later."
  const EmailTaken := "An account with this email already exists"
  const RegistrationFailed := "Registration failed"

  /** The row: `phone || null`, no WhatsApp opt-in, the hashed password, zero counters. */
  function NewCustomer(b: RegisterBody, hash: string -> string): (c: Customer)
    ensures c.phone.None? <==> b.phone.None? || b.phone.value == ""
    ensures c.phone.Some? ==> c.phone == b.phone
    ensures !c.whatsappOptIn && c.totalOrders == 0 && c.totalSpent == 0 && c.lastOrderAt.None?
    ensures c.name == b.name && c.email == b.email && c.password == Some(hash(b.password))
  {
    Customer(b.name, b.email, if b.phone.Some? && b.phone.value != "" then b.phone else None, false, 0, 0, None,
             Some(hash(b.password)))
  }

  /** What the route does once the limiter lets the request through: the body's first issue,
      then the duplicate-email check, then the insert. */
  function AdmitSpec(t: Tables, b: RegisterBody, newId: string, hash: string -> string): (r: (Tables, Reply<Registered>))
    ensures r.1.Failure? ==> r.0 == t
    ensures r.1.Success? <==> RegisterIssues(b) == [] && FindByEmail(t, b.email).None? &&
                              newId !in t.customers && b.email !in t.emailIndex
    ensures r.1.Success? ==> r.1.body == Registered(newId, b.name, b.email)
  {
    var issues := RegisterIssues(b);
    if issues != [] then (t, Failure(400, issues[0]))
    else if FindByEmail(t, b.email).Some? then (t, Failure(409, EmailTaken))
    else if newId in t.customers || b.email in t.emailIndex then (t, Failure(500, RegistrationFailed))
    else
      (t.(customers := t.customers[newId := NewCustomer(b, hash)], emailIndex := t.emailIndex[b.email := newId]),
       Success(Registered(newId, b.name, b.email)))
  }

  /** The route on the store and the limiter's map. */
  function RegisterSpec(t: Tables, limits: map<string, Entry>, ip: string, b: RegisterBody, now: int,
                        newId: string, hash: string -> string): (r: (Tables, map<string, Entry>, Response))
    ensures r.1 == Hit(limits, Key(Register, ip), Settings(Register).0, Settings(Register).1, now).0
    ensures r.2.reply.Failure? ==> r.0 == t
    ensures r.2.retryAfter.Some? <==> r.2.reply == Failure(429, TooMany)
  {
    var (limits', rl) := Hit(limits, Key(Register, ip), Settings(Register).0, Settings(Register).1, now);
    if !rl.success then (t, limits', Response(Failure(429, TooMany), Some(CeilDiv(rl.reset - now, 1000))))
    else
      var (t', reply) := AdmitSpec(t, b, newId, hash);
      assert reply != Failure(429, TooMany) by {
        assert RegisterIssues(b) != [] ==> reply.status == 400;
      }
      (t', limits', Response(reply, None))
  }

  method RegisterCustomer(db: Db, limiter: Limiter, ip: string, b: RegisterBody, now: int, newId: string,
                          hash: string -> string) returns (r: Response)
    modifies db, limiter
    ensures (db.Snapshot(), limiter.store, r) == RegisterSpec(old(db.Snapshot()), old(limiter.store), ip, b, now, newId, hash)
  {
    var rl := limiter.Limit(Register, ip, now);
    if !rl.success {
      return Response(Failure(429, TooMany), Some(CeilDiv(rl.reset - now, 1000)));
    }
    var reply := Admit(db, b, newId, hash);
    r := Response(reply, None);
  }

  method Admit(db: Db, b: RegisterBody, newId: string, hash: string -> string) returns (r: Reply<Registered>)
    modifies db
    ensures (db.Snapshot(), r) == AdmitSpec(old(db.Snapshot()), b, newId, hash)
  {
    var issues := RegisterIssues(b);
    if issues != [] {
      return Failure(400, issues[0]);
    }
    if FindByEmail(db.Snapshot(), b.email).Some? {
      return Failure(409, EmailTaken);
    }
    if newId in db.customers || b.email in db.emailIndex {
      return Failure(500, RegistrationFailed);
    }
    db.customers := db.customers[newId := NewCustomer(b, hash)];
    db.emailIndex := db.emailIndex[b.email := newId];
    r := Success(Registered(newId, b.name, b.email));
  }

  // ---------------------------------------------------------------------------------------------
  // Properties

  /** A request over the limit is refused before its body is read, and the header tells when the
      window reopens: the wait rounded up to whole seconds, within a second of the true wait. */
  lemma {:induction false} LimitedBeforeBody(t: Tables, limits: map<string, Entry>, ip: string, b: RegisterBody,
                                             c: RegisterBody, now: int, newId: string, hash: string -> string)
    requires !Hit(limits, Key(Register, ip), Settings(Register).0, Settings(Register).1, now).1.success
    ensures RegisterSpec(t, limits, ip, b, now, newId, hash) == RegisterSpec(t, limits, ip, c, now, newId, hash)
    ensures var r := RegisterSpec(t, limits, ip, b, now, newId, hash);
            var reset := Hit(limits, Key(Register, ip), Settings(Register).0, Settings(Register).1, now).1.reset;
            r.0 == t && r.2.reply == Failure(429, TooMany) &&
            1000 * r.2.retryAfter.value - 1000 < reset - now <= 1000 * r.2.retryAfter.value
  {
  }

  /** Every request that passes the limiter uses up a slot, whatever happens next: a rejected
      body leaves the limiter exactly where an accepted one does. */
  lemma {:induction false} EveryRequestCounts(t: Tables, limits: map<string, Entry>, ip: string, b: RegisterBody,
                                              c: RegisterBody, now: int, newId: string, hash: string -> string)
    ensures RegisterSpec(t, limits, ip, b, now, newId, hash).1 == RegisterSpec(t, limits, ip, c, now, newId, hash).1
  {
  }

  /** An email that is already registered gets 409 and nothing is created. */
  lemma {:induction false} DuplicateEmailRefused(t: Tables, limits: map<string, Entry>, ip: string, b: RegisterBody,
                                                 now: int, newId: string, hash: string -> string, other: string)
    requires Valid(t) && other in t.customers && t.customers[other].email == b.email
    requires Hit(limits, Key(Register, ip), Settings(Register).0, Settings(Register).1, now).1.success
    requires RegisterIssues(b) == []
    ensures var r := RegisterSpec(t, limits, ip, b, now, newId, hash);
            r.0 == t && r.2.reply == Failure(409, EmailTaken)
  {
    assert t.emailIndex[t.customers[other].email] == other;
  }

  /** A registration adds one customer row and its index entry, and keeps the store valid. */
  lemma {:induction false} RegistrationAddsOneCustomer(t: Tables, limits: map<string, Entry>, ip: string, b: RegisterBody,
                                                       now: int, newId: string, hash: string -> string)
    requires Valid(t)
    requires RegisterSpec(t, limits, ip, b, now, newId, hash).2.reply.Success?
    ensures var t' := RegisterSpec(t, limits, ip, b, now, newId, hash).0;
            t' == t.(customers := t.customers[newId := NewCustomer(b, hash)], emailIndex := t.emailIndex[b.email := newId]) &&
            newId !in t.customers && Valid(t') && FindByEmail(t', b.email) == Some(newId)
  {
    NewCustomerKeepsValid(t, newId, NewCustomer(b, hash));
  }
}
