/** /api/account/addresses (src/app/api/account/addresses/route.ts): a customer adds an address
    (optionally as the new default) or deletes one of their own. The new row's id is a parameter. */
module Addresses {
  import opened Base
  import opened Store

  const IdRequired := "ID required"
  /** The reply when the insert throws (a required column missing, an id clash, or a session
      whose customer row is gone, which breaks the foreign key). */
  const InternalError := "Internal Server Error"

  /** The JSON body. A missing string is None; `isDefault` is its truthiness. */
  datatype AddressBody = AddressBody(name: Option<string>, phone: Option<string>, line1: Option<string>,
                                     line2: Option<string>, city: Option<string>, state: Option<string>,
                                     pincode: Option<string>, isDefault: bool)

  /** The columns without a default: the insert fails when one is missing. */
  predicate HasRequired(b: AddressBody) {
    b.name.Some? && b.phone.Some? && b.line1.Some? && b.city.Some? && b.state.Some? && b.pincode.Some?
  }

  /** The row: `line2 || null`, `!!isDefault`. */
  function NewAddress(customerId: string, b: AddressBody): (a: Address)
    requires HasRequired(b)
    ensures a.customerId == customerId && a.isDefault == b.isDefault
    ensures a.line2.None? <==> b.line2.None? || b.line2.value == ""
    ensures a.line2.Some? ==> a.line2 == b.line2
  {
    Address(customerId, b.name.value, b.phone.value, b.line1.value,
            if b.line2.Some? && b.line2.value != "" then b.line2 else None,
            b.city.value, b.state.value, b.pincode.value, b.isDefault)
  }

  /** `updateMany({ where: { customerId }, data: { isDefault: false } })` */
  function ClearDefaults(addresses: map<string, Address>, customerId: string): (r: map<string, Address>)
    ensures r.Keys == addresses.Keys
    ensures forall id :: id in r ==>
              r[id] == (if addresses[id].customerId == customerId then addresses[id].(isDefault := false) else addresses[id])
  {
    map id | id in addresses :: if addresses[id].customerId == customerId then addresses[id].(isDefault := false) else addresses[id]
  }

  /** POST: the defaults are cleared before the insert runs, so they stay cleared when it fails.
      `customers` holds the ids of the customer rows, which the new row's foreign key must name. */
  function AddSpec(addresses: map<string, Address>, customers: set<string>, session: Session, b: AddressBody,
                   newId: string)
    : (r: (map<string, Address>, Reply<(string, Address)>))
    ensures !IsCustomer(session) ==> r == (addresses, Failure(401, Unauthorized))
    ensures IsCustomer(session) && !b.isDefault ==> r.1.Failure? ==> r.0 == addresses
    ensures IsCustomer(session) && session.id !in customers ==> r.1 == Failure(500, InternalError)
    ensures r.1.Success? <==> IsCustomer(session) && HasRequired(b) && newId !in addresses && session.id in customers
    ensures r.1.Success? ==>
      var before := if b.isDefault then ClearDefaults(addresses, session.id) else addresses;
      r.1.body == (newId, NewAddress(session.id, b)) &&
      r.0 == before[newId := NewAddress(session.id, b)]
  {
    if !IsCustomer(session) then (addresses, Failure(401, Unauthorized))
    else
      var before := if b.isDefault then ClearDefaults(addresses, session.id) else addresses;
      if !HasRequired(b) || newId in before || session.id !in customers then (before, Failure(500, InternalError))
      else
        var a := NewAddress(session.id, b);
        (before[newId := a], Success((newId, a)))
  }

  method Add(db: Db, session: Session, b: AddressBody, newId: string) returns (r: Reply<(string, Address)>)
    modifies db
    ensures (db.Snapshot(), r) == (var (a, reply) := AddSpec(old(db.addresses), old(db.customers.Keys), session, b, newId);
                                   (old(db.Snapshot()).(addresses := a), reply))
  {
    if !IsCustomer(session) {
      return Failure(401, Unauthorized);
    }
    if b.isDefault {
      db.addresses := ClearDefaults(db.addresses, session.id);
    }
    if !HasRequired(b) || newId in db.addresses || session.id !in db.customers {
      return Failure(500, InternalError);
    }
    var a := NewAddress(session.id, b);
    db.addresses := db.addresses[newId := a];
    r := Success((newId, a));
  }

  /** DELETE: `id` is None when the query parameter is missing or empty. `deleteMany` scoped to
      the owner: another customer's id, or an unknown one, deletes nothing and still succeeds. */
  function DeleteSpec(addresses: map<string, Address>, session: Session, id: Option<string>)
    : (r: (map<string, Address>, Reply<()>))
    ensures !IsCustomer(session) ==> r == (addresses, Failure(401, Unauthorized))
    ensures IsCustomer(session) && id.None? ==> r == (addresses, Failure(400, IdRequired))
    ensures r.1.Success? <==> IsCustomer(session) && id.Some?
    ensures r.1.Success? ==>
      r.0 == (if id.value in addresses && addresses[id.value].customerId == session.id
              then addresses - {id.value} else addresses)
  {
    if !IsCustomer(session) then (addresses, Failure(401, Unauthorized))
    else if id.None? then (addresses, Failure(400, IdRequired))
    else if id.value in addresses && addresses[id.value].customerId == session.id then
      (addresses - {id.value}, Success(()))
    else (addresses, Success(()))
  }

  method Delete(db: Db, session: Session, id: Option<string>) returns (r: Reply<()>)
    modifies db
    ensures (db.Snapshot(), r) == (var (a, reply) := DeleteSpec(old(db.addresses), session, id);
                                   (old(db.Snapshot()).(addresses := a), reply))
  {
    if !IsCustomer(session) {
      return Failure(401, Unauthorized);
    }
    if id.None? {
      return Failure(400, IdRequired);
    }
    if id.value in db.addresses && db.addresses[id.value].customerId == session.id {
      db.addresses := db.addresses - {id.value};
    }
    r := Success(());
  }

  // ---------------------------------------------------------------------------------------------
  // Properties

  /** A customer has at most one default address. */
  predicate OneDefault(addresses: map<string, Address>, customerId: string) {
    forall a, b ::
      (a in addresses && b in addresses && addresses[a].customerId == customerId &&
       addresses[b].customerId == customerId && addresses[a].isDefault && addresses[b].isDefault) ==> a == b
  }

  /** Adding an address keeps every customer at one default at most; a default POST makes the
      new row the customer's only default. */
  lemma {:induction false} AddKeepsOneDefault(addresses: map<string, Address>, customers: set<string>, session: Session, b: AddressBody,
                                              newId: string, customerId: string)
    requires OneDefault(addresses, customerId)
    ensures var (a, r) := AddSpec(addresses, customers, session, b, newId);
            OneDefault(a, customerId) &&
            (r.Success? && b.isDefault ==>
               forall id :: id in a && a[id].customerId == session.id && a[id].isDefault ==> id == newId)
  {
    var (a, r) := AddSpec(addresses, customers, session, b, newId);
    if IsCustomer(session) && b.isDefault {
      var cleared := ClearDefaults(addresses, session.id);
      assert forall id :: id in cleared && cleared[id].customerId == session.id ==> !cleared[id].isDefault;
    }
  }

  /** Only the customer's own rows change: another customer's addresses are left as they were. */
  lemma {:induction false} AddLeavesOthersAlone(addresses: map<string, Address>, customers: set<string>, session: Session, b: AddressBody,
                                                newId: string, id: string)
    requires id in addresses && (session.CustomerSession? ==> addresses[id].customerId != session.id)
    ensures var a := AddSpec(addresses, customers, session, b, newId).0;
            id in a && a[id] == addresses[id]
  {
  }

  /** A default POST whose insert fails still leaves the customer with no default at all. */
  lemma {:induction false} FailedDefaultAddClearsDefaults(addresses: map<string, Address>, customers: set<string>, customerId: string,
                                                         b: AddressBody, newId: string, id: string)
    requires customerId != "" && b.isDefault && !HasRequired(b)
    requires id in addresses && addresses[id].customerId == customerId
    ensures var (a, r) := AddSpec(addresses, customers, CustomerSession(customerId), b, newId);
            r == Failure(500, InternalError) && id in a && !a[id].isDefault
  {
  }

  /** Deleting is owner-scoped and idempotent, and the store keeps one default at most. */
  lemma {:induction false} DeleteOwnerScoped(addresses: map<string, Address>, session: Session, id: string,
                                             other: string, customerId: string)
    requires IsCustomer(session) && other in addresses && addresses[other].customerId != session.id
    requires OneDefault(addresses, customerId)
    ensures var a := DeleteSpec(addresses, session, Some(id)).0;
            other in a && a[other] == addresses[other] &&
            DeleteSpec(a, session, Some(id)).0 == a &&
            OneDefault(a, customerId)
  {
  }
}
