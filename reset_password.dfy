/** POST /api/auth/reset-password (src/app/api/auth/reset-password/route.ts): consume a reset
    token. bcrypt is the parameter `hash`; the clock is `now`. */
module ResetPassword {
  import opened Base
  import opened Store
  import opened ForgotPassword

  const FieldsRequired := "Token and password required"
  const TooShort := "Password must be at least 8 characters"
  const InvalidLink := "Invalid or expired reset link"
  const ExpiredLink := "Reset link has expired. Please request a new one."
  const AccountNotFound := "Account not found"
  const Updated := "Password updated successfully"
  const SomethingWrong := "Something went wrong"

  /** The route on the store; `token` and `password` are None when missing or empty. An entry
      that is not a reset entry makes `JSON.parse` fail: 500. */
  function ResetSpec(t: Tables, token: Option<string>, password: Option<string>, now: int, hash: string -> string)
    : (r: (Tables, Reply<string>))
    ensures token.None? || password.None? ==> r == (t, Failure(400, FieldsRequired))
    ensures token.Some? && password.Some? && |password.value| < 8 ==> r == (t, Failure(400, TooShort))
    ensures token.Some? && password.Some? && |password.value| >= 8 && ResetKey(token.value) !in t.settings ==>
              r == (t, Failure(400, InvalidLink))
    ensures r.1 == Failure(404, AccountNotFound) ==> r.0 == t
    ensures r.1 == Failure(400, ExpiredLink) ==>
      token.Some? && ResetKey(token.value) in t.settings && t.settings[ResetKey(token.value)].ResetEntry? &&
      t.settings[ResetKey(token.value)].expiresAt < now && r.0 == t.(settings := t.settings - {ResetKey(token.value)})
    ensures r.1.Success? ==>
      token.Some? && password.Some? && ResetKey(token.value) in t.settings && t.settings[ResetKey(token.value)].ResetEntry? &&
      var e := t.settings[ResetKey(token.value)];
      now <= e.expiresAt && FindByEmail(t, e.email).Some? &&
      var id := FindByEmail(t, e.email).value;
      r.0 == t.(settings := t.settings - {ResetKey(token.value)},
                customers := t.customers[id := t.customers[id].(password := Some(hash(password.value)))])
  {
    if token.None? || password.None? then (t, Failure(400, FieldsRequired))
    else if |password.value| < 8 then (t, Failure(400, TooShort))
    else
      var key := ResetKey(token.value);
      if key !in t.settings then (t, Failure(400, InvalidLink))
      else match t.settings[key]
        case Plain(_) => (t, Failure(500, SomethingWrong))
        case ResetEntry(email, expiresAt) =>
          if expiresAt < now then (t.(settings := t.settings - {key}), Failure(400, ExpiredLink))
          else match FindByEmail(t, email)
            case None => (t, Failure(404, AccountNotFound))
            case Some(id) =>
              (t.(settings := t.settings - {key},
                  customers := t.customers[id := t.customers[id].(password := Some(hash(password.value)))]),
               Success(Updated))
  }

  method Reset(db: Db, token: Option<string>, password: Option<string>, now: int, hash: string -> string)
    returns (r: Reply<string>)
    modifies db
    ensures (db.Snapshot(), r) == ResetSpec(old(db.Snapshot()), token, password, now, hash)
  {
    if token.None? || password.None? {
      return Failure(400, FieldsRequired);
    }
    if |password.value| < 8 {
      return Failure(400, TooShort);
    }
    var key := ResetKey(token.value);
    if key !in db.settings {
      return Failure(400, InvalidLink);
    }
    var entry := db.settings[key];
    if entry.Plain? {
      return Failure(500, SomethingWrong);
    }
    if entry.expiresAt < now {
      db.settings := db.settings - {key};
      return Failure(400, ExpiredLink);
    }
    var found := FindByEmail(db.Snapshot(), entry.email);
    if found.None? {
      return Failure(404, AccountNotFound);
    }
    var id := found.value;
    db.customers := db.customers[id := db.customers[id].(password := Some(hash(password.value)))];
    db.settings := db.settings - {key};
    r := Success(Updated);
  }

  // ---------------------------------------------------------------------------------------------
  // The token lifecycle

  /** A token works once: after a successful reset the same token is an invalid link. */
  lemma {:induction false} TokenIsSingleUse(t: Tables, token: string, password: string, again: string, now: int,
                                            later: int, hash: string -> string)
    requires ResetSpec(t, Some(token), Some(password), now, hash).1.Success?
    requires |again| >= 8
    ensures var t' := ResetSpec(t, Some(token), Some(password), now, hash).0;
            ResetSpec(t', Some(token), Some(again), later, hash) == (t', Failure(400, InvalidLink))
  {
  }

  /** An expired token is removed and nobody's password changes, so it fails as invalid next time. */
  lemma {:induction false} ExpiredTokenIsRemoved(t: Tables, token: string, password: string, now: int,
                                                 hash: string -> string)
    requires ResetSpec(t, Some(token), Some(password), now, hash).1 == Failure(400, ExpiredLink)
    ensures var t' := ResetSpec(t, Some(token), Some(password), now, hash).0;
            t'.customers == t.customers && ResetKey(token) !in t'.settings
  {
  }

  /** Only the password of the token's customer changes, and nothing but their password. */
  lemma {:induction false} OnlyThatPasswordChanges(t: Tables, token: string, password: string, now: int,
                                                   hash: string -> string, other: string)
    requires ResetSpec(t, Some(token), Some(password), now, hash).1.Success?
    requires other in t.customers
    ensures var t' := ResetSpec(t, Some(token), Some(password), now, hash).0;
            var owner := FindByEmail(t, t.settings[ResetKey(token)].email).value;
            other in t'.customers &&
            t'.customers[other] == (if other == owner then t.customers[other].(password := Some(hash(password)))
                                    else t.customers[other])
  {
  }

  /** The two routes together: a token issued for a registered email at `issued` resets that
      customer's password at any time up to an hour later (a long enough password given), and is
      refused as expired, and deleted, after that. */
  lemma {:induction false} IssuedTokenLifecycle(t: Tables, email: string, token: string, issued: int,
                                                password: string, now: int, hash: string -> string)
    requires FindByEmail(t, email).Some? && |password| >= 8
    ensures var t1 := ForgotSpec(t, Some(email), token, issued).0;
            var (t2, r) := ResetSpec(t1, Some(token), Some(password), now, hash);
            var id := FindByEmail(t, email).value;
            (now <= issued + HourMs ==> r == Success(Updated) &&
                                        t2.customers == t.customers[id := t.customers[id].(password := Some(hash(password)))]) &&
            (now > issued + HourMs ==> r == Failure(400, ExpiredLink) && t2.customers == t.customers)
  {
    var t1 := ForgotSpec(t, Some(email), token, issued).0;
    assert t1.settings[ResetKey(token)] == ResetEntry(email, issued + HourMs);
    assert FindByEmail(t1, email) == FindByEmail(t, email);
  }
}
