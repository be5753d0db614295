/** POST /api/auth/forgot-password (src/app/api/auth/forgot-password/route.ts): issue a reset
    token for a registered email as an entry of the settings table. The random token and the
    clock are parameters; the e-mail send, whose failure is caught, is a no-op. */
module ForgotPassword {
  import opened Base
  import opened Store

  const HourMs := 3600000
  const EmailRequired := "Email required"
  const LinkSent := "If this email exists, a reset link has been sent."

  /** The settings key of a token. */
  function ResetKey(token: string): (k: string)
    ensures |k| == 6 + |token| && k[..6] == "reset_"
  {
    "reset_" + token
  }

  lemma {:induction false} ResetKeyInjective(a: string, b: string)
    ensures ResetKey(a) == ResetKey(b) <==> a == b
  {
    if ResetKey(a) == ResetKey(b) {
      assert a == ResetKey(a)[6..] && b == ResetKey(b)[6..];
    }
  }

  /** `email` is None when missing or empty. */
  function ForgotSpec(t: Tables, email: Option<string>, token: string, now: int): (r: (Tables, Reply<string>))
    ensures email.None? <==> r.1 == Failure(400, EmailRequired)
    ensures email.Some? ==> r.1 == Success(LinkSent)
    ensures email.None? || FindByEmail(t, email.value).None? ==> r.0 == t
    ensures email.Some? && FindByEmail(t, email.value).Some? ==>
      r.0 == t.(settings := t.settings[ResetKey(token) := ResetEntry(email.value, now + HourMs)])
  {
    if email.None? then (t, Failure(400, EmailRequired))
    else if FindByEmail(t, email.value).None? then (t, Success(LinkSent))
    else (t.(settings := t.settings[ResetKey(token) := ResetEntry(email.value, now + HourMs)]), Success(LinkSent))
  }

  method Forgot(db: Db, email: Option<string>, token: string, now: int) returns (r: Reply<string>)
    modifies db
    ensures (db.Snapshot(), r) == ForgotSpec(old(db.Snapshot()), email, token, now)
  {
    if email.None? {
      return Failure(400, EmailRequired);
    }
    if FindByEmail(db.Snapshot(), email.value).None? {
      return Success(LinkSent);
    }
    db.settings := db.settings[ResetKey(token) := ResetEntry(email.value, now + HourMs)];
    r := Success(LinkSent);
  }

  /** The reply does not tell a registered email from an unknown one. */
  lemma {:induction false} ReplyHidesRegistration(t: Tables, u: Tables, email: string, token: string, now: int)
    ensures ForgotSpec(t, Some(email), token, now).1 == ForgotSpec(u, Some(email), token, now).1
  {
  }

  /** Issuing a token keeps every other entry, earlier tokens for the same email included. */
  lemma {:induction false} EarlierTokensStay(t: Tables, email: string, token: string, other: string, now: int)
    requires ResetKey(other) in t.settings && other != token
    ensures var t' := ForgotSpec(t, Some(email), token, now).0;
            ResetKey(other) in t'.settings && t'.settings[ResetKey(other)] == t.settings[ResetKey(other)]
  {
    ResetKeyInjective(other, token);
  }
}
