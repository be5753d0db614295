/** The request gate of src/middleware.ts: an ordered list of rules on the path and the session
    token, run only on the paths the matcher selects. */
module Middleware {
  import opened Base
  import opened Text

  /** The decoded session token and its role claim. */
  datatype Token = Token(role: Option<string>)

  datatype Outcome = PassThrough | Redirect(target: string, callbackUrl: Option<string>) | JsonUnauthorized

  predicate IsAdminToken(token: Option<Token>) {
    token.Some? && token.value.role == Some("admin")
  }

  /** The three rules, tried in order; the first that fires decides. */
  function Decide(pathname: string, token: Option<Token>): (o: Outcome)
    ensures o.PassThrough? <==> Allowed(pathname, token)
    ensures o.Redirect? ==> o.target == "/login" || (o.target == "/admin/login" && o.callbackUrl.None?)
  {
    if StartsWith(pathname, "/account") && token.None? then Redirect("/login", Some(pathname))
    else if StartsWith(pathname, "/admin") && pathname != "/admin/login" && !IsAdminToken(token) then
      Redirect("/admin/login", None)
    else if StartsWith(pathname, "/api/admin") && !IsAdminToken(token) then JsonUnauthorized
    else PassThrough
  }

  /** A request passes when every rule that applies to its path is satisfied. */
  predicate Allowed(pathname: string, token: Option<Token>) {
    (StartsWith(pathname, "/account") ==> token.Some?) &&
    (StartsWith(pathname, "/admin") && pathname != "/admin/login" ==> IsAdminToken(token)) &&
    (StartsWith(pathname, "/api/admin") ==> IsAdminToken(token))
  }

  /** `config.matcher`: '/admin/:path*', '/api/admin/:path*' and '/account/:path*' match the
      prefix itself or the prefix followed by further segments. */
  predicate UnderPrefix(pathname: string, prefix: string) {
    pathname == prefix || StartsWith(pathname, prefix + "/")
  }

  predicate Matched(pathname: string) {
    UnderPrefix(pathname, "/admin") || UnderPrefix(pathname, "/api/admin") || UnderPrefix(pathname, "/account")
  }

  /** What a request meets: the rules on matched paths, nothing elsewhere. */
  function Gate(pathname: string, token: Option<Token>): (o: Outcome)
    ensures !Matched(pathname) ==> o == PassThrough
    ensures Matched(pathname) ==> o == Decide(pathname, token)
  {
    if Matched(pathname) then Decide(pathname, token) else PassThrough
  }

  lemma {:induction false} PrefixesDiffer(pathname: string)
    ensures !(StartsWith(pathname, "/account") && StartsWith(pathname, "/admin"))
    ensures !(StartsWith(pathname, "/account") && StartsWith(pathname, "/api/admin"))
    ensures !(StartsWith(pathname, "/admin") && StartsWith(pathname, "/api/admin"))
  {
    if StartsWith(pathname, "/account") {
      assert pathname[1] == 'a' && pathname[2] == 'c';
    }
    if StartsWith(pathname, "/admin") {
      assert pathname[1] == 'a' && pathname[2] == 'd';
    }
    if StartsWith(pathname, "/api/admin") {
      assert pathname[1] == 'a' && pathname[2] == 'p';
    }
  }

  /** An account page without a token goes to /login, remembering where it came from. */
  lemma {:induction false} AccountNeedsToken(pathname: string, token: Option<Token>)
    requires StartsWith(pathname, "/account")
    ensures token.None? ==> Decide(pathname, token) == Redirect("/login", Some(pathname))
    ensures token.Some? ==> Decide(pathname, token) == PassThrough
  {
    PrefixesDiffer(pathname);
  }

  /** An admin page other than the login page needs an admin token; a customer token is sent to
      the admin login like no token at all. */
  lemma {:induction false} AdminPagesNeedAdmin(pathname: string, token: Option<Token>)
    requires StartsWith(pathname, "/admin") && pathname != "/admin/login"
    ensures !IsAdminToken(token) ==> Decide(pathname, token) == Redirect("/admin/login", None)
    ensures IsAdminToken(token) ==> Decide(pathname, token) == PassThrough
  {
    PrefixesDiffer(pathname);
  }

  /** The admin login page itself is never redirected or refused. */
  lemma {:induction false} AdminLoginIsOpen(token: Option<Token>)
    ensures Decide("/admin/login", token) == PassThrough
  {
    PrefixesDiffer("/admin/login");
  }

  /** The admin API answers 401 as JSON instead of redirecting. */
  lemma {:induction false} AdminApiNeedsAdmin(pathname: string, token: Option<Token>)
    requires StartsWith(pathname, "/api/admin")
    ensures !IsAdminToken(token) ==> Decide(pathname, token) == JsonUnauthorized
    ensures IsAdminToken(token) ==> Decide(pathname, token) == PassThrough
  {
    PrefixesDiffer(pathname);
  }

  /** The rules look only at paths under the three prefixes: '/administrator' would be sent to
      the admin login by the rules but is not matched, so it passes without a token;
      '/admin/orders' is matched and redirected. */
  lemma MatcherNarrowsRules()
    ensures Decide("/administrator", None) == Redirect("/admin/login", None)
    ensures Gate("/administrator", None) == PassThrough
    ensures Gate("/admin/orders", None) == Redirect("/admin/login", None)
  {
    assert "/admin" + "/" == "/admin/" && "/api/admin" + "/" == "/api/admin/" && "/account" + "/" == "/account/";
    assert "/administrator"[..7] == "/admini" && "/administrator"[..8] == "/adminis" && "/administrator"[..9] == "/administ";
    assert !StartsWith("/administrator", "/account");
    assert !StartsWith("/administrator", "/account/");
    assert !StartsWith("/administrator", "/api/admin/");
    assert !UnderPrefix("/administrator", "/admin");
    assert StartsWith("/admin/orders", "/admin/");
    assert !StartsWith("/admin/orders", "/account");
  }
}
