/**
 * The OAuth completion route (app/auth/callback/route.js) as a decision
 * function. The backend's answers (the code exchange) and the environment (the
 * forwarded host, the development flag) are inputs; the redirect and the two
 * effects the route performs (sign-out, profile upsert) are outputs.
 */
module AuthCallback {
  import opened Js

  /** The only e-mail domain allowed to complete a sign-in. */
  const UwSuffix: string := "@uw.edu"

  /** `session.user` after the exchange: id, e-mail and `user_metadata?.full_name`. */
  datatype SessionUser = SessionUser(id: string, email: string, full_name: Option<string>)

  /** The answer of `exchangeCodeForSession(code)`: `{ data: { session }, error }`. */
  datatype Exchange = Exchange(session: Option<SessionUser>, error: Option<string>)

  /** The query string and origin of the callback URL, and the `x-forwarded-host` header. */
  datatype Request = Request(origin: string, code: Option<string>, redirect: Option<string>, forwardedHost: Option<string>)

  /** The row written to `profiles` after a successful sign-in. */
  datatype ProfileUpsert = ProfileUpsert(id: string, email: string, full_name: string)

  /** What the route did: where it redirects, whether it asked for the exchange, signed out, or upserted. */
  datatype Outcome = Outcome(redirect: string, exchanged: bool, signedOut: bool, upsert: Option<ProfileUpsert>)

  /** `searchParams.get('redirect') ?? '/'`: only a missing parameter falls back. */
  function RedirectPath(param: Option<string>): (path: string)
    ensures param.None? ==> path == "/"
    ensures param.Some? ==> path == param.value
  {
    if param.Some? then param.value else "/"
  }

  /** The success redirect: the request origin in development or without a forwarded host, else https to that host. */
  function SuccessTarget(req: Request, isLocalEnv: bool): (target: string)
    ensures EndsWith(target, RedirectPath(req.redirect))
    ensures isLocalEnv || !Truthy(req.forwardedHost) ==> StartsWith(target, req.origin)
    ensures !isLocalEnv && Truthy(req.forwardedHost) ==> StartsWith(target, "https://" + req.forwardedHost.value)
    ensures !isLocalEnv && Truthy(req.forwardedHost) ==>
      |target| == |"https://" + req.forwardedHost.value| + |RedirectPath(req.redirect)|
    ensures isLocalEnv || !Truthy(req.forwardedHost) ==> |target| == |req.origin| + |RedirectPath(req.redirect)|
  {
    var path := RedirectPath(req.redirect);
    var host := if !isLocalEnv && Truthy(req.forwardedHost) then "https://" + req.forwardedHost.value else req.origin;
    assert (host + path)[|host + path| - |path|..] == path;
    assert (host + path)[..|host|] == host;
    if isLocalEnv then req.origin + path
    else if Truthy(req.forwardedHost) then "https://" + req.forwardedHost.value + path
    else req.origin + path
  }

  function AuthFailed(origin: string): string { origin + "/login?error=auth_failed" }

  function DomainRestricted(origin: string): string { origin + "/login?error=domain_restricted" }

  /** The exchange gave a session and no error. */
  predicate Exchanged(x: Exchange) { x.error.None? && x.session.Some? }

  /** `GET` on the callback route. */
  function Callback(req: Request, exchange: Exchange, isLocalEnv: bool): (out: Outcome)
    // only an institutional e-mail ever reaches the profiles table
    ensures out.upsert.Some? ==> EndsWith(out.upsert.value.email, UwSuffix)
    // a sign-out is a rejection: no profile, and the domain error page
    ensures out.signedOut ==> out.upsert.None? && out.redirect == DomainRestricted(req.origin)
    // leaving the login error pages requires the profile to have been written
    ensures out.redirect != AuthFailed(req.origin) && out.redirect != DomainRestricted(req.origin) ==> out.upsert.Some?
    ensures out.exchanged <==> Truthy(req.code)
  {
    if Truthy(req.code) && Exchanged(exchange) then
      var user := exchange.session.value;
      if !EndsWith(user.email, UwSuffix) then
        Outcome(DomainRestricted(req.origin), true, true, None)
      else
        var row := ProfileUpsert(user.id, user.email, Or(user.full_name, ""));
        Outcome(SuccessTarget(req, isLocalEnv), true, false, Some(row))
    else
      Outcome(AuthFailed(req.origin), Truthy(req.code), false, None)
  }

  /** Without a (non-empty) code nothing is exchanged: auth_failed, no sign-out, no upsert. */
  lemma NoCodeFails(req: Request, exchange: Exchange, isLocalEnv: bool)
    requires !Truthy(req.code)
    ensures Callback(req, exchange, isLocalEnv) == Outcome(AuthFailed(req.origin), false, false, None)
  {
  }

  /** An exchange error or a missing session also ends at auth_failed, with no sign-out and no upsert. */
  lemma ExchangeFailureFails(req: Request, exchange: Exchange, isLocalEnv: bool)
    requires Truthy(req.code) && (exchange.error.Some? || exchange.session.None?)
    ensures Callback(req, exchange, isLocalEnv) == Outcome(AuthFailed(req.origin), true, false, None)
  {
  }

  /** A session whose e-mail does not end in '@uw.edu' is signed out and sent to domain_restricted, unwritten. */
  lemma ForeignDomainSignedOut(req: Request, exchange: Exchange, isLocalEnv: bool)
    requires Truthy(req.code) && Exchanged(exchange)
    requires !EndsWith(exchange.session.value.email, UwSuffix)
    ensures Callback(req, exchange, isLocalEnv) == Outcome(DomainRestricted(req.origin), true, true, None)
  {
  }

  /**
   * A session with an '@uw.edu' e-mail writes its profile (name defaulting to '') and is not
   * signed out; the redirect keeps the requested path, on the origin in development or without a
   * forwarded host, and on https to the forwarded host otherwise.
   */
  lemma UwSignInSucceeds(req: Request, exchange: Exchange, isLocalEnv: bool)
    requires Truthy(req.code) && Exchanged(exchange)
    requires EndsWith(exchange.session.value.email, UwSuffix)
    ensures var out := Callback(req, exchange, isLocalEnv);
      var user := exchange.session.value;
      && !out.signedOut
      && out.upsert == Some(ProfileUpsert(user.id, user.email, Or(user.full_name, "")))
      && (isLocalEnv ==> out.redirect == req.origin + RedirectPath(req.redirect))
      && (!isLocalEnv && Truthy(req.forwardedHost) ==>
            out.redirect == "https://" + req.forwardedHost.value + RedirectPath(req.redirect))
      && (!isLocalEnv && !Truthy(req.forwardedHost) ==> out.redirect == req.origin + RedirectPath(req.redirect))
  {
  }

  /** The domain test is case-sensitive: an upper-case institutional address is rejected. */
  lemma UpperCaseDomainRejected()
    ensures !EndsWith("student@UW.EDU", UwSuffix)
  {
    assert "student@UW.EDU"[7..] == "@UW.EDU";
    assert "@UW.EDU"[1] != UwSuffix[1];
  }

  /** A Gmail sign-in is signed out and redirected to domain_restricted. */
  lemma GmailSignInRejected(origin: string, code: string, id: string)
    requires code != ""
    ensures var out := Callback(Request(origin, Some(code), None, None),
                                Exchange(Some(SessionUser(id, "student@gmail.com", None)), None), false);
      out.signedOut && out.upsert.None? && out.redirect == origin + "/login?error=domain_restricted"
  {
    assert "student@gmail.com"[10..] == "ail.com";
    assert "ail.com"[0] != UwSuffix[0];
  }

  /**
   * The redirect parameter is appended to the origin without any check: a value beginning
   * with '@' turns the origin into the user-info part of a URL whose host is attacker-chosen.
   */
  lemma RedirectParameterUnchecked(code: string, user: SessionUser)
    requires code != "" && EndsWith(user.email, UwSuffix)
    ensures Callback(Request("https://app.example", Some(code), Some("@evil.example"), None),
                     Exchange(Some(user), None), true).redirect == "https://app.example@evil.example"
  {
  }
}
