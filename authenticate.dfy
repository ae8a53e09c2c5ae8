/**
 * The credential resolver (`authenticate`): reads the `Authorization` header,
 * dispatches on the "Bearer " or "Basic " prefix and records the caller on the
 * request. `Resolve` is what the middleware decides; the methods carry it out
 * on the request object.
 */
module Authenticate {
  import opened Errors
  import opened Accounts
  import opened AccountServices
  import opened Text
  import opened Requests

  const Bearer: string := "Bearer "
  const Basic: string := "Basic "

  /** The payload of a verified token. */
  datatype Claims = Claims(sub: string, role: string)

  /**
   * What the resolver takes from outside: the token verifier (None when
   * verification throws), base64 decoding, the configured superuser pair, the
   * two clock readings and the session window `login` uses, and the token issuer.
   */
  datatype Environment = Environment(
    verify: string -> Option<Claims>,
    decode: string -> string,
    adminEmail: string,
    adminPassword: string,
    now: int,
    checkedAt: int,
    window: int,
    getJwt: Account -> string)

  /** The caller as recorded on the request. */
  datatype Principal = Principal(user: string, role: string, authType: string)

  /** Leave the request as it is, record a caller, or throw. */
  datatype Resolution = Anonymous | Authenticated(principal: Principal) | Rejected(error: Error)

  /** Whether the middleware goes on to `next()` or its promise rejects. */
  datatype Flow = Next | Raised(error: Error)

  /** The request after the resolution is recorded on it. */
  function Applied(v: RequestView, r: Resolution): RequestView
  {
    match r
    case Authenticated(p) => v.(user := Some(p.user), role := Some(p.role), authType := Some(p.authType))
    case _ => v
  }

  function FlowOf(r: Resolution): Flow
  {
    if r.Rejected? then Raised(r.error) else Next
  }

  /** `if (authHeader)`: absent and empty headers are both falsy. */
  predicate Present(header: Option<string>)
  {
    header.Some? && header.value != ""
  }

  /** `jwtAuthentication`: the token is the header after "Bearer ". */
  function ResolveJwt(header: string, env: Environment): (r: Resolution)
    requires StartsWith(header, Bearer)
    ensures r.Rejected? <==> env.verify(header[|Bearer|..]).None?
    ensures r.Rejected? ==> r.error == InvalidToken
    ensures env.verify(header[|Bearer|..]).Some? ==>
      var payload := env.verify(header[|Bearer|..]).value;
      r == Authenticated(Principal(payload.sub, payload.role, "jwt"))
    ensures r.Authenticated? ==>
      && r.principal.authType == "jwt"
      && env.verify(header[|Bearer|..]) == Some(Claims(r.principal.user, r.principal.role))
  {
    match env.verify(header[|Bearer|..])
    case None => Rejected(InvalidToken)
    case Some(payload) => Authenticated(Principal(payload.sub, payload.role, "jwt"))
  }

  /**
   * `basicAuthentication` after decoding: segment 0 of the split is the
   * identifier, segment 1 the secret. The superuser pair bypasses the store; any
   * other identifier has its account looked up BY THE SECRET and `login` called
   * with that account document, every failure becoming 401.
   */
  function ResolveCredentials(decoded: string, s: Store, env: Environment): (r: Resolution)
    // only the superuser is ever recorded; every failure is 401 "Invalid credentials"
    ensures r.Authenticated? ==> r.principal == Principal(env.adminEmail, "", "basic")
    ensures r.Rejected? ==> r.error == InvalidCredentials
    ensures Split(decoded, ':')[0] == env.adminEmail <==> !r.Rejected?
  {
    var parts := Split(decoded, ':');
    var id := parts[0];
    if id == env.adminEmail then
      if Segment(parts, 1) == Some(env.adminPassword) then Authenticated(Principal(env.adminEmail, "", "basic"))
      else Anonymous
    else
      match Segment(parts, 1)
      // `getAccountByEmail(undefined)` finds no record: every stored email is a string
      case None => Rejected(InvalidCredentials)
      case Some(secret) =>
        match Lookup(s, secret)
        case Err(_) => Rejected(InvalidCredentials)
        case Ok(account) =>
          match LoginResult(s, ByRecord(account), secret, env.now, env.checkedAt, env.window, env.getJwt)
          case Err(_) => Rejected(InvalidCredentials)
          case Ok(_) => Authenticated(Principal(id, account.role, "basic"))
  }

  function ResolveBasic(header: string, s: Store, env: Environment): (r: Resolution)
    requires StartsWith(header, Basic)
    ensures r.Authenticated? ==> r.principal == Principal(env.adminEmail, "", "basic")
    ensures r.Rejected? <==> Split(env.decode(header[|Basic|..]), ':')[0] != env.adminEmail
    ensures r.Rejected? ==> r.error == InvalidCredentials
  {
    ResolveCredentials(env.decode(header[|Basic|..]), s, env)
  }

  /** `authenticate()`: dispatch on the header's prefix; any other header is ignored. */
  function Resolve(header: Option<string>, s: Store, env: Environment): (r: Resolution)
    // a caller is recorded under one of the two schemes, and every failure is a 401
    ensures r.Authenticated? ==> r.principal.authType in {"jwt", "basic"}
    ensures r.Authenticated? && r.principal.authType == "jwt" ==> Present(header) && StartsWith(header.value, Bearer)
    ensures r.Rejected? ==> r.error in {InvalidToken, InvalidCredentials} && r.error.status == Some(401)
    ensures !Present(header) ==> r == Anonymous
  {
    if !Present(header) then Anonymous
    else if StartsWith(header.value, Bearer) then ResolveJwt(header.value, env)
    else if StartsWith(header.value, Basic) then ResolveBasic(header.value, s, env)
    else Anonymous
  }

  /** `jwtAuthentication(req, authHeader)`. */
  method JwtAuthentication(req: Request, header: string, env: Environment) returns (flow: Flow)
    requires StartsWith(header, Bearer)
    modifies req
    ensures req.View() == Applied(old(req.View()), ResolveJwt(header, env))
    ensures flow == FlowOf(ResolveJwt(header, env))
  {
    var token := header[|Bearer|..];
    var payload := env.verify(token);
    if payload.None? {
      return Raised(InvalidToken);
    }
    req.user := Some(payload.value.sub);
    req.role := Some(payload.value.role);
    req.authType := Some("jwt");
    flow := Next;
  }

  /** `basicAuthentication(req, authHeader)`, reading the store through the service. */
  method BasicAuthentication(req: Request, header: string, service: AccountService, env: Environment)
    returns (flow: Flow)
    requires StartsWith(header, Basic)
    modifies req
    ensures req.View() == Applied(old(req.View()), ResolveBasic(header, service.accounts, env))
    ensures flow == FlowOf(ResolveBasic(header, service.accounts, env))
  {
    var decoded := env.decode(header[|Basic|..]);
    var parts := Split(decoded, ':');
    var id := parts[0];
    var secret := Segment(parts, 1);
    if id == env.adminEmail {
      if secret == Some(env.adminPassword) {
        req.user := Some(env.adminEmail);
        req.role := Some("");
        req.authType := Some("basic");
      }
      return Next;
    }
    if secret.None? {
      return Raised(InvalidCredentials);
    }
    var found := service.GetAccountByEmail(secret.value);
    if found.Err? {
      return Raised(InvalidCredentials);
    }
    var account := found.value;
    var login := service.Login(ByRecord(account), secret.value, env.now, env.checkedAt, env.window, env.getJwt);
    if login.Ok? {
      // Recording `id`, `account.role` and "basic" would follow here, but `login`
      // keyed by a document never finds an account: this branch cannot be taken.
      assert false;
    }
    flow := Raised(InvalidCredentials);
  }

  /** The `authenticate()` middleware: resolve the header, then call `next()` unless it threw. */
  method Authenticate(req: Request, service: AccountService, env: Environment) returns (flow: Flow)
    modifies req
    ensures req.View() == Applied(old(req.View()), Resolve(req.authorization, service.accounts, env))
    ensures flow == FlowOf(Resolve(req.authorization, service.accounts, env))
  {
    flow := Next;
    var header := req.authorization;
    if Present(header) {
      if StartsWith(header.value, Bearer) {
        flow := JwtAuthentication(req, header.value, env);
      } else if StartsWith(header.value, Basic) {
        flow := BasicAuthentication(req, header.value, service, env);
      }
    }
  }
  // ---- properties ----

  /** No header starts with both prefixes, so the order of the two checks never matters. */
  lemma PrefixesExclusive(header: string)
    ensures !(StartsWith(header, Bearer) && StartsWith(header, Basic))
  {
    if StartsWith(header, Bearer) {
      assert header[..|Basic|][1] == Bearer[1] != Basic[1];
    }
  }

  /** Without a header, or with one of another scheme, nothing is recorded and `next()` is called. */
  lemma NoCredentialLeavesRequestAlone(header: Option<string>, s: Store, env: Environment)
    requires !Present(header) || (!StartsWith(header.value, Bearer) && !StartsWith(header.value, Basic))
    ensures Resolve(header, s, env) == Anonymous
    ensures FlowOf(Resolve(header, s, env)) == Next
  {
  }

  /**
   * A bearer header records the verified subject and role under "jwt"; a token
   * that does not verify gives 401 "Invalid token" and records nothing. The
   * account store plays no part.
   */
  lemma BearerResolution(header: string, s: Store, env: Environment)
    requires StartsWith(header, Bearer)
    ensures var r := Resolve(Some(header), s, env);
      && (env.verify(header[|Bearer|..]).None? <==> r == Rejected(InvalidToken))
      && (env.verify(header[|Bearer|..]).Some? ==>
            var payload := env.verify(header[|Bearer|..]).value;
            r == Authenticated(Principal(payload.sub, payload.role, "jwt")))
  {
  }

  /** The superuser pair is recorded with an empty role, whatever the store holds. */
  lemma AdminBypass(header: string, s: Store, env: Environment)
    requires StartsWith(header, Basic) && ':' !in env.adminEmail && ':' !in env.adminPassword
    requires env.decode(header[|Basic|..]) == env.adminEmail + [':'] + env.adminPassword
    ensures Resolve(Some(header), s, env) == Authenticated(Principal(env.adminEmail, "", "basic"))
  {
    PrefixesExclusive(header);
    IdAndSecret(env.adminEmail, env.adminPassword, ':');
  }

  /** The superuser identifier with a wrong secret records nothing and raises nothing. */
  lemma AdminWrongSecretIgnored(secret: string, s: Store, env: Environment)
    requires ':' !in env.adminEmail && ':' !in secret && secret != env.adminPassword
    ensures ResolveCredentials(env.adminEmail + [':'] + secret, s, env) == Anonymous
  {
    IdAndSecret(env.adminEmail, secret, ':');
  }

  /** Only the text between the first and second colon is the secret: a tail after a second colon is dropped. */
  lemma SecretEndsAtSecondColon(id: string, secret: string, tail: string, s: Store, env: Environment)
    requires ':' !in id && ':' !in secret
    ensures ResolveCredentials(id + [':'] + secret + [':'] + tail, s, env)
         == ResolveCredentials(id + [':'] + secret, s, env)
  {
    FirstTwoSegments(id, secret, tail, ':');
    IdAndSecret(id, secret, ':');
  }

  /**
   * Any identifier other than the superuser's is refused with 401 "Invalid
   * credentials": the account is looked up by the secret, and `login` is keyed by
   * the account document, which never matches a stored email.
   */
  lemma NonAdminBasicAlwaysRejected(decoded: string, s: Store, env: Environment)
    requires Split(decoded, ':')[0] != env.adminEmail
    ensures ResolveCredentials(decoded, s, env) == Rejected(InvalidCredentials)
  {
  }
}
