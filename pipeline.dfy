/** The two middlewares in sequence: `authenticate()` records the caller, `auth(paths)` decides. */
module Pipeline {
  import opened Errors
  import opened Accounts
  import opened Text
  import opened Requests
  import opened Authenticate
  import opened Policy

  /**
   * A request that arrives without usable credentials reaches the gate with no
   * scheme recorded, so every configured route that requires one answers 401.
   */
  lemma UnauthenticatedCallerRejected(v: RequestView, header: Option<string>, s: Store, env: Environment, paths: Paths)
    requires v.user.None? && v.role.None? && v.authType.None?
    requires !Present(header) || (!StartsWith(header.value, Bearer) && !StartsWith(header.value, Basic))
    requires v.httpMethod in paths && paths[v.httpMethod].authorization.Some?
    ensures var r := Resolve(header, s, env);
      && FlowOf(r) == Next
      && (paths[v.httpMethod].authentication(Applied(v, r)).Ok? &&
          Truthy(paths[v.httpMethod].authentication(Applied(v, r)).value) ==>
            Auth(paths, Applied(v, r)) == Respond(401, "no required authentication"))
  {
  }

  /**
   * A basic-scheme request whose identifier is not the superuser's never reaches
   * the gate: the resolver throws 401 "Invalid credentials" and records nothing.
   */
  lemma NonAdminBasicNeverReachesGate(v: RequestView, header: string, s: Store, env: Environment)
    requires StartsWith(header, Basic)
    requires Split(env.decode(header[|Basic|..]), ':')[0] != env.adminEmail
    ensures var r := Resolve(Some(header), s, env);
      && FlowOf(r) == Raised(InvalidCredentials)
      && Applied(v, r) == v
  {
    PrefixesExclusive(header);
    NonAdminBasicAlwaysRejected(env.decode(header[|Basic|..]), s, env);
  }
}
