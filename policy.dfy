/**
 * The policy gate (`auth(paths)`): looks up the entry for the request's method,
 * checks that the request was authenticated with the required scheme, runs the
 * authorization predicate and either forwards the request or answers it.
 */
module Policy {
  import opened Errors
  import opened Requests

  /** What an authorization predicate does: resolve to a truthy or falsy value, or throw. */
  datatype Decision = Returned(granted: bool) | Threw(error: Error)

  /**
   * `paths[method]`: `authentication` names the scheme a request must have been
   * authenticated with (a falsy value: none), or throws (`Err`); `authorization`
   * is the predicate, `None` when the entry leaves it out.
   */
  datatype PolicyEntry = PolicyEntry(
    authentication: RequestView -> Result<Option<string>>,
    authorization: Option<RequestView -> Decision>)

  /** The policy table of a resource, keyed by HTTP method. */
  type Paths = map<string, PolicyEntry>

  /**
   * Call `next()`, answer with a status and `{ error: message }`, or throw (the
   * destructuring of a missing entry, or an `authentication` callback that
   * throws outside the `try`): the gate's promise rejects and no answer is sent.
   */
  datatype Outcome = Forward | Respond(status: int, error: string) | Throw

  /** JavaScript truthiness of a string-or-undefined. */
  predicate Truthy(v: Option<string>)
  {
    v.Some? && v.value != ""
  }

  /** `error.status || 500`: a missing or zero status becomes 500. */
  function ErrorStatus(e: Error): (status: int)
    ensures status != 0
    ensures status == 500 || e.status == Some(status)
    ensures e.status.Some? && e.status.value != 0 ==> status == e.status.value
    ensures e.status.None? ==> status == 500
  {
    if e.status.Some? && e.status.value != 0 then e.status.value else 500
  }

  /** The gate consults the predicate only for a configured entry whose required scheme the request has. */
  predicate Consulted(paths: Paths, req: RequestView)
  {
    && req.httpMethod in paths
    && paths[req.httpMethod].authorization.Some?
    && paths[req.httpMethod].authentication(req).Ok?
    && Truthy(paths[req.httpMethod].authentication(req).value)
    && req.authType == paths[req.httpMethod].authentication(req).value
  }

  /** The decision of `auth(paths)` for one request. */
  function Auth(paths: Paths, req: RequestView): (o: Outcome)
    // never a silent allow: forwarding needs a configured entry and, if it asks for
    // a scheme, that scheme on the request and the predicate's consent
    ensures o == Forward ==>
      && req.httpMethod in paths && paths[req.httpMethod].authorization.Some?
      && paths[req.httpMethod].authentication(req).Ok?
      && (Consulted(paths, req) ==> paths[req.httpMethod].authorization.value(req) == Returned(true))
      && (Truthy(paths[req.httpMethod].authentication(req).value) ==> Consulted(paths, req))
    // a throwing `authentication` is not caught: no answer is sent
    ensures (&& req.httpMethod in paths && paths[req.httpMethod].authorization.Some?
             && paths[req.httpMethod].authentication(req).Err?) ==> o == Throw
    // every answer is 401, 403, 500 or the status a thrown error carries
    ensures o.Respond? ==>
      || o.status in {401, 403, 500}
      || (Consulted(paths, req) && paths[req.httpMethod].authorization.value(req).Threw?
          && paths[req.httpMethod].authorization.value(req).error.status == Some(o.status))
  {
    if req.httpMethod !in paths then Throw
    else
      var entry := paths[req.httpMethod];
      if entry.authorization.None? then Respond(500, "security configuration not provided")
      else
        match entry.authentication(req)
        case Err(_) => Throw
        case Ok(required) =>
          if !Truthy(required) then Forward
          else if req.authType != required then Respond(401, "no required authentication")
          else
            match entry.authorization.value(req)
            case Returned(granted) => if granted then Forward else Respond(403, "not authorized")
            case Threw(e) => Respond(ErrorStatus(e), e.message)
  }

  // ---- properties ----

  /** A method without an entry is never let through: the destructuring throws. */
  lemma MissingEntryThrows(paths: Paths, req: RequestView)
    requires req.httpMethod !in paths
    ensures Auth(paths, req) == Throw
  {
  }

  /** An entry without a predicate is a server fault, checked before any authentication. */
  lemma MissingPredicateIsServerFault(paths: Paths, req: RequestView)
    requires req.httpMethod in paths && paths[req.httpMethod].authorization.None?
    ensures Auth(paths, req) == Respond(500, "security configuration not provided")
  {
  }

  /**
   * A required scheme that the request lacks, including an unauthenticated
   * request, gives 401 "no required authentication".
   */
  lemma SchemeMismatchIs401(paths: Paths, req: RequestView)
    requires req.httpMethod in paths && paths[req.httpMethod].authorization.Some?
    requires paths[req.httpMethod].authentication(req).Ok?
    requires Truthy(paths[req.httpMethod].authentication(req).value)
    requires req.authType != paths[req.httpMethod].authentication(req).value
    ensures Auth(paths, req) == Respond(401, "no required authentication")
  {
  }

  /**
   * An `authentication` callback that throws is outside the `try`: whatever the
   * predicate would say, the gate throws and never answers.
   */
  lemma AuthenticationThrowIsUncaught(paths: Paths, req: RequestView, other: RequestView -> Decision)
    requires req.httpMethod in paths && paths[req.httpMethod].authorization.Some?
    requires paths[req.httpMethod].authentication(req).Err?
    ensures var swapped := paths[req.httpMethod := paths[req.httpMethod].(authorization := Some(other))];
      Auth(swapped, req) == Throw && Auth(paths, req) == Throw
  {
  }

  /** What the predicate's answer becomes once it is consulted. */
  lemma ConsultedOutcomes(paths: Paths, req: RequestView)
    requires Consulted(paths, req)
    ensures var d := paths[req.httpMethod].authorization.value(req);
      && (d == Returned(true) <==> Auth(paths, req) == Forward)
      && (d == Returned(false) ==> Auth(paths, req) == Respond(403, "not authorized"))
      && (d.Threw? ==> Auth(paths, req) == Respond(ErrorStatus(d.error), d.error.message))
  {
  }

  /**
   * The predicate is never invoked unless consulted: replacing it changes nothing.
   * In particular a falsy `authentication` forwards whatever the predicate would say.
   */
  lemma PredicateOnlyWhenConsulted(paths: Paths, req: RequestView, other: RequestView -> Decision)
    requires req.httpMethod in paths && paths[req.httpMethod].authorization.Some?
    requires !Consulted(paths, req)
    ensures var swapped := paths[req.httpMethod := paths[req.httpMethod].(authorization := Some(other))];
      Auth(swapped, req) == Auth(paths, req)
    ensures paths[req.httpMethod].authentication(req).Ok? && !Truthy(paths[req.httpMethod].authentication(req).value) ==>
      Auth(paths, req) == Forward
  {
  }
}
