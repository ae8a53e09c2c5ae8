/** The request object the middlewares read and decorate. */
module Requests {
  import opened Errors

  /** What the policy callbacks see of a request; unset fields are `None`. */
  datatype RequestView = RequestView(
    httpMethod: string,
    params: map<string, string>,
    user: Option<string>,
    role: Option<string>,
    authType: Option<string>)

  /** An inbound request. `authenticate` fills `user`, `role` and `authType` in place. */
  class Request {
    const httpMethod: string
    /** The `Authorization` header, if sent. */
    const authorization: Option<string>
    const params: map<string, string>
    var user: Option<string>
    var role: Option<string>
    var authType: Option<string>

    /** A request as it arrives: no principal fields set. */
    constructor (httpMethod: string, authorization: Option<string>, params: map<string, string>)
      ensures this.httpMethod == httpMethod && this.authorization == authorization && this.params == params
      ensures user.None? && role.None? && authType.None?
    {
      this.httpMethod := httpMethod;
      this.authorization := authorization;
      this.params := params;
      user, role, authType := None, None, None;
    }

    function View(): (v: RequestView)
      reads this
    {
      RequestView(httpMethod, params, user, role, authType)
    }
  }
}
