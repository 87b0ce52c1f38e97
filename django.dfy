/** The host framework's objects, as the middleware sees them. */
module Django {
  import opened Values

  /** `request.user`: its primary key and `get_username()`, either of which
      may be None. */
  datatype User = User(pk: Option<Value>, username: Option<Value>)

  /** An incoming request. `host` is what `request.get_host()` does (it
      raises for a host Django does not allow), `absoluteUri` is
      `request.build_absolute_uri()`, `user` is `getattr(request, 'user',
      None)`. */
  datatype Request = Request(
    path: string,
    httpMethod: string,
    meta: map<string, string>,
    host: Outcome<string>,
    absoluteUri: string,
    user: Option<User>)

  /** A view function, known to the middleware only through
      `utils.get_func_name(view_func)`. */
  datatype ViewFunc = ViewFunc(funcName: string)

  /** A response object; the middleware reads its status code and hands the
      same object back. */
  class Response {
    const statusCode: int

    constructor (statusCode: int)
      ensures this.statusCode == statusCode
    {
      this.statusCode := statusCode;
    }
  }
}
