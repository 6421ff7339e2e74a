/**
 * internal/middleware: the guard that sends anonymous requests to the login page,
 * the middleware that puts the session user into the request context, and the
 * colour choice of the request log line.
 */
module Middleware {
  import opened Wrappers
  import opened External
  import opened Auth
  import Ansi

  const LoginPath := "/login"

  /**
   * RequireAuth(next) applied to a request. `downstream` is what next(c) returns;
   * `accepted` says whether the cookie store accepts the save SetReturnTo makes
   * (its error is ignored here).
   */
  method RequireAuth(c: Context, downstream: Response, accepted: bool) returns (resp: Response)
    modifies c`requestCtx, c`calls, c.session
    ensures var u := old(GetSession(c));
      if u.IsAuthenticated() then
        && resp == downstream
        && c.calls == old(c.calls) + [NextHandler]
        && c.requestCtx == old(c.requestCtx)[UserContextKey := User(u)]
        && GetUserFromContext(c.requestCtx) == u
        && c.session.values == old(c.session.values)
        && c.session.options == old(c.session.options)
        && c.session.saved == old(c.session.saved)
      else
        && resp == Redirect(StatusTemporaryRedirect, LoginPath)
        && c.calls == old(c.calls)
        && c.requestCtx == old(c.requestCtx)
        && c.session.values == old(c.session.values)[UserKey := User(u.(returnTo := c.url))]
        && GetSession(c) == u.(returnTo := c.url)
        && !GetSession(c).IsAuthenticated()
        && c.session.options == SessionOptions
        && c.session.saved == old(c.session.saved) + if accepted then [Cookie(c.session.values, SessionOptions)] else []
  {
    var userSession := GetSession(c);
    if !userSession.IsAuthenticated() {
      var _ := SetReturnTo(c, c.url, accepted);
      return Redirect(StatusTemporaryRedirect, LoginPath);
    }
    c.requestCtx := c.requestCtx[UserContextKey := User(userSession)];
    c.calls := c.calls + [NextHandler];
    return downstream;
  }

  /** InjectUser(next) applied to a request: the same steps whether or not the user is logged in. */
  method InjectUser(c: Context, downstream: Response) returns (resp: Response)
    modifies c`requestCtx, c`calls
    ensures resp == downstream
    ensures c.calls == old(c.calls) + [NextHandler]
    ensures c.requestCtx == old(c.requestCtx)[UserContextKey := User(GetSession(c))]
    ensures GetUserFromContext(c.requestCtx) == GetSession(c)
  {
    var userSession := GetSession(c);
    c.requestCtx := c.requestCtx[UserContextKey := User(userSession)];
    c.calls := c.calls + [NextHandler];
    return downstream;
  }

  /** The colour of the status field of a request log line. */
  function StatusColor(status: int): (color: string)
    ensures color == Ansi.Green <==> status < 400
    ensures color == Ansi.Yellow <==> 400 <= status < 500
    ensures color == Ansi.Red <==> 500 <= status
  {
    if 400 <= status < 500 then Ansi.Yellow
    else if status >= 500 then Ansi.Red
    else Ansi.Green
  }

  /** Rank of a status colour: green, then yellow, then red. */
  function Severity(color: string): nat {
    if color == Ansi.Red then 2 else if color == Ansi.Yellow then 1 else 0
  }

  /** A larger status never gets a milder colour. */
  lemma StatusColorMonotone(a: int, b: int)
    requires a <= b
    ensures Severity(StatusColor(a)) <= Severity(StatusColor(b))
  {
  }

  /** The fields of RequestLoggerValues the log line prints (the latency is left out). */
  datatype RequestValues = RequestValues(httpMethod: string, status: int, remoteIp: string, uri: string, error: Option<string>)

  /** A printed line, by its fields rather than its formatting. */
  datatype LogLine =
    | AccessLine(methodColor: string, httpMethod: string, statusColor: string, status: int, remoteIp: string, uri: string)
    | ErrorLine(message: string)

  /** The lines LogValuesFunc prints for one request: the access line, then an error line when there is an error. */
  function LogValues(v: RequestValues): (lines: seq<LogLine>)
    ensures |lines| == if v.error.Some? then 2 else 1
    ensures lines[0].AccessLine? && lines[0].methodColor == Ansi.Cyan
    ensures lines[0].statusColor == StatusColor(v.status)
    ensures lines[0].httpMethod == v.httpMethod && lines[0].status == v.status
    ensures lines[0].remoteIp == v.remoteIp && lines[0].uri == v.uri
    ensures v.error.Some? ==> lines[1] == ErrorLine(v.error.value)
  {
    var access := AccessLine(Ansi.Cyan, v.httpMethod, StatusColor(v.status), v.status, v.remoteIp, v.uri);
    if v.error.Some? then [access, ErrorLine(v.error.value)] else [access]
  }
}
