/**
 * internal/auth (session.go and auth.go): the typed user session kept in the
 * session cookie, and the validation done before the OAuth provider is set up.
 *
 * The request-scoped objects of the web framework that these functions work on
 * are modelled here too: `Session` is the cookie session of the request (its
 * key/value map and its cookie options), and `Context` is the request context,
 * reduced to what the core reads and writes.
 */
module Auth {
  import opened Wrappers
  import opened External
  import Configuration

  const UserKey := "user_session"

  /** Seven days, in seconds. */
  const SessionMaxAge := 86400 * 7

  /** The typed record stored in the session under UserKey. */
  datatype UserSession = UserSession(userId: Int64, email: string, name: string, avatarUrl: string, returnTo: string)
  {
    predicate IsAuthenticated() {
      userId != 0
    }
  }

  /** Go's zero value `UserSession{}`. */
  const EmptySession := UserSession(0, "", "", "", "")

  /** The dynamically typed values kept in a session map or a request context. */
  datatype Value = Str(s: string) | Int(i: Int64) | User(u: UserSession)

  /** Keys of request-context values: this package's `UserContextKey`, and the key gothic reads the provider from. */
  datatype CtxKey = UserContextKey | ProviderParamKey

  /** The cookie options the core sets (sessions.Options has more fields; none is touched here). */
  datatype Options = Options(path: string, maxAge: int, httpOnly: bool)

  /** The options SaveSession (and the OAuth callback) install. */
  const SessionOptions := Options("/", SessionMaxAge, true)

  /** A Set-Cookie the store wrote to the response: the values and options at the time of saving. */
  datatype Cookie = Cookie(values: map<string, Value>, options: Options)

  /**
   * The session of one request, as the framework's session.Get returns it
   * (the decoded cookie values, or an empty map when there is no readable cookie).
   */
  class Session {
    var values: map<string, Value>
    var options: Options
    /** The cookies written to the response so far, oldest first. */
    var saved: seq<Cookie>

    constructor (values: map<string, Value>, options: Options)
      ensures this.values == values && this.options == options && saved == []
    {
      this.values := values;
      this.options := options;
      saved := [];
    }

    /**
     * sess.Save: the store encodes the session into a cookie. Whether it can
     * (encoding and signing are outside the model) is the `accepted` oracle;
     * the result is true when Save returns an error.
     */
    method Save(accepted: bool) returns (failed: bool)
      modifies this`saved
      ensures failed == !accepted
      ensures saved == if accepted then old(saved) + [Cookie(values, options)] else old(saved)
    {
      failed := !accepted;
      if accepted {
        saved := saved + [Cookie(values, options)];
      }
    }
  }

  /** The request context of one request (echo.Context and the *http.Request it holds). */
  class Context {
    /** session.Get("session", c): the same object on every call within the request. */
    const session: Session
    /** The values of c.Request().Context(). */
    var requestCtx: map<CtxKey, Value>
    /** The route parameters. */
    const params: map<string, string>
    /** c.Request().URL.String(). */
    const url: string
    /** The request headers, by canonical name. */
    const requestHeaders: map<string, string>
    var responseHeaders: map<string, string>
    /** Calls made out of the model while serving this request, in order. */
    var calls: seq<Call>

    constructor (session: Session, params: map<string, string>, url: string, requestHeaders: map<string, string>)
      ensures this.session == session && this.params == params && this.url == url
      ensures this.requestHeaders == requestHeaders
      ensures requestCtx == map[] && responseHeaders == map[] && calls == []
    {
      this.session := session;
      this.params := params;
      this.url := url;
      this.requestHeaders := requestHeaders;
      requestCtx := map[];
      responseHeaders := map[];
      calls := [];
    }
  }

  /** c.Param: the empty string for a missing parameter. */
  function Param(c: Context, name: string): string {
    GetOrEmpty(c.params, name)
  }

  /** The zero session is not authenticated, and authentication is exactly a non-zero user id. */
  lemma AuthenticatedIffUserId(s: UserSession)
    ensures s.IsAuthenticated() <==> s.userId != 0
    ensures !EmptySession.IsAuthenticated()
  {
  }

  /** The user stored in a request context under UserContextKey, or the zero session. */
  function GetUserFromContext(ctx: map<CtxKey, Value>): (u: UserSession)
    ensures UserContextKey in ctx && ctx[UserContextKey].User? ==> u == ctx[UserContextKey].u
    ensures !(UserContextKey in ctx && ctx[UserContextKey].User?) ==> u == EmptySession
  {
    if UserContextKey in ctx && ctx[UserContextKey].User? then ctx[UserContextKey].u else EmptySession
  }

  /** The typed session of the request, or the zero session; it never fails. */
  function GetSession(c: Context): (u: UserSession)
    reads c.session
    ensures UserKey in c.session.values && c.session.values[UserKey].User? ==> u == c.session.values[UserKey].u
    ensures !(UserKey in c.session.values && c.session.values[UserKey].User?) ==> u == EmptySession
  {
    var values := c.session.values;
    if UserKey in values && values[UserKey].User? then values[UserKey].u else EmptySession
  }

  /** Store `s` under UserKey with the seven-day options and save; returns true on a save error. */
  method SaveSession(c: Context, s: UserSession, accepted: bool) returns (failed: bool)
    modifies c.session
    ensures c.session.options == SessionOptions
    ensures c.session.values == old(c.session.values)[UserKey := User(s)]
    ensures GetSession(c) == s
    ensures failed == !accepted
    ensures c.session.saved == old(c.session.saved) + if accepted then [Cookie(c.session.values, SessionOptions)] else []
  {
    var sess := c.session;
    sess.options := SessionOptions;
    sess.values := sess.values[UserKey := User(s)];
    failed := sess.Save(accepted);
  }

  /** Expire the cookie; the values themselves are left as they are. */
  method ClearSession(c: Context, accepted: bool) returns (failed: bool)
    modifies c.session
    ensures c.session.options == old(c.session.options).(maxAge := -1)
    ensures c.session.values == old(c.session.values)
    ensures GetSession(c) == old(GetSession(c))
    ensures failed == !accepted
    ensures c.session.saved == old(c.session.saved) + if accepted then [Cookie(c.session.values, c.session.options)] else []
  {
    var sess := c.session;
    sess.options := sess.options.(maxAge := -1);
    failed := sess.Save(accepted);
  }

  /** Record the URL to return to after login in the typed session; nothing else in it changes. */
  method SetReturnTo(c: Context, url: string, accepted: bool) returns (failed: bool)
    modifies c.session
    ensures GetSession(c) == old(GetSession(c)).(returnTo := url)
    ensures GetSession(c).IsAuthenticated() == old(GetSession(c)).IsAuthenticated()
    ensures c.session.values == old(c.session.values)[UserKey := User(old(GetSession(c)).(returnTo := url))]
    ensures c.session.options == SessionOptions
    ensures failed == !accepted
    ensures c.session.saved == old(c.session.saved) + if accepted then [Cookie(c.session.values, SessionOptions)] else []
  {
    var s := GetSession(c);
    s := s.(returnTo := url);
    failed := SaveSession(c, s, accepted);
  }

  /** Why Init refuses to set up the provider. */
  datatype InitError = MissingGithubCredentials | MissingSessionSecret

  /** The text of the error Init returns. */
  function ErrorMessage(e: InitError): string {
    match e
    case MissingGithubCredentials => "GITHUB_CLIENT_ID and GITHUB_CLIENT_SECRET must be set"
    case MissingSessionSecret => "SESSION_SECRET must be set"
  }

  /**
   * What Init installs: the secret of the cookie store used for OAuth state,
   * and the GitHub provider with its credentials and callback URL.
   */
  datatype ProviderSetup = ProviderSetup(storeSecret: string, clientId: string, clientSecret: string, callbackUrl: string)

  const ProductionCallbackUrl := "https://your-domain.com/auth/github/callback"

  /** The OAuth callback URL for a configuration. */
  function CallbackUrl(cfg: Configuration.Config): string {
    if cfg.environment == "production" then ProductionCallbackUrl
    else "http://localhost:" + cfg.port + "/auth/github/callback"
  }

  function Init(cfg: Configuration.Config): (r: Result<ProviderSetup, InitError>)
    ensures r.Success? <==> cfg.githubClientId != "" && cfg.githubClientSecret != "" && cfg.sessionSecret != ""
    ensures r == Failure(MissingGithubCredentials) <==> cfg.githubClientId == "" || cfg.githubClientSecret == ""
    ensures r == Failure(MissingSessionSecret) <==>
      cfg.githubClientId != "" && cfg.githubClientSecret != "" && cfg.sessionSecret == ""
    ensures r.Success? ==> r.value == ProviderSetup(cfg.sessionSecret, cfg.githubClientId, cfg.githubClientSecret, CallbackUrl(cfg))
  {
    if cfg.githubClientId == "" || cfg.githubClientSecret == "" then Failure(MissingGithubCredentials)
    else if cfg.sessionSecret == "" then Failure(MissingSessionSecret)
    else Success(ProviderSetup(cfg.sessionSecret, cfg.githubClientId, cfg.githubClientSecret, CallbackUrl(cfg)))
  }

  /**
   * The message of a failed Init blames exactly the variables that are empty: the
   * session-secret message appears iff both credentials are set and the secret is not.
   */
  lemma InitFailureMessage(cfg: Configuration.Config)
    requires Init(cfg).Failure?
    ensures ErrorMessage(Init(cfg).error) == "SESSION_SECRET must be set" <==>
      cfg.githubClientId != "" && cfg.githubClientSecret != "" && cfg.sessionSecret == ""
    ensures ErrorMessage(Init(cfg).error) == "GITHUB_CLIENT_ID and GITHUB_CLIENT_SECRET must be set" <==>
      cfg.githubClientId == "" || cfg.githubClientSecret == ""
  {
  }

  /** In production the callback URL is fixed, whatever the port. */
  lemma ProductionCallbackIgnoresPort(cfg: Configuration.Config, port: string)
    requires cfg.environment == "production"
    ensures CallbackUrl(cfg) == CallbackUrl(cfg.(port := port)) == ProductionCallbackUrl
  {
  }

  /** Elsewhere the callback URL is on localhost and carries the configured port. */
  lemma LocalCallbackCarriesPort(cfg: Configuration.Config)
    requires cfg.environment != "production"
    ensures var url := CallbackUrl(cfg);
      && url[..17] == "http://localhost:"
      && url[17..17 + |cfg.port|] == cfg.port
      && url[17 + |cfg.port|..] == "/auth/github/callback"
  {
  }

  /** Init after Load succeeds exactly when the three secrets are set in the environment. */
  lemma InitAfterLoad(env: Configuration.Environ)
    ensures Init(Configuration.Load(env)).Success? <==>
      && Configuration.Getenv(env, "GITHUB_CLIENT_ID") != ""
      && Configuration.Getenv(env, "GITHUB_CLIENT_SECRET") != ""
      && Configuration.Getenv(env, "SESSION_SECRET") != ""
  {
  }

  /** With ENV unset the configuration is production, so the callback URL is the production one. */
  lemma DefaultEnvironmentUsesProductionCallback(env: Configuration.Environ)
    requires Configuration.Getenv(env, "ENV") == ""
    requires Init(Configuration.Load(env)).Success?
    ensures Init(Configuration.Load(env)).value.callbackUrl == ProductionCallbackUrl
  {
  }
}
