/**
 * internal/web/handlers/auth.go: the OAuth entry point, its callback and logout.
 * The OAuth exchange and the database are oracles: their results are parameters,
 * and each call to them is recorded in the request's `calls` trace.
 *
 * As written, the callback stores the user under the loose keys "user_id",
 * "email", "name" and "avatar_url" and pops a loose "return_to" key, while the
 * typed session (GetSession, SetReturnTo, RequireAuth) lives under UserKey;
 * AuthCallback's contract records that the typed session is left as it was.
 */
module Handlers {
  import opened Wrappers
  import opened External
  import opened AuthPkg = Auth

  const ProviderNotSpecified := "Provider not specified"
  const FailedToSaveUser := "Failed to save user"
  const FailedToSaveSession := "Failed to save session"
  const ReturnToKey := "return_to"

  /**
   * The htmx headers, under the canonical names that net/http stores and looks up:
   * Header.Get("HX-Request") reads "Hx-Request", and Header().Set("HX-Redirect", …)
   * writes "Hx-Redirect".
   */
  const HxRequestHeader := "Hx-Request"
  const HxRedirectHeader := "Hx-Redirect"

  /** Start the OAuth flow for the provider named in the route. */
  method Auth(c: Context) returns (resp: Response)
    modifies c`requestCtx, c`calls
    ensures var provider := Param(c, "provider");
      if provider == "" then
        resp == HttpError(StatusBadRequest, ProviderNotSpecified) && c.calls == old(c.calls) && c.requestCtx == old(c.requestCtx)
      else
        && resp == Handled
        && c.requestCtx == old(c.requestCtx)[ProviderParamKey := Str(provider)]
        && c.calls == old(c.calls) + [BeginAuth(provider)]
  {
    var provider := Param(c, "provider");
    if provider == "" {
      return HttpError(StatusBadRequest, ProviderNotSpecified);
    }
    c.requestCtx := c.requestCtx[ProviderParamKey := Str(provider)];
    c.calls := c.calls + [BeginAuth(provider)];
    return Handled;
  }

  /** The upsert arguments for an OAuth profile: the avatar is a valid text exactly when the profile has one. */
  function UpsertParamsFor(user: GothUser): (p: UpsertUserParams)
    ensures p.githubId == user.userId && p.email == user.email && p.name == user.name
    ensures p.avatarUrl.valid <==> user.avatarUrl != ""
    ensures p.avatarUrl.text == user.avatarUrl
  {
    var avatarUrl := if user.avatarUrl != "" then PgText(user.avatarUrl, true) else PgText("", false);
    UpsertUserParams(user.userId, user.email, user.name, avatarUrl)
  }

  /** The session values after the callback writes the database row into them. */
  function LoggedIn(values: map<string, Value>, row: DbUser): (r: map<string, Value>)
    ensures r.Keys == values.Keys + {"user_id", "email", "name"} + (if row.avatarUrl.valid then {"avatar_url"} else {})
    ensures r["user_id"] == Int(row.id) && r["email"] == Str(row.email) && r["name"] == Str(row.name)
    ensures row.avatarUrl.valid ==> "avatar_url" in r && r["avatar_url"] == Str(row.avatarUrl.text)
    ensures !row.avatarUrl.valid ==> ("avatar_url" in r <==> "avatar_url" in values)
    ensures forall k :: k in values && k !in {"user_id", "email", "name"} && (k != "avatar_url" || !row.avatarUrl.valid) ==>
      k in r && r[k] == values[k]
  {
    var v := values["user_id" := Int(row.id)]["email" := Str(row.email)]["name" := Str(row.name)];
    if row.avatarUrl.valid then v["avatar_url" := Str(row.avatarUrl.text)] else v
  }

  /** The session names a non-empty URL to return to. */
  predicate HasReturnTo(values: map<string, Value>) {
    ReturnToKey in values && values[ReturnToKey].Str? && values[ReturnToKey].s != ""
  }

  /** Where the callback sends the browser: the stored return URL, or "/". */
  function ReturnTarget(values: map<string, Value>): (target: string)
    ensures target != ""
    ensures HasReturnTo(values) ==> target == values[ReturnToKey].s
    ensures !HasReturnTo(values) ==> target == "/"
  {
    if HasReturnTo(values) then values[ReturnToKey].s else "/"
  }

  /** Writing the row leaves the return URL and the typed session where they were. */
  lemma LoggedInKeepsOtherKeys(values: map<string, Value>, row: DbUser)
    ensures HasReturnTo(LoggedIn(values, row)) == HasReturnTo(values)
    ensures ReturnTarget(LoggedIn(values, row)) == ReturnTarget(values)
    ensures (UserKey in LoggedIn(values, row)) == (UserKey in values)
    ensures UserKey in values ==> LoggedIn(values, row)[UserKey] == values[UserKey]
  {
  }

  /**
   * The OAuth callback. `completed` is what CompleteAuth returns, `upserted` what
   * UpsertUser returns, `sessionAccepted` and `popAccepted` whether the cookie
   * store accepts the first and the second save.
   */
  method AuthCallback(c: Context, completed: Result<GothUser, string>, upserted: Result<DbUser, string>,
                      sessionAccepted: bool, popAccepted: bool) returns (resp: Response)
    modifies c`requestCtx, c`calls, c.session
    // the typed session is never touched, so the guard sees the same user as before
    ensures GetSession(c) == old(GetSession(c))
    ensures var provider := Param(c, "provider");
      provider == "" ==>
        && resp == HttpError(StatusBadRequest, ProviderNotSpecified)
        && c.calls == old(c.calls) && c.requestCtx == old(c.requestCtx)
        && c.session.values == old(c.session.values) && c.session.options == old(c.session.options)
        && c.session.saved == old(c.session.saved)
    ensures var provider := Param(c, "provider");
      provider != "" && completed.Failure? ==>
        && resp == HttpError(StatusUnauthorized, completed.error)
        && c.requestCtx == old(c.requestCtx)[ProviderParamKey := Str(provider)]
        && c.calls == old(c.calls) + [CompleteAuth(provider)]
        && c.session.values == old(c.session.values) && c.session.options == old(c.session.options)
        && c.session.saved == old(c.session.saved)
    ensures var provider := Param(c, "provider");
      provider != "" && completed.Success? && upserted.Failure? ==>
        && resp == HttpError(StatusInternalServerError, FailedToSaveUser)
        && c.requestCtx == old(c.requestCtx)[ProviderParamKey := Str(provider)]
        && c.calls == old(c.calls) + [CompleteAuth(provider), UpsertUser(UpsertParamsFor(completed.value))]
        && c.session.values == old(c.session.values) && c.session.options == old(c.session.options)
        && c.session.saved == old(c.session.saved)
    ensures var provider := Param(c, "provider");
      provider != "" && completed.Success? && upserted.Success? ==>
        && c.requestCtx == old(c.requestCtx)[ProviderParamKey := Str(provider)]
        && c.calls == old(c.calls) + [CompleteAuth(provider), UpsertUser(UpsertParamsFor(completed.value))]
        && LoginStored(old(c.session.values), upserted.value, sessionAccepted, popAccepted,
                       old(c.session.saved), c.session.values, c.session.options, c.session.saved, resp)
  {
    var provider := Param(c, "provider");
    if provider == "" {
      return HttpError(StatusBadRequest, ProviderNotSpecified);
    }
    c.requestCtx := c.requestCtx[ProviderParamKey := Str(provider)];

    c.calls := c.calls + [CompleteAuth(provider)];
    if completed.Failure? {
      return HttpError(StatusUnauthorized, completed.error);
    }
    var user := completed.value;

    var params := UpsertParamsFor(user);
    c.calls := c.calls + [UpsertUser(params)];
    if upserted.Failure? {
      return HttpError(StatusInternalServerError, FailedToSaveUser);
    }
    var dbUser := upserted.value;

    resp := StoreLogin(c.session, dbUser, sessionAccepted, popAccepted);
  }

  /**
   * What the session holds and what the callback answers once the row is stored:
   * the row written into the values with the seven-day options; a failed save
   * is a 500; otherwise a 307 to the return URL, which is popped from the session.
   */
  ghost predicate LoginStored(values: map<string, Value>, row: DbUser, sessionAccepted: bool, popAccepted: bool,
                              saved: seq<Cookie>, values': map<string, Value>, options': Options, saved': seq<Cookie>,
                              resp: Response)
  {
    var logged := LoggedIn(values, row);
    && options' == SessionOptions
    && (!sessionAccepted ==>
          && resp == HttpError(StatusInternalServerError, FailedToSaveSession)
          && values' == logged
          && saved' == saved)
    && (sessionAccepted ==>
          && resp == Redirect(StatusTemporaryRedirect, ReturnTarget(values))
          && values' == (if HasReturnTo(values) then logged - {ReturnToKey} else logged)
          && saved' == saved + [Cookie(logged, SessionOptions)]
               + (if HasReturnTo(values) && popAccepted then [Cookie(logged - {ReturnToKey}, SessionOptions)] else []))
  }

  /** The callback from the session write on (its Go lines 67-92). */
  method StoreLogin(sess: Session, dbUser: DbUser, sessionAccepted: bool, popAccepted: bool) returns (resp: Response)
    modifies sess
    ensures LoginStored(old(sess.values), dbUser, sessionAccepted, popAccepted,
                        old(sess.saved), sess.values, sess.options, sess.saved, resp)
    ensures UserKey in sess.values <==> UserKey in old(sess.values)
    ensures UserKey in sess.values ==> sess.values[UserKey] == old(sess.values)[UserKey]
  {
    sess.options := SessionOptions;
    sess.values := sess.values["user_id" := Int(dbUser.id)];
    sess.values := sess.values["email" := Str(dbUser.email)];
    sess.values := sess.values["name" := Str(dbUser.name)];
    if dbUser.avatarUrl.valid {
      sess.values := sess.values["avatar_url" := Str(dbUser.avatarUrl.text)];
    }
    ghost var logged := LoggedIn(old(sess.values), dbUser);
    assert sess.values == logged;
    LoggedInKeepsOtherKeys(old(sess.values), dbUser);
    var failed := sess.Save(sessionAccepted);
    if failed {
      return HttpError(StatusInternalServerError, FailedToSaveSession);
    }

    var returnTo := PopReturnTo(sess, popAccepted);
    return Redirect(StatusTemporaryRedirect, returnTo);
  }

  /** The callback's last step: take the return URL out of the session (saving again), or default to "/". */
  method PopReturnTo(sess: Session, accepted: bool) returns (returnTo: string)
    modifies sess`values, sess`saved
    ensures returnTo == ReturnTarget(old(sess.values))
    ensures sess.values == if HasReturnTo(old(sess.values)) then old(sess.values) - {ReturnToKey} else old(sess.values)
    ensures sess.saved == old(sess.saved)
      + if HasReturnTo(old(sess.values)) && accepted then [Cookie(sess.values, sess.options)] else []
  {
    returnTo := "/";
    if ReturnToKey in sess.values && sess.values[ReturnToKey].Str? && sess.values[ReturnToKey].s != "" {
      returnTo := sess.values[ReturnToKey].s;
      sess.values := sess.values - {ReturnToKey};
      var _ := sess.Save(accepted);
    }
  }

  /** Log out: optionally end the provider session, expire the cookie, and send the browser home. */
  method Logout(c: Context, accepted: bool) returns (resp: Response)
    modifies c`requestCtx, c`calls, c`responseHeaders, c.session
    ensures var provider := Param(c, "provider");
      && (provider != "" ==>
            c.requestCtx == old(c.requestCtx)[ProviderParamKey := Str(provider)] && c.calls == old(c.calls) + [ProviderLogout(provider)])
      && (provider == "" ==> c.requestCtx == old(c.requestCtx) && c.calls == old(c.calls))
    ensures c.session.values == old(c.session.values)
    ensures c.session.options == old(c.session.options).(maxAge := -1)
    ensures c.session.saved == old(c.session.saved) + if accepted then [Cookie(c.session.values, c.session.options)] else []
    ensures GetOrEmpty(c.requestHeaders, HxRequestHeader) == "true" ==>
      resp == NoContent(StatusOK) && c.responseHeaders == old(c.responseHeaders)[HxRedirectHeader := "/"]
    ensures GetOrEmpty(c.requestHeaders, HxRequestHeader) != "true" ==>
      resp == Redirect(StatusSeeOther, "/") && c.responseHeaders == old(c.responseHeaders)
  {
    var provider := Param(c, "provider");
    if provider != "" {
      c.requestCtx := c.requestCtx[ProviderParamKey := Str(provider)];
      c.calls := c.calls + [ProviderLogout(provider)];
    }

    var sess := c.session;
    sess.options := sess.options.(maxAge := -1);
    var _ := sess.Save(accepted);

    if GetOrEmpty(c.requestHeaders, HxRequestHeader) == "true" {
      c.responseHeaders := c.responseHeaders[HxRedirectHeader := "/"];
      return NoContent(StatusOK);
    }
    return Redirect(StatusSeeOther, "/");
  }
}
