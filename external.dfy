/**
 * The boundary of the model: records that come from or go to code that is not
 * part of it (the OAuth library, the generated database layer, the web framework),
 * the HTTP status codes the handlers use, and the entries of the trace of calls
 * made across that boundary.
 */
module External {

  /**
   * A string lookup that answers the empty string for a missing key, as
   * os.Getenv, echo's c.Param and http.Header.Get do.
   */
  function GetOrEmpty(m: map<string, string>, key: string): (v: string)
    ensures key in m ==> v == m[key]
    ensures key !in m ==> v == ""
  {
    if key in m then m[key] else ""
  }

  /** Go's `int64`. */
  newtype Int64 = x: int | -0x8000_0000_0000_0000 <= x < 0x8000_0000_0000_0000

  const StatusOK := 200
  const StatusSeeOther := 303
  const StatusTemporaryRedirect := 307
  const StatusBadRequest := 400
  const StatusUnauthorized := 401
  const StatusInternalServerError := 500

  /** What a handler or middleware leaves on the response. */
  datatype Response =
    | Redirect(code: int, location: string)    // c.Redirect(code, location)
    | NoContent(code: int)                     // c.NoContent(code)
    | HttpError(code: int, message: string)    // echo.NewHTTPError(code, message)
    | Handled                                  // nil error; the response was written by code outside the model

  /** The user profile goth hands back after a successful OAuth exchange. */
  datatype GothUser = GothUser(userId: string, email: string, name: string, avatarUrl: string)

  /** pgtype.Text: a nullable text column. */
  datatype PgText = PgText(text: string, valid: bool)

  /** The arguments of the generated UpsertUser query. */
  datatype UpsertUserParams = UpsertUserParams(githubId: string, email: string, name: string, avatarUrl: PgText)

  /** The row UpsertUser returns. */
  datatype DbUser = DbUser(id: Int64, email: string, name: string, avatarUrl: PgText)

  /** One call out of the model, in the order it happened within a request. */
  datatype Call =
    | NextHandler                          // next(c) in a middleware
    | BeginAuth(provider: string)          // AuthService.BeginAuth, provider taken from the request context
    | CompleteAuth(provider: string)       // AuthService.CompleteAuth
    | UpsertUser(params: UpsertUserParams) // DB.UpsertUser
    | ProviderLogout(provider: string)     // AuthService.Logout
}
