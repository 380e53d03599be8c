/** `GET /api/bff/users/me`: reads the bearer token and maps the user
    service's result to a status. Nothing it answers may be cached. */
module MeEndpoint {
  import opened Text
  import opened BffTypes

  /** `authHeader?.replace("Bearer ", "")`: only the first occurrence is
      removed, wherever it is; an absent header gives no token. */
  function Token(authorization: Option<string>): (token: Option<string>)
    ensures authorization.None? <==> token.None?
    ensures authorization.Some? && IndexOf(authorization.value, "Bearer ").None? ==> token == authorization
  {
    match authorization
    case None => None
    case Some(h) => Some(ReplaceFirst(h, "Bearer ", ""))
  }

  /** A header of the usual form `Bearer <t>` yields `<t>`. */
  lemma TokenOfBearerHeader(t: string)
    ensures Token(Some("Bearer " + t)) == Some(t)
  {
    var h := "Bearer " + t;
    assert OccursAt(h, "Bearer ", 0);
    assert IndexOf(h, "Bearer ") == Some(0);
    assert h[..0] + "" + h[|"Bearer "|..] == t;
  }

  /** The status for a service result: 200 for a success, 401 for an
      UNAUTHORIZED failure and 500 for every other failure. */
  function StatusFor(result: BFFResponse<UserDTO>): (status: int)
    ensures status == 200 <==> result.Success?
    ensures status == 401 <==> result.Failure? && result.error.code == "UNAUTHORIZED"
    ensures status == 500 <==> result.Failure? && result.error.code != "UNAUTHORIZED"
  {
    if result.Success? then 200 else if result.error.code == "UNAUTHORIZED" then 401 else 500
  }

  /** The route, with `getCurrentUser` as a given function of the token. */
  function Get(authorization: Option<string>, getCurrentUser: Option<string> -> BFFResponse<UserDTO>): (r: Reply<UserDTO>)
    ensures r.body == ServiceBody(getCurrentUser(Token(authorization)))
    ensures r.status == StatusFor(getCurrentUser(Token(authorization)))
    ensures r.headers == JsonWithCacheControl("private, no-cache")
    ensures r.status in {200, 401, 500}
  {
    var result := getCurrentUser(Token(authorization));
    Reply(StatusFor(result), ServiceBody(result), JsonWithCacheControl("private, no-cache"))
  }
}
