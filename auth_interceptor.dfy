/** The HTTP interceptor: attaches the logged-in user's token to every
    outgoing request as the only query parameter `auth`. */
module AuthInterceptor {
  import opened Wrappers
  import opened UserModel

  /** The `auth` slice of the store. Its reducer is not part of this model;
      only the shape matters here. */
  datatype AuthState = AuthState(user: Option<User>, authError: Option<string>, loading: bool)

  /** A query-parameter value as handed to HttpParams; `None` is the null a
      token getter may yield. */
  type ParamValue = Option<string>

  /** The fields of an HttpRequest (`verb` is its `method`); `params` maps
      each name to its values. */
  datatype HttpRequest = HttpRequest(
    verb: string,
    url: string,
    headers: map<string, seq<string>>,
    params: map<string, seq<ParamValue>>,
    body: Option<string>,
    reportProgress: bool,
    responseType: string,
    withCredentials: bool)

  const AuthParam: string := "auth"

  /** `intercept(req, next)`: the one request handed to `next.handle`, decided
      from one snapshot of the auth state at instant `now`. Without a user
      the request goes out as it came; with one, a clone whose parameters are
      exactly `{auth: user.token}` and whose other fields are unchanged. */
  function Intercept(authState: AuthState, req: HttpRequest, getToken: TokenGetter, now: int): (forwarded: HttpRequest)
    ensures authState.user.None? ==> forwarded == req
    ensures authState.user.Some? ==>
              forwarded.params == map[AuthParam := [getToken(authState.user.value, now)]]
    ensures forwarded.(params := req.params) == req
  {
    var user := authState.user;
    if user.None? then
      req
    else
      req.(params := map[AuthParam := [getToken(user.value, now)]])
  }

  /** Existing parameters are replaced, not merged: with a user, `auth` is the
      only parameter left, and it has exactly one value. */
  lemma ParamsReplaced(authState: AuthState, req: HttpRequest, getToken: TokenGetter, now: int, name: string)
    requires authState.user.Some?
    ensures name in Intercept(authState, req, getToken, now).params <==> name == AuthParam
    ensures |Intercept(authState, req, getToken, now).params[AuthParam]| == 1
  {
  }

  /** The decision reads only `user`: the error and loading flags of the
      state make no difference. */
  lemma DependsOnlyOnUser(s1: AuthState, s2: AuthState, req: HttpRequest, getToken: TokenGetter, now: int)
    requires s1.user == s2.user
    ensures Intercept(s1, req, getToken, now) == Intercept(s2, req, getToken, now)
  {
  }
}
