/** The client's HTTP instance (src/utils/api.js in the front end): the request interceptor
    that attaches the stored token, and the response interceptor that answers a 401 by
    dropping the token and going to the login page. */
module ClientApi {
  import opened Basics
  import opened Strings
  import opened ClientAuth

  const AuthorizationHeader: string := "Authorization"
  const LoginPage: string := "/login"
  const LoginEndpoint: string := "/api/auth/login"

  /** The parts of a request configuration the interceptor reads and writes. */
  datatype Config = Config(url: string, headers: map<string, string>)

  /** The request interceptor: with a truthy token, `Authorization` becomes `Bearer <token>`
      and nothing else changes; without one the configuration goes out as it came. */
  function WithToken(config: Config, token: Option<string>): (c: Config)
    ensures c.url == config.url
    ensures forall h :: h != AuthorizationHeader ==> (h in c.headers <==> h in config.headers)
    ensures forall h :: h != AuthorizationHeader && h in config.headers ==> c.headers[h] == config.headers[h]
    ensures Truthy(token) ==> AuthorizationHeader in c.headers && c.headers[AuthorizationHeader] == "Bearer " + token.value
    ensures !Truthy(token) ==> c == config
  {
    if Truthy(token) then config.(headers := config.headers[AuthorizationHeader := "Bearer " + token.value])
    else config
  }

  /** A failed request as the interceptor sees it: `error.response?.status` and
      `error.config?.url`, either of which may be absent. */
  datatype HttpError = HttpError(status: Option<int>, url: Option<string>)

  /** A 401 sends the browser to the login page, except on the login page itself and for a
      request to the login endpoint. */
  predicate ShouldRedirect(err: HttpError, pathname: string) {
    && err.status == Some(401)
    && pathname != LoginPage
    && !(err.url.Some? && Contains(err.url.value, LoginEndpoint))
  }

  /** The response interceptor's error branch: the error is rejected again as it is; when it
      calls for it, the token is removed and the browser goes to `/login`. */
  method InterceptError(b: Browser, err: HttpError) returns (rejected: HttpError)
    modifies b
    ensures rejected == err
    ensures ShouldRedirect(err, old(b.pathname)) ==>
      b.storage == old(b.storage) - {TokenKey} && b.pathname == LoginPage && !b.IsAuthenticated()
    ensures !ShouldRedirect(err, old(b.pathname)) ==>
      b.storage == old(b.storage) && b.pathname == old(b.pathname)
  {
    if err.status == Some(401) {
      var isLoginPage := b.pathname == LoginPage;
      var isLoginRequest := err.url.Some? && Contains(err.url.value, LoginEndpoint);
      if !isLoginPage && !isLoginRequest {
        b.RemoveToken();
        b.pathname := LoginPage;
      }
    }
    rejected := err;
  }

  /** Only a 401 can move the browser: other failures leave the token and the page alone. */
  lemma OnlyUnauthorizedRedirects(err: HttpError, pathname: string)
    ensures ShouldRedirect(err, pathname) ==> err.status == Some(401)
  {
  }

  /** A failed login (the server answers 401 for bad credentials) never reloads the page,
      wherever the login request came from, so the form can show the error. */
  lemma LoginFailureStays(err: HttpError, pathname: string, base: string, query: string)
    requires err.url == Some(base + LoginEndpoint + query)
    ensures !ShouldRedirect(err, pathname)
  {
    ContainsPrefixed(base, LoginEndpoint, query);
  }

  /** After one redirect the browser is on `/login`, where no 401 redirects again. */
  lemma NoRedirectLoop(first: HttpError, pathname: string, next: HttpError)
    requires ShouldRedirect(first, pathname)
    ensures !ShouldRedirect(next, LoginPage)
  {
  }
}
