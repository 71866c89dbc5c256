/** The session part of the HTTP client (services/api/api-manager.ts): the bearer token, kept in
    memory and mirrored in the browser's local storage, which every request carries in its
    Authorization header, and the cached current user. */
module ApiSession {
  import opened Common
  import opened Entities

  type Headers = map<string, string>

  const AuthorizationHeader := "Authorization"

  /** The request interceptor: with a truthy token the Authorization header is set to
      `Bearer <token>`, replacing any value already there; otherwise the headers pass unchanged. */
  function WithAuthorization(token: Option<string>, headers: Headers): (r: Headers)
    ensures TruthyText(token) ==> AuthorizationHeader in r && r[AuthorizationHeader] == "Bearer " + token.value
    ensures !TruthyText(token) ==> r == headers
    ensures r.Keys == headers.Keys + (if TruthyText(token) then {AuthorizationHeader} else {})
    ensures forall h :: h in headers && h != AuthorizationHeader ==> h in r && r[h] == headers[h]
  {
    if TruthyText(token) then headers[AuthorizationHeader := "Bearer " + token.value] else headers
  }

  /** The header value read back as the token it was built from. */
  function BearerToken(value: string): Option<string> {
    if |value| >= 7 && value[..7] == "Bearer " then Some(value[7..]) else None
  }

  /** The header the interceptor adds names the session's token. */
  lemma AuthorizationCarriesToken(token: Option<string>, headers: Headers)
    requires TruthyText(token)
    ensures BearerToken(WithAuthorization(token, headers)[AuthorizationHeader]) == token
  {
    assert ("Bearer " + token.value)[7..] == token.value;
  }

  class ApiManager {
    /** `typeof window !== 'undefined'` */
    const inBrowser: bool
    /** The value under the 'token' key of local storage. */
    var storedToken: Option<string>
    var token: Option<string>
    var me: Option<User>

    /** The token is loaded from local storage in the browser only; no user is cached. */
    constructor (inBrowser: bool, storedToken: Option<string>)
      ensures this.inBrowser == inBrowser && this.storedToken == storedToken
      ensures token == if inBrowser then storedToken else None
      ensures me == None
    {
      this.inBrowser, this.storedToken := inBrowser, storedToken;
      token := if inBrowser then storedToken else None;
      me := None;
    }

    /** The headers a request goes out with. */
    function Intercept(headers: Headers): Headers
      reads this
    {
      WithAuthorization(token, headers)
    }

    method SetToken(t: string)
      modifies this`token, this`storedToken
      ensures token == Some(t)
      ensures storedToken == if inBrowser then Some(t) else old(storedToken)
    {
      token := Some(t);
      if inBrowser {
        storedToken := Some(t);
      }
    }

    method RemoveToken()
      modifies this`token, this`storedToken
      ensures token == None
      ensures storedToken == if inBrowser then None else old(storedToken)
    {
      token := None;
      if inBrowser {
        storedToken := None;
      }
    }

    method GetCurrentUser() returns (u: Option<User>)
      ensures u == me
    {
      u := me;
    }

    method SetCurrentUser(u: Option<User>)
      modifies this`me
      ensures me == u
    {
      me := u;
    }
  }

  /** Logging in, reloading the page and logging out: a non-empty token is sent with every request
      and survives a reload in the browser; after logout requests go out as they are. */
  method SessionLifecycle(t: string, headers: Headers)
    requires t != "" && AuthorizationHeader !in headers
  {
    var api := new ApiManager(true, None);
    assert api.Intercept(headers) == headers;
    api.SetToken(t);
    assert api.Intercept(headers)[AuthorizationHeader] == "Bearer " + t;
    var reloaded := new ApiManager(true, api.storedToken);
    assert reloaded.Intercept(headers) == api.Intercept(headers);
    reloaded.RemoveToken();
    assert reloaded.Intercept(headers) == headers;
    var later := new ApiManager(true, reloaded.storedToken);
    assert later.token == None;
  }
}
