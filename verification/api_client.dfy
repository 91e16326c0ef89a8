/** The HTTP client's two interceptors: the request side attaches the session's
    bearer token, the response side turns a 401 on any call but login into a
    logout and always hands the error back to the caller. */
module ApiClient {
  import opened Wrappers
  import opened Session

  const AuthorizationHeader := "Authorization"
  const LoginPath := "/auth/login"
  const Unauthorized := 401

  /** JavaScript truthiness of an optional string. */
  predicate Truthy(s: Option<string>) {
    s.Some? && s.value != ""
  }

  function Header(headers: map<string, string>, name: string): Option<string> {
    if name in headers then Some(headers[name]) else None
  }

  /** The text a screen alerts for a failed request: the server's `detail`
      when it is truthy, else the screen's own fallback message. */
  function ErrorDetail(detail: Option<string>, fallback: string): (text: string)
    ensures Truthy(detail) ==> text == detail.value
    ensures !Truthy(detail) ==> text == fallback
    ensures fallback != "" ==> text != ""
  {
    if Truthy(detail) then detail.value else fallback
  }

  /** `s.includes(part)` */
  predicate Includes(s: string, part: string) {
    part <= s || (s != [] && Includes(s[1..], part))
  }

  lemma {:induction false} IncludesInside(prefix: string, part: string, suffix: string)
    ensures Includes(prefix + part + suffix, part)
  {
    if prefix != [] {
      assert (prefix + part + suffix)[1..] == prefix[1..] + part + suffix;
      IncludesInside(prefix[1..], part, suffix);
    } else {
      assert prefix + part + suffix == part + suffix;
    }
  }

  /** The headers after the request interceptor: `Bearer <token>` is added only
      when the token is truthy and no truthy `Authorization` header is there. */
  function WithBearer(headers: map<string, string>, token: Option<string>): (r: map<string, string>)
    ensures forall k :: k in headers && k != AuthorizationHeader ==> k in r && r[k] == headers[k]
    ensures r.Keys <= headers.Keys + {AuthorizationHeader}
    ensures Truthy(Header(headers, AuthorizationHeader)) ==> r == headers
    ensures !Truthy(token) ==> r == headers
    ensures Truthy(token) && !Truthy(Header(headers, AuthorizationHeader)) ==>
      Header(r, AuthorizationHeader) == Some("Bearer " + token.value)
  {
    if Truthy(token) && !Truthy(Header(headers, AuthorizationHeader)) then
      headers[AuthorizationHeader := "Bearer " + token.value]
    else headers
  }

  /** The response interceptor's logout condition. */
  predicate ForcesLogout(status: Option<int>, url: Option<string>, authenticated: bool) {
    status == Some(Unauthorized) && !Includes(url.GetOr(""), LoginPath) && authenticated
  }

  /** A 401 from the login call, any other status, or an anonymous store never
      forces a logout. */
  lemma OnlyExpiredSessionsLogOut(status: Option<int>, url: string, authenticated: bool)
    ensures Includes(url, LoginPath) ==> !ForcesLogout(status, Some(url), authenticated)
    ensures status != Some(Unauthorized) ==> !ForcesLogout(status, Some(url), authenticated)
    ensures !authenticated ==> !ForcesLogout(status, Some(url), authenticated)
  {
  }

  /** Whatever surrounds the login path in the URL, its 401 is a rejected login,
      not an expired session. */
  lemma LoginUrlNeverLogsOut(prefix: string, suffix: string, status: Option<int>, authenticated: bool)
    ensures !ForcesLogout(status, Some(prefix + LoginPath + suffix), authenticated)
  {
    IncludesInside(prefix, LoginPath, suffix);
  }

  /** An outgoing request's configuration; the interceptor edits its headers. */
  class RequestConfig {
    var url: Option<string>
    var headers: map<string, string>

    constructor (url: Option<string>, headers: map<string, string>)
      ensures this.url == url && this.headers == headers
    {
      this.url := url;
      this.headers := headers;
    }
  }

  /** `error.response?.status` and `error.config?.url` of a failed request. */
  datatype HttpError = HttpError(status: Option<int>, url: Option<string>)

  /** A settled request: `Resolved` with the response, or `Rejected` with the error. */
  datatype Settled<R> = Resolved(response: R) | Rejected(error: HttpError)

  class Client {
    const store: AuthStore

    constructor (store: AuthStore)
      ensures this.store == store
    {
      this.store := store;
    }

    /** Reads the token from the store at send time and attaches it. */
    method InterceptRequest(config: RequestConfig) returns (out: RequestConfig)
      modifies config
      ensures out == config
      ensures config.headers == WithBearer(old(config.headers), store.accessToken)
      ensures config.url == old(config.url)
    {
      var token := store.accessToken;
      if Truthy(token) && !Truthy(Header(config.headers, AuthorizationHeader)) {
        config.headers := config.headers[AuthorizationHeader := "Bearer " + token.value];
      }
      out := config;
    }

    /** Successes pass through; an error may first log out, then is rejected
        unchanged. */
    method InterceptResponse<R>(settled: Settled<R>) returns (out: Settled<R>)
      requires store.Valid()
      modifies store, store.storage
      ensures out == settled
      ensures store.Valid()
      ensures settled.Rejected? && ForcesLogout(settled.error.status, settled.error.url, old(store.isAuthenticated)) ==>
        && store.storage.items == LogoutWrites(old(store.storage.items))
        && !store.isAuthenticated && store.user == None && store.accessToken == None
      ensures !(settled.Rejected? && ForcesLogout(settled.error.status, settled.error.url, old(store.isAuthenticated))) ==>
        && store.storage.items == old(store.storage.items)
        && store.isAuthenticated == old(store.isAuthenticated)
        && store.user == old(store.user) && store.accessToken == old(store.accessToken)
    {
      if settled.Rejected? {
        var url := settled.error.url.GetOr("");
        if settled.error.status == Some(Unauthorized) && !Includes(url, LoginPath) {
          if store.isAuthenticated {
            store.Logout();
          }
        }
      }
      out := settled;
    }
  }

  /** Two expired-session errors in a row: the first logs out, the second finds
      the store anonymous and leaves it alone; both are rejected to their callers. */
  method TwoExpiredResponses(client: Client, url: string)
      returns (first: Settled<int>, second: Settled<int>)
    requires client.store.Valid() && client.store.isAuthenticated
    requires !Includes(url, LoginPath)
    modifies client.store, client.store.storage
    ensures first.Rejected? && second.Rejected?
    ensures client.store.storage.items == LogoutWrites(old(client.store.storage.items))
    ensures !client.store.isAuthenticated
  {
    var error := HttpError(Some(Unauthorized), Some(url));
    first := client.InterceptResponse(Rejected(error));
    assert !client.store.isAuthenticated;
    second := client.InterceptResponse(Rejected(error));
  }
}
