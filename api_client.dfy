/** The browser's HTTP client (client/src/lib/api.ts): an axios instance whose
    request interceptor attaches the stored access token as a Bearer
    credential (section 2.1 of RFC 6750) and whose response interceptor
    answers one 401 per request with one refresh and one retry. */
module ApiClient {
  import opened Wrappers

  const TokenKey := "accessToken"
  const LoginPage := "/login"

  /** `localStorage` and `window.location.href`. */
  class Browser {
    var storage: map<string, string>
    var location: string

    constructor (storage: map<string, string>, location: string)
      ensures this.storage == storage && this.location == location
    {
      this.storage := storage;
      this.location := location;
    }
  }

  /** `localStorage.getItem(key)`, null being `None`. */
  function GetItem(storage: map<string, string>, key: string): (v: Option<string>)
    ensures v.Some? <==> key in storage
    ensures v.Some? ==> v.value == storage[key]
  {
    if key in storage then Some(storage[key]) else None
  }

  /** A stored token that JavaScript treats as true: present and non-empty. */
  predicate HasToken(storage: map<string, string>)
  {
    TokenKey in storage && storage[TokenKey] != ""
  }

  /** The credential of section 2.1 of RFC 6750: the scheme, one space, the
      token. */
  function Bearer(token: string): (c: string)
    ensures |c| == 7 + |token| && c[..7] == "Bearer " && c[7..] == token
  {
    "Bearer " + token
  }

  /** The headers after the request interceptor. */
  function WithCredentials(headers: map<string, string>, storage: map<string, string>): (r: map<string, string>)
    ensures HasToken(storage) ==> "Authorization" in r && r["Authorization"] == Bearer(storage[TokenKey])
    ensures HasToken(storage) ==> forall h | h in headers && h != "Authorization" :: h in r && r[h] == headers[h]
    ensures HasToken(storage) ==> r.Keys == headers.Keys + {"Authorization"}
    ensures !HasToken(storage) ==> r == headers
  {
    var token := GetItem(storage, TokenKey);
    if token.Some? && token.value != "" then headers["Authorization" := Bearer(token.value)] else headers
  }

  /** An axios request config: its headers and the `_retry` mark. */
  class RequestConfig {
    const url: string
    var headers: map<string, string>
    var retry: bool

    constructor (url: string, headers: map<string, string>)
      ensures this.url == url && this.headers == headers && !retry
    {
      this.url := url;
      this.headers := headers;
      retry := false;
    }
  }

  /** A settled HTTP exchange: a response, or an error with the status of the
      response it carries, if any (none for a network failure). */
  datatype HttpError = HttpError(status: Option<int>, message: string)

  datatype Settled<T> = Resolved(value: T) | Rejected(error: HttpError)

  /** The calls the response interceptor makes on the network. */
  datatype Call = RefreshCall | ResendCall

  /** The client state the interceptors touch. */
  datatype ClientState = ClientState(storage: map<string, string>, location: string,
                                     headers: map<string, string>, retry: bool)

  /** Whether the interceptor tries to recover from `error`. */
  predicate Recovers(error: HttpError, retry: bool)
  {
    error.status == Some(401) && !retry
  }

  /** The response interceptor's rejection handler. `refresh` is how
      `POST /auth/refresh` settles (the new access token on success) and
      `resent` how re-sending the original request settles. Result: the new
      state, how the original call settles, and the calls made. */
  function OnRejected<T>(s: ClientState, error: HttpError, refresh: Result<string, HttpError>, resent: Settled<T>)
    : (r: (ClientState, Settled<T>, seq<Call>))
    ensures r.0.retry <==> s.retry || error.status == Some(401)
    ensures r.1 == resent || r.1 == Rejected(error)
    ensures forall k | k in s.storage && k != TokenKey :: k in r.0.storage && r.0.storage[k] == s.storage[k]
    ensures forall k | k in r.0.storage && k != TokenKey :: k in s.storage
    ensures r.0.location != s.location ==> r.0.location == LoginPage
  {
    if !Recovers(error, s.retry) then (s, Rejected(error), [])
    else
      match refresh
      case Success(token) =>
        (s.(storage := s.storage[TokenKey := token], headers := s.headers["Authorization" := Bearer(token)], retry := true),
         resent, [RefreshCall, ResendCall])
      case Failure(_) =>
        (s.(storage := s.storage - {TokenKey}, location := LoginPage, retry := true), Rejected(error), [RefreshCall])
  }

  /** A refresh is attempted exactly for a 401 on a request not yet retried. */
  lemma RefreshOnlyOnFirst401<T>(s: ClientState, error: HttpError, refresh: Result<string, HttpError>, resent: Settled<T>)
    ensures var r := OnRejected(s, error, refresh, resent);
            && (RefreshCall in r.2 <==> error.status == Some(401) && !s.retry)
            && (r.2 == [] || r.2 == [RefreshCall] || r.2 == [RefreshCall, ResendCall])
  {
  }

  /** Each request is recovered at most once: after a recovery attempt the
      request is marked, so a further rejection of it (the resent request
      failing again, say) makes no call and changes nothing. */
  lemma AtMostOneRecovery<T>(s: ClientState, e1: HttpError, e2: HttpError, refresh1: Result<string, HttpError>,
                             refresh2: Result<string, HttpError>, resent1: Settled<T>, resent2: Settled<T>)
    requires Recovers(e1, s.retry)
    ensures var s1 := OnRejected(s, e1, refresh1, resent1).0;
            && s1.retry
            && OnRejected(s1, e2, refresh2, resent2) == (s1, Rejected(e2), [])
  {
  }

  /** A successful refresh stores the new token, puts it in the request's
      Authorization header, and the call settles as the one resend does. */
  lemma RefreshSuccess<T>(s: ClientState, error: HttpError, token: string, resent: Settled<T>)
    requires Recovers(error, s.retry)
    ensures var r := OnRejected(s, error, Success(token), resent);
            && r.0.storage == s.storage[TokenKey := token]
            && r.0.headers["Authorization"] == "Bearer " + token
            && r.0.location == s.location
            && r.1 == resent && r.2 == [RefreshCall, ResendCall]
  {
  }

  /** A failed refresh drops the stored token, sends the browser to the
      log-in page, and the call rejects with the original error. */
  lemma RefreshFailure<T>(s: ClientState, error: HttpError, refreshError: HttpError, resent: Settled<T>)
    requires Recovers(error, s.retry)
    ensures var r := OnRejected(s, error, Failure(refreshError), resent);
            && TokenKey !in r.0.storage
            && (forall k | k in s.storage && k != TokenKey :: k in r.0.storage && r.0.storage[k] == s.storage[k])
            && r.0.location == "/login"
            && r.1 == Rejected(error) && r.2 == [RefreshCall]
  {
  }

  /** Any other error (not 401, or on a request already retried) is rejected
      as it is and touches nothing. */
  lemma OtherErrorsPassThrough<T>(s: ClientState, error: HttpError, refresh: Result<string, HttpError>, resent: Settled<T>)
    requires error.status != Some(401) || s.retry
    ensures OnRejected(s, error, refresh, resent) == (s, Rejected(error), [])
  {
  }

  /** A wrong password at log-in is itself a 401, so before the log-in form
      sees the rejection the interceptor tries a refresh; without a valid
      refresh cookie that ends on the log-in page with the token removed. */
  lemma FailedLoginTriggersRefresh<T>(s: ClientState, refreshError: HttpError, resent: Settled<T>)
    requires !s.retry
    ensures var e := HttpError(Some(401), "Request failed with status code 401");
            var r := OnRejected(s, e, Failure(refreshError), resent);
            && r.2 == [RefreshCall] && r.0.location == "/login" && TokenKey !in r.0.storage && r.1 == Rejected(e)
  {
  }

  /** The interceptors over one browser. */
  class Api {
    const browser: Browser
    /** Every network call the response interceptor has made. */
    var calls: seq<Call>

    constructor (browser: Browser)
      ensures this.browser == browser && calls == []
    {
      this.browser := browser;
      calls := [];
    }

    /** `api.interceptors.request.use(...)`. */
    method OnRequest(config: RequestConfig)
      modifies config
      ensures config.headers == WithCredentials(old(config.headers), browser.storage)
      ensures config.retry == old(config.retry)
    {
      var token := GetItem(browser.storage, TokenKey);
      if token.Some? && token.value != "" {
        config.headers := config.headers["Authorization" := Bearer(token.value)];
      }
    }

    /** `api.interceptors.response.use(..., onRejected)` for a request that
        settled with `error`. */
    method OnResponseError<T>(config: RequestConfig, error: HttpError, refresh: Result<string, HttpError>,
                              resent: Settled<T>) returns (r: Settled<T>)
      modifies this, browser, config
      ensures var o := OnRejected(ClientState(old(browser.storage), old(browser.location), old(config.headers),
                                              old(config.retry)), error, refresh, resent);
              && ClientState(browser.storage, browser.location, config.headers, config.retry) == o.0
              && r == o.1 && calls == old(calls) + o.2
    {
      if error.status == Some(401) && !config.retry {
        config.retry := true;
        calls := calls + [RefreshCall];
        match refresh
        case Success(newAccessToken) =>
          browser.storage := browser.storage[TokenKey := newAccessToken];
          config.headers := config.headers["Authorization" := Bearer(newAccessToken)];
          calls := calls + [ResendCall];
          return resent;
        case Failure(_) =>
          browser.storage := browser.storage - {TokenKey};
          browser.location := LoginPage;
      }
      return Rejected(error);
    }
  }
}
