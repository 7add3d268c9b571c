/** The axios wrapper of src/config/instance/instance.ts: the instance
    defaults, the request interceptor that sets Authorization and
    Content-Type, the response interceptor that keeps only success
    envelopes and logs the browser out on a 401, and the `Instance` class
    whose verb methods force the HTTP method. The network is a parameter:
    `server` says how the backend answers a sent request. */
module HttpClient {
  import opened Text

  datatype Verb = GET | POST | PUT | PATCH | DELETE

  /** `config.data` as the request interceptor tells it apart: falsy
      (absent, null, "", 0, false), a FormData instance, or any other
      truthy value, given by its JSON text. */
  datatype Payload = Falsy | FormDataBody | Truthy(json: string)

  /** The request config fields this client and the hooks use; `basicAuth`
      is whether `auth: BASIC_AUTH_CREDENTIALS` is present. */
  datatype Config = Config(verb: Option<Verb>, url: string, data: Payload, headers: map<string, string>, basicAuth: bool)

  const AuthorizationHeader: string := "Authorization"
  const ContentTypeHeader: string := "Content-Type"
  const JsonType: string := "application/json;charset=utf-8"
  const MultipartType: string := "multipart/form-data"

  /** The instance defaults of instance.ts:8-12. */
  const BaseUrl: string := "https://pumpup-api.devstree.in/api/v1"
  const TimeoutMs: nat := 50000
  const DefaultHeaders: map<string, string> := map[ContentTypeHeader := JsonType]

  /** `Cookies.get('token') || ''`, evaluated once when the module loads. */
  function TokenAtLoad(cookies: map<string, string>): (token: string)
    ensures "token" in cookies ==> token == cookies["token"]
    ensures "token" !in cookies ==> token == ""
  {
    OrElse(if "token" in cookies then Some(cookies["token"]) else None, "")
  }

  /** The headers after the request interceptor (instance.ts:15-22). */
  function InterceptedHeaders(headers: map<string, string>, data: Payload, token: string): (h: map<string, string>)
    ensures AuthorizationHeader in h && h[AuthorizationHeader] == "Bearer " + token
    ensures data.FormDataBody? ==> ContentTypeHeader in h && h[ContentTypeHeader] == MultipartType
    ensures data.Truthy? ==> ContentTypeHeader in h && h[ContentTypeHeader] == JsonType
    ensures data.Falsy? ==>
      (ContentTypeHeader in h <==> ContentTypeHeader in headers) &&
      (ContentTypeHeader in headers ==> h[ContentTypeHeader] == headers[ContentTypeHeader])
    ensures forall k :: k != AuthorizationHeader && k != ContentTypeHeader ==>
      (k in h <==> k in headers) && (k in headers ==> h[k] == headers[k])
  {
    var withAuth := headers[AuthorizationHeader := "Bearer " + token];
    match data
    case FormDataBody => withAuth[ContentTypeHeader := MultipartType]
    case Truthy(_) => withAuth[ContentTypeHeader := JsonType]
    case Falsy => withAuth
  }

  /** A request on its way out: the request interceptor rewrites its
      headers in place. */
  class PendingRequest {
    var headers: map<string, string>
    const data: Payload

    constructor (headers: map<string, string>, data: Payload)
      ensures this.headers == headers && this.data == data
    {
      this.headers := headers;
      this.data := data;
    }

    /** The fulfilled handler of the request interceptor
        (instance.ts:15-23). */
    method Intercept(token: string)
      modifies this
      ensures headers == InterceptedHeaders(old(headers), data, token)
    {
      headers := headers[AuthorizationHeader := "Bearer " + token];
      if data.FormDataBody? {
        headers := headers[ContentTypeHeader := MultipartType];
      } else if data.Truthy? {
        headers := headers[ContentTypeHeader := JsonType];
      }
    }
  }

  /** Intercepting twice changes nothing more. */
  lemma InterceptIdempotent(headers: map<string, string>, data: Payload, token: string)
    ensures InterceptedHeaders(InterceptedHeaders(headers, data, token), data, token) == InterceptedHeaders(headers, data, token)
  {
    var once := InterceptedHeaders(headers, data, token);
    var twice := InterceptedHeaders(once, data, token);
    assert twice.Keys == once.Keys;
  }

  /** `{ ...config, method: VERB }` (instance.ts:47-65): the verb wins over
      any method the caller gave, and every other field is kept. */
  function WithMethod(config: Config, m: Verb): (r: Config)
    ensures r.verb == Some(m)
    ensures r.(verb := config.verb) == config
  {
    config.(verb := Some(m))
  }

  /** The config as it leaves the client: the instance's default headers
      under the caller's, then the request interceptor. */
  function Sent(token: string, config: Config): (r: Config)
    ensures r.(headers := config.headers) == config
  {
    config.(headers := InterceptedHeaders(DefaultHeaders + config.headers, config.data, token))
  }

  /** The Content-Type a request goes out with: multipart for FormData,
      JSON for other truthy data, and for falsy data the caller's own or
      else the instance default, which is JSON too. */
  lemma SentContentType(token: string, config: Config)
    ensures var h := Sent(token, config).headers;
      ContentTypeHeader in h &&
      h[ContentTypeHeader] ==
        match config.data
        case FormDataBody => MultipartType
        case Truthy(_) => JsonType
        case Falsy => if ContentTypeHeader in config.headers then config.headers[ContentTypeHeader] else JsonType
    ensures Sent(token, config).headers[AuthorizationHeader] == "Bearer " + token
  {
  }

  // ---------------------------------------------------------------------
  // Responses.

  /** The body the backend sends: `statusCode`, `message` and `error` as
      found (absent when missing or of another type), and the payload's
      JSON text. */
  datatype Envelope = Envelope(statusCode: Option<int>, message: Option<string>, error: Option<bool>, data: string)

  /** How the backend answers: a 2xx whose body is the envelope (`None`
      for a falsy body), or an axios error with its HTTP status and body,
      if any response arrived, and axios's own message for it. */
  datatype Reply = Delivered(body: Option<Envelope>) | Refused(status: Option<int>, body: Option<Envelope>, message: string)

  /** Why a request rejects: the interceptor's `Error in response`, or the
      axios error passed on. */
  datatype Failure = ErrorInResponse | HttpFailure(status: Option<int>, body: Option<Envelope>, message: string)

  /** The `message` of the rejection's error object. */
  function FailureMessage(f: Failure): string
  {
    match f
    case ErrorInResponse => "Error in response"
    case HttpFailure(_, _, message) => message
  }

  /** How a request settles; `Resolved(None)` is `undefined`. */
  datatype Settled = Resolved(value: Option<Envelope>) | Rejected(reason: Failure)

  /** `(statusCode === 200 || statusCode === 201) && error === false` */
  predicate IsSuccess(e: Envelope)
  {
    (e.statusCode == Some(200) || e.statusCode == Some(201)) && e.error == Some(false)
  }

  /** The fulfilled handler of the response interceptor (instance.ts:28-33). */
  function OnFulfilled(body: Option<Envelope>): (r: Settled)
    ensures r.Rejected? <==> body.None?
    ensures r.Rejected? ==> r.reason == ErrorInResponse
    ensures r.Resolved? && r.value.Some? <==> body.Some? && IsSuccess(body.value)
    ensures r.Resolved? && r.value.Some? ==> r.value == body
  {
    match body
    case None => Rejected(ErrorInResponse)
    case Some(e) => if IsSuccess(e) then Resolved(Some(e)) else Resolved(None)
  }

  predicate IsUnauthorized(f: Failure)
  {
    f.HttpFailure? && f.status == Some(401)
  }

  /** What one request settles to, for a token read at load time and the
      backend's answer. */
  function Dispatch(token: string, config: Config, server: Config -> Reply): Settled
  {
    match server(Sent(token, config))
    case Delivered(body) => OnFulfilled(body)
    case Refused(status, body, message) => Rejected(HttpFailure(status, body, message))
  }

  /** Whatever reaches a caller as a value is a success envelope or
      `undefined`; rejections are the interceptor's own error or the
      backend's refusal, passed on unchanged. */
  lemma DispatchShape(token: string, config: Config, server: Config -> Reply)
    ensures var r := Dispatch(token, config, server);
      && (r.Resolved? && r.value.Some? ==> IsSuccess(r.value.value) && server(Sent(token, config)) == Delivered(r.value))
      && (r.Rejected? && r.reason.HttpFailure? ==>
            server(Sent(token, config)) == Refused(r.reason.status, r.reason.body, r.reason.message))
      && (r == Rejected(ErrorInResponse) <==> server(Sent(token, config)) == Delivered(None))
  {
  }

  // ---------------------------------------------------------------------
  // The browser state the 401 handler clears.

  class Browser {
    var localStorage: map<string, string>
    var cookies: map<string, string>

    constructor (localStorage: map<string, string>, cookies: map<string, string>)
      ensures this.localStorage == localStorage && this.cookies == cookies
    {
      this.localStorage := localStorage;
      this.cookies := cookies;
    }

    /** `setItem(key, null)`: the JSON text of null. */
    method SetItemNull(key: string)
      modifies this
      ensures localStorage == old(localStorage)[key := "null"] && cookies == old(cookies)
    {
      localStorage := localStorage[key := "null"];
    }

    /** `window.localStorage.clear()` */
    method ClearStorage()
      modifies this
      ensures localStorage == map[] && cookies == old(cookies)
    {
      localStorage := map[];
    }

    /** `Cookies.remove(name)` */
    method RemoveCookie(name: string)
      modifies this
      ensures cookies == old(cookies) - {name} && localStorage == old(localStorage)
    {
      cookies := cookies - {name};
    }

    /** The rejected handler of the response interceptor
        (instance.ts:34-43): on a 401 the token item is nulled, storage is
        cleared and the token cookie removed; the error is passed on
        unchanged in every case. `tokenKey` is the value of
        `StorageEnum.Token`. */
    method OnRejected(failure: Failure, tokenKey: string) returns (passed: Failure)
      modifies this
      ensures passed == failure
      ensures IsUnauthorized(failure) ==> localStorage == map[] && cookies == old(cookies) - {"token"}
      ensures !IsUnauthorized(failure) ==> localStorage == old(localStorage) && cookies == old(cookies)
    {
      if IsUnauthorized(failure) {
        SetItemNull(tokenKey);
        ClearStorage();
        RemoveCookie("token");
      }
      passed := failure;
    }
  }

  /** localStorage and the cookies once a request has settled to `r`:
      a 401 rejection has emptied the one and removed the token cookie
      from the other; any other settlement leaves both as they were. */
  function BrowserAfter(r: Settled, localStorage: map<string, string>, cookies: map<string, string>): (map<string, string>, map<string, string>)
  {
    if r.Rejected? && IsUnauthorized(r.reason) then (map[], cookies - {"token"}) else (localStorage, cookies)
  }

  /** The exported `Instance` (instance.ts:46-81) together with the module
      state it closes over: the token read at load time and the browser. */
  class Instance {
    const token: string
    const browser: Browser

    /** Loading the module reads the token cookie once. */
    constructor (browser: Browser)
      ensures this.browser == browser
      ensures token == TokenAtLoad(browser.cookies)
    {
      this.browser := browser;
      token := TokenAtLoad(browser.cookies);
    }

    /** `request` (instance.ts:67-78): what the interceptors settle to is
        passed through unchanged. */
    method Request(config: Config, server: Config -> Reply, tokenKey: string) returns (r: Settled)
      modifies browser
      ensures r == Dispatch(token, config, server)
      ensures r.Rejected? && IsUnauthorized(r.reason) ==>
        browser.localStorage == map[] && browser.cookies == old(browser.cookies) - {"token"}
      ensures !(r.Rejected? && IsUnauthorized(r.reason)) ==>
        browser.localStorage == old(browser.localStorage) && browser.cookies == old(browser.cookies)
    {
      var pending := new PendingRequest(DefaultHeaders + config.headers, config.data);
      pending.Intercept(token);
      var reply := server(config.(headers := pending.headers));
      match reply {
        case Delivered(body) =>
          r := OnFulfilled(body);
        case Refused(status, body, message) =>
          var passed := browser.OnRejected(HttpFailure(status, body, message), tokenKey);
          r := Rejected(passed);
      }
    }

    method Get(config: Config, server: Config -> Reply, tokenKey: string) returns (r: Settled)
      modifies browser
      ensures r == Dispatch(token, WithMethod(config, GET), server)
      ensures (browser.localStorage, browser.cookies) == BrowserAfter(r, old(browser.localStorage), old(browser.cookies))
    {
      r := Request(WithMethod(config, GET), server, tokenKey);
    }

    method Post(config: Config, server: Config -> Reply, tokenKey: string) returns (r: Settled)
      modifies browser
      ensures r == Dispatch(token, WithMethod(config, POST), server)
      ensures (browser.localStorage, browser.cookies) == BrowserAfter(r, old(browser.localStorage), old(browser.cookies))
    {
      r := Request(WithMethod(config, POST), server, tokenKey);
    }

    method Put(config: Config, server: Config -> Reply, tokenKey: string) returns (r: Settled)
      modifies browser
      ensures r == Dispatch(token, WithMethod(config, PUT), server)
      ensures (browser.localStorage, browser.cookies) == BrowserAfter(r, old(browser.localStorage), old(browser.cookies))
    {
      r := Request(WithMethod(config, PUT), server, tokenKey);
    }

    method Patch(config: Config, server: Config -> Reply, tokenKey: string) returns (r: Settled)
      modifies browser
      ensures r == Dispatch(token, WithMethod(config, PATCH), server)
      ensures (browser.localStorage, browser.cookies) == BrowserAfter(r, old(browser.localStorage), old(browser.cookies))
    {
      r := Request(WithMethod(config, PATCH), server, tokenKey);
    }

    method Delete(config: Config, server: Config -> Reply, tokenKey: string) returns (r: Settled)
      modifies browser
      ensures r == Dispatch(token, WithMethod(config, DELETE), server)
      ensures (browser.localStorage, browser.cookies) == BrowserAfter(r, old(browser.localStorage), old(browser.cookies))
    {
      r := Request(WithMethod(config, DELETE), server, tokenKey);
    }
  }

  /** The token is fixed when the module loads: after a 401 has removed
      the cookie, later requests still carry the old bearer token. */
  lemma TokenOutlivesLogout(cookies: map<string, string>, config: Config)
    requires "token" in cookies
    ensures TokenAtLoad(cookies - {"token"}) == ""
    ensures Sent(TokenAtLoad(cookies), config).headers[AuthorizationHeader] == "Bearer " + cookies["token"]
  {
  }
}
