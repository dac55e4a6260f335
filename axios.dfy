/**
  The shared HTTP client of lib/axios.ts: the shape of an API error body, the
  request interceptor that attaches the stored bearer token, and the response
  interceptor that clears the token on 401 and normalises the error message.
  The network transport itself is not modelled: its outcome is an input.
*/
module Axios {
  import opened Wrappers
  import opened Js

  /** Key of the bearer token in the browser's local storage. */
  const TokenKey := "token"
  /** Header that carries the credential. */
  const AuthorizationHeader := "Authorization"
  /** Prefix of the header value; the token follows it. */
  const BearerPrefix := "Bearer "
  /** HTTP status that makes the response interceptor drop the stored token. */
  const StatusUnauthorized := 401
  /** Last resort of the response interceptor's message chain. */
  const UnexpectedError := "Unexpected error"

  /** One field-level validation error of an error body. */
  datatype FieldError = FieldError(field: string, message: string)

  /** The error body a failing API may send; every field is optional. */
  datatype ApiErrorResponse = ApiErrorResponse(
    message: Option<string>,
    error: Option<string>,
    statusCode: Option<int>,
    errors: Option<seq<FieldError>>)

  /** A received response; `data` is the decoded body. */
  datatype HttpResponse<D> = HttpResponse(status: int, headers: map<string, string>, data: D)

  /**
    A rejected request. `response` is absent when nothing was received (connection
    failure, timeout); its `data` is absent when the body is missing or is not an
    object. `message` is absent for a rejection value that carries none.
  */
  datatype AxiosError = AxiosError(
    name: string,
    message: Option<string>,
    code: Option<string>,
    status: Option<int>,
    response: Option<HttpResponse<Option<ApiErrorResponse>>>)

  /** How a request through the client settles: it resolves with a response or rejects with an error. */
  datatype Outcome<T> = Resolved(response: HttpResponse<T>) | Rejected(reason: AxiosError)

  /** `error.response?.data?.message` */
  function BodyMessage(e: AxiosError): Option<string>
  {
    if e.response.Some? && e.response.value.data.Some? then e.response.value.data.value.message else None
  }

  /** `error.response?.data?.error` */
  function BodyError(e: AxiosError): Option<string>
  {
    if e.response.Some? && e.response.value.data.Some? then e.response.value.data.value.error else None
  }

  /** `error.response?.status === 401` */
  predicate IsUnauthorized(e: AxiosError)
  {
    e.response.Some? && e.response.value.status == StatusUnauthorized
  }

  /**
    The message the response interceptor puts on every rejected request: the first
    truthy one of the body's `message`, the body's `error` and the error's own
    `message`, or "Unexpected error" when none is. It is never empty.
  */
  function NormalizedMessage(e: AxiosError): (m: string)
    ensures m != ""
    ensures Truthy(BodyMessage(e)) ==> m == BodyMessage(e).value
    ensures !Truthy(BodyMessage(e)) && Truthy(BodyError(e)) ==> m == BodyError(e).value
    ensures !Truthy(BodyMessage(e)) && !Truthy(BodyError(e)) && Truthy(e.message) ==> m == e.message.value
    ensures !Truthy(BodyMessage(e)) && !Truthy(BodyError(e)) && !Truthy(e.message) ==> m == UnexpectedError
  {
    Or(Or(Or(BodyMessage(e), BodyError(e)), e.message), Some(UnexpectedError)).value
  }

  /** `{ ...error, message: <normalised> }`: only the message is replaced. */
  function NormalizeError(e: AxiosError): (n: AxiosError)
    ensures n.message.Some? && n.message.value == NormalizedMessage(e) && n.message.value != ""
    ensures n.name == e.name && n.code == e.code && n.status == e.status && n.response == e.response
  {
    e.(message := Some(NormalizedMessage(e)))
  }

  /**
    Normalising an error that is already normalised changes nothing, so a
    rejection that passed through the response interceptor keeps its message if
    it is normalised again (by a second interceptor or a caller re-running it).
  */
  lemma NormalizeErrorIdempotent(e: AxiosError)
    ensures NormalizeError(NormalizeError(e)) == NormalizeError(e)
  {
  }

  /**
    What a caller of the client sees once the response interceptor has run:
    a resolved request passes through untouched, a rejected one stays rejected
    and carries the normalised error.
  */
  function Intercepted<T>(o: Outcome<T>): (r: Outcome<T>)
    ensures r.Rejected? <==> o.Rejected?
    ensures o.Resolved? ==> r == o
    ensures o.Rejected? ==> r.reason == NormalizeError(o.reason)
  {
    match o
    case Resolved(_) => o
    case Rejected(e) => Rejected(NormalizeError(e))
  }

  /**
    Local storage after the response interceptor has seen rejection `e`: in a
    browser, a 401 removes the "token" key; every other case leaves it as it was.
  */
  function StorageAfterRejection(storage: map<string, string>, inBrowser: bool, e: AxiosError): (s: map<string, string>)
    ensures inBrowser && IsUnauthorized(e) ==> TokenKey !in s && s.Keys == storage.Keys - {TokenKey}
    ensures forall k :: k in s ==> k in storage && s[k] == storage[k]
    ensures !(inBrowser && IsUnauthorized(e)) ==> s == storage
  {
    if inBrowser && IsUnauthorized(e) then storage - {TokenKey} else storage
  }

  /** `localStorage.getItem("token")`, read only in a browser. */
  function StoredToken(storage: map<string, string>, inBrowser: bool): Option<string>
  {
    if inBrowser && TokenKey in storage then Some(storage[TokenKey]) else None
  }

  /**
    The request headers after the request interceptor: when a truthy token is
    stored and the request has a headers object, `Authorization` becomes
    "Bearer <token>" and every other header keeps its value; otherwise the
    headers are exactly as they were.
  */
  function AttachBearer(headers: Option<map<string, string>>, token: Option<string>): (r: Option<map<string, string>>)
    ensures Truthy(token) && headers.Some? ==>
      && r.Some?
      && r.value.Keys == headers.value.Keys + {AuthorizationHeader}
      && r.value[AuthorizationHeader] == BearerPrefix + token.value
      && forall k :: k in headers.value && k != AuthorizationHeader ==> r.value[k] == headers.value[k]
    ensures !(Truthy(token) && headers.Some?) ==> r == headers
  {
    if Truthy(token) && headers.Some? then Some(headers.value[AuthorizationHeader := BearerPrefix + token.value])
    else headers
  }

  /** Running the request interceptor twice with the same storage gives the headers of one run. */
  lemma AttachBearerIdempotent(headers: Option<map<string, string>>, token: Option<string>)
    ensures AttachBearer(AttachBearer(headers, token), token) == AttachBearer(headers, token)
  {
    if Truthy(token) && headers.Some? {
      var once := headers.value[AuthorizationHeader := BearerPrefix + token.value];
      assert once[AuthorizationHeader := BearerPrefix + token.value] == once;
    }
  }

  /**
    The headers every request of the shared client starts from (lib/axios.ts:58-61).
  */
  const DefaultHeaders: map<string, string> := map["Content-Type" := "application/json", "Accept" := "application/json"]

  /**
    The headers object of the config the interceptors see: axios copies the
    caller's config and merges its headers over the client's defaults, so the
    object always exists; a header the caller gives overrides the default.
  */
  function MergedHeaders(caller: Option<map<string, string>>): (h: map<string, string>)
    ensures DefaultHeaders.Keys <= h.Keys
    ensures caller.Some? ==> caller.value.Keys <= h.Keys && forall k :: k in caller.value ==> h[k] == caller.value[k]
    ensures forall k :: k in h ==> k in DefaultHeaders || (caller.Some? && k in caller.value)
    ensures forall k :: k in DefaultHeaders && !(caller.Some? && k in caller.value) ==> h[k] == DefaultHeaders[k]
  {
    if caller.Some? then DefaultHeaders + caller.value else DefaultHeaders
  }

  /** The headers a request is sent with: the merged headers after the request interceptor. */
  function SentHeaders(caller: Option<map<string, string>>, storage: map<string, string>, inBrowser: bool): Option<map<string, string>>
  {
    AttachBearer(Some(MergedHeaders(caller)), StoredToken(storage, inBrowser))
  }

  /**
    Through the client, the "no headers object" case never arises: in a browser
    with a truthy stored token every request carries "Bearer <token>", and
    otherwise it carries exactly the merged headers.
  */
  lemma SentHeadersCarryToken(caller: Option<map<string, string>>, storage: map<string, string>, inBrowser: bool)
    ensures var sent := SentHeaders(caller, storage, inBrowser);
      && sent.Some?
      && DefaultHeaders.Keys <= sent.value.Keys
      && (inBrowser && TokenKey in storage && storage[TokenKey] != "" ==>
            sent.value[AuthorizationHeader] == BearerPrefix + storage[TokenKey])
      && (!(inBrowser && TokenKey in storage && storage[TokenKey] != "") ==> sent == Some(MergedHeaders(caller)))
  {
  }

  /**
    A request descriptor, reduced to its headers object, which the request
    interceptor updates in place. Method and URL are read only by the hook's
    failure log, which is not modelled.
  */
  class RequestConfig {
    var headers: Option<map<string, string>>

    constructor (headers: Option<map<string, string>>)
      ensures this.headers == headers
    {
      this.headers := headers;
    }
  }

  /** The shared client: its view of local storage and whether it runs in a browser. */
  class Api {
    var localStorage: map<string, string>
    const inBrowser: bool

    constructor (inBrowser: bool, localStorage: map<string, string>)
      ensures this.inBrowser == inBrowser && this.localStorage == localStorage
    {
      this.inBrowser := inBrowser;
      this.localStorage := localStorage;
    }

    /** The request interceptor: attaches the stored token to `config` in place and returns it. */
    method InterceptRequest(config: RequestConfig) returns (r: RequestConfig)
      modifies config`headers
      ensures r == config
      ensures config.headers == AttachBearer(old(config.headers), StoredToken(localStorage, inBrowser))
    {
      if inBrowser {
        var token := if TokenKey in localStorage then Some(localStorage[TokenKey]) else None;
        if Truthy(token) && config.headers.Some? {
          config.headers := Some(config.headers.value[AuthorizationHeader := BearerPrefix + token.value]);
        }
      }
      r := config;
    }

    /**
      The response interceptor: a resolved request passes through; a rejected one
      drops the stored token on 401 (in a browser) and is rejected again with its
      message normalised.
    */
    method InterceptResponse<T>(o: Outcome<T>) returns (r: Outcome<T>)
      modifies this`localStorage
      ensures r == Intercepted(o)
      ensures o.Resolved? ==> localStorage == old(localStorage)
      ensures o.Rejected? ==> localStorage == StorageAfterRejection(old(localStorage), inBrowser, o.reason)
    {
      match o
      case Resolved(_) =>
        r := o;
      case Rejected(e) =>
        if IsUnauthorized(e) && inBrowser {
          localStorage := localStorage - {TokenKey};
        }
        r := Rejected(NormalizeError(e));
    }

    /**
      `api.request(config)`: axios copies the caller's config into a fresh one whose
      headers are merged over the defaults, runs the request interceptor on that
      copy, then the transport, whose outcome is given, then the response
      interceptor. The caller's config is left as it was.
    */
    method Request<T>(config: RequestConfig, transport: Outcome<T>) returns (r: Outcome<T>, sent: RequestConfig)
      modifies this`localStorage
      ensures fresh(sent)
      ensures sent.headers == SentHeaders(config.headers, old(localStorage), inBrowser)
      ensures r == Intercepted(transport)
      ensures transport.Resolved? ==> localStorage == old(localStorage)
      ensures transport.Rejected? ==> localStorage == StorageAfterRejection(old(localStorage), inBrowser, transport.reason)
    {
      var merged := new RequestConfig(Some(MergedHeaders(config.headers)));
      sent := InterceptRequest(merged);
      r := InterceptResponse(transport);
    }
  }
}
