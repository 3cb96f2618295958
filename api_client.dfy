/**
 * The shared HTTP client's two interceptors (src/api/axios.ts): the request side adds the
 * bearer token from `localStorage`; the response side turns a failure into the message the
 * pages show, and on a 401 outside the login and register calls drops the token and sends
 * the browser to the sign-in page.
 */
module ApiClient {
  import opened Wrappers
  import opened Text
  import Browser

  const AuthorizationHeader: string := "Authorization"
  const CannotConnect: string := "Cannot connect to server. Is the backend running?"

  /** `Bearer <token>` for a stored, non-empty token; nothing otherwise. */
  function BearerValue(token: Option<string>): (r: Option<string>)
    ensures r.Some? <==> Truthy(token)
    ensures r.Some? ==> r.value == "Bearer " + token.value && StartsWith(r.value, "Bearer ")
  {
    if Truthy(token) then Some("Bearer " + token.value) else None
  }

  /** The outgoing request's configuration, whose headers the interceptor edits in place. */
  class RequestConfig {
    var url: Option<string>
    var headers: map<string, string>

    constructor (url: Option<string>, headers: map<string, string>)
      ensures this.url == url && this.headers == headers
    {
      this.url := url;
      this.headers := headers;
    }

    /** The request interceptor: set the Authorization header iff a token is stored; no other header changes. */
    method Authorize(storage: Browser.LocalStorage)
      modifies this`headers
      ensures Truthy(storage.token) ==>
        headers == old(headers)[AuthorizationHeader := BearerValue(storage.token).value]
      ensures !Truthy(storage.token) ==> headers == old(headers)
      ensures forall k :: k != AuthorizationHeader ==>
        (k in headers <==> k in old(headers)) && (k in headers ==> headers[k] == old(headers)[k])
    {
      var bearer := BearerValue(storage.token);
      if bearer.Some? {
        headers := headers[AuthorizationHeader := bearer.value];
      }
    }
  }

  /** The JSON body of an error response: the backend puts its message in `error` or `detail`. */
  datatype ErrorBody = ErrorBody(error: Option<string>, detail: Option<string>)

  datatype ErrorResponse = ErrorResponse(status: int, data: Option<ErrorBody>)

  /** A failed call: one raised by the HTTP client, or any other exception. */
  datatype Failure =
    | HttpFailure(message: string, response: Option<ErrorResponse>, url: Option<string>)
    | OtherFailure(hasRequest: bool, hasResponse: bool)

  /** What the interceptor rejects with: a new error carrying a message, or the original exception. */
  datatype Rejection = WithMessage(message: string) | Original

  /** `error.response?.data`. */
  function BodyOf(response: Option<ErrorResponse>): Option<ErrorBody> {
    if response.Some? then response.value.data else None
  }

  /** `data.error || data.detail || error.message`. */
  function SurfacedMessage(message: string, data: Option<ErrorBody>): (r: string)
    ensures data.Some? && Truthy(data.value.error) ==> r == data.value.error.value
    ensures data.Some? && !Truthy(data.value.error) && Truthy(data.value.detail) ==>
      r == data.value.detail.value
    ensures data.None? || (!Truthy(data.value.error) && !Truthy(data.value.detail)) ==> r == message
  {
    if data.Some? && Truthy(data.value.error) then data.value.error.value
    else if data.Some? && Truthy(data.value.detail) then data.value.detail.value
    else message
  }

  /** Whether the URL is a login or register call, where a 401 just means wrong credentials. */
  predicate IsAuthRequest(url: string) {
    Contains(url, "/auth/login") || Contains(url, "/auth/register")
  }

  /** A 401 answer to anything but a login or register call ends the session. */
  predicate ForcesLogout(f: Failure) {
    f.HttpFailure? && f.response.Some? && f.response.value.status == 401
    && !IsAuthRequest(f.url.GetOr([]))
  }

  /** The rejection for a failure: the selected message for every HTTP failure, whatever its status. */
  function RejectionFor(f: Failure): (r: Rejection)
    ensures f.HttpFailure? ==> r == WithMessage(SurfacedMessage(f.message, BodyOf(f.response)))
    ensures f.OtherFailure? && f.hasRequest && !f.hasResponse ==> r == WithMessage(CannotConnect)
    ensures f.OtherFailure? && !(f.hasRequest && !f.hasResponse) ==> r == Original
  {
    match f
    case HttpFailure(message, response, _) => WithMessage(SurfacedMessage(message, BodyOf(response)))
    case OtherFailure(hasRequest, hasResponse) =>
      if hasRequest && !hasResponse then WithMessage(CannotConnect) else Original
  }

  /** The "cannot connect" text only ever comes from a non-HTTP failure with a request and no response, unless the server itself sent that text. */
  lemma CannotConnectOnlyOffline(f: Failure)
    requires f.HttpFailure? ==> f.message != CannotConnect
    requires f.HttpFailure? && BodyOf(f.response).Some? ==>
      BodyOf(f.response).value.error != Some(CannotConnect) && BodyOf(f.response).value.detail != Some(CannotConnect)
    ensures RejectionFor(f) == WithMessage(CannotConnect) <==> f.OtherFailure? && f.hasRequest && !f.hasResponse
  {
  }

  /** A 401 on the login or register call never forces a logout, and nothing but a 401 does. */
  lemma LogoutOnlyOn401(f: Failure)
    ensures ForcesLogout(f) ==> f.HttpFailure? && f.response.value.status == 401
    ensures f.HttpFailure? && f.url.Some? && StartsWith(f.url.value, "/auth/login") ==> !ForcesLogout(f)
  {
    if f.HttpFailure? && f.url.Some? && StartsWith(f.url.value, "/auth/login") {
      assert OccursAt(f.url.value, "/auth/login", 0);
    }
  }

  /**
   * The response-error interceptor: on a forced logout the stored token is removed and the
   * location becomes /login; otherwise neither changes. The state store's own token is not
   * touched here.
   */
  method OnResponseError(f: Failure, storage: Browser.LocalStorage, location: Browser.Location)
    returns (r: Rejection)
    modifies storage, location
    ensures r == RejectionFor(f)
    ensures ForcesLogout(f) ==> storage.token == None && location.href == "/login"
    ensures !ForcesLogout(f) ==> storage.token == old(storage.token) && location.href == old(location.href)
  {
    if ForcesLogout(f) {
      storage.token := None;
      location.href := "/login";
    }
    r := RejectionFor(f);
  }
}
