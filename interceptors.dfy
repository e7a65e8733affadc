/** The shared HTTP client's interceptors: the request hook that attaches the
    stored bearer token, and the response hooks that pass successes through
    and turn every failure into one error notification before re-rejecting. */
module Api {
  import opened Common

  /** The session-storage key the token is read from. */
  const TokenKey: string := "access_token"
  const AuthorizationHeader: string := "Authorization"
  const RequestSetupMessage: string := "Request setup error"
  const FallbackMessage: string := "Something went wrong"

  /** `sessionStorage`, as the key/value map it holds. */
  type SessionStorage = map<string, string>

  /** `sessionStorage.getItem(key)`: `null` when the key is not stored. */
  function GetItem(storage: SessionStorage, key: string): Option<string> {
    if key in storage then Some(storage[key]) else None
  }

  /** JavaScript truthiness of a string that may be `null` or `undefined`:
      absent values and the empty string are falsy. */
  predicate Truthy(s: Option<string>) {
    s.Some? && s.value != ""
  }

  /** The headers after the request hook: a truthy token sets the
      Authorization header to the bearer credential; nothing else changes. */
  function WithBearer(headers: map<string, string>, token: Option<string>): (r: map<string, string>)
    ensures Truthy(token) ==> AuthorizationHeader in r && r[AuthorizationHeader] == "Bearer " + token.value
    ensures !Truthy(token) ==> r == headers
    ensures forall k :: k != AuthorizationHeader ==> (k in r <==> k in headers)
    ensures forall k :: k in r && k != AuthorizationHeader ==> r[k] == headers[k]
  {
    if Truthy(token) then headers[AuthorizationHeader := "Bearer " + token.value] else headers
  }

  /** The request configuration the hook receives and mutates. */
  class RequestConfig {
    var url: string
    var httpMethod: string
    var headers: map<string, string>

    constructor (url: string, httpMethod: string, headers: map<string, string>)
      ensures this.url == url && this.httpMethod == httpMethod && this.headers == headers
    {
      this.url := url;
      this.httpMethod := httpMethod;
      this.headers := headers;
    }
  }

  /** The request hook: reads the token and, when it is truthy, writes the
      Authorization header of the same config object it then returns. */
  method OnRequest(config: RequestConfig, storage: SessionStorage) returns (r: RequestConfig)
    modifies config
    ensures r == config
    ensures config.headers == WithBearer(old(config.headers), GetItem(storage, TokenKey))
    ensures config.url == old(config.url) && config.httpMethod == old(config.httpMethod)
  {
    var token := GetItem(storage, TokenKey);
    if Truthy(token) {
      config.headers := config.headers[AuthorizationHeader := "Bearer " + token.value];
    }
    r := config;
  }

  /** The request hook's error handler: one notification, then the same
      error is rejected again. */
  method OnRequestError<E>(toaster: Toaster, error: E) returns (s: Settled<RequestConfig, E>)
    modifies toaster
    ensures toaster.log == old(toaster.log) + [Toast(ErrorToast, RequestSetupMessage)]
    ensures s == Rejected(error)
  {
    toaster.Error(RequestSetupMessage);
    s := Rejected(error);
  }

  /** The part of a rejected request the message is read from: the body's
      `message` and `error` fields, when there is a body. */
  datatype ErrorBody = ErrorBody(message: Option<string>, error: Option<string>)
  datatype ErrorResponse = ErrorResponse(status: int, data: Option<ErrorBody>)

  /** The error object of a failed request: its own `message` and, when the
      server answered, the `response`. */
  datatype HttpError = HttpError(message: Option<string>, response: Option<ErrorResponse>)

  /** `error?.response?.data?.message` */
  function BodyMessage(e: HttpError): Option<string> {
    if e.response.Some? && e.response.value.data.Some? then e.response.value.data.value.message else None
  }

  /** `error?.response?.data?.error` */
  function BodyError(e: HttpError): Option<string> {
    if e.response.Some? && e.response.value.data.Some? then e.response.value.data.value.error else None
  }

  /** The three places probed for a message, in order of precedence. */
  function Candidates(e: HttpError): seq<Option<string>> {
    [BodyMessage(e), BodyError(e), e.message]
  }

  /** The first truthy candidate, or the fallback when none is. */
  function FirstTruthy(candidates: seq<Option<string>>, fallback: string): string {
    if candidates == [] then fallback
    else if Truthy(candidates[0]) then candidates[0].value
    else FirstTruthy(candidates[1..], fallback)
  }

  /** The `||` chain that picks the message to show. It is never empty and is
      either the fallback or one of the probed values. */
  function ErrorMessage(e: HttpError): (m: string)
    ensures m != ""
    ensures m == FallbackMessage || Some(m) in Candidates(e)
  {
    var body := BodyMessage(e);
    var err := BodyError(e);
    if Truthy(body) then body.value
    else if Truthy(err) then err.value
    else if Truthy(e.message) then e.message.value
    else FallbackMessage
  }

  /** The message is the first truthy value in precedence order. */
  lemma ErrorMessageIsFirstTruthy(e: HttpError)
    ensures ErrorMessage(e) == FirstTruthy(Candidates(e), FallbackMessage)
  {
    var c := Candidates(e);
    assert c[1..] == [BodyError(e), e.message];
    assert c[1..][1..] == [e.message];
    assert FirstTruthy([e.message], FallbackMessage) ==
           if Truthy(e.message) then e.message.value else FallbackMessage by {
      assert [e.message][1..] == [];
    }
  }

  /** A field that holds the empty string is skipped as if it were absent. */
  lemma EmptyBodyMessageSkipped(e: HttpError, status: int, error: Option<string>)
    requires e.response == Some(ErrorResponse(status, Some(ErrorBody(Some(""), error))))
    ensures ErrorMessage(e) == ErrorMessage(e.(response := Some(ErrorResponse(status, Some(ErrorBody(None, error))))))
  {
  }

  /** When no field is truthy the fallback is shown. */
  lemma NoTruthyFieldGivesFallback(e: HttpError)
    requires forall c :: c in Candidates(e) ==> !Truthy(c)
    ensures ErrorMessage(e) == FallbackMessage
  {
    assert BodyMessage(e) in Candidates(e) && BodyError(e) in Candidates(e) && e.message in Candidates(e);
  }

  /** Both response hooks: a success is passed through untouched and adds no
      notification; a failure adds exactly one error notification carrying the
      chosen message and is rejected again with the same error. */
  method OnResponse<T>(toaster: Toaster, outcome: Settled<T, HttpError>) returns (s: Settled<T, HttpError>)
    modifies toaster
    ensures s == outcome
    ensures outcome.Fulfilled? ==> toaster.log == old(toaster.log)
    ensures outcome.Rejected? ==> toaster.log == old(toaster.log) + [Toast(ErrorToast, ErrorMessage(outcome.reason))]
  {
    match outcome
    case Fulfilled(response) =>
      s := Fulfilled(response);
    case Rejected(error) =>
      toaster.Error(ErrorMessage(error));
      s := Rejected(error);
  }

  /** A request sent with no stored credential carries no Authorization
      header; one sent with the credential "abc" carries "Bearer abc". */
  lemma BearerScenarios(headers: map<string, string>)
    requires AuthorizationHeader !in headers
    ensures AuthorizationHeader !in WithBearer(headers, GetItem(map[], TokenKey))
    ensures WithBearer(headers, GetItem(map[TokenKey := "abc"], TokenKey))[AuthorizationHeader] == "Bearer abc"
  {
  }

  /** A 401 answer whose body is `{message: "invalid credentials"}` shows
      exactly "invalid credentials". */
  lemma InvalidCredentialsScenario(transport: Option<string>)
    ensures ErrorMessage(HttpError(transport, Some(ErrorResponse(401, Some(ErrorBody(Some("invalid credentials"), None)))))) == "invalid credentials"
  {
  }
}
