/**
 * The shared HTTP client (src/services/api.ts): the base URL choice, the
 * request interceptor that attaches the bearer token, and the response
 * interceptor that turns failures into a notice.
 */
module Api {
  import opened Wrappers
  import opened JsValues
  import opened Storage
  import opened Types

  const ProdUrl := "https://visit-backend-2.onrender.com/api/v1"
  const DevUrl := "http://localhost:5000/api/v1"

  /** The base URL: a non-empty override wins, else the build's default. */
  function GetApiUrl(prod: bool, envOverride: Option<string>): (url: string)
    ensures url != ""
    ensures TruthyString(envOverride) ==> url == envOverride.value
    ensures !TruthyString(envOverride) ==> url == (if prod then ProdUrl else DevUrl)
  {
    if prod then OrElse(envOverride, ProdUrl) else OrElse(envOverride, DevUrl)
  }

  /** A file picked by the user. */
  datatype File = File(name: string, mimeType: string, size: nat)

  /** One `FormData.append` call. */
  datatype FormEntry = TextEntry(key: string, text: string) | FileEntry(key: string, file: File)

  /** What a request carries. */
  datatype Body = NoBody | JsonBody | FormBody(entries: seq<FormEntry>)

  /** A toast shown with antd's `message.success` or `message.error`. */
  datatype Notice = Success(text: string) | Failure(text: string)

  const AuthorizationHeader := "Authorization"
  const ContentTypeHeader := "Content-Type"

  /** The headers every request starts with. */
  const DefaultHeaders := map[ContentTypeHeader := "application/json"]

  /** The headers after the request interceptor ran, given the stored token. */
  function InterceptedHeaders(headers: map<string, string>, token: Option<string>, isForm: bool): (r: map<string, string>)
    ensures TruthyString(token) ==> AuthorizationHeader in r && r[AuthorizationHeader] == "Bearer " + token.value
    ensures !TruthyString(token) ==> (AuthorizationHeader in r <==> AuthorizationHeader in headers)
    ensures isForm ==> ContentTypeHeader !in r
    ensures !isForm ==> (ContentTypeHeader in r <==> ContentTypeHeader in headers)
    ensures forall k :: k in headers && k != AuthorizationHeader && k != ContentTypeHeader ==> k in r && r[k] == headers[k]
    ensures forall k :: k in r ==> k in headers || k == AuthorizationHeader
  {
    var withAuth := if TruthyString(token) then headers[AuthorizationHeader := "Bearer " + token.value] else headers;
    if isForm then withAuth - {ContentTypeHeader} else withAuth
  }

  /** The per-request configuration that the request interceptor rewrites in place. */
  class RequestConfig {
    var headers: map<string, string>
    const body: Body

    constructor (body: Body)
      ensures headers == DefaultHeaders && this.body == body
    {
      headers := DefaultHeaders;
      this.body := body;
    }

    /** The request interceptor: bearer header from storage, Content-Type dropped for form data. */
    method Intercept(storage: BrowserStorage)
      modifies this
      ensures headers == InterceptedHeaders(old(headers), storage.GetItem(TokenKey), body.FormBody?)
    {
      var token := storage.GetItem(TokenKey);
      if TruthyString(token) {
        headers := headers[AuthorizationHeader := "Bearer " + token.value];
      }
      if body.FormBody? {
        headers := headers - {ContentTypeHeader};
      }
    }
  }

  /** Why a request failed: an HTTP status with the body's optional message, no response at all, or a setup error. */
  datatype HttpFailure =
    | StatusFailure(status: int, serverMessage: Option<string>)
    | NoResponse
    | SetupFailure

  /** What a store's `catch` reads of a rejected request: `error.response?.data?.message`. */
  function Rejection(f: HttpFailure): (e: ApiError)
    ensures f.StatusFailure? ==> e.message == f.serverMessage
    ensures !f.StatusFailure? ==> e.message == None
  {
    match f
    case StatusFailure(_, m) => ApiError(m)
    case _ => ApiError(None)
  }

  const SessionExpired := "Session expirée. Veuillez vous reconnecter."
  const Forbidden := "Accès interdit"
  const NotFound := "Ressource non trouvée"
  const ServerError := "Erreur serveur. Veuillez réessayer plus tard."
  const Unreachable := "Impossible de contacter le serveur"
  const Generic := "Une erreur est survenue"

  /** The message the response interceptor shows for a failure. */
  function ErrorNotice(f: HttpFailure): (msg: string)
    ensures msg != ""
    ensures f.StatusFailure? && f.status !in {401, 403, 500} && TruthyString(f.serverMessage) ==> msg == f.serverMessage.value
    ensures f.StatusFailure? && f.status == 404 && !TruthyString(f.serverMessage) ==> msg == NotFound
    ensures f.StatusFailure? && f.status !in {401, 403, 404, 500} && !TruthyString(f.serverMessage) ==> msg == Generic
    ensures f.StatusFailure? && f.status == 401 ==> msg == SessionExpired
    ensures f.StatusFailure? && f.status == 403 ==> msg == Forbidden
    ensures f.StatusFailure? && f.status == 500 ==> msg == ServerError
    ensures f.NoResponse? ==> msg == Unreachable
    ensures f.SetupFailure? ==> msg == Generic
  {
    match f
    case StatusFailure(status, serverMessage) =>
      if status == 401 then SessionExpired
      else if status == 403 then Forbidden
      else if status == 404 then OrElse(serverMessage, NotFound)
      else if status == 500 then ServerError
      else OrElse(serverMessage, Generic)
    case NoResponse => Unreachable
    case SetupFailure => Generic
  }

  /**
   * The response interceptor: a success passes through untouched; a failure
   * shows its notice, a 401 also drops the session from storage and sends the
   * browser to /login, and the failure is rejected as it came.
   */
  method HandleResponse<T>(outcome: Result<T, HttpFailure>, storage: BrowserStorage)
    returns (result: Result<T, HttpFailure>, notice: Option<string>, redirect: Option<string>)
    modifies storage
    ensures result == outcome
    ensures outcome.Ok? ==> notice == None && redirect == None
    ensures outcome.Err? ==> notice == Some(ErrorNotice(outcome.error))
    ensures redirect.Some? <==> outcome.Err? && outcome.error.StatusFailure? && outcome.error.status == 401
    ensures redirect.Some? ==> redirect.value == "/login"
    ensures storage.entries == if redirect.Some? then old(storage.entries) - {TokenKey, UserKey} else old(storage.entries)
  {
    result, notice, redirect := outcome, None, None;
    if outcome.Err? {
      var f := outcome.error;
      notice := Some(ErrorNotice(f));
      if f.StatusFailure? && f.status == 401 {
        storage.RemoveItem(TokenKey);
        storage.RemoveItem(UserKey);
        redirect := Some("/login");
      }
    }
  }
}
