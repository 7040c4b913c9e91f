/** The API wrapper (`ApiService` in src/services/api.js): the bearer token
    held in memory and mirrored in durable storage, the two header sets, the
    request a call sends, and how the settled `fetch` becomes a value or a
    thrown error. `fetch` itself is abstract: each operation is modelled as
    the `Call` it issues plus `Settle`, applied to whatever `fetch` yields. */
module Api {
  import opened Json
  import opened Http
  import Decimal
  import UploadForm

  const BaseUrl := "/api"
  const TokenKey := "token"
  const JsonContentType := "application/json"
  const UnknownError := "Erro desconhecido"
  /** V8's wording for reading a property of `null`. */
  const NullDetailMessage := "Cannot read properties of null (reading 'detail')"
  /** V8's wording for an object `String()` cannot convert. */
  const NoPrimitiveMessage := "Cannot convert object to primitive value"

  /** Durable client-side storage (`localStorage`): string keys to strings. */
  type Storage = map<string, string>

  /** The service instance's token together with the storage it mirrors. */
  datatype Session = Session(token: Option<string>, storage: Storage)

  /** A request body: JSON text (left as the value `JSON.stringify` is
      applied to) or multipart form data. */
  datatype Body = JsonText(value: Json) | Form(fields: seq<UploadForm.FormField>)

  /** The value of one `fetch` option. */
  datatype OptionValue = Str(s: string) | Headers(headers: map<string, string>) | Payload(body: Body)

  type Options = map<string, OptionValue>

  /** A `fetch(url, config)` about to be issued. */
  datatype Call = Call(url: string, config: Options)

  // ----- token state -----------------------------------------------------

  /** The constructor reads whatever token is stored; `getItem` on a missing
      key yields null. */
  function Construct(storage: Storage): (s: Session)
    ensures s.storage == storage
    ensures s.token.Some? <==> TokenKey in storage
    ensures s.token.Some? ==> s.token.value == storage[TokenKey]
  {
    Session(if TokenKey in storage then Some(storage[TokenKey]) else None, storage)
  }

  function SetToken(s: Session, token: string): (r: Session)
    ensures r.token == Some(token)
    ensures TokenKey in r.storage && r.storage[TokenKey] == token
    ensures forall k :: k != TokenKey ==> (k in r.storage <==> k in s.storage)
    ensures forall k :: k != TokenKey && k in s.storage ==> r.storage[k] == s.storage[k]
  {
    Session(Some(token), s.storage[TokenKey := token])
  }

  function ClearToken(s: Session): (r: Session)
    ensures r.token == None
    ensures TokenKey !in r.storage
    ensures forall k :: k != TokenKey ==> (k in r.storage <==> k in s.storage)
    ensures forall k :: k != TokenKey && k in s.storage ==> r.storage[k] == s.storage[k]
  {
    Session(None, s.storage - {TokenKey})
  }

  /** A token survives a reload: a fresh instance over the storage left by
      `setToken` holds the same token, and one over the storage left by
      `clearToken` holds none. */
  lemma TokenPersists(s: Session, token: string)
    ensures Construct(SetToken(s, token).storage).token == Some(token)
    ensures Construct(ClearToken(s).storage).token == None
    ensures Construct(SetToken(s, token).storage) == SetToken(s, token)
    ensures Construct(ClearToken(s).storage) == ClearToken(s)
  {
  }

  /** `if (this.token)`: the token's JavaScript truthiness, so null and the
      empty string both count as absent. */
  predicate HasBearer(s: Session) {
    s.token.Some? && Truthy(Some(JStr(s.token.value)))
  }

  function Bearer(token: string): string {
    "Bearer " + token
  }

  // ----- headers ---------------------------------------------------------

  function GetHeaders(s: Session): (h: map<string, string>)
    ensures "Content-Type" in h && h["Content-Type"] == JsonContentType
    ensures "Authorization" in h <==> HasBearer(s)
    ensures HasBearer(s) ==> h["Authorization"] == Bearer(s.token.value)
    ensures h.Keys <= {"Content-Type", "Authorization"}
  {
    var base := map["Content-Type" := JsonContentType];
    if HasBearer(s) then base["Authorization" := Bearer(s.token.value)] else base
  }

  /** Multipart uploads leave the content type to the transport, which adds
      the boundary. */
  function GetHeadersForFormData(s: Session): (h: map<string, string>)
    ensures "Content-Type" !in h
    ensures "Authorization" in h <==> HasBearer(s)
    ensures HasBearer(s) ==> h["Authorization"] == Bearer(s.token.value)
    ensures h.Keys <= {"Authorization"}
  {
    if HasBearer(s) then map["Authorization" := Bearer(s.token.value)] else map[]
  }

  /** The two header sets agree on authorization; they differ only in the
      JSON content type. */
  lemma HeaderSetsAgree(s: Session)
    ensures GetHeaders(s) - {"Content-Type"} == GetHeadersForFormData(s)
  {
  }

  // ----- request ---------------------------------------------------------

  /** `request(endpoint, options)`: the URL is the base path followed by the
      endpoint, and the config is `{headers: getHeaders(), ...options}`, so
      each caller option overrides the default of the same name. */
  function Request(s: Session, endpoint: string, options: Options): (c: Call)
    ensures c.url == BaseUrl + endpoint
    ensures c.config.Keys == options.Keys + {"headers"}
    ensures "headers" !in options ==> c.config["headers"] == Headers(GetHeaders(s))
    ensures forall k :: k in options ==> c.config[k] == options[k]
  {
    Call(BaseUrl + endpoint, map["headers" := Headers(GetHeaders(s))] + options)
  }

  /** A caller's `headers` option replaces the default set wholesale: if it
      has no `Authorization` entry the request goes out without the bearer
      token and without the JSON content type, whatever the session holds. */
  lemma CallerHeadersReplaceDefaults(s: Session, endpoint: string, options: Options, h: map<string, string>)
    requires "headers" in options && options["headers"] == Headers(h)
    requires "Authorization" !in h && "Content-Type" !in h
    ensures Request(s, endpoint, options).config["headers"].headers.Keys == h.Keys
    ensures "Authorization" !in Request(s, endpoint, options).config["headers"].headers
    ensures "Content-Type" !in Request(s, endpoint, options).config["headers"].headers
  {
  }

  /** The thrown message for a non-2xx response: the body's `detail` when it
      is truthy (coerced by `new Error`), else `HTTP <status>`; an
      unparseable body stands in as `{detail: 'Erro desconhecido'}`. Two
      bodies make the handler throw a `TypeError` instead: `null`, on which
      the property read fails, and a truthy `detail` that `String()` cannot
      convert (see `Coercible`). */
  function FailureError(r: Response): (e: JsError)
    ensures r.body.Failure? ==> e == JsError("Error", UnknownError)
    ensures e.name == "TypeError" <==>
              r.body.Success? && (r.body.value.JNull? ||
                (Truthy(Property(r.body.value, "detail")) && !Coercible(Property(r.body.value, "detail").value)))
    ensures e.name != "TypeError" ==> e.name == "Error"
    ensures r.body.Success? && r.body.value.JNull? ==> e == JsError("TypeError", NullDetailMessage)
    ensures r.body.Success? && !r.body.value.JNull? && Truthy(Property(r.body.value, "detail"))
            && Coercible(Property(r.body.value, "detail").value)
            ==> e == JsError("Error", ToJsString(Property(r.body.value, "detail").value))
    ensures r.body.Success? && !r.body.value.JNull? && Truthy(Property(r.body.value, "detail"))
            && !Coercible(Property(r.body.value, "detail").value)
            ==> e == JsError("TypeError", NoPrimitiveMessage)
    ensures r.body.Success? && r.body.value.JObj? && "detail" in r.body.value.fields
            && r.body.value.fields["detail"].JStr? && r.body.value.fields["detail"].s != ""
            ==> e == JsError("Error", r.body.value.fields["detail"].s)
    ensures r.body.Success? && !r.body.value.JNull? && !Truthy(Property(r.body.value, "detail"))
            ==> e == JsError("Error", "HTTP " + Decimal.Show(r.status))
  {
    var errorData := match r.body
      case Success(j) => j
      case Failure(_) => JObj(map["detail" := JStr(UnknownError)]);
    if errorData.JNull? then JsError("TypeError", NullDetailMessage)
    else
      var detail := Property(errorData, "detail");
      if Truthy(detail) then
        if Coercible(detail.value) then JsError("Error", ToJsString(detail.value))
        else JsError("TypeError", NoPrimitiveMessage)
      else JsError("Error", "HTTP " + Decimal.Show(r.status))
  }

  /** A validation body whose `detail` is an object with its own `toString`
      key, alone or inside a list, makes the handler throw a `TypeError`
      rather than report the server's text. */
  lemma ToStringDetailThrows(status: nat, text: string, x: Json)
    requires !(200 <= status <= 299)
    ensures FailureError(Response(status, text, Success(JObj(map["detail" := JObj(map["toString" := x])]))))
            == JsError("TypeError", NoPrimitiveMessage)
    ensures FailureError(Response(status, text, Success(JObj(map["detail" := JArr([JObj(map["toString" := x])])]))))
            == JsError("TypeError", NoPrimitiveMessage)
  {
    var items := [JObj(map["toString" := x])];
    assert !Coercible(items[0]);
  }

  /** How `request` and `uploadFile` finish once `fetch` has settled: a 2xx
      response yields its parsed body, any other response throws, and a
      rejection of `fetch` or of `response.json()` propagates unchanged. */
  function Settle(outcome: FetchOutcome): (r: Result<Json, JsError>)
    ensures outcome.Rejected? ==> r == Failure(outcome.error)
    ensures outcome.Resolved? && IsOk(outcome.response) ==>
              match outcome.response.body
              case Success(j) => r == Success(j)
              case Failure(e) => r == Failure(e)
    ensures outcome.Resolved? && !IsOk(outcome.response) ==>
              r == Failure(FailureError(outcome.response))
  {
    match outcome
    case Rejected(e) => Failure(e)
    case Resolved(resp) =>
      if !IsOk(resp) then Failure(FailureError(resp))
      else match resp.body
        case Success(j) => Success(j)
        case Failure(e) => Failure(e)
  }

  /** The `HTTP <status>` fallback names the status exactly: its digits read
      back as the response's status code. */
  lemma StatusMessageNamesStatus(r: Response)
    requires r.body.Success? && !r.body.value.JNull? && !Truthy(Property(r.body.value, "detail"))
    ensures |FailureError(r).message| > 5
    ensures FailureError(r).message[..5] == "HTTP "
    ensures forall i :: 5 <= i < |FailureError(r).message| ==> Decimal.IsDigit(FailureError(r).message[i])
    ensures Decimal.Value(FailureError(r).message[5..]) == r.status
  {
    var m := FailureError(r).message;
    assert m == "HTTP " + Decimal.Show(r.status);
    assert m[5..] == Decimal.Show(r.status);
    Decimal.ShowValue(r.status);
  }

  // ----- endpoints -------------------------------------------------------

  function Login(s: Session, email: string, password: string): (c: Call)
    ensures c.url == "/api/auth/login"
    ensures c.config.Keys == {"headers", "method", "body"}
    ensures c.config["method"] == Str("POST")
    ensures c.config["headers"] == Headers(GetHeaders(s))
    ensures c.config["body"] == Payload(JsonText(JObj(map["email" := JStr(email), "password" := JStr(password)])))
  {
    Request(s, "/auth/login", map["method" := Str("POST"),
                                   "body" := Payload(JsonText(JObj(map["email" := JStr(email), "password" := JStr(password)])))])
  }

  function Register(s: Session, userData: Json): (c: Call)
    ensures c.url == "/api/auth/register"
    ensures c.config.Keys == {"headers", "method", "body"}
    ensures c.config["method"] == Str("POST")
    ensures c.config["headers"] == Headers(GetHeaders(s))
    ensures c.config["body"] == Payload(JsonText(userData))
  {
    Request(s, "/auth/register", map["method" := Str("POST"), "body" := Payload(JsonText(userData))])
  }

  /** A GET (no `method` option) for every file on the platform. */
  function ListAllFiles(s: Session): (c: Call)
    ensures c.url == "/api/files/"
    ensures c.config == map["headers" := Headers(GetHeaders(s))]
  {
    Request(s, "/files/", map[])
  }

  function GetUserFiles(s: Session, userId: string): (c: Call)
    ensures c.url == "/api/files/user/" + userId + "/"
    ensures c.config == map["headers" := Headers(GetHeaders(s))]
  {
    Request(s, "/files/user/" + userId + "/", map[])
  }

  /** `uploadFile(userId, file, description, type)`: a POST of the shared
      multipart form to the user's upload path, with the form-data headers
      and not the JSON ones. Its result settles like `request`'s. */
  function UploadFile(s: Session, userId: string, file: UploadForm.File,
                      description: string, fileType: string): (c: Call)
    ensures c.url == "/api/files/" + userId + "/upload/"
    ensures c.config.Keys == {"method", "headers", "body"}
    ensures c.config["method"] == Str("POST")
    ensures c.config["headers"] == Headers(GetHeadersForFormData(s))
    ensures "Content-Type" !in c.config["headers"].headers
    ensures c.config["body"] == Payload(Form(UploadForm.Build(file, description, fileType)))
  {
    Call(BaseUrl + "/files/" + userId + "/upload/",
         map["method" := Str("POST"),
             "headers" := Headers(GetHeadersForFormData(s)),
             "body" := Payload(Form(UploadForm.Build(file, description, fileType)))])
  }

  /** With `description` and `type` left at their `''` defaults, the form
      holds the file alone. */
  lemma UploadFileDefaults(s: Session, userId: string, file: UploadForm.File)
    ensures UploadFile(s, userId, file, "", "").config["body"]
            == Payload(Form([UploadForm.FileField(UploadForm.FileKey, file)]))
  {
  }
}
