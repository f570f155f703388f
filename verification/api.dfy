/** The HTTP client wrapper: `ApiError`, the error-payload normaliser
    `extractMessages`, and the pure parts of `request` — URL resolution, header
    computation and classification of the response. The network call itself is
    an input: the model receives what `fetch` delivered. */
module Api {
  import opened Wrappers
  import opened Text
  import opened JsonValues

  /** The structured error raised for every non-2xx response. */
  datatype ApiError = ApiError(status: int, messages: seq<string>, payload: Json)

  /** What a JavaScript `throw` can carry in this program. */
  datatype Thrown =
    | ApiErr(error: ApiError)
    /** Any other `Error` instance (`Error`, `TypeError`, `SyntaxError`, ...). */
    | JsError(name: string, message: string)
    /** A thrown value that is not an `Error`. */
    | NonError(value: Json)

  /** How an asynchronous call settles: it returns a value or throws. */
  datatype Outcome<+T> = Returned(value: T) | Threw(error: Thrown)

  /** `ApiError`'s `message`: its messages joined by a newline. */
  function ErrorMessage(e: ApiError): (m: string)
    ensures e.messages == [] ==> m == ""
    ensures (|e.messages| > 0 && forall i :: 0 <= i < |e.messages| ==> '\n' !in e.messages[i])
            ==> Split(m, '\n') == e.messages
  {
    var m := Join(e.messages, "\n");
    if |e.messages| > 0 && forall i :: 0 <= i < |e.messages| ==> '\n' !in e.messages[i] then
      SplitJoin(e.messages, '\n'); m
    else m
  }

  /** `e.message` of any thrown `Error`. */
  function ThrownMessage(t: Thrown): Option<string>
  {
    match t
    case ApiErr(e) => Some(ErrorMessage(e))
    case JsError(_, m) => Some(m)
    case NonError(_) => None
  }

  /** `m[key] = v[key]` when `v[key]` is a string; `m` otherwise. */
  function CopyStringField(m: map<string, Json>, v: Json, key: string): map<string, Json>
  {
    if StringProp(v, key).Some? then m[key := JStr(StringProp(v, key).value)] else m
  }

  /** What `unwrap()` rethrows for a thunk that rejected with `t`: Redux Toolkit's
      serialised copy of it. An object becomes a plain object holding its string `name`
      and `message`; a primitive becomes `{message: String(t)}`. The copy is never an
      `Error` instance. */
  function Unwrapped(t: Thrown): (r: Thrown)
    ensures r.NonError? && r.value.JObj?
    ensures ThrownMessage(t).Some? ==> StringProp(r.value, "message") == ThrownMessage(t)
    ensures t.NonError? && IsObject(t.value) ==> StringProp(r.value, "message") == StringProp(t.value, "message")
    ensures t.NonError? && !IsObject(t.value) ==> StringProp(r.value, "message") == Some(ToJsString(t.value))
  {
    match t
    case ApiErr(e) => NonError(JObj(map["name" := JStr("Error"), "message" := JStr(ErrorMessage(e))]))
    case JsError(n, m) => NonError(JObj(map["name" := JStr(n), "message" := JStr(m)]))
    case NonError(v) =>
      if IsObject(v) then NonError(JObj(CopyStringField(CopyStringField(map[], v, "name"), v, "message")))
      else NonError(JObj(map["message" := JStr(ToJsString(v))]))
  }

  // ---------------------------------------------------------------------------
  // extractMessages

  /** The payload's `errors` field when the payload is an object and the field is an array. */
  function ErrorsArray(payload: Json): Option<seq<Json>>
  {
    match Prop(payload, "errors")
    case Some(JArr(xs)) => Some(xs)
    case _ => None
  }

  function ExtractMessages(payload: Json): (ms: seq<string>)
    ensures !Truthy(payload) ==> ms == ["Unknown error"]
    ensures Truthy(payload) && ErrorsArray(payload).Some? ==>
      var xs := ErrorsArray(payload).value;
      |ms| == |xs| && forall i :: 0 <= i < |xs| ==> ms[i] == ToJsString(xs[i])
    ensures Truthy(payload) && ErrorsArray(payload).None? && StringProp(payload, "message").Some? ==>
      ms == [StringProp(payload, "message").value]
    ensures Truthy(payload) && ErrorsArray(payload).None? && StringProp(payload, "message").None?
            && StringProp(payload, "title").Some? ==>
      ms == [StringProp(payload, "title").value]
    ensures Truthy(payload) && ErrorsArray(payload).None? && StringProp(payload, "message").None?
            && StringProp(payload, "title").None? ==>
      ms == ["Request failed"]
  {
    if !Truthy(payload) then ["Unknown error"]
    else if IsObject(payload) && ErrorsArray(payload).Some? then
      var xs := ErrorsArray(payload).value;
      seq(|xs|, i requires 0 <= i < |xs| => ToJsString(xs[i]))
    else if IsObject(payload) && StringProp(payload, "message").Some? then
      [StringProp(payload, "message").value]
    else if IsObject(payload) && StringProp(payload, "title").Some? then
      [StringProp(payload, "title").value]
    else ["Request failed"]
  }

  /** The list is empty exactly when the payload carries an empty `errors` array. */
  lemma ExtractMessagesEmpty(payload: Json)
    ensures ExtractMessages(payload) == [] <==> ErrorsArray(payload) == Some([])
  {
  }

  /** An `errors` array of strings comes back as the same strings, in order,
      whatever `message` or `title` the payload also carries. */
  lemma ExtractMessagesStrings(fields: map<string, Json>, ss: seq<string>)
    requires "errors" in fields
    requires fields["errors"] == JArr(seq(|ss|, i requires 0 <= i < |ss| => JStr(ss[i])))
    ensures ExtractMessages(JObj(fields)) == ss
  {
    var ms := ExtractMessages(JObj(fields));
    assert |ms| == |ss|;
    forall i | 0 <= i < |ss| ensures ms[i] == ss[i] {
    }
  }

  /** A non-object truthy payload (a number, a string, `true`) yields `["Request failed"]`. */
  lemma ExtractMessagesNonObject(payload: Json)
    requires Truthy(payload) && !payload.JObj?
    ensures ExtractMessages(payload) == ["Request failed"]
  {
  }

  // ---------------------------------------------------------------------------
  // URL resolution

  /** `opts.baseUrl ?? env ?? ""` with all trailing slashes removed. */
  function ResolveBase(baseUrl: Option<string>, env: Option<string>): (b: string)
    ensures baseUrl.Some? ==> b == StripTrailingSlashes(baseUrl.value)
    ensures baseUrl.None? && env.Some? ==> b == StripTrailingSlashes(env.value)
    ensures baseUrl.None? && env.None? ==> b == ""
  {
    StripTrailingSlashes(baseUrl.GetOr(env.GetOr("")))
  }

  /** An absolute path (one starting with `http`) is used as is; any other path is
      appended to the resolved base. */
  function ResolveUrl(path: string, baseUrl: Option<string>, env: Option<string>): (url: string)
    ensures StartsWith(path, "http") ==> url == path
    ensures !StartsWith(path, "http") ==>
      |path| <= |url| && url[|url| - |path|..] == path
      && url[..|url| - |path|] == ResolveBase(baseUrl, env)
  {
    if StartsWith(path, "http") then path
    else
      var b := ResolveBase(baseUrl, env);
      assert (b + path)[..|b|] == b;
      b + path
  }

  /** Stripping is idempotent: a base that already went through resolution resolves to
      itself. */
  lemma {:induction false} ResolveBaseIdempotent(baseUrl: Option<string>, env: Option<string>, env2: Option<string>)
    ensures ResolveBase(Some(ResolveBase(baseUrl, env)), env2) == ResolveBase(baseUrl, env)
  {
    var b := ResolveBase(baseUrl, env);
    assert |b| == 0 || b[|b| - 1] != '/';
  }

  /** A trailing slash on the base never doubles the separator: `http://h/` and `http://h`
      give the same URL. */
  lemma {:induction false} ResolveUrlTrailingSlash(path: string, b: string, env: Option<string>)
    ensures ResolveUrl(path, Some(b + "/"), env) == ResolveUrl(path, Some(b), env)
  {
    var s := b + "/";
    assert |s| > 0 && s[|s| - 1] == '/' && s[..|s| - 1] == b;
  }

  // ---------------------------------------------------------------------------
  // Headers

  /** A header list, keyed by lower-cased name as the Fetch standard stores it. */
  type Headers = map<string, string>

  /** `headers.append(name, value)`: a repeated name gets its values joined by `, `. */
  function AppendHeader(h: Headers, name: string, value: string): Headers
  {
    var k := Lower(name);
    if k in h then h[k := h[k] + ", " + value] else h[k := value]
  }

  /** `new Headers(init)` for a list of name/value pairs. */
  function HeadersFrom(init: seq<(string, string)>): Headers
  {
    if |init| == 0 then map[]
    else AppendHeader(HeadersFrom(init[..|init| - 1]), init[|init| - 1].0, init[|init| - 1].1)
  }

  /** The body handed to `fetch`. `JsonBody(v)` stands for `JSON.stringify(v)`, which
      is never empty; `FormBody` is a `FormData` of named text or file fields. */
  datatype RequestBody =
    | NoBody
    | TextBody(text: string)
    | JsonBody(value: Json)
    | FormBody(fields: seq<(string, string)>)

  predicate BodyTruthy(b: RequestBody)
  {
    match b
    case NoBody => false
    case TextBody(t) => t != ""
    case JsonBody(_) => true
    case FormBody(_) => true
  }

  const AcceptKey := "accept"
  const ContentTypeKey := "content-type"
  const AuthorizationKey := "authorization"
  const JsonMime := "application/json"

  function BuildHeaders(init: seq<(string, string)>, body: RequestBody, token: Option<string>): (h: Headers)
    ensures AcceptKey in h && h[AcceptKey] == JsonMime
    ensures ContentTypeKey in h <==>
      ContentTypeKey in HeadersFrom(init) || (BodyTruthy(body) && !body.FormBody?)
    ensures ContentTypeKey in HeadersFrom(init) ==> h[ContentTypeKey] == HeadersFrom(init)[ContentTypeKey]
    ensures ContentTypeKey !in HeadersFrom(init) && ContentTypeKey in h ==> h[ContentTypeKey] == JsonMime
    ensures TruthyStr(token) ==> AuthorizationKey in h && h[AuthorizationKey] == "Bearer " + token.value
    ensures !TruthyStr(token) ==>
      (AuthorizationKey in h <==> AuthorizationKey in HeadersFrom(init))
      && (AuthorizationKey in h ==> h[AuthorizationKey] == HeadersFrom(init)[AuthorizationKey])
    ensures forall k :: k in HeadersFrom(init) && k != AcceptKey && k != ContentTypeKey && k != AuthorizationKey
                        ==> k in h && h[k] == HeadersFrom(init)[k]
    ensures forall k :: k in h ==> k in HeadersFrom(init) || k == AcceptKey || k == ContentTypeKey || k == AuthorizationKey
  {
    var h0 := HeadersFrom(init);
    var h1 := h0[Lower("Accept") := JsonMime];
    assert Lower("Accept") == AcceptKey;
    var isForm := body.FormBody?;
    var h2 := if !isForm && BodyTruthy(body) && Lower("Content-Type") !in h1
              then h1[Lower("Content-Type") := JsonMime] else h1;
    assert Lower("Content-Type") == ContentTypeKey;
    assert Lower("Authorization") == AuthorizationKey;
    if TruthyStr(token) then h2[Lower("Authorization") := "Bearer " + token.value] else h2
  }

  /** Header names are case-insensitive: a caller's `Content-Type`, spelled in any letter
      case, is kept as given and never replaced by the JSON default. */
  lemma GivenContentTypeKept(name: string, value: string, body: RequestBody, token: Option<string>)
    requires Lower(name) == ContentTypeKey
    ensures ContentTypeKey in BuildHeaders([(name, value)], body, token)
    ensures BuildHeaders([(name, value)], body, token)[ContentTypeKey] == value
  {
    assert [(name, value)][..0] == [];
    assert HeadersFrom([(name, value)]) == map[ContentTypeKey := value];
  }

  // ---------------------------------------------------------------------------
  // Responses

  /** What `JSON.parse` makes of a body text: a value, or a `SyntaxError` with its message. */
  datatype Parse = Parsed(value: Json) | Malformed(reason: string)

  /** A delivered response: status, `content-type` header, body text, and what the
      body text parses to. */
  datatype Response = Response(status: int, contentType: Option<string>, text: string, parse: Parse)

  /** What `fetch` did: delivered a response, or rejected (a `TypeError` for network failures). */
  datatype Transport = Delivered(response: Response) | NetworkFailure(message: string)

  /** A successful result of `request`: `undefined`, a parsed JSON value, or raw text. */
  datatype Reply = NoContent | JsonReply(value: Json) | TextReply(text: string)

  /** The value a settled request resolves to: `undefined` after a 204, otherwise the
      parsed body or the text. */
  function ReplyValue(r: Reply): (v: Option<Json>)
    ensures v.None? <==> r.NoContent?
    ensures r.JsonReply? ==> v == Some(r.value)
    ensures r.TextReply? ==> v == Some(JStr(r.text))
  {
    match r
    case NoContent => None
    case JsonReply(j) => Some(j)
    case TextReply(t) => Some(JStr(t))
  }

  predicate IsOk(status: int)
  {
    200 <= status <= 299
  }

  predicate IsJsonContentType(r: Response)
  {
    Contains(r.contentType.GetOr(""), JsonMime)
  }

  /** The error raised for a non-2xx response whose body was read as `payload`. */
  function FailureFor(status: int, payload: Json): Thrown
  {
    ApiErr(ApiError(status, ExtractMessages(payload), payload))
  }

  /** The body stream of a response: it can be read once. */
  datatype BodyStream = BodyStream(text: string, parse: Parse, used: bool)

  /** The `TypeError` message for reading a body that was already read. */
  const BodyUsedMessage := "body stream already read"

  /** `res.json()`: reads the stream, then parses it. */
  function ReadJson(b: BodyStream): (Outcome<Json>, BodyStream)
  {
    if b.used then (Threw(JsError("TypeError", BodyUsedMessage)), b)
    else
      match b.parse
      case Parsed(v) => (Returned(v), b.(used := true))
      case Malformed(reason) => (Threw(JsError("SyntaxError", reason)), b.(used := true))
  }

  /** `res.text()`. */
  function ReadText(b: BodyStream): (Outcome<string>, BodyStream)
  {
    if b.used then (Threw(JsError("TypeError", BodyUsedMessage)), b)
    else (Returned(b.text), b.(used := true))
  }

  /** The success path shared by both readings: 204 is `undefined` without touching
      the body; a JSON content type is parsed (a malformed body throws the parser's
      `SyntaxError`); anything else is returned as text. */
  function ClassifySuccess(r: Response): (o: Outcome<Reply>)
    requires IsOk(r.status)
    ensures r.status == 204 ==> o == Returned(NoContent)
    ensures r.status != 204 && IsJsonContentType(r) && r.parse.Parsed? ==> o == Returned(JsonReply(r.parse.value))
    ensures r.status != 204 && IsJsonContentType(r) && r.parse.Malformed? ==>
      o == Threw(JsError("SyntaxError", r.parse.reason))
    ensures r.status != 204 && !IsJsonContentType(r) ==> o == Returned(TextReply(r.text))
  {
    var body := BodyStream(r.text, r.parse, false);
    if r.status == 204 then Returned(NoContent)
    else if IsJsonContentType(r) then
      match ReadJson(body).0
      case Returned(v) => Returned(JsonReply(v))
      case Threw(e) => Threw(e)
    else
      match ReadText(body).0
      case Returned(t) => Returned(TextReply(t))
      case Threw(e) => Threw(e)
  }

  /** The failure path AS WRITTEN: `res.json()` is tried, and when it throws, the
      catch block calls `res.text()` on the same, already consumed, body. */
  function ClassifyFailureAsWritten(r: Response): (t: Thrown)
    requires !IsOk(r.status)
    ensures r.parse.Parsed? ==> t == FailureFor(r.status, r.parse.value)
    ensures r.parse.Malformed? ==> t == JsError("TypeError", BodyUsedMessage)
  {
    var (j, afterJson) := ReadJson(BodyStream(r.text, r.parse, false));
    match j
    case Returned(v) => FailureFor(r.status, v)
    case Threw(_) =>
      match ReadText(afterJson).0
      case Returned(t) => FailureFor(r.status, JObj(map["message" := JStr(t)]))
      case Threw(e) => e
  }

  /** The `{message: text}` fallback is never reached as written: an unparsable error
      body makes `request` throw a `TypeError` instead of an `ApiError`. */
  lemma FallbackUnreachableAsWritten(r: Response)
    requires !IsOk(r.status) && r.parse.Malformed?
    ensures ClassifyFailureAsWritten(r) == JsError("TypeError", BodyUsedMessage)
    ensures !ClassifyFailureAsWritten(r).ApiErr?
  {
  }

  /** A concrete instance: a 500 whose body is the plain text `oops`. */
  lemma FallbackCounterexample()
    ensures ClassifyFailureAsWritten(Response(500, Some("text/plain"), "oops", Malformed("Unexpected token o")))
            != FailureFor(500, JObj(map["message" := JStr("oops")]))
  {
    FallbackUnreachableAsWritten(Response(500, Some("text/plain"), "oops", Malformed("Unexpected token o")));
  }

  /** The failure path as intended: the body text is read once and then parsed, so an
      unparsable body becomes `{message: text}`. */
  function ClassifyFailure(r: Response): (t: Thrown)
    requires !IsOk(r.status)
    ensures t.ApiErr? && t.error.status == r.status
    ensures r.parse.Parsed? ==> t == FailureFor(r.status, r.parse.value)
    ensures r.parse.Malformed? ==>
      t.error.messages == [r.text] && t.error.payload == JObj(map["message" := JStr(r.text)])
  {
    var (text, _) := ReadText(BodyStream(r.text, r.parse, false));
    var payload := match r.parse
      case Parsed(v) => v
      case Malformed(_) => JObj(map["message" := JStr(text.value)]);
    FailureFor(r.status, payload)
  }

  /** How `request` settles for a delivered response: 2xx classified as above,
      anything else always the structured `ApiError`. */
  function Classify(r: Response): (o: Outcome<Reply>)
    ensures IsOk(r.status) ==> o == ClassifySuccess(r)
    ensures !IsOk(r.status) ==> o.Threw? && o.error.ApiErr? && o.error.error.status == r.status
    ensures !IsOk(r.status) && r.parse.Malformed? ==> o.error.error.messages == [r.text]
  {
    if IsOk(r.status) then ClassifySuccess(r) else Threw(ClassifyFailure(r))
  }

  // ---------------------------------------------------------------------------
  // request

  datatype Method = Get | Post | Put | Delete

  /** The options of one `request` call (`RequestInit` plus `token` and `baseUrl`). */
  datatype RequestOptions = RequestOptions(
    verb: Method, headers: seq<(string, string)>, body: RequestBody,
    token: Option<string>, baseUrl: Option<string>)

  /** The options of a call to the catalogue API: no extra headers, the default base,
      and the session token. */
  function Authed(verb: Method, body: RequestBody, token: Option<string>): (o: RequestOptions)
    ensures o.verb == verb && o.body == body && o.token == token
    ensures o.headers == [] && o.baseUrl.None?
  {
    RequestOptions(verb, [], body, token, None)
  }

  /** The call handed to `fetch`; caching is always disabled (`cache: "no-store"`). */
  datatype FetchCall = FetchCall(url: string, verb: Method, headers: Headers, body: RequestBody)

  /** The outgoing call `request` builds. `env` is `NEXT_PUBLIC_API_BASE_URL`. */
  function PrepareRequest(path: string, opts: RequestOptions, env: Option<string>): (c: FetchCall)
    ensures c.verb == opts.verb && c.body == opts.body
    ensures StartsWith(path, "http") ==> c.url == path
    ensures !StartsWith(path, "http") ==> c.url == ResolveBase(opts.baseUrl, env) + path
    ensures AcceptKey in c.headers && c.headers[AcceptKey] == JsonMime
    ensures ContentTypeKey in c.headers <==>
      ContentTypeKey in HeadersFrom(opts.headers) || (BodyTruthy(opts.body) && !opts.body.FormBody?)
    ensures TruthyStr(opts.token) ==> AuthorizationKey in c.headers && c.headers[AuthorizationKey] == "Bearer " + opts.token.value
    ensures !TruthyStr(opts.token) ==>
      (AuthorizationKey in c.headers <==> AuthorizationKey in HeadersFrom(opts.headers))
  {
    FetchCall(ResolveUrl(path, opts.baseUrl, env), opts.verb,
              BuildHeaders(opts.headers, opts.body, opts.token), opts.body)
  }

  /** How `request` settles once `fetch` has done `transport`: a network failure
      propagates unchanged, a delivered response is classified. */
  function Settle(transport: Transport): (o: Outcome<Reply>)
    ensures transport.NetworkFailure? ==> o == Threw(JsError("TypeError", transport.message))
    ensures transport.Delivered? ==> o == Classify(transport.response)
    ensures transport.Delivered? && IsOk(transport.response.status) ==>
      o == ClassifySuccess(transport.response)
    ensures transport.Delivered? && !IsOk(transport.response.status) ==>
      o.Threw? && o.error.ApiErr? && o.error.error.status == transport.response.status
    ensures transport.Delivered? && IsOk(transport.response.status) && transport.response.status == 204 ==>
      o == Returned(NoContent)
  {
    match transport
    case NetworkFailure(m) => Threw(JsError("TypeError", m))
    case Delivered(r) => Classify(r)
  }
}
