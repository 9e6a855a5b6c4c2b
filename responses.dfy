/**
 * `Response` and its subtype constructors. Each constructor assigns the
 * fields and header entries once, so each is a function returning a value.
 */
module Responses {

  import opened Wrappers
  import opened Ints
  import opened Text
  import opened Headers

  /** How the body is produced (the `type` enum). */
  datatype BodyType = NONE | BODY | PATH | PIPE

  /**
   * The `status` line. `Status::string(code)` reads a table defined
   * elsewhere; `Reason(code)` stands for its result.
   */
  datatype StatusText = Unset | Reason(code: uint16)

  /**
   * A response. `code` is `None` where the source leaves the field
   * uninitialised (the default constructor).
   */
  datatype Response = Response(
    status: StatusText,
    headers: Headers,
    kind: BodyType,
    body: string,
    path: string,
    code: Option<uint16>)

  const CONTENT_LENGTH: string := "Content-Length"
  const CONTENT_TYPE: string := "Content-Type"

  const STATUS_OK: uint16 := 200
  const STATUS_TEMPORARY_REDIRECT: uint16 := 307
  const STATUS_UNAUTHORIZED: uint16 := 401
  const STATUS_METHOD_NOT_ALLOWED: uint16 := 405

  /** `Response()`: no body, no headers, no status, no code. */
  function Default(): (r: Response)
    ensures r.kind == NONE && r.headers == [] && r.status == Unset && r.code == None
    ensures r.body == "" && r.path == ""
  {
    Response(Unset, [], NONE, "", "", None)
  }

  /** `Response(code)`: no body, no headers, the status line of `code`. */
  function WithCode(code: uint16): (r: Response)
    ensures r.kind == NONE && r.headers == [] && r.body == ""
    ensures r.code == Some(code) && r.status == Reason(code)
  {
    Response(Reason(code), [], NONE, "", "", Some(code))
  }

  /** `Response(body, code)`: a BODY response whose only header is `Content-Length`, the body's size in decimal. */
  function WithBody(body: string, code: uint16): (r: Response)
    ensures r.kind == BODY && r.body == body
    ensures r.code == Some(code) && r.status == Reason(code)
    ensures |r.headers| == 1 && Get(r.headers, CONTENT_LENGTH) == Some(Decimal(|body|))
  {
    Response(Reason(code), Put([], CONTENT_LENGTH, Decimal(|body|)), BODY, body, "", Some(code))
  }

  /**
   * Whatever spelling a reader uses for the header name, the
   * `Content-Length` of a BODY response reads back as the body's length
   * (section 14.13 of RFC 2616).
   */
  lemma ContentLengthMatchesBody(body: string, code: uint16, name: string)
    requires EqualIgnoringCase(name, CONTENT_LENGTH)
    ensures var v := Get(WithBody(body, code).headers, name);
      v.Some? && (forall i :: 0 <= i < |v.value| ==> IsDigit(v.value[i])) && ParseDecimal(v.value) == |body|
  {
    GetPut([], CONTENT_LENGTH, Decimal(|body|), name);
    EqualIgnoringCaseIsEquivalence(name, CONTENT_LENGTH, name);
    DecimalRoundTrip(|body|);
  }

  /** The subtypes that only choose a status code, with or without a body. */
  datatype Subtype =
    | OK | Accepted | BadRequest | Forbidden | NotFound | NotAcceptable | Conflict
    | PreconditionFailed | UnsupportedMediaType | InternalServerError | NotImplemented
    | ServiceUnavailable

  /** The `Status::` constant each subtype passes on. */
  function CodeOf(t: Subtype): (code: uint16)
    ensures t == OK <==> code == STATUS_OK
    ensures 200 <= code < 600
  {
    match t
    case OK => 200
    case Accepted => 202
    case BadRequest => 400
    case Forbidden => 403
    case NotFound => 404
    case NotAcceptable => 406
    case Conflict => 409
    case PreconditionFailed => 412
    case UnsupportedMediaType => 415
    case InternalServerError => 500
    case NotImplemented => 501
    case ServiceUnavailable => 503
  }

  /** `OK()`, `Accepted()`, `NotFound()`, ...: the code alone. */
  function Plain(t: Subtype): (r: Response)
    ensures r.kind == NONE && r.headers == [] && r.code == Some(CodeOf(t))
  {
    WithCode(CodeOf(t))
  }

  /** `OK(body)`, `Accepted(body)`, `NotFound(body)`, ...: the code and a body. */
  function PlainWithBody(t: Subtype, body: string): (r: Response)
    ensures r.kind == BODY && r.body == body && r.code == Some(CodeOf(t))
    ensures |r.headers| == 1 && Get(r.headers, CONTENT_LENGTH) == Some(Decimal(|body|))
  {
    WithBody(body, CodeOf(t))
  }

  /** The text `OK(value, jsonp)` writes to its stream: the JSON, or `jsonp(` + JSON + `);`. */
  function JsonpText(printed: string, jsonp: Option<string>): string
  {
    if jsonp.Some? then jsonp.value + "(" + printed + ");" else printed
  }

  /**
   * `OK(value, jsonp)` as written: code 200, the `Content-Type` for JSON or
   * for a callback, `Content-Length` counted on the whole streamed text, and
   * the body rebuilt from that text's `data()`, so cut at its first NUL.
   */
  function OkJson(printed: string, jsonp: Option<string>): (r: Response)
    ensures r.kind == BODY && r.code == Some(STATUS_OK) && r.status == Reason(STATUS_OK)
    ensures r.body == UpToNul(JsonpText(printed, jsonp))
    ensures NulFree(JsonpText(printed, jsonp)) ==> r.body == JsonpText(printed, jsonp)
    ensures Get(r.headers, CONTENT_TYPE)
         == Some(if jsonp.Some? then "text/javascript" else "application/json")
    ensures Get(r.headers, CONTENT_LENGTH) == Some(Decimal(|JsonpText(printed, jsonp)|))
    ensures |r.headers| == 2
  {
    var text := JsonpText(printed, jsonp);
    var contentType := if jsonp.Some? then "text/javascript" else "application/json";
    var headers := Put(Put([], CONTENT_TYPE, contentType), CONTENT_LENGTH, Decimal(|text|));
    GetPut(Put([], CONTENT_TYPE, contentType), CONTENT_LENGTH, Decimal(|text|), CONTENT_LENGTH);
    EqualIgnoringCaseIsEquivalence(CONTENT_LENGTH, CONTENT_LENGTH, CONTENT_LENGTH);
    Response(Reason(STATUS_OK), headers, BODY, UpToNul(text), "", Some(STATUS_OK))
  }

  /** `Content-Length` of `OK(value, jsonp)` is the size of its body exactly when the streamed text holds no NUL. */
  lemma OkJsonLengthMatchesIffNulFree(printed: string, jsonp: Option<string>)
    ensures var r := OkJson(printed, jsonp);
      Get(r.headers, CONTENT_LENGTH) == Some(Decimal(|r.body|)) <==> NulFree(JsonpText(printed, jsonp))
  {
    var text := JsonpText(printed, jsonp);
    DecimalInjective(|text|, |UpToNul(text)|);
  }

  /** A callback name holding a NUL: the body keeps one character while `Content-Length` says eight. */
  lemma OkJsonNulInCallback()
    ensures OkJson("{}", Some("a\0b")).body == "a"
    ensures Get(OkJson("{}", Some("a\0b")).headers, CONTENT_LENGTH) == Some("8")
  {
    var text := JsonpText("{}", Some("a\0b"));
    assert text == "a\0b({});";
    assert UpToNul(text[1..]) == "";
    assert Decimal(8) == "8";
  }

  /**
   * `OK(value, jsonp)` with the body taken from the whole streamed text, as
   * `body = out.str()` would: the body is the text and `Content-Length` its size
   * for every callback name.
   */
  function OkJsonWholeBody(printed: string, jsonp: Option<string>): (r: Response)
    ensures r.kind == BODY && r.code == Some(STATUS_OK) && r.status == Reason(STATUS_OK)
    ensures jsonp.None? ==> r.body == printed
    ensures jsonp.Some? ==> r.body == jsonp.value + "(" + printed + ");"
    ensures Get(r.headers, CONTENT_TYPE)
         == Some(if jsonp.Some? then "text/javascript" else "application/json")
    ensures Get(r.headers, CONTENT_LENGTH) == Some(Decimal(|r.body|))
    ensures |r.headers| == 2
  {
    var r := OkJson(printed, jsonp);
    r.(body := JsonpText(printed, jsonp))
  }

  /** `TemporaryRedirect(url)`: code 307 and a `Location` header, nothing else. */
  function TemporaryRedirect(url: string): (r: Response)
    ensures r.kind == NONE && r.code == Some(STATUS_TEMPORARY_REDIRECT)
    ensures r.headers == [Header("Location", url)]
  {
    var base := WithCode(STATUS_TEMPORARY_REDIRECT);
    base.(headers := Put(base.headers, "Location", url))
  }

  /** `Unauthorized(challenges)`: code 401 and the challenges joined by ", " in `WWW-Authenticate`. */
  function Unauthorized(challenges: seq<string>): (r: Response)
    ensures r.kind == NONE && r.code == Some(STATUS_UNAUTHORIZED)
    ensures r.headers == [Header("WWW-Authenticate", Join(", ", challenges))]
  {
    var base := WithCode(STATUS_UNAUTHORIZED);
    base.(headers := Put(base.headers, "WWW-Authenticate", Join(", ", challenges)))
  }

  /** `Unauthorized(challenges, body)`: as above, with a body and its `Content-Length`. */
  function UnauthorizedWithBody(challenges: seq<string>, body: string): (r: Response)
    ensures r.kind == BODY && r.body == body && r.code == Some(STATUS_UNAUTHORIZED)
    ensures |r.headers| == 2
    ensures Get(r.headers, "WWW-Authenticate") == Some(Join(", ", challenges))
    ensures Get(r.headers, CONTENT_LENGTH) == Some(Decimal(|body|))
  {
    var base := WithBody(body, STATUS_UNAUTHORIZED);
    GetPut(base.headers, "WWW-Authenticate", Join(", ", challenges), "WWW-Authenticate");
    EqualIgnoringCaseIsEquivalence("WWW-Authenticate", "WWW-Authenticate", "WWW-Authenticate");
    base.(headers := Put(base.headers, "WWW-Authenticate", Join(", ", challenges)))
  }

  /** The single Basic challenge for `realm`. */
  function BasicChallenge(realm: string): string
  {
    "Basic realm=\"" + realm + "\""
  }

  /** `Unauthorized(realm)`: one challenge, `Basic realm="<realm>"`. */
  function UnauthorizedRealm(realm: string): (r: Response)
    ensures r.kind == NONE && r.code == Some(STATUS_UNAUTHORIZED)
    ensures r.headers == [Header("WWW-Authenticate", "Basic realm=\"" + realm + "\"")]
  {
    Unauthorized([BasicChallenge(realm)])
  }

  /** `Unauthorized(realm, body)`: one Basic challenge and a body. */
  function UnauthorizedRealmWithBody(realm: string, body: string): (r: Response)
    ensures r.kind == BODY && r.body == body && r.code == Some(STATUS_UNAUTHORIZED)
    ensures |r.headers| == 2
    ensures Get(r.headers, "WWW-Authenticate") == Some("Basic realm=\"" + realm + "\"")
    ensures Get(r.headers, CONTENT_LENGTH) == Some(Decimal(|body|))
  {
    UnauthorizedWithBody([BasicChallenge(realm)], body)
  }

  /** `MethodNotAllowed(allowed)`: code 405 and the `Allow` header that section 10.4.6 of RFC 2616 requires. */
  function MethodNotAllowed(allowed: seq<string>): (r: Response)
    ensures r.kind == NONE && r.code == Some(STATUS_METHOD_NOT_ALLOWED)
    ensures r.headers == [Header("Allow", Join(", ", allowed))]
  {
    var base := WithCode(STATUS_METHOD_NOT_ALLOWED);
    base.(headers := Put(base.headers, "Allow", Join(", ", allowed)))
  }

  /** `MethodNotAllowed(allowed, body)`: as above, with a body and its `Content-Length`. */
  function MethodNotAllowedWithBody(allowed: seq<string>, body: string): (r: Response)
    ensures r.kind == BODY && r.body == body && r.code == Some(STATUS_METHOD_NOT_ALLOWED)
    ensures |r.headers| == 2
    ensures Get(r.headers, "Allow") == Some(Join(", ", allowed))
    ensures Get(r.headers, CONTENT_LENGTH) == Some(Decimal(|body|))
  {
    var base := WithBody(body, STATUS_METHOD_NOT_ALLOWED);
    GetPut(base.headers, "Allow", Join(", ", allowed), "Allow");
    EqualIgnoringCaseIsEquivalence("Allow", "Allow", "Allow");
    base.(headers := Put(base.headers, "Allow", Join(", ", allowed)))
  }

  /** A client reading the `Allow` header of a 405 gets back exactly the allowed methods, none for an empty list. */
  lemma AllowListsMethods(allowed: seq<string>, body: Option<string>)
    requires forall i :: 0 <= i < |allowed| ==> allowed[i] != "" && NoComma(allowed[i])
    ensures var r: Response := if body.Some? then MethodNotAllowedWithBody(allowed, body.value) else MethodNotAllowed(allowed);
      Get(r.headers, "Allow").Some? && ListItems(Get(r.headers, "Allow").value) == allowed
  {
    ListItemsOfJoin(allowed);
  }
}
