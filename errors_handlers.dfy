/**
 * The translator from errors to JSON responses: `generic_error_handler`
 * turns an error into a status and a four-field body whose title comes from
 * a fixed six-entry table, and two fallback handlers answer with a fixed
 * 500 body and a fixed 404 body whatever they are given.
 *
 * No handler reads the request. The `await`s of the source are only the
 * framework's calling convention, so every handler is a function here.
 */
module ErrorsHandlers {
  import opened Wrappers
  import opened Errors

  /** The incoming HTTP request handed to every handler. */
  datatype Request = Request(verb: string, path: string)

  /** What a handler can be given: one of the typed errors, an HTTP error raised by the framework, or any other exception. */
  datatype RaisedError =
    | Typed(err: AppError)
    | HttpException(status: int, detail: string)
    | OtherException(text: string)

  /** The `ErrorResponse` model: four declared fields, all required. */
  datatype ErrorResponse = ErrorResponse(status: int, detail: string, code: string, title: string)

  /** A JSON value of the kinds an `ErrorResponse` dumps to. */
  datatype JsonValue = JsonInt(n: int) | JsonString(s: string)

  /** A `JSONResponse`: the HTTP status and the JSON object sent as body. */
  datatype JsonResponse = JsonResponse(statusCode: int, content: map<string, JsonValue>)

  /** Why a handler raised instead of answering. */
  datatype HandlerError =
    | ValidationError(field: string)  // the model rejected the value given for `field`
    | AttributeError(name: string)    // the error object has no attribute `name`

  /** The names of the body's fields. */
  const BodyFields: set<string> := {"status", "detail", "code", "title"}

  /** The title table of `generic_error_handler`; the 401 entry has no colon. */
  const Titles: map<int, string> := map[
    400 := "400: Bad Request",
    401 := "401 Unauthorized",
    403 := "403: Forbidden",
    404 := "404: Not Found",
    405 := "405: Method Not Allowed",
    500 := "500: Internal Server Error"
  ]

  /** `titles.get(status_code)`: `None` for a status outside the table. */
  function TitleOf(status: int): (t: Option<string>)
    ensures t.Some? <==> status in {400, 401, 403, 404, 405, 500}
    ensures t.Some? ==> t.value == Titles[status]
  {
    if status in Titles then Some(Titles[status]) else None
  }

  /** The decimal digit `d` as a character. */
  function DigitChar(d: int): char
    requires 0 <= d < 10
  {
    (d + '0' as int) as char
  }

  /** The three-digit decimal text of an HTTP status code. */
  function StatusText(status: int): (s: string)
    requires 100 <= status < 1000
    ensures |s| == 3 && forall i :: 0 <= i < 3 ==> '0' <= s[i] <= '9'
  {
    [DigitChar(status / 100), DigitChar(status / 10 % 10), DigitChar(status % 10)]
  }

  /**
   * Every title names its own status: it opens with the status's three
   * digits, and after them comes a colon for every status except 401.
   */
  lemma TitlesNameTheirStatus(status: int)
    requires status in Titles
    ensures 100 <= status < 1000 && |Titles[status]| > 4
    ensures Titles[status][..3] == StatusText(status)
    ensures Titles[status][3] == ':' <==> status != 401
  {
    assert status in {400, 401, 403, 404, 405, 500};
    var t := Titles[status];
    if status == 400 {
      assert t == "400: Bad Request" && StatusText(400) == "400";
    } else if status == 401 {
      assert t == "401 Unauthorized" && StatusText(401) == "401";
    } else if status == 403 {
      assert t == "403: Forbidden" && StatusText(403) == "403";
    } else if status == 404 {
      assert t == "404: Not Found" && StatusText(404) == "404";
    } else if status == 405 {
      assert t == "405: Method Not Allowed" && StatusText(405) == "405";
    } else {
      assert t == "500: Internal Server Error" && StatusText(500) == "500";
    }
  }

  /** `ErrorResponse(status=…, code=…, detail=…, title=…)`: a missing title fails validation. */
  function NewErrorResponse(status: int, code: string, detail: string, title: Option<string>): (r: Result<ErrorResponse, HandlerError>)
    ensures r.Ok? <==> title.Some?
    ensures r.Err? ==> r.error == ValidationError("title")
    ensures r.Ok? ==> r.value.status == status && r.value.code == code && r.value.detail == detail && r.value.title == title.value
  {
    match title
    case None => Err(ValidationError("title"))
    case Some(t) => Ok(ErrorResponse(status, detail, code, t))
  }

  /** `error.model_dump()`: a JSON object with one entry per declared field. */
  function ModelDump(body: ErrorResponse): (content: map<string, JsonValue>)
    ensures content.Keys == BodyFields
  {
    map[
      "status" := JsonInt(body.status),
      "detail" := JsonString(body.detail),
      "code" := JsonString(body.code),
      "title" := JsonString(body.title)
    ]
  }

  /**
   * What a client reads back from a JSON error body: an `ErrorResponse` when
   * the object has exactly the four fields with values of the right kinds.
   */
  function ParseBody(content: map<string, JsonValue>): Option<ErrorResponse>
  {
    if && content.Keys == BodyFields
       && content["status"].JsonInt? && content["detail"].JsonString?
       && content["code"].JsonString? && content["title"].JsonString?
    then Some(ErrorResponse(content["status"].n, content["detail"].s, content["code"].s, content["title"].s))
    else None
  }

  /** Dumping a body loses nothing: a client parses back exactly the body that was dumped. */
  lemma ModelDumpRoundTrip(body: ErrorResponse)
    ensures ParseBody(ModelDump(body)) == Some(body)
  {
  }

  /**
   * `generic_error_handler`: answers with the error's own status, and with a
   * body carrying that status, the error's code and message unchanged, and the
   * status's title; for a status outside the title table it raises instead.
   */
  function GenericErrorHandler(request: Request, err: AppError): (r: Result<JsonResponse, HandlerError>)
    ensures r.Ok? <==> err.statusCode in Titles
    ensures r.Err? ==> r.error == ValidationError("title")
    ensures r.Ok? ==> r.value.statusCode == err.statusCode && r.value.content.Keys == BodyFields
    ensures r.Ok? ==> ParseBody(r.value.content) == Some(ErrorResponse(err.statusCode, err.message, err.codeError, Titles[err.statusCode]))
  {
    var statusCode := err.statusCode;
    var title := TitleOf(statusCode);
    match NewErrorResponse(statusCode, err.codeError, err.message, title)
    case Err(e) => Err(e)
    case Ok(error) =>
      var content := ModelDump(error);
      ModelDumpRoundTrip(error);
      Ok(JsonResponse(statusCode, content))
  }

  /** The fixed body fields of `internal_server_error_handler`. */
  const InternalErrorDetail: string := "An error has ocourred, contact the suport."
  const InternalErrorCode: string := "INTERNAL_SERVER_ERROR"

  /** The fixed body fields of `not_found_handler`. */
  const UrlNotFoundDetail: string := "Url not found."
  const UrlNotFoundCode: string := "URL_NOT_FOUND"

  /**
   * `internal_server_error_handler`: whatever it is given, answers 500 with
   * the fixed internal-error body, so no exception text reaches the caller.
   */
  function InternalServerErrorHandler(request: Request, err: RaisedError): (r: Result<JsonResponse, HandlerError>)
    ensures r.Ok? && r.value.statusCode == 500
    ensures ParseBody(r.value.content)
         == Some(ErrorResponse(500, "An error has ocourred, contact the suport.", "INTERNAL_SERVER_ERROR", "500: Internal Server Error"))
  {
    var excClass := NewGenericError(InternalErrorDetail, InternalErrorCode, 500);
    GenericErrorHandler(request, excClass)
  }

  /** `not_found_handler`: whatever it is given, answers 404 with the fixed URL-not-found body. */
  function NotFoundHandler(request: Request, err: RaisedError): (r: Result<JsonResponse, HandlerError>)
    ensures r.Ok? && r.value.statusCode == 404
    ensures ParseBody(r.value.content)
         == Some(ErrorResponse(404, "Url not found.", "URL_NOT_FOUND", "404: Not Found"))
  {
    var excClass := NewGenericError(UrlNotFoundDetail, UrlNotFoundCode, 404);
    GenericErrorHandler(request, excClass)
  }

  /** Every error a subclass constructor builds is answered: its fixed status is in the title table. */
  lemma TypedErrorsAreAnswered(request: Request, e: AppError)
    requires e.Valid() && e.kind != GenericErrorClass
    ensures GenericErrorHandler(request, e).Ok?
    ensures GenericErrorHandler(request, e).value.statusCode == e.kind.FixedStatus().value
  {
  }

  /** An example of the failing path: a `GenericError` built with status 418, which the title table lacks, makes the handler raise. */
  lemma UntitledStatusRaises(request: Request, message: string, codeError: string)
    ensures GenericErrorHandler(request, NewGenericError(message, codeError, 418)) == Err(ValidationError("title"))
  {
  }

  /** The handlers never read the request: their answers depend on the error alone. */
  lemma HandlersIgnoreRequest(r1: Request, r2: Request, e: AppError, x: RaisedError)
    ensures GenericErrorHandler(r1, e) == GenericErrorHandler(r2, e)
    ensures InternalServerErrorHandler(r1, x) == InternalServerErrorHandler(r2, x)
    ensures NotFoundHandler(r1, x) == NotFoundHandler(r2, x)
  {
  }

  /** The fallback handlers never read the error either: any two errors get the same answer. */
  lemma FallbacksIgnoreError(request: Request, x1: RaisedError, x2: RaisedError)
    ensures InternalServerErrorHandler(request, x1) == InternalServerErrorHandler(request, x2)
    ensures NotFoundHandler(request, x1) == NotFoundHandler(request, x2)
  {
  }
}
