/** The global exception filter: the status, error code and message of the
    JSON error body for anything a request handler throws. Writing the
    response is not modelled. */
module ExceptionsFilter {
  import opened Common

  /** The JavaScript values the filter inspects. */
  datatype JsVal =
    | Undefined
    | Null
    | Str(s: string)
    | Num(n: int)
    | Bool(b: bool)
    | Arr(items: seq<JsVal>)
    | Obj(fields: map<string, JsVal>)

  predicate JsTruthy(v: JsVal) {
    match v
    case Undefined => false
    case Null => false
    case Str(s) => s != ""
    case Num(n) => n != 0
    case Bool(b) => b
    case Arr(_) => true
    case Obj(_) => true
  }

  /** What an HTTP exception's getResponse() yields: a string or an object. */
  datatype HttpBody = Text(text: string) | Record(fields: map<string, JsVal>)

  /** A thrown value: an HTTP exception (status, response body, its `code`
      property and its class name), or anything else (its `code`
      property and its constructor's name, Undefined for a nullish value). */
  datatype Thrown =
    | HttpException(status: int, response: HttpBody, code: JsVal, className: string)
    | OtherThrown(code: JsVal, ctorName: JsVal)

  datatype ErrorResponse = ErrorResponse(status: int, success: bool, code: JsVal, message: JsVal)

  const BAD_REQUEST: int := 400
  const UNPROCESSABLE_ENTITY: int := 422
  const INTERNAL_SERVER_ERROR: int := 500

  /** The `message` property of a response object. */
  function MessageField(body: HttpBody): JsVal {
    match body
    case Text(_) => Undefined
    case Record(fields) => if "message" in fields then fields["message"] else Undefined
  }

  /** The response status: an HTTP exception's own status, 500 for anything
      else, and 422 in place of 400 when the response object has a truthy
      message. */
  function StatusOf(e: Thrown): (status: int)
    ensures e.OtherThrown? ==> status == INTERNAL_SERVER_ERROR
    ensures e.HttpException? && e.status != BAD_REQUEST ==> status == e.status
    ensures e.HttpException? && e.status == BAD_REQUEST ==>
              (status == UNPROCESSABLE_ENTITY <==> e.response.Record? && JsTruthy(MessageField(e.response)))
    ensures e.HttpException? && e.status == BAD_REQUEST ==> status in {BAD_REQUEST, UNPROCESSABLE_ENTITY}
  {
    var status := if e.HttpException? then e.status else INTERNAL_SERVER_ERROR;
    var message: HttpBody := if e.HttpException? then e.response else Text("Internal server error");
    if status == BAD_REQUEST && message.Record? && JsTruthy(MessageField(message)) then UNPROCESSABLE_ENTITY
    else status
  }

  /** The error code: the thrown value's truthy `code`, else its constructor
      name, else "Error". */
  function CodeOf(e: Thrown): (code: JsVal)
    ensures JsTruthy(code)
    ensures JsTruthy(e.code) ==> code == e.code
    ensures !JsTruthy(e.code) && e.HttpException? && e.className != "" ==> code == Str(e.className)
    ensures !JsTruthy(e.code) && e.OtherThrown? && JsTruthy(e.ctorName) ==> code == e.ctorName
    ensures !JsTruthy(e.code) && (if e.HttpException? then e.className == "" else !JsTruthy(e.ctorName))
            ==> code == Str("Error")
  {
    var ctor := if e.HttpException? then Str(e.className) else e.ctorName;
    if JsTruthy(e.code) then e.code
    else if JsTruthy(ctor) then ctor
    else Str("Error")
  }

  /** The error message: a string response as it is; otherwise the object's
      truthy `message`, else the whole object. Anything that is not an HTTP
      exception reads "Internal server error". */
  function MessageOf(e: Thrown): (m: JsVal)
    ensures e.OtherThrown? ==> m == Str("Internal server error")
    ensures e.HttpException? && e.response.Text? ==> m == Str(e.response.text)
    ensures e.HttpException? && e.response.Record? ==>
              m == (if JsTruthy(MessageField(e.response)) then MessageField(e.response) else Obj(e.response.fields))
  {
    var message: HttpBody := if e.HttpException? then e.response else Text("Internal server error");
    match message
    case Text(s) => Str(s)
    case Record(fields) => if JsTruthy(MessageField(message)) then MessageField(message) else Obj(fields)
  }

  /** The status and body the filter sends for a thrown value. */
  function Catch(e: Thrown): (r: ErrorResponse)
    ensures !r.success
    ensures r.status == StatusOf(e) && r.code == CodeOf(e) && r.message == MessageOf(e)
  {
    ErrorResponse(StatusOf(e), false, CodeOf(e), MessageOf(e))
  }

  /** The exception object the web framework builds for a service error
      (its built-in exception classes put statusCode, message and error into
      the response), or the plain Error and store error thrown as they are. */
  function ThrownOf(err: Error): Thrown {
    match err
    case BadRequest(m) => FrameworkException(400, m, "Bad Request", "BadRequestException")
    case Unauthorized(m) => FrameworkException(401, m, "Unauthorized", "UnauthorizedException")
    case Forbidden(m) => FrameworkException(403, m, "Forbidden", "ForbiddenException")
    case NotFound(m) => FrameworkException(404, m, "Not Found", "NotFoundException")
    case Plain(_) => OtherThrown(Undefined, Str("Error"))
    case StoreError(c) => OtherThrown(Str(c), Str("PrismaClientKnownRequestError"))
  }

  /** A built-in exception with a message carries statusCode, message and
      error; one without a message carries the default description as its
      message instead. */
  function FrameworkException(status: int, message: string, error: string, ctorName: string): Thrown {
    var body := if message == "" then map["statusCode" := Num(status), "message" := Str(error)]
                else map["statusCode" := Num(status), "message" := Str(message), "error" := Str(error)];
    HttpException(status, Record(body), Undefined, ctorName)
  }

  /** How the service errors reach the client: every BadRequest, including
      "User already exists" and the payment checks, is sent as 422; the other
      HTTP errors keep their status; each reports its message, or the default
      description when it has none; a plain Error and a store error are 500s
      with the generic message. */
  lemma ServiceErrorResponses(err: Error)
    ensures err.BadRequest? ==> Catch(ThrownOf(err)).status == UNPROCESSABLE_ENTITY
    ensures err.Unauthorized? ==> Catch(ThrownOf(err)).status == 401
    ensures err.Forbidden? ==> Catch(ThrownOf(err)).status == 403
    ensures err.NotFound? ==> Catch(ThrownOf(err)).status == 404
    ensures (err.BadRequest? || err.Unauthorized? || err.Forbidden? || err.NotFound?) && err.msg != "" ==>
              Catch(ThrownOf(err)).message == Str(err.msg)
    ensures err.BadRequest? && err.msg == "" ==> Catch(ThrownOf(err)).message == Str("Bad Request")
    ensures err.Forbidden? && err.msg == "" ==> Catch(ThrownOf(err)).message == Str("Forbidden")
    ensures err.Plain? ==> Catch(ThrownOf(err)) == ErrorResponse(500, false, Str("Error"), Str("Internal server error"))
    ensures err.StoreError? && err.code != "" ==>
              Catch(ThrownOf(err)) == ErrorResponse(500, false, Str(err.code), Str("Internal server error"))
  {
  }
}
