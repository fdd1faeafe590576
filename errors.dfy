/** The central error handler: defaulting of the status fields, the development
    and production response formats, and the production remapping of database
    cast errors and token errors. */
module Errors {
  import opened Common

  /** The fields of an error object the handler reads (its `CustomError` shape).
      `path` and `value` are held as the strings a template literal turns them into. */
  datatype ErrorRecord = ErrorRecord(
    name: string,
    message: string,
    stack: Option<string>,
    statusCode: Option<int>,
    status: Option<string>,
    isOperational: bool,
    path: Option<string>,
    value: Option<string>)

  /** A JSON response body; an absent field is a key JSON leaves out. */
  datatype Body = Body(status: Option<string>, error: Option<ErrorRecord>, message: Option<string>, stack: Option<string>)

  /** A status line and body handed to `res.status(..).json(..)`. */
  datatype Sent = Sent(code: int, body: Body)

  /** What the handler does to the response: the content-type header it sets, and what it sends, if anything. */
  datatype HttpResponse = HttpResponse(contentType: string, sent: Option<Sent>)

  const JSON_CONTENT_TYPE := "application/json"
  const DEVELOPMENT := "development"
  const PRODUCTION := "production"
  const CAST_ERROR := "CastError"
  const JWT_ERROR := "JsonWebTokenError"
  const TOKEN_EXPIRED_ERROR := "TokenExpiredError"
  const INVALID_TOKEN_MESSAGE := "Invalid token. Please log in again!"
  const GENERIC_MESSAGE := "Something went very wrong!"

  /** The `status` text an application error carries: "fail" for a 4xx code, "error" otherwise. */
  function StatusText(statusCode: int): (s: string)
    ensures s == "fail" <==> 400 <= statusCode < 500
    ensures s == "fail" || s == "error"
  {
    if 400 <= statusCode < 500 then "fail" else "error"
  }

  /** `new AppError(message, statusCode)`: an operational error with that message and code. */
  function AppError(message: string, statusCode: int): (e: ErrorRecord)
    ensures e.isOperational && e.message == message && e.statusCode == Some(statusCode)
    ensures e.name != CAST_ERROR && e.name != JWT_ERROR && e.name != TOKEN_EXPIRED_ERROR
  {
    ErrorRecord("Error", message, None, Some(statusCode), Some(StatusText(statusCode)), true, None, None)
  }

  /** How a template literal renders a possibly undefined field. */
  function TemplateString(o: Option<string>): string {
    match o
    case None => "undefined"
    case Some(s) => s
  }

  /** `handleCastErrorDB`: an operational 400 error whose message names the offending path and value. */
  function HandleCastErrorDB(err: ErrorRecord): (e: ErrorRecord)
    ensures e.isOperational && e.statusCode == Some(400) && e.status == Some("fail")
    ensures e.message == "Invalid " + TemplateString(err.path) + ": " + TemplateString(err.value) + "."
  {
    AppError("Invalid " + TemplateString(err.path) + ": " + TemplateString(err.value) + ".", 400)
  }

  /** `handleJWTError`: the one operational 401 error, whatever the token error was. */
  function HandleJWTError(): (e: ErrorRecord)
    ensures e.isOperational && e.statusCode == Some(401) && e.status == Some("fail")
    ensures e.message == INVALID_TOKEN_MESSAGE
  {
    AppError(INVALID_TOKEN_MESSAGE, 401)
  }

  /** `statusCode || 500`: a missing or zero code becomes 500. */
  function DefaultCode(code: Option<int>): (c: int)
    ensures c != 0
    ensures code.Some? && code.value != 0 ==> c == code.value
    ensures code.None? || code.value == 0 ==> c == 500
  {
    if code.Some? && code.value != 0 then code.value else 500
  }

  /** `status || 'error'`: a missing or empty status becomes "error". */
  function DefaultStatus(status: Option<string>): (s: string)
    ensures s != ""
    ensures Truthy(status) ==> s == status.value
    ensures !Truthy(status) ==> s == "error"
  {
    if Truthy(status) then status.value else "error"
  }

  /** The error after the handler's two in-place assignments: status code and status are
      defaulted, values already present are kept, and nothing else changes. */
  function WithDefaults(err: ErrorRecord): (d: ErrorRecord)
    ensures d.statusCode.Some? && d.statusCode.value != 0
    ensures err.statusCode.Some? && err.statusCode.value != 0 ==> d.statusCode == err.statusCode
    ensures err.statusCode.None? || err.statusCode.value == 0 ==> d.statusCode == Some(500)
    ensures Truthy(err.status) ==> d.status == err.status
    ensures !Truthy(err.status) ==> d.status == Some("error")
    ensures d == err.(statusCode := d.statusCode, status := d.status)
  {
    err.(statusCode := Some(DefaultCode(err.statusCode)), status := Some(DefaultStatus(err.status)))
  }

  /** `sendErrorDev`: the error's own code, and its status, the error itself, its message and its stack. */
  function SendErrorDev(err: ErrorRecord): (s: Sent)
    ensures s.code != 0 && (err.statusCode.Some? && err.statusCode.value != 0 ==> s.code == err.statusCode.value)
    ensures s.body.error == Some(err) && s.body.stack == err.stack
    ensures s.body.status == err.status && s.body.message == Some(err.message)
  {
    Sent(DefaultCode(err.statusCode), Body(err.status, Some(err), Some(err.message), err.stack))
  }

  /** `sendErrorProd`: an operational error is sent with its code, status and message only;
      any other error becomes a generic 500. */
  function SendErrorProd(err: ErrorRecord): (s: Sent)
    ensures s.body.error.None? && s.body.stack.None?
    ensures !err.isOperational ==> s == Sent(500, Body(Some("error"), None, Some(GENERIC_MESSAGE), None))
  {
    if err.isOperational then
      Sent(DefaultCode(err.statusCode), Body(err.status, None, Some(err.message), None))
    else
      Sent(500, Body(Some("error"), None, Some(GENERIC_MESSAGE), None))
  }

  predicate IsTokenErrorName(name: string) {
    name == JWT_ERROR || name == TOKEN_EXPIRED_ERROR
  }

  predicate IsRemappedName(name: string) {
    name == CAST_ERROR || IsTokenErrorName(name)
  }

  /** The three `if` statements of production mode, run one after the other on the copy of the error. */
  function Remap(err: ErrorRecord): (r: ErrorRecord)
    ensures err.name == CAST_ERROR ==> r == HandleCastErrorDB(err)
    ensures IsTokenErrorName(err.name) ==> r == HandleJWTError()
    ensures !IsRemappedName(err.name) ==> r == err
    ensures !IsRemappedName(r.name)
  {
    var e1 := if err.name == CAST_ERROR then HandleCastErrorDB(err) else err;
    var e2 := if e1.name == JWT_ERROR then HandleJWTError() else e1;
    if e2.name == TOKEN_EXPIRED_ERROR then HandleJWTError() else e2
  }

  /** What the handler does with `err` when `NODE_ENV` is `mode`. The content type is always JSON;
      something is sent exactly in development and production mode; production bodies never carry
      the error object or its stack; a sent status is never zero. */
  function ErrorResponse(mode: Option<string>, err: ErrorRecord): (r: HttpResponse)
    ensures r.contentType == JSON_CONTENT_TYPE
    ensures r.sent.Some? <==> mode == Some(DEVELOPMENT) || mode == Some(PRODUCTION)
    ensures mode == Some(PRODUCTION) ==> r.sent.value.body.error.None? && r.sent.value.body.stack.None?
    ensures r.sent.Some? ==> r.sent.value.code != 0
  {
    var d := WithDefaults(err);
    HttpResponse(JSON_CONTENT_TYPE,
      if mode == Some(DEVELOPMENT) then Some(SendErrorDev(d))
      else if mode == Some(PRODUCTION) then Some(SendErrorProd(Remap(d)))
      else None)
  }

  /** In development the status is the defaulted code and the body holds the defaulted status,
      the error, its message and its stack. */
  lemma DevelopmentSendsEverything(err: ErrorRecord)
    ensures ErrorResponse(Some(DEVELOPMENT), err).sent
         == Some(Sent(DefaultCode(err.statusCode),
                      Body(Some(DefaultStatus(err.status)), Some(WithDefaults(err)), Some(err.message), err.stack)))
  {
  }

  /** In production a cast error becomes a 400 whose message names the path and value. */
  lemma ProductionCastError(err: ErrorRecord)
    requires err.name == CAST_ERROR
    ensures ErrorResponse(Some(PRODUCTION), err).sent
         == Some(Sent(400, Body(Some("fail"), None,
                                Some("Invalid " + TemplateString(err.path) + ": " + TemplateString(err.value) + "."), None)))
  {
  }

  /** In production both token errors give one and the same 401 response, whatever else they hold. */
  lemma ProductionTokenErrors(e1: ErrorRecord, e2: ErrorRecord)
    requires IsTokenErrorName(e1.name) && IsTokenErrorName(e2.name)
    ensures ErrorResponse(Some(PRODUCTION), e1) == ErrorResponse(Some(PRODUCTION), e2)
    ensures ErrorResponse(Some(PRODUCTION), e1).sent
         == Some(Sent(401, Body(Some("fail"), None, Some(INVALID_TOKEN_MESSAGE), None)))
  {
  }

  /** In production an operational error that is not remapped is sent with its own (defaulted)
      code, status and message, and nothing more. */
  lemma ProductionOperational(err: ErrorRecord)
    requires !IsRemappedName(err.name) && err.isOperational
    ensures ErrorResponse(Some(PRODUCTION), err).sent
         == Some(Sent(DefaultCode(err.statusCode), Body(Some(DefaultStatus(err.status)), None, Some(err.message), None)))
  {
  }

  /** In production every non-operational error that is not remapped gives the same generic 500,
      whatever its code and message. */
  lemma ProductionNonOperational(err: ErrorRecord)
    requires !IsRemappedName(err.name) && !err.isOperational
    ensures ErrorResponse(Some(PRODUCTION), err).sent
         == Some(Sent(500, Body(Some("error"), None, Some(GENERIC_MESSAGE), None)))
  {
  }

  /** With any other `NODE_ENV` only the content-type header is set. */
  lemma OtherModesSendNothing(mode: Option<string>, err: ErrorRecord)
    requires mode != Some(DEVELOPMENT) && mode != Some(PRODUCTION)
    ensures ErrorResponse(mode, err) == HttpResponse(JSON_CONTENT_TYPE, None)
  {
  }

  /** The errors the controllers raise reach a production client verbatim: their code, their
      status text and their message. */
  lemma ProductionAppError(message: string, statusCode: int)
    requires statusCode != 0
    ensures ErrorResponse(Some(PRODUCTION), AppError(message, statusCode)).sent
         == Some(Sent(statusCode, Body(Some(StatusText(statusCode)), None, Some(message), None)))
  {
  }

  /** An error object the handler updates in place. Its fields are the error's own fields;
      `Fields()` is the plain copy that `{ ...err }` makes. */
  class CustomError {
    var name: string
    var message: string
    var stack: Option<string>
    var statusCode: Option<int>
    var status: Option<string>
    var isOperational: bool
    var path: Option<string>
    var value: Option<string>

    constructor (e: ErrorRecord)
      ensures Fields() == e
    {
      name, message, stack := e.name, e.message, e.stack;
      statusCode, status, isOperational := e.statusCode, e.status, e.isOperational;
      path, value := e.path, e.value;
    }

    function Fields(): ErrorRecord
      reads this
    {
      ErrorRecord(name, message, stack, statusCode, status, isOperational, path, value)
    }
  }

  /** `errorController`: defaults the error's status code and status in place, then builds the
      response for the mode, remapping a copy of the error step by step in production. */
  method ErrorController(err: CustomError, nodeEnv: Option<string>) returns (res: HttpResponse)
    modifies err
    ensures err.Fields() == WithDefaults(old(err.Fields()))
    ensures res == ErrorResponse(nodeEnv, old(err.Fields()))
  {
    err.statusCode := if err.statusCode.Some? && err.statusCode.value != 0 then err.statusCode else Some(500);
    err.status := if Truthy(err.status) then err.status else Some("error");
    var sent: Option<Sent> := None;
    if nodeEnv == Some(DEVELOPMENT) {
      sent := Some(SendErrorDev(err.Fields()));
    } else if nodeEnv == Some(PRODUCTION) {
      var error := err.Fields();
      if error.name == CAST_ERROR {
        error := HandleCastErrorDB(error);
      }
      if error.name == JWT_ERROR {
        error := HandleJWTError();
      }
      if error.name == TOKEN_EXPIRED_ERROR {
        error := HandleJWTError();
      }
      sent := Some(SendErrorProd(error));
    }
    res := HttpResponse(JSON_CONTENT_TYPE, sent);
  }
}
