/** The application's error taxonomy: `AppError` and its five subclasses, each
    fixing an HTTP status code from section 15 of RFC 9110 and a default
    message; plus the plain `Error` and Zod's `ZodError`, which the handlers
    tell apart from `AppError` with `instanceof`. */
module Errors {
  import opened Js
  import opened Zod

  /** The five subclasses of `AppError`. */
  datatype Subclass = NotFound | BadRequest | Unauthorized | Forbidden | InternalServer

  /** The constructor that built an error object; `instanceof` tests read it. */
  datatype ErrorClass = PlainError | AppErrorBase | AppErrorSub(sub: Subclass) | ZodErrorClass

  /** The status code a subclass passes to `AppError`: one of the client-error
      codes of section 15.5 of RFC 9110, or 500 from section 15.6 for the
      internal server error, which is the only server-error subclass. */
  function StatusCodeOf(sub: Subclass): (code: int)
    ensures 400 <= code <= 599
    ensures (500 <= code) == (sub == InternalServer)
  {
    match sub
    case NotFound => 404
    case BadRequest => 400
    case Unauthorized => 401
    case Forbidden => 403
    case InternalServer => 500
  }

  /** The message a subclass uses when it is constructed without one. */
  function DefaultMessageOf(sub: Subclass): string
  {
    match sub
    case NotFound => "Ресурс не найден"
    case BadRequest => "Неверный запрос"
    case Unauthorized => "Не авторизован"
    case Forbidden => "Доступ запрещен"
    case InternalServer => "Внутренняя ошибка сервера"
  }

  /** Different subclasses answer with different status codes, so a status
      code names its subclass. */
  lemma {:induction false} StatusCodeNamesSubclass(a: Subclass, b: Subclass)
    requires StatusCodeOf(a) == StatusCodeOf(b)
    ensures a == b
  {
    match a
    case NotFound => assert b == NotFound;
    case BadRequest => assert b == BadRequest;
    case Unauthorized => assert b == Unauthorized;
    case Forbidden => assert b == Forbidden;
    case InternalServer => assert b == InternalServer;
  }

  /** A JavaScript `Error` instance. `statusCode` and `isOperational` belong to
      `AppError` instances; on the other classes they are absent, which the
      model writes as 0 and false. `issues` is a ZodError's `errors` list. */
  class ErrorObject {
    const cls: ErrorClass
    const issues: seq<Issue>
    var message: string
    var stack: string
    var statusCode: int
    var isOperational: bool

    /** `new Error(message)`; the stack text is whatever the runtime captures. */
    constructor Plain(message: string, stack: string)
      ensures cls == PlainError && issues == []
      ensures this.message == message && this.stack == stack
      ensures statusCode == 0 && !isOperational
    {
      cls := PlainError;
      issues := [];
      this.message := message;
      this.stack := stack;
      statusCode := 0;
      isOperational := false;
    }

    /** A `ZodError` thrown by `schema.parse`, carrying its issues. */
    constructor Zod(issues: seq<Issue>, message: string, stack: string)
      ensures cls == ZodErrorClass && this.issues == issues
      ensures this.message == message && this.stack == stack
      ensures statusCode == 0 && !isOperational
    {
      cls := ZodErrorClass;
      this.issues := issues;
      this.message := message;
      this.stack := stack;
      statusCode := 0;
      isOperational := false;
    }

    /** `new AppError(message, statusCode)`: keeps the code it is given and
        marks the error operational. */
    constructor App(message: string, statusCode: int, stack: string)
      ensures cls == AppErrorBase && issues == []
      ensures this.message == message && this.stack == stack
      ensures this.statusCode == statusCode && isOperational
    {
      cls := AppErrorBase;
      issues := [];
      this.message := message;
      this.stack := stack;
      this.statusCode := statusCode;
      isOperational := true;
    }

    /** `new NotFoundError(message?)`. */
    constructor NotFoundError(message: Option<string>, stack: string)
      ensures cls == AppErrorSub(NotFound) && issues == []
      ensures this.message == message.GetOr("Ресурс не найден") && this.stack == stack
      ensures statusCode == 404 && isOperational
    {
      cls := AppErrorSub(NotFound);
      issues := [];
      this.message := message.GetOr(DefaultMessageOf(NotFound));
      this.stack := stack;
      statusCode := StatusCodeOf(NotFound);
      isOperational := true;
    }

    /** `new BadRequestError(message?)`. */
    constructor BadRequestError(message: Option<string>, stack: string)
      ensures cls == AppErrorSub(BadRequest) && issues == []
      ensures this.message == message.GetOr("Неверный запрос") && this.stack == stack
      ensures statusCode == 400 && isOperational
    {
      cls := AppErrorSub(BadRequest);
      issues := [];
      this.message := message.GetOr(DefaultMessageOf(BadRequest));
      this.stack := stack;
      statusCode := StatusCodeOf(BadRequest);
      isOperational := true;
    }

    /** `new UnauthorizedError(message?)`. */
    constructor UnauthorizedError(message: Option<string>, stack: string)
      ensures cls == AppErrorSub(Unauthorized) && issues == []
      ensures this.message == message.GetOr("Не авторизован") && this.stack == stack
      ensures statusCode == 401 && isOperational
    {
      cls := AppErrorSub(Unauthorized);
      issues := [];
      this.message := message.GetOr(DefaultMessageOf(Unauthorized));
      this.stack := stack;
      statusCode := StatusCodeOf(Unauthorized);
      isOperational := true;
    }

    /** `new ForbiddenError(message?)`. */
    constructor ForbiddenError(message: Option<string>, stack: string)
      ensures cls == AppErrorSub(Forbidden) && issues == []
      ensures this.message == message.GetOr("Доступ запрещен") && this.stack == stack
      ensures statusCode == 403 && isOperational
    {
      cls := AppErrorSub(Forbidden);
      issues := [];
      this.message := message.GetOr(DefaultMessageOf(Forbidden));
      this.stack := stack;
      statusCode := StatusCodeOf(Forbidden);
      isOperational := true;
    }

    /** `new InternalServerError(message?)`. */
    constructor InternalServerError(message: Option<string>, stack: string)
      ensures cls == AppErrorSub(InternalServer) && issues == []
      ensures this.message == message.GetOr("Внутренняя ошибка сервера") && this.stack == stack
      ensures statusCode == 500 && isOperational
    {
      cls := AppErrorSub(InternalServer);
      issues := [];
      this.message := message.GetOr(DefaultMessageOf(InternalServer));
      this.stack := stack;
      statusCode := StatusCodeOf(InternalServer);
      isOperational := true;
    }
  }

  /** `err instanceof AppError`: true of the base class and all five subclasses. */
  predicate IsAppError(e: ErrorObject)
  {
    e.cls.AppErrorBase? || e.cls.AppErrorSub?
  }

  /** Any JavaScript value: what a `throw` can carry and what a log field can hold. */
  datatype AnyValue = ErrorRef(err: ErrorObject) | Plain(v: JsValue)

  /** How a middleware ends: it resolves, or it rejects with a value. */
  datatype Completion = Normal | Throw(thrown: AnyValue)

  function Objects(a: AnyValue): set<object>
  {
    if a.ErrorRef? then {a.err} else {}
  }

  /** `err instanceof Error ? err.message : String(err)`. */
  function MessageOf(a: AnyValue): (r: string)
    reads Objects(a)
    ensures a.ErrorRef? ==> r == a.err.message
    ensures a.Plain? ==> r == StringOf(a)
  {
    match a
    case ErrorRef(e) => e.message
    case Plain(v) => ToJsString(v)
  }

  /** `String(v)`. An error prints as `Error.prototype.toString` does: its
      `name`, then `": "` and the message when the message is not empty, so
      it never prints empty and always ends with its message. None of the
      application's classes sets `name`; of the other error classes only
      `ZodError` is told apart here, and every other error prints under the
      name "Error". */
  function StringOf(a: AnyValue): (r: string)
    reads Objects(a)
    ensures a.ErrorRef? ==> r != ""
    ensures a.ErrorRef? ==> |r| >= |a.err.message| && r[|r| - |a.err.message|..] == a.err.message
  {
    match a
    case ErrorRef(e) =>
      var name := if e.cls == ZodErrorClass then "ZodError" else "Error";
      if e.message == "" then name else name + ": " + e.message
    case Plain(v) => ToJsString(v)
  }

  /** Truthiness of any value: every object, errors included, is truthy. */
  predicate IsTruthy(a: AnyValue)
  {
    a.ErrorRef? || Truthy(a.v)
  }
}
