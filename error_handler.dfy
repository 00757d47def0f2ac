/** The global error-to-response mapping (`errorHandler`) and the `catchAsync`
    wrapper that sends everything a route handler throws through it. */
module ErrorHandler {
  import opened Js
  import opened Errors
  import opened Logging

  /** The message an unexpected error shows in production. */
  const GenericMessage: string := "Что-то пошло не так"

  /** The reply to an operational error: its own status code, and a body of
      exactly `status` and `message`. */
  function OperationalReply(code: int, message: string): (r: Reply)
    ensures r.status == code
    ensures Keys(r.body) == ["status", "message"]
    ensures Lookup(r.body, "status") == Some(Str("error"))
    ensures Lookup(r.body, "message") == Some(Str(message))
  {
    var props := [("status", Str("error")), ("message", Str(message))];
    FindPairs(props, "status");
    FindPairs(props, "message");
    Reply(code, Obj(props))
  }

  /** The reply to any other error: status 500; in production the generic
      message and no `stack` key, otherwise the error's own message and stack. */
  function UnexpectedReply(message: string, stack: string, production: bool): (r: Reply)
    ensures r.status == 500
    ensures Keys(r.body) == if production then ["status", "message"] else ["status", "message", "stack"]
    ensures Lookup(r.body, "status") == Some(Str("error"))
    ensures Lookup(r.body, "message") == Some(Str(if production then GenericMessage else message))
    ensures Lookup(r.body, "stack") == if production then None else Some(Str(stack))
  {
    var shown := if production then GenericMessage else message;
    var detail := if !production then [("stack", Str(stack))] else [];
    var props := [("status", Str("error")), ("message", Str(shown))] + detail;
    FindPairs(props, "status");
    FindPairs(props, "message");
    FindPairs(props, "stack");
    Reply(500, Obj(props))
  }

  /** `errorHandler`'s reply: the dispatch is on `instanceof AppError`, never on
      the status code or the message. */
  function ErrorReply(err: ErrorObject, production: bool): (r: Reply)
    reads err
    ensures IsAppError(err) ==> r == OperationalReply(err.statusCode, err.message)
    ensures !IsAppError(err) ==> r == UnexpectedReply(err.message, err.stack, production)
  {
    if IsAppError(err) then OperationalReply(err.statusCode, err.message)
    else UnexpectedReply(err.message, err.stack, production)
  }

  /** The one entry `errorHandler` logs for an unexpected error. */
  function UnexpectedEntry(message: string, stack: string): (e: LogEntry)
    ensures e.level == ErrorLevel
  {
    LogEntry(ErrorLevel, "Непредвиденная ошибка: " + message, [("stack", Plain(Str(stack)))])
  }

  /** The one entry `errorHandler` logs: a warning for an operational error,
      an error for anything else. */
  function HandlerEntry(err: ErrorObject): (e: LogEntry)
    reads err
    ensures e.level == if IsAppError(err) then WarnLevel else ErrorLevel
  {
    if IsAppError(err) then
      LogEntry(WarnLevel, "Операционная ошибка: " + err.message,
               [("statusCode", Plain(Num(err.statusCode))), ("stack", Plain(Str(err.stack)))])
    else UnexpectedEntry(err.message, err.stack)
  }

  /** In production an unexpected error's reply does not depend on the error at
      all: neither its message nor its stack reaches the client. */
  lemma {:induction false} ProductionHidesUnexpected(m1: string, s1: string, m2: string, s2: string)
    ensures UnexpectedReply(m1, s1, true) == UnexpectedReply(m2, s2, true)
    ensures UnexpectedReply(m1, s1, true).body == Obj([("status", Str("error")), ("message", Str(GenericMessage))])
  {
  }

  /** An operational error is answered the same way in every mode. */
  lemma OperationalIgnoresMode(err: ErrorObject)
    requires IsAppError(err)
    ensures ErrorReply(err, true) == ErrorReply(err, false)
  {
  }

  /** For the five subclasses the reply status is the subclass's fixed code,
      whatever message the error carries. */
  lemma SubclassReplyStatus(err: ErrorObject, production: bool)
    requires err.cls.AppErrorSub? && err.statusCode == StatusCodeOf(err.cls.sub)
    ensures ErrorReply(err, production).status == StatusCodeOf(err.cls.sub)
    ensures Lookup(ErrorReply(err, production).body, "message") == Some(Str(err.message))
  {
  }

  /** `errorHandler(err, c)`: writes exactly one log entry and answers. */
  method HandleError(err: ErrorObject, production: bool, log: Logger) returns (r: Reply)
    modifies log
    ensures r == ErrorReply(err, production)
    ensures log.entries == old(log.entries) + [HandlerEntry(err)]
  {
    if IsAppError(err) {
      log.Write(WarnLevel, "Операционная ошибка: " + err.message,
                [("statusCode", Plain(Num(err.statusCode))), ("stack", Plain(Str(err.stack)))]);
      r := Reply(err.statusCode, Obj([("status", Str("error")), ("message", Str(err.message))]));
      return;
    }
    log.Write(ErrorLevel, "Непредвиденная ошибка: " + err.message, [("stack", Plain(Str(err.stack)))]);
    var message := if production then GenericMessage else err.message;
    var detail := if !production then [("stack", Str(err.stack))] else [];
    r := Reply(500, Obj([("status", Str("error")), ("message", Str(message))] + detail));
  }

  /** How the wrapped route handler ended. */
  datatype HandlerResult = Returned(reply: Reply) | Threw(thrown: AnyValue)

  /** `catchAsync(fn)` applied to a request: the handler's reply when it returns;
      otherwise the `errorHandler` reply, a non-Error value first being wrapped
      as `new Error(String(v))` (whose stack is `stack`). It always answers:
      its result has no failure case. */
  method CatchAsync(result: HandlerResult, production: bool, stack: string, log: Logger)
    returns (r: Reply)
    modifies log
    ensures result.Returned? ==> r == result.reply && log.entries == old(log.entries)
    ensures result.Threw? && result.thrown.ErrorRef? ==>
              r == ErrorReply(result.thrown.err, production) &&
              log.entries == old(log.entries) + [HandlerEntry(result.thrown.err)]
    ensures result.Threw? && result.thrown.Plain? ==>
              r == UnexpectedReply(ToJsString(result.thrown.v), stack, production) &&
              log.entries == old(log.entries) + [UnexpectedEntry(ToJsString(result.thrown.v), stack)]
  {
    if result.Returned? {
      r := result.reply;
    } else if result.thrown.ErrorRef? {
      r := HandleError(result.thrown.err, production, log);
    } else {
      var wrapped := new ErrorObject.Plain(ToJsString(result.thrown.v), stack);
      r := HandleError(wrapped, production, log);
    }
  }
}
