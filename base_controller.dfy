/** The uniform response envelope `ApiResponse` and the two builders every
    controller inherits from `BaseController`. */
module BaseController {
  import opened Js
  import opened Errors
  import opened Logging

  datatype ApiStatus = SuccessStatus | ErrorStatus

  function StatusText(s: ApiStatus): string
  {
    if s == SuccessStatus then "success" else "error"
  }

  /** `ApiResponse<T>`: `status`, optional `message`, optional `data`, `timestamp`. */
  datatype ApiResponse = ApiResponse(status: ApiStatus, message: Option<string>, data: Option<JsValue>, timestamp: string)

  /** An error envelope carries a message and never data. */
  predicate WellFormed(r: ApiResponse)
  {
    r.status == ErrorStatus ==> r.message.Some? && r.data.None?
  }

  function OptionalProp(key: string, v: Option<JsValue>): seq<(string, JsValue)>
  {
    if v.Some? then [(key, v.value)] else []
  }

  function MessageValue(m: Option<string>): Option<JsValue>
  {
    if m.Some? then Some(Str(m.value)) else None
  }

  /** The object `c.json` sends for an envelope, with the keys in the order the
      builders add them: a success body is built as `status`, `timestamp` and
      then `data` and `message` as they are set; an error body is written as
      `status`, `message`, `timestamp`. Every field can be read back. */
  function ToJson(r: ApiResponse): (v: JsValue)
    ensures Lookup(v, "status") == Some(Str(StatusText(r.status)))
    ensures Lookup(v, "timestamp") == Some(Str(r.timestamp))
    ensures Lookup(v, "message") == MessageValue(r.message)
    ensures Lookup(v, "data") == r.data
    ensures forall k :: k in Keys(v) ==> k in ["status", "timestamp", "message", "data"]
  {
    var status := [("status", Str(StatusText(r.status)))];
    var timestamp := [("timestamp", Str(r.timestamp))];
    var data := OptionalProp("data", r.data);
    var message := OptionalProp("message", MessageValue(r.message));
    var props :=
      if r.status == SuccessStatus then status + timestamp + data + message
      else status + message + timestamp + data;
    FindPairs(props, "status");
    FindPairs(props, "timestamp");
    FindPairs(props, "message");
    FindPairs(props, "data");
    Obj(props)
  }

  /** Reads an envelope back from a reply body; `None` when the body is not one. */
  function FromJson(v: JsValue): Option<ApiResponse>
  {
    var status := Lookup(v, "status");
    var timestamp := Lookup(v, "timestamp");
    var message := Lookup(v, "message");
    if status.None? || !(status.value in [Str("success"), Str("error")]) then None
    else if timestamp.None? || !timestamp.value.Str? then None
    else if message.Some? && !message.value.Str? then None
    else
      Some(ApiResponse(if status.value == Str("success") then SuccessStatus else ErrorStatus,
                       if message.Some? then Some(message.value.s) else None,
                       Lookup(v, "data"),
                       timestamp.value.s))
  }

  /** Every envelope survives the trip to JSON and back. */
  lemma ToJsonRoundTrip(r: ApiResponse)
    ensures FromJson(ToJson(r)) == Some(r)
  {
  }

  /** `BaseController.success(c, data?, message?)`: status "success" and the
      timestamp always; `data` and `message` only when truthy. No status is
      passed to `c.json`, so the reply keeps the context's current status. */
  method Success(data: JsValue, message: Option<string>, now: string, current: int) returns (r: Reply)
    ensures r.status == current
    ensures Lookup(r.body, "status") == Some(Str("success"))
    ensures Lookup(r.body, "timestamp") == Some(Str(now))
    ensures Lookup(r.body, "data") == if Truthy(data) then Some(data) else None
    ensures Lookup(r.body, "message") == if PresentText(message) then Some(Str(message.value)) else None
    ensures forall k :: k in Keys(r.body) ==> k in ["status", "timestamp", "message", "data"]
    ensures FromJson(r.body).Some? && FromJson(r.body).value.status == SuccessStatus
  {
    var response := ApiResponse(SuccessStatus, None, None, now);
    if Truthy(data) {
      response := response.(data := Some(data));
    }
    if PresentText(message) {
      response := response.(message := message);
    }
    ToJsonRoundTrip(response);
    r := Reply(current, ToJson(response));
  }

  /** The reply of `BaseController.error`: the given status (400 when none is
      given) and a body of `status` "error", the message and the timestamp. */
  function ErrorEnvelope(message: string, status: Option<int>, now: string): (r: Reply)
    ensures r.status == status.GetOr(400)
    ensures Keys(r.body) == ["status", "message", "timestamp"]
    ensures Lookup(r.body, "status") == Some(Str("error"))
    ensures Lookup(r.body, "message") == Some(Str(message))
    ensures Lookup(r.body, "timestamp") == Some(Str(now))
    ensures Lookup(r.body, "data") == None
    ensures FromJson(r.body).Some? && WellFormed(FromJson(r.body).value)
  {
    var response := ApiResponse(ErrorStatus, Some(message), None, now);
    ToJsonRoundTrip(response);
    Reply(status.GetOr(400), ToJson(response))
  }

  /** The entry `BaseController.error` logs for its internal error argument. */
  function DetailEntry(message: string, detail: AnyValue): LogEntry
  {
    LogEntry(ErrorLevel, message, [("error", detail)])
  }

  /** `BaseController.error(c, message, status?, error?)`: logs the internal
      error, at error level under the message, only when it is truthy; the
      reply does not depend on it. */
  method Error(message: string, status: Option<int>, detail: AnyValue, now: string, log: Logger)
    returns (r: Reply)
    modifies log
    ensures r == ErrorEnvelope(message, status, now)
    ensures log.entries == old(log.entries) + if IsTruthy(detail) then [DetailEntry(message, detail)] else []
  {
    if IsTruthy(detail) {
      log.Write(ErrorLevel, message, [("error", detail)]);
    }
    var response := ApiResponse(ErrorStatus, Some(message), None, now);
    r := Reply(status.GetOr(400), ToJson(response));
  }
}
