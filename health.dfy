/** `HealthController`: the plain liveness answer and the extended check that
    probes the database. Both handlers build their bodies directly, without
    the `BaseController` builders, so neither body has a `timestamp`. */
module Health {
  import opened Js
  import opened Errors
  import opened Logging
  import Text

  /** The value at a chain of property names, `v[p0][p1]...`. */
  function At(v: JsValue, path: seq<string>): Option<JsValue>
    decreases |path|
  {
    if path == [] then Some(v)
    else
      match Lookup(v, path[0])
      case None => None
      case Some(w) => At(w, path[1..])
  }

  /** `getHealth`: always the same body, under the context's current status. */
  function GetHealth(current: int): (r: Reply)
    ensures r.status == current
    ensures Keys(r.body) == ["status", "message", "data"]
    ensures Lookup(r.body, "status") == Some(Str("success"))
    ensures Lookup(r.body, "message") == Some(Str("API работает!"))
    ensures Lookup(r.body, "data") == Some(Null)
    ensures Lookup(r.body, "timestamp") == None
  {
    var props := [("status", Str("success")), ("message", Str("API работает!")), ("data", Null)];
    FindPairs(props, "status");
    FindPairs(props, "message");
    FindPairs(props, "data");
    FindPairs(props, "timestamp");
    Reply(current, Obj(props))
  }

  /** The `responseTime` text: the duration in decimal, then "ms". */
  function ResponseTime(d: int): string
  {
    Text.IntToDecimal(d) + "ms"
  }

  /** The message of the failure reply. */
  const ProbeFailureMessage: string := "Ошибка при проверке работоспособности системы"

  /** The extended reply for a probe that answered in `d` ms (`Some(d)`) or
      failed (`None`). On success the current status, `status` "success" and
      `data.checks` saying both the API and the database are "ok", with the
      database's response time; on failure status 500 and a body of exactly
      `status` "error" and the failure message. */
  function ExtendedHealthReply(dbDuration: Option<int>, current: int): (r: Reply)
    ensures r.status == if dbDuration.Some? then current else 500
    ensures Lookup(r.body, "status") == Some(Str(if dbDuration.Some? then "success" else "error"))
    ensures Lookup(r.body, "timestamp") == None
    ensures dbDuration.Some? ==>
              && Lookup(r.body, "message") == Some(Str("Все системы работают"))
              && At(r.body, ["data", "checks", "api", "status"]) == Some(Str("ok"))
              && At(r.body, ["data", "checks", "database", "status"]) == Some(Str("ok"))
              && At(r.body, ["data", "checks", "database", "responseTime"]) == Some(Str(ResponseTime(dbDuration.value)))
    ensures dbDuration.None? ==>
              && Keys(r.body) == ["status", "message"]
              && Lookup(r.body, "message") == Some(Str(ProbeFailureMessage))
              && Lookup(r.body, "data") == None
  {
    match dbDuration
    case Some(d) =>
      var database := [("status", Str("ok")), ("responseTime", Str(ResponseTime(d)))];
      var api := [("status", Str("ok"))];
      var checks := [("api", Obj(api)), ("database", Obj(database))];
      var data := [("checks", Obj(checks))];
      var body := [("status", Str("success")), ("message", Str("Все системы работают")), ("data", Obj(data))];
      FindPairs(body, "status");
      FindPairs(body, "message");
      FindPairs(body, "data");
      FindPairs(body, "timestamp");
      FindPairs(data, "checks");
      FindPairs(checks, "api");
      FindPairs(checks, "database");
      FindPairs(api, "status");
      FindPairs(database, "status");
      FindPairs(database, "responseTime");
      Reply(current, Obj(body))
    case None =>
      var body := [("status", Str("error")), ("message", Str(ProbeFailureMessage))];
      FindPairs(body, "status");
      FindPairs(body, "message");
      FindPairs(body, "data");
      FindPairs(body, "timestamp");
      Reply(500, Obj(body))
  }

  /** The response time in the reply determines the measured duration: the
      text before "ms" is the duration's decimal rendering, and different
      durations render differently. */
  lemma {:induction false} ResponseTimeDeterminesDuration(d1: int, d2: int, current: int)
    requires At(ExtendedHealthReply(Some(d1), current).body, ["data", "checks", "database", "responseTime"]) ==
             At(ExtendedHealthReply(Some(d2), current).body, ["data", "checks", "database", "responseTime"])
    ensures d1 == d2
  {
    var t1 := ResponseTime(d1);
    var t2 := ResponseTime(d2);
    assert t1 == t2;
    assert t1[..|t1| - 2] == Text.IntToDecimal(d1);
    assert t2[..|t2| - 2] == Text.IntToDecimal(d2);
    Text.IntToDecimalInjective(d1, d2);
  }

  /** A non-negative duration is printed as plain digits followed by "ms",
      and reading the digits back gives the duration. */
  lemma {:induction false} ResponseTimeDigits(d: nat)
    ensures var t := ResponseTime(d);
            && |t| >= 3 && t[|t| - 2..] == "ms"
            && (forall i :: 0 <= i < |t| - 2 ==> Text.IsDigit(t[i]))
            && Text.DecimalValue(t[..|t| - 2]) == d
  {
    var t := ResponseTime(d);
    Text.SignedDecimal(d);
    assert t[..|t| - 2] == Text.NatToDecimal(d);
    assert t[|t| - 2..] == "ms";
    Text.DecimalRoundTrip(d);
  }

  /** The entry logged after a successful probe. */
  function ProbeEntry(dbDuration: int): (e: LogEntry)
    ensures e.level == InfoLevel
    ensures e.fields == [("dbResponseTime", Plain(Num(dbDuration)))]
  {
    LogEntry(InfoLevel, "Выполнена расширенная проверка работоспособности",
             [("dbResponseTime", Plain(Num(dbDuration)))])
  }

  /** The database probe `SELECT 1`, with the clock read just before and just
      after it, or the failure it raised. */
  datatype Probe = Answered(startedAt: int, finishedAt: int) | ProbeFailed

  /** `getExtendedHealth`: one probe; on success one info entry with the
      probe's own duration and the success reply; on failure no entry and the
      500 reply. */
  method GetExtendedHealth(probe: Probe, current: int, log: Logger) returns (r: Reply)
    modifies log
    ensures probe.Answered? ==>
              var dbDuration := probe.finishedAt - probe.startedAt;
              r == ExtendedHealthReply(Some(dbDuration), current) &&
              log.entries == old(log.entries) + [ProbeEntry(dbDuration)]
    ensures probe.ProbeFailed? ==>
              r == ExtendedHealthReply(None, current) && log.entries == old(log.entries)
  {
    if probe.ProbeFailed? {
      r := ExtendedHealthReply(None, current);
      return;
    }
    var dbStart := probe.startedAt;
    var dbDuration := probe.finishedAt - dbStart;
    log.Write(InfoLevel, "Выполнена расширенная проверка работоспособности",
              [("dbResponseTime", Plain(Num(dbDuration)))]);
    r := ExtendedHealthReply(Some(dbDuration), current);
  }
}
