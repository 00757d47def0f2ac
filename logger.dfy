/** The application logger and the request-logging middleware. The logger is an
    append-only record of the calls made to it; which of them winston passes on
    to its transports is decided by the level threshold, and each passed entry
    is printed by `logFormat`. */
module Logging {
  import opened Js
  import opened Errors
  import Text

  /** The npm levels the core uses. */
  datatype Level = ErrorLevel | WarnLevel | InfoLevel | DebugLevel

  function LevelName(l: Level): string
  {
    match l
    case ErrorLevel => "error"
    case WarnLevel => "warn"
    case InfoLevel => "info"
    case DebugLevel => "debug"
  }

  /** winston's npm priorities: the lower, the more severe. */
  function Priority(l: Level): nat
  {
    match l
    case ErrorLevel => 0
    case WarnLevel => 1
    case InfoLevel => 2
    case DebugLevel => 5
  }

  /** The metadata object passed with a message, properties in order. */
  type Fields = seq<(string, AnyValue)>

  datatype LogEntry = LogEntry(level: Level, message: string, fields: Fields)

  /** The logger's level: `info` in production, `debug` otherwise. */
  function ThresholdFor(production: bool): (l: Level)
    ensures production ==> l == InfoLevel
    ensures !production ==> l == DebugLevel
  {
    if production then InfoLevel else DebugLevel
  }

  /** The `service` default metadata: `APP_NAME || 'hono-app'`. */
  function ServiceName(appName: Option<string>): (s: string)
    ensures s != ""
    ensures PresentText(appName) ==> s == appName.value
    ensures !PresentText(appName) ==> s == "hono-app"
  {
    if PresentText(appName) then appName.value else "hono-app"
  }

  /** `logFormat`: `[timestamp] level: message metadata`, where metadata is the
      JSON of the remaining properties when there are any and the empty string
      otherwise. The space before the metadata is always printed. */
  function LogFormat(level: string, message: string, timestamp: string, meta: Fields,
                     json: Fields -> string): (r: string)
    ensures var head := "[" + timestamp + "] " + level + ": " + message + " ";
            r == head + (if |meta| == 0 then "" else json(meta))
  {
    var metadata := if |meta| > 0 then json(meta) else "";
    "[" + timestamp + "] " + level + ": " + message + " " + metadata
  }

  /** The application logger. `entries` holds every call in order. */
  class Logger {
    const threshold: Level
    const service: string
    var entries: seq<LogEntry>

    constructor (production: bool, appName: Option<string>)
      ensures threshold == ThresholdFor(production)
      ensures service == ServiceName(appName)
      ensures entries == []
    {
      threshold := ThresholdFor(production);
      service := ServiceName(appName);
      entries := [];
    }

    /** `logger[level](message, fields)`. */
    method Write(level: Level, message: string, fields: Fields)
      modifies this
      ensures entries == old(entries) + [LogEntry(level, message, fields)]
    {
      entries := entries + [LogEntry(level, message, fields)];
    }

    /** Whether winston passes an entry on to its transports. */
    predicate Emits(e: LogEntry)
    {
      Priority(e.level) <= Priority(threshold)
    }

    /** The metadata winston hands the format: the default `service` property
        first, then the call's own fields, unless the message holds a printf
        token, in which case the fields are kept aside for a `splat` format
        that this logger does not use. */
    function Metadata(e: LogEntry): (meta: Fields)
      ensures |meta| >= 1 && meta[0] == ("service", Plain(Str(service)))
      ensures !HasFormatToken(e.message) ==> meta[1..] == e.fields
      ensures HasFormatToken(e.message) ==> |meta| == 1
    {
      [("service", Plain(Str(service)))] + (if HasFormatToken(e.message) then [] else e.fields)
    }

    /** The printed line of an entry. */
    function Line(e: LogEntry, timestamp: string, json: Fields -> string): string
    {
      LogFormat(LevelName(e.level), e.message, timestamp, Metadata(e), json)
    }
  }

  /** Whether a message holds one of the printf tokens winston's `log` looks
      for (`%` followed by one of `s c d j i f o O %`). */
  predicate HasFormatToken(m: string)
  {
    exists i :: 0 <= i < |m| - 1 && m[i] == '%' && m[i + 1] in "scdjifoO%"
  }

  /** Every line the application logger prints ends with the JSON of its
      metadata, since the `service` property is always there: the call's
      fields follow it when the message holds no printf token, and the line
      ends with the JSON of `service` alone when it does. */
  lemma {:induction false} LinesCarryMetadata(log: Logger, e: LogEntry, timestamp: string, json: Fields -> string)
    ensures var meta := [("service", Plain(Str(log.service)))] + e.fields;
            var line := log.Line(e, timestamp, json);
            !HasFormatToken(e.message) ==>
              |json(meta)| <= |line| && line[|line| - |json(meta)|..] == json(meta)
    ensures var meta := [("service", Plain(Str(log.service)))];
            var line := log.Line(e, timestamp, json);
            HasFormatToken(e.message) ==>
              |json(meta)| <= |line| && line[|line| - |json(meta)|..] == json(meta)
  {
    var meta := log.Metadata(e);
    var head := "[" + timestamp + "] " + LevelName(e.level) + ": " + e.message + " ";
    assert log.Line(e, timestamp, json) == head + json(meta);
    assert (head + json(meta))[|head|..] == json(meta);
    if HasFormatToken(e.message) {
      assert meta == [("service", Plain(Str(log.service)))];
    } else {
      assert meta == [("service", Plain(Str(log.service)))] + e.fields;
    }
  }

  /** Errors and warnings are always printed; `debug` entries only outside production. */
  lemma ProductionDropsDebugOnly(log: Logger, e: LogEntry, production: bool)
    requires log.threshold == ThresholdFor(production)
    ensures e.level in {ErrorLevel, WarnLevel, InfoLevel} ==> log.Emits(e)
    ensures e.level == DebugLevel ==> (log.Emits(e) <==> !production)
  {
  }

  /** An incoming request as the middleware reads it: `method` (here `verb`), `url`
      and the headers, whose names are lower case. */
  datatype Request = Request(verb: string, url: string, headers: map<string, string>)

  /** `c.req.header(name)`: the value, or undefined when the header is absent. */
  function Header(req: Request, name: string): JsValue
  {
    if name in req.headers then Str(req.headers[name]) else Undefined
  }

  /** `header('x-forwarded-for') || header('x-real-ip')`. */
  function ClientIp(req: Request): (ip: JsValue)
    ensures "x-forwarded-for" in req.headers && req.headers["x-forwarded-for"] != "" ==>
              ip == Str(req.headers["x-forwarded-for"])
    ensures !("x-forwarded-for" in req.headers && req.headers["x-forwarded-for"] != "") ==>
              ip == (if "x-real-ip" in req.headers then Str(req.headers["x-real-ip"]) else Undefined)
    ensures ip.Undefined? || ip.Str?
  {
    var forwarded := Header(req, "x-forwarded-for");
    if Truthy(forwarded) then forwarded else Header(req, "x-real-ip")
  }

  /** The completion level: `error` from 500 up, `warn` from 400 to 499,
      `info` below 400. */
  function LevelFor(status: int): (l: Level)
    ensures l == ErrorLevel <==> status >= 500
    ensures l == WarnLevel <==> 400 <= status < 500
    ensures l == InfoLevel <==> status < 400
  {
    if status >= 400 then (if status >= 500 then ErrorLevel else WarnLevel) else InfoLevel
  }

  /** What `next()` did: the entries the downstream handlers logged, how it ended,
      and the clock when control came back. */
  datatype Downstream = Downstream(written: seq<LogEntry>, result: NextResult, finishedAt: int)

  /** `next()` resolved, leaving `c.res.status`, or rejected with a value. */
  datatype NextResult = Completed(status: int) | Raised(thrown: AnyValue)

  /** The entry written before `next()` runs. */
  function StartEntry(req: Request): (e: LogEntry)
    ensures e.level == DebugLevel && e.fields == [("ip", Plain(ClientIp(req)))]
  {
    LogEntry(DebugLevel, "Request started: " + req.verb + " " + req.url, [("ip", Plain(ClientIp(req)))])
  }

  /** The entry written when `next()` rejects with `err` after `elapsed` ms. */
  function FailureEntry(req: Request, err: AnyValue, elapsed: int): (e: LogEntry)
    reads Objects(err)
    ensures e.level == ErrorLevel
    ensures |e.fields| == 4
    ensures e.fields[0] == ("error", Plain(Str(MessageOf(err))))
    ensures e.fields[1].0 == "stack" && (e.fields[1].1 == Plain(Undefined) <==> err.Plain?)
    ensures e.fields[2] == ("responseTime", Plain(Num(elapsed)))
    ensures e.fields[3] == ("ip", Plain(ClientIp(req)))
  {
    var errorMessage := MessageOf(err);
    var errorStack := if err.ErrorRef? then Str(err.err.stack) else Undefined;
    LogEntry(ErrorLevel, "Request failed: " + req.verb + " " + req.url,
             [("error", Plain(Str(errorMessage))), ("stack", Plain(errorStack)),
              ("responseTime", Plain(Num(elapsed))), ("ip", Plain(ClientIp(req)))])
  }

  /** The entry written when `next()` resolves with the response status. */
  function CompletionEntry(req: Request, status: int, elapsed: int): (e: LogEntry)
    ensures e.level == LevelFor(status)
    ensures e.fields == [("responseTime", Plain(Num(elapsed))), ("ip", Plain(ClientIp(req)))]
  {
    LogEntry(LevelFor(status), req.verb + " " + req.url + " " + Text.IntToDecimal(status),
             [("responseTime", Plain(Num(elapsed))), ("ip", Plain(ClientIp(req)))])
  }

  /** `loggerMiddleware`: one debug entry before `next()`, then exactly one more
      entry after it. A rejection is logged and passed on unchanged; only a
      normal completion reads the status. The request and response are only
      read, so nothing but the log changes. */
  method LoggerMiddleware(req: Request, startedAt: int, next: Downstream, log: Logger)
    returns (outcome: Completion)
    modifies log
    ensures next.result.Raised? ==>
              outcome == Throw(next.result.thrown) &&
              log.entries == old(log.entries) + [StartEntry(req)] + next.written
                             + [FailureEntry(req, next.result.thrown, next.finishedAt - startedAt)]
    ensures next.result.Completed? ==>
              outcome == Normal &&
              log.entries == old(log.entries) + [StartEntry(req)] + next.written
                             + [CompletionEntry(req, next.result.status, next.finishedAt - startedAt)]
  {
    var start := startedAt;
    var ip := ClientIp(req);
    log.Write(DebugLevel, "Request started: " + req.verb + " " + req.url, [("ip", Plain(ip))]);
    // await next(): what the downstream handlers log lands in the same sink
    log.entries := log.entries + next.written;
    match next.result {
      case Raised(err) =>
        var responseTime := next.finishedAt - start;
        var errorMessage := MessageOf(err);
        var errorStack := if err.ErrorRef? then Str(err.err.stack) else Undefined;
        log.Write(ErrorLevel, "Request failed: " + req.verb + " " + req.url,
                  [("error", Plain(Str(errorMessage))), ("stack", Plain(errorStack)),
                   ("responseTime", Plain(Num(responseTime))), ("ip", Plain(ip))]);
        outcome := Throw(err);
      case Completed(status) =>
        var responseTime := next.finishedAt - start;
        var logLevel := LevelFor(status);
        log.Write(logLevel, req.verb + " " + req.url + " " + Text.IntToDecimal(status),
                  [("responseTime", Plain(Num(responseTime))), ("ip", Plain(ip))]);
        outcome := Normal;
    }
  }
}
