/** The environment configuration: the schema `process.env` is parsed with (its
    defaults, its checks and the `CORS_ORIGINS` split) and `validateEnv`, which
    either returns the parsed configuration or reports the schema's issues,
    split into missing and invalid variables, and ends the process with exit
    code 1. */
module Config {
  import opened Js
  import opened Zod
  import opened Errors
  import opened Logging
  import Text

  datatype NodeEnv = Development | Production | Test

  function NodeEnvName(e: NodeEnv): string
  {
    match e
    case Development => "development"
    case Production => "production"
    case Test => "test"
  }

  /** The `NODE_ENV` enum check: the member a name denotes, if any. */
  function NodeEnvFrom(name: string): (r: Option<NodeEnv>)
    ensures r.None? <==> name !in {"development", "production", "test"}
    ensures r.Some? ==> NodeEnvName(r.value) == name
  {
    if name == "development" then Some(Development)
    else if name == "production" then Some(Production)
    else if name == "test" then Some(Test)
    else None
  }

  /** The parsed configuration, one field per schema key. */
  datatype Env = Env(nodeEnv: NodeEnv, appName: string, appPort: int,
                     databaseUrl: string, betterAuthSecret: string, betterAuthUrl: string,
                     appDomain: Option<string>, corsOrigins: seq<string>)

  /** `process.env[name]`: every variable that is set holds a string. */
  function Get(vars: map<string, string>, name: string): Option<string>
  {
    if name in vars then Some(vars[name]) else None
  }

  /** The `CORS_ORIGINS` transform `val ? val.split(',') : []`: absent or empty
      gives no origins; anything else is split on commas with nothing trimmed,
      so joining the origins with commas gives the variable back. */
  function CorsOrigins(raw: Option<string>): (r: seq<string>)
    ensures r == [] <==> !PresentText(raw)
    ensures Text.Join(r, ',') == raw.GetOr("")
    ensures forall i :: 0 <= i < |r| ==> ',' !in r[i]
  {
    if PresentText(raw) then
      Text.JoinSplit(raw.value, ',');
      Text.Split(raw.value, ',')
    else []
  }

  /** Zod's message for a value outside the `NODE_ENV` enum. */
  function EnumMessage(received: string): string
  {
    EnumPrefix + received + "'"
  }

  const EnumPrefix: string := "Invalid enum value. Expected 'development' | 'production' | 'test', received '"

  /** Zod's message for a string shorter than `.min(32)` allows. */
  const MinLengthMessage: string := "String must contain at least 32 character(s)"

  /** Zod's message for a string that `.url()` rejects. */
  const UrlMessage: string := "Invalid url"

  /** An issue about one top-level key. */
  function IssueAt(name: string, message: string): Issue
  {
    Issue([Key(name)], message)
  }

  /** `z.enum([...]).default('development')`: absent is fine, present must be a member. */
  function NodeEnvIssues(raw: Option<string>): seq<Issue>
  {
    if raw.Some? && NodeEnvFrom(raw.value).None? then [IssueAt("NODE_ENV", EnumMessage(raw.value))] else []
  }

  /** A required string key with a check `ok`: absent gives "Required", a
      present value that fails the check gives `message`. */
  function CheckedIssues(name: string, raw: Option<string>, ok: string -> bool, message: string): seq<Issue>
  {
    if raw.None? then [IssueAt(name, RequiredMessage)]
    else if ok(raw.value) then []
    else [IssueAt(name, message)]
  }

  /** `z.string()` alone: every string passes. */
  predicate AnyText(s: string)
  {
    true
  }

  /** `.min(32)`: at least 32 characters. */
  predicate MinLength32(s: string)
  {
    |s| >= 32
  }

  /** The issues `envSchema.parse` reports, in the order of the schema's keys.
      `isUrl` stands for the `.url()` check. The keys with defaults, the
      optional keys and `DATABASE_URL`'s bare string check add no issue of
      their own beyond a missing `DATABASE_URL`. */
  function SchemaIssues(vars: map<string, string>, isUrl: string -> bool): (r: seq<Issue>)
    ensures r == [] <==> Acceptable(vars, isUrl)
  {
    NodeEnvIssues(Get(vars, "NODE_ENV"))
    + CheckedIssues("DATABASE_URL", Get(vars, "DATABASE_URL"), AnyText, "")
    + CheckedIssues("BETTER_AUTH_SECRET", Get(vars, "BETTER_AUTH_SECRET"), MinLength32, MinLengthMessage)
    + CheckedIssues("BETTER_AUTH_URL", Get(vars, "BETTER_AUTH_URL"), isUrl, UrlMessage)
  }

  /** The environments the schema accepts, stated key by key. Every required
      key is set in them. */
  predicate Acceptable(vars: map<string, string>, isUrl: string -> bool): (ok: bool)
    ensures ok ==> Absent(RequiredNames, vars) == []
  {
    AbsentRequired(vars);
    && ("NODE_ENV" in vars ==> vars["NODE_ENV"] in {"development", "production", "test"})
    && "DATABASE_URL" in vars
    && "BETTER_AUTH_SECRET" in vars && |vars["BETTER_AUTH_SECRET"]| >= 32
    && "BETTER_AUTH_URL" in vars && isUrl(vars["BETTER_AUTH_URL"])
  }

  /** How the `try` block of `validateEnv` ends: with the parsed configuration,
      with a `ZodError`'s issues, or with some other thrown value. */
  datatype Attempt = Parsed(env: Env) | ZodFailed(issues: seq<Issue>) | Crashed(thrown: AnyValue)

  /** `envSchema.parse(process.env)`. `toNumber` stands for `Number`. It never
      throws anything but a `ZodError`; it succeeds exactly on the acceptable
      environments, and then every key has its value or its default. */
  function ParseEnv(vars: map<string, string>, isUrl: string -> bool, toNumber: string -> int): (r: Attempt)
    ensures !r.Crashed?
    ensures r.Parsed? <==> Acceptable(vars, isUrl)
    ensures r.ZodFailed? ==> |r.issues| >= 1
    ensures r.Parsed? ==>
              && NodeEnvName(r.env.nodeEnv) == Get(vars, "NODE_ENV").GetOr("development")
              && r.env.appName == Get(vars, "APP_NAME").GetOr("hono-app")
              && r.env.appPort == toNumber(Get(vars, "APP_PORT").GetOr("3000"))
              && r.env.databaseUrl == vars["DATABASE_URL"]
              && r.env.betterAuthSecret == vars["BETTER_AUTH_SECRET"] && |r.env.betterAuthSecret| >= 32
              && r.env.betterAuthUrl == vars["BETTER_AUTH_URL"] && isUrl(r.env.betterAuthUrl)
              && r.env.appDomain == Get(vars, "APP_DOMAIN")
              && Text.Join(r.env.corsOrigins, ',') == Get(vars, "CORS_ORIGINS").GetOr("")
              && (r.env.corsOrigins == [] <==> !PresentText(Get(vars, "CORS_ORIGINS")))
  {
    var issues := SchemaIssues(vars, isUrl);
    if issues != [] then ZodFailed(issues)
    else
      var nodeEnv := if "NODE_ENV" in vars then NodeEnvFrom(vars["NODE_ENV"]).GetOr(Development) else Development;
      Parsed(Env(nodeEnv,
                 Get(vars, "APP_NAME").GetOr("hono-app"),
                 toNumber(Get(vars, "APP_PORT").GetOr("3000")),
                 vars["DATABASE_URL"],
                 vars["BETTER_AUTH_SECRET"],
                 vars["BETTER_AUTH_URL"],
                 Get(vars, "APP_DOMAIN"),
                 CorsOrigins(Get(vars, "CORS_ORIGINS"))))
  }

  /** `missingVars`: the dotted paths of the issues whose message is "Required",
      in issue order. */
  function MissingVars(issues: seq<Issue>): (r: seq<string>)
    ensures |r| <= |issues|
  {
    if issues == [] then []
    else if issues[0].message == RequiredMessage then [JoinPath(issues[0].path)] + MissingVars(issues[1..])
    else MissingVars(issues[1..])
  }

  /** `invalidVars`: the `{path, message}` summaries of all other issues, in issue order. */
  function InvalidVars(issues: seq<Issue>): (r: seq<JsValue>)
    ensures |r| <= |issues|
  {
    if issues == [] then []
    else if issues[0].message != RequiredMessage then [EntryFor(issues[0])] + InvalidVars(issues[1..])
    else InvalidVars(issues[1..])
  }

  /** The missing list is empty exactly when no issue says "Required". */
  lemma {:induction false} MissingEmpty(issues: seq<Issue>)
    ensures MissingVars(issues) == [] <==>
              forall i :: 0 <= i < |issues| ==> issues[i].message != RequiredMessage
  {
    if issues != [] {
      MissingEmpty(issues[1..]);
      assert forall i :: 1 <= i < |issues| ==> issues[i] == issues[1..][i - 1];
    }
  }

  /** The invalid list is empty exactly when every issue says "Required". */
  lemma {:induction false} InvalidEmpty(issues: seq<Issue>)
    ensures InvalidVars(issues) == [] <==>
              forall i :: 0 <= i < |issues| ==> issues[i].message == RequiredMessage
  {
    if issues != [] {
      InvalidEmpty(issues[1..]);
      assert forall i :: 1 <= i < |issues| ==> issues[i] == issues[1..][i - 1];
    }
  }

  /** A single issue gives its dotted path when it says "Required" and
      nothing otherwise. */
  lemma MissingSingle(i: Issue)
    ensures MissingVars([i]) == if i.message == RequiredMessage then [JoinPath(i.path)] else []
  {
    assert [i][1..] == [];
  }

  /** A single issue gives its `{path, message}` summary when it does not say
      "Required" and nothing otherwise; with InvalidAppend this fixes every
      entry of the list. */
  lemma InvalidSingle(i: Issue)
    ensures InvalidVars([i]) == if i.message != RequiredMessage then [EntryFor(i)] else []
  {
    assert [i][1..] == [];
  }

  /** Every issue lands in exactly one of the two lists. */
  lemma {:induction false} PartitionCount(issues: seq<Issue>)
    ensures |MissingVars(issues)| + |InvalidVars(issues)| == |issues|
  {
    if issues != [] {
      PartitionCount(issues[1..]);
    }
  }

  /** The missing list keeps issue order: the list for two runs of issues laid
      end to end is the first run's list followed by the second's. */
  lemma {:induction false} MissingAppend(a: seq<Issue>, b: seq<Issue>)
    ensures MissingVars(a + b) == MissingVars(a) + MissingVars(b)
  {
    if a == [] {
      assert a + b == b;
    } else {
      var ab := a + b;
      assert ab[0] == a[0];
      assert ab[1..] == a[1..] + b;
      MissingAppend(a[1..], b);
      var rest := MissingVars(a[1..]);
      if a[0].message == RequiredMessage {
        var p := JoinPath(a[0].path);
        assert MissingVars(ab) == [p] + (rest + MissingVars(b));
        assert MissingVars(a) == [p] + rest;
        assert [p] + (rest + MissingVars(b)) == ([p] + rest) + MissingVars(b);
      } else {
        assert MissingVars(ab) == rest + MissingVars(b);
        assert MissingVars(a) == rest;
      }
    }
  }

  /** The invalid list keeps issue order in the same way. */
  lemma {:induction false} InvalidAppend(a: seq<Issue>, b: seq<Issue>)
    ensures InvalidVars(a + b) == InvalidVars(a) + InvalidVars(b)
  {
    if a == [] {
      assert a + b == b;
    } else {
      var ab := a + b;
      assert ab[0] == a[0];
      assert ab[1..] == a[1..] + b;
      InvalidAppend(a[1..], b);
      var rest := InvalidVars(a[1..]);
      if a[0].message != RequiredMessage {
        var e := EntryFor(a[0]);
        assert InvalidVars(ab) == [e] + (rest + InvalidVars(b));
        assert InvalidVars(a) == [e] + rest;
        assert [e] + (rest + InvalidVars(b)) == ([e] + rest) + InvalidVars(b);
      } else {
        assert InvalidVars(ab) == rest + InvalidVars(b);
        assert InvalidVars(a) == rest;
      }
    }
  }

  /** The required keys, in schema order. */
  const RequiredNames: seq<string> := ["DATABASE_URL", "BETTER_AUTH_SECRET", "BETTER_AUTH_URL"]

  /** The names in `names` that are not set, in order. */
  function Absent(names: seq<string>, vars: map<string, string>): seq<string>
  {
    if names == [] then []
    else (if names[0] in vars then [] else [names[0]]) + Absent(names[1..], vars)
  }

  /** A top-level key's path prints as the key itself. */
  lemma KeyPath(name: string)
    ensures JoinPath([Key(name)]) == name
  {
    assert SegmentTexts([Key(name)]) == [name];
  }

  /** A checked key is reported missing exactly when it is not set. */
  lemma MissingOfChecked(name: string, raw: Option<string>, ok: string -> bool, message: string)
    requires message != RequiredMessage
    ensures MissingVars(CheckedIssues(name, raw, ok, message)) == if raw.None? then [name] else []
  {
    KeyPath(name);
  }

  /** The enum check never reports a key as missing. */
  lemma NodeEnvNeverMissing(raw: Option<string>)
    ensures MissingVars(NodeEnvIssues(raw)) == []
  {
    if raw.Some? {
      assert |EnumMessage(raw.value)| > |EnumPrefix| > |RequiredMessage|;
    }
  }

  /** The unset required keys, key by key. */
  lemma AbsentRequired(vars: map<string, string>)
    ensures Absent(RequiredNames, vars) ==
              (if "DATABASE_URL" in vars then [] else ["DATABASE_URL"]) +
              (if "BETTER_AUTH_SECRET" in vars then [] else ["BETTER_AUTH_SECRET"]) +
              (if "BETTER_AUTH_URL" in vars then [] else ["BETTER_AUTH_URL"])
  {
    var names := RequiredNames;
    assert names[1..] == ["BETTER_AUTH_SECRET", "BETTER_AUTH_URL"];
    assert names[1..][1..] == ["BETTER_AUTH_URL"];
    assert names[1..][1..][1..] == [];
    var url := if "BETTER_AUTH_URL" in vars then [] else ["BETTER_AUTH_URL"];
    var secret := if "BETTER_AUTH_SECRET" in vars then [] else ["BETTER_AUTH_SECRET"];
    assert Absent(names[1..][1..], vars) == url + [];
    assert Absent(names[1..], vars) == secret + (url + []);
  }

  /** Only the three required keys can be reported missing, one run each. */
  lemma {:induction false} SchemaMissingByKey(vars: map<string, string>, isUrl: string -> bool)
    ensures MissingVars(SchemaIssues(vars, isUrl)) ==
              MissingVars(CheckedIssues("DATABASE_URL", Get(vars, "DATABASE_URL"), AnyText, "")) +
              MissingVars(CheckedIssues("BETTER_AUTH_SECRET", Get(vars, "BETTER_AUTH_SECRET"), MinLength32, MinLengthMessage)) +
              MissingVars(CheckedIssues("BETTER_AUTH_URL", Get(vars, "BETTER_AUTH_URL"), isUrl, UrlMessage))
  {
    var e := NodeEnvIssues(Get(vars, "NODE_ENV"));
    var d := CheckedIssues("DATABASE_URL", Get(vars, "DATABASE_URL"), AnyText, "");
    var s := CheckedIssues("BETTER_AUTH_SECRET", Get(vars, "BETTER_AUTH_SECRET"), MinLength32, MinLengthMessage);
    var u := CheckedIssues("BETTER_AUTH_URL", Get(vars, "BETTER_AUTH_URL"), isUrl, UrlMessage);
    MissingAppend(e + d + s, u);
    MissingAppend(e + d, s);
    MissingAppend(e, d);
    NodeEnvNeverMissing(Get(vars, "NODE_ENV"));
    assert MissingVars(e + d + s + u) == [] + MissingVars(d) + MissingVars(s) + MissingVars(u);
  }

  /** The schema's "missing" list is exactly the required keys that are not set. */
  lemma {:induction false} MissingAreAbsentRequired(vars: map<string, string>, isUrl: string -> bool)
    ensures MissingVars(SchemaIssues(vars, isUrl)) == Absent(RequiredNames, vars)
  {
    SchemaMissingByKey(vars, isUrl);
    MissingOfChecked("DATABASE_URL", Get(vars, "DATABASE_URL"), AnyText, "");
    MissingOfChecked("BETTER_AUTH_SECRET", Get(vars, "BETTER_AUTH_SECRET"), MinLength32, MinLengthMessage);
    MissingOfChecked("BETTER_AUTH_URL", Get(vars, "BETTER_AUTH_URL"), isUrl, UrlMessage);
    AbsentRequired(vars);
  }

  /** How start-up ends: with the configuration, or with `process.exit(code)`. */
  datatype Startup = Loaded(env: Env) | Exited(code: int)

  /** What `validateEnv` does: how start-up ends and the one entry it logs. */
  datatype EnvOutcome = EnvOutcome(startup: Startup, entry: LogEntry)

  /** A list logged as itself when it has elements and as `undefined` when empty. */
  function ReportValue(items: seq<JsValue>): (v: JsValue)
    ensures v == Undefined <==> items == []
  {
    if |items| > 0 then Arr(items) else Undefined
  }

  function Texts(names: seq<string>): seq<JsValue>
  {
    seq(|names|, i requires 0 <= i < |names| => Str(names[i]))
  }

  /** `validateEnv`: a successful parse is logged at info level and returned;
      any failure is logged once at error level and ends the process with exit
      code 1, so no partially validated configuration is ever returned. A
      `ZodError` is reported as the two lists, each as `undefined` when empty;
      anything else as its `String` form. */
  function ValidateEnv(a: Attempt): (r: EnvOutcome)
    reads if a.Crashed? then Objects(a.thrown) else {}
    ensures r.startup.Loaded? <==> a.Parsed?
    ensures a.Parsed? ==> r.startup.env == a.env
    ensures !a.Parsed? ==> r.startup == Exited(1)
    ensures r.entry.level == if a.Parsed? then InfoLevel else ErrorLevel
    ensures a.ZodFailed? ==>
              && |r.entry.fields| == 2
              && r.entry.fields[0] == ("missingVars", Plain(ReportValue(Texts(MissingVars(a.issues)))))
              && r.entry.fields[1] == ("invalidVars", Plain(ReportValue(InvalidVars(a.issues))))
              && (r.entry.fields[0].1 == Plain(Undefined) <==>
                    forall i :: 0 <= i < |a.issues| ==> a.issues[i].message != RequiredMessage)
              && (r.entry.fields[1].1 == Plain(Undefined) <==>
                    forall i :: 0 <= i < |a.issues| ==> a.issues[i].message == RequiredMessage)
    ensures a.Crashed? ==> r.entry.fields == [("error", Plain(Str(StringOf(a.thrown))))]
  {
    match a
    case Parsed(env) =>
      EnvOutcome(Loaded(env), LogEntry(InfoLevel, "Переменные окружения успешно загружены", []))
    case ZodFailed(issues) =>
      MissingEmpty(issues);
      InvalidEmpty(issues);
      var missingVars := Texts(MissingVars(issues));
      var invalidVars := InvalidVars(issues);
      EnvOutcome(Exited(1),
                 LogEntry(ErrorLevel, "Ошибка валидации переменных окружения:",
                          [("missingVars", Plain(ReportValue(missingVars))),
                           ("invalidVars", Plain(ReportValue(invalidVars)))]))
    case Crashed(thrown) =>
      EnvOutcome(Exited(1),
                 LogEntry(ErrorLevel, "Неизвестная ошибка при загрузке переменных окружения:",
                          [("error", Plain(Str(StringOf(thrown))))]))
  }

  /** `env = validateEnv()` over the process environment `vars`: the
      configuration is loaded exactly on an acceptable environment, and any
      other ends start-up with exit code 1. */
  function LoadEnv(vars: map<string, string>, isUrl: string -> bool, toNumber: string -> int): (r: EnvOutcome)
    ensures r.startup.Loaded? <==> Acceptable(vars, isUrl)
    ensures r.startup.Exited? ==> r.startup.code == 1
  {
    ValidateEnv(ParseEnv(vars, isUrl, toNumber))
  }

  /** Start-up goes on exactly when the environment is acceptable; otherwise the
      process exits with code 1 and the report names every required key that is
      not set, in schema order (or `undefined` when all are set). */
  lemma StartupOutcome(vars: map<string, string>, isUrl: string -> bool, toNumber: string -> int)
    ensures LoadEnv(vars, isUrl, toNumber).startup.Loaded? <==> Acceptable(vars, isUrl)
    ensures !Acceptable(vars, isUrl) ==>
              && LoadEnv(vars, isUrl, toNumber).startup == Exited(1)
              && LoadEnv(vars, isUrl, toNumber).entry.fields[0] ==
                   ("missingVars", Plain(ReportValue(Texts(Absent(RequiredNames, vars)))))
  {
    MissingAreAbsentRequired(vars, isUrl);
  }
}
