# A verified model of the hono-backend-boilerplate request layer

The hono-backend-boilerplate is an HTTP API scaffold built on Hono, Zod,
Winston, Prisma and better-auth. The libraries do most of the work. On top
of them sits a thin layer of code that decides what a request gets back and
what is logged. This project models that layer in Dafny and proves what it
promises:

- **Error taxonomy and global error handling** (`src/lib/errors.ts`).
  `AppError` takes the status code it is given; its five subclasses each fix
  a status code and a default message. `errorHandler` answers an operational error with its own code
  and message, and any other error with 500. In production it hides the
  message and the stack. `catchAsync` sends everything a route handler
  throws through `errorHandler`.
- **Logging** (`src/lib/logger.ts`). The `logFormat` line renderer, the
  level threshold, and `loggerMiddleware`. The middleware picks the client IP
  from the forwarding headers and the log level from the status. It logs a
  downstream failure once and rethrows the same value.
- **Response envelopes** (`src/controllers/base.controller.ts`, with the
  `ApiResponse` shape of `src/types/index.ts`). `BaseController.success`
  and `BaseController.error`.
- **Input validation** (`src/lib/validation.ts`). `validateBody`,
  `validateParams` and `validateQuery`: store the parsed input, then call
  the next handler; turn a `ZodError` into a `BadRequestError` that lists the
  issues.
- **Configuration** (`src/lib/env.ts`). The environment schema, its
  defaults, the `CORS_ORIGINS` split, and `validateEnv`. It sorts issues into
  missing and invalid variables and exits with code 1 on any failure.
- **Health endpoints** (`src/controllers/health.controller.ts`).
  `getHealth` and `getExtendedHealth`.

One module per source file: `Errors` and `ErrorHandler` (errors.ts, split so
that the logger can refer to error objects without a cycle), `Logging`,
`BaseController`, `Validation`, `Config` and `Health`. They rest on three
support modules. `Text` holds `split`, `join` and integer-to-decimal
rendering. `Js` holds JavaScript values, truthiness, `String(v)` and
property lookup. `Zod` holds the shape of a parse result and of an issue.

Objects whose fields the source assigns are classes: the error objects, the
logger (an append-only list of the calls made to it) and the request
context's variable store. The middlewares and handlers that log or store
things are methods over them. Everything else is functions on values.

The following are parameters of the model: `JSON.stringify`, a Zod schema's
`parse`, the `.url()` check, `Number`, the clock, the production flag, the
stack text the runtime captures, and the status already set on the context.

Three details of the code that the model keeps:

- On success the extended health body carries the message "Все системы
  работают".
- `CORS_ORIGINS` is optional. An unset or empty value gives no origins and
  does not stop start-up.
- `APP_PORT` is any string passed through `Number`. It is not checked to be
  an integer.

## Model

| member | source | states |
|---|---|---|
| Text.Split | src/lib/env.ts:28 | `split(',')` gives one more piece than there are commas, and no piece contains a comma |
| Text.JoinSplit | src/lib/env.ts:28 | joining the pieces of a split with the same separator gives the string back |
| Text.SplitJoin | src/lib/validation.ts:28 | joining separator-free parts and splitting again gives the parts back |
| Text.NatToDecimal | src/controllers/health.controller.ts:46 | a template literal renders a natural number as nonempty decimal digits without a leading zero |
| Text.DecimalRoundTrip | src/controllers/health.controller.ts:46 | reading the rendered digits back gives the number |
| Text.IntToDecimalInjective | src/lib/logger.ts:76 | different integers render differently, so a rendered status or duration names its value |
| Js.ToJsString | src/lib/env.ts:69 | `String(v)` of a non-error value; only a string or an array can print as the empty text |
| Zod.IssueEntries | src/lib/validation.ts:27-30 | the issue summaries: exactly one `{path, message}` entry per issue, in issue order |
| Zod.JoinPathSplits | src/lib/validation.ts:28 | a path joined with '.' splits back into its segments when no key contains a dot |
| Errors.StatusCodeOf | src/lib/errors.ts:19-51 | each subclass's code is a 4xx or 5xx code, and only the internal server error is 5xx |
| Errors.StatusCodeNamesSubclass | src/lib/errors.ts:19-51 | the five codes are distinct, so a code names its subclass |
| Errors.ErrorObject.Plain | src/lib/errors.ts:101 | `new Error(message)` is not operational and keeps its message |
| Errors.ErrorObject.Zod | src/lib/env.ts:51-52 | a `ZodError` carries its issue list and message and is not operational, so `errorHandler` treats it as unexpected |
| Errors.ErrorObject.App | src/lib/errors.ts:5-16 | an `AppError` keeps the code it is given and is operational |
| Errors.ErrorObject.NotFoundError | src/lib/errors.ts:19-23 | code 404; the message is the given one or 'Ресурс не найден' |
| Errors.ErrorObject.BadRequestError | src/lib/errors.ts:26-30 | code 400; the message is the given one or 'Неверный запрос' |
| Errors.ErrorObject.UnauthorizedError | src/lib/errors.ts:33-37 | code 401; the message is the given one or 'Не авторизован' |
| Errors.ErrorObject.ForbiddenError | src/lib/errors.ts:40-44 | code 403; the message is the given one or 'Доступ запрещен' |
| Errors.ErrorObject.InternalServerError | src/lib/errors.ts:47-51 | code 500; the message is the given one or 'Внутренняя ошибка сервера' |
| Errors.MessageOf | src/lib/logger.ts:58 | an error gives its own `message`; any other thrown value gives the same text as `String(v)` |
| Errors.StringOf | src/lib/errors.ts:101 | `String(v)` of an error is never empty and ends with the error's message |
| ErrorHandler.OperationalReply | src/lib/errors.ts:62-68 | an operational error's reply has its own status and a body of exactly `status` 'error' and its message |
| ErrorHandler.UnexpectedReply | src/lib/errors.ts:77-87 | any other error gets 500; in production the generic message and no `stack` key, otherwise its message and stack |
| ErrorHandler.ErrorReply | src/lib/errors.ts:54-88 | the reply is chosen by `instanceof AppError` alone |
| ErrorHandler.UnexpectedEntry | src/lib/errors.ts:72-74 | an unexpected error is logged at error level |
| ErrorHandler.HandlerEntry | src/lib/errors.ts:56-74 | the entry is a warning for an operational error and an error otherwise |
| ErrorHandler.ProductionHidesUnexpected | src/lib/errors.ts:77-85 | in production an unexpected error's reply is the same whatever its message and stack |
| ErrorHandler.OperationalIgnoresMode | src/lib/errors.ts:56-69 | an operational error gets the same reply in production and outside it |
| ErrorHandler.SubclassReplyStatus | src/lib/errors.ts:19-69 | a subclass error's reply has the subclass's code and the error's own message, whatever the message |
| ErrorHandler.HandleError | src/lib/errors.ts:54-88 | `errorHandler` answers with `ErrorReply` and appends exactly one log entry |
| ErrorHandler.CatchAsync | src/lib/errors.ts:91-103 | the handler's reply when it returns; otherwise the `errorHandler` reply, a non-Error first wrapped as `Error(String(v))`; it never fails |
| Logging.ThresholdFor | src/lib/logger.ts:21 | the logger level is info in production and debug otherwise |
| Logging.ServiceName | src/lib/logger.ts:27 | the `service` metadata is `APP_NAME` when it is nonempty and 'hono-app' otherwise |
| Logging.LogFormat | src/lib/logger.ts:13-17 | a line is `[timestamp] level: message ` followed by the JSON of the metadata, or by nothing when there is none |
| Logging.Logger.constructor | src/lib/logger.ts:20-34 | a fresh logger has the mode's threshold, the service name and no entries |
| Logging.Logger.Write | src/lib/logger.ts:52 | a log call appends exactly one entry |
| Logging.Logger.Metadata | src/lib/logger.ts:22-27 | the metadata a line is formatted with starts with the default `service`; the call's fields follow exactly when the message holds no printf token (`%` and one of `s c d j i f o O %`), since no `splat` format is configured |
| Logging.LinesCarryMetadata | src/lib/logger.ts:13-27 | every printed line ends with the JSON of `service` and the call's fields, or of `service` alone when the message holds a printf token |
| Logging.ProductionDropsDebugOnly | src/lib/logger.ts:21 | errors, warnings and info entries are always printed; debug entries only outside production |
| Logging.ClientIp | src/lib/logger.ts:50 | the IP is a nonempty `x-forwarded-for`, otherwise `x-real-ip`, otherwise absent |
| Logging.LevelFor | src/lib/logger.ts:74 | error exactly from 500 up, warn exactly from 400 to 499, info exactly below 400 |
| Logging.StartEntry | src/lib/logger.ts:52 | the start entry is at debug level and carries only the IP |
| Logging.FailureEntry | src/lib/logger.ts:57-66 | the failure entry is at error level and carries the message, a stack only for Error values, the elapsed time and the IP |
| Logging.CompletionEntry | src/lib/logger.ts:70-79 | the completion entry's level is `LevelFor(status)`, with the elapsed time and the IP |
| Logging.LoggerMiddleware | src/lib/logger.ts:47-80 | one start entry, then the downstream entries, then exactly one failure or completion entry, both timed from the one start; a failure is rethrown unchanged |
| BaseController.ToJson | src/types/index.ts:7-12 | the envelope's JSON holds `status`, `timestamp`, and `message` and `data` when set, and no other key |
| BaseController.ToJsonRoundTrip | src/types/index.ts:7-12 | every envelope is read back from its JSON unchanged |
| BaseController.Success | src/controllers/base.controller.ts:13-32 | status 'success' and the timestamp always; `data` exactly when truthy; `message` exactly when truthy; the context's current status |
| BaseController.ErrorEnvelope | src/controllers/base.controller.ts:37-53 | the body is exactly `status` 'error', the message and the timestamp, never `data`; the status defaults to 400 |
| BaseController.Error | src/controllers/base.controller.ts:37-54 | the internal error is logged at error level under the message exactly when truthy, and the reply does not depend on it |
| Validation.Context.constructor | src/lib/validation.ts:21 | a new context holds no variables |
| Validation.Context.Set | src/lib/validation.ts:21 | `c.set` stores a value under a key and changes no other key |
| Validation.ValidationMessage | src/lib/validation.ts:32-34 | the message is the target's prefix followed by `JSON.stringify` of the issue summaries |
| Validation.MessageDeterminesIssues | src/lib/validation.ts:27-34 | if `JSON.stringify` gives different lists of issue summaries different texts, the error message determines the number of issues and each one's path and message |
| Validation.TryEscape | src/lib/validation.ts:13-39 | an unread or invalid input always fails; nothing fails exactly when the input is valid and downstream ends normally; a failure passed on is never a ZodError |
| Validation.Validate | src/lib/validation.ts:11-41 | next runs exactly on valid input, on the entry variables with the parsed value alone stored; the context ends with the variables next leaves; a ZodError from the parse or downstream becomes a new 400 error with the prefixed issue list; other errors pass unchanged |
| Validation.ValidateBody | src/lib/validation.ts:11-41 | body validation under 'validatedBody', with a body that may fail to read |
| Validation.ValidateParams | src/lib/validation.ts:49-79 | path parameter validation under 'validatedParams' |
| Validation.ValidateQuery | src/lib/validation.ts:87-117 | query validation under 'validatedQuery' |
| Config.NodeEnvFrom | src/lib/env.ts:10-12 | `NODE_ENV` is accepted exactly when it is one of 'development', 'production', 'test' |
| Config.CorsOrigins | src/lib/env.ts:25-28 | absent or empty gives no origins; otherwise the comma-free pieces, which join back with ',' to the original |
| Config.SchemaIssues | src/lib/env.ts:8-29 | the schema reports no issue exactly on an acceptable environment |
| Config.Acceptable | src/lib/env.ts:8-29 | the key-by-key reference for what the schema accepts; every required key is set in an acceptable environment |
| Config.ParseEnv | src/lib/env.ts:8-29 | parsing succeeds exactly on acceptable environments; then each key has its value or default, the secret has at least 32 characters and the URL passes the check |
| Config.MissingVars | src/lib/env.ts:52-54 | at most one name per issue (its entries are fixed by MissingSingle and MissingAppend, and for the schema by MissingAreAbsentRequired) |
| Config.InvalidVars | src/lib/env.ts:56-61 | at most one summary per issue (its entries are fixed by InvalidSingle and InvalidAppend) |
| Config.MissingEmpty | src/lib/env.ts:52-54 | the missing list is empty exactly when no issue says 'Required' |
| Config.InvalidEmpty | src/lib/env.ts:56-61 | the invalid list is empty exactly when every issue says 'Required' |
| Config.MissingSingle | src/lib/env.ts:52-54 | one issue gives its dotted path exactly when its message is 'Required' |
| Config.InvalidSingle | src/lib/env.ts:56-61 | one issue gives its `{path, message}` summary exactly when its message is not 'Required' |
| Config.PartitionCount | src/lib/env.ts:52-61 | every issue lands in exactly one of the two lists |
| Config.MissingAppend | src/lib/env.ts:52-54 | the missing list keeps issue order: the list of two runs of issues is the first run's list followed by the second's |
| Config.InvalidAppend | src/lib/env.ts:56-61 | the invalid list keeps issue order in the same way |
| Config.MissingAreAbsentRequired | src/lib/env.ts:17-21 | the missing list is exactly the unset keys among `DATABASE_URL`, `BETTER_AUTH_SECRET`, `BETTER_AUTH_URL`, in schema order |
| Config.ReportValue | src/lib/env.ts:64-65 | a list is reported as `undefined` exactly when it is empty |
| Config.ValidateEnv | src/lib/env.ts:40-75 | success returns the parse and logs at info; any failure logs once at error level and exits with code 1, with the lists (or `undefined`) for a ZodError and `String(error)` otherwise |
| Config.LoadEnv | src/lib/env.ts:80 | the configuration is loaded exactly on an acceptable environment; otherwise start-up ends with exit code 1 |
| Config.StartupOutcome | src/lib/env.ts:40-80 | start-up continues exactly on acceptable environments; otherwise exit code 1 and a report naming every unset required key |
| Health.GetHealth | src/controllers/health.controller.ts:14-20 | always `status` 'success', 'API работает!', `data` null, no timestamp, under the current status |
| Health.ExtendedHealthReply | src/controllers/health.controller.ts:36-58 | on success both checks 'ok' and the database response time; on failure 500 and exactly `status` 'error' and the failure message; never a timestamp |
| Health.ResponseTimeDeterminesDuration | src/controllers/health.controller.ts:46 | different durations give different `responseTime` texts |
| Health.ResponseTimeDigits | src/controllers/health.controller.ts:46 | a non-negative duration prints as digits followed by 'ms', and the digits read back to the duration |
| Health.ProbeEntry | src/controllers/health.controller.ts:32-34 | the probe entry is at info level and carries only the database duration |
| Health.GetExtendedHealth | src/controllers/health.controller.ts:25-60 | one probe; on success one info entry with the probe's own duration; on failure no entry; the reply is `ExtendedHealthReply` |

## Left out

- `src/index.ts`, `src/lib/db.ts`, `src/lib/auth.ts`, `src/lib/openapi.ts`, the schemas under `src/models/` and the route files under `src/routes/` are not part of this model. They hold server start-up, database I/O, authentication, documentation and static route wiring.
- Zod's parsing is a parameter. The model uses Zod's default issue texts for the schema's checks: 'Required', 'Invalid url', 'String must contain at least 32 character(s)' and the enum message.
- `JSON.stringify` is a parameter, so the exact text of log lines and validation messages is left open.
- Winston's transports, colouring and timestamp format are left out. The logger records every call; which calls are printed is stated separately.
- Logging.Logger.Metadata: of winston's merging of a call's arguments, only the printf-token rule is modelled. A field named `message` or `service` in a call, which winston would merge into the entry, does not occur in the core's calls and is not modelled.
- Async scheduling is left out: each `await` is a sequential step.
- Numbers are integers. Fractional numbers, `NaN` and exponent notation are not modelled.
- Config.ParseEnv: `APP_PORT` is `Number` applied to the text, as a parameter, so `NaN` for a non-numeric port is not modelled.
- Config.ParseEnv: `.min(32)` counts Unicode scalar values. JavaScript counts UTF-16 code units, so a secret with characters outside the Basic Multilingual Plane is measured differently.
- Config.ValidateEnv: `process.exit(1)` is the `Exited(1)` result. What the process does after it is not modelled.
- Health.GetExtendedHealth: the `catch` would also catch a failure of the logger call. Only a failed probe is modelled.
- Logging.LoggerMiddleware: header names are looked up in lower case. Hono's case-insensitive header matching is not modelled.
- ErrorHandler.HandleError: the production flag is an input. The source reads it from `NODE_ENV` at each call.
- Errors.StringOf: only `ZodError` is told apart from other error classes. A built-in error such as a `SyntaxError` or a `TypeError` prints its own name in JavaScript but prints as "Error" here. This text appears only in `validateEnv`'s report of a non-Zod failure, which the model of the schema parse never produces.
