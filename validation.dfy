/** The three validating middlewares `validateBody`, `validateParams` and
    `validateQuery`: read the input, parse it with a Zod schema, store the
    parsed value in the request context and call `next()`; a `ZodError`
    raised anywhere in that sequence becomes a `BadRequestError` whose message
    lists the issues, and every other failure is thrown on unchanged. */
module Validation {
  import opened Js
  import opened Zod
  import opened Errors

  /** Hono's request context, as far as `c.set` and `c.get` use it. */
  class Context {
    var vars: map<string, JsValue>

    constructor ()
      ensures vars == map[]
    {
      vars := map[];
    }

    /** `c.set(key, value)`. */
    method Set(key: string, value: JsValue)
      modifies this
      ensures vars == old(vars)[key := value]
    {
      vars := vars[key := value];
    }
  }

  /** Which part of the request a middleware validates. */
  datatype Target = Body | Params | Query

  /** The context key the parsed value is stored under. */
  function ContextKey(t: Target): string
  {
    match t
    case Body => "validatedBody"
    case Params => "validatedParams"
    case Query => "validatedQuery"
  }

  /** The text in front of the JSON list of issues. */
  function MessagePrefix(t: Target): string
  {
    match t
    case Body => "Ошибка валидации: "
    case Params => "Ошибка валидации параметров: "
    case Query => "Ошибка валидации query-параметров: "
  }

  /** The `BadRequestError` message: the prefix, then `JSON.stringify` of the
      entries (`json` stands for `JSON.stringify`). */
  function ValidationMessage(t: Target, issues: seq<Issue>, json: JsValue -> string): (r: string)
    ensures MessagePrefix(t) <= r
    ensures r[|MessagePrefix(t)|..] == json(Arr(IssueEntries(issues)))
  {
    MessagePrefix(t) + json(Arr(IssueEntries(issues)))
  }

  /** The values the message serializes: lists of issue summaries. */
  ghost predicate IsEntryList(v: JsValue)
  {
    exists s: seq<Issue> :: v == Arr(IssueEntries(s))
  }

  /** Nothing is lost in the message: as long as `JSON.stringify` maps
      different lists of issue summaries to different texts, two issue lists
      with the same message have the same length and, position by position,
      the same dotted path and the same text. */
  lemma {:induction false} MessageDeterminesIssues(t: Target, a: seq<Issue>, b: seq<Issue>, json: JsValue -> string)
    requires forall x, y :: IsEntryList(x) && IsEntryList(y) && json(x) == json(y) ==> x == y
    requires ValidationMessage(t, a, json) == ValidationMessage(t, b, json)
    ensures |a| == |b|
    ensures forall i :: 0 <= i < |a| ==>
              JoinPath(a[i].path) == JoinPath(b[i].path) && a[i].message == b[i].message
  {
    assert IsEntryList(Arr(IssueEntries(a)));
    assert IsEntryList(Arr(IssueEntries(b)));
    assert Arr(IssueEntries(a)) == Arr(IssueEntries(b));
    forall i | 0 <= i < |a|
      ensures JoinPath(a[i].path) == JoinPath(b[i].path) && a[i].message == b[i].message
    {
      assert EntryFor(a[i]) == IssueEntries(a)[i] == IssueEntries(b)[i] == EntryFor(b[i]);
    }
  }

  /** Reading the input: `c.req.json()` can fail on a body that is not JSON;
      `c.req.param()` and `c.req.query()` always succeed. */
  datatype ReadResult = Read(value: JsValue) | ReadFailed(thrown: AnyValue)

  /** How the downstream handlers end, and the context variables they leave
      behind (they share the context and may call `c.set` themselves). */
  datatype DownstreamEnd = DownstreamEnd(completion: Completion, vars: map<string, JsValue>)

  /** What the `catch` block receives: a `ZodError`'s issues, or any other value. */
  datatype Escape = Issues(issues: seq<Issue>) | Other(thrown: AnyValue)

  /** `err instanceof z.ZodError`. */
  predicate IsZodError(a: AnyValue)
  {
    a.ErrorRef? && a.err.cls == ZodErrorClass
  }

  /** Sorting a thrown value the way the `catch` block does. */
  function Catch(a: AnyValue): Escape
  {
    if IsZodError(a) then Issues(a.err.issues) else Other(a)
  }

  /** Whether the input is read and passes the schema, so that `next()` runs. */
  predicate Accepts(input: ReadResult, schema: JsValue -> ParseResult)
  {
    input.Read? && schema(input.value).Valid?
  }

  /** What reaches the `catch` block, if anything, for a context whose
      variables were `store` on entry. `next` gives how the downstream
      handlers end as a function of the variables they are handed. */
  function TryEscape(t: Target, input: ReadResult, schema: JsValue -> ParseResult,
                     next: map<string, JsValue> -> DownstreamEnd, store: map<string, JsValue>): (r: Option<Escape>)
    ensures !Accepts(input, schema) ==> r.Some?
    ensures r.None? <==>
              Accepts(input, schema) &&
              next(store[ContextKey(t) := schema(input.value).value]).completion.Normal?
    ensures r.Some? && r.value.Other? ==> !IsZodError(r.value.thrown)
    ensures input.Read? && schema(input.value).Invalid? ==> r == Some(Issues(schema(input.value).issues))
  {
    if input.ReadFailed? then Some(Catch(input.thrown))
    else
      match schema(input.value)
      case Invalid(issues) => Some(Issues(issues))
      case Valid(parsed) =>
        var down := next(store[ContextKey(t) := parsed]).completion;
        if down.Normal? then None else Some(Catch(down.thrown))
  }

  /** A `BadRequestError` carrying `message`. */
  predicate IsBadRequest(e: ErrorObject, message: string)
    reads e
  {
    e.cls == AppErrorSub(BadRequest) && e.message == message &&
    e.statusCode == 400 && e.isOperational
  }

  /** The behaviour every validating middleware promises: `next()` runs exactly
      when the input is read and valid, and then on the entry variables with
      the parsed value (and nothing else) stored under the target's key; the
      context ends with the variables `next()` leaves, or unchanged when it
      does not run; a `ZodError` from the parse or from downstream comes out
      as a new `BadRequestError` listing the issues; anything else thrown
      comes out unchanged. */
  twostate predicate Behaved(t: Target, input: ReadResult, schema: JsValue -> ParseResult, c: Context,
                             next: map<string, JsValue> -> DownstreamEnd, json: JsValue -> string,
                             nextCalled: bool, new outcome: Completion)
    reads c, if outcome.Throw? then Objects(outcome.thrown) else {}
  {
    && nextCalled == Accepts(input, schema)
    && c.vars == (if nextCalled then next(old(c.vars)[ContextKey(t) := schema(input.value).value]).vars
                  else old(c.vars))
    && match TryEscape(t, input, schema, next, old(c.vars))
       case None => outcome == Normal
       case Some(Other(thrown)) => outcome == Throw(thrown)
       case Some(Issues(issues)) =>
         && outcome.Throw? && outcome.thrown.ErrorRef?
         && fresh(outcome.thrown.err)
         && IsBadRequest(outcome.thrown.err, ValidationMessage(t, issues, json))
  }

  /** The shared body of the three middlewares; `stack` is the stack text the
      runtime gives the new error. */
  method Validate(t: Target, input: ReadResult, schema: JsValue -> ParseResult, c: Context,
                  next: map<string, JsValue> -> DownstreamEnd, json: JsValue -> string, stack: string)
    returns (nextCalled: bool, outcome: Completion)
    modifies c
    ensures Behaved(t, input, schema, c, next, json, nextCalled, outcome)
  {
    nextCalled := false;
    var escape: Option<Escape> := None;
    if input.ReadFailed? {
      escape := Some(Catch(input.thrown));
    } else {
      var parsed := schema(input.value);
      if parsed.Invalid? {
        escape := Some(Issues(parsed.issues));
      } else {
        c.Set(ContextKey(t), parsed.value);
        nextCalled := true;
        var down := next(c.vars);
        c.vars := down.vars;
        if down.completion.Throw? {
          escape := Some(Catch(down.completion.thrown));
        }
      }
    }
    if escape.None? {
      outcome := Normal;
    } else if escape.value.Other? {
      outcome := Throw(escape.value.thrown);
    } else {
      var errorMessages := IssueEntries(escape.value.issues);
      var err := new ErrorObject.BadRequestError(Some(MessagePrefix(t) + json(Arr(errorMessages))), stack);
      outcome := Throw(ErrorRef(err));
    }
  }

  /** `validateBody(schema)` applied to a request whose body read gave `body`. */
  method ValidateBody(body: ReadResult, schema: JsValue -> ParseResult, c: Context,
                      next: map<string, JsValue> -> DownstreamEnd, json: JsValue -> string, stack: string)
    returns (nextCalled: bool, outcome: Completion)
    modifies c
    ensures Behaved(Body, body, schema, c, next, json, nextCalled, outcome)
  {
    nextCalled, outcome := Validate(Body, body, schema, c, next, json, stack);
  }

  /** `validateParams(schema)` applied to a request with path parameters `params`. */
  method ValidateParams(params: JsValue, schema: JsValue -> ParseResult, c: Context,
                        next: map<string, JsValue> -> DownstreamEnd, json: JsValue -> string, stack: string)
    returns (nextCalled: bool, outcome: Completion)
    modifies c
    ensures Behaved(Params, Read(params), schema, c, next, json, nextCalled, outcome)
  {
    nextCalled, outcome := Validate(Params, Read(params), schema, c, next, json, stack);
  }

  /** `validateQuery(schema)` applied to a request with query parameters `query`. */
  method ValidateQuery(query: JsValue, schema: JsValue -> ParseResult, c: Context,
                       next: map<string, JsValue> -> DownstreamEnd, json: JsValue -> string, stack: string)
    returns (nextCalled: bool, outcome: Completion)
    modifies c
    ensures Behaved(Query, Read(query), schema, c, next, json, nextCalled, outcome)
  {
    nextCalled, outcome := Validate(Query, Read(query), schema, c, next, json, stack);
  }
}
