/**
 * What one event listener of a channel does with one inbound message, once the
 * transport and the schema library are abstracted away (src/base.socket.ts:70-113):
 * the event's middleware chain runs first, in order and with short-circuit, then the
 * optional schema replaces the payload by its parsed value, then the handler method is
 * invoked; whatever the try block raises is classified into exactly one emit.
 */
module Dispatch {
  import opened Wrappers

  /** A middleware class, by name. */
  type MiddlewareId = string

  /** A payload schema, by name. */
  type SchemaId = string

  /** A message payload. */
  datatype Json =
    | JNull
    | JBool(b: bool)
    | JNumber(n: int)
    | JString(s: string)
    | JArray(items: seq<Json>)
    | JObject(fields: map<string, Json>)

  /** One field-level problem reported by a schema. */
  datatype Issue = Issue(path: seq<string>, message: string)

  /** What the try block of a listener can raise: a schema error, or any other error with its message. */
  datatype Thrown = ZodError(issues: seq<Issue>) | Failure(message: string)

  /**
   * What instantiating and running one middleware produces: `next()` (pass), `next(err)`
   * with a truthy `err` or a synchronous throw (reject), or an instance without a
   * `validate` function (invalid).
   */
  datatype MiddlewareOutcome = Pass | Reject(err: Thrown) | Invalid

  /** What `schema.parse(payload)` does: return the parsed value or throw a schema error. */
  datatype ParseResult = Parsed(value: Json) | ParseFailed(issues: seq<Issue>)

  /** What awaiting the handler method does: complete, or throw/reject. */
  datatype HandlerOutcome = Returns | Throws(err: Thrown)

  /**
   * What the middleware at position `i` of a list, an instance of class `m`, decides:
   * `validate(i, m)`. Every position is a fresh instance with its own `validate` call,
   * so one class listed twice may decide differently at its two positions. (Whether an
   * instance has a `validate` function depends on its class alone; every property below
   * holds for all `Decisions`, and so for those that keep `Invalid` per class.)
   */
  type Decisions = (nat, MiddlewareId) -> MiddlewareOutcome

  /**
   * The behaviour of everything outside the engine during one call: what each middleware
   * decides, what each schema parses a payload to, and what each handler method does.
   */
  datatype Env = Env(
    validate: Decisions,
    parse: (SchemaId, Json) -> ParseResult,
    handle: (string, Json) -> HandlerOutcome)

  /** The payload of an outbound emit. */
  datatype EmitBody =
    | ErrorBody(event: string, error: string)
    | ValidationBody(event: string, errors: seq<Issue>)

  /** An outbound `socket.emit(name, body)`. */
  datatype Emit = Emit(name: string, body: EmitBody)

  const ErrorEvent: string := "error"
  const ValidationErrorEvent: string := "validationError"

  /** How a middleware chain ends: every middleware passed, or the one at index `at` stopped it with `err`. */
  datatype ChainResult = Completed | Stopped(at: nat, err: Thrown)

  /** The observable result of one message: the payload the handler received, if it was invoked, and the emits. */
  datatype Delivery = Delivery(delivered: Option<Json>, emits: seq<Emit>)

  /** The error a non-passing middleware raises; `invalid` is the exception thrown for a middleware without `validate`. */
  function StopError(o: MiddlewareOutcome, invalid: Thrown): Thrown
  {
    match o
    case Reject(err) => err
    case _ => invalid
  }

  /** Running the middleware `mws` from index `i` on, each awaited before the next starts. */
  function ChainFrom(mws: seq<MiddlewareId>, i: nat, validate: Decisions, invalid: Thrown): ChainResult
    decreases |mws| - i
  {
    if i >= |mws| then Completed
    else
      match validate(i, mws[i])
      case Pass => ChainFrom(mws, i + 1, validate, invalid)
      case Reject(err) => Stopped(i, err)
      case Invalid => Stopped(i, invalid)
  }

  /** Running the whole middleware list `mws`. */
  function Chain(mws: seq<MiddlewareId>, validate: Decisions, invalid: Thrown): ChainResult
  {
    ChainFrom(mws, 0, validate, invalid)
  }

  ghost predicate AllPass(mws: seq<MiddlewareId>, validate: Decisions)
  {
    forall i :: 0 <= i < |mws| ==> validate(i, mws[i]) == Pass
  }

  /** `k` is the index of the first middleware of `mws` that does not pass. */
  ghost predicate FirstFailure(mws: seq<MiddlewareId>, validate: Decisions, k: nat)
  {
    && k < |mws|
    && validate(k, mws[k]) != Pass
    && forall i :: 0 <= i < k ==> validate(i, mws[i]) == Pass
  }

  lemma {:induction false} ChainFromStopsAtFirstFailure(mws: seq<MiddlewareId>, i: nat, validate: Decisions, invalid: Thrown)
    ensures ChainFrom(mws, i, validate, invalid).Completed? <==>
              forall j :: i <= j < |mws| ==> validate(j, mws[j]) == Pass
    ensures ChainFrom(mws, i, validate, invalid).Stopped? ==>
              var r := ChainFrom(mws, i, validate, invalid);
              && i <= r.at < |mws|
              && validate(r.at, mws[r.at]) != Pass
              && (forall j :: i <= j < r.at ==> validate(j, mws[j]) == Pass)
              && r.err == StopError(validate(r.at, mws[r.at]), invalid)
    decreases |mws| - i
  {
    if i < |mws| {
      ChainFromStopsAtFirstFailure(mws, i + 1, validate, invalid);
    }
  }

  /**
   * The chain completes exactly when every middleware passes, and otherwise stops at the
   * first one that does not pass, with that middleware's error: the ones after it never run.
   */
  lemma ChainStopsAtFirstFailure(mws: seq<MiddlewareId>, validate: Decisions, invalid: Thrown)
    ensures Chain(mws, validate, invalid).Completed? <==> AllPass(mws, validate)
    ensures Chain(mws, validate, invalid).Stopped? ==>
              var r := Chain(mws, validate, invalid);
              FirstFailure(mws, validate, r.at) && r.err == StopError(validate(r.at, mws[r.at]), invalid)
  {
    ChainFromStopsAtFirstFailure(mws, 0, validate, invalid);
  }

  /** `validate` as seen by a list that starts `n` positions further on. */
  function Shift(validate: Decisions, n: nat): Decisions
  {
    (i: nat, m: MiddlewareId) => validate(i + n, m)
  }

  /** A stop at index `k` of a list is a stop at index `n + k` of a list `n` entries longer in front. */
  function Offset(r: ChainResult, n: nat): ChainResult
  {
    match r
    case Completed => Completed
    case Stopped(k, err) => Stopped(n + k, err)
  }

  lemma {:induction false} ChainFromSuffix(a: seq<MiddlewareId>, b: seq<MiddlewareId>, j: nat, validate: Decisions, invalid: Thrown)
    requires j <= |b|
    ensures ChainFrom(a + b, |a| + j, validate, invalid) == Offset(ChainFrom(b, j, Shift(validate, |a|), invalid), |a|)
    decreases |b| - j
  {
    if j < |b| {
      assert (a + b)[|a| + j] == b[j];
      ChainFromSuffix(a, b, j + 1, validate, invalid);
    }
  }

  lemma {:induction false} ChainFromPrefix(a: seq<MiddlewareId>, b: seq<MiddlewareId>, i: nat, validate: Decisions, invalid: Thrown)
    requires i <= |a|
    ensures ChainFrom(a + b, i, validate, invalid) ==
              match ChainFrom(a, i, validate, invalid)
              case Completed => ChainFrom(a + b, |a|, validate, invalid)
              case Stopped(k, err) => Stopped(k, err)
    decreases |a| - i
  {
    if i < |a| {
      assert (a + b)[i] == a[i];
      ChainFromPrefix(a, b, i + 1, validate, invalid);
    }
  }

  /**
   * A chain over `a + b` runs `a` first and reaches `b` only when all of `a` passed; the
   * middleware of `b` then run at positions `|a|` onwards, and a stop inside `b` is
   * reported at its position in the whole list.
   */
  lemma ChainAppend(a: seq<MiddlewareId>, b: seq<MiddlewareId>, validate: Decisions, invalid: Thrown)
    ensures Chain(a + b, validate, invalid) ==
              match Chain(a, validate, invalid)
              case Completed =>
                (match Chain(b, Shift(validate, |a|), invalid)
                 case Completed => Completed
                 case Stopped(k, err) => Stopped(|a| + k, err))
              case Stopped(k, err) => Stopped(k, err)
  {
    ChainFromPrefix(a, b, 0, validate, invalid);
    ChainFromSuffix(a, b, 0, validate, invalid);
  }

  /**
   * One class listed twice is two instances: it may pass at its first position and reject
   * at its second, and the chain then stops at the second.
   */
  lemma {:induction false} RepeatedMiddlewareDecidesPerPosition(m: MiddlewareId, validate: Decisions, err: Thrown, invalid: Thrown)
    requires validate(0, m) == Pass && validate(1, m) == Reject(err)
    ensures Chain([m, m], validate, invalid) == Stopped(1, err)
  {
    assert ChainFrom([m, m], 1, validate, invalid) == Stopped(1, err);
  }

  /**
   * The middleware loop of a listener: instantiates and awaits each middleware in turn and
   * stops at the first that does not pass. `ran` counts the middleware that were instantiated.
   */
  method RunMiddlewares(mws: seq<MiddlewareId>, validate: Decisions, invalid: Thrown)
    returns (r: ChainResult, ran: nat)
    ensures r == Chain(mws, validate, invalid)
    ensures r.Completed? <==> AllPass(mws, validate)
    ensures r.Stopped? ==> FirstFailure(mws, validate, r.at) && r.err == StopError(validate(r.at, mws[r.at]), invalid)
    ensures ran == if r.Completed? then |mws| else r.at + 1
  {
    ChainStopsAtFirstFailure(mws, validate, invalid);
    var i := 0;
    while i < |mws|
      invariant 0 <= i <= |mws|
      invariant forall j :: 0 <= j < i ==> validate(j, mws[j]) == Pass
    {
      var outcome := validate(i, mws[i]);
      if outcome != Pass {
        r, ran := Stopped(i, StopError(outcome, invalid)), i + 1;
        return;
      }
      i := i + 1;
    }
    r, ran := Completed, |mws|;
  }

  /** The emit the catch block of a listener sends for a raised error. */
  function Report(event: string, err: Thrown): Emit
  {
    match err
    case ZodError(issues) => Emit(ValidationErrorEvent, ValidationBody(event, issues))
    case Failure(message) => Emit(ErrorEvent, ErrorBody(event, message))
  }

  /** Schema errors, and only they, become `validationError`; everything else becomes `error`; both carry the event name. */
  lemma ReportClassifies(event: string, err: Thrown)
    ensures Report(event, err).name == ValidationErrorEvent <==> err.ZodError?
    ensures Report(event, err).name == ErrorEvent <==> err.Failure?
    ensures Report(event, err).body.event == event
    ensures err.ZodError? ==> Report(event, err).body == ValidationBody(event, err.issues)
    ensures err.Failure? ==> Report(event, err).body == ErrorBody(event, err.message)
  {
  }

  /** Invoking the handler method with `arg`. */
  function Invoke(event: string, arg: Json, env: Env): Delivery
  {
    match env.handle(event, arg)
    case Returns => Delivery(Some(arg), [])
    case Throws(err) => Delivery(Some(arg), [Report(event, err)])
  }

  /**
   * One message `payload` for `event` reaching its listener: middleware `mws`, then the
   * schema if there is one, then the handler; `invalid` is the exception for a middleware
   * without `validate`.
   */
  function Listen(event: string, mws: seq<MiddlewareId>, schema: Option<SchemaId>, payload: Json, invalid: Thrown, env: Env): Delivery
  {
    match Chain(mws, env.validate, invalid)
    case Stopped(_, err) => Delivery(None, [Report(event, err)])
    case Completed =>
      match schema
      case None => Invoke(event, payload, env)
      case Some(s) =>
        match env.parse(s, payload)
        case ParseFailed(issues) => Delivery(None, [Report(event, ZodError(issues))])
        case Parsed(v) => Invoke(event, v, env)
  }

  /**
   * A listener never emits more than once: it emits nothing exactly when the handler was
   * invoked and completed, and otherwise exactly one report.
   */
  lemma ListenEmitsAtMostOnce(event: string, mws: seq<MiddlewareId>, schema: Option<SchemaId>, payload: Json, invalid: Thrown, env: Env)
    ensures var d := Listen(event, mws, schema, payload, invalid, env);
      && |d.emits| <= 1
      && (d.emits == [] <==> d.delivered.Some? && env.handle(event, d.delivered.value) == Returns)
  {
  }

  /** A middleware that stops the chain is reported once, and the handler is not invoked. */
  lemma ListenStopsOnMiddleware(event: string, mws: seq<MiddlewareId>, schema: Option<SchemaId>, payload: Json, invalid: Thrown, env: Env, k: nat)
    requires FirstFailure(mws, env.validate, k)
    ensures Listen(event, mws, schema, payload, invalid, env)
         == Delivery(None, [Report(event, StopError(env.validate(k, mws[k]), invalid))])
  {
    ChainStopsAtFirstFailure(mws, env.validate, invalid);
  }

  /**
   * The handler is invoked exactly when every middleware passed and the schema, if any,
   * accepted the payload; it receives the parsed value when there is a schema and the raw
   * payload when there is none.
   */
  lemma ListenDeliversParsedPayload(event: string, mws: seq<MiddlewareId>, schema: Option<SchemaId>, payload: Json, invalid: Thrown, env: Env)
    ensures var d := Listen(event, mws, schema, payload, invalid, env);
      && (d.delivered.Some? <==>
            AllPass(mws, env.validate) && (schema.None? || env.parse(schema.value, payload).Parsed?))
      && (d.delivered.Some? && schema.None? ==> d.delivered.value == payload)
      && (d.delivered.Some? && schema.Some? ==> env.parse(schema.value, payload) == Parsed(d.delivered.value))
  {
    ChainStopsAtFirstFailure(mws, env.validate, invalid);
  }

  /**
   * Once the middleware passed, a schema rejection is reported as one `validationError`
   * carrying all of the schema's issues, and an error thrown by the handler is reported
   * once, classified like any other raised error.
   */
  lemma ListenReportsRaisedErrors(event: string, mws: seq<MiddlewareId>, schema: Option<SchemaId>, payload: Json, invalid: Thrown, env: Env)
    requires AllPass(mws, env.validate)
    ensures schema.Some? && env.parse(schema.value, payload).ParseFailed? ==>
              Listen(event, mws, schema, payload, invalid, env)
              == Delivery(None, [Emit(ValidationErrorEvent, ValidationBody(event, env.parse(schema.value, payload).issues))])
    ensures var d := Listen(event, mws, schema, payload, invalid, env);
              d.delivered.Some? && env.handle(event, d.delivered.value).Throws? ==>
                d.emits == [Report(event, env.handle(event, d.delivered.value).err)]
  {
    ChainStopsAtFirstFailure(mws, env.validate, invalid);
  }
}
