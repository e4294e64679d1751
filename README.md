# Declarative socket event routing, modelled in Dafny

This project models the event-routing and middleware-dispatch engine of an AdonisJS
socket.io integration. Developers decorate a handler class as follows:

- `@SocketChannel(name)` binds the class to a namespace.
- `@SocketMiddleware(...)` attaches class-level middleware.
- `@SocketEvent()` marks a method as an event handler.
- `@EventMiddleware(...)` attaches middleware to one event.
- `@EventValidator(schema)` attaches a payload schema to one event.

`BaseSocket.register` turns that metadata into live listeners. `Ws.boot` creates the
process-wide server once.

Modules:

- `Metadata` (metadata.dfy) is the reflection registry. It is a table keyed by a key
  string, a target (a class or its prototype) and an optional property. It defines the key
  builders (`middlewares:<method>`, `eventValidator:<method>`) and proves that they are
  injective and that the key families never collide. `MetadataStore` is the mutable
  registry. Its invariant is that every entry holds the kind of value its key stands for.
- `Decorators` (decorators.dfy) holds the five decorators. Each one is a method that
  writes exactly one entry into the store.
- `Dispatch` (dispatch.dfy) holds the pure semantics of one event listener. `Chain` runs
  the middleware in order with short-circuit. `Listen` runs the middleware, then the
  optional schema (whose parsed value replaces the payload), then the handler, and
  classifies whatever was raised into exactly one emit. `RunMiddlewares` is the
  middleware loop itself.
- `Transport` (transport.dfy) is the abstract socket.io layer. A `Server` holds the
  connection listeners of each namespace. A `Socket` holds its event listeners and an
  append-only log of what was emitted to it. A `HandlerInstance` records the calls its
  event methods receive.
- `Channel` (base_socket.dfy) holds `BaseSocket.Register`, the connection listener
  (`OnConnection`) and the event listener (`OnEvent`). Each is proved against the pure
  definitions. The module also has the metadata reads and the round-trip lemmas that
  link each decorator's write to the read that `register` performs.
- `SocketManager` (socket_manager.dfy) holds `Ws` and its idempotent `Boot`.

The outside world is a parameter. `Env` says what each middleware decides (`Pass`,
`Reject(err)` or `Invalid` for an instance without `validate`), by its position in the
list as well as its class, because every position is a fresh instance with its own
`validate` call. It also says what each schema parses a
payload to (`Parsed(v)` or `ParseFailed(issues)`), and what each handler method does
(`Returns` or `Throws(err)`).

In these points the model follows the code, which may not be what a reader expects:

- The catch block classifies by error type. Any schema error raised in the try block
  becomes `validationError`, whether a middleware, the schema or the handler raised it.
  Every other error becomes `error`.
- A class middleware without `validate` is only detected when a connection arrives. An
  event middleware without `validate` is only detected when a message arrives. Neither is
  detected at registration.
- When a class middleware rejects or is invalid, the error is not caught. The connection
  listener stops, and no handler instance or event listener is created.
- Registering a second class on the same namespace is not rejected. It appends another
  connection listener.

## Model

| member | source | states |
|---|---|---|
| `Dispatch.RunMiddlewares` | src/base.socket.ts:73-85 | The middleware loop returns the result of `Chain`. It completes exactly when every middleware passes. Otherwise it stops at the first middleware that does not pass, with that middleware's error (a rejection's own error, or the invalid-middleware exception). Exactly the middleware up to and including that one were instantiated. |
| `Dispatch.ChainStopsAtFirstFailure` | src/base.socket.ts:45-55 | Class middleware run in list order. The chain completes if and only if all pass. Otherwise it stops at the first failing index with that middleware's error, and none after it runs. |
| `Dispatch.ChainAppend` | src/base.socket.ts:73-85 | Running `a + b` runs `a` first and reaches `b` only when all of `a` passed. The middleware of `b` then run at positions `|a|` onwards, and a stop inside `b` is reported at its position in the whole list. |
| `Dispatch.RepeatedMiddlewareDecidesPerPosition` | src/base.socket.ts:45-54 | A class listed twice is instantiated twice. If it passes at position 0 and rejects at position 1, the chain stops at position 1 with that rejection. |
| `Dispatch.ReportClassifies` | src/base.socket.ts:98-111 | A raised error becomes `validationError` with `{event, errors}` if and only if it is a schema error. Otherwise it becomes `error` with `{event, error: message}`. |
| `Dispatch.ListenEmitsAtMostOnce` | src/base.socket.ts:71-112 | A message produces at most one emit. It produces none exactly when the handler was invoked and completed. |
| `Dispatch.ListenStopsOnMiddleware` | src/base.socket.ts:73-85 | When event middleware `k` is the first to reject or is invalid, the handler is not invoked and exactly one report of that middleware's error is emitted. |
| `Dispatch.ListenDeliversParsedPayload` | src/base.socket.ts:88-97 | The handler is invoked if and only if all middleware passed and the schema, if present, accepted the payload. With a schema it receives the parsed value. Without one it receives the raw payload. |
| `Dispatch.ListenReportsRaisedErrors` | src/base.socket.ts:88-105 | After the middleware pass, a schema rejection yields one `validationError` carrying all its issues, and the handler is not called. An error thrown by the handler yields exactly one report of that error. |
| `Metadata.EventMiddlewaresKeyInjective` | src/decorators/event_middleware.decorator.ts:17 | `"middlewares:" + p == "middlewares:" + q` if and only if `p == q`. |
| `Metadata.EventValidatorKeyInjective` | src/decorators/socket_validator.decorator.ts:16 | `"eventValidator:" + p == "eventValidator:" + q` if and only if `p == q`. |
| `Metadata.KeyFamiliesDisjoint` | src/decorators/event_middleware.decorator.ts:17 | No event-middleware key equals a schema key. Neither kind equals `namespace`, `middlewares` or `isSocketEvent`. |
| `Metadata.DecoratorEntriesDistinct` | src/decorators/socket_event.decorator.ts:8 | The entries the five decorators write are pairwise distinct. Within one decorator, equal entries mean the same (class, method). The event marker is told apart by its property, not by its key string. |
| `Metadata.DecoratorEntriesFit` | src/decorators/socket_validator.decorator.ts:14-17 | Each decorator writes a value of the kind its key family stands for, so the store's typing invariant is kept. |
| `Metadata.MetadataStore.DefineMetadata` | src/decorators/socket_channel.decorator.ts:14 | `Reflect.defineMetadata` sets exactly the one entry (key, target, property) and keeps the store well typed. |
| `Decorators.SocketChannel` | src/decorators/socket_channel.decorator.ts:12-16 | Stores the name, unchecked and possibly empty, under `namespace` on the class. It writes that entry and nothing else. |
| `Decorators.SocketMiddleware` | src/decorators/socket_middleware..decorator.ts:13-19 | Stores the middleware list, in argument order and possibly empty, under `middlewares` on the class. It writes that entry and nothing else. |
| `Decorators.EventMiddleware` | src/decorators/event_middleware.decorator.ts:13-19 | Stores the list under `middlewares:<method>` on the prototype. It writes that entry and nothing else. |
| `Decorators.EventValidator` | src/decorators/socket_validator.decorator.ts:14-18 | Stores the schema under `eventValidator:<method>` on the prototype. It writes that entry and nothing else. |
| `Decorators.SocketEvent` | src/decorators/socket_event.decorator.ts:6-10 | Sets `isSocketEvent` to true for (prototype, method). It writes that entry and nothing else. |
| `Channel.SelectEvents` | src/base.socket.ts:61-63 | An event is selected if and only if it is an own property name of the prototype, is not `constructor`, and has a truthy event marker. |
| `Channel.SelectEventsPreservesOrder` | src/base.socket.ts:61-63 | Selection is a filter. Selecting from `a + b` gives the selection from `a` followed by the selection from `b`, so events keep the prototype's order. |
| `Channel.BaseSocket.constructor` | src/base.socket.ts:13-15 | The registrar keeps the server it is given. |
| `Channel.BaseSocket.Register` | src/base.socket.ts:27-118 | With no namespace, or an empty one, it throws the missing-namespace exception and leaves the server unchanged: no namespace is opened and no listener is installed. Otherwise it appends one connection listener to that namespace, capturing the class middleware read at registration, and returns the same instance. |
| `Channel.OnConnection` | src/base.socket.ts:41-70 | Runs the class middleware chain. If it stops, the listener aborts with that error: no handler instance and no event listener. If it completes, it creates one fresh handler instance for this socket and installs exactly one listener per selected event, in order. Each listener captures that event's middleware list. Nothing is emitted. |
| `Channel.OnEvent` | src/base.socket.ts:70-113 | One message appends exactly `Listen(...).emits` to the socket's emit log. The handler instance receives exactly the payload `Listen` delivers, or nothing. The schema is read at message time. Nothing is rethrown and the listeners are unchanged. |
| `Channel.SocketChannelRoundTrip` | src/base.socket.ts:29-35 | After `@SocketChannel(name)`, `register` reads back `name` when it is non-empty and rejects the class when it is empty. Every other read is unchanged. |
| `Channel.SocketMiddlewareRoundTrip` | src/base.socket.ts:30 | After `@SocketMiddleware(...)`, the class middleware read is exactly the stored list. An empty list is the same as none. Every other read is unchanged. |
| `Channel.EventMiddlewareRoundTrip` | src/base.socket.ts:66-67 | After `@EventMiddleware(...)` on method `m`, the dispatcher reads back that list for `m`. Every other event keeps its own list, and every other read is unchanged. |
| `Channel.EventValidatorRoundTrip` | src/base.socket.ts:88-94 | After `@EventValidator(s)` on method `m`, the dispatcher finds exactly `s` for `m`. Every other event keeps its own schema, and every other read is unchanged. |
| `Channel.SocketEventRoundTrip` | src/base.socket.ts:61-63 | After `@SocketEvent()` on method `m`, `m` is an event, so it is selected when it is an own method other than `constructor`. Every other marker and every other read is unchanged. |
| `Channel.UnmarkedMembersNeverWired` | src/base.socket.ts:63-67 | A method without the event marker gets no listener, so middleware attached to it is stored but never run. |
| `SocketManager.Ws.constructor` | src/socket_manager.ts:4-5 | The server is initially not booted and holds no server. |
| `SocketManager.Ws.Boot` | src/socket_manager.ts:7-21 | The first call sets `booted` and assigns one freshly built server with CORS origin `*`. Later calls change nothing. `booted` never reverts, and at most one server is ever built. |

## Left out

- Asynchrony is not modelled: the interleaving of messages and connections, and
  messages that arrive before a connection's listeners are installed. Each listener run
  is modelled as one atomic step.
- A middleware that never calls `next` is not modelled, because the source then waits
  forever. The unused promise that `validate` returns is not modelled either.
- A failing class middleware raises an unhandled promise rejection. The model gives this
  as the outcome `Aborted(err)` and does not model the runtime's reaction to it.
- socket.io's fan-out is not modelled: one connection reaching several connection
  listeners, or one message reaching several listeners of the same event.
  `OnConnection` and `OnEvent` model a single listener.
- Namespace-name normalisation and disconnects are left out. They belong to socket.io.
- `io.of(name)` and `nsp.on('connection', ...)` are fused into
  `Server.OnConnection`.
- `Reflect.getMetadata` also searches the prototype chain, so it inherits metadata from
  parent classes. The model looks up a class's own entries only, and so does not model
  channel inheritance.
- Own properties of the prototype are assumed to be methods. A non-function property
  (a getter, for example) is not modelled. Neither is a handler constructor that throws.
- Errors are either schema errors or errors with a string message. A middleware that
  rejects with a non-`Error` value is not modelled; the source would emit `undefined`
  as the message.
- `null` and `undefined` as errors are not modelled. A handler that throws or rejects
  with either, or a `validate` that throws either, makes `err.message` in the catch block
  raise a `TypeError`. Nothing is emitted, and the error escapes the listener as an
  unhandled rejection. `Channel.OnEvent` ("nothing is rethrown") and
  `Dispatch.ListenEmitsAtMostOnce` ("none exactly when the handler completed") hold only
  for the error values the model has.
- Classes are identified by name. Two distinct classes with the same name share their
  metadata in the model, while the source keeps separate metadata for each class object.
- Zod is reduced to the abstract `parse` function of `Env`. Payloads are JSON values
  with integer numbers only.
- `MetadataStore.DefineMetadata` accepts only values of the kind their key stands for,
  as the decorators' TypeScript types guarantee. Arbitrary user calls to
  `Reflect.defineMetadata` are not modelled.
- src/exceptions/socket.exeception.js is not part of this model. Its message is taken
  to be the constructor argument.
- Log output (`console.info` and `console.error`) is not modelled.
- `Ws.Boot` does not take the Node HTTP server (`server.getNodeServer()`). That is host
  framework state.
- Not modelled, because they are framework glue rather than routing logic:
  - providers/ws_provider.ts: container bindings, lazy server creation and `close` on
    shutdown;
  - configure.ts: scaffolding;
  - services/main.ts: container resolution.
