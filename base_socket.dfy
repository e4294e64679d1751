/**
 * `BaseSocket.register` and the two closures it installs: the connection listener of a
 * channel's namespace (class middleware, then the handler instance, then one event
 * listener per marked method) and the event listener (event middleware, schema,
 * handler, error classification). Metadata is read from the registry at the same
 * moments as the source reads it: namespace and class middleware at registration,
 * the event markers and event middleware on each connection, the schema on each message.
 */
module Channel {
  import opened Wrappers
  import opened Dispatch
  import opened Metadata
  import opened Transport

  const MissingNamespaceMessage: string := "Handler must have a @SocketNamespace decorator."
  const ConstructorName: string := "constructor"

  /** The message of the exception thrown for a class middleware without `validate`. */
  function InvalidClassMiddlewareMessage(namespace: string): string
  {
    "Middleware for namespace \"" + namespace + "\" is invalid."
  }

  /** The message of the exception thrown for an event middleware without `validate`. */
  function InvalidEventMiddlewareMessage(event: string, cls: HandlerClass): string
  {
    "Middleware for event \"" + event + "\" in " + cls.text + " is invalid."
  }

  /** JavaScript truthiness of a stored value. */
  predicate Truthy(v: MetaValue)
  {
    match v
    case Name(s) => s != ""
    case Middlewares(_) => true
    case Schema(_) => true
    case Marker(b) => b
  }

  /** The namespace of `cls` when it is truthy; `None` when it is absent or the empty string. */
  function NamespaceOf(t: Table, cls: string): Option<string>
  {
    match GetMetadata(t, NamespaceKey, ClassTarget(cls), None)
    case Some(Name(s)) => if s == "" then None else Some(s)
    case _ => None
  }

  /** `Reflect.getMetadata('middlewares', cls) || []`. */
  function ClassMiddlewaresOf(t: Table, cls: string): seq<MiddlewareId>
  {
    match GetMetadata(t, MiddlewaresKey, ClassTarget(cls), None)
    case Some(Middlewares(list)) => list
    case _ => []
  }

  /** Whether the `isSocketEvent` metadata of (prototype of `cls`, `member`) is truthy. */
  predicate IsSocketEvent(t: Table, cls: string, member: string)
  {
    match GetMetadata(t, IsSocketEventKey, PrototypeTarget(cls), Some(member))
    case Some(v) => Truthy(v)
    case None => false
  }

  /** `Reflect.getMetadata('middlewares:' + event, prototype) || []`. */
  function EventMiddlewaresOf(t: Table, cls: string, event: string): seq<MiddlewareId>
  {
    match GetMetadata(t, EventMiddlewaresKey(event), PrototypeTarget(cls), None)
    case Some(Middlewares(list)) => list
    case _ => []
  }

  /** The schema stored under `eventValidator:<event>` on the prototype, if any. */
  function ValidatorOf(t: Table, cls: string, event: string): Option<SchemaId>
  {
    match GetMetadata(t, EventValidatorKey(event), PrototypeTarget(cls), None)
    case Some(Schema(s)) => Some(s)
    case _ => None
  }

  /**
   * The events wired on a connection: the prototype's own property names, in order,
   * without `constructor`, keeping those whose event marker is set.
   */
  function SelectEvents(props: seq<string>, t: Table, cls: string): (events: seq<string>)
    ensures forall e :: e in events <==> e in props && e != ConstructorName && IsSocketEvent(t, cls, e)
    ensures |events| <= |props|
  {
    if props == [] then []
    else
      var rest := SelectEvents(props[1..], t, cls);
      if props[0] != ConstructorName && IsSocketEvent(t, cls, props[0]) then [props[0]] + rest else rest
  }

  /** Selection keeps the prototype's order: selecting from `a + b` selects from `a`, then from `b`. */
  lemma {:induction false} SelectEventsPreservesOrder(a: seq<string>, b: seq<string>, t: Table, cls: string)
    ensures SelectEvents(a + b, t, cls) == SelectEvents(a, t, cls) + SelectEvents(b, t, cls)
    decreases |a|
  {
    if a == [] {
      assert a + b == b;
    } else {
      assert (a + b)[0] == a[0];
      assert (a + b)[1..] == a[1..] + b;
      SelectEventsPreservesOrder(a[1..], b, t, cls);
    }
  }

  /** The listeners installed for `events`, each capturing its event middleware list and the handler instance. */
  function EventListeners(events: seq<string>, t: Table, cls: HandlerClass, instance: HandlerInstance): seq<Listener>
  {
    seq(|events|, i requires 0 <= i < |events| => Listener(events[i], EventMiddlewaresOf(t, cls.name, events[i]), instance))
  }

  datatype RegisterOutcome = Returned(self: BaseSocket) | Threw(message: string)

  /** How a connection listener ends: handler wired with its instance, or aborted by the class middleware's error. */
  datatype ConnectionOutcome = Wired(instance: HandlerInstance) | Aborted(err: Thrown)

  class BaseSocket {
    const io: Server

    constructor (io: Server)
      ensures this.io == io
    {
      this.io := io;
    }

    /**
     * `register(handlerClass)`: throws when the class has no truthy namespace, before any
     * namespace is opened; otherwise appends one connection listener to that namespace,
     * capturing the class middleware read now, and returns this instance.
     */
    method Register(store: MetadataStore, cls: HandlerClass) returns (r: RegisterOutcome)
      modifies io
      ensures NamespaceOf(store.table, cls.name).None? ==>
                r == Threw(MissingNamespaceMessage) && io.namespaces == old(io.namespaces)
      ensures NamespaceOf(store.table, cls.name).Some? ==>
                var ns := NamespaceOf(store.table, cls.name).value;
                && r == Returned(this)
                && io.namespaces == old(io.namespaces)[ns := old(io.ConnectionListeners(ns)) + [Wiring(cls, ns, ClassMiddlewaresOf(store.table, cls.name))]]
    {
      var namespace := NamespaceOf(store.table, cls.name);
      var classMiddlewares := ClassMiddlewaresOf(store.table, cls.name);
      if namespace.None? {
        return Threw(MissingNamespaceMessage);
      }
      io.OnConnection(namespace.value, Wiring(cls, namespace.value, classMiddlewares));
      return Returned(this);
    }
  }

  /**
   * The connection listener `register` installs, run for a new `socket`: the class
   * middleware in order (an invalid or rejecting one aborts the listener, uncaught),
   * then a fresh handler instance and one event listener per selected event.
   */
  method OnConnection(w: Wiring, socket: Socket, store: MetadataStore, validate: Decisions)
    returns (o: ConnectionOutcome)
    modifies socket
    ensures socket.emitted == old(socket.emitted)
    ensures match Chain(w.classMiddlewares, validate, Failure(InvalidClassMiddlewareMessage(w.namespace)))
            case Stopped(_, err) =>
              o == Aborted(err) && socket.listeners == old(socket.listeners)
            case Completed =>
              && o.Wired? && fresh(o.instance)
              && o.instance.cls == w.cls && o.instance.socket == socket && o.instance.received == []
              && socket.listeners == old(socket.listeners)
                   + EventListeners(SelectEvents(w.cls.ownProperties, store.table, w.cls.name), store.table, w.cls, o.instance)
  {
    var chain, _ := RunMiddlewares(w.classMiddlewares, validate, Failure(InvalidClassMiddlewareMessage(w.namespace)));
    if chain.Stopped? {
      return Aborted(chain.err);
    }
    var instance := new HandlerInstance(w.cls, socket);
    var events := SelectEvents(w.cls.ownProperties, store.table, w.cls.name);
    var i := 0;
    while i < |events|
      invariant 0 <= i <= |events|
      invariant socket.listeners == old(socket.listeners) + EventListeners(events[..i], store.table, w.cls, instance)
      invariant socket.emitted == old(socket.emitted)
      invariant instance.received == []
    {
      var middlewares := EventMiddlewaresOf(store.table, w.cls.name, events[i]);
      socket.On(Listener(events[i], middlewares, instance));
      assert EventListeners(events[..i + 1], store.table, w.cls, instance)
          == EventListeners(events[..i], store.table, w.cls, instance) + [Listener(events[i], middlewares, instance)];
      i := i + 1;
    }
    assert events[..i] == events;
    return Wired(instance);
  }

  /**
   * The event listener installed for `l.event`, run for one inbound `payload`. The try
   * block is the middleware loop, the schema parse (its value replaces the payload) and
   * the handler call; whatever it raises is caught and emitted, and nothing propagates.
   */
  method OnEvent(l: Listener, payload: Json, store: MetadataStore, env: Env)
    modifies l.instance, l.instance.socket
    ensures var d := Listen(l.event, l.middlewares, ValidatorOf(store.table, l.instance.cls.name, l.event), payload,
                            Failure(InvalidEventMiddlewareMessage(l.event, l.instance.cls)), env);
      && l.instance.socket.emitted == old(l.instance.socket.emitted) + d.emits
      && l.instance.socket.listeners == old(l.instance.socket.listeners)
      && l.instance.received == old(l.instance.received) + (if d.delivered.Some? then [Call(l.event, d.delivered.value)] else [])
  {
    var instance := l.instance;
    var socket := instance.socket;
    var err: Option<Thrown> := None;
    var chain, _ := RunMiddlewares(l.middlewares, env.validate, Failure(InvalidEventMiddlewareMessage(l.event, instance.cls)));
    if chain.Stopped? {
      err := Some(chain.err);
    } else {
      var arg := payload;
      var schema := ValidatorOf(store.table, instance.cls.name, l.event);
      if schema.Some? {
        match env.parse(schema.value, arg)
        case Parsed(v) =>
          arg := v;
        case ParseFailed(issues) =>
          err := Some(ZodError(issues));
      }
      if err.None? {
        instance.Receive(l.event, arg);
        match env.handle(l.event, arg)
        case Returns =>
        case Throws(e) =>
          err := Some(e);
      }
    }
    if err.Some? {
      socket.Send(Report(l.event, err.value));
    }
  }

  /**
   * `@SocketChannel(name)` round trip: `register` reads back exactly `name` for that class
   * when it is non-empty and rejects it when it is empty; no other read changes.
   */
  lemma SocketChannelRoundTrip(t: Table, cls: string, name: string)
    ensures var t' := t[NamespaceEntry(cls) := Name(name)];
      && NamespaceOf(t', cls) == (if name == "" then None else Some(name))
      && (forall c :: c != cls ==> NamespaceOf(t', c) == NamespaceOf(t, c))
      && (forall c :: ClassMiddlewaresOf(t', c) == ClassMiddlewaresOf(t, c))
      && (forall c, e :: EventMiddlewaresOf(t', c, e) == EventMiddlewaresOf(t, c, e))
      && (forall c, e :: ValidatorOf(t', c, e) == ValidatorOf(t, c, e))
      && (forall c, e :: IsSocketEvent(t', c, e) == IsSocketEvent(t, c, e))
  {
  }

  /**
   * `@SocketMiddleware(...)` round trip: the connection listener runs exactly the stored list,
   * in argument order (an empty list meaning no class middleware); no other read changes.
   */
  lemma SocketMiddlewareRoundTrip(t: Table, cls: string, mws: seq<MiddlewareId>)
    ensures var t' := t[ClassMiddlewaresEntry(cls) := Middlewares(mws)];
      && ClassMiddlewaresOf(t', cls) == mws
      && (forall c :: c != cls ==> ClassMiddlewaresOf(t', c) == ClassMiddlewaresOf(t, c))
      && (forall c :: NamespaceOf(t', c) == NamespaceOf(t, c))
      && (forall c, e :: EventMiddlewaresOf(t', c, e) == EventMiddlewaresOf(t, c, e))
      && (forall c, e :: ValidatorOf(t', c, e) == ValidatorOf(t, c, e))
      && (forall c, e :: IsSocketEvent(t', c, e) == IsSocketEvent(t, c, e))
  {
  }

  /**
   * `@EventMiddleware(...)` round trip: the dispatcher reads back the stored list for the
   * decorated event, in order; every other event keeps its own list, and no other read changes.
   */
  lemma EventMiddlewareRoundTrip(t: Table, cls: string, member: string, mws: seq<MiddlewareId>)
    ensures var t' := t[EventMiddlewaresEntry(cls, member) := Middlewares(mws)];
      && EventMiddlewaresOf(t', cls, member) == mws
      && (forall c, e :: (c, e) != (cls, member) ==> EventMiddlewaresOf(t', c, e) == EventMiddlewaresOf(t, c, e))
      && (forall c :: NamespaceOf(t', c) == NamespaceOf(t, c))
      && (forall c :: ClassMiddlewaresOf(t', c) == ClassMiddlewaresOf(t, c))
      && (forall c, e :: ValidatorOf(t', c, e) == ValidatorOf(t, c, e))
      && (forall c, e :: IsSocketEvent(t', c, e) == IsSocketEvent(t, c, e))
  {
    var t' := t[EventMiddlewaresEntry(cls, member) := Middlewares(mws)];
    forall c, e ensures ValidatorOf(t', c, e) == ValidatorOf(t, c, e)
                     && ((c, e) != (cls, member) ==> EventMiddlewaresOf(t', c, e) == EventMiddlewaresOf(t, c, e))
    {
      DecoratorEntriesDistinct(cls, member, c, e);
      assert MetaKey(EventValidatorKey(e), PrototypeTarget(c), None) == ValidatorEntry(c, e);
      assert MetaKey(EventMiddlewaresKey(e), PrototypeTarget(c), None) == EventMiddlewaresEntry(c, e);
    }
    forall c ensures EventMiddlewaresEntry(cls, member) != NamespaceEntry(c) && EventMiddlewaresEntry(cls, member) != ClassMiddlewaresEntry(c) {
      DecoratorEntriesDistinct(c, member, cls, member);
    }
  }

  /**
   * `@EventValidator(schema)` round trip: the dispatcher finds exactly this schema for the
   * decorated event; every other event keeps its own, and no other read changes.
   */
  lemma EventValidatorRoundTrip(t: Table, cls: string, member: string, schema: SchemaId)
    ensures var t' := t[ValidatorEntry(cls, member) := Schema(schema)];
      && ValidatorOf(t', cls, member) == Some(schema)
      && (forall c, e :: (c, e) != (cls, member) ==> ValidatorOf(t', c, e) == ValidatorOf(t, c, e))
      && (forall c :: NamespaceOf(t', c) == NamespaceOf(t, c))
      && (forall c :: ClassMiddlewaresOf(t', c) == ClassMiddlewaresOf(t, c))
      && (forall c, e :: EventMiddlewaresOf(t', c, e) == EventMiddlewaresOf(t, c, e))
      && (forall c, e :: IsSocketEvent(t', c, e) == IsSocketEvent(t, c, e))
  {
    var t' := t[ValidatorEntry(cls, member) := Schema(schema)];
    forall c, e ensures EventMiddlewaresOf(t', c, e) == EventMiddlewaresOf(t, c, e)
                     && ((c, e) != (cls, member) ==> ValidatorOf(t', c, e) == ValidatorOf(t, c, e))
    {
      DecoratorEntriesDistinct(c, e, cls, member);
      assert MetaKey(EventValidatorKey(e), PrototypeTarget(c), None) == ValidatorEntry(c, e);
      assert MetaKey(EventMiddlewaresKey(e), PrototypeTarget(c), None) == EventMiddlewaresEntry(c, e);
    }
    forall c ensures ValidatorEntry(cls, member) != NamespaceEntry(c) && ValidatorEntry(cls, member) != ClassMiddlewaresEntry(c) {
      DecoratorEntriesDistinct(c, member, cls, member);
    }
  }

  /**
   * `@SocketEvent()` round trip: the marked method is seen as an event by `register`, so
   * it is wired on every connection when it is an own method other than `constructor`;
   * the marker of every other (class, method) pair and every other read are unchanged.
   */
  lemma SocketEventRoundTrip(t: Table, cls: HandlerClass, member: string)
    ensures var t' := t[MarkerEntry(cls.name, member) := Marker(true)];
      && IsSocketEvent(t', cls.name, member)
      && (member in cls.ownProperties && member != ConstructorName ==> member in SelectEvents(cls.ownProperties, t', cls.name))
      && (forall c, e :: (c, e) != (cls.name, member) ==> IsSocketEvent(t', c, e) == IsSocketEvent(t, c, e))
      && (forall c :: NamespaceOf(t', c) == NamespaceOf(t, c))
      && (forall c :: ClassMiddlewaresOf(t', c) == ClassMiddlewaresOf(t, c))
      && (forall c, e :: EventMiddlewaresOf(t', c, e) == EventMiddlewaresOf(t, c, e))
      && (forall c, e :: ValidatorOf(t', c, e) == ValidatorOf(t, c, e))
  {
  }

  /**
   * Middleware attached to a method that is not marked as an event is stored but never
   * run: no listener installed on a connection is for that method.
   */
  lemma UnmarkedMembersNeverWired(t: Table, cls: HandlerClass, instance: HandlerInstance, member: string)
    requires !IsSocketEvent(t, cls.name, member)
    ensures forall l :: l in EventListeners(SelectEvents(cls.ownProperties, t, cls.name), t, cls, instance) ==> l.event != member
  {
  }
}
