/**
 * The parts of the realtime transport the engine touches: a server holding the
 * connection listeners of each namespace, a connected socket holding its event
 * listeners and an append-only log of what was emitted to it, and the per-connection
 * handler instance.
 */
module Transport {
  import opened Wrappers
  import opened Dispatch

  /**
   * A handler class: its name (the metadata target), the own property names of its
   * prototype in the order `Object.getOwnPropertyNames` returns them (integer-like names
   * first, ascending, then the rest in declaration order; `constructor` included), and its
   * string form.
   */
  datatype HandlerClass = HandlerClass(name: string, ownProperties: seq<string>, text: string)

  /** One invocation `handlerInstance[event](payload)`. */
  datatype Call = Call(event: string, payload: Json)

  /** An event listener installed with `socket.on(event, ...)`, with what its closure captured. */
  datatype Listener = Listener(event: string, middlewares: seq<MiddlewareId>, instance: HandlerInstance)

  /** A connection listener installed with `nsp.on('connection', ...)` by `register`, with what its closure captured. */
  datatype Wiring = Wiring(cls: HandlerClass, namespace: string, classMiddlewares: seq<MiddlewareId>)

  class Socket {
    const id: string
    var listeners: seq<Listener>
    var emitted: seq<Emit>

    constructor (id: string)
      ensures this.id == id && listeners == [] && emitted == []
    {
      this.id := id;
      listeners, emitted := [], [];
    }

    /** `socket.on(l.event, ...)`. */
    method On(l: Listener)
      modifies this
      ensures listeners == old(listeners) + [l] && emitted == old(emitted)
    {
      listeners := listeners + [l];
    }

    /** `socket.emit(e.name, e.body)`. */
    method Send(e: Emit)
      modifies this
      ensures emitted == old(emitted) + [e] && listeners == old(listeners)
    {
      emitted := emitted + [e];
    }
  }

  /** `new handlerClass(socket)`: one per accepted connection, recording the calls its event methods receive. */
  class HandlerInstance {
    const cls: HandlerClass
    const socket: Socket
    var received: seq<Call>

    constructor (cls: HandlerClass, socket: Socket)
      ensures this.cls == cls && this.socket == socket && received == []
    {
      this.cls, this.socket := cls, socket;
      received := [];
    }

    /** Calling the event method `event` with `payload`. */
    method Receive(event: string, payload: Json)
      modifies this
      ensures received == old(received) + [Call(event, payload)]
    {
      received := received + [Call(event, payload)];
    }
  }

  /** The transport server: the connection listeners of each namespace opened so far. */
  class Server {
    const corsOrigin: string
    var namespaces: map<string, seq<Wiring>>

    constructor (corsOrigin: string)
      ensures this.corsOrigin == corsOrigin && namespaces == map[]
    {
      this.corsOrigin := corsOrigin;
      namespaces := map[];
    }

    function ConnectionListeners(name: string): seq<Wiring>
      reads this
    {
      if name in namespaces then namespaces[name] else []
    }

    /** `this.of(name).on('connection', ...)`: opens the namespace if needed and appends a connection listener. */
    method OnConnection(name: string, w: Wiring)
      modifies this
      ensures namespaces == old(namespaces)[name := old(ConnectionListeners(name)) + [w]]
    {
      namespaces := namespaces[name := ConnectionListeners(name) + [w]];
    }
  }
}
