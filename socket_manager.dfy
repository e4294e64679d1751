/**
 * `Ws`, the holder of the process-wide transport server. Its two static fields become
 * the fields of one `Ws` object; `boot` creates the server on its first call only.
 */
module SocketManager {
  import Transport

  const CorsOrigin: string := "*"

  class Ws {
    var booted: bool
    var io: Transport.Server?
    /** How many servers `boot` has constructed so far. */
    ghost var serversBuilt: nat

    /** Booted exactly when a server is held, and at most one server is ever built. */
    ghost predicate Valid()
      reads this
    {
      && (booted <==> io != null)
      && serversBuilt == (if booted then 1 else 0)
    }

    /** The initial state of the statics: not booted, no server. */
    constructor ()
      ensures Valid() && !booted && io == null && serversBuilt == 0
    {
      booted, io := false, null;
      serversBuilt := 0;
    }

    /**
     * `Ws.boot()`: the first call sets `booted` and then assigns a freshly constructed
     * server allowing every origin; any later call returns without touching anything.
     */
    method Boot()
      requires Valid()
      modifies this
      ensures Valid() && booted && io != null
      ensures old(booted) ==> io == old(io) && serversBuilt == old(serversBuilt)
      ensures !old(booted) ==> fresh(io) && io.corsOrigin == CorsOrigin && io.namespaces == map[] && serversBuilt == 1
    {
      if booted {
        return;
      }
      booted := true;
      io := new Transport.Server(CorsOrigin);
      serversBuilt := serversBuilt + 1;
    }
  }
}
