/** Socket.IO client connections as abstract handles: `getSocket(token)` opens a new one, and every
    emit and disconnect is recorded in a log. The transport itself is not modelled. */
module Sockets {
  import opened Js

  datatype SocketOp =
    | Opened(socket: nat, token: JsStr)
    | Emitted(socket: nat, event: string, arg: JsStr)
    | Disconnected(socket: nat)

  class SocketIo {
    var count: nat
    var live: set<nat>
    var log: seq<SocketOp>

    ghost predicate Valid()
      reads this
    {
      forall h :: h in live ==> h < count
    }

    constructor ()
      ensures Valid() && count == 0 && live == {} && log == []
    {
      count, live, log := 0, {}, [];
    }

    /** `getSocket(token)`: a fresh, live handle. */
    method Open(token: JsStr) returns (h: nat)
      requires Valid()
      modifies this
      ensures Valid()
      ensures h == old(count) && h !in old(live) && count == old(count) + 1
      ensures live == old(live) + {h} && log == old(log) + [Opened(h, token)]
    {
      h := count;
      count := count + 1;
      live := live + {h};
      log := log + [Opened(h, token)];
    }

    method Emit(h: nat, event: string, arg: JsStr)
      modifies this
      ensures count == old(count) && live == old(live)
      ensures log == old(log) + [Emitted(h, event, arg)]
    {
      log := log + [Emitted(h, event, arg)];
    }

    method Disconnect(h: nat)
      requires Valid()
      modifies this
      ensures Valid()
      ensures count == old(count) && live == old(live) - {h}
      ensures log == old(log) + [Disconnected(h)]
    {
      live := live - {h};
      log := log + [Disconnected(h)];
    }
  }
}
