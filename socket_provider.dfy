/** The connection lifecycle of src/chat/SocketContext.jsx. The effect keyed on
    `[user?._id, token]` runs on each render whose keys changed: React first runs the previous
    run's cleanup, then the body, which (given an id and a token) disconnects the current socket
    and opens a new one whose `connect` handler emits `identify` and sets `socketReady`. */
module SocketProvider {
  import opened Js
  import opened Sockets

  /** The socket operations of one effect re-run: the previous cleanup's disconnect (when a
      cleanup was registered and a socket is held), then, when the guard passes, the body's
      disconnect of the held socket and the opening of `newHandle`. */
  function RerunOps(current: Option<nat>, armed: bool, guard: bool, newHandle: nat, token: JsStr): (ops: seq<SocketOp>)
    ensures guard <==> ops != [] && ops[|ops| - 1] == Opened(newHandle, token)
    ensures forall k :: 0 <= k < |ops| && ops[k].Disconnected? ==> Some(ops[k].socket) == current
    ensures forall k :: 0 <= k < |ops| - 1 ==> ops[k].Disconnected?
    ensures current.None? ==> ops == (if guard then [Opened(newHandle, token)] else [])
    ensures !guard ==> forall k :: 0 <= k < |ops| ==> ops[k].Disconnected?
    ensures |ops| == (if armed && current.Some? then 1 else 0)
                     + (if guard then (if current.Some? then 2 else 1) else 0)
  {
    var cleanup := if armed && current.Some? then [Disconnected(current.value)] else [];
    var body := if guard then (if current.Some? then [Disconnected(current.value)] else []) + [Opened(newHandle, token)] else [];
    cleanup + body
  }

  class Provider {
    const io: SocketIo
    /** `socketRef.current` */
    var current: Option<nat>
    /** `socketReady` */
    var ready: bool
    /** The keys of the last effect run, none before the first render. */
    var deps: Option<(JsStr, JsStr)>
    /** Whether the last effect run returned a cleanup (it does only past the guard). */
    var armed: bool
    /** The `connect` handler of each socket opened here: the user id it identifies with. */
    var handlers: map<nat, JsStr>
    /** The sockets this provider opened. */
    ghost var owned: set<nat>

    /** Only the held socket may be live among those opened here. */
    ghost predicate Valid()
      reads this, io
    {
      && io.Valid()
      && handlers.Keys == owned
      && (forall h :: h in owned ==> h < io.count)
      && (current.Some? ==> current.value in owned)
      && (armed ==> current.Some?)
      && (forall h :: h in owned && h in io.live ==> current == Some(h))
      && (!armed ==> current.None? || current.value !in io.live)
    }

    constructor (io: SocketIo)
      requires io.Valid()
      ensures Valid() && this.io == io
      ensures current.None? && !ready && deps.None? && !armed && handlers == map[] && owned == {}
    {
      this.io := io;
      current, ready, deps, armed, handlers := None, false, None, false, map[];
      owned := {};
    }

    /** A render with `user?._id` and `token`. */
    method Render(userId: JsStr, token: JsStr)
      requires Valid()
      modifies this, io
      ensures Valid()
      ensures old(ready) == ready
      ensures deps == Some((userId, token))
      ensures old(deps) == Some((userId, token)) ==>
                current == old(current) && armed == old(armed) && handlers == old(handlers)
                && io.log == old(io.log) && io.count == old(io.count) && io.live == old(io.live)
      ensures old(deps) != Some((userId, token)) ==>
                var guard := Truthy(userId) && Truthy(token);
                && io.log == old(io.log) + RerunOps(old(current), old(armed), guard, old(io.count), token)
                && armed == guard
                && (guard ==> current == Some(old(io.count)) && old(io.count) in io.live
                              && handlers == old(handlers)[old(io.count) := userId])
                && (!guard ==> current == old(current) && handlers == old(handlers) && io.count == old(io.count))
    {
      if deps == Some((userId, token)) {
        return;
      }
      deps := Some((userId, token));
      Cleanup();
      Body(userId, token);
    }

    /** The cleanup registered by the last run, `socketRef.current?.disconnect()`, when one was
        registered. */
    method Cleanup()
      requires Valid()
      modifies io
      ensures Valid()
      ensures armed && current.Some? ==>
                io.log == old(io.log) + [Disconnected(current.value)] && io.live == old(io.live) - {current.value}
      ensures !(armed && current.Some?) ==> io.log == old(io.log) && io.live == old(io.live)
      ensures io.count == old(io.count)
    {
      if armed && current.Some? {
        io.Disconnect(current.value);
      }
    }

    /** The effect's body: past the guard, the held socket is disconnected and a new one is
        opened and held, with its `connect` handler registered. */
    method Body(userId: JsStr, token: JsStr)
      requires Valid()
      requires current.None? || current.value !in io.live
      modifies this, io
      ensures Valid()
      ensures ready == old(ready) && deps == old(deps)
      ensures var guard := Truthy(userId) && Truthy(token);
              && io.log == old(io.log) + RerunOps(old(current), false, guard, old(io.count), token)
              && armed == guard
              && (guard ==> current == Some(old(io.count)) && old(io.count) in io.live
                            && handlers == old(handlers)[old(io.count) := userId])
              && (!guard ==> current == old(current) && handlers == old(handlers) && io.count == old(io.count))
    {
      if !(Truthy(userId) && Truthy(token)) {
        armed := false;
        return;
      }
      if current.Some? {
        io.Disconnect(current.value);
      }
      var h := io.Open(token);
      current := Some(h);
      handlers := handlers[h := userId];
      owned := owned + {h};
      armed := true;
    }

    /** The `connect` event of socket `h` (only a live socket connects): its handler emits
        `identify` with the id it was registered with, on the held socket, then sets ready. */
    method OnConnect(h: nat)
      requires Valid()
      modifies this, io
      ensures Valid()
      ensures old(ready) ==> ready
      ensures h in handlers && h in io.live ==>
                ready && current == Some(h) && io.log == old(io.log) + [Emitted(h, "identify", handlers[h])]
      ensures !(h in old(handlers) && h in old(io.live)) ==> ready == old(ready) && io.log == old(io.log)
      ensures current == old(current) && handlers == old(handlers) && deps == old(deps) && armed == old(armed)
      ensures io.live == old(io.live) && io.count == old(io.count)
    {
      if h in handlers && h in io.live {
        io.Emit(current.value, "identify", handlers[h]);
        ready := true;
      }
    }

    /** Unmounting runs the last cleanup: `socketRef.current && socketRef.current.disconnect()`. */
    method Unmount()
      requires Valid()
      modifies this, io
      ensures Valid()
      ensures ready == old(ready) && current == old(current)
      ensures armed && current.Some? ==> io.log == old(io.log) + [Disconnected(current.value)]
      ensures !(armed && current.Some?) ==> io.log == old(io.log)
      ensures forall h :: h in owned ==> h !in io.live
    {
      Cleanup();
    }
  }

  /** Among the sockets a provider opened, at most one is live at any time. */
  lemma AtMostOneLive(p: Provider)
    requires p.Valid()
    ensures forall a, b :: a in p.owned && b in p.owned && a in p.io.live && b in p.io.live ==> a == b
  {
  }
}
