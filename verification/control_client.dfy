/**
  `useWebSocketControl` (src/hooks/useWebSocketControl.ts) as a class: the module
  globals `globalWs` and `globalReconnectTimeout`, the browser's sockets and timers,
  and every hook instance's refs are fields updated in place. Each method is proved
  to do exactly what the matching ClientModel step says.
 */
module ControlClient {
  import opened Wrappers
  import opened Wire
  import opened ClientModel

  class Client {
    /** `globalWs` */
    var globalWs: Option<SocketId>
    /** `globalReconnectTimeout` */
    var globalReconnectTimeout: Option<TimerId>
    /** every WebSocket the page created, with its ready state and creating hook */
    var sockets: map<SocketId, Socket>
    /** armed `window.setTimeout` reconnects, with the hook whose `connect` each calls */
    var timers: map<TimerId, HookId>
    /** each hook instance's `wsRef`, `onStartRef` and `onStopRef` */
    var hooks: map<HookId, Hook>
    var nextSocket: nat
    var nextTimer: nat
    var nextHook: nat

    function State(): ClientState
      reads this
    {
      ClientState(globalWs, globalReconnectTimeout, sockets, timers, hooks, nextSocket, nextTimer, nextHook)
    }

    ghost predicate Valid()
      reads this
    {
      Wf(State())
    }

    constructor ()
      ensures Valid() && State() == Initial
    {
      globalWs, globalReconnectTimeout := None, None;
      sockets, timers, hooks := map[], map[], map[];
      nextSocket, nextTimer, nextHook := 0, 1, 0;
    }

    /** A component's first render: `useRef(null)`, `useRef(onStart)`, `useRef(onStop)`. */
    method AddHook(onStart: Callback, onStop: Callback) returns (h: HookId)
      requires Valid()
      modifies this
      ensures Valid() && State() == ClientModel.AddHook(old(State()), onStart, onStop)
      ensures h == old(nextHook) && h in hooks
    {
      h := nextHook;
      hooks := hooks[h := Hook(None, onStart, onStop)];
      nextHook := nextHook + 1;
    }

    /** `connect` of hook `h` (also what the hook returns as `reconnect`). */
    method Connect(h: HookId)
      requires Valid() && h in hooks
      modifies this
      ensures Valid() && State() == ClientModel.Connect(old(State()), h)
    {
      ConnectPreservesWf(State(), h);
      if globalWs.Some? && sockets[globalWs.value].state == Open {
        hooks := hooks[h := hooks[h].(wsRef := globalWs)];
        return;
      }
      Teardown();
      var ws := nextSocket;
      nextSocket := ws + 1;
      sockets := sockets[ws := Socket(Connecting, h)];
      hooks := hooks[h := hooks[h].(wsRef := Some(ws))];
      globalWs := Some(ws);
    }

    /** `globalWs.close()`, `globalWs = null`, `clearTimeout(globalReconnectTimeout)`. */
    method Teardown()
      requires globalWs.Some? ==> globalWs.value in sockets
      modifies this
      ensures State() == ClientModel.Teardown(old(State()))
    {
      if globalWs.Some? {
        var g := globalWs.value;
        sockets := sockets[g := sockets[g].(state := CloseCalled(sockets[g].state))];
        globalWs := None;
      }
      if globalReconnectTimeout.Some? {
        timers := timers - {globalReconnectTimeout.value};
        globalReconnectTimeout := None;
      }
    }

    /** The mount effect of hook `h`. */
    method Mount(h: HookId)
      requires Valid() && h in hooks
      modifies this
      ensures Valid() && State() == ClientModel.Mount(old(State()), h)
    {
      if globalWs.None? || sockets[globalWs.value].state != Open {
        Connect(h);
      } else {
        hooks := hooks[h := hooks[h].(wsRef := globalWs)];
      }
    }

    /** The mount effect's cleanup: only the hook's own ref is cleared. */
    method Unmount(h: HookId)
      requires Valid() && h in hooks
      modifies this
      ensures Valid() && State() == ClientModel.Unmount(old(State()), h)
    {
      hooks := hooks[h := hooks[h].(wsRef := None)];
    }

    /** The callback effect: the refs take the latest functions. */
    method SetCallbacks(h: HookId, onStart: Callback, onStop: Callback)
      requires Valid() && h in hooks
      modifies this
      ensures Valid() && State() == ClientModel.SetCallbacks(old(State()), h, onStart, onStop)
    {
      hooks := hooks[h := hooks[h].(onStart := onStart, onStop := onStop)];
    }

    /** The handshake of socket `id` completes. */
    method OnOpen(id: SocketId)
      requires Valid()
      modifies this
      ensures Valid() && State() == Opened(old(State()), id)
    {
      if id in sockets && sockets[id].state == Connecting {
        sockets := sockets[id := sockets[id].(state := Open)];
      }
    }

    /** `ws.onclose` as written. */
    method OnClose(id: SocketId, code: int)
      requires Valid()
      modifies this
      ensures Valid() && State() == CloseEvent(old(State()), id, code)
    {
      CloseEventPreservesWf(State(), id, code);
      if id in sockets && sockets[id].state != Closed {
        var owner := sockets[id].owner;
        sockets := sockets[id := Socket(Closed, owner)];
        hooks := hooks[owner := hooks[owner].(wsRef := None)];
        globalWs := None;
        if code != NormalClosure && code != GoingAway {
          ScheduleReconnect(owner);
        }
      }
    }

    /** `window.setTimeout` arming a reconnect for hook `h`, its handle stored globally. */
    method ScheduleReconnect(h: HookId)
      modifies this
      ensures State() == ClientModel.ScheduleReconnect(old(State()), h)
    {
      var t := nextTimer;
      nextTimer := t + 1;
      timers := timers[t := h];
      globalReconnectTimeout := Some(t);
    }

    /** `ws.onclose` with the identity check: a superseded socket's closure is ignored. */
    method OnCloseChecked(id: SocketId, code: int)
      requires Valid()
      modifies this
      ensures Valid() && State() == CloseEventChecked(old(State()), id, code)
      ensures old(Coherent(State())) ==> Coherent(State())
    {
      if old(Coherent(State())) {
        NextCheckedPreservesCoherent(State(), SocketClosed(id, code));
      }
      if globalWs != Some(id) && id in sockets {
        sockets := sockets[id := sockets[id].(state := Closed)];
      } else {
        OnClose(id, code);
      }
    }

    /** The reconnect timer `t` fires and calls its hook's `connect`. */
    method OnReconnectTimer(t: TimerId)
      requires Valid()
      modifies this
      ensures Valid() && State() == ReconnectFires(old(State()), t)
    {
      if t in timers {
        var h := timers[t];
        timers := timers - {t};
        Connect(h);
      }
    }

    /** `ws.onmessage` of socket `id`: returns the callbacks invoked; no field changes. */
    method OnMessage(id: SocketId, p: Payload) returns (calls: seq<Callback>)
      requires Valid()
      ensures calls == Dispatch(State(), id, p)
    {
      calls := [];
      if id in sockets && sockets[id].state == Open {
        var hook := hooks[sockets[id].owner];
        match p
        case Json(command) =>
          if command == Some(Token(TranscribeStart)) {
            calls := [hook.onStart];
          } else if command == Some(Token(TranscribeStop)) {
            calls := [hook.onStop];
          }
        case NotJson =>
      }
    }
  }
}
