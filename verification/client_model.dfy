/**
  The browser side of the control channel (src/hooks/useWebSocketControl.ts) as a
  value: the two process-wide globals `globalWs` and `globalReconnectTimeout`, the
  sockets and timers the browser holds for them, and the refs of every hook
  instance. Each socket remembers the hook whose `connect` created it, because its
  `onmessage` and `onclose` handlers close over that hook's refs. The class in
  ControlClient implements these steps in place.
 */
module ClientModel {
  import opened Wrappers
  import opened Wire

  type SocketId = nat
  type HookId = nat
  type TimerId = nat

  /** Close codes after which no reconnect is attempted. */
  const NormalClosure := 1000
  const GoingAway := 1001
  /** The delay before a reconnect, in milliseconds. */
  const ReconnectDelayMs := 5000

  /** An `onStart`/`onStop` function supplied by the UI, by identity. */
  datatype Callback = Callback(id: nat)

  /** An inbound message after `JSON.parse`: its `command` field when it is a string, or a parse failure. */
  datatype Payload = Json(command: Option<string>) | NotJson

  /** A browser WebSocket: its ready state and the hook whose handlers it carries. */
  datatype Socket = Socket(state: ReadyState, owner: HookId)

  /** One hook instance's refs: `wsRef`, `onStartRef`, `onStopRef`. */
  datatype Hook = Hook(wsRef: Option<SocketId>, onStart: Callback, onStop: Callback)

  /** The globals, the browser's sockets and armed reconnect timers (each with the hook
      whose `connect` it will call), and the hooks; plus the next fresh identities. */
  datatype ClientState = ClientState(
    globalWs: Option<SocketId>,
    globalReconnectTimeout: Option<TimerId>,
    sockets: map<SocketId, Socket>,
    timers: map<TimerId, HookId>,
    hooks: map<HookId, Hook>,
    nextSocket: nat,
    nextTimer: nat,
    nextHook: nat)

  /** Timer handles start at 1: `window.setTimeout` never returns 0, so a stored handle is truthy. */
  const Initial := ClientState(None, None, map[], map[], map[], 0, 1, 0)

  /** Identities are issued from the counters, and everything refers to things that exist. */
  ghost predicate Wf(s: ClientState)
  {
    && (s.globalWs.Some? ==> s.globalWs.value in s.sockets)
    && (forall id :: id in s.sockets ==> id < s.nextSocket && s.sockets[id].owner in s.hooks)
    && (forall t :: t in s.timers ==> 0 < t < s.nextTimer && s.timers[t] in s.hooks)
    && (forall h :: h in s.hooks ==> h < s.nextHook)
    && (forall h :: h in s.hooks && s.hooks[h].wsRef.Some? ==> s.hooks[h].wsRef.value in s.sockets)
    && 0 < s.nextTimer
  }

  predicate Live(st: ReadyState)
  {
    st == Connecting || st == Open
  }

  /** `WebSocket.close()`: a connecting or open socket starts closing; otherwise nothing changes. */
  function CloseCalled(st: ReadyState): ReadyState
  {
    if Live(st) then Closing else st
  }

  /** `globalWs?.readyState === WebSocket.OPEN` */
  predicate GlobalOpen(s: ClientState)
  {
    s.globalWs.Some? && s.globalWs.value in s.sockets && s.sockets[s.globalWs.value].state == Open
  }

  function SetWsRef(hooks: map<HookId, Hook>, h: HookId, ref: Option<SocketId>): map<HookId, Hook>
  {
    if h in hooks then hooks[h := hooks[h].(wsRef := ref)] else hooks
  }

  // ---------------------------------------------------------------- steps

  /** The first half of `connect` when the global socket is not open: close and drop the
      global socket and cancel the stored reconnect timer. */
  function Teardown(s: ClientState): ClientState
  {
    var sockets :=
      if s.globalWs.Some? && s.globalWs.value in s.sockets
      then s.sockets[s.globalWs.value := s.sockets[s.globalWs.value].(state := CloseCalled(s.sockets[s.globalWs.value].state))]
      else s.sockets;
    var timers := if s.globalReconnectTimeout.Some? then s.timers - {s.globalReconnectTimeout.value} else s.timers;
    s.(globalWs := None, globalReconnectTimeout := None, sockets := sockets, timers := timers)
  }

  /** `connect` of hook `h`: adopt an open global socket; otherwise tear the global state
      down and make a fresh CONNECTING socket global and the hook's ref. */
  function Connect(s: ClientState, h: HookId): ClientState
  {
    if GlobalOpen(s) then s.(hooks := SetWsRef(s.hooks, h, s.globalWs))
    else
      var t := Teardown(s);
      var ws := t.nextSocket;
      t.(globalWs := Some(ws),
         sockets := t.sockets[ws := Socket(Connecting, h)],
         hooks := SetWsRef(t.hooks, h, Some(ws)),
         nextSocket := ws + 1)
  }

  /** The mount effect: `connect()` unless the global socket is open, else adopt it. */
  function Mount(s: ClientState, h: HookId): ClientState
  {
    if s.globalWs.None? || !GlobalOpen(s) then Connect(s, h)
    else s.(hooks := SetWsRef(s.hooks, h, s.globalWs))
  }

  /** The effect's cleanup: forget the hook's own ref; the global socket stays open. */
  function Unmount(s: ClientState, h: HookId): ClientState
  {
    s.(hooks := SetWsRef(s.hooks, h, None))
  }

  /** The callback effect: overwrite `onStartRef.current` and `onStopRef.current`. */
  function SetCallbacks(s: ClientState, h: HookId, onStart: Callback, onStop: Callback): ClientState
  {
    if h in s.hooks then s.(hooks := s.hooks[h := s.hooks[h].(onStart := onStart, onStop := onStop)]) else s
  }

  /** A first render creates a hook instance with its refs. */
  function AddHook(s: ClientState, onStart: Callback, onStop: Callback): ClientState
  {
    s.(hooks := s.hooks[s.nextHook := Hook(None, onStart, onStop)], nextHook := s.nextHook + 1)
  }

  /** The handshake completes (`onopen` only logs). */
  function Opened(s: ClientState, id: SocketId): ClientState
  {
    if id in s.sockets && s.sockets[id].state == Connecting
    then s.(sockets := s.sockets[id := s.sockets[id].(state := Open)])
    else s
  }

  /** A socket's close event as the source handles it: the socket is CLOSED, its owner's
      `wsRef` and `globalWs` become null whichever socket closed, and a reconnect timer
      for the owner is stored in `globalReconnectTimeout` unless the code is 1000 or 1001.
      The browser fires one close event per socket, so a second one changes nothing. */
  function CloseEvent(s: ClientState, id: SocketId, code: int): ClientState
  {
    if id !in s.sockets || s.sockets[id].state == Closed then s
    else
      var owner := s.sockets[id].owner;
      var after := s.(sockets := s.sockets[id := Socket(Closed, owner)],
                      hooks := SetWsRef(s.hooks, owner, None),
                      globalWs := None);
      if code != NormalClosure && code != GoingAway then ScheduleReconnect(after, owner) else after
  }

  /** `globalReconnectTimeout = setTimeout(() => connect(), 5000)` for hook `h`: a fresh
      timer is armed and its handle stored, overwriting any earlier handle. */
  function ScheduleReconnect(s: ClientState, h: HookId): ClientState
  {
    s.(timers := s.timers[s.nextTimer := h],
       globalReconnectTimeout := Some(s.nextTimer),
       nextTimer := s.nextTimer + 1)
  }

  /** The close event with the identity check the handler lacks: only the global
      socket's closure clears `globalWs` and may schedule a reconnect. */
  function CloseEventChecked(s: ClientState, id: SocketId, code: int): ClientState
  {
    if s.globalWs != Some(id) && id in s.sockets
    then s.(sockets := s.sockets[id := s.sockets[id].(state := Closed)])
    else CloseEvent(s, id, code)
  }

  /** An armed reconnect timer fires and calls its hook's `connect`. `globalReconnectTimeout`
      keeps the spent handle; the next `connect` clears it. */
  function ReconnectFires(s: ClientState, t: TimerId): ClientState
  {
    if t in s.timers then Connect(s.(timers := s.timers - {t}), s.timers[t]) else s
  }

  /** The callbacks one inbound message invokes: `onmessage` of socket `id` calls the
      current ref of the hook that created the socket. Only an OPEN socket receives. */
  function Dispatch(s: ClientState, id: SocketId, p: Payload): seq<Callback>
  {
    if id in s.sockets && s.sockets[id].state == Open && s.sockets[id].owner in s.hooks then
      var hook := s.hooks[s.sockets[id].owner];
      if p == Json(Some(Token(TranscribeStart))) then [hook.onStart]
      else if p == Json(Some(Token(TranscribeStop))) then [hook.onStop]
      else []
    else []
  }

  /** Everything that can happen to the client, one event at a time. */
  datatype Event =
    | Render(onStart: Callback, onStop: Callback)
    | MountHook(h: HookId)
    | UnmountHook(h: HookId)
    | Reconnect(h: HookId)
    | CallbacksChanged(h: HookId, onStart: Callback, onStop: Callback)
    | SocketOpened(id: SocketId)
    | SocketClosed(id: SocketId, code: int)
    | ReconnectTimerFired(t: TimerId)

  /** One event, handled as the source does. */
  function Next(s: ClientState, e: Event): ClientState
  {
    match e
    case Render(a, b) => AddHook(s, a, b)
    case MountHook(h) => if h in s.hooks then Mount(s, h) else s
    case UnmountHook(h) => Unmount(s, h)
    case Reconnect(h) => if h in s.hooks then Connect(s, h) else s
    case CallbacksChanged(h, a, b) => SetCallbacks(s, h, a, b)
    case SocketOpened(id) => Opened(s, id)
    case SocketClosed(id, code) => CloseEvent(s, id, code)
    case ReconnectTimerFired(t) => ReconnectFires(s, t)
  }

  /** One event, with the close handler corrected. */
  function NextChecked(s: ClientState, e: Event): ClientState
  {
    if e.SocketClosed? then CloseEventChecked(s, e.id, e.code) else Next(s, e)
  }

  function Run(s: ClientState, events: seq<Event>): ClientState
    decreases |events|
  {
    if events == [] then s else Run(Next(s, events[0]), events[1..])
  }

  function RunChecked(s: ClientState, events: seq<Event>): ClientState
    decreases |events|
  {
    if events == [] then s else RunChecked(NextChecked(s, events[0]), events[1..])
  }

  // ---------------------------------------------------------------- lemmas

  lemma ConnectPreservesWf(s: ClientState, h: HookId)
    requires Wf(s) && h in s.hooks
    ensures Wf(Connect(s, h))
  {
  }

  lemma CloseEventPreservesWf(s: ClientState, id: SocketId, code: int)
    requires Wf(s)
    ensures Wf(CloseEvent(s, id, code))
  {
  }

  lemma CloseEventCheckedPreservesWf(s: ClientState, id: SocketId, code: int)
    requires Wf(s)
    ensures Wf(CloseEventChecked(s, id, code))
  {
    if s.globalWs == Some(id) || id !in s.sockets {
      CloseEventPreservesWf(s, id, code);
    }
  }

  /** Every step keeps the state well-formed. */
  lemma NextPreservesWf(s: ClientState, e: Event)
    requires Wf(s)
    ensures Wf(Next(s, e))
  {
    match e {
    case MountHook(h) => if h in s.hooks { ConnectPreservesWf(s, h); }
    case Reconnect(h) => if h in s.hooks { ConnectPreservesWf(s, h); }
    case ReconnectTimerFired(t) => if t in s.timers { ConnectPreservesWf(s.(timers := s.timers - {t}), s.timers[t]); }
    case SocketClosed(id, code) => CloseEventPreservesWf(s, id, code);
    case _ =>
    }
  }

  lemma NextCheckedPreservesWf(s: ClientState, e: Event)
    requires Wf(s)
    ensures Wf(NextChecked(s, e))
  {
    if e.SocketClosed? {
      CloseEventCheckedPreservesWf(s, e.id, e.code);
    } else {
      NextPreservesWf(s, e);
    }
  }

  /** When the global socket is open, `connect` only adopts it: no socket is created,
      closed or dropped, no timer changes and no other hook is touched. */
  lemma ConnectAdoptsOpen(s: ClientState, h: HookId)
    requires Wf(s) && h in s.hooks && GlobalOpen(s)
    ensures var t := Connect(s, h);
      && t.sockets == s.sockets && t.timers == s.timers
      && t.globalWs == s.globalWs && t.globalReconnectTimeout == s.globalReconnectTimeout
      && t.hooks.Keys == s.hooks.Keys
      && t.hooks[h] == s.hooks[h].(wsRef := s.globalWs)
      && (forall g :: g in s.hooks && g != h ==> t.hooks[g] == s.hooks[g])
  {
  }

  /** Otherwise `connect` closes the previous global socket, cancels the stored timer and
      creates exactly one new CONNECTING socket, which becomes global and the hook's ref;
      no reconnect timer is stored afterwards. Other hooks keep their refs, and only the
      stored timer is cancelled: one whose handle was overwritten stays armed. */
  lemma ConnectReplaces(s: ClientState, h: HookId)
    requires Wf(s) && h in s.hooks && !GlobalOpen(s)
    ensures var t := Connect(s, h);
      && s.nextSocket !in s.sockets
      && t.sockets.Keys == s.sockets.Keys + {s.nextSocket}
      && t.sockets[s.nextSocket] == Socket(Connecting, h)
      && t.globalWs == Some(s.nextSocket)
      && t.hooks[h].wsRef == Some(s.nextSocket)
      && (s.globalWs.Some? ==> !Live(t.sockets[s.globalWs.value].state))
      && (forall id :: id in s.sockets && Some(id) != s.globalWs ==> t.sockets[id] == s.sockets[id])
      && t.hooks.Keys == s.hooks.Keys
      && t.hooks[h] == s.hooks[h].(wsRef := Some(s.nextSocket))
      && (forall g :: g in s.hooks && g != h ==> t.hooks[g] == s.hooks[g])
      && t.globalReconnectTimeout == None
      && t.timers == (if s.globalReconnectTimeout.Some? then s.timers - {s.globalReconnectTimeout.value} else s.timers)
  {
  }

  /** Mount and `connect` agree: mount calls `connect` only when the global socket is
      absent or not open, and otherwise adopts it exactly as `connect` would. */
  lemma MountIsGuardedConnect(s: ClientState, h: HookId)
    ensures Mount(s, h) == Connect(s, h)
    ensures GlobalOpen(s) ==> Mount(s, h) == s.(hooks := SetWsRef(s.hooks, h, s.globalWs))
  {
  }

  /** Unmounting clears only that hook's ref; it never touches a socket, a timer, the
      globals or another hook. */
  lemma UnmountKeepsGlobal(s: ClientState, h: HookId)
    ensures var t := Unmount(s, h);
      && t.sockets == s.sockets && t.globalWs == s.globalWs && t.timers == s.timers
      && t.globalReconnectTimeout == s.globalReconnectTimeout
      && t.hooks.Keys == s.hooks.Keys
      && (h in s.hooks ==> t.hooks[h] == s.hooks[h].(wsRef := None))
      && (forall g :: g in s.hooks && g != h ==> t.hooks[g] == s.hooks[g])
  {
  }

  /** A close event marks the socket CLOSED, nulls `globalWs` and its owner's `wsRef`
      (even when that ref already points at a newer socket), touches no other socket, and
      arms one fresh reconnect timer for the owner, storing its handle, exactly when the
      code is neither 1000 nor 1001; otherwise the timers and stored handle are unchanged. */
  lemma CloseSchedulesIffAbnormal(s: ClientState, id: SocketId, code: int)
    requires Wf(s) && id in s.sockets && s.sockets[id].state != Closed
    ensures var t := CloseEvent(s, id, code);
      && t.globalWs == None
      && t.sockets == s.sockets[id := Socket(Closed, s.sockets[id].owner)]
      && t.hooks == SetWsRef(s.hooks, s.sockets[id].owner, None)
      && s.nextTimer !in s.timers
      && (s.nextTimer in t.timers <==> code != 1000 && code != 1001)
      && (code != 1000 && code != 1001 ==>
            t.timers == s.timers[s.nextTimer := s.sockets[id].owner]
            && t.globalReconnectTimeout == Some(s.nextTimer))
      && (code == 1000 || code == 1001 ==>
            t.timers == s.timers && t.globalReconnectTimeout == s.globalReconnectTimeout)
  {
  }

  /** A fired reconnect timer disarms itself and runs `connect` of the hook whose socket
      closed: if the global socket is OPEN that hook adopts it and no socket changes;
      otherwise a fresh CONNECTING socket owned by that hook becomes `globalWs` and the
      hook's ref, and no handle is stored. An unarmed (cleared) timer does nothing. */
  lemma TimerReconnects(s: ClientState, t: TimerId)
    requires Wf(s)
    ensures t !in s.timers ==> ReconnectFires(s, t) == s
    ensures t in s.timers ==>
      var h := s.timers[t];
      var u := ReconnectFires(s, t);
      && t !in u.timers
      && u.hooks.Keys == s.hooks.Keys
      && (forall g :: g in s.hooks && g != h ==> u.hooks[g] == s.hooks[g])
      && (GlobalOpen(s) ==>
            u.sockets == s.sockets && u.globalWs == s.globalWs
            && u.timers == s.timers - {t} && u.hooks[h].wsRef == s.globalWs)
      && (!GlobalOpen(s) ==>
            && s.nextSocket !in s.sockets
            && u.sockets[s.nextSocket] == Socket(Connecting, h)
            && u.globalWs == Some(s.nextSocket)
            && u.hooks[h].wsRef == Some(s.nextSocket)
            && (s.globalWs.Some? ==> !Live(u.sockets[s.globalWs.value].state))
            && (forall id :: id in s.sockets && Some(id) != s.globalWs ==> u.sockets[id] == s.sockets[id])
            && u.globalReconnectTimeout == None
            && u.timers.Keys <= s.timers.Keys)
  {
  }

  /** An inbound `transcribe-start`/`transcribe-stop` on an open socket invokes the owner's
      current `onStart`/`onStop` exactly once; any other command or an unparseable payload
      invokes nothing. A message never changes state: `Dispatch` returns calls only. */
  lemma DispatchExactlyOnce(s: ClientState, id: SocketId, c: Command, other: Option<string>)
    requires id in s.sockets && s.sockets[id].state == Open && s.sockets[id].owner in s.hooks
    requires other != Some(Token(TranscribeStart)) && other != Some(Token(TranscribeStop))
    ensures Dispatch(s, id, Json(Some(Token(c)))) ==
      [if c == TranscribeStart then s.hooks[s.sockets[id].owner].onStart else s.hooks[s.sockets[id].owner].onStop]
    ensures Dispatch(s, id, Json(other)) == []
    ensures Dispatch(s, id, NotJson) == []
  {
    TokensDiffer();
  }

  /** Dispatch uses the most recently supplied callbacks: after a callback change, a
      command on a socket created earlier invokes the new function, without reconnecting. */
  lemma DispatchUsesLatestCallbacks(s: ClientState, id: SocketId, c: Command, onStart: Callback, onStop: Callback)
    requires id in s.sockets && s.sockets[id].state == Open && s.sockets[id].owner in s.hooks
    ensures var t := SetCallbacks(s, s.sockets[id].owner, onStart, onStop);
      && t.sockets == s.sockets && t.globalWs == s.globalWs
      && Dispatch(t, id, Json(Some(Token(c)))) == [if c == TranscribeStart then onStart else onStop]
  {
    TokensDiffer();
  }

  // ---------------------------------------------------------------- the singleton invariant

  /**
    The shared connection is a singleton: every CONNECTING or OPEN socket is the global
    one; a stored reconnect handle is the only armed timer; and no timer is armed while a
    global socket exists.
   */
  ghost predicate Coherent(s: ClientState)
  {
    && (forall id :: id in s.sockets && Live(s.sockets[id].state) ==> s.globalWs == Some(id))
    && (forall t :: t in s.timers ==> s.globalReconnectTimeout == Some(t))
    && (s.globalWs.Some? ==> s.timers == map[])
  }

  /** A coherent state has at most one live socket. */
  lemma CoherentSingleLive(s: ClientState, a: SocketId, b: SocketId)
    requires Coherent(s)
    requires a in s.sockets && Live(s.sockets[a].state)
    requires b in s.sockets && Live(s.sockets[b].state)
    ensures a == b
  {
  }

  lemma ConnectPreservesCoherent(s: ClientState, h: HookId)
    requires Coherent(s)
    ensures Coherent(Connect(s, h)) && Connect(s, h).timers == map[]
  {
    var t := Connect(s, h);
    if !GlobalOpen(s) {
      assert forall k :: k in s.timers ==> Some(k) == s.globalReconnectTimeout;
      assert t.timers.Keys == {};
    }
  }

  /** With the identity check, every step keeps the singleton invariant. */
  lemma NextCheckedPreservesCoherent(s: ClientState, e: Event)
    requires Coherent(s)
    ensures Coherent(NextChecked(s, e))
  {
    match e
    case MountHook(h) => ConnectPreservesCoherent(s, h);
    case Reconnect(h) => ConnectPreservesCoherent(s, h);
    case ReconnectTimerFired(t) =>
      if t in s.timers {
        ConnectPreservesCoherent(s.(timers := s.timers - {t}), s.timers[t]);
      }
    case SocketClosed(id, code) =>
      if s.globalWs == Some(id) && id in s.sockets && s.sockets[id].state != Closed {
        assert s.timers == map[];
      }
    case _ =>
  }

  /** With the identity check, no run ever holds two live sockets. */
  lemma {:induction false} RunCheckedCoherent(s: ClientState, events: seq<Event>)
    requires Coherent(s)
    decreases |events|
    ensures Coherent(RunChecked(s, events))
  {
    if events != [] {
      NextCheckedPreservesCoherent(s, events[0]);
      RunCheckedCoherent(NextChecked(s, events[0]), events[1..]);
    }
  }

  /** Running eight events is applying `Next` eight times. */
  lemma RunEight(s: ClientState, tr: seq<Event>)
    requires |tr| == 8
    ensures Run(s, tr) ==
      Next(Next(Next(Next(Next(Next(Next(Next(s, tr[0]), tr[1]), tr[2]), tr[3]), tr[4]), tr[5]), tr[6]), tr[7])
  {
    var s1 := Next(s, tr[0]);
    var s2 := Next(s1, tr[1]);
    var s3 := Next(s2, tr[2]);
    var s4 := Next(s3, tr[3]);
    var s5 := Next(s4, tr[4]);
    var s6 := Next(s5, tr[5]);
    var s7 := Next(s6, tr[6]);
    var s8 := Next(s7, tr[7]);
    assert Run(s, tr) == Run(s1, tr[1..]);
    assert Run(s1, tr[1..]) == Run(s2, tr[2..]) by { assert tr[1..][1..] == tr[2..]; }
    assert Run(s2, tr[2..]) == Run(s3, tr[3..]) by { assert tr[2..][1..] == tr[3..]; }
    assert Run(s3, tr[3..]) == Run(s4, tr[4..]) by { assert tr[3..][1..] == tr[4..]; }
    assert Run(s4, tr[4..]) == Run(s5, tr[5..]) by { assert tr[4..][1..] == tr[5..]; }
    assert Run(s5, tr[5..]) == Run(s6, tr[6..]) by { assert tr[5..][1..] == tr[6..]; }
    assert Run(s6, tr[6..]) == Run(s7, tr[7..]) by { assert tr[6..][1..] == tr[7..]; }
    assert Run(s7, tr[7..]) == Run(s8, tr[8..]) by { assert tr[7..][1..] == tr[8..]; }
    assert tr[8..] == [];
  }

  /** React's development double-mount: mount, unmount, mount again while the first socket
      is still connecting, then that superseded socket's close event arrives. */
  function StrictModeTrace(onStart: Callback, onStop: Callback): seq<Event>
  {
    [Render(onStart, onStop), MountHook(0), UnmountHook(0), MountHook(0),
     SocketOpened(1), SocketClosed(0, 1006), ReconnectTimerFired(1), SocketOpened(2)]
  }

  /** The state after render, mount, unmount and mount: socket 0 was closed while
      connecting and socket 1 is the connecting global socket. */
  function AfterDoubleMount(onStart: Callback, onStop: Callback): ClientState
  {
    ClientState(Some(1), None, map[0 := Socket(Closing, 0), 1 := Socket(Connecting, 0)],
                map[], map[0 := Hook(Some(1), onStart, onStop)], 2, 1, 1)
  }

  lemma DoubleMount(onStart: Callback, onStop: Callback)
    ensures var tr := StrictModeTrace(onStart, onStop);
      Next(Next(Next(Next(Initial, tr[0]), tr[1]), tr[2]), tr[3]) == AfterDoubleMount(onStart, onStop)
  {
    var tr := StrictModeTrace(onStart, onStop);
    var s2 := Next(Next(Initial, tr[0]), tr[1]);
    assert s2 == ClientState(Some(0), None, map[0 := Socket(Connecting, 0)],
                             map[], map[0 := Hook(Some(0), onStart, onStop)], 1, 1, 1);
  }

  /** Socket 1 opens, then socket 0's close event (1006) arrives: `globalWs` is nulled
      and timer 1 is armed although socket 1 is open. */
  function AfterStaleClose(onStart: Callback, onStop: Callback): ClientState
  {
    ClientState(None, Some(1), map[0 := Socket(Closed, 0), 1 := Socket(Open, 0)],
                map[1 := 0], map[0 := Hook(None, onStart, onStop)], 2, 2, 1)
  }

  lemma StaleClose(onStart: Callback, onStop: Callback)
    ensures var tr := StrictModeTrace(onStart, onStop);
      Next(Next(AfterDoubleMount(onStart, onStop), tr[4]), tr[5]) == AfterStaleClose(onStart, onStop)
  {
    var s5 := Opened(AfterDoubleMount(onStart, onStop), 1);
    assert s5.sockets == map[0 := Socket(Closing, 0), 1 := Socket(Open, 0)];
  }

  /** Timer 1 fires and its `connect` opens socket 2 beside socket 1. */
  function AfterSecondSocket(onStart: Callback, onStop: Callback): ClientState
  {
    ClientState(Some(2), None, map[0 := Socket(Closed, 0), 1 := Socket(Open, 0), 2 := Socket(Open, 0)],
                map[], map[0 := Hook(Some(2), onStart, onStop)], 3, 2, 1)
  }

  lemma SecondSocket(onStart: Callback, onStop: Callback)
    ensures var tr := StrictModeTrace(onStart, onStop);
      Next(Next(AfterStaleClose(onStart, onStop), tr[6]), tr[7]) == AfterSecondSocket(onStart, onStop)
  {
    var s7 := ReconnectFires(AfterStaleClose(onStart, onStop), 1);
    assert s7.sockets == map[0 := Socket(Closed, 0), 1 := Socket(Open, 0), 2 := Socket(Connecting, 0)];
  }

  /** As written, the superseded socket's close event nulls `globalWs` although socket 1
      is open, and the reconnect it schedules opens socket 2 beside it: two open
      connections, each delivering every command. The corrected handler keeps one. */
  lemma StaleCloseOpensSecondSocket(onStart: Callback, onStop: Callback)
    ensures var t := Run(Initial, StrictModeTrace(onStart, onStop));
      && 1 in t.sockets && t.sockets[1].state == Open
      && 2 in t.sockets && t.sockets[2].state == Open
      && !Coherent(t)
    ensures Coherent(RunChecked(Initial, StrictModeTrace(onStart, onStop)))
  {
    var tr := StrictModeTrace(onStart, onStop);
    DoubleMount(onStart, onStop);
    StaleClose(onStart, onStop);
    SecondSocket(onStart, onStop);
    RunEight(Initial, tr);
    assert Coherent(Initial);
    RunCheckedCoherent(Initial, tr);
  }
}
