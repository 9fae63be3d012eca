/**
  The dev server's control state as a value, and one step function per request
  handler and socket event (vite.config.ts). The module-level variables are the
  fields of `ServerState`; the `ws` sockets and the stop requests' `res` objects
  are named by identities. The class in DevServer implements these steps in place.
 */
module ServerModel {
  import opened Wrappers
  import opened Wire

  type SocketId = nat
  type RequestId = nat

  /** The budget a stop request waits for a transcription, in milliseconds. */
  const StopTimeoutMs := 30000

  /** One entry of the transcription log. */
  datatype Record = Record(text: string, timestamp: string)

  /** The HTTP method of a request, as far as the handlers tell methods apart. */
  datatype Verb = Get | Post | OtherVerb

  /** A transcription POST body after `JSON.parse`: its `text` field, or a parse failure. */
  datatype RequestBody = Parsed(text: string) | Unparseable

  /** The JSON object a handler writes back. */
  datatype Body =
    | Accepted(timestamp: string)                     // { success: true, timestamp }
    | Records(records: seq<Record>)                   // the log itself
    | Toggled(transcriptionActive: bool, message: string)
    | Started(message: string)                        // { success: true, message }
    | Stopped(message: string, transcription: Record) // { success: true, message, transcription }
    | Error(error: string)                            // { error }
    | Failure(error: string)                          // { error, success: false }

  datatype Reply = Reply(status: nat, body: Body)

  /** What a route does with its request: answer now, hold it open, or call `next()`. */
  datatype Outcome = Respond(reply: Reply) | Await(request: RequestId) | PassOn

  /** One `ws.send(message)`. */
  datatype Send = Send(to: SocketId, message: string)

  /** A deferred reply to a held stop request. */
  datatype Answer = Answer(request: RequestId, reply: Reply)

  const MethodNotAllowed := Reply(405, Error("Method not allowed"))
  const InvalidBody := Reply(400, Error("Invalid request body"))
  const StopTimedOut := Reply(408, Failure("Timeout waiting for transcription"))

  function StopResolved(rec: Record): Reply
  {
    Reply(200, Stopped("Transcription stopped", rec))
  }

  function ToggleMessage(active: bool): string
  {
    if active then "Transcription started" else "Transcription stopped"
  }

  /**
    The module-level state: the log, the registry `wsConnections` (a JS Set, so
    insertion-ordered and duplicate-free) with each socket's ready state, the
    active flag, the `once('transcription')` listeners in registration order, and
    the stop requests whose 30 s timer is armed.
   */
  datatype ServerState = ServerState(
    transcriptions: seq<Record>,
    connections: seq<SocketId>,
    readyState: map<SocketId, ReadyState>,
    transcriptionActive: bool,
    listeners: seq<RequestId>,
    timers: set<RequestId>,
    nextRequest: nat)

  const Initial := ServerState([], [], map[], false, [], {}, 0)

  predicate Distinct<T(==)>(s: seq<T>)
  {
    forall i, j :: 0 <= i < j < |s| ==> s[i] != s[j]
  }

  function Elems<T>(s: seq<T>): set<T>
  {
    set x | x in s
  }

  /**
    Well-formedness: the registry holds no socket twice and its sockets are exactly
    those with a ready state; every listener belongs to a request whose timer is
    armed; every armed request has been issued.
   */
  ghost predicate Wf(s: ServerState)
  {
    && Distinct(s.connections)
    && (forall ws :: ws in s.readyState <==> ws in s.connections)
    && Distinct(s.listeners)
    && (forall r :: r in s.listeners ==> r in s.timers)
    && (forall r :: r in s.timers ==> r < s.nextRequest)
  }

  // ---------------------------------------------------------------- registry

  /** `Set.delete`: the registry without `ws`, the others in their order. */
  function Without(cs: seq<SocketId>, ws: SocketId): (r: seq<SocketId>)
    ensures forall x :: x in r <==> x in cs && x != ws
    ensures Distinct(cs) ==> Distinct(r)
  {
    if cs == [] then []
    else if cs[0] == ws then Without(cs[1..], ws)
    else
      var rest := Without(cs[1..], ws);
      assert Distinct(cs) ==> cs[0] !in cs[1..] by {
        if Distinct(cs) {
          assert forall k :: 1 <= k < |cs| ==> cs[k] != cs[0];
        }
      }
      [cs[0]] + rest
  }

  predicate IsOpen(ready: map<SocketId, ReadyState>, ws: SocketId)
  {
    ws in ready && ready[ws] == Open
  }

  /** The sends of one broadcast loop: `msg` to each registered socket that is OPEN, in registry order. */
  function OpenSends(cs: seq<SocketId>, ready: map<SocketId, ReadyState>, msg: string): seq<Send>
  {
    if cs == [] then []
    else
      var last := cs[|cs| - 1];
      OpenSends(cs[..|cs| - 1], ready, msg) + (if IsOpen(ready, last) then [Send(last, msg)] else [])
  }

  /** A broadcast reaches exactly the registered OPEN sockets, each with the same message. */
  lemma {:induction false} OpenSendsTargets(cs: seq<SocketId>, ready: map<SocketId, ReadyState>, msg: string, t: SocketId, m: string)
    ensures Send(t, m) in OpenSends(cs, ready, msg) <==> t in cs && IsOpen(ready, t) && m == msg
  {
    if cs != [] {
      var init := cs[..|cs| - 1];
      OpenSendsTargets(init, ready, msg, t, m);
      assert cs == init + [cs[|cs| - 1]];
    }
  }

  /** Every send of a broadcast carries the same message and goes to a registered socket. */
  lemma {:induction false} OpenSendsShape(cs: seq<SocketId>, ready: map<SocketId, ReadyState>, msg: string)
    ensures forall k :: 0 <= k < |OpenSends(cs, ready, msg)| ==>
      OpenSends(cs, ready, msg)[k].message == msg && OpenSends(cs, ready, msg)[k].to in cs
  {
    if cs != [] {
      var init := cs[..|cs| - 1];
      OpenSendsShape(init, ready, msg);
      assert cs == init + [cs[|cs| - 1]];
    }
  }

  /** Over a duplicate-free registry, no socket receives a broadcast twice. */
  lemma {:induction false} OpenSendsOnce(cs: seq<SocketId>, ready: map<SocketId, ReadyState>, msg: string)
    requires Distinct(cs)
    ensures forall i, j :: 0 <= i < j < |OpenSends(cs, ready, msg)| ==>
      OpenSends(cs, ready, msg)[i].to != OpenSends(cs, ready, msg)[j].to
  {
    if cs != [] {
      var init := cs[..|cs| - 1];
      var last := cs[|cs| - 1];
      assert Distinct(init);
      OpenSendsOnce(init, ready, msg);
      OpenSendsShape(init, ready, msg);
      assert forall k :: 0 <= k < |init| ==> init[k] != last;
    }
  }

  // ---------------------------------------------------------------- handlers

  /** The result of one handler or event: the new state, the HTTP outcome (if the
      event was a request), the socket sends and the replies to held stop requests. */
  datatype Step = Step(next: ServerState, outcome: Option<Outcome>, sends: seq<Send>, answers: seq<Answer>)

  /** A `wss` 'connection' event: `wsConnections.add(ws)`; a new socket is OPEN. */
  function Connection(s: ServerState, ws: SocketId): ServerState
  {
    s.(connections := if ws in s.connections then s.connections else s.connections + [ws],
       readyState := s.readyState[ws := Open])
  }

  /** A socket's 'close' event: `wsConnections.delete(ws)`. */
  function SocketClose(s: ServerState, ws: SocketId): ServerState
  {
    s.(connections := Without(s.connections, ws), readyState := s.readyState - {ws})
  }

  /** The transport moves a registered socket to another ready state (no handler runs). */
  function ReadyStateChange(s: ServerState, ws: SocketId, st: ReadyState): ServerState
  {
    if ws in s.readyState then s.(readyState := s.readyState[ws := st]) else s
  }

  /** The replies `transcriptionEvents.emit` produces: every once-listener, in order, answers 200 with `rec`. */
  function Resolve(listeners: seq<RequestId>, rec: Record): seq<Answer>
  {
    if listeners == [] then [] else [Answer(listeners[0], StopResolved(rec))] + Resolve(listeners[1..], rec)
  }

  /** `/api/transcription`: POST appends and emits, GET lists, anything else goes to `next()`. */
  function Transcription(s: ServerState, verb: Verb, body: RequestBody, now: string): Step
  {
    match verb
    case Post =>
      (match body
       case Unparseable => Step(s, Some(Respond(InvalidBody)), [], [])
       case Parsed(text) =>
         var rec := Record(text, now);
         Step(s.(transcriptions := s.transcriptions + [rec],
                 listeners := [],
                 timers := s.timers - Elems(s.listeners)),
              Some(Respond(Reply(200, Accepted(now)))), [], Resolve(s.listeners, rec)))
    case Get => Step(s, Some(Respond(Reply(200, Records(s.transcriptions)))), [], [])
    case OtherVerb => Step(s, Some(PassOn), [], [])
  }

  /** `/api/toggle`: flip the flag and broadcast the command matching its new value. */
  function Toggle(s: ServerState, verb: Verb): Step
  {
    if verb == Post then
      var on := !s.transcriptionActive;
      var cmd := if on then TranscribeStart else TranscribeStop;
      Step(s.(transcriptionActive := on),
           Some(Respond(Reply(200, Toggled(on, ToggleMessage(on))))),
           OpenSends(s.connections, s.readyState, Encode(cmd)), [])
    else Step(s, Some(Respond(MethodNotAllowed)), [], [])
  }

  /** `/api/start`: broadcast `transcribe-start`; the flag is not touched. */
  function Start(s: ServerState, verb: Verb): Step
  {
    if verb == Post then
      Step(s, Some(Respond(Reply(200, Started("Transcription started")))),
           OpenSends(s.connections, s.readyState, Encode(TranscribeStart)), [])
    else Step(s, Some(Respond(MethodNotAllowed)), [], [])
  }

  /** `/api/stop`: broadcast `transcribe-stop`, arm a 30 s timer and add a once-listener; the request is held. */
  function Stop(s: ServerState, verb: Verb): Step
  {
    if verb == Post then
      var r := s.nextRequest;
      Step(s.(listeners := s.listeners + [r], timers := s.timers + {r}, nextRequest := r + 1),
           Some(Await(r)),
           OpenSends(s.connections, s.readyState, Encode(TranscribeStop)), [])
    else Step(s, Some(Respond(MethodNotAllowed)), [], [])
  }

  /** A stop request's timer fires: `removeAllListeners('transcription')`, then 408 to that request.
      A timer cleared by `clearTimeout` never fires, so an unarmed id changes nothing. */
  function StopTimeout(s: ServerState, r: RequestId): Step
  {
    if r in s.timers then
      Step(s.(listeners := [], timers := s.timers - {r}), None, [], [Answer(r, StopTimedOut)])
    else Step(s, None, [], [])
  }

  /** Everything that can happen to the server, one event at a time. */
  datatype Event =
    | ConnectionOpened(ws: SocketId)
    | ConnectionClosed(ws: SocketId)
    | ReadyStateChanged(ws: SocketId, state: ReadyState)
    | TranscriptionRequest(verb: Verb, body: RequestBody, now: string)
    | ToggleRequest(verb: Verb)
    | StartRequest(verb: Verb)
    | StopRequest(verb: Verb)
    | StopTimerFired(request: RequestId)

  function Next(s: ServerState, e: Event): Step
  {
    match e
    case ConnectionOpened(ws) => Step(Connection(s, ws), None, [], [])
    case ConnectionClosed(ws) => Step(SocketClose(s, ws), None, [], [])
    case ReadyStateChanged(ws, st) => Step(ReadyStateChange(s, ws, st), None, [], [])
    case TranscriptionRequest(verb, body, now) => Transcription(s, verb, body, now)
    case ToggleRequest(verb) => Toggle(s, verb)
    case StartRequest(verb) => Start(s, verb)
    case StopRequest(verb) => Stop(s, verb)
    case StopTimerFired(r) => StopTimeout(s, r)
  }

  /** Runs a sequence of events; yields the final state and every deferred reply, in order. */
  function Run(s: ServerState, events: seq<Event>): (ServerState, seq<Answer>)
    decreases |events|
  {
    if events == [] then (s, [])
    else
      var step := Next(s, events[0]);
      var rest := Run(step.next, events[1..]);
      (rest.0, step.answers + rest.1)
  }

  /** How many of `answers` reply to request `r`. */
  function CountFor(answers: seq<Answer>, r: RequestId): nat
  {
    if answers == [] then 0
    else (if answers[0].request == r then 1 else 0) + CountFor(answers[1..], r)
  }

  // ---------------------------------------------------------------- lemmas

  /** Only the connection and close events change the registry: the first adds its socket, the second removes it. */
  lemma RegistryEvents(s: ServerState, e: Event, x: SocketId)
    ensures e.ConnectionOpened? ==> (x in Next(s, e).next.connections <==> x in s.connections || x == e.ws)
    ensures e.ConnectionClosed? ==> (x in Next(s, e).next.connections <==> x in s.connections && x != e.ws)
    ensures !e.ConnectionOpened? && !e.ConnectionClosed? ==> Next(s, e).next.connections == s.connections
  {
  }

  /** Every step keeps the state well-formed. */
  lemma NextPreservesWf(s: ServerState, e: Event)
    requires Wf(s)
    ensures Wf(Next(s, e).next)
  {
    var t := Next(s, e).next;
    match e
    case ConnectionOpened(ws) =>
      if ws !in s.connections {
        assert forall i :: 0 <= i < |s.connections| ==> s.connections[i] != ws;
      }
    case StopRequest(verb) =>
      if verb == Post {
        assert forall i :: 0 <= i < |s.listeners| ==> s.listeners[i] in s.timers;
      }
    case _ =>
  }

  /** Toggle negates the flag, broadcasts the command for the new value to exactly the
      OPEN registered sockets, reports the new value, and changes nothing else. */
  lemma ToggleFlipsAndBroadcasts(s: ServerState, t: SocketId, m: string)
    ensures var step := Toggle(s, Post);
      && step.next == s.(transcriptionActive := !s.transcriptionActive)
      && step.outcome == Some(Respond(Reply(200, Toggled(!s.transcriptionActive,
           if !s.transcriptionActive then "Transcription started" else "Transcription stopped"))))
      && (Send(t, m) in step.sends <==>
           t in s.connections && IsOpen(s.readyState, t)
           && m == Encode(if !s.transcriptionActive then TranscribeStart else TranscribeStop))
      && step.answers == []
  {
    OpenSendsTargets(s.connections, s.readyState,
      Encode(if !s.transcriptionActive then TranscribeStart else TranscribeStop), t, m);
  }

  /** Start broadcasts `transcribe-start` to exactly the OPEN registered sockets and changes no state. */
  lemma StartOnlyBroadcasts(s: ServerState, t: SocketId, m: string)
    ensures var step := Start(s, Post);
      && step.next == s
      && step.outcome == Some(Respond(Reply(200, Started("Transcription started"))))
      && (Send(t, m) in step.sends <==> t in s.connections && IsOpen(s.readyState, t) && m == Encode(TranscribeStart))
  {
    OpenSendsTargets(s.connections, s.readyState, Encode(TranscribeStart), t, m);
  }

  /** The replies an emit produces: one per listener, in order, each carrying the record. */
  lemma {:induction false} ResolveShape(listeners: seq<RequestId>, rec: Record)
    ensures |Resolve(listeners, rec)| == |listeners|
    ensures forall k :: 0 <= k < |listeners| ==>
      Resolve(listeners, rec)[k] == Answer(listeners[k], StopResolved(rec))
  {
    if listeners != [] {
      ResolveShape(listeners[1..], rec);
    }
  }

  /** Over duplicate-free listeners, an emit answers each listener exactly once and no one else. */
  lemma {:induction false} ResolveCount(listeners: seq<RequestId>, rec: Record, r: RequestId)
    requires Distinct(listeners)
    ensures CountFor(Resolve(listeners, rec), r) == if r in listeners then 1 else 0
  {
    if listeners != [] {
      assert Distinct(listeners[1..]);
      ResolveCount(listeners[1..], rec, r);
      assert listeners == [listeners[0]] + listeners[1..];
      assert forall k :: 1 <= k < |listeners| ==> listeners[k] != listeners[0];
      assert listeners[0] !in listeners[1..];
    }
  }

  /** A parseable transcription POST appends exactly one record at the end, keeps the
      earlier ones, hands that record to every waiting stop request and cancels their
      timers, and answers 200 with the record's timestamp. */
  lemma SubmitAppends(s: ServerState, text: string, now: string)
    ensures var step := Transcription(s, Post, Parsed(text), now);
      && |step.next.transcriptions| == |s.transcriptions| + 1
      && step.next.transcriptions[..|s.transcriptions|] == s.transcriptions
      && step.next.transcriptions[|s.transcriptions|] == Record(text, now)
      && step.outcome == Some(Respond(Reply(200, Accepted(now))))
      && step.sends == []
      && |step.answers| == |s.listeners|
      && (forall k :: 0 <= k < |s.listeners| ==>
            step.answers[k] == Answer(s.listeners[k], Reply(200, Stopped("Transcription stopped", Record(text, now)))))
      && step.next.listeners == []
      && (forall r :: r in step.next.timers <==> r in s.timers && r !in s.listeners)
      && step.next.connections == s.connections && step.next.transcriptionActive == s.transcriptionActive
      && step.next.readyState == s.readyState && step.next.nextRequest == s.nextRequest
  {
    ResolveShape(s.listeners, Record(text, now));
  }

  /** An unparseable body gets 400 and changes nothing; GET lists the whole log in
      insertion order and changes nothing; other methods fall through to `next()`. */
  lemma TranscriptionRouteRejectsAndLists(s: ServerState, now: string)
    ensures Transcription(s, Post, Unparseable, now) == Step(s, Some(Respond(Reply(400, Error("Invalid request body")))), [], [])
    ensures forall b: RequestBody :: Transcription(s, Get, b, now) == Step(s, Some(Respond(Reply(200, Records(s.transcriptions)))), [], [])
    ensures forall b: RequestBody :: Transcription(s, OtherVerb, b, now) == Step(s, Some(PassOn), [], [])
  {
  }

  /** Toggle, start and stop answer 405 to anything but POST and change nothing. */
  lemma NonPostRejected(s: ServerState, verb: Verb)
    requires verb != Post
    ensures Toggle(s, verb) == Step(s, Some(Respond(Reply(405, Error("Method not allowed")))), [], [])
    ensures Start(s, verb) == Step(s, Some(Respond(Reply(405, Error("Method not allowed")))), [], [])
    ensures Stop(s, verb) == Step(s, Some(Respond(Reply(405, Error("Method not allowed")))), [], [])
  {
  }

  /** A stop POST broadcasts `transcribe-stop`, holds the request under a fresh id, and
      registers that id both as the last listener and as an armed timer; the log, the
      registry and `transcriptionActive` are left alone, so the flag keeps its value. */
  lemma StopHoldsRequest(s: ServerState, t: SocketId, m: string)
    requires Wf(s)
    ensures var step := Stop(s, Post);
      && step.outcome == Some(Await(s.nextRequest))
      && s.nextRequest !in s.timers
      && step.next == s.(listeners := s.listeners + [s.nextRequest],
                         timers := s.timers + {s.nextRequest},
                         nextRequest := s.nextRequest + 1)
      && (Send(t, m) in step.sends <==> t in s.connections && IsOpen(s.readyState, t) && m == Encode(TranscribeStop))
      && step.answers == []
  {
    OpenSendsTargets(s.connections, s.readyState, Encode(TranscribeStop), t, m);
  }

  /** `/api/stop` does not touch the flag: after toggle turns transcription on and a stop
      request is held, the next toggle turns it off and broadcasts `transcribe-stop` again. */
  lemma StopKeepsFlag(s: ServerState, t: SocketId)
    requires !s.transcriptionActive
    ensures var held := Stop(Toggle(s, Post).next, Post).next;
      && held.transcriptionActive
      && !Toggle(held, Post).next.transcriptionActive
      && forall m :: Send(t, m) in Toggle(held, Post).sends ==> m == Encode(TranscribeStop)
  {
    var held := Stop(Toggle(s, Post).next, Post).next;
    forall m | Send(t, m) in Toggle(held, Post).sends
      ensures m == Encode(TranscribeStop)
    {
      OpenSendsTargets(held.connections, held.readyState, Encode(TranscribeStop), t, m);
    }
  }

  /** An armed request's timer answers that request alone with 408 and drops every
      waiting listener, its own and the other requests' alike; their timers stay armed.
      Nothing is sent and nothing else changes. */
  lemma TimeoutDropsAllListeners(s: ServerState, r: RequestId)
    requires r in s.timers
    ensures var step := StopTimeout(s, r);
      && step.answers == [Answer(r, Reply(408, Failure("Timeout waiting for transcription")))]
      && step.next == s.(listeners := [], timers := s.timers - {r})
      && step.outcome == None && step.sends == []
  {
  }

  /** The consequence of dropping every listener: after one request times out, a
      transcription that arrives answers none of the other waiting requests, which stay
      armed and will time out in their turn. */
  lemma TimeoutStarvesOtherWaiters(s: ServerState, r1: RequestId, r2: RequestId, text: string, now: string)
    requires Wf(s) && r1 in s.listeners && r2 in s.listeners && r1 != r2
    ensures var afterTimeout := StopTimeout(s, r1).next;
      var step := Transcription(afterTimeout, Post, Parsed(text), now);
      && step.answers == []
      && r2 in step.next.timers
  {
  }

  /** One step's bookkeeping for request `r`: replies to `r` in this step plus whether
      `r` is still armed afterwards equals whether it was armed before or issued now. */
  lemma StepAccounting(s: ServerState, e: Event, r: RequestId)
    requires Wf(s)
    ensures s.nextRequest <= Next(s, e).next.nextRequest
    ensures CountFor(Next(s, e).answers, r) + (if r in Next(s, e).next.timers then 1 else 0)
      == (if r in s.timers || s.nextRequest <= r < Next(s, e).next.nextRequest then 1 else 0)
  {
    match e
    case TranscriptionRequest(verb, body, now) =>
      if verb == Post && body.Parsed? {
        ResolveCount(s.listeners, Record(body.text, now), r);
      }
    case StopTimerFired(q) =>
      if q in s.timers {
        assert CountFor([Answer(q, StopTimedOut)], r) == if q == r then 1 else 0;
      }
    case _ =>
  }

  lemma {:induction false} CountForAppend(a: seq<Answer>, b: seq<Answer>, r: RequestId)
    ensures CountFor(a + b, r) == CountFor(a, r) + CountFor(b, r)
  {
    if a != [] {
      CountForAppend(a[1..], b, r);
      assert (a + b)[0] == a[0];
      assert (a + b)[1..] == a[1..] + b;
    } else {
      assert a + b == b;
    }
  }

  /**
    Exactly one reply per stop request, over any run: every request that was armed at
    the start or issued during the run is either answered exactly once or still armed
    (and so will be answered by its timer) at the end, never both; no other request is
    ever answered.
   */
  lemma {:induction false} ExactlyOneReply(s: ServerState, events: seq<Event>, r: RequestId)
    requires Wf(s)
    decreases |events|
    ensures s.nextRequest <= Run(s, events).0.nextRequest
    ensures Wf(Run(s, events).0)
    ensures CountFor(Run(s, events).1, r) + (if r in Run(s, events).0.timers then 1 else 0)
      == (if r in s.timers || s.nextRequest <= r < Run(s, events).0.nextRequest then 1 else 0)
  {
    if events != [] {
      var step := Next(s, events[0]);
      StepAccounting(s, events[0], r);
      NextPreservesWf(s, events[0]);
      ExactlyOneReply(step.next, events[1..], r);
      CountForAppend(step.answers, Run(step.next, events[1..]).1, r);
    }
  }
}
