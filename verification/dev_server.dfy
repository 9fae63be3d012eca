/**
  The dev server's `configureServer` handlers (vite.config.ts) as a class whose
  fields are the module-level variables. Each handler updates the fields in place
  and is proved to do exactly what the matching ServerModel step function says.
 */
module DevServer {
  import opened Wrappers
  import opened Wire
  import opened ServerModel

  class Server {
    /** `transcriptions` */
    var transcriptions: seq<Record>
    /** `wsConnections`, in insertion order, with each socket's ready state */
    var connections: seq<SocketId>
    var readyState: map<SocketId, ReadyState>
    /** `transcriptionActive` */
    var transcriptionActive: bool
    /** the `once('transcription')` listeners on `transcriptionEvents`, oldest first */
    var listeners: seq<RequestId>
    /** stop requests whose `setTimeout` is armed */
    var timers: set<RequestId>
    /** identity of the next held stop request */
    var nextRequest: nat

    function State(): ServerState
      reads this
    {
      ServerState(transcriptions, connections, readyState, transcriptionActive, listeners, timers, nextRequest)
    }

    ghost predicate Valid()
      reads this
    {
      Wf(State())
    }

    constructor ()
      ensures Valid() && State() == Initial
    {
      transcriptions, connections, readyState := [], [], map[];
      transcriptionActive := false;
      listeners, timers, nextRequest := [], {}, 0;
    }

    /** `wss.on('connection')`: register the new socket. */
    method OnConnection(ws: SocketId)
      requires Valid()
      modifies this
      ensures Valid() && State() == Connection(old(State()), ws)
    {
      if ws !in connections {
        assert forall i :: 0 <= i < |connections| ==> connections[i] != ws;
        connections := connections + [ws];
      }
      readyState := readyState[ws := Open];
    }

    /** `ws.on('close')`: unregister the socket. */
    method OnClose(ws: SocketId)
      requires Valid()
      modifies this
      ensures Valid() && State() == SocketClose(old(State()), ws)
    {
      connections := Without(connections, ws);
      readyState := readyState - {ws};
    }

    /** The transport changes a registered socket's ready state. */
    method OnReadyStateChange(ws: SocketId, st: ReadyState)
      requires Valid()
      modifies this
      ensures Valid() && State() == ReadyStateChange(old(State()), ws, st)
    {
      if ws in readyState {
        readyState := readyState[ws := st];
      }
    }

    /** `wsConnections.forEach(ws => { if (ws.readyState === WebSocket.OPEN) ws.send(message) })`. */
    method Broadcast(cmd: Command) returns (sends: seq<Send>)
      ensures sends == OpenSends(connections, readyState, Encode(cmd))
    {
      var message := Encode(cmd);
      sends := [];
      for i := 0 to |connections|
        invariant sends == OpenSends(connections[..i], readyState, message)
      {
        assert connections[..i + 1][..i] == connections[..i];
        var ws := connections[i];
        if ws in readyState && readyState[ws] == Open {
          sends := sends + [Send(ws, message)];
        }
      }
      assert connections[..|connections|] == connections;
    }

    /** The `/api/transcription` middleware. */
    method HandleTranscription(verb: Verb, body: RequestBody, now: string) returns (outcome: Outcome, answers: seq<Answer>)
      requires Valid()
      modifies this
      ensures Valid()
      ensures Step(State(), Some(outcome), [], answers) == Transcription(old(State()), verb, body, now)
    {
      answers := [];
      match verb
      case Post =>
        match body {
        case Unparseable =>
          outcome := Respond(InvalidBody);
        case Parsed(text) =>
          var rec := Record(text, now);
          transcriptions := transcriptions + [rec];
          // transcriptionEvents.emit: each once-listener is removed, clears its timer and answers
          var waiting, armed := listeners, timers;
          for i := 0 to |waiting|
            invariant |answers| == i
            invariant forall k :: 0 <= k < i ==> answers[k] == Answer(waiting[k], StopResolved(rec))
            invariant armed == timers - Elems(waiting[..i])
          {
            assert Elems(waiting[..i + 1]) == Elems(waiting[..i]) + {waiting[i]} by {
              assert waiting[..i + 1] == waiting[..i] + [waiting[i]];
            }
            armed := armed - {waiting[i]};
            answers := answers + [Answer(waiting[i], StopResolved(rec))];
          }
          assert waiting[..|waiting|] == waiting;
          ResolveShape(waiting, rec);
          listeners, timers := [], armed;
          outcome := Respond(Reply(200, Accepted(now)));
        }
      case Get =>
        outcome := Respond(Reply(200, Records(transcriptions)));
      case OtherVerb =>
        outcome := PassOn;
    }

    /** The `/api/toggle` middleware. */
    method HandleToggle(verb: Verb) returns (outcome: Outcome, sends: seq<Send>)
      requires Valid()
      modifies this
      ensures Valid()
      ensures Step(State(), Some(outcome), sends, []) == Toggle(old(State()), verb)
    {
      if verb == Post {
        transcriptionActive := !transcriptionActive;
        var cmd := if transcriptionActive then TranscribeStart else TranscribeStop;
        sends := Broadcast(cmd);
        outcome := Respond(Reply(200, Toggled(transcriptionActive, ToggleMessage(transcriptionActive))));
      } else {
        sends := [];
        outcome := Respond(MethodNotAllowed);
      }
    }

    /** The `/api/start` middleware: it changes no field. */
    method HandleStart(verb: Verb) returns (outcome: Outcome, sends: seq<Send>)
      ensures Step(State(), Some(outcome), sends, []) == Start(State(), verb)
    {
      if verb == Post {
        sends := Broadcast(TranscribeStart);
        outcome := Respond(Reply(200, Started("Transcription started")));
      } else {
        sends := [];
        outcome := Respond(MethodNotAllowed);
      }
    }

    /** The `/api/stop` middleware: broadcast, arm the timer, register the once-listener, hold the request. */
    method HandleStop(verb: Verb) returns (outcome: Outcome, sends: seq<Send>)
      requires Valid()
      modifies this
      ensures Valid()
      ensures Step(State(), Some(outcome), sends, []) == Stop(old(State()), verb)
    {
      if verb == Post {
        sends := Broadcast(TranscribeStop);
        var r := nextRequest;
        nextRequest := nextRequest + 1;
        timers := timers + {r};
        listeners := listeners + [r];
        outcome := Await(r);
      } else {
        sends := [];
        outcome := Respond(MethodNotAllowed);
      }
    }

    /** A stop request's 30 s timer fires. */
    method OnStopTimeout(r: RequestId) returns (answers: seq<Answer>)
      requires Valid()
      modifies this
      ensures Valid()
      ensures Step(State(), None, [], answers) == StopTimeout(old(State()), r)
    {
      if r in timers {
        listeners := [];
        timers := timers - {r};
        answers := [Answer(r, StopTimedOut)];
      } else {
        answers := [];
      }
    }
  }
}
