/**
  The control channel's wire protocol: the two commands the dev server pushes to
  browser clients, their JSON text, and the WebSocket ready states both ends test.
 */
module Wire {
  import opened Wrappers

  /** The commands carried on the channel. */
  datatype Command = TranscribeStart | TranscribeStop

  /** The value of the `command` field for each command. */
  function Token(c: Command): string
  {
    match c
    case TranscribeStart => "transcribe-start"
    case TranscribeStop => "transcribe-stop"
  }

  /** The text `JSON.stringify({ command })` produces for a command. */
  function Encode(c: Command): string
  {
    "{\"command\":\"" + Token(c) + "\"}"
  }

  /** Recognises exactly the two encodings `Encode` produces. */
  function Decode(s: string): (r: Option<Command>)
    ensures r.Some? ==> Encode(r.value) == s
  {
    if s == Encode(TranscribeStart) then Some(TranscribeStart)
    else if s == Encode(TranscribeStop) then Some(TranscribeStop)
    else None
  }

  /** The two tokens differ, so the two encodings differ. */
  lemma TokensDiffer()
    ensures Token(TranscribeStart) != Token(TranscribeStop)
    ensures Encode(TranscribeStart) != Encode(TranscribeStop)
  {
    assert |Token(TranscribeStart)| != |Token(TranscribeStop)|;
  }

  /** Decoding an encoded command gives the command back, and only encodings decode. */
  lemma DecodeEncode(c: Command, s: string)
    ensures Decode(Encode(c)) == Some(c)
    ensures Decode(s) == Some(c) <==> s == Encode(c)
  {
    TokensDiffer();
  }

  /** A WebSocket's `readyState`: CONNECTING, OPEN, CLOSING, CLOSED. */
  datatype ReadyState = Connecting | Open | Closing | Closed
}
