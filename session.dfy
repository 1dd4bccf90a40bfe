/**
 * One client connection as the server's command logic sees it: whole
 * envelopes go out, and each reply of the client arrives as the `message`
 * text of the envelope it sent. The byte level underneath is Communication;
 * its round trip (Communication.FrameRoundTrip) is what lets the layers above
 * reason about envelopes rather than bytes.
 */
module Session {
  import opened Values
  import opened Communication

  /** What happened on the connection, in order. */
  datatype Event = Sent(envelope: Envelope) | Got(reply: string)

  /** The envelope `send(message, data, status)` puts on the wire: the formatted one, or the error it caused. */
  function Reply(message: Json, data: Json, status: string): (e: Envelope)
    ensures status in {"success", "error", "ready_for_input"} ==> e == FormatMessage(message, status, data).value
    ensures status !in {"success", "error", "ready_for_input"} ==> e == Envelope(Error, Str(StatusErrorText), NoData)
  {
    match FormatMessage(message, status, data)
    case Ok(e) => e
    case Err(_) => FormatMessage(Str(StatusErrorText), "error").value
  }

  /** `(table, "list")`: a command table with the hint to render it as a list. */
  function Listing(table: seq<(string, Json)>): Json {
    Arr([Obj(table), Str("list")])
  }

  /** The envelope that tells the client a reply is expected. */
  const ReadyEnvelope: Envelope := Envelope(ReadyForInput, Str(""), NoData)

  class Conversation {
    /** The lines the client will still send, in order; it closes the connection after the last. */
    var incoming: seq<string>
    var trace: seq<Event>
    /** The server has closed its end (`connection.close()`). */
    var closed: bool
    /** What the receiving side raises when the client has closed the connection. */
    const eofError: Exc

    constructor (replies: seq<string>, eofError: Exc)
      ensures incoming == replies && trace == [] && !closed && this.eofError == eofError
    {
      incoming := replies;
      trace := [];
      closed := false;
      this.eofError := eofError;
    }

    /**
     * `send(message, data, status)` (the one in server.py and client.py): the
     * formatted envelope, or, when formatting fails, an `error` envelope
     * carrying the exception text. On a socket this end has closed, both
     * attempts fail and the OSError escapes.
     */
    method Send(message: Json, data: Json := Null, status: string := "success") returns (r: Result<(), Exc>)
      modifies this
      ensures incoming == old(incoming) && closed == old(closed)
      ensures closed ==> r == Err(OSError) && trace == old(trace)
      ensures !closed ==> r.Ok? && trace == old(trace) + [Sent(Reply(message, data, status))]
    {
      if closed {
        return Err(OSError);
      }
      trace := trace + [Sent(Reply(message, data, status))];
      return Ok(());
    }

    /**
     * `send(message, data, prompt=True)`, the call the menu makes: the envelope,
     * then a `ready_for_input` envelope so that the client shows its prompt.
     */
    method SendPrompted(message: Json, data: Json) returns (r: Result<(), Exc>)
      modifies this
      ensures incoming == old(incoming) && closed == old(closed)
      ensures closed ==> r == Err(OSError) && trace == old(trace)
      ensures !closed ==> r.Ok? && trace == old(trace) + [Sent(Reply(message, data, "success")), Sent(ReadyEnvelope)]
    {
      if closed {
        return Err(OSError);
      }
      trace := trace + [Sent(Reply(message, data, "success")), Sent(ReadyEnvelope)];
      return Ok(());
    }

    /** `receive()["message"]`: the client's next line, or the end-of-stream error once it has closed. */
    method Receive() returns (r: Result<string, Exc>)
      modifies this
      ensures closed == old(closed)
      ensures old(closed) ==> r == Err(OSError) && incoming == old(incoming) && trace == old(trace)
      ensures !old(closed) && old(incoming) == [] ==> r == Err(eofError) && incoming == [] && trace == old(trace)
      ensures !old(closed) && old(incoming) != [] ==>
        && r == Ok(old(incoming)[0])
        && incoming == old(incoming)[1..]
        && trace == old(trace) + [Got(old(incoming)[0])]
    {
      if closed {
        return Err(OSError);
      }
      if incoming == [] {
        return Err(eofError);
      }
      r := Ok(incoming[0]);
      trace := trace + [Got(incoming[0])];
      incoming := incoming[1..];
    }

    /** `connection.close()` */
    method Close()
      modifies this
      ensures closed && incoming == old(incoming) && trace == old(trace)
    {
      closed := true;
    }
  }
}
