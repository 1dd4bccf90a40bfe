/**
 * client.py: the console client. It keeps an `awaiting_input` flag that a
 * `ready_for_input` envelope sets and the prompt clears, a line-edit buffer
 * fed one key at a time (or whole lines from standard input), and maps the
 * transport's failures onto the exceptions its main loop handles.
 */
module Client {
  import opened Values
  import opened Communication
  import opened Session

  /** What the client writes to the console. */
  datatype Output = PromptMark | Shown(message: Json) | ErrorLine(text: string) | LostLine

  const ServerClosedText: string := "Server connection closed"
  const LostConnectionText: string := "Lost connection to server"
  const InvalidMessageText: string := "Invalid message received from server: "
  const MissingFieldText: string := "Server sent invalid response: missing "
  /** The text of the OverflowError `int.to_bytes` raises for a body too long for the 4-byte header. */
  const FrameTooLongText: string := "int too big to convert"
  const GetName: string := "get"
  const Enter: char := '\r'
  const Backspace: char := '\U{8}'
  const ClientBuffer: nat := 1024

  /** `str(e)` for the exceptions whose text the model keeps. */
  function Text(e: Exc): string {
    match e
    case ValueError(m) => m
    case TypeError(m) => m
    case KeyError(k) => "'" + k + "'"
    case RuntimeError(m) => m
    case ConnectionError(m) => m
    case BrokenPipeError(m) => m
    case ConnectionAbortedError(m) => m
    case OverflowError => FrameTooLongText
    case _ => ""
  }

  // ---------------------------------------------------------------------
  // The line-edit buffer

  /** The buffer after one key other than Enter: backspace drops the last character of a non-empty buffer, a printable key is appended, any other key is ignored. */
  function Edited(line: string, key: char): string
    requires key != Enter
  {
    if key == Backspace then (if line == "" then line else line[..|line| - 1])
    else if IsPrintable(key) then line + [key]
    else line
  }

  /** The buffer after a run of keys none of which is Enter. */
  function Typed(line: string, keys: string): string
    requires forall i :: 0 <= i < |keys| ==> keys[i] != Enter
    decreases |keys|
  {
    if keys == [] then line else Typed(Edited(line, keys[0]), keys[1..])
  }

  /** Typing printable keys puts exactly those characters at the end of the buffer. */
  lemma {:induction false} TypingPrintableAppends(line: string, keys: string)
    requires forall i :: 0 <= i < |keys| ==> IsPrintable(keys[i])
    ensures forall i :: 0 <= i < |keys| ==> keys[i] != Enter
    ensures Typed(line, keys) == line + keys
    decreases |keys|
  {
    if keys != [] {
      assert keys[0] != Backspace && keys[0] != Enter;
      TypingPrintableAppends(line + [keys[0]], keys[1..]);
      assert line + [keys[0]] + keys[1..] == line + keys;
    }
  }

  /** Backspace undoes a printable key; on an empty buffer it does nothing. */
  lemma BackspaceUndoesKey(line: string, key: char)
    requires IsPrintable(key)
    ensures key != Enter && Edited(Edited(line, key), Backspace) == line
    ensures Edited("", Backspace) == ""
  {
    assert (line + [key])[..|line|] == line;
  }

  /** A non-printable key other than Enter and backspace leaves the buffer as it was. */
  lemma ControlKeysIgnored(line: string, key: char)
    requires key != Enter && key != Backspace && !IsPrintable(key)
    ensures Edited(line, key) == line
  {
  }

  // ---------------------------------------------------------------------
  // What the client reads

  /**
   * A frame the server sent with an envelope is read back as the envelope's
   * dict, whose `status`, `message` and `data` are those of the envelope: so a
   * `ready_for_input` envelope is what sets the flag, and an envelope with an
   * empty message and no data is not displayed.
   */
  lemma ClientReadsEnvelope(c: Codec, e: Envelope, rest: seq<byte>)
    requires Faithful(c) && WellFormed(e.message) && WellFormed(e.data)
    requires Outgoing(c, ToJson(e)).Ok?
    ensures ReadFrame(c, Outgoing(c, ToJson(e)).value + rest) == (Ok(ToJson(e)), rest)
    ensures DictGet(ToJson(e).fields, "status") == Str(StatusName(e.status))
    ensures DictGet(ToJson(e).fields, "message") == e.message
    ensures DictGet(ToJson(e).fields, "data") == e.data
  {
    ToJsonWellFormed(e);
    FrameRoundTrip(c, ToJson(e), rest);
    FromToJson(e);
  }

  /** The frame of the prompt envelope sets the flag and is not shown. */
  lemma PromptFrameSetsAwaiting(c: Codec, rest: seq<byte>)
    requires Faithful(c) && Outgoing(c, ToJson(ReadyEnvelope)).Ok?
    ensures ReadFrame(c, Outgoing(c, ToJson(ReadyEnvelope)).value + rest) == (Ok(ToJson(ReadyEnvelope)), rest)
    ensures DictGet(ToJson(ReadyEnvelope).fields, "status") == Str("ready_for_input")
  {
    ClientReadsEnvelope(c, ReadyEnvelope, rest);
  }

  /** One pass of `run`'s loop: the key pressed (Windows) or the line typed (elsewhere), and what `select` reported. */
  datatype Tick = Tick(key: Option<char>, line: Option<string>, readable: bool, exceptional: bool)

  class Client {
    const proto: CommunicationProtocol
    /** `os.name == "nt"`: keys are read one at a time rather than as lines. */
    const windows: bool
    var awaitingInput: bool
    /** `input_line` of `run`, the Windows line-edit buffer. */
    var inputLine: string
    /** The socket has been closed. */
    var closed: bool
    var screen: seq<Output>

    constructor (sock: Channel, codec: Codec, windows: bool)
      ensures proto.sock == sock && proto.codec == codec && proto.bufferSize == ClientBuffer && this.windows == windows
      ensures !awaitingInput && inputLine == "" && !closed && screen == []
    {
      proto := new CommunicationProtocol(sock, codec, ClientBuffer);
      this.windows := windows;
      awaitingInput := false;
      inputLine := "";
      closed := false;
      screen := [];
    }

    /**
     * `send(message, status, data)`: the formatted envelope, or an `error`
     * envelope with the exception's text when formatting or sending fails
     * with anything but a ConnectionError. A ConnectionError, and the second
     * attempt's failure, escape.
     */
    method Send(message: string, status: string := "success", data: Json := Null) returns (r: Result<(), Exc>)
      modifies proto.sock
      ensures proto.sock.inbound == old(proto.sock.inbound)
      ensures var first := Outgoing(proto.codec, ToJson(Reply(Str(message), data, status)));
        first.Ok? ==> Wrote(proto.sock, first.value, r)
      ensures var first := Outgoing(proto.codec, ToJson(Reply(Str(message), data, status)));
        first.Err? && status !in {"success", "error", "ready_for_input"} ==>
          r == Err(OverflowError) && proto.sock.outbound == old(proto.sock.outbound)
      ensures var first := Outgoing(proto.codec, ToJson(Reply(Str(message), data, status)));
        var fallback := Outgoing(proto.codec, ToJson(Reply(Str(FrameTooLongText), Null, "error")));
        first.Err? && status in {"success", "error", "ready_for_input"} ==>
          && (fallback.Ok? ==> Wrote(proto.sock, fallback.value, r))
          && (fallback.Err? ==> r == Err(OverflowError) && proto.sock.outbound == old(proto.sock.outbound))
    {
      var formatted := FormatMessage(Str(message), status, data);
      var e: Exc;
      if formatted.Ok? {
        r := proto.Send(ToJson(formatted.value));
        if r.Ok? || IsConnectionError(r.error) {
          return;
        }
        e := r.error;
      } else {
        e := formatted.error;
      }
      var errorMessage := FormatMessage(Str(Text(e)), "error");
      r := proto.Send(ToJson(errorMessage.value));
    }

    /**
     * `handle_response()`: read one frame. A `ready_for_input` envelope sets
     * the flag and is not shown; any other is shown when its message or data is
     * non-empty. A broken or reset connection becomes ConnectionError, a
     * malformed frame RuntimeError; a message that is not a dict has no `get`.
     */
    method HandleResponse() returns (r: Result<Json, Exc>)
      requires proto.bufferSize > 0
      modifies this, proto.sock
      ensures proto.sock.inbound == ReadFrame(proto.codec, old(proto.sock.inbound)).1
      ensures proto.sock.outbound == old(proto.sock.outbound)
      ensures inputLine == old(inputLine) && closed == old(closed)
      ensures var m := ReadFrame(proto.codec, old(proto.sock.inbound)).0;
        m.Err? ==>
          && awaitingInput == old(awaitingInput) && screen == old(screen)
          && (m.error.BrokenPipeError? ==> r == Err(ConnectionError(ServerClosedText)))
          && (m.error.ConnectionResetError? ==> r == Err(ConnectionError(LostConnectionText)))
          && (IsValueError(m.error) ==> r == Err(RuntimeError(InvalidMessageText + Text(m.error))))
          && (!m.error.BrokenPipeError? && !m.error.ConnectionResetError? && !IsValueError(m.error) ==> r == m)
      ensures var m := ReadFrame(proto.codec, old(proto.sock.inbound)).0;
        m.Ok? && !m.value.Obj? ==>
          r == Err(AttributeError(GetName)) && awaitingInput == old(awaitingInput) && screen == old(screen)
      ensures var m := ReadFrame(proto.codec, old(proto.sock.inbound)).0;
        m.Ok? && m.value.Obj? ==>
          && r == m
          && (DictGet(m.value.fields, "status") == Str("ready_for_input") ==> awaitingInput && screen == old(screen))
          && (DictGet(m.value.fields, "status") != Str("ready_for_input") ==> awaitingInput == old(awaitingInput))
          && (DictGet(m.value.fields, "status") != Str("ready_for_input") &&
                (Truthy(DictGet(m.value.fields, "message")) || Truthy(DictGet(m.value.fields, "data"))) ==>
                screen == old(screen) + [Shown(m.value)])
          && (DictGet(m.value.fields, "status") != Str("ready_for_input") &&
                !Truthy(DictGet(m.value.fields, "message")) && !Truthy(DictGet(m.value.fields, "data")) ==>
                screen == old(screen))
    {
      var message := proto.Receive();
      if message.Err? {
        var e := message.error;
        if e.BrokenPipeError? {
          return Err(ConnectionError(ServerClosedText));
        } else if e.ConnectionResetError? {
          return Err(ConnectionError(LostConnectionText));
        } else if IsValueError(e) {
          return Err(RuntimeError(InvalidMessageText + Text(e)));
        }
        return message;
      }
      if !message.value.Obj? {
        return Err(AttributeError(GetName));
      }
      var fields := message.value.fields;
      if DictGet(fields, "status") == Str("ready_for_input") {
        awaitingInput := true;
        return message;
      } else if Truthy(DictGet(fields, "message")) || Truthy(DictGet(fields, "data")) {
        screen := screen + [Shown(message.value)];
      }
      return message;
    }

    /** `display_prompt()`: the prompt is printed only when input is awaited, and the flag is then cleared. */
    method DisplayPrompt()
      modifies this
      ensures !awaitingInput
      ensures old(awaitingInput) ==> screen == old(screen) + [PromptMark]
      ensures !old(awaitingInput) ==> screen == old(screen)
      ensures inputLine == old(inputLine) && closed == old(closed)
    {
      if awaitingInput {
        screen := screen + [PromptMark];
        awaitingInput := false;
      }
    }

    /**
     * One key of the Windows branch. Enter on "close" (any case) closes the
     * socket without sending and ends `run` (true); Enter on anything else
     * sends the buffer, empties it and clears the flag; every other key edits
     * the buffer as `Edited` says and sends nothing.
     */
    method KeyPress(key: char) returns (r: Result<bool, Exc>)
      modifies this, proto.sock
      ensures proto.sock.inbound == old(proto.sock.inbound) && screen == old(screen)
      ensures key != Enter ==>
        && r == Ok(false) && inputLine == Edited(old(inputLine), key)
        && awaitingInput == old(awaitingInput) && closed == old(closed)
        && proto.sock.outbound == old(proto.sock.outbound)
      ensures key == Enter && Lower(old(inputLine)) == "close" ==>
        r == Ok(true) && closed && proto.sock.outbound == old(proto.sock.outbound) && inputLine == old(inputLine)
      ensures key == Enter && Lower(old(inputLine)) != "close" ==>
        && closed == old(closed)
        && (r.Ok? ==> r == Ok(false) && inputLine == "" && !awaitingInput)
        && (r.Err? ==> r.error in {OverflowError, ConnectionResetError} && inputLine == old(inputLine) && awaitingInput == old(awaitingInput))
        && (Outgoing(proto.codec, ToJson(Reply(Str(old(inputLine)), Null, "success"))).Ok? && !proto.sock.peerGone ==>
              r.Ok? && proto.sock.outbound == old(proto.sock.outbound)
                + Outgoing(proto.codec, ToJson(Reply(Str(old(inputLine)), Null, "success"))).value)
        && (Outgoing(proto.codec, ToJson(Reply(Str(old(inputLine)), Null, "success"))).Ok? && proto.sock.peerGone ==>
              r == Err(ConnectionResetError))
        && (proto.sock.peerGone ==> r.Err? && proto.sock.outbound == old(proto.sock.outbound))
    {
      if key == Enter {
        if Lower(inputLine) == "close" {
          closed := true;
          return Ok(true);
        }
        var sent := Send(inputLine);
        if sent.Err? {
          return Err(sent.error);
        }
        inputLine := "";
        awaitingInput := false;
        return Ok(false);
      } else if key == Backspace {
        if inputLine != "" {
          inputLine := inputLine[..|inputLine| - 1];
        }
      } else if IsPrintable(key) {
        inputLine := inputLine + [key];
      }
      return Ok(false);
    }

    /**
     * One line of the standard-input branch: stripped; "close" (any case)
     * closes the socket without sending and ends `run` (true); anything else is
     * sent and the flag cleared.
     */
    method SubmitLine(line: string) returns (r: Result<bool, Exc>)
      modifies this, proto.sock
      ensures proto.sock.inbound == old(proto.sock.inbound) && screen == old(screen) && inputLine == old(inputLine)
      ensures Lower(Strip(line)) == "close" ==> r == Ok(true) && closed && proto.sock.outbound == old(proto.sock.outbound)
      ensures Lower(Strip(line)) != "close" ==>
        && closed == old(closed)
        && (r.Ok? ==> r == Ok(false) && !awaitingInput)
        && (r.Err? ==> r.error in {OverflowError, ConnectionResetError} && awaitingInput == old(awaitingInput))
        && (Outgoing(proto.codec, ToJson(Reply(Str(Strip(line)), Null, "success"))).Ok? && !proto.sock.peerGone ==>
              r.Ok? && proto.sock.outbound == old(proto.sock.outbound)
                + Outgoing(proto.codec, ToJson(Reply(Str(Strip(line)), Null, "success"))).value)
        && (Outgoing(proto.codec, ToJson(Reply(Str(Strip(line)), Null, "success"))).Ok? && proto.sock.peerGone ==>
              r == Err(ConnectionResetError))
        && (proto.sock.peerGone ==> r.Err? && proto.sock.outbound == old(proto.sock.outbound))
    {
      var request := Strip(line);
      if Lower(request) == "close" {
        closed := true;
        return Ok(true);
      }
      var sent := Send(request);
      if sent.Err? {
        return Err(sent.error);
      }
      awaitingInput := false;
      return Ok(false);
    }

    /**
     * The handlers around the body of `run`'s loop: RuntimeError and
     * ValueError are printed and the loop goes on (false); a ConnectionError
     * ends the loop (true); a KeyError is raised again as ValueError; anything
     * else escapes.
     */
    method Handle(e: Exc) returns (r: Result<bool, Exc>)
      modifies this
      ensures inputLine == old(inputLine) && closed == old(closed) && awaitingInput == old(awaitingInput)
      ensures e.RuntimeError? || IsValueError(e) ==> r == Ok(false) && screen == old(screen) + [ErrorLine(Text(e))]
      ensures IsConnectionError(e) ==> r == Ok(true) && screen == old(screen)
      ensures e.KeyError? ==> r == Err(ValueError(MissingFieldText + Text(e))) && screen == old(screen)
      ensures !e.RuntimeError? && !IsValueError(e) && !IsConnectionError(e) && !e.KeyError? ==> r == Err(e) && screen == old(screen)
      ensures r.Err? ==> !IsConnectionError(r.error) && !r.error.RuntimeError?
    {
      if e.RuntimeError? || IsValueError(e) {
        screen := screen + [ErrorLine(Text(e))];
        return Ok(false);
      } else if IsConnectionError(e) {
        return Ok(true);
      } else if e.KeyError? {
        return Err(ValueError(MissingFieldText + Text(e)));
      }
      return Err(e);
    }

    /**
     * One pass of `run`'s loop: the prompt, the input (a key on Windows, a
     * line elsewhere), a response when the socket is readable, and the end of
     * the loop when `select` reports the socket exceptional. True means the
     * loop is over; a lost connection never escapes, it ends the loop; a
     * printed error ends only the pass.
     */
    method Step(t: Tick) returns (r: Result<bool, Exc>)
      requires proto.bufferSize > 0
      modifies this, proto.sock
      ensures r.Err? ==> !IsConnectionError(r.error) && !r.error.RuntimeError?
      ensures t.exceptional && r == Ok(false) ==> |screen| > 0 && screen[|screen| - 1].ErrorLine?
      ensures !old(closed) && closed ==> r == Ok(true)
      ensures (!windows && t.line.Some? && Lower(Strip(t.line.value)) != "close" && proto.sock.peerGone
        && Outgoing(proto.codec, ToJson(Reply(Str(Strip(t.line.value)), Null, "success"))).Ok?) ==> r == Ok(true)
    {
      if windows {
        if inputLine == "" {
          DisplayPrompt();
        }
        if t.key.Some? {
          var k := KeyPress(t.key.value);
          if k.Err? {
            r := Handle(k.error);
            return;
          } else if k.value {
            return Ok(true);
          }
        }
      } else {
        DisplayPrompt();
        if t.line.Some? {
          var s := SubmitLine(t.line.value);
          if s.Err? {
            r := Handle(s.error);
            return;
          } else if s.value {
            return Ok(true);
          }
        }
      }
      if t.readable {
        var h := HandleResponse();
        if h.Err? {
          r := Handle(h.error);
          return;
        }
      }
      if t.exceptional {
        screen := screen + [LostLine];
        return Ok(true);
      }
      return Ok(false);
    }

    /**
     * `run()` after `connect()`, over the passes `ticks`: the loop runs until
     * a pass ends it or an exception escapes, and the socket is closed
     * however it ends.
     */
    method Run(ticks: seq<Tick>) returns (r: Result<(), Exc>)
      requires proto.bufferSize > 0
      modifies this, proto.sock
      ensures closed
      ensures r.Err? ==> !IsConnectionError(r.error) && !r.error.RuntimeError?
    {
      var i := 0;
      r := Ok(());
      while i < |ticks|
        invariant 0 <= i <= |ticks|
        invariant r == Ok(())
        decreases |ticks| - i
      {
        var s := Step(ticks[i]);
        if s.Err? {
          r := Err(s.error);
          break;
        }
        if s.value {
          break;
        }
        i := i + 1;
      }
      closed := true;
    }
  }
}
