/**
 * The wire protocol of communication.py: the envelope every message travels
 * in, and the frame that delimits one envelope on the byte stream (the body's
 * length as 4 big-endian bytes, then the body, UTF-8 JSON).
 */
module Communication {
  import opened Values

  newtype byte = x: int | 0 <= x < 0x100

  // ---------------------------------------------------------------------
  // Envelope

  datatype Status = Success | Error | ReadyForInput

  function StatusName(s: Status): string {
    match s
    case Success => "success"
    case Error => "error"
    case ReadyForInput => "ready_for_input"
  }

  /** The closed set of statuses `format_message` accepts. */
  function ParseStatus(name: string): (r: Option<Status>)
    ensures r.Some? <==> name in {"success", "error", "ready_for_input"}
    ensures r.Some? ==> StatusName(r.value) == name
  {
    if name == "success" then Some(Success)
    else if name == "error" then Some(Error)
    else if name == "ready_for_input" then Some(ReadyForInput)
    else None
  }

  /** Every status survives being written as its name and parsed back. */
  lemma ParseStatusName(s: Status)
    ensures ParseStatus(StatusName(s)) == Some(s)
  {
  }

  /** `{status, message, data}` as `format_message` builds it. */
  datatype Envelope = Envelope(status: Status, message: Json, data: Json)

  /** The empty tuple `()` that stands for "no data"; JSON writes it as `[]`. */
  const NoData: Json := Arr([])

  const StatusErrorText: string := "Status must either be 'success', 'error' or 'ready for input'"

  /** `CommunicationProtocol.format_message(message, status, data)`; `data == Null` is Python's None. */
  function FormatMessage(message: Json, status: string := "success", data: Json := Null): (r: Result<Envelope, Exc>)
    ensures r.Err? <==> status !in {"success", "error", "ready_for_input"}
    ensures r.Err? ==> r.error == ValueError(StatusErrorText)
    ensures r.Ok? ==> StatusName(r.value.status) == status && r.value.message == message
    ensures r.Ok? && data != Null ==> r.value.data == data
    ensures r.Ok? && data == Null ==> r.value.data == NoData
  {
    match ParseStatus(status)
    case None => Err(ValueError(StatusErrorText))
    case Some(s) => Ok(Envelope(s, message, if data != Null then data else NoData))
  }

  /** The dict an envelope is: exactly the keys status, message and data. */
  function ToJson(e: Envelope): (j: Json)
    ensures j.Obj? && UniqueKeys(j.fields)
    ensures Keys(j.fields) == {"status", "message", "data"}
  {
    var fs := [("status", Str(StatusName(e.status))), ("message", e.message), ("data", e.data)];
    assert Keys(fs[1..][1..]) == {"data"} by { assert fs[1..][1..][1..] == []; }
    assert Keys(fs[1..]) == {"message", "data"};
    assert UniqueKeys(fs[1..][1..]) by { assert fs[1..][1..][1..] == []; }
    Obj(fs)
  }

  /** Reads an envelope back out of a dict, as a receiver indexes it. */
  function FromJson(j: Json): (r: Option<Envelope>)
    ensures r.Some? ==> j.Obj?
  {
    if !j.Obj? then None
    else
      match (Lookup(j.fields, "status"), Lookup(j.fields, "message"), Lookup(j.fields, "data"))
      case (Some(Str(name)), Some(m), Some(d)) =>
        (match ParseStatus(name)
         case Some(s) => Some(Envelope(s, m, d))
         case None => None)
      case _ => None
  }

  /** An envelope read back from its dict is the envelope written. */
  lemma FromToJson(e: Envelope)
    ensures FromJson(ToJson(e)) == Some(e)
  {
    ParseStatusName(e.status);
    var fs := ToJson(e).fields;
    assert Lookup(fs, "status") == Some(Str(StatusName(e.status)));
    assert Lookup(fs, "message") == Some(e.message) by {
      assert fs[1..][0] == ("message", e.message);
    }
    assert Lookup(fs, "data") == Some(e.data) by {
      assert Lookup(fs[1..][1..], "data") == Some(e.data);
      assert Lookup(fs[1..], "data") == Lookup(fs[1..][1..], "data");
    }
  }

  lemma ToJsonWellFormed(e: Envelope)
    requires WellFormed(e.message) && WellFormed(e.data)
    ensures WellFormed(ToJson(e))
  {
    var fs := ToJson(e).fields;
    assert forall i :: 0 <= i < |fs| ==> fs[i].1 in {Str(StatusName(e.status)), e.message, e.data};
  }

  // ---------------------------------------------------------------------
  // Transport

  /**
   * `json.dumps(m).encode("utf-8")` and `json.loads(b.decode("utf-8"))`
   * (RFC 8259 over RFC 3629). The model does not define them; what it uses of
   * them is `Faithful`.
   */
  datatype Codec = Codec(encode: Json -> seq<byte>, decode: seq<byte> -> Option<Json>)

  /** Decoding undoes encoding, a serialized value is never empty, and empty input is not JSON. */
  ghost predicate Faithful(c: Codec) {
    && (forall j :: WellFormed(j) ==> c.decode(c.encode(j)) == Some(j))
    && (forall j :: |c.encode(j)| > 0)
    && c.decode([]) == None
  }

  /**
   * One end of a stream socket. `inbound` holds what the peer has sent and this
   * end has not read yet; the peer closes the stream after it. `recv` hands
   * out a prefix of it whose length the network chooses.
   */
  class Channel {
    var inbound: seq<byte>
    var outbound: seq<byte>
    /** The peer has dropped the connection: every `sendall` fails. */
    const peerGone: bool

    constructor (peerSends: seq<byte>, peerGone: bool)
      ensures inbound == peerSends && outbound == [] && this.peerGone == peerGone
    {
      inbound := peerSends;
      outbound := [];
      this.peerGone := peerGone;
    }

    /** `sock.recv(n)`: at most n bytes, at least one while any are left; b"" once the peer has closed. */
    method Recv(n: nat) returns (chunk: seq<byte>)
      modifies this
      ensures |chunk| <= n && |chunk| <= |old(inbound)|
      ensures chunk == old(inbound)[..|chunk|] && inbound == old(inbound)[|chunk|..]
      ensures n > 0 && old(inbound) != [] ==> chunk != []
      ensures outbound == old(outbound)
    {
      var most := if n < |inbound| then n else |inbound|;
      var k: nat :| k <= most && (most > 0 ==> k > 0);
      chunk := inbound[..k];
      inbound := inbound[k..];
    }

    /** `sock.sendall(bytes)`: all of them, or ConnectionResetError when the peer has dropped the connection. */
    method SendAll(bytes: seq<byte>) returns (r: Result<(), Exc>)
      modifies this
      ensures inbound == old(inbound)
      ensures Wrote(this, bytes, r)
    {
      if peerGone {
        return Err(ConnectionResetError);
      }
      outbound := outbound + bytes;
      return Ok(());
    }
  }

  /** A write of `bytes` to `ch` gave `r`: the bytes are appended, or, once the peer has gone, nothing is and ConnectionResetError is raised. */
  twostate predicate Wrote(ch: Channel, bytes: seq<byte>, new r: Result<(), Exc>)
    reads ch
  {
    && (!ch.peerGone ==> r.Ok? && ch.outbound == old(ch.outbound) + bytes)
    && (ch.peerGone ==> r == Err(ConnectionResetError) && ch.outbound == old(ch.outbound))
  }

  // ---------------------------------------------------------------------
  // Framing

  const FrameLimit: nat := 0x1_0000_0000

  /** `n.to_bytes(4, byteorder="big")` */
  function Be4(n: nat): (r: seq<byte>)
    requires n < FrameLimit
    ensures |r| == 4
  {
    var m1 := n / 0x100;
    var m2 := m1 / 0x100;
    [(m2 / 0x100) as byte, (m2 % 0x100) as byte, (m1 % 0x100) as byte, (n % 0x100) as byte]
  }

  /** `int.from_bytes(s, byteorder="big")`, for a byte string of any length. */
  function FromBe(s: seq<byte>): nat {
    if s == [] then 0 else FromBe(s[..|s| - 1]) * 0x100 + s[|s| - 1] as int
  }

  /** The 4-byte prefix decodes to the length it encodes. */
  lemma Be4RoundTrip(n: nat)
    requires n < FrameLimit
    ensures FromBe(Be4(n)) == n
  {
    var b := Be4(n);
    var m1 := n / 0x100;
    var m2 := m1 / 0x100;
    assert b[..3][..2] == b[..2] && b[..2][..1] == b[..1] && b[..1][..0] == [];
    assert FromBe(b[..1]) == b[0] as int == m2 / 0x100;
    assert FromBe(b[..2]) == m2 by {
      assert FromBe(b[..2]) == FromBe(b[..1]) * 0x100 + b[1] as int;
    }
    assert FromBe(b[..3]) == m1 by {
      assert FromBe(b[..3]) == FromBe(b[..2]) * 0x100 + b[2] as int;
    }
    assert FromBe(b) == FromBe(b[..3]) * 0x100 + b[3] as int;
  }

  /** The bytes `send` writes for a body: the length prefix, then the body. */
  function Frame(body: seq<byte>): (f: seq<byte>)
    requires |body| < FrameLimit
    ensures |f| == 4 + |body| && f[4..] == body
    ensures FromBe(f[..4]) == |body|
  {
    Be4RoundTrip(|body|);
    assert (Be4(|body|) + body)[..4] == Be4(|body|);
    Be4(|body|) + body
  }

  /** What `send` serializes: a dict as it is, anything else wrapped in a `success` envelope. */
  function Enveloped(msg: Json): (j: Json)
    ensures msg.Obj? ==> j == msg
    ensures !msg.Obj? ==> FromJson(j) == Some(Envelope(Success, msg, NoData))
  {
    if msg.Obj? then msg
    else
      FromToJson(Envelope(Success, msg, NoData));
      ToJson(FormatMessage(msg).value)
  }

  /** The bytes `send(msg)` writes, or the exception it raises (a body of 2^32 bytes or more does not fit the prefix). */
  function Outgoing(c: Codec, msg: Json): (r: Result<seq<byte>, Exc>)
    ensures r.Err? <==> |c.encode(Enveloped(msg))| >= FrameLimit
    ensures r.Err? ==> r.error == OverflowError
    ensures r.Ok? ==> |r.value| == 4 + |c.encode(Enveloped(msg))|
    ensures r.Ok? ==> r.value[4..] == c.encode(Enveloped(msg))
    ensures r.Ok? ==> FromBe(r.value[..4]) == |r.value| - 4
  {
    var body := c.encode(Enveloped(msg));
    if |body| < FrameLimit then Ok(Frame(body)) else Err(OverflowError)
  }

  const ClosedByPeer: string := "Connection closed by peer"
  const LengthErrorText: string := "Invalid message length: 0"

  function Decoded(c: Codec, body: seq<byte>): Result<Json, Exc> {
    match c.decode(body)
    case Some(j) => Ok(j)
    case None => Err(JsonDecodeError)
  }

  /**
   * What `receive` does with the stream `s`, however the network cuts it into
   * chunks: the result and the bytes left unread. This is the corrected
   * reading (see README, Findings): the header is read until it is whole, and
   * a peer that closes before the frame is complete is reported, not waited on.
   */
  function ReadFrame(c: Codec, s: seq<byte>): (Result<Json, Exc>, seq<byte>) {
    if |s| < 4 then (Err(BrokenPipeError(ClosedByPeer)), [])
    else
      var len := FromBe(s[..4]);
      if len == 0 then (Err(ValueError(LengthErrorText)), s[4..])
      else if |s| < 4 + len then (Err(BrokenPipeError(ClosedByPeer)), [])
      else (Decoded(c, s[4..4 + len]), s[4 + len..])
  }

  lemma EnvelopedWellFormed(msg: Json)
    requires WellFormed(msg)
    ensures WellFormed(Enveloped(msg))
  {
    if !msg.Obj? {
      ToJsonWellFormed(Envelope(Success, msg, NoData));
    }
  }

  /**
   * Round trip: reading the bytes `send(msg)` wrote gives back the envelope
   * sent, and leaves whatever followed it unread.
   */
  lemma FrameRoundTrip(c: Codec, msg: Json, rest: seq<byte>)
    requires Faithful(c) && WellFormed(msg) && Outgoing(c, msg).Ok?
    ensures ReadFrame(c, Outgoing(c, msg).value + rest) == (Ok(Enveloped(msg)), rest)
  {
    var body := c.encode(Enveloped(msg));
    var s := Outgoing(c, msg).value + rest;
    assert s[..4] == Outgoing(c, msg).value[..4];
    assert s[4..4 + |body|] == body;
    assert s[4 + |body|..] == rest;
    EnvelopedWellFormed(msg);
  }

  function Min(a: nat, b: nat): nat {
    if a < b then a else b
  }

  /** A `CommunicationProtocol` over one socket. */
  class CommunicationProtocol {
    const sock: Channel
    const codec: Codec
    const bufferSize: nat

    constructor (sock: Channel, codec: Codec, bufferSize: nat := 1024)
      requires bufferSize > 0
      ensures this.sock == sock && this.codec == codec && this.bufferSize == bufferSize
    {
      this.sock := sock;
      this.codec := codec;
      this.bufferSize := bufferSize;
    }

    /**
     * `send(msg)`: one write of the whole frame, or nothing and the exception:
     * OverflowError from `to_bytes` for a body too long for the header, or
     * the ConnectionError of `sendall`, raised again.
     */
    method Send(msg: Json) returns (r: Result<(), Exc>)
      modifies sock
      ensures sock.inbound == old(sock.inbound)
      ensures r.Ok? <==> Outgoing(codec, msg).Ok? && !sock.peerGone
      ensures Outgoing(codec, msg).Ok? ==> Wrote(sock, Outgoing(codec, msg).value, r)
      ensures Outgoing(codec, msg).Err? ==> r == Err(OverflowError) && sock.outbound == old(sock.outbound)
    {
      var body := codec.encode(Enveloped(msg));
      if |body| >= FrameLimit {
        return Err(OverflowError);
      }
      r := sock.SendAll(Be4(|body|) + body);
    }

    /**
     * `receive()`: the header until it is whole, then the body in chunks of at
     * most `bufferSize` until exactly the announced length is gathered. The
     * outcome does not depend on how the network cut the stream.
     */
    method Receive() returns (r: Result<Json, Exc>)
      requires bufferSize > 0
      modifies sock
      ensures (r, sock.inbound) == ReadFrame(codec, old(sock.inbound))
      ensures sock.outbound == old(sock.outbound)
    {
      ghost var s := sock.inbound;
      var header: seq<byte> := [];
      while |header| < 4
        invariant |header| <= 4 && |header| <= |s|
        invariant header == s[..|header|] && sock.inbound == s[|header|..]
        invariant sock.outbound == old(sock.outbound)
        decreases 4 - |header|
      {
        var chunk := sock.Recv(4 - |header|);
        if chunk == [] {
          assert s == header;
          return Err(BrokenPipeError(ClosedByPeer));
        }
        header := header + chunk;
      }
      assert header == s[..4];
      var msgLen := FromBe(header);
      if msgLen <= 0 {
        assert sock.inbound == s[4..];
        return Err(ValueError(LengthErrorText));
      }
      var data: seq<byte> := [];
      var remaining := msgLen;
      while remaining > 0
        invariant 0 <= remaining && |data| + remaining == msgLen && 4 + |data| <= |s|
        invariant data == s[4..4 + |data|] && sock.inbound == s[4 + |data|..]
        invariant sock.outbound == old(sock.outbound)
        decreases remaining
      {
        var chunk := sock.Recv(Min(remaining, bufferSize));
        if chunk == [] {
          assert |s| == 4 + |data|;
          return Err(BrokenPipeError(ClosedByPeer));
        }
        data := data + chunk;
        remaining := remaining - |chunk|;
      }
      assert data == s[4..4 + msgLen];
      assert ReadFrame(codec, s) == (Decoded(codec, data), s[4 + msgLen..]);
      r := Decoded(codec, data);
    }
  }

  // ---------------------------------------------------------------------
  // communication.py:69-83 as written

  /** How `receive` as written ends: with a result, or never (it waits on a closed socket). */
  datatype Outcome = Returns(result: Result<Json, Exc>, rest: seq<byte>) | Hangs

  /**
   * `receive` as written, when its single `recv(4)` returns the first `h`
   * bytes of the stream `s`. The header is decoded from however many bytes
   * arrived. In the body loop a closed peer makes `recv` return b"" for ever:
   * `remaining` stays positive and the loop never ends.
   */
  function ReceiveAsWritten(c: Codec, s: seq<byte>, h: nat): Outcome
    requires h <= 4 && h <= |s| && (h == 0 <==> s == [])
  {
    if h == 0 then Returns(Err(BrokenPipeError(ClosedByPeer)), s)
    else
      var len := FromBe(s[..h]);
      if len == 0 then Returns(Err(ValueError(LengthErrorText)), s[h..])
      else if |s| < h + len then Hangs
      else Returns(Decoded(c, s[h..h + len]), s[h + len..])
  }

  /** Where the written code returns at all with its header whole, it agrees with the corrected reading. */
  lemma AsWrittenAgreesWhenHeaderWhole(c: Codec, s: seq<byte>)
    requires |s| >= 4 && ReceiveAsWritten(c, s, 4).Returns?
    ensures ReadFrame(c, s) == (ReceiveAsWritten(c, s, 4).result, ReceiveAsWritten(c, s, 4).rest)
  {
  }

  /**
   * A header that arrives in pieces is misread: when the first `recv(4)`
   * returns only the first byte of a frame whose body is shorter than 2^24
   * bytes, the length is read as 0 and a well-formed message is refused.
   */
  lemma ShortHeaderRefusesFrame(c: Codec, msg: Json, rest: seq<byte>)
    requires Faithful(c) && WellFormed(msg)
    requires |c.encode(Enveloped(msg))| < 0x100_0000
    ensures ReadFrame(c, Outgoing(c, msg).value + rest).0 == Ok(Enveloped(msg))
    ensures var o := ReceiveAsWritten(c, Outgoing(c, msg).value + rest, 1);
      o.Returns? && o.result == Err(ValueError(LengthErrorText))
  {
    FrameRoundTrip(c, msg, rest);
    var s := Outgoing(c, msg).value + rest;
    var n := |c.encode(Enveloped(msg))|;
    assert s[..1] == Be4(n)[..1];
    assert FromBe(s[..1]) == Be4(n)[0] as int by {
      assert s[..1][..0] == [];
    }
  }

  /**
   * A peer that closes in the middle of a body: the corrected reading reports
   * the closed connection, the written loop waits for ever.
   */
  lemma TruncatedBodyHangs(c: Codec, msg: Json, k: nat)
    requires Faithful(c) && Outgoing(c, msg).Ok?
    requires k < |c.encode(Enveloped(msg))|
    ensures ReadFrame(c, Outgoing(c, msg).value[..4 + k]) == (Err(BrokenPipeError(ClosedByPeer)), [])
    ensures ReceiveAsWritten(c, Outgoing(c, msg).value[..4 + k], 4) == Hangs
  {
    var f := Outgoing(c, msg).value;
    assert f[..4 + k][..4] == f[..4];
  }
}
