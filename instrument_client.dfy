/**
 * The client stub of the broker, InstrumentClient.py: it builds the request
 * texts, sends each one and waits for the reply, and turns ERROR replies
 * into exceptions.  The lemmas at the end connect it with the server side
 * of `Protocol`: what the client sends is what the server parses, and what
 * the server replies is what the client returns or raises.
 */
module InstrumentClient {
  import opened Base
  import opened Text
  import Registry
  import Protocol

  // ---------------------------------------------------------------------
  // Requests
  // ---------------------------------------------------------------------

  function OpenMsg(addr: string): string { "OPEN " + addr }
  function CloseMsg(addr: string): string { "CLOSE " + addr }
  function ReadMsg(addr: string): string { "READ " + addr }
  function WriteMsg(addr: string, msg: string): string { "WRITE " + addr + " " + msg }
  function QueryMsg(addr: string, msg: string): string { "QUERY " + addr + " " + msg }

  /** `CONF a <hex>`: the serialized configuration travels as the hex text of its bytes. */
  function ConfMsg(addr: string, payload: seq<byte>): string { "CONF " + addr + " " + ToHex(payload) }

  // ---------------------------------------------------------------------
  // Replies
  // ---------------------------------------------------------------------

  /**
   * `handle_error(msg)`: it never returns.  The exception is always a
   * RuntimeError: an `ERROR` reply raises with the text after the first
   * token, anything else with `Unknown Error: <msg>`.
   */
  function HandleError(msg: string): (f: Fault)
    ensures f.kind == RuntimeError
  {
    var toks := Split(msg, ' ');
    if toks[0] == "ERROR" then Fault(RuntimeError, Join(toks[1..], ' '))
    else Fault(RuntimeError, "Unknown Error: " + msg)
  }

  /** The first token of a split is the word `w` exactly when the text is `w` or starts with `w `. */
  lemma FirstToken(msg: string, w: string)
    requires ' ' !in w
    ensures Split(msg, ' ')[0] == w <==> msg == w || (|msg| > |w| && msg[..|w| + 1] == w + " ")
  {
    var toks := Split(msg, ' ');
    if toks[0] == w {
      if |toks| > 1 {
        assert msg == toks[0] + [' '] + Join(toks[1..], ' ');
      }
    }
    if msg == w {
      SplitWord(w, ' ');
    } else if |msg| > |w| && msg[..|w| + 1] == w + " " {
      assert msg == w + [' '] + msg[|w| + 1..];
      SplitAfterWord(w, ' ', msg[|w| + 1..]);
    }
  }

  /** `handle_error` read off the text itself: the raised message by the reply's prefix. */
  lemma HandleErrorByPrefix(msg: string)
    ensures |msg| >= 6 && msg[..6] == "ERROR " ==> HandleError(msg).message == msg[6..]
    ensures msg == "ERROR" ==> HandleError(msg).message == ""
    ensures msg != "ERROR" && !(|msg| >= 6 && msg[..6] == "ERROR ") ==>
      HandleError(msg).message == "Unknown Error: " + msg
  {
    FirstToken(msg, "ERROR");
    if |msg| >= 6 && msg[..6] == "ERROR " {
      assert msg == "ERROR" + [' '] + msg[6..];
      SplitAfterWord("ERROR", ' ', msg[6..]);
    } else if msg == "ERROR" {
      SplitWord(msg, ' ');
    }
  }

  /** The exception the client raises for a fault the server reported. */
  function Relayed(f: Fault): Fault
  {
    Fault(RuntimeError, ClassText(f.kind) + " " + f.message)
  }

  /** An ERROR reply of the server raises the server's class and message, as text, on the client. */
  lemma HandleErrorReply(f: Fault)
    ensures HandleError(Protocol.ErrorReply(f)) == Relayed(f)
  {
    var reply := Protocol.ErrorReply(f);
    assert reply[..6] == "ERROR ";
    assert reply[6..] == ClassText(f.kind) + " " + f.message;
    HandleErrorByPrefix(reply);
  }

  /**
   * The reply to `read` and `query`: after a first token `READ` the rest
   * of the reply, spaces and all; anything else goes to `handle_error`.
   */
  function ReadReply(resp: string): Result<string>
  {
    var toks := Split(resp, ' ');
    if toks[0] == "READ" then Ok(Join(toks[1..], ' ')) else Err(HandleError(resp))
  }

  /** A `READ <text>` reply gives back exactly `text`, including the empty text. */
  lemma ReadReplyRoundTrip(text: string)
    ensures ReadReply("READ " + text) == Ok(text)
  {
    assert "READ " + text == "READ" + [' '] + text;
    SplitAfterWord("READ", ' ', text);
  }

  /** An ERROR reply to `read` or `query` raises the relayed fault. */
  lemma ReadReplyError(f: Fault)
    ensures ReadReply(Protocol.ErrorReply(f)) == Err(Relayed(f))
  {
    var reply := Protocol.ErrorReply(f);
    FirstToken(reply, "READ");
    assert reply[..5] != "READ ";
    HandleErrorReply(f);
  }

  /** `open`, `close`, `write`, `configure`: only the exact reply `expected` succeeds. */
  function ExpectReply(resp: string, expected: string): (r: Outcome)
    ensures r.Pass? <==> resp == expected
    ensures r.Fail? ==> r.error.kind == RuntimeError
  {
    if resp == expected then Pass else Fail(HandleError(resp))
  }

  /** A step of the stub that expects `expected`: a failed exchange raises as it is. */
  function Settle(x: Result<string>, expected: string): Outcome
  {
    match x
    case Err(f) => Fail(f)
    case Ok(resp) => ExpectReply(resp, expected)
  }

  /** A step of the stub that returns the device's text. */
  function Unwrap(x: Result<string>): Result<string>
  {
    match x
    case Err(f) => Err(f)
    case Ok(resp) => ReadReply(resp)
  }

  // ---------------------------------------------------------------------
  // The port file
  // ---------------------------------------------------------------------

  /** `readline()`: the text up to and including the first line break. */
  function FirstLine(text: string): (line: string)
    ensures line <= text
    ensures '\n' !in line[..if line == [] then 0 else |line| - 1]
    ensures line == text || (line != [] && line[|line| - 1] == '\n')
  {
    if text == [] then []
    else if text[0] == '\n' then "\n"
    else [text[0]] + FirstLine(text[1..])
  }

  /**
   * The port `__init__` connects to: the one given, else the integer on the
   * first line of the port file, which must exist.
   */
  function ResolvePort(port: Option<int>, path: string, file: Option<string>): Result<int>
  {
    if port.Some? then Ok(port.value)
    else if file.None? then Err(Fault(FileNotFoundError, "[Errno 2] No such file or directory: '" + path + "'"))
    else ParseInt(FirstLine(file.value))
  }

  lemma {:induction false} FirstLineOfDigits(digits: string, rest: string)
    requires AllDigits(digits)
    ensures FirstLine(digits + "\n" + rest) == digits + "\n"
  {
    if digits != [] {
      assert (digits + "\n" + rest)[1..] == digits[1..] + "\n" + rest;
      FirstLineOfDigits(digits[1..], rest);
    } else {
      assert digits + "\n" + rest == "\n" + rest;
    }
  }

  /** A client reading the port file the listener wrote connects to the listener's port. */
  lemma PortFileRoundTrip(port: nat, host: string, path: string)
    ensures ResolvePort(None, path, Some(Protocol.PortFileText(port, host))) == Ok(port)
  {
    assert Protocol.PortFileText(port, host) == DecimalText(port) + "\n" + (host + "\n");
    FirstLineOfDigits(DecimalText(port), host + "\n");
    ParseIntLine(port);
  }

  // ---------------------------------------------------------------------
  // The stub
  // ---------------------------------------------------------------------

  /** What `send` on a closed connection raises. */
  const HandleClosed := Fault(OSError, "handle is closed")

  /** What `recv` raises when the server has hung up. */
  const PeerGone := Fault(EOFError, "")

  /**
   * `InstrumentClient`: the device address, whether the connection is
   * open, the messages sent so far, the replies the server will give, and
   * how the `open` that `__init__` ends with went (a `Fail` there is the
   * exception the constructor raises).
   */
  class InstrumentClient {
    const visaAddr: string
    var connected: bool
    var sent: seq<string>
    var replies: seq<string>
    var openOutcome: Outcome

    /**
     * `InstrumentClient(visa_addr)`: connects to a server that will answer
     * with `replies`, then opens the instrument with `OPEN a`.
     */
    constructor (visaAddr: string, replies: seq<string>)
      ensures this.visaAddr == visaAddr && connected && sent == [OpenMsg(visaAddr)]
      ensures this.replies == (if replies == [] then [] else replies[1..])
      ensures openOutcome == Settle(if replies == [] then Err(PeerGone) else Ok(replies[0]), "OPEN OK")
    {
      this.visaAddr := visaAddr;
      connected := true;
      sent := [];
      this.replies := replies;
      openOutcome := Pass;
      new;
      var r := Open();
      openOutcome := r;
    }

    /** `disconnect`. */
    method Disconnect()
      modifies this
      ensures !connected && sent == old(sent) && replies == old(replies)
    {
      connected := false;
    }

    /** `send_and_recv`: one message out, one reply in. */
    method SendAndRecv(msg: string) returns (r: Result<string>)
      modifies this
      ensures connected == old(connected)
      ensures !old(connected) ==> r == Err(HandleClosed) && sent == old(sent) && replies == old(replies)
      ensures old(connected) ==> sent == old(sent) + [msg]
      ensures old(connected) && old(replies) == [] ==> r == Err(PeerGone) && replies == []
      ensures old(connected) && old(replies) != [] ==> r == Ok(old(replies)[0]) && replies == old(replies)[1..]
    {
      if !connected {
        return Err(HandleClosed);
      }
      sent := sent + [msg];
      if replies == [] {
        return Err(PeerGone);
      }
      r := Ok(replies[0]);
      replies := replies[1..];
    }

    /** `open`: `OPEN a`, expecting `OPEN OK`. */
    method Open() returns (r: Outcome)
      modifies this
      ensures connected == old(connected)
      ensures !old(connected) ==> sent == old(sent) && replies == old(replies)
      ensures old(connected) ==> sent == old(sent) + [OpenMsg(visaAddr)]
      ensures old(connected) ==> replies == (if old(replies) == [] then [] else old(replies)[1..])
      ensures r == Settle(if !old(connected) then Err(HandleClosed) else if old(replies) == [] then Err(PeerGone) else Ok(old(replies)[0]), "OPEN OK")
    {
      var x := SendAndRecv(OpenMsg(visaAddr));
      r := Settle(x, "OPEN OK");
    }

    /** `close`: `CLOSE a`, expecting `CLOSE OK`. */
    method Close() returns (r: Outcome)
      modifies this
      ensures connected == old(connected)
      ensures !old(connected) ==> sent == old(sent) && replies == old(replies)
      ensures old(connected) ==> sent == old(sent) + [CloseMsg(visaAddr)]
      ensures old(connected) ==> replies == (if old(replies) == [] then [] else old(replies)[1..])
      ensures r == Settle(if !old(connected) then Err(HandleClosed) else if old(replies) == [] then Err(PeerGone) else Ok(old(replies)[0]), "CLOSE OK")
    {
      var x := SendAndRecv(CloseMsg(visaAddr));
      r := Settle(x, "CLOSE OK");
    }

    /** `write(msg)`: `WRITE a msg`, expecting `WRITE OK`. */
    method Write(msg: string) returns (r: Outcome)
      modifies this
      ensures connected == old(connected)
      ensures !old(connected) ==> sent == old(sent) && replies == old(replies)
      ensures old(connected) ==> sent == old(sent) + [WriteMsg(visaAddr, msg)]
      ensures old(connected) ==> replies == (if old(replies) == [] then [] else old(replies)[1..])
      ensures r == Settle(if !old(connected) then Err(HandleClosed) else if old(replies) == [] then Err(PeerGone) else Ok(old(replies)[0]), "WRITE OK")
    {
      var x := SendAndRecv(WriteMsg(visaAddr, msg));
      r := Settle(x, "WRITE OK");
    }

    /** `configure(conf)`, with `payload` the serialized configuration. */
    method Configure(payload: seq<byte>) returns (r: Outcome)
      modifies this
      ensures connected == old(connected)
      ensures !old(connected) ==> sent == old(sent) && replies == old(replies)
      ensures old(connected) ==> sent == old(sent) + [ConfMsg(visaAddr, payload)]
      ensures old(connected) ==> replies == (if old(replies) == [] then [] else old(replies)[1..])
      ensures r == Settle(if !old(connected) then Err(HandleClosed) else if old(replies) == [] then Err(PeerGone) else Ok(old(replies)[0]), "CONF OK")
    {
      var x := SendAndRecv(ConfMsg(visaAddr, payload));
      r := Settle(x, "CONF OK");
    }

    /** `query(msg)`: `QUERY a msg`, returning the text of the `READ` reply. */
    method Query(msg: string) returns (r: Result<string>)
      modifies this
      ensures connected == old(connected)
      ensures !old(connected) ==> sent == old(sent) && replies == old(replies)
      ensures old(connected) ==> sent == old(sent) + [QueryMsg(visaAddr, msg)]
      ensures old(connected) ==> replies == (if old(replies) == [] then [] else old(replies)[1..])
      ensures r == Unwrap(if !old(connected) then Err(HandleClosed) else if old(replies) == [] then Err(PeerGone) else Ok(old(replies)[0]))
    {
      var x := SendAndRecv(QueryMsg(visaAddr, msg));
      r := Unwrap(x);
    }

    /**
     * `read`: `READ a`, returning the text of the `READ` reply.  Once a
     * reply has arrived the connection is closed, whatever the reply was,
     * so every later request of this stub raises; when the exchange itself
     * raises, `disconnect` is never reached and the connection stays as it was.
     */
    method Read() returns (r: Result<string>)
      modifies this
      ensures connected <==> old(connected) && old(replies) == []
      ensures !old(connected) ==> sent == old(sent) && replies == old(replies)
      ensures old(connected) ==> sent == old(sent) + [ReadMsg(visaAddr)]
      ensures old(connected) ==> replies == (if old(replies) == [] then [] else old(replies)[1..])
      ensures r == Unwrap(if !old(connected) then Err(HandleClosed) else if old(replies) == [] then Err(PeerGone) else Ok(old(replies)[0]))
    {
      var x := SendAndRecv(ReadMsg(visaAddr));
      if x.Ok? {
        Disconnect();
      }
      r := Unwrap(x);
    }
  }

  // ---------------------------------------------------------------------
  // Client and server together
  // ---------------------------------------------------------------------

  /** A request `V A R` with an upper-case verb parses back to exactly its three parts. */
  lemma VerbRequest(v: string, a: string, r: string)
    requires ' ' !in v && ' ' !in a
    requires forall i :: 0 <= i < |v| ==> !('a' <= v[i] <= 'z')
    ensures Protocol.ParseMsg(v + " " + a + " " + r) == Ok(Protocol.Request(v, a, r))
  {
    UpperKeeps(v);
    Protocol.ParseMsgThree(v, a, r);
  }

  /** A request `V A` with an upper-case verb parses back with an empty payload. */
  lemma VerbOnlyRequest(v: string, a: string)
    requires ' ' !in v && ' ' !in a
    requires forall i :: 0 <= i < |v| ==> !('a' <= v[i] <= 'z')
    ensures Protocol.ParseMsg(v + " " + a) == Ok(Protocol.Request(v, a, ""))
  {
    UpperKeeps(v);
    Protocol.ParseMsgTwo(v, a);
  }

  /**
   * The requests without payload the client builds, for an address
   * without spaces, parse into their verb and that address.
   */
  lemma ShortRequestsParse(a: string)
    requires ' ' !in a
    ensures Protocol.ParseMsg(OpenMsg(a)) == Ok(Protocol.Request("OPEN", a, ""))
    ensures Protocol.ParseMsg(CloseMsg(a)) == Ok(Protocol.Request("CLOSE", a, ""))
    ensures Protocol.ParseMsg(ReadMsg(a)) == Ok(Protocol.Request("READ", a, ""))
  {
    VerbOnlyRequest("OPEN", a);
    assert OpenMsg(a) == "OPEN" + " " + a;
    VerbOnlyRequest("CLOSE", a);
    assert CloseMsg(a) == "CLOSE" + " " + a;
    VerbOnlyRequest("READ", a);
    assert ReadMsg(a) == "READ" + " " + a;
  }

  /**
   * WRITE and QUERY requests parse into their verb, the address and the
   * message unchanged, spaces and all.
   */
  lemma MessageRequestsParse(a: string, m: string)
    requires ' ' !in a
    ensures Protocol.ParseMsg(WriteMsg(a, m)) == Ok(Protocol.Request("WRITE", a, m))
    ensures Protocol.ParseMsg(QueryMsg(a, m)) == Ok(Protocol.Request("QUERY", a, m))
  {
    VerbRequest("WRITE", a, m);
    assert WriteMsg(a, m) == "WRITE" + " " + a + " " + m;
    VerbRequest("QUERY", a, m);
    assert QueryMsg(a, m) == "QUERY" + " " + a + " " + m;
  }

  /**
   * A CONF request parses into the address and the hex text of the
   * payload, and the server's decoding of that text gives back exactly
   * the bytes the client serialized.
   */
  lemma ConfRequestDecodes(a: string, payload: seq<byte>)
    requires ' ' !in a
    ensures Protocol.ParseMsg(ConfMsg(a, payload)) == Ok(Protocol.Request("CONF", a, ToHex(payload)))
    ensures FromHex(ToHex(payload)) == Ok(payload)
  {
    var h := ToHex(payload);
    VerbRequest("CONF", a, h);
    assert ConfMsg(a, payload) == "CONF" + " " + a + " " + h;
    HexRoundTrip(payload);
  }

  /**
   * A query end to end: on an open address the client gets exactly the
   * device's answer, and a device error (or the timeout of a device with
   * nothing to say) reaches the client as a RuntimeError naming it; on an
   * address that is not open the client gets the relayed KeyError.
   */
  lemma QueryEndToEnd(st: Registry.State, a: string, m: string, unpickle: seq<byte> -> Result<Registry.Conf>)
    requires ' ' !in a
    ensures var reply := Protocol.Dispatch(st, Protocol.Request("QUERY", a, m), unpickle).1;
      var answer := Registry.Query(st, a, m).result;
      Unwrap(Ok(reply)) == (if answer.Ok? then Ok(answer.value) else Err(Relayed(answer.error)))
  {
    var answer := Registry.Query(st, a, m).result;
    if answer.Ok? {
      ReadReplyRoundTrip(answer.value);
    } else {
      ReadReplyError(answer.error);
    }
  }

  /**
   * A write, open, close or configure end to end: the client's step
   * succeeds exactly when the registry call does, and otherwise raises
   * the relayed fault.
   */
  lemma ExpectEndToEnd(st: Registry.State, req: Protocol.Request, unpickle: seq<byte> -> Result<Registry.Conf>)
    requires req.task in {"OPEN", "CONF", "WRITE", "CLOSE"}
    requires Protocol.ToOp(req, unpickle).Ok?
    ensures var reply := Protocol.Dispatch(st, req, unpickle).1;
      var result := Registry.Apply(st, Protocol.ToOp(req, unpickle).value).result;
      ExpectReply(reply, req.task + " OK") == (if result.Ok? then Pass else Fail(Relayed(result.error)))
  {
    var result := Registry.Apply(st, Protocol.ToOp(req, unpickle).value).result;
    if result.Err? {
      var reply := Protocol.ErrorReply(result.error);
      assert reply[0] == 'E' && (req.task + " OK")[0] != 'E';
      HandleErrorReply(result.error);
    }
  }

  /**
   * After a `read` that got its reply the stub is disconnected: a later
   * request raises without sending anything.  When the server had already
   * hung up, the `read` raises before disconnecting, so the later request
   * is still sent and meets the same end of file.
   */
  method ReadThenWrite(c: InstrumentClient, msg: string) returns (r: Result<string>, w: Outcome)
    modifies c
    ensures old(c.connected) && old(c.replies) == [] ==>
      && r == Err(PeerGone) && w == Fail(PeerGone) && c.connected
      && c.sent == old(c.sent) + [ReadMsg(c.visaAddr), WriteMsg(c.visaAddr, msg)]
    ensures !(old(c.connected) && old(c.replies) == []) ==>
      && !c.connected && w == Fail(HandleClosed)
      && c.sent == old(c.sent) + (if old(c.connected) then [ReadMsg(c.visaAddr)] else [])
  {
    r := c.Read();
    w := c.Write(msg);
  }
}
