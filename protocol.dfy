/**
 * The broker's wire protocol, server side: `InstrumentClientHandler.parse_msg`
 * and the reply chosen by the `match` in `InstrumentClientHandler.run`
 * (InstrumentServer.py).  A request is `VERB ADDR [PAYLOAD]`; the reply
 * is `VERB OK`, `READ <text>` or `ERROR <class> <message>`.
 */
module Protocol {
  import opened Base
  import opened Text
  import Registry

  /** The three parts `parse_msg` returns: task, address and command text. */
  datatype Request = Request(task: string, addr: string, cmd: string)

  const ParseFault := Fault(IndexError, "list index out of range")

  /**
   * `parse_msg(msg)`: split at every space; the first token upper-cased is
   * the task, the second the address, and the rest joined again by spaces
   * the command.  With fewer than two tokens `toks[1]` raises IndexError.
   */
  function ParseMsg(msg: string): Result<Request>
  {
    var toks := Split(msg, ' ');
    if |toks| < 2 then Err(ParseFault)
    else Ok(Request(Upper(toks[0]), toks[1], if |toks| > 2 then Join(toks[2..], ' ') else ""))
  }

  /** A message fails to parse exactly when it holds no space. */
  lemma ParseFailsIffNoSpace(msg: string)
    ensures ParseMsg(msg).Err? <==> ' ' !in msg
  {
    if ' ' !in msg {
      SplitWord(msg, ' ');
    } else {
      var toks := Split(msg, ' ');
    }
  }

  /**
   * `parse_msg` on `V A R`, with `V` and `A` free of spaces, gives back
   * `V` upper-cased, `A`, and `R` exactly as it was, spaces and all.
   */
  lemma ParseMsgThree(v: string, a: string, r: string)
    requires ' ' !in v && ' ' !in a
    ensures ParseMsg(v + " " + a + " " + r) == Ok(Request(Upper(v), a, r))
  {
    var msg := v + " " + a + " " + r;
    assert msg == v + [' '] + (a + [' '] + r);
    SplitAfterWord(v, ' ', a + [' '] + r);
    SplitAfterWord(a, ' ', r);
    var toks := Split(msg, ' ');
    assert toks == [v, a] + Split(r, ' ');
    assert toks[2..] == Split(r, ' ');
  }

  /** `parse_msg` on `V A`: the command is empty. */
  lemma ParseMsgTwo(v: string, a: string)
    requires ' ' !in v && ' ' !in a
    ensures ParseMsg(v + " " + a) == Ok(Request(Upper(v), a, ""))
  {
    SplitAfterWord(v, ' ', a);
    SplitWord(a, ' ');
  }

  // ---------------------------------------------------------------------
  // Replies
  // ---------------------------------------------------------------------

  /** `f"ERROR {type(e)} {e}"`. */
  function ErrorReply(f: Fault): string
  {
    "ERROR " + ClassText(f.kind) + " " + f.message
  }

  function UnknownTask(task: string): Fault
  {
    Fault(ValueError, "Unknown task " + task)
  }

  /**
   * The registry call a parsed request asks for.  CONF first decodes its
   * command from hex and then deserializes it with `unpickle` (pickle is
   * not part of this model, so it is a parameter); either step can raise.
   */
  function ToOp(req: Request, unpickle: seq<byte> -> Result<Registry.Conf>): Result<Registry.Op>
  {
    match req.task
    case "OPEN" => Ok(Registry.OpenOp(req.addr))
    case "CONF" =>
      (match FromHex(req.cmd)
       case Err(f) => Err(f)
       case Ok(bytes) =>
         match unpickle(bytes)
         case Err(f) => Err(f)
         case Ok(conf) => Ok(Registry.ConfigureOp(req.addr, conf)))
    case "WRITE" => Ok(Registry.WriteOp(req.addr, req.cmd))
    case "READ" => Ok(Registry.ReadOp(req.addr))
    case "QUERY" => Ok(Registry.QueryOp(req.addr, req.cmd))
    case "CLOSE" => Ok(Registry.CloseOp(req.addr))
    case _ => Err(UnknownTask(req.task))
  }

  /** The reply to a request that succeeded: READ and QUERY carry the device's text. */
  function SuccessReply(task: string, text: string): string
  {
    if task == "READ" || task == "QUERY" then "READ " + text else task + " OK"
  }

  /**
   * One turn of the loop in `run`: the registry call for the request and
   * exactly one reply; any exception raised inside becomes an ERROR reply.
   */
  function Dispatch(st: Registry.State, req: Request, unpickle: seq<byte> -> Result<Registry.Conf>): (Registry.State, string)
  {
    match ToOp(req, unpickle)
    case Err(f) => (st, ErrorReply(f))
    case Ok(op) =>
      var s := Registry.Apply(st, op);
      (s.state, if s.result.Ok? then SuccessReply(req.task, s.result.value) else ErrorReply(s.result.error))
  }

  const Verbs: set<string> := {"OPEN", "CONF", "WRITE", "READ", "QUERY", "CLOSE"}

  /** A reply the client stub treats as a failure: it starts with `ERROR `. */
  predicate IsErrorReply(reply: string)
  {
    |reply| >= 6 && reply[..6] == "ERROR "
  }

  /**
   * The reply to a request.  Each known verb asks for its own registry
   * call (CONF only once its payload decodes); an unknown verb, or a CONF
   * payload that does not decode, gets the ERROR reply of that fault and
   * changes nothing.  Otherwise the registry moves to the state the call
   * leaves, and the reply is `VERB OK` (OPEN, CONF, WRITE, CLOSE) or
   * `READ <the device's text>` (READ and QUERY) when the call succeeds,
   * and the ERROR reply of the very exception it raised when it fails.
   * A reply starts with `ERROR ` exactly when something failed.
   */
  lemma DispatchReply(st: Registry.State, req: Request, unpickle: seq<byte> -> Result<Registry.Conf>)
    ensures req.task == "OPEN" ==> ToOp(req, unpickle) == Ok(Registry.OpenOp(req.addr))
    ensures req.task == "WRITE" ==> ToOp(req, unpickle) == Ok(Registry.WriteOp(req.addr, req.cmd))
    ensures req.task == "READ" ==> ToOp(req, unpickle) == Ok(Registry.ReadOp(req.addr))
    ensures req.task == "QUERY" ==> ToOp(req, unpickle) == Ok(Registry.QueryOp(req.addr, req.cmd))
    ensures req.task == "CLOSE" ==> ToOp(req, unpickle) == Ok(Registry.CloseOp(req.addr))
    ensures ToOp(req, unpickle).Err? <==> req.task !in Verbs || (req.task == "CONF" && (FromHex(req.cmd).Err? || unpickle(FromHex(req.cmd).value).Err?))
    ensures req.task !in Verbs ==> ToOp(req, unpickle) == Err(UnknownTask(req.task))
    ensures ToOp(req, unpickle).Err? ==> Dispatch(st, req, unpickle) == (st, ErrorReply(ToOp(req, unpickle).error))
    ensures ToOp(req, unpickle).Ok? ==>
      var s := Registry.Apply(st, ToOp(req, unpickle).value);
      var (st', reply) := Dispatch(st, req, unpickle);
      && st' == s.state
      && (s.result.Ok? && req.task in {"READ", "QUERY"} ==> reply == "READ " + s.result.value)
      && (s.result.Ok? && req.task in {"OPEN", "CONF", "WRITE", "CLOSE"} ==> reply == req.task + " OK")
      && (s.result.Err? ==> reply == ErrorReply(s.result.error))
      && (IsErrorReply(reply) <==> s.result.Err?)
  {
    match ToOp(req, unpickle)
    case Err(f) =>
    case Ok(op) =>
      var s := Registry.Apply(st, op);
      var reply := Dispatch(st, req, unpickle).1;
      if s.result.Err? {
        assert reply == ErrorReply(s.result.error);
        assert reply[..6] == "ERROR ";
      } else {
        assert req.task in Verbs;
        assert reply == SuccessReply(req.task, s.result.value);
        assert reply[0] != 'E';
      }
  }

  /**
   * A request on an address nobody has opened (other than OPEN, and other
   * than a CONF whose configuration is empty) is answered with the KeyError
   * for that address, and the registry and the devices are untouched.
   */
  lemma NotOpenReply(st: Registry.State, req: Request, unpickle: seq<byte> -> Result<Registry.Conf>)
    requires req.addr !in st.instruments
    requires ToOp(req, unpickle).Ok? && !ToOp(req, unpickle).value.OpenOp?
    requires ToOp(req, unpickle).value.ConfigureOp? ==> ToOp(req, unpickle).value.conf != []
    ensures Dispatch(st, req, unpickle) == (st, ErrorReply(KeyErrorFor(req.addr)))
  {
    Registry.NotOpenIsKeyError(st, ToOp(req, unpickle).value);
  }

  // ---------------------------------------------------------------------
  // The handler's loop
  // ---------------------------------------------------------------------

  /** How the loop of `run` ends: the peer hung up, or an exception escaped. */
  datatype Exit = Eof | Raised(error: Fault)

  /** The registry after a connection, the replies sent on it, and how it ended. */
  datatype Conversation = Conversation(state: Registry.State, replies: seq<string>, exit: Exit)

  /**
   * The loop of `run` over the messages a client sends before hanging up:
   * every message that parses gets exactly one reply; a message that does
   * not parse raises outside the per-request `try`, and ends the loop
   * without a reply.
   */
  function Session(st: Registry.State, inbox: seq<string>, unpickle: seq<byte> -> Result<Registry.Conf>): Conversation
    decreases |inbox|
  {
    if inbox == [] then Conversation(st, [], Eof)
    else
      match ParseMsg(inbox[0])
      case Err(f) => Conversation(st, [], Raised(f))
      case Ok(req) =>
        var d := Dispatch(st, req, unpickle);
        var c := Session(d.0, inbox[1..], unpickle);
        c.(replies := [d.1] + c.replies)
  }

  /** The conversation `c` after the replies `replies` were already sent. */
  function Prepend(replies: seq<string>, c: Conversation): Conversation
  {
    c.(replies := replies + c.replies)
  }

  lemma PrependTwice(replies: seq<string>, reply: string, c: Conversation)
    ensures Prepend(replies, Prepend([reply], c)) == Prepend(replies + [reply], c)
  {
    assert replies + ([reply] + c.replies) == (replies + [reply]) + c.replies;
  }

  /** One message that parses: its reply, then the rest of the conversation. */
  lemma SessionStep(st: Registry.State, inbox: seq<string>, unpickle: seq<byte> -> Result<Registry.Conf>)
    requires inbox != [] && ParseMsg(inbox[0]).Ok?
    ensures var d := Dispatch(st, ParseMsg(inbox[0]).value, unpickle);
      Session(st, inbox, unpickle) == Prepend([d.1], Session(d.0, inbox[1..], unpickle))
  {
  }

  /** The end of a conversation: the hang-up, or a message that does not parse. */
  lemma SessionHalts(st: Registry.State, inbox: seq<string>, unpickle: seq<byte> -> Result<Registry.Conf>)
    requires inbox != [] ==> ParseMsg(inbox[0]).Err?
    ensures Session(st, inbox, unpickle) ==
      Conversation(st, [], if inbox == [] then Eof else Raised(ParseMsg(inbox[0]).error))
  {
  }

  /** When every message parses, there is one reply per message and the loop ends on the hang-up. */
  lemma {:induction false} SessionAllParse(st: Registry.State, inbox: seq<string>, unpickle: seq<byte> -> Result<Registry.Conf>)
    requires forall i :: 0 <= i < |inbox| ==> ' ' in inbox[i]
    ensures |Session(st, inbox, unpickle).replies| == |inbox|
    ensures Session(st, inbox, unpickle).exit == Eof
    decreases |inbox|
  {
    if inbox != [] {
      ParseFailsIffNoSpace(inbox[0]);
      var req := ParseMsg(inbox[0]).value;
      var st1 := Dispatch(st, req, unpickle).0;
      SessionAllParse(st1, inbox[1..], unpickle);
      SessionStep(st, inbox, unpickle);
    }
  }

  /**
   * When message `k` is the first that does not parse, exactly `k` replies
   * were sent and the IndexError escapes the loop.
   */
  lemma {:induction false} SessionStopsAt(st: Registry.State, inbox: seq<string>, unpickle: seq<byte> -> Result<Registry.Conf>, k: nat)
    requires k < |inbox| && ' ' !in inbox[k]
    requires forall i :: 0 <= i < k ==> ' ' in inbox[i]
    ensures |Session(st, inbox, unpickle).replies| == k
    ensures Session(st, inbox, unpickle).exit == Raised(ParseFault)
    decreases k
  {
    ParseFailsIffNoSpace(inbox[0]);
    if k == 0 {
      assert ParseMsg(inbox[0]) == Err(ParseFault);
    } else {
      var req := ParseMsg(inbox[0]).value;
      var st1 := Dispatch(st, req, unpickle).0;
      var tail := inbox[1..];
      assert ' ' !in tail[k - 1];
      assert forall i :: 0 <= i < k - 1 ==> ' ' in tail[i] by {
        forall i | 0 <= i < k - 1 ensures ' ' in tail[i] { assert tail[i] == inbox[i + 1]; }
      }
      SessionStopsAt(st1, tail, unpickle, k - 1);
      SessionStep(st, inbox, unpickle);
    }
  }

  /**
   * A request with an unknown verb is answered with an ERROR reply and the
   * same connection goes on to serve the next request as if it had not come.
   */
  lemma UnknownVerbKeepsServing(st: Registry.State, bad: string, rest: seq<string>, unpickle: seq<byte> -> Result<Registry.Conf>)
    requires ParseMsg(bad).Ok? && ParseMsg(bad).value.task !in Verbs
    ensures var c := Session(st, [bad] + rest, unpickle);
      var d := Session(st, rest, unpickle);
      c == d.(replies := [ErrorReply(UnknownTask(ParseMsg(bad).value.task))] + d.replies)
  {
    DispatchReply(st, ParseMsg(bad).value, unpickle);
    assert ([bad] + rest)[1..] == rest;
  }

  // ---------------------------------------------------------------------
  // The port discovery file
  // ---------------------------------------------------------------------

  /** The text `start` writes to the port file: the port, then the host, one per line. */
  function PortFileText(port: nat, host: string): string
  {
    DecimalText(port) + "\n" + host + "\n"
  }
}
