/**
 * The instrument behind a lock-in driver, as the driver sees it through
 * pyvisa: every command written to it, in order, and the replies it will
 * give to the queries still to come.
 */
module Device {
  import opened Base
  import opened Text

  /** One exchange with the device. */
  datatype Io =
    | Written(cmd: string)
      /** A command ending in a number the driver formats as a float; the
          model keeps the number itself rather than its text. */
    | WrittenValue(cmd: string, value: real)
    | Queried(cmd: string)
    | Cleared

  /** The reply to the next query: the first scripted reply, or a VISA timeout when none is left. */
  function NextReply(replies: seq<string>): (r: Result<string>)
    ensures r.Ok? <==> replies != []
  {
    if replies == [] then Err(Timeout) else Ok(replies[0])
  }

  /** The replies left after a query. */
  function AfterReply(replies: seq<string>): seq<string>
  {
    if replies == [] then [] else replies[1..]
  }

  /** `int(dev.query(cmd))`: the reply read as a decimal integer. */
  function IntReply(replies: seq<string>): (r: Result<int>)
    ensures replies == [] ==> r == Err(Timeout)
    ensures replies != [] ==> r == ParseInt(replies[0])
  {
    match NextReply(replies)
    case Err(e) => Err(e)
    case Ok(text) => ParseInt(text)
  }

  /** A VISA resource: its command log and the replies still scripted. */
  class VisaDevice {
    var log: seq<Io>
    var replies: seq<string>

    constructor (replies: seq<string>)
      ensures log == [] && this.replies == replies
    {
      log := [];
      this.replies := replies;
    }

    /** `dev.write(cmd)`. */
    method Write(cmd: string)
      modifies this
      ensures log == old(log) + [Written(cmd)] && replies == old(replies)
    {
      log := log + [Written(cmd)];
    }

    /** `dev.write(cmd.format(value))` for a float argument. */
    method WriteValue(cmd: string, value: real)
      modifies this
      ensures log == old(log) + [WrittenValue(cmd, value)] && replies == old(replies)
    {
      log := log + [WrittenValue(cmd, value)];
    }

    /** `dev.query(cmd)`: the next scripted reply, or a timeout. */
    method Query(cmd: string) returns (r: Result<string>)
      modifies this
      ensures log == old(log) + [Queried(cmd)]
      ensures r == NextReply(old(replies)) && replies == AfterReply(old(replies))
    {
      log := log + [Queried(cmd)];
      r := NextReply(replies);
      replies := AfterReply(replies);
    }

    /** `int(dev.query(cmd))`. */
    method QueryInt(cmd: string) returns (r: Result<int>)
      modifies this
      ensures log == old(log) + [Queried(cmd)]
      ensures r == IntReply(old(replies)) && replies == AfterReply(old(replies))
    {
      var text := Query(cmd);
      r := if text.Ok? then ParseInt(text.value) else Err(text.error);
    }

    /** `dev.clear()`. */
    method Clear()
      modifies this
      ensures log == old(log) + [Cleared] && replies == old(replies)
    {
      log := log + [Cleared];
    }
  }
}
