/**
 * The broker's objects, InstrumentServer.py: `VISAInstruments` holding the
 * registry in its fields, `InstrumentClientHandler` serving one client
 * connection, and `InstrumentClientListener` keeping the book of running
 * handlers.  Each method is proved to do what the functions of `Registry`
 * and `Protocol` say.
 *
 * Threads run here one at a time: a handler's whole conversation is one
 * call of `ClientHandler.Run`, and any order in which the listener's
 * methods and the handlers' runs are called is one of the interleavings
 * the real threads can produce.
 */
module InstrumentServer {
  import opened Base
  import opened Text
  import Registry
  import Protocol

  // ---------------------------------------------------------------------
  // RefCountedInstrument
  // ---------------------------------------------------------------------

  /**
   * `RefCountedInstrument`: a device session and how many clients hold
   * it, counted in place.  `Value` is what the registry's dict holds for it.
   */
  class RefCountedInstrument {
    const dev: Registry.Session
    var refCounter: int

    function Value(): Registry.RefCounted
      reads this
    {
      Registry.RefCounted(dev, refCounter)
    }

    /** `RefCountedInstrument(dev)`: one client. */
    constructor (dev: Registry.Session)
      ensures Value() == Registry.NewRefCounted(dev)
    {
      this.dev := dev;
      refCounter := 1;
    }

    /** `inc()`. */
    method Inc()
      modifies this
      ensures Value() == Registry.Inc(old(Value()))
    {
      refCounter := refCounter + 1;
    }

    /**
     * `refclose()`: returns the new count; `closed` says whether the
     * device was closed, which is when the count has reached zero.
     */
    method RefClose() returns (count: int, closed: bool)
      modifies this
      ensures (Value(), closed) == Registry.RefClose(old(Value()))
      ensures count == refCounter
    {
      refCounter := refCounter - 1;
      closed := refCounter == 0;
      count := refCounter;
    }
  }

  // ---------------------------------------------------------------------
  // VISAInstruments
  // ---------------------------------------------------------------------

  class VisaInstruments {
    var instruments: map<Registry.Address, Registry.RefCounted>
    var rm: Registry.Backend

    /** The fields as one registry state, the argument of the functions of `Registry`. */
    function Snapshot(): Registry.State
      reads this
    {
      Registry.State(instruments, rm)
    }

    /** A registry with nothing open, over a resource manager that has made no call. */
    constructor (present: set<Registry.Address>, answers: seq<Result<string>>)
      ensures Snapshot() == Registry.State(map[], Registry.Backend(present, [], answers, 0))
      ensures Registry.Valid(Snapshot())
    {
      instruments := map[];
      rm := Registry.Backend(present, [], answers, 0);
    }

    /** `open_instrument(addr, conf)`. */
    method OpenInstrument(addr: Registry.Address, conf: Option<Registry.Conf>) returns (r: Result<()>)
      modifies this
      ensures Registry.Step(Snapshot(), r) == Registry.OpenInstrument(old(Snapshot()), addr, conf)
      ensures old(Registry.Valid(Snapshot())) ==> Registry.Valid(Snapshot())
    {
      if addr !in instruments {
        if addr !in rm.present {
          return Err(ResourceNotFound);
        }
        var dev := Registry.Session(rm.nextId);
        rm := rm.(calls := rm.calls + [Registry.OpenResource(addr, dev)], nextId := rm.nextId + 1);
        instruments := instruments[addr := Registry.NewRefCounted(dev)];
      } else {
        instruments := instruments[addr := Registry.Inc(instruments[addr])];
      }
      ghost var afterOpen := Snapshot();
      assert Registry.Open(old(Snapshot()), addr) == Registry.Step(afterOpen, Ok(()));
      r := Ok(());
      if conf.Some? {
        r := ConfigureInstrument(addr, conf.value);
      }
      if old(Registry.Valid(Snapshot())) {
        Registry.ApplyPreservesValid(old(Snapshot()), Registry.OpenOp(addr));
        if conf.Some? {
          Registry.ApplyPreservesValid(afterOpen, Registry.ConfigureOp(addr, conf.value));
        }
      }
    }

    /** `configure_instrument(addr, conf)`: one `setattr` on the device per item. */
    method ConfigureInstrument(addr: Registry.Address, conf: Registry.Conf) returns (r: Result<()>)
      modifies this
      ensures Registry.Step(Snapshot(), r) == Registry.Configure(old(Snapshot()), addr, conf)
    {
      var i := 0;
      while i < |conf|
        invariant 0 <= i <= |conf|
        invariant instruments == old(instruments)
        invariant i > 0 ==> addr in instruments
        invariant rm == old(rm).(calls := old(rm).calls + (if i == 0 then [] else Registry.SetAttrs(instruments[addr].dev, conf[..i])))
      {
        if addr !in instruments {
          return Err(KeyErrorFor(addr));
        }
        var dev := instruments[addr].dev;
        rm := rm.(calls := rm.calls + [Registry.SetAttr(dev, conf[i].attr, conf[i].value)]);
        Registry.SetAttrsSnoc(dev, conf[..i], conf[i]);
        assert conf[..i] + [conf[i]] == conf[..i + 1];
        i := i + 1;
      }
      assert conf[..|conf|] == conf;
      r := Ok(());
    }

    /** `close_instrument(addr)`. */
    method CloseInstrument(addr: Registry.Address) returns (r: Result<()>)
      modifies this
      ensures Registry.Step(Snapshot(), r) == Registry.CloseInstrument(old(Snapshot()), addr)
    {
      if addr !in instruments {
        return Err(KeyErrorFor(addr));
      }
      var (e, closed) := Registry.RefClose(instruments[addr]);
      instruments := instruments[addr := e];
      if e.refCounter == 0 {
        rm := rm.(calls := rm.calls + [Registry.DevClose(e.dev)]);
        instruments := instruments - {addr};
        assert instruments == old(instruments) - {addr};
      }
      r := Ok(());
    }

    /** `write(addr, msg)`. */
    method Write(addr: Registry.Address, msg: string) returns (r: Result<()>)
      modifies this
      ensures Registry.Step(Snapshot(), r) == Registry.Write(old(Snapshot()), addr, msg)
    {
      if addr !in instruments {
        return Err(KeyErrorFor(addr));
      }
      rm := rm.(calls := rm.calls + [Registry.DevWrite(instruments[addr].dev, msg)]);
      r := Ok(());
    }

    /** Hands the next device answer to a read or a query. */
    method NextAnswer(c: Registry.Call) returns (r: Result<string>)
      modifies this
      ensures Registry.Step(Snapshot(), r) == Registry.Answer(old(Snapshot()), c)
    {
      rm := rm.(calls := rm.calls + [c]);
      if rm.answers == [] {
        return Err(Timeout);
      }
      r := rm.answers[0];
      rm := rm.(answers := rm.answers[1..]);
    }

    /** `read(addr)`. */
    method Read(addr: Registry.Address) returns (r: Result<string>)
      modifies this
      ensures Registry.Step(Snapshot(), r) == Registry.Read(old(Snapshot()), addr)
    {
      if addr !in instruments {
        return Err(KeyErrorFor(addr));
      }
      r := NextAnswer(Registry.DevRead(instruments[addr].dev));
    }

    /** `query(addr, msg)`. */
    method Query(addr: Registry.Address, msg: string) returns (r: Result<string>)
      modifies this
      ensures Registry.Step(Snapshot(), r) == Registry.Query(old(Snapshot()), addr, msg)
    {
      if addr !in instruments {
        return Err(KeyErrorFor(addr));
      }
      r := NextAnswer(Registry.DevQuery(instruments[addr].dev, msg));
    }

    /**
     * `close()`: every device still open is closed once, in some order of
     * the addresses, and then the resource manager; the dict itself stays.
     */
    method Close() returns (ghost order: seq<Registry.Address>)
      modifies this
      ensures instruments == old(instruments)
      ensures forall a :: a in instruments <==> a in order
      ensures forall i, j :: 0 <= i < j < |order| ==> order[i] != order[j]
      ensures rm == old(rm).(calls := old(rm).calls + Registry.Closes(instruments, order) + [Registry.ManagerClose])
    {
      var todo := instruments.Keys;
      order := [];
      while todo != {}
        invariant todo <= instruments.Keys
        invariant forall a :: a in order ==> a in instruments && a !in todo
        invariant forall a :: a in instruments ==> a in todo || a in order
        invariant forall i, j :: 0 <= i < j < |order| ==> order[i] != order[j]
        invariant instruments == old(instruments)
        invariant rm == old(rm).(calls := old(rm).calls + Registry.Closes(instruments, order))
        decreases todo
      {
        var a :| a in todo;
        rm := rm.(calls := rm.calls + [Registry.DevClose(instruments[a].dev)]);
        Registry.ClosesSnoc(instruments, order, a);
        order := order + [a];
        todo := todo - {a};
      }
      rm := rm.(calls := rm.calls + [Registry.ManagerClose]);
    }
  }

  // ---------------------------------------------------------------------
  // The queue of finished handler names
  // ---------------------------------------------------------------------

  /** The `Queue` of finished handler names, first in first out. */
  class NameQueue {
    var items: seq<string>

    constructor ()
      ensures items == []
    {
      items := [];
    }

    method Put(name: string)
      modifies this
      ensures items == old(items) + [name]
    {
      items := items + [name];
    }

    method Get() returns (name: string)
      requires items != []
      modifies this
      ensures name == old(items)[0] && items == old(items)[1..]
    {
      name := items[0];
      items := items[1..];
    }

    method Empty() returns (b: bool)
      ensures b <==> items == []
    {
      b := items == [];
    }
  }

  // ---------------------------------------------------------------------
  // InstrumentClientHandler
  // ---------------------------------------------------------------------

  /**
   * `InstrumentClientHandler`: serves the requests of one connection
   * against the shared registry.  `unpickle` stands for `pickle.loads`,
   * which is not part of this model; `sent` is every reply sent on the
   * connection, `connOpen` whether it is still open.
   */
  class ClientHandler {
    const name: string
    const instruments: VisaInstruments
    const finished: NameQueue
    const unpickle: seq<byte> -> Result<Registry.Conf>
    var connOpen: bool
    var sent: seq<string>

    constructor (name: string, instruments: VisaInstruments, finished: NameQueue, unpickle: seq<byte> -> Result<Registry.Conf>)
      ensures this.name == name && this.instruments == instruments && this.finished == finished
      ensures this.unpickle == unpickle
      ensures connOpen && sent == []
    {
      this.name := name;
      this.instruments := instruments;
      this.finished := finished;
      this.unpickle := unpickle;
      connOpen := true;
      sent := [];
    }

    /** The inner `try` of `run`: one request, one reply, exceptions turned into ERROR replies. */
    method Serve(req: Protocol.Request) returns (reply: string)
      modifies instruments
      ensures (instruments.Snapshot(), reply) == Protocol.Dispatch(old(instruments.Snapshot()), req, unpickle)
    {
      var op := Protocol.ToOp(req, unpickle);
      if op.Err? {
        return Protocol.ErrorReply(op.error);
      }
      var res: Result<string>;
      match op.value {
      case OpenOp(a) =>
        var r := instruments.OpenInstrument(a, None);
        res := if r.Ok? then Ok("") else Err(r.error);
      case ConfigureOp(a, conf) =>
        var r := instruments.ConfigureInstrument(a, conf);
        res := if r.Ok? then Ok("") else Err(r.error);
      case WriteOp(a, msg) =>
        var r := instruments.Write(a, msg);
        res := if r.Ok? then Ok("") else Err(r.error);
      case ReadOp(a) =>
        res := instruments.Read(a);
      case QueryOp(a, msg) =>
        res := instruments.Query(a, msg);
      case CloseOp(a) =>
        var r := instruments.CloseInstrument(a);
        res := if r.Ok? then Ok("") else Err(r.error);
      }
      reply := if res.Ok? then Protocol.SuccessReply(req.task, res.value) else Protocol.ErrorReply(res.error);
    }

    /**
     * `run` over the messages the client sends before hanging up: the
     * registry and the replies are those of `Protocol.Session`, and on
     * every way out the connection is closed and the handler's name is
     * put on the finished queue exactly once.
     */
    method Run(inbox: seq<string>) returns (exit: Protocol.Exit)
      requires connOpen
      modifies this, instruments, finished
      ensures var c := Protocol.Session(old(instruments.Snapshot()), inbox, unpickle);
        instruments.Snapshot() == c.state && sent == old(sent) + c.replies && exit == c.exit
      ensures !connOpen
      ensures finished.items == old(finished.items) + [name]
    {
      ghost var c0 := Protocol.Session(instruments.Snapshot(), inbox, unpickle);
      ghost var replies: seq<string> := [];
      var i := 0;
      exit := Protocol.Eof;
      while i < |inbox|
        invariant 0 <= i <= |inbox|
        invariant sent == old(sent) + replies
        invariant c0 == Protocol.Prepend(replies, Protocol.Session(instruments.Snapshot(), inbox[i..], unpickle))
        invariant finished.items == old(finished.items)
        invariant exit == Protocol.Eof
      {
        var parsed := Protocol.ParseMsg(inbox[i]);
        if parsed.Err? {
          Protocol.SessionHalts(instruments.Snapshot(), inbox[i..], unpickle);
          exit := Protocol.Raised(parsed.error);
          break;
        }
        ghost var before := instruments.Snapshot();
        Protocol.SessionStep(before, inbox[i..], unpickle);
        var reply := Serve(parsed.value);
        sent := sent + [reply];
        Protocol.PrependTwice(replies, reply, Protocol.Session(instruments.Snapshot(), inbox[i + 1..], unpickle));
        replies := replies + [reply];
        assert inbox[i..][1..] == inbox[i + 1..];
        i := i + 1;
      }
      connOpen := false;
      finished.Put(name);
    }
  }

  // ---------------------------------------------------------------------
  // InstrumentClientListener
  // ---------------------------------------------------------------------

  /** The name `accept` gives the handler of its `id`-th connection. */
  function HandlerName(id: nat): string
  {
    "handler " + DecimalText(id)
  }

  /** Different connections get handlers of different names. */
  lemma HandlerNameInjective(j: nat, k: nat)
    ensures HandlerName(j) == HandlerName(k) <==> j == k
  {
    if HandlerName(j) == HandlerName(k) {
      assert DecimalText(j) == HandlerName(j)[8..];
      DecimalInjective(j, k);
    }
  }

  /**
   * What draining the finished queue leaves behind: the running handlers,
   * the names joined in order, what is left of the queue, and whether a
   * `pop` raised.
   */
  datatype Reaped<H> = Reaped(handlers: map<string, H>, joined: seq<string>, queue: seq<string>, outcome: Outcome)

  /**
   * `join_finished_handlers`: take names off the queue until it is empty,
   * removing and joining each one's handler; a name with no handler makes
   * `pop` raise KeyError, which leaves the rest of the queue in place.
   */
  function Reap<H>(handlers: map<string, H>, queue: seq<string>): Reaped<H>
    decreases |queue|
  {
    if queue == [] then Reaped(handlers, [], [], Pass)
    else if queue[0] !in handlers then Reaped(handlers, [], queue[1..], Fail(KeyErrorFor(queue[0])))
    else
      var rest := Reap(handlers - {queue[0]}, queue[1..]);
      rest.(joined := [queue[0]] + rest.joined)
  }

  /**
   * When the queue holds distinct names of running handlers, which is what
   * the listener keeps, draining it joins exactly those handlers, in queue
   * order, removes exactly them, and never raises.
   */
  lemma {:induction false} ReapFinished<H>(handlers: map<string, H>, queue: seq<string>)
    requires forall i :: 0 <= i < |queue| ==> queue[i] in handlers
    requires forall i, j :: 0 <= i < j < |queue| ==> queue[i] != queue[j]
    ensures var z := Reap(handlers, queue);
      && z.outcome == Pass && z.queue == [] && z.joined == queue
      && z.handlers == handlers - (set n | n in queue)
    decreases |queue|
  {
    if queue != [] {
      var hs, rest := handlers - {queue[0]}, queue[1..];
      TailStillQueued(handlers, queue);
      ReapFinished(hs, rest);
      SetOfCons(queue);
      assert hs - (set n | n in rest) == handlers - (set n | n in queue);
    }
  }

  /** The rest of a queue of distinct registered names is one for the handlers without its head. */
  lemma TailStillQueued<H>(handlers: map<string, H>, queue: seq<string>)
    requires queue != []
    requires forall i :: 0 <= i < |queue| ==> queue[i] in handlers
    requires forall i, j :: 0 <= i < j < |queue| ==> queue[i] != queue[j]
    ensures forall i :: 0 <= i < |queue[1..]| ==> queue[1..][i] in handlers - {queue[0]}
    ensures forall i, j :: 0 <= i < j < |queue[1..]| ==> queue[1..][i] != queue[1..][j]
  {
    var rest := queue[1..];
    forall i | 0 <= i < |rest|
      ensures rest[i] in handlers - {queue[0]}
    {
      assert rest[i] == queue[i + 1];
    }
    forall i, j | 0 <= i < j < |rest|
      ensures rest[i] != rest[j]
    {
      assert rest[i] == queue[i + 1] && rest[j] == queue[j + 1];
    }
  }

  lemma SetOfCons(queue: seq<string>)
    requires queue != []
    ensures (set n | n in queue) == {queue[0]} + (set n | n in queue[1..])
  {
    forall n | n in queue
      ensures n == queue[0] || n in queue[1..]
    {
      var i :| 0 <= i < |queue| && queue[i] == n;
      if i > 0 { assert queue[1..][i - 1] == n; }
    }
  }

  /** Draining `queue` from `handlers`, after `done` was joined, ends as `z0` says. */
  ghost predicate Resumes<H>(z0: Reaped<H>, done: seq<string>, handlers: map<string, H>, queue: seq<string>)
  {
    var z := Reap(handlers, queue);
    z0 == z.(joined := done + z.joined)
  }

  lemma ResumeStep<H>(z0: Reaped<H>, done: seq<string>, handlers: map<string, H>, queue: seq<string>)
    requires Resumes(z0, done, handlers, queue) && queue != [] && queue[0] in handlers
    ensures Resumes(z0, done + [queue[0]], handlers - {queue[0]}, queue[1..])
  {
    var z := Reap(handlers - {queue[0]}, queue[1..]);
    assert done + ([queue[0]] + z.joined) == (done + [queue[0]]) + z.joined;
  }

  lemma ResumeFail<H>(z0: Reaped<H>, done: seq<string>, handlers: map<string, H>, queue: seq<string>)
    requires Resumes(z0, done, handlers, queue) && queue != [] && queue[0] !in handlers
    ensures z0 == Reaped(handlers, done, queue[1..], Fail(KeyErrorFor(queue[0])))
  {
    assert done + [] == done;
  }

  lemma ResumeEnd<H>(z0: Reaped<H>, done: seq<string>, handlers: map<string, H>)
    requires Resumes(z0, done, handlers, [])
    ensures z0 == Reaped(handlers, done, [], Pass)
  {
    assert done + [] == done;
  }

  /**
   * `InstrumentClientListener`: the handlers still registered by name, the
   * id the next connection gets, the finished queue the handlers fill, and
   * the names joined so far.
   */
  class InstrumentClientListener {
    const instruments: VisaInstruments
    const finished: NameQueue
    const unpickle: seq<byte> -> Result<Registry.Conf>
    var port: nat
    var handlers: map<string, ClientHandler>
    var handlerId: nat
    var endEvent: bool
    var joined: seq<string>

    /**
     * Every registered handler is filed under its own name, which came from
     * an id already handed out, and shares the listener's registry and
     * queue; the queue holds, once each, exactly the registered handlers
     * whose connection is closed.
     */
    ghost predicate Valid()
      reads this, finished, handlers.Values
    {
      && (forall n :: n in handlers ==>
            handlers[n].name == n && handlers[n].finished == finished &&
            handlers[n].instruments == instruments && handlers[n].unpickle == unpickle)
      && (forall n :: n in handlers ==> exists k :: 0 <= k < handlerId && n == HandlerName(k))
      && (forall i :: 0 <= i < |finished.items| ==> finished.items[i] in handlers)
      && (forall i, j :: 0 <= i < j < |finished.items| ==> finished.items[i] != finished.items[j])
      && (forall n :: n in handlers ==> (!handlers[n].connOpen <==> n in finished.items))
    }

    /** `InstrumentClientListener(instruments, port)`. */
    constructor (instruments: VisaInstruments, port: nat, unpickle: seq<byte> -> Result<Registry.Conf>)
      ensures this.instruments == instruments && this.unpickle == unpickle && this.port == port
      ensures handlers == map[] && handlerId == 0 && !endEvent && joined == []
      ensures fresh(finished) && finished.items == []
      ensures Valid()
    {
      this.instruments := instruments;
      this.unpickle := unpickle;
      this.port := port;
      finished := new NameQueue();
      handlers := map[];
      handlerId := 0;
      endEvent := false;
      joined := [];
    }

    /**
     * `start`: port 0 asks the system for a free port, which `osPort`
     * stands for; the text written to the port file is returned.
     */
    method Start(osPort: nat, boundHost: string) returns (portFileText: string)
      modifies this
      ensures port == (if old(port) == 0 then osPort else old(port))
      ensures portFileText == Protocol.PortFileText(port, boundHost)
      ensures handlers == old(handlers) && handlerId == old(handlerId) && joined == old(joined)
      ensures endEvent == old(endEvent)
    {
      if port == 0 {
        port := osPort;
      }
      portFileText := Protocol.PortFileText(port, boundHost);
    }

    /**
     * `accept`: the new connection's handler is named after the next id,
     * registered under that name, which no running handler has, and started.
     */
    method Accept() returns (h: ClientHandler)
      requires Valid()
      modifies this
      ensures Valid()
      ensures fresh(h) && h.name == HandlerName(old(handlerId)) && h.connOpen && h.sent == []
      ensures h.name !in old(handlers)
      ensures handlers == old(handlers)[h.name := h] && handlerId == old(handlerId) + 1
      ensures joined == old(joined) && endEvent == old(endEvent) && port == old(port)
    {
      var name := HandlerName(handlerId);
      if name in handlers {
        var k :| 0 <= k < handlerId && name == HandlerName(k);
        HandlerNameInjective(k, handlerId);
        assert false;
      }
      h := new ClientHandler(name, instruments, finished, unpickle);
      handlers := handlers[name := h];
      handlerId := handlerId + 1;
      forall n | n in handlers
        ensures exists k :: 0 <= k < handlerId && n == HandlerName(k)
      {
        if n != name {
          var k :| 0 <= k < handlerId - 1 && n == HandlerName(k);
        } else {
          assert n == HandlerName(handlerId - 1);
        }
      }
    }

    /**
     * One handler thread runs its connection to the end: the registry and
     * the replies are those of `Protocol.Session`, and afterwards the
     * handler is closed and its name queued, still registered.
     */
    method RunHandler(name: string, inbox: seq<string>) returns (exit: Protocol.Exit)
      requires Valid() && name in handlers && handlers[name].connOpen
      modifies handlers[name], instruments, finished
      ensures Valid()
      ensures var c := Protocol.Session(old(instruments.Snapshot()), inbox, unpickle);
        instruments.Snapshot() == c.state && handlers[name].sent == old(handlers[name].sent) + c.replies && exit == c.exit
      ensures finished.items == old(finished.items) + [name]
    {
      var h := handlers[name];
      exit := h.Run(inbox);
      forall n | n in handlers
        ensures !handlers[n].connOpen <==> n in finished.items
      {
        if n != name {
          assert handlers[n] != h;
        }
      }
    }

    /** `join_finished_handlers`: drain the finished queue, joining and removing each handler. */
    method JoinFinishedHandlers() returns (r: Outcome)
      modifies this, finished
      ensures var z := Reap(old(handlers), old(finished.items));
        handlers == z.handlers && joined == old(joined) + z.joined && finished.items == z.queue && r == z.outcome
      ensures handlerId == old(handlerId) && endEvent == old(endEvent) && port == old(port)
    {
      ghost var z0 := Reap(handlers, finished.items);
      ghost var done: seq<string> := [];
      r := Pass;
      var empty := finished.Empty();
      while !empty
        invariant empty <==> finished.items == []
        invariant handlerId == old(handlerId) && endEvent == old(endEvent) && port == old(port)
        invariant joined == old(joined) + done
        invariant Resumes(z0, done, handlers, finished.items)
        invariant r == Pass
        decreases |finished.items|
      {
        ghost var queue := finished.items;
        var name := finished.Get();
        if name !in handlers {
          ResumeFail(z0, done, handlers, queue);
          r := Fail(KeyErrorFor(name));
          return;
        }
        ResumeStep(z0, done, handlers, queue);
        handlers := handlers - {name};
        joined := joined + [name];
        done := done + [name];
        empty := finished.Empty();
      }
      ResumeEnd(z0, done, handlers);
    }

    /**
     * `join_finished_handlers` on a valid listener: every finished handler
     * is joined once, in the order it finished, and removed; the queue is
     * left empty and nothing raises; the handlers still running remain.
     */
    method JoinFinished() returns (r: Outcome)
      requires Valid()
      modifies this, finished
      ensures Valid()
      ensures r == Pass && finished.items == []
      ensures joined == old(joined) + old(finished.items)
      ensures handlers == old(handlers) - (set n | n in old(finished.items))
      ensures forall n :: n in handlers ==> handlers[n].connOpen
    {
      ReapFinished(handlers, finished.items);
      r := JoinFinishedHandlers();
    }

    /**
     * `close_server`: the end event is set and every handler still
     * registered is joined once; the dict is left as it was.
     */
    method CloseServer() returns (ghost order: seq<string>)
      modifies this
      ensures endEvent
      ensures handlers == old(handlers) && handlerId == old(handlerId) && port == old(port)
      ensures forall n :: n in handlers <==> n in order
      ensures forall i, j :: 0 <= i < j < |order| ==> order[i] != order[j]
      ensures joined == old(joined) + order
    {
      endEvent := true;
      var todo := handlers.Keys;
      order := [];
      while todo != {}
        invariant todo <= handlers.Keys
        invariant forall n :: n in order ==> n in handlers && n !in todo
        invariant forall n :: n in handlers ==> n in todo || n in order
        invariant forall i, j :: 0 <= i < j < |order| ==> order[i] != order[j]
        invariant handlers == old(handlers) && handlerId == old(handlerId) && port == old(port)
        invariant endEvent
        invariant joined == old(joined) + order
        decreases todo
      {
        var n :| n in todo;
        joined := joined + [n];
        order := order + [n];
        todo := todo - {n};
      }
    }
  }
}
