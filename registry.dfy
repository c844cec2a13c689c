/**
 * The broker's shared resource registry: `RefCountedInstrument` and
 * `VISAInstruments` of InstrumentServer.py.
 *
 * Every operation is first given as a function from the registry's state
 * to the next state and a result; the class `VisaInstruments` then keeps
 * that state in fields and its methods are proved to do what the
 * functions say.  The global VISA lock is not modelled: calls are taken
 * one at a time, in the order the lock lets them through.
 */
module Registry {
  import opened Base

  /** A VISA resource address, such as "GPIB0::1::INSTR". */
  type Address = string

  /** A device session returned by `open_resource`; `id` tells sessions apart. */
  datatype Session = Session(id: nat)

  /** `RefCountedInstrument`: a device session and how many clients hold it open. */
  datatype RefCounted = RefCounted(dev: Session, refCounter: int)

  /** One item of a configuration dictionary: an attribute of the resource and its value. */
  datatype Setting = Setting(attr: string, value: string)

  type Conf = seq<Setting>

  /** A call the registry makes into pyvisa, in the order it is made. */
  datatype Call =
    | OpenResource(addr: Address, dev: Session)
    | SetAttr(dev: Session, attr: string, value: string)
    | DevWrite(dev: Session, msg: string)
    | DevRead(dev: Session)
    | DevQuery(dev: Session, msg: string)
    | DevClose(dev: Session)
    | ManagerClose

  /**
   * The pyvisa side, seen from the registry: the addresses at which a
   * resource can be opened, every call made so far, the answers the
   * devices will give to the next reads and queries (a device error is an
   * `Err`), and the id the next opened session gets.
   */
  datatype Backend = Backend(present: set<Address>, calls: seq<Call>, answers: seq<Result<string>>, nextId: nat)

  /** The registry: the `instruments` dict and the resource manager behind it. */
  datatype State = State(instruments: map<Address, RefCounted>, rm: Backend)

  /** What one registry operation leaves behind: the next state and what it returns or raises. */
  datatype Step<T> = Step(state: State, result: Result<T>)

  // ---------------------------------------------------------------------
  // RefCountedInstrument
  // ---------------------------------------------------------------------

  /** `RefCountedInstrument(dev)`: the first client. */
  function NewRefCounted(dev: Session): RefCounted
  {
    RefCounted(dev, 1)
  }

  /** `inc`: one more client. */
  function Inc(e: RefCounted): RefCounted
  {
    e.(refCounter := e.refCounter + 1)
  }

  /**
   * `refclose`: one client fewer; the second component says whether the
   * device is closed now, which is when the count has reached zero.
   */
  function RefClose(e: RefCounted): (RefCounted, bool)
  {
    var c := e.refCounter - 1;
    (e.(refCounter := c), c == 0)
  }

  /** An `inc` undone by a `refclose` closes nothing and restores the wrapper. */
  lemma IncThenRefClose(e: RefCounted)
    requires e.refCounter >= 1
    ensures RefClose(Inc(e)) == (e, false)
  {
  }

  // ---------------------------------------------------------------------
  // The invariant
  // ---------------------------------------------------------------------

  /** How many clients hold `addr` open; zero when it is not in the dict. */
  function Count(st: State, addr: Address): int
  {
    if addr in st.instruments then st.instruments[addr].refCounter else 0
  }

  /**
   * Every entry has a positive count, a session already handed out by the
   * resource manager, and a session of its own.
   */
  ghost predicate Valid(st: State)
  {
    && (forall a :: a in st.instruments ==>
          st.instruments[a].refCounter >= 1 && st.instruments[a].dev.id < st.rm.nextId)
    && (forall a, b :: a in st.instruments && b in st.instruments && a != b ==>
          st.instruments[a].dev != st.instruments[b].dev)
  }

  /** In a valid registry an address is present exactly when its count is positive. */
  lemma PresentIffCounted(st: State, addr: Address)
    requires Valid(st)
    ensures addr in st.instruments <==> Count(st, addr) > 0
  {
  }

  // ---------------------------------------------------------------------
  // The operations of VISAInstruments, as functions of the state
  // ---------------------------------------------------------------------

  function Log(st: State, c: Call): State
  {
    st.(rm := st.rm.(calls := st.rm.calls + [c]))
  }

  /** The calls `configure_instrument` makes: one `setattr` per item, in order. */
  function SetAttrs(dev: Session, conf: Conf): seq<Call>
  {
    if conf == [] then [] else [SetAttr(dev, conf[0].attr, conf[0].value)] + SetAttrs(dev, conf[1..])
  }

  /**
   * `open_instrument(addr)` without configuration: a new address opens a
   * resource (which fails when no device answers at `addr`) and starts at
   * one client; a known address gains one client.
   */
  function Open(st: State, addr: Address): Step<()>
  {
    if addr !in st.instruments then
      if addr in st.rm.present then
        var dev := Session(st.rm.nextId);
        var rm := st.rm.(calls := st.rm.calls + [OpenResource(addr, dev)], nextId := st.rm.nextId + 1);
        Step(State(st.instruments[addr := NewRefCounted(dev)], rm), Ok(()))
      else
        Step(st, Err(ResourceNotFound))
    else
      Step(st.(instruments := st.instruments[addr := Inc(st.instruments[addr])]), Ok(()))
  }

  /**
   * `configure_instrument(addr, conf)`: the loop looks `addr` up once per
   * item, so an unknown address raises KeyError only when `conf` is not empty.
   */
  function Configure(st: State, addr: Address, conf: Conf): Step<()>
  {
    if conf == [] then Step(st, Ok(()))
    else if addr !in st.instruments then Step(st, Err(KeyErrorFor(addr)))
    else
      var dev := st.instruments[addr].dev;
      Step(st.(rm := st.rm.(calls := st.rm.calls + SetAttrs(dev, conf))), Ok(()))
  }

  /** `open_instrument(addr, conf)`: open, then configure when a configuration is given. */
  function OpenInstrument(st: State, addr: Address, conf: Option<Conf>): Step<()>
  {
    var s := Open(st, addr);
    if s.result.Err? || conf.None? then s else Configure(s.state, addr, conf.value)
  }

  /**
   * `close_instrument(addr)`: one client fewer; at zero the device is
   * closed and the entry popped.  An unknown address raises KeyError.
   */
  function CloseInstrument(st: State, addr: Address): Step<()>
  {
    if addr !in st.instruments then Step(st, Err(KeyErrorFor(addr)))
    else
      var (e, closed) := RefClose(st.instruments[addr]);
      if closed then
        Step(Log(st.(instruments := st.instruments - {addr}), DevClose(e.dev)), Ok(()))
      else
        Step(st.(instruments := st.instruments[addr := e]), Ok(()))
  }

  /** `write(addr, msg)`: forwarded to the device of `addr`. */
  function Write(st: State, addr: Address, msg: string): Step<()>
  {
    if addr !in st.instruments then Step(st, Err(KeyErrorFor(addr)))
    else Step(Log(st, DevWrite(st.instruments[addr].dev, msg)), Ok(()))
  }

  /** The next answer of the devices; a device that has none left times out. */
  function Answer(st: State, c: Call): Step<string>
  {
    var s := Log(st, c);
    if s.rm.answers == [] then Step(s, Err(Timeout))
    else Step(s.(rm := s.rm.(answers := s.rm.answers[1..])), s.rm.answers[0])
  }

  /** `read(addr)`: the device's answer. */
  function Read(st: State, addr: Address): Step<string>
  {
    if addr !in st.instruments then Step(st, Err(KeyErrorFor(addr)))
    else Answer(st, DevRead(st.instruments[addr].dev))
  }

  /** `query(addr, msg)`: write and read as one exchange with the device. */
  function Query(st: State, addr: Address, msg: string): Step<string>
  {
    if addr !in st.instruments then Step(st, Err(KeyErrorFor(addr)))
    else Answer(st, DevQuery(st.instruments[addr].dev, msg))
  }

  // ---------------------------------------------------------------------
  // Properties
  // ---------------------------------------------------------------------

  /**
   * Opening a new address creates an entry with count one on a session
   * nobody else holds; opening a present address only adds one to its
   * count; no other entry changes.
   */
  lemma OpenEffect(st: State, addr: Address)
    requires Valid(st)
    ensures var s := Open(st, addr);
      && (s.result.Ok? <==> addr in st.instruments || addr in st.rm.present)
      && (s.result.Ok? ==> Count(s.state, addr) == Count(st, addr) + 1)
      && (s.result.Ok? && addr !in st.instruments ==>
            s.state.instruments[addr].refCounter == 1 &&
            forall b :: b in st.instruments ==> st.instruments[b].dev != s.state.instruments[addr].dev)
      && (addr in st.instruments ==> s.state.instruments[addr].dev == st.instruments[addr].dev && s.state.rm == st.rm)
      && (s.result.Err? ==> s.state == st)
      && (forall b :: b != addr ==> (b in s.state.instruments <==> b in st.instruments))
      && (forall b :: b != addr && b in st.instruments ==> s.state.instruments[b] == st.instruments[b])
  {
  }

  /**
   * `close_instrument` takes one client away.  The device is closed, and
   * the entry removed, exactly when the count goes from one to zero; an
   * address not in the dict raises KeyError and changes nothing.
   */
  lemma CloseEffect(st: State, addr: Address)
    requires Valid(st)
    ensures var s := CloseInstrument(st, addr);
      && (addr !in st.instruments ==> s == Step(st, Err(KeyErrorFor(addr))))
      && (addr in st.instruments ==> s.result.Ok? && Count(s.state, addr) == Count(st, addr) - 1)
      && (addr in st.instruments && Count(st, addr) == 1 ==>
            addr !in s.state.instruments &&
            s.state.rm.calls == st.rm.calls + [DevClose(st.instruments[addr].dev)])
      && (addr in st.instruments && Count(st, addr) > 1 ==>
            addr in s.state.instruments && s.state.rm == st.rm &&
            s.state.instruments[addr].dev == st.instruments[addr].dev)
      && (forall b :: b != addr ==> (b in s.state.instruments <==> b in st.instruments))
      && (forall b :: b != addr && b in st.instruments ==> s.state.instruments[b] == st.instruments[b])
  {
  }

  /**
   * The requests of one client, as `InstrumentClientHandler.run` hands
   * them to the registry (CONF after its payload has been decoded).
   */
  datatype Op =
    | OpenOp(addr: Address)
    | ConfigureOp(addr: Address, conf: Conf)
    | WriteOp(addr: Address, msg: string)
    | ReadOp(addr: Address)
    | QueryOp(addr: Address, msg: string)
    | CloseOp(addr: Address)

  /** The registry call a request makes; READ and QUERY return the device's text. */
  function Apply(st: State, op: Op): Step<string>
  {
    match op
    case OpenOp(a) => var s := Open(st, a); Step(s.state, if s.result.Ok? then Ok("") else Err(s.result.error))
    case ConfigureOp(a, c) => var s := Configure(st, a, c); Step(s.state, if s.result.Ok? then Ok("") else Err(s.result.error))
    case WriteOp(a, m) => var s := Write(st, a, m); Step(s.state, if s.result.Ok? then Ok("") else Err(s.result.error))
    case ReadOp(a) => Read(st, a)
    case QueryOp(a, m) => Query(st, a, m)
    case CloseOp(a) => var s := CloseInstrument(st, a); Step(s.state, if s.result.Ok? then Ok("") else Err(s.result.error))
  }

  /** `open_instrument` keeps the invariant: a new entry gets a session nobody else holds. */
  lemma OpenKeepsValid(st: State, a: Address)
    requires Valid(st)
    ensures Valid(Open(st, a).state)
    ensures st.rm.calls <= Open(st, a).state.rm.calls && Open(st, a).state.rm.present == st.rm.present
  {
    var s := Open(st, a).state;
    if a !in st.instruments && a in st.rm.present {
      forall x, y | x in s.instruments && y in s.instruments && x != y
        ensures s.instruments[x].dev != s.instruments[y].dev
      {
        if x == a { assert s.instruments[y] == st.instruments[y]; }
        else if y == a { assert s.instruments[x] == st.instruments[x]; }
      }
    }
  }

  /** `close_instrument` keeps the invariant: a count that stays positive keeps its session. */
  lemma CloseKeepsValid(st: State, a: Address)
    requires Valid(st)
    ensures Valid(CloseInstrument(st, a).state)
    ensures st.rm.calls <= CloseInstrument(st, a).state.rm.calls && CloseInstrument(st, a).state.rm.present == st.rm.present
  {
    if a in st.instruments {
      var s := CloseInstrument(st, a).state;
      assert forall x :: x in s.instruments ==> x in st.instruments && s.instruments[x].dev == st.instruments[x].dev;
    }
  }

  /** Every registry operation keeps the invariant, and no call is ever taken back. */
  lemma ApplyPreservesValid(st: State, op: Op)
    requires Valid(st)
    ensures Valid(Apply(st, op).state)
    ensures st.rm.calls <= Apply(st, op).state.rm.calls
    ensures Apply(st, op).state.rm.present == st.rm.present
  {
    match op
    case OpenOp(a) => OpenKeepsValid(st, a);
    case CloseOp(a) => CloseKeepsValid(st, a);
    case _ =>
      var s := Apply(st, op).state;
      assert s.instruments == st.instruments && s.rm.nextId == st.rm.nextId;
  }

  /**
   * An operation other than OPEN on an address that is not open raises
   * KeyError and leaves the dict and the devices untouched (a
   * configuration with no items is the exception: it succeeds, doing nothing).
   */
  lemma NotOpenIsKeyError(st: State, op: Op)
    requires !op.OpenOp? && op.addr !in st.instruments
    requires op.ConfigureOp? ==> op.conf != []
    ensures Apply(st, op) == Step(st, Err(KeyErrorFor(op.addr)))
  {
  }

  /** A run of requests, one after the other; the results in request order. */
  function Run(st: State, ops: seq<Op>): (State, seq<Result<string>>)
    decreases |ops|
  {
    if ops == [] then (st, [])
    else
      var s := Apply(st, ops[0]);
      var rest := Run(s.state, ops[1..]);
      (rest.0, [s.result] + rest.1)
  }

  lemma RunCons(st: State, op: Op, ops: seq<Op>)
    ensures Run(st, [op] + ops) == (Run(Apply(st, op).state, ops).0, [Apply(st, op).result] + Run(Apply(st, op).state, ops).1)
  {
    assert ([op] + ops)[1..] == ops;
  }

  /** What one request did to the count of `addr`: +1 for a successful OPEN of it, -1 for a successful CLOSE. */
  function Delta(op: Op, result: Result<string>, addr: Address): int
  {
    if result.Err? || op.addr != addr then 0
    else if op.OpenOp? then 1
    else if op.CloseOp? then -1
    else 0
  }

  /** The successful opens of `addr` in a run, minus its successful closes. */
  function NetOpens(ops: seq<Op>, results: seq<Result<string>>, addr: Address): int
    requires |results| == |ops|
  {
    if ops == [] then 0 else Delta(ops[0], results[0], addr) + NetOpens(ops[1..], results[1..], addr)
  }

  /** One request changes the count of `addr` by exactly its `Delta`. */
  lemma CountStep(st: State, op: Op, addr: Address)
    requires Valid(st)
    ensures Count(Apply(st, op).state, addr) == Count(st, addr) + Delta(op, Apply(st, op).result, addr)
  {
    match op
    case OpenOp(a) => OpenEffect(st, a);
    case CloseOp(a) => CloseEffect(st, a);
    case _ => assert Apply(st, op).state.instruments == st.instruments;
  }

  /**
   * The count of an address after any run of requests is its count before,
   * plus the OPENs of it that succeeded, minus the CLOSEs of it that succeeded.
   */
  lemma {:induction false} CountIsNetOpens(st: State, ops: seq<Op>, addr: Address)
    requires Valid(st)
    ensures |Run(st, ops).1| == |ops|
    ensures Count(Run(st, ops).0, addr) == Count(st, addr) + NetOpens(ops, Run(st, ops).1, addr)
    ensures Valid(Run(st, ops).0)
    decreases |ops|
  {
    if ops != [] {
      var s := Apply(st, ops[0]);
      ApplyPreservesValid(st, ops[0]);
      CountStep(st, ops[0], addr);
      CountIsNetOpens(s.state, ops[1..], addr);
      var rest := Run(s.state, ops[1..]);
      assert Run(st, ops) == (rest.0, [s.result] + rest.1);
      assert ([s.result] + rest.1)[1..] == rest.1;
    }
  }

  /**
   * Two clients share one device: two OPENs give count two, a QUERY is
   * answered by the device, the first CLOSE keeps the session, the second
   * closes it, and a third CLOSE is a KeyError rather than a crash.
   */
  lemma SharedDeviceScenario(rm: Backend)
    requires rm.nextId == 0 && rm.calls == []
    requires "GPIB0::1::INSTR" in rm.present
    requires rm.answers == [Ok("Stanford_Research_Systems,SR830")]
    ensures var a := "GPIB0::1::INSTR";
      var st0 := State(map[], rm);
      var ops := [OpenOp(a), OpenOp(a), QueryOp(a, "*IDN?"), CloseOp(a), CloseOp(a), CloseOp(a)];
      var (last, results) := Run(st0, ops);
      && results == [Ok(""), Ok(""), Ok("Stanford_Research_Systems,SR830"), Ok(""), Ok(""), Err(KeyErrorFor(a))]
      && a !in last.instruments
      && last.rm.calls == [OpenResource(a, Session(0)), DevQuery(Session(0), "*IDN?"), DevClose(Session(0))]
  {
    var a := "GPIB0::1::INSTR";
    var st0 := State(map[], rm);
    var s1 := Apply(st0, OpenOp(a));
    assert s1.state.instruments == map[a := RefCounted(Session(0), 1)];
    var s2 := Apply(s1.state, OpenOp(a));
    assert s2.state.instruments == map[a := RefCounted(Session(0), 2)];
    var s3 := Apply(s2.state, QueryOp(a, "*IDN?"));
    var s4 := Apply(s3.state, CloseOp(a));
    assert s4.state.instruments == map[a := RefCounted(Session(0), 1)];
    assert s4.state.rm.calls == [OpenResource(a, Session(0)), DevQuery(Session(0), "*IDN?")];
    var s5 := Apply(s4.state, CloseOp(a));
    assert s5.state.instruments == map[];
    var s6 := Apply(s5.state, CloseOp(a));
    assert s6.result == Err(KeyErrorFor(a));
    var ops := [OpenOp(a), OpenOp(a), QueryOp(a, "*IDN?"), CloseOp(a), CloseOp(a), CloseOp(a)];
    RunCons(s5.state, CloseOp(a), []);
    RunCons(s4.state, CloseOp(a), ops[5..]);
    RunCons(s3.state, CloseOp(a), ops[4..]);
    RunCons(s2.state, QueryOp(a, "*IDN?"), ops[3..]);
    RunCons(s1.state, OpenOp(a), ops[2..]);
    RunCons(st0, OpenOp(a), ops[1..]);
  }

  /** The `close` calls for the devices of `order`, in that order. */
  function Closes(instruments: map<Address, RefCounted>, order: seq<Address>): seq<Call>
    requires forall i :: 0 <= i < |order| ==> order[i] in instruments
  {
    if order == [] then [] else [DevClose(instruments[order[0]].dev)] + Closes(instruments, order[1..])
  }

  lemma {:induction false} ClosesSnoc(instruments: map<Address, RefCounted>, order: seq<Address>, a: Address)
    requires forall i :: 0 <= i < |order| ==> order[i] in instruments
    requires a in instruments
    ensures Closes(instruments, order + [a]) == Closes(instruments, order) + [DevClose(instruments[a].dev)]
  {
    if order != [] {
      assert (order + [a])[1..] == order[1..] + [a];
      ClosesSnoc(instruments, order[1..], a);
    }
  }

  lemma {:induction false} SetAttrsSnoc(dev: Session, conf: Conf, s: Setting)
    ensures SetAttrs(dev, conf + [s]) == SetAttrs(dev, conf) + [SetAttr(dev, s.attr, s.value)]
  {
    if conf != [] {
      assert (conf + [s])[1..] == conf[1..] + [s];
      SetAttrsSnoc(dev, conf[1..], s);
    }
  }
}
