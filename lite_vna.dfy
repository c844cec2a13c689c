/**
 * The LiteVNA driver, LiteVNA.py: the byte frames of the register
 * protocol, the decoding of the 32-byte sweep records, the sweep set-up
 * and the frequency grid of a sweep.  The serial port is a log of the
 * bytes written to it and a stream of the bytes the device will send.
 */
module LiteVna {
  import opened Base
  import opened Text

  // ---------------------------------------------------------------------
  // Registers and opcodes
  // ---------------------------------------------------------------------

  const RegSweepStartHz: byte := 0x00
  const RegSweepStepHz: byte := 0x10
  const RegSweepPoints: byte := 0x20
  const RegValuesFifo: byte := 0x30
  const RegChannelSelect: byte := 0x44
  const RegFwMajor: byte := 0xF3
  const RegFwMinor: byte := 0xF4

  const CmdRead: byte := 0x10
  const CmdReadFifo: byte := 0x18
  const CmdWrite: byte := 0x20
  const CmdWrite2: byte := 0x21
  const CmdWrite8: byte := 0x23

  // ---------------------------------------------------------------------
  // Little-endian integers (struct.pack / struct.unpack)
  // ---------------------------------------------------------------------

  const Two16: int := 0x1_0000
  const Two31: int := 0x8000_0000
  const Two32: int := 0x1_0000_0000
  const Two64: int := 0x1_0000_0000_0000_0000

  /** 256 to the power `width`: the number of values `width` bytes can hold. */
  function Span(width: nat): (r: nat)
    ensures r >= 1
  {
    if width == 0 then 1 else 256 * Span(width - 1)
  }

  lemma SpanValues()
    ensures Span(1) == 256 && Span(2) == Two16 && Span(4) == Two32 && Span(8) == Two64
  {
    assert Span(1) == 256 * Span(0);
    assert Span(2) == 256 * Span(1);
    assert Span(3) == 256 * Span(2);
    assert Span(4) == 256 * Span(3);
    assert Span(5) == 256 * Span(4);
    assert Span(6) == 256 * Span(5);
    assert Span(7) == 256 * Span(6);
    assert Span(8) == 256 * Span(7);
  }

  /** The `width` little-endian bytes of `v` modulo 256 to the `width`. */
  function PackLE(v: nat, width: nat): (bs: seq<byte>)
    ensures |bs| == width
  {
    if width == 0 then [] else [v % 256] + PackLE(v / 256, width - 1)
  }

  /** The unsigned value of little-endian bytes. */
  function UnpackLE(bs: seq<byte>): (v: nat)
    ensures v < Span(|bs|)
  {
    if bs == [] then 0 else bs[0] + 256 * UnpackLE(bs[1..])
  }

  /** Unpacking the packed bytes of a value that fits gives the value back. */
  lemma {:induction false} UnpackPack(v: nat, width: nat)
    requires v < Span(width)
    ensures UnpackLE(PackLE(v, width)) == v
  {
    if width > 0 {
      UnpackPack(v / 256, width - 1);
      var bs := PackLE(v, width);
      assert bs[1..] == PackLE(v / 256, width - 1);
    }
  }

  /** Packing the value of some bytes gives the same bytes back. */
  lemma {:induction false} PackUnpack(bs: seq<byte>)
    ensures PackLE(UnpackLE(bs), |bs|) == bs
  {
    if bs != [] {
      PackUnpack(bs[1..]);
      var v := UnpackLE(bs);
      assert v % 256 == bs[0] && v / 256 == UnpackLE(bs[1..]);
    }
  }

  /** `struct.pack('<H', v)`: two bytes, or `struct.error` outside 0..65535. */
  function PackU16(v: int): (r: Result<seq<byte>>)
    ensures r.Ok? <==> 0 <= v < Two16
    ensures r.Ok? ==> |r.value| == 2 && UnpackLE(r.value) == v
  {
    SpanValues();
    if 0 <= v < Two16 then
      UnpackPack(v, 2);
      Ok(PackLE(v, 2))
    else Err(Fault(StructError, "'H' format requires 0 <= number <= 65535"))
  }

  /** `struct.pack('<Q', v)`: eight bytes, or `struct.error` outside 0..2^64-1. */
  function PackU64(v: int): (r: Result<seq<byte>>)
    ensures r.Ok? <==> 0 <= v < Two64
    ensures r.Ok? ==> |r.value| == 8 && UnpackLE(r.value) == v
  {
    SpanValues();
    if 0 <= v < Two64 then
      UnpackPack(v, 8);
      Ok(PackLE(v, 8))
    else Err(Fault(StructError, "argument out of range"))
  }

  /** `struct.unpack('<i', bs)`: a signed 32-bit integer, two's complement. */
  function Int32LE(bs: seq<byte>): (v: int)
    requires |bs| == 4
    ensures -Two31 <= v < Two31
  {
    SpanValues();
    var u := UnpackLE(bs);
    if u < Two31 then u else u - Two32
  }

  /** The four bytes `struct.pack('<i', v)` gives for a value in range. */
  function PackI32(v: int): (bs: seq<byte>)
    requires -Two31 <= v < Two31
    ensures |bs| == 4
  {
    PackLE(if v < 0 then v + Two32 else v, 4)
  }

  /** Decoding the bytes of a signed 32-bit value gives the value back. */
  lemma Int32RoundTrip(v: int)
    requires -Two31 <= v < Two31
    ensures Int32LE(PackI32(v)) == v
  {
    SpanValues();
    UnpackPack(if v < 0 then v + Two32 else v, 4);
  }

  // ---------------------------------------------------------------------
  // Frames
  // ---------------------------------------------------------------------

  /** `_write_u8`: opcode, register, the low byte of the value (`value & 0xFF`). */
  function WriteU8Frame(reg: byte, value: int): (f: seq<byte>)
    ensures |f| == 3 && f[0] == CmdWrite && f[1] == reg
    ensures f[2] == value % 256 && (value - f[2]) % 256 == 0
  {
    [CmdWrite, reg, value % 256]
  }

  /** `_write_u16`: opcode, register, the value as two little-endian bytes. */
  function WriteU16Frame(reg: byte, value: int): (r: Result<seq<byte>>)
    ensures r.Ok? <==> 0 <= value < Two16
    ensures r.Ok? ==> |r.value| == 4 && r.value[..2] == [CmdWrite2, reg] && UnpackLE(r.value[2..]) == value
  {
    match PackU16(value)
    case Err(e) => Err(e)
    case Ok(data) =>
      var f := [CmdWrite2, reg] + data;
      assert f[2..] == data;
      Ok(f)
  }

  /** `_write_u64`: opcode, register, the value as eight little-endian bytes. */
  function WriteU64Frame(reg: byte, value: int): (r: Result<seq<byte>>)
    ensures r.Ok? <==> 0 <= value < Two64
    ensures r.Ok? ==> |r.value| == 10 && r.value[..2] == [CmdWrite8, reg] && UnpackLE(r.value[2..]) == value
  {
    match PackU64(value)
    case Err(e) => Err(e)
    case Ok(data) =>
      var f := [CmdWrite8, reg] + data;
      assert f[2..] == data;
      Ok(f)
  }

  /** `_read_u8`'s request. */
  function ReadU8Frame(reg: byte): seq<byte>
  {
    [CmdRead, reg]
  }

  /** `_read_fifo(n)`'s request: opcode, the FIFO register, `n` as two little-endian bytes. */
  function ReadFifoFrame(n: int): (r: Result<seq<byte>>)
    ensures r.Ok? <==> 0 <= n < Two16
    ensures r.Ok? ==> |r.value| == 4 && r.value[..2] == [CmdReadFifo, RegValuesFifo] && UnpackLE(r.value[2..]) == n
  {
    match PackU16(n)
    case Err(e) => Err(e)
    case Ok(data) =>
      var f := [CmdReadFifo, RegValuesFifo] + data;
      assert f[2..] == data;
      Ok(f)
  }

  /** `set_channels`: 1 for S11 alone, 2 for S21 alone, 0 for both and for neither. */
  function ChannelCode(s11: bool, s21: bool): (v: byte)
    ensures v == 0 <==> s11 == s21
    ensures v == 1 <==> s11 && !s21
    ensures v == 2 <==> !s11 && s21
  {
    if s11 && !s21 then 0x01 else if !s11 && s21 then 0x02 else 0x00
  }

  // ---------------------------------------------------------------------
  // Sweep records
  // ---------------------------------------------------------------------

  /** The integer fields of one 32-byte FIFO record. */
  datatype RawPoint = RawPoint(fwd0Re: int, fwd0Im: int, rev0Re: int, rev0Im: int, rev1Re: int, rev1Im: int, freqIndex: nat)

  /** A complex quotient of two integer complex numbers, exact; `Infinite` when the divisor is zero. */
  datatype SValue = Infinite | Finite(re: real, im: real)

  /** `rev / fwd0`, or `complex(inf, inf)` when the reference `fwd0` is zero. */
  function Ratio(re: int, im: int, refRe: int, refIm: int): (q: SValue)
    ensures q.Infinite? <==> refRe == 0 && refIm == 0
  {
    if refRe == 0 && refIm == 0 then Infinite
    else
      var c := refRe as real;
      var d := refIm as real;
      var n := c * c + d * d;
      assert n > 0.0 by { SquarePositive(c, d); }
      Finite((re as real * c + im as real * d) / n, (im as real * c - re as real * d) / n)
  }

  lemma SquarePositive(c: real, d: real)
    requires c != 0.0 || d != 0.0
    ensures c * c + d * d > 0.0
  {
    if c != 0.0 { assert c * c > 0.0; }
    if d != 0.0 { assert d * d > 0.0; }
  }

  /** A finite ratio times the reference gives back the measured value exactly. */
  lemma RatioTimesReference(re: int, im: int, refRe: int, refIm: int)
    requires refRe != 0 || refIm != 0
    ensures var q := Ratio(re, im, refRe, refIm);
      q.Finite? &&
      q.re * refRe as real - q.im * refIm as real == re as real &&
      q.re * refIm as real + q.im * refRe as real == im as real
  {
    var a, b, c, d := re as real, im as real, refRe as real, refIm as real;
    var n := c * c + d * d;
    SquarePositive(c, d);
    var x := (a * c + b * d) / n;
    var y := (b * c - a * d) / n;
    assert x * n == a * c + b * d;
    assert y * n == b * c - a * d;
    assert (x * c - y * d) * n == (a * c + b * d) * c - (b * c - a * d) * d;
    assert (a * c + b * d) * c - (b * c - a * d) * d == a * n;
    assert (x * d + y * c) * n == (a * c + b * d) * d + (b * c - a * d) * c;
    assert (a * c + b * d) * d + (b * c - a * d) * c == b * n;
  }

  /** A 32-byte record: six signed 32-bit fields, then the unsigned 16-bit frequency index. */
  function DecodePoint(chunk: seq<byte>): (p: RawPoint)
    requires |chunk| == 32
    ensures p.freqIndex < Two16
  {
    SpanValues();
    RawPoint(Int32LE(chunk[0..4]), Int32LE(chunk[4..8]), Int32LE(chunk[8..12]),
             Int32LE(chunk[12..16]), Int32LE(chunk[16..20]), Int32LE(chunk[20..24]),
             UnpackLE(chunk[24..26]))
  }

  /** Whether every field of a point fits the record. */
  predicate Encodable(p: RawPoint)
  {
    && -Two31 <= p.fwd0Re < Two31 && -Two31 <= p.fwd0Im < Two31
    && -Two31 <= p.rev0Re < Two31 && -Two31 <= p.rev0Im < Two31
    && -Two31 <= p.rev1Re < Two31 && -Two31 <= p.rev1Im < Two31
    && p.freqIndex < Two16
  }

  /** The record a device sends for a point, with `tail` in the six unused bytes. */
  function EncodePoint(p: RawPoint, tail: seq<byte>): (chunk: seq<byte>)
    requires Encodable(p) && |tail| == 6
    ensures |chunk| == 32
  {
    PackI32(p.fwd0Re) + PackI32(p.fwd0Im) + PackI32(p.rev0Re) + PackI32(p.rev0Im)
      + PackI32(p.rev1Re) + PackI32(p.rev1Im) + PackLE(p.freqIndex, 2) + tail
  }

  /** Decoding a record gives back the point it was made from, whatever the unused bytes. */
  lemma DecodeEncode(p: RawPoint, tail: seq<byte>)
    requires Encodable(p) && |tail| == 6
    ensures DecodePoint(EncodePoint(p, tail)) == p
  {
    var c := EncodePoint(p, tail);
    assert c[0..4] == PackI32(p.fwd0Re);
    assert c[4..8] == PackI32(p.fwd0Im);
    assert c[8..12] == PackI32(p.rev0Re);
    assert c[12..16] == PackI32(p.rev0Im);
    assert c[16..20] == PackI32(p.rev1Re);
    assert c[20..24] == PackI32(p.rev1Im);
    assert c[24..26] == PackLE(p.freqIndex, 2);
    Int32RoundTrip(p.fwd0Re);
    Int32RoundTrip(p.fwd0Im);
    Int32RoundTrip(p.rev0Re);
    Int32RoundTrip(p.rev0Im);
    Int32RoundTrip(p.rev1Re);
    Int32RoundTrip(p.rev1Im);
    SpanValues();
    UnpackPack(p.freqIndex, 2);
  }

  lemma ChunkFits(n: nat, i: nat)
    requires i < n / 32
    ensures 32 * i + 32 <= n
  {
  }

  /** Record `i` of the FIFO data. */
  function Chunk(data: seq<byte>, i: nat): (c: seq<byte>)
    requires i < |data| / 32
    ensures |c| == 32
  {
    ChunkFits(|data|, i);
    data[32 * i .. 32 * i + 32]
  }

  /**
   * `_parse_sweep_data`: one entry per whole 32-byte record, a trailing
   * partial record ignored; for record `k` its frequency index and its
   * S11 and S21 values, the reflected and the transmitted wave divided by
   * the reference wave.
   */
  method ParseSweepData(data: seq<byte>) returns (fidx: seq<nat>, s11: seq<SValue>, s21: seq<SValue>)
    ensures |fidx| == |s11| == |s21| == |data| / 32
    ensures forall k :: 0 <= k < |data| / 32 ==>
      var p := DecodePoint(Chunk(data, k));
      && fidx[k] == p.freqIndex
      && s11[k] == Ratio(p.rev0Re, p.rev0Im, p.fwd0Re, p.fwd0Im)
      && s21[k] == Ratio(p.rev1Re, p.rev1Im, p.fwd0Re, p.fwd0Im)
  {
    fidx, s11, s21 := [], [], [];
    var count := |data| / 32;
    var i := 0;
    while i < count
      invariant 0 <= i <= count
      invariant |fidx| == |s11| == |s21| == i
      invariant forall k :: 0 <= k < i ==>
        var p := DecodePoint(Chunk(data, k));
        && fidx[k] == p.freqIndex
        && s11[k] == Ratio(p.rev0Re, p.rev0Im, p.fwd0Re, p.fwd0Im)
        && s21[k] == Ratio(p.rev1Re, p.rev1Im, p.fwd0Re, p.fwd0Im)
    {
      var p := DecodePoint(Chunk(data, i));
      s11 := s11 + [Ratio(p.rev0Re, p.rev0Im, p.fwd0Re, p.fwd0Im)];
      s21 := s21 + [Ratio(p.rev1Re, p.rev1Im, p.fwd0Re, p.fwd0Im)];
      fidx := fidx + [p.freqIndex];
      i := i + 1;
    }
  }

  // ---------------------------------------------------------------------
  // Sweep set-up and the frequency grid
  // ---------------------------------------------------------------------

  /** Python's `round` on an exact value: to the nearest integer, ties to the even one. */
  function RoundHalfEven(x: real): (r: int)
    ensures -0.5 <= r as real - x <= 0.5
    ensures (r as real - x == 0.5 || r as real - x == -0.5) ==> r % 2 == 0
  {
    var f := x.Floor;
    var frac := x - f as real;
    if frac < 0.5 then f
    else if frac > 0.5 then f + 1
    else if f % 2 == 0 then f else f + 1
  }

  /** The step `set_frequency_range` computes: 0 for at most one point, else the rounded spacing. */
  function StepHz(startHz: int, stopHz: int, numPoints: int): (step: int)
    ensures numPoints <= 1 ==> step == 0
    ensures numPoints > 1 ==>
      -0.5 <= step as real - (stopHz - startHz) as real / (numPoints - 1) as real <= 0.5
  {
    if numPoints <= 1 then 0 else RoundHalfEven((stopHz - startHz) as real / (numPoints - 1) as real)
  }

  /** With an exact spacing the last point of the grid lands on the stop frequency. */
  lemma StepExact(startHz: int, stopHz: int, numPoints: int)
    requires numPoints > 1 && (stopHz - startHz) % (numPoints - 1) == 0
    ensures startHz + (numPoints - 1) * StepHz(startHz, stopHz, numPoints) == stopHz
  {
    var q := (stopHz - startHz) / (numPoints - 1);
    assert (stopHz - startHz) == q * (numPoints - 1);
    assert (stopHz - startHz) as real / (numPoints - 1) as real == q as real;
    var s := StepHz(startHz, stopHz, numPoints);
    assert -0.5 <= s as real - q as real <= 0.5;
  }

  /** The error numpy raises for an index past the end of the grid. */
  function OutOfBounds(index: int, size: int): Fault
  {
    Fault(IndexError, "index " + IntText(index) + " is out of bounds for axis 0 with size " + IntText(size))
  }

  /**
   * The frequencies `read_sweep` reports: the grid `start + i * step` for
   * `i` below the number of points, picked out by each record's index;
   * the first index past the grid raises IndexError.
   */
  function Frequencies(startHz: int, stepHz: int, numPoints: int, fidx: seq<nat>): (r: Result<seq<int>>)
    ensures r.Ok? <==> forall k :: 0 <= k < |fidx| ==> fidx[k] < numPoints
    ensures r.Ok? ==> |r.value| == |fidx| && forall k :: 0 <= k < |fidx| ==> r.value[k] == startHz + fidx[k] * stepHz
  {
    if fidx == [] then Ok([])
    else if fidx[0] >= numPoints then Err(OutOfBounds(fidx[0], numPoints))
    else
      match Frequencies(startHz, stepHz, numPoints, fidx[1..])
      case Err(e) => Err(e)
      case Ok(rest) =>
        assert forall k :: 1 <= k < |fidx| ==> fidx[k] == fidx[1..][k - 1];
        Ok([startHz + fidx[0] * stepHz] + rest)
  }

  /** What `read_sweep` returns: frequencies, S11 values and S21 values, point by point. */
  datatype Sweep = Sweep(frequencies: seq<int>, s11: seq<SValue>, s21: seq<SValue>)

  /**
   * Whether `sweep` is the sweep the FIFO data `data` of `numPoints`
   * records describes: point `k` is record `k`, at the grid frequency its
   * index names, with its S11 and S21 ratios.
   */
  ghost predicate SweepDecodes(data: seq<byte>, startHz: int, stepHz: int, numPoints: nat, sweep: Sweep)
    requires |data| == 32 * numPoints
  {
    && |sweep.frequencies| == |sweep.s11| == |sweep.s21| == numPoints
    && forall k :: 0 <= k < numPoints ==>
         var p := DecodePoint(Chunk(data, k));
         && p.freqIndex < numPoints
         && sweep.frequencies[k] == startHz + p.freqIndex * stepHz
         && sweep.s11[k] == Ratio(p.rev0Re, p.rev0Im, p.fwd0Re, p.fwd0Im)
         && sweep.s21[k] == Ratio(p.rev1Re, p.rev1Im, p.fwd0Re, p.fwd0Im)
  }

  /** Whether every record of the FIFO data indexes a point of the grid. */
  ghost predicate IndicesInGrid(data: seq<byte>, numPoints: nat)
    requires |data| == 32 * numPoints
  {
    forall k :: 0 <= k < numPoints ==> DecodePoint(Chunk(data, k)).freqIndex < numPoints
  }

  // ---------------------------------------------------------------------
  // The driver
  // ---------------------------------------------------------------------

  const NotConnected := Fault(ConnectionError, "LiteVNA is not connected. Call open() first.")
  const RegisterTimeout := Fault(TimeoutError, "Timeout reading from LiteVNA register.")

  function FifoTimeout(expected: int, got: int): Fault
  {
    Fault(TimeoutError, "FIFO read timeout: Expected " + IntText(expected) + " bytes, got " + IntText(got))
  }

  /**
   * `LiteVNA`: whether the serial port is open, every byte written to it,
   * the bytes the device has yet to send, and the sweep settings.
   */
  class LiteVnaDriver {
    const port: string
    var isOpen: bool
    var sent: seq<byte>
    var incoming: seq<byte>
    var numPoints: int
    var startHz: int
    var stepHz: int

    /** `LiteVNA(port)`: not connected, 101 points, start and step zero. */
    constructor (port: string, incoming: seq<byte>)
      ensures this.port == port && !isOpen && sent == [] && this.incoming == incoming
      ensures numPoints == 101 && startHz == 0 && stepHz == 0
    {
      this.port := port;
      isOpen := false;
      sent := [];
      this.incoming := incoming;
      numPoints := 101;
      startHz := 0;
      stepHz := 0;
    }

    /**
     * `open`: the port opens, or the serial library's exception `failure`
     * is raised again with the driver left unconnected.
     */
    method Open(failure: Option<Fault>) returns (r: Outcome)
      modifies this
      ensures failure.None? ==> isOpen && r == Pass
      ensures failure.Some? ==> !isOpen && r == Fail(failure.value)
      ensures sent == old(sent) && incoming == old(incoming)
      ensures numPoints == old(numPoints) && startHz == old(startHz) && stepHz == old(stepHz)
    {
      if failure.Some? {
        isOpen := false;
        return Fail(failure.value);
      }
      isOpen := true;
      r := Pass;
    }

    /** `close`: closes the port if it is open; closing twice is closing once. */
    method Close()
      modifies this
      ensures !isOpen
      ensures sent == old(sent) && incoming == old(incoming)
      ensures numPoints == old(numPoints) && startHz == old(startHz) && stepHz == old(stepHz)
    {
      if isOpen {
        isOpen := false;
      }
    }

    /** `_check_connection`. */
    method CheckConnection() returns (r: Outcome)
      ensures r == if isOpen then Pass else Fail(NotConnected)
    {
      r := if isOpen then Pass else Fail(NotConnected);
    }

    /** `ser.read(n)`: at most `n` bytes, fewer when the device has no more before the timeout. */
    method ReadBytes(n: nat) returns (got: seq<byte>)
      modifies this
      ensures got == old(incoming)[..if n < |old(incoming)| then n else |old(incoming)|]
      ensures incoming == old(incoming)[|got|..]
      ensures isOpen == old(isOpen) && sent == old(sent)
      ensures numPoints == old(numPoints) && startHz == old(startHz) && stepHz == old(stepHz)
    {
      var m := if n < |incoming| then n else |incoming|;
      got := incoming[..m];
      incoming := incoming[m..];
    }

    /** `_write_u8(reg, value)`. */
    method WriteU8(reg: byte, value: int) returns (r: Outcome)
      modifies this
      ensures r == if old(isOpen) then Pass else Fail(NotConnected)
      ensures sent == old(sent) + (if old(isOpen) then WriteU8Frame(reg, value) else [])
      ensures isOpen == old(isOpen) && incoming == old(incoming)
      ensures numPoints == old(numPoints) && startHz == old(startHz) && stepHz == old(stepHz)
    {
      r := CheckConnection();
      if r.Fail? {
        return;
      }
      sent := sent + WriteU8Frame(reg, value);
    }

    /** `_write_u16(reg, value)`: the connection is checked first, then the range. */
    method WriteU16(reg: byte, value: int) returns (r: Outcome)
      modifies this
      ensures var f := WriteU16Frame(reg, value);
        && (!old(isOpen) ==> r == Fail(NotConnected) && sent == old(sent))
        && (old(isOpen) && f.Err? ==> r == Fail(f.error) && sent == old(sent))
        && (old(isOpen) && f.Ok? ==> r == Pass && sent == old(sent) + f.value)
      ensures isOpen == old(isOpen) && incoming == old(incoming)
      ensures numPoints == old(numPoints) && startHz == old(startHz) && stepHz == old(stepHz)
    {
      r := CheckConnection();
      if r.Fail? {
        return;
      }
      var f := WriteU16Frame(reg, value);
      if f.Err? {
        return Fail(f.error);
      }
      sent := sent + f.value;
    }

    /** `_write_u64(reg, value)`: the connection is checked first, then the range. */
    method WriteU64(reg: byte, value: int) returns (r: Outcome)
      modifies this
      ensures var f := WriteU64Frame(reg, value);
        && (!old(isOpen) ==> r == Fail(NotConnected) && sent == old(sent))
        && (old(isOpen) && f.Err? ==> r == Fail(f.error) && sent == old(sent))
        && (old(isOpen) && f.Ok? ==> r == Pass && sent == old(sent) + f.value)
      ensures isOpen == old(isOpen) && incoming == old(incoming)
      ensures numPoints == old(numPoints) && startHz == old(startHz) && stepHz == old(stepHz)
    {
      r := CheckConnection();
      if r.Fail? {
        return;
      }
      var f := WriteU64Frame(reg, value);
      if f.Err? {
        return Fail(f.error);
      }
      sent := sent + f.value;
    }

    /** `_read_u8(reg)`: the request, then exactly one byte back or TimeoutError. */
    method ReadU8(reg: byte) returns (r: Result<byte>)
      modifies this
      ensures !old(isOpen) ==> r == Err(NotConnected) && sent == old(sent) && incoming == old(incoming)
      ensures old(isOpen) ==> sent == old(sent) + ReadU8Frame(reg)
      ensures old(isOpen) && old(incoming) == [] ==> r == Err(RegisterTimeout) && incoming == []
      ensures old(isOpen) && old(incoming) != [] ==> r == Ok(old(incoming)[0]) && incoming == old(incoming)[1..]
      ensures isOpen == old(isOpen)
      ensures numPoints == old(numPoints) && startHz == old(startHz) && stepHz == old(stepHz)
    {
      var c := CheckConnection();
      if c.Fail? {
        return Err(c.error);
      }
      sent := sent + ReadU8Frame(reg);
      var got := ReadBytes(1);
      if |got| != 1 {
        return Err(RegisterTimeout);
      }
      r := Ok(got[0]);
    }

    /** `_clear_fifo`: a dummy write of 1 to the FIFO register. */
    method ClearFifo() returns (r: Outcome)
      modifies this
      ensures r == if old(isOpen) then Pass else Fail(NotConnected)
      ensures sent == old(sent) + (if old(isOpen) then [CmdWrite, RegValuesFifo, 0x01] else [])
      ensures isOpen == old(isOpen) && incoming == old(incoming)
      ensures numPoints == old(numPoints) && startHz == old(startHz) && stepHz == old(stepHz)
    {
      r := WriteU8(RegValuesFifo, 0x01);
    }

    /**
     * `_read_fifo(n)`: the request, then exactly `32 * n` bytes back, or
     * TimeoutError naming how many came.
     */
    method ReadFifo(n: int) returns (r: Result<seq<byte>>)
      modifies this
      ensures var f := ReadFifoFrame(n);
        && (!old(isOpen) ==> r == Err(NotConnected) && sent == old(sent) && incoming == old(incoming))
        && (old(isOpen) && f.Err? ==> r == Err(f.error) && sent == old(sent) && incoming == old(incoming))
        && (old(isOpen) && f.Ok? ==>
              sent == old(sent) + f.value &&
              (if |old(incoming)| >= 32 * n
               then r == Ok(old(incoming)[..32 * n]) && incoming == old(incoming)[32 * n..]
               else r == Err(FifoTimeout(32 * n, |old(incoming)|)) && incoming == []))
      ensures isOpen == old(isOpen)
      ensures numPoints == old(numPoints) && startHz == old(startHz) && stepHz == old(stepHz)
    {
      var c := CheckConnection();
      if c.Fail? {
        return Err(c.error);
      }
      var f := ReadFifoFrame(n);
      if f.Err? {
        return Err(f.error);
      }
      sent := sent + f.value;
      var data := ReadBytes(32 * n);
      if |data| != 32 * n {
        return Err(FifoTimeout(32 * n, |data|));
      }
      r := Ok(data);
    }

    /** `get_version`: the two firmware registers as `major.minor`. */
    method GetVersion() returns (r: Result<string>)
      modifies this
      ensures !old(isOpen) ==> r == Err(NotConnected) && sent == old(sent) && incoming == old(incoming)
      ensures old(isOpen) && |old(incoming)| >= 2 ==>
        && r == Ok(IntText(old(incoming)[0]) + "." + IntText(old(incoming)[1]))
        && sent == old(sent) + ReadU8Frame(RegFwMajor) + ReadU8Frame(RegFwMinor)
        && incoming == old(incoming)[2..]
      ensures old(isOpen) && |old(incoming)| == 1 ==>
        r == Err(RegisterTimeout) && sent == old(sent) + ReadU8Frame(RegFwMajor) + ReadU8Frame(RegFwMinor) && incoming == []
      ensures old(isOpen) && old(incoming) == [] ==>
        r == Err(RegisterTimeout) && sent == old(sent) + ReadU8Frame(RegFwMajor) && incoming == []
      ensures isOpen == old(isOpen)
      ensures numPoints == old(numPoints) && startHz == old(startHz) && stepHz == old(stepHz)
    {
      var major := ReadU8(RegFwMajor);
      if major.Err? {
        return Err(major.error);
      }
      var minor := ReadU8(RegFwMinor);
      if minor.Err? {
        return Err(minor.error);
      }
      r := Ok(IntText(major.value) + "." + IntText(minor.value));
    }

    /** `set_channels(s11, s21)`: the channel code written to the channel register. */
    method SetChannels(s11: bool, s21: bool) returns (r: Outcome)
      modifies this
      ensures r == if old(isOpen) then Pass else Fail(NotConnected)
      ensures sent == old(sent) + (if old(isOpen) then [CmdWrite, RegChannelSelect, ChannelCode(s11, s21)] else [])
      ensures isOpen == old(isOpen) && incoming == old(incoming)
      ensures numPoints == old(numPoints) && startHz == old(startHz) && stepHz == old(stepHz)
    {
      r := WriteU8(RegChannelSelect, ChannelCode(s11, s21));
    }

    /**
     * `set_frequency_range`: the settings are stored first, whatever
     * happens next; then the start, the step and the number of points are
     * written in that order, and the first write that fails stops the rest.
     */
    method SetFrequencyRange(start: int, stop: int, n: int) returns (r: Outcome)
      modifies this
      ensures startHz == start && stepHz == StepHz(start, stop, n) && numPoints == n
      ensures isOpen == old(isOpen) && incoming == old(incoming)
      ensures !old(isOpen) ==> r == Fail(NotConnected) && sent == old(sent)
      ensures old(isOpen) ==>
        var f1 := WriteU64Frame(RegSweepStartHz, start);
        var f2 := WriteU64Frame(RegSweepStepHz, stepHz);
        var f3 := WriteU16Frame(RegSweepPoints, n);
        if f1.Err? then r == Fail(f1.error) && sent == old(sent)
        else if f2.Err? then r == Fail(f2.error) && sent == old(sent) + f1.value
        else if f3.Err? then r == Fail(f3.error) && sent == old(sent) + f1.value + f2.value
        else r == Pass && sent == old(sent) + f1.value + f2.value + f3.value
    {
      var step := StepHz(start, stop, n);
      startHz := start;
      stepHz := step;
      numPoints := n;
      r := WriteU64(RegSweepStartHz, start);
      if r.Fail? {
        return;
      }
      r := WriteU64(RegSweepStepHz, step);
      if r.Fail? {
        return;
      }
      r := WriteU16(RegSweepPoints, n);
    }

    /**
     * `read_sweep`: clear the FIFO, read `numPoints` records (clearing and
     * reading once more after a timeout), decode them, and report each
     * point at its grid frequency; a record indexing past the grid raises
     * IndexError.
     */
    method ReadSweep() returns (r: Result<Sweep>)
      modifies this
      ensures isOpen == old(isOpen)
      ensures numPoints == old(numPoints) && startHz == old(startHz) && stepHz == old(stepHz)
      ensures !old(isOpen) ==> r == Err(NotConnected) && sent == old(sent) && incoming == old(incoming)
      ensures old(isOpen) && 0 <= numPoints < Two16 && |old(incoming)| >= 32 * numPoints ==>
        var data := old(incoming)[..32 * numPoints];
        && incoming == old(incoming)[32 * numPoints..]
        && sent == old(sent) + [CmdWrite, RegValuesFifo, 0x01] + ReadFifoFrame(numPoints).value
        && (r.Ok? <==> IndicesInGrid(data, numPoints))
        && (r.Ok? ==> SweepDecodes(data, startHz, stepHz, numPoints, r.value))
      ensures old(isOpen) && 0 <= numPoints < Two16 && |old(incoming)| < 32 * numPoints ==>
        && r == Err(FifoTimeout(32 * numPoints, 0)) && incoming == []
        && sent == old(sent) + [CmdWrite, RegValuesFifo, 0x01] + ReadFifoFrame(numPoints).value
                             + [CmdWrite, RegValuesFifo, 0x01] + ReadFifoFrame(numPoints).value
      ensures old(isOpen) && !(0 <= numPoints < Two16) ==>
        && ReadFifoFrame(numPoints).Err? && r == Err(ReadFifoFrame(numPoints).error)
        && r.error.kind == StructError
        && sent == old(sent) + [CmdWrite, RegValuesFifo, 0x01] && incoming == old(incoming)
    {
      var c := CheckConnection();
      if c.Fail? {
        return Err(c.error);
      }
      var cleared := ClearFifo();
      var raw := ReadFifo(numPoints);
      if raw.Err? && raw.error.kind == TimeoutError {
        cleared := ClearFifo();
        raw := ReadFifo(numPoints);
      }
      if raw.Err? {
        return Err(raw.error);
      }
      var data := raw.value;
      ghost var n: nat := numPoints;
      assert |data| == 32 * n && |data| / 32 == n;
      var fidx, s11, s21 := ParseSweepData(data);
      var freqs := Frequencies(startHz, stepHz, numPoints, fidx);
      if freqs.Err? {
        return Err(freqs.error);
      }
      r := Ok(Sweep(freqs.value, s11, s21));
    }
  }
}
