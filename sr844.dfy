/**
 * The Stanford SR844 lock-in driver, SR844.py: its front-panel code
 * tables, the harmonic's off-by-one encoding, the input impedance, the
 * two reserve settings and the overload report.
 */
module Sr844 {
  import opened Base
  import opened Text
  import opened Lockin
  import opened Device

  // ---------------------------------------------------------------------
  // Tables
  // ---------------------------------------------------------------------

  /** `tcs`: the time constants, from 100 microseconds; the position of each is its `OFLT` code. */
  const Tcs: seq<string> := ["100u", "300u",
                             "1m", "3m", "10m", "30m", "100m", "300m",
                             "1", "3", "10", "30", "100", "300",
                             "1k", "3k", "10k", "30k"]

  /** `senss`: the sensitivities; the position of each is its `SENS` code. */
  const Senss: seq<string> := ["100n", "300n", "1u", "3u", "10u", "30u", "100u", "300u",
                               "1m", "3m", "10m", "30m", "100m", "300m", "1"]

  /** `fslps`: no filter, then the slopes in dB per octave. */
  const Fslps: seq<string> := ["nofilter", "6", "12", "18", "24"]

  /** The keys of the reserve dicts, whose codes are their positions. */
  const Reserves: seq<string> := ["HIGH", "NORMAL", "LOW"]

  lemma TablesDistinct()
    ensures Distinct(Tcs) && Distinct(Senss) && Distinct(Fslps) && Distinct(Reserves)
  {
    TcsDistinct();
    SenssDistinct();
  }

  lemma TcsDistinct()
    ensures Distinct(Tcs)
  {
    TimeConstantsAscending();
    AscendingDistinct(Tcs);
  }

  lemma SenssDistinct()
    ensures Distinct(Senss)
  {
    SensitivitiesAscending();
    AscendingDistinct(Senss);
  }

  lemma SensitivitiesAreCodes()
    ensures AllCodes(Senss)
  {
  }

  /** `lpfslopes` gives "nofilter" code 0 and the four slopes codes 1 to 4. */
  lemma SlopeCodes()
    ensures CodeOf(Fslps, "nofilter") == Ok(0)
    ensures CodeOf(Fslps, "6") == Ok(1) && CodeOf(Fslps, "12") == Ok(2)
    ensures CodeOf(Fslps, "18") == Ok(3) && CodeOf(Fslps, "24") == Ok(4)
  {
    TablesDistinct();
    EnumerateInverse(Fslps);
    assert Fslps[0] == "nofilter" && Fslps[1] == "6" && Fslps[2] == "12" && Fslps[3] == "18" && Fslps[4] == "24";
  }

  /** The value of each sensitivity, in volts. */
  lemma SensitivityValues0()
    ensures IsCode(Senss[0]) && CodeToValue(Senss[0]) == 0.0000001
    ensures IsCode(Senss[1]) && CodeToValue(Senss[1]) == 0.0000003
    ensures IsCode(Senss[2]) && CodeToValue(Senss[2]) == 0.000001
  {
    assert "100n"[..3] == "100";
    assert "100"[..2] == "10";
    assert "10"[..1] == "1";
    assert "1"[..0] == "";
    assert "300n"[..3] == "300";
    assert "300"[..2] == "30";
    assert "30"[..1] == "3";
    assert "3"[..0] == "";
    assert "1u"[..1] == "1";
  }

  lemma SensitivityValues1()
    ensures IsCode(Senss[3]) && CodeToValue(Senss[3]) == 0.000003
    ensures IsCode(Senss[4]) && CodeToValue(Senss[4]) == 0.00001
    ensures IsCode(Senss[5]) && CodeToValue(Senss[5]) == 0.00003
  {
    assert "3u"[..1] == "3";
    assert "3"[..0] == "";
    assert "10u"[..2] == "10";
    assert "10"[..1] == "1";
    assert "1"[..0] == "";
    assert "30u"[..2] == "30";
    assert "30"[..1] == "3";
  }

  lemma SensitivityValues2()
    ensures IsCode(Senss[6]) && CodeToValue(Senss[6]) == 0.0001
    ensures IsCode(Senss[7]) && CodeToValue(Senss[7]) == 0.0003
    ensures IsCode(Senss[8]) && CodeToValue(Senss[8]) == 0.001
  {
    assert "100u"[..3] == "100";
    assert "100"[..2] == "10";
    assert "10"[..1] == "1";
    assert "1"[..0] == "";
    assert "300u"[..3] == "300";
    assert "300"[..2] == "30";
    assert "30"[..1] == "3";
    assert "3"[..0] == "";
    assert "1m"[..1] == "1";
  }

  lemma SensitivityValues3()
    ensures IsCode(Senss[9]) && CodeToValue(Senss[9]) == 0.003
    ensures IsCode(Senss[10]) && CodeToValue(Senss[10]) == 0.01
    ensures IsCode(Senss[11]) && CodeToValue(Senss[11]) == 0.03
  {
    assert "3m"[..1] == "3";
    assert "3"[..0] == "";
    assert "10m"[..2] == "10";
    assert "10"[..1] == "1";
    assert "1"[..0] == "";
    assert "30m"[..2] == "30";
    assert "30"[..1] == "3";
  }

  lemma SensitivityValues4()
    ensures IsCode(Senss[12]) && CodeToValue(Senss[12]) == 0.1
    ensures IsCode(Senss[13]) && CodeToValue(Senss[13]) == 0.3
    ensures IsCode(Senss[14]) && CodeToValue(Senss[14]) == 1.0
  {
    assert "100m"[..3] == "100";
    assert "100"[..2] == "10";
    assert "10"[..1] == "1";
    assert "1"[..0] == "";
    assert "300m"[..3] == "300";
    assert "300"[..2] == "30";
    assert "30"[..1] == "3";
    assert "3"[..0] == "";
  }

  /** Every sensitivity is larger than the one before it. */
  lemma SensitivitiesAscending()
    ensures AllCodes(Senss) && Ascending(Senss)
  {
    SensitivitiesAreCodes();
    SensitivityValues0();
    SensitivityValues1();
    SensitivityValues2();
    SensitivityValues3();
    SensitivityValues4();
  }

  lemma TimeConstantsAreCodes()
    ensures AllCodes(Tcs)
  {
  }

  /** The value of each time constant, in seconds. */
  lemma TimeConstantValues0()
    ensures IsCode(Tcs[0]) && CodeToValue(Tcs[0]) == 0.0001
    ensures IsCode(Tcs[1]) && CodeToValue(Tcs[1]) == 0.0003
    ensures IsCode(Tcs[2]) && CodeToValue(Tcs[2]) == 0.001
  {
    assert "100u"[..3] == "100";
    assert "100"[..2] == "10";
    assert "10"[..1] == "1";
    assert "1"[..0] == "";
    assert "300u"[..3] == "300";
    assert "300"[..2] == "30";
    assert "30"[..1] == "3";
    assert "3"[..0] == "";
    assert "1m"[..1] == "1";
  }

  lemma TimeConstantValues1()
    ensures IsCode(Tcs[3]) && CodeToValue(Tcs[3]) == 0.003
    ensures IsCode(Tcs[4]) && CodeToValue(Tcs[4]) == 0.01
    ensures IsCode(Tcs[5]) && CodeToValue(Tcs[5]) == 0.03
  {
    assert "3m"[..1] == "3";
    assert "3"[..0] == "";
    assert "10m"[..2] == "10";
    assert "10"[..1] == "1";
    assert "1"[..0] == "";
    assert "30m"[..2] == "30";
    assert "30"[..1] == "3";
  }

  lemma TimeConstantValues2()
    ensures IsCode(Tcs[6]) && CodeToValue(Tcs[6]) == 0.1
    ensures IsCode(Tcs[7]) && CodeToValue(Tcs[7]) == 0.3
    ensures IsCode(Tcs[8]) && CodeToValue(Tcs[8]) == 1.0
  {
    assert "100m"[..3] == "100";
    assert "100"[..2] == "10";
    assert "10"[..1] == "1";
    assert "1"[..0] == "";
    assert "300m"[..3] == "300";
    assert "300"[..2] == "30";
    assert "30"[..1] == "3";
    assert "3"[..0] == "";
  }

  lemma TimeConstantValues3()
    ensures IsCode(Tcs[9]) && CodeToValue(Tcs[9]) == 3.0
    ensures IsCode(Tcs[10]) && CodeToValue(Tcs[10]) == 10.0
    ensures IsCode(Tcs[11]) && CodeToValue(Tcs[11]) == 30.0
  {
    assert "3"[..0] == "";
    assert "10"[..1] == "1";
    assert "1"[..0] == "";
    assert "30"[..1] == "3";
  }

  lemma TimeConstantValues4()
    ensures IsCode(Tcs[12]) && CodeToValue(Tcs[12]) == 100.0
    ensures IsCode(Tcs[13]) && CodeToValue(Tcs[13]) == 300.0
    ensures IsCode(Tcs[14]) && CodeToValue(Tcs[14]) == 1000.0
  {
    assert "100"[..2] == "10";
    assert "10"[..1] == "1";
    assert "1"[..0] == "";
    assert "300"[..2] == "30";
    assert "30"[..1] == "3";
    assert "3"[..0] == "";
    assert "1k"[..1] == "1";
  }

  lemma TimeConstantValues5()
    ensures IsCode(Tcs[15]) && CodeToValue(Tcs[15]) == 3000.0
    ensures IsCode(Tcs[16]) && CodeToValue(Tcs[16]) == 10000.0
    ensures IsCode(Tcs[17]) && CodeToValue(Tcs[17]) == 30000.0
  {
    assert "3k"[..1] == "3";
    assert "3"[..0] == "";
    assert "10k"[..2] == "10";
    assert "10"[..1] == "1";
    assert "1"[..0] == "";
    assert "30k"[..2] == "30";
    assert "30"[..1] == "3";
  }

  /** Every time constant is longer than the one before it, from 100 µs up to 30 ks. */
  lemma TimeConstantsAscending()
    ensures AllCodes(Tcs) && Ascending(Tcs)
  {
    TimeConstantsAreCodes();
    TimeConstantValues0();
    TimeConstantValues1();
    TimeConstantValues2();
    TimeConstantValues3();
    TimeConstantValues4();
    TimeConstantValues5();
  }

  // ---------------------------------------------------------------------
  // Commands and replies
  // ---------------------------------------------------------------------

  /** `"OFLT {}".format(time_constants[tc])`, or KeyError for an unknown time constant. */
  function TimeconstantCommand(tc: string): Result<string>
  {
    TableCommand("OFLT", Tcs, tc)
  }

  /** `"SENS {}".format(sensitivities[sens])`, or KeyError for an unknown sensitivity. */
  function SensitivityCommand(sens: string): Result<string>
  {
    TableCommand("SENS", Senss, sens)
  }

  /**
   * `find_best_sens(val)`: the smallest sensitivity above one and a half
   * times `val`, or "1", the largest, when none is.
   */
  function BestSens(v: real): (r: string)
    ensures AllCodes(Senss) && BestFor(Senss, v, r)
  {
    SensitivitiesAscending();
    assert Senss[14] == "1";
    BestInTable(Senss, v);
    FindBestSens(Senss, v)
  }

  /** The harmonics `harmonic` accepts: the first and the second. */
  predicate IsHarmonic(harm: int)
  {
    harm == 1 || harm == 2
  }

  /** `harmonic(harm)`'s command: `HARM harm-1`, or RuntimeError for any other harmonic. */
  function HarmonicCommand(harm: int): (r: Result<string>)
    ensures r.Ok? <==> IsHarmonic(harm)
    ensures r.Err? ==> r.error.kind == RuntimeError
  {
    if IsHarmonic(harm) then Ok("HARM " + IntText(harm - 1))
    else Err(Fault(RuntimeError, "Bad harmonic option " + IntText(harm)))
  }

  /** `harmonic()`'s reading: one more than the code the device answers. */
  function HarmonicOf(code: Result<int>): Result<int>
  {
    match code
    case Err(e) => Err(e)
    case Ok(c) => Ok(c + 1)
  }

  /** The harmonic set is the harmonic read back when the device answers with the code written. */
  lemma HarmonicRoundTrip(harm: int)
    requires IsHarmonic(harm)
    ensures exists c: int :: HarmonicCommand(harm) == Ok("HARM " + IntText(c)) && HarmonicOf(ParseInt(IntText(c))) == Ok(harm)
  {
    ParseIntText(harm - 1);
    assert HarmonicCommand(harm) == Ok("HARM " + IntText(harm - 1));
  }

  /** `input_impedance(imp)`'s command: `INPZ 0` for "50", `INPZ 1` for "HIZ" in any case. */
  function ImpedanceCommand(imp: string): (r: Result<string>)
    ensures r.Ok? <==> imp == "50" || Upper(imp) == "HIZ"
    ensures r.Err? ==> r.error.kind == RuntimeError
  {
    if imp == "50" then Ok("INPZ 0")
    else if Upper(imp) == "HIZ" then Ok("INPZ 1")
    else Err(Fault(RuntimeError, "Unknown coupling " + imp + ", only '50' (50 Ohm) or 'HIZ' (1 Mohm) allowed"))
  }

  /**
   * `input_impedance()`'s reading: "50" for code 0, "HIZ" for code 1, and
   * for any other code the bare `raise`, which has no exception to raise again.
   */
  function ImpedanceOf(code: Result<int>): (r: Result<string>)
    ensures code.Ok? && code.value == 0 ==> r == Ok("50")
    ensures code.Ok? && code.value == 1 ==> r == Ok("HIZ")
    ensures code.Ok? && code.value != 0 && code.value != 1 ==> r == Err(NoActiveException)
  {
    match code
    case Err(e) => Err(e)
    case Ok(c) => if c == 0 then Ok("50") else if c == 1 then Ok("HIZ") else Err(NoActiveException)
  }

  /**
   * Setting an impedance and reading the code back gives the impedance
   * in upper case: "50", or "HIZ" however it was spelled.
   */
  lemma ImpedanceRoundTrip(imp: string)
    requires imp == "50" || Upper(imp) == "HIZ"
    ensures exists c: int :: ImpedanceCommand(imp) == Ok("INPZ " + IntText(c)) && ImpedanceOf(ParseInt(IntText(c))) == Ok(Upper(imp))
  {
    if imp == "50" {
      ParseIntText(0);
      assert Upper("50") == "50";
      assert IntText(0) == "0" && "INPZ " + "0" == "INPZ 0";
      assert ImpedanceCommand(imp) == Ok("INPZ " + IntText(0));
    } else {
      ParseIntText(1);
      assert IntText(1) == "1" && "INPZ " + "1" == "INPZ 1";
      assert ImpedanceCommand(imp) == Ok("INPZ " + IntText(1));
    }
  }

  /** A reserve command: `{head} {code}` for a reserve name in any case, or KeyError. */
  function ReserveCommand(head: string, res: string): (r: Result<string>)
    ensures r.Ok? <==> Upper(res) in Reserves
    ensures r.Err? ==> r.error == KeyErrorFor(Upper(res))
  {
    match CodeOf(Reserves, Upper(res))
    case Err(e) => Err(e)
    case Ok(c) => Ok(head + " " + IntText(c))
  }

  /** `reserves_inverse[int(reply)]`: the reserve of a code, KeyError for any other. */
  function ReserveOf(code: Result<int>): Result<string>
  {
    match code
    case Err(e) => Err(e)
    case Ok(c) => EntryFor(Reserves, c)
  }

  /** HIGH, NORMAL and LOW are written as codes 0, 1 and 2, in any case, and read back as themselves. */
  lemma ReserveCodes(head: string, res: string)
    requires Upper(res) in Reserves
    ensures Upper(res) == "HIGH" ==> ReserveCommand(head, res) == Ok(head + " 0")
    ensures Upper(res) == "NORMAL" ==> ReserveCommand(head, res) == Ok(head + " 1")
    ensures Upper(res) == "LOW" ==> ReserveCommand(head, res) == Ok(head + " 2")
    ensures exists c: nat :: ReserveCommand(head, res) == Ok(head + " " + IntText(c)) && ReserveOf(ParseInt(IntText(c))) == Ok(Upper(res))
  {
    TablesDistinct();
    EnumerateInverse(Reserves);
    var c := CodeOf(Reserves, Upper(res)).value;
    ParseIntText(c);
    assert CodeOf(Reserves, Reserves[0]) == Ok(0) && Reserves[0] == "HIGH";
    assert CodeOf(Reserves, Reserves[1]) == Ok(1) && Reserves[1] == "NORMAL";
    assert CodeOf(Reserves, Reserves[2]) == Ok(2) && Reserves[2] == "LOW";
    assert IntText(0) == "0" && IntText(1) == "1" && IntText(2) == "2";
    assert head + " " + "0" == head + " 0" && head + " " + "1" == head + " 1" && head + " " + "2" == head + " 2";
    assert ReserveCommand(head, res) == Ok(head + " " + IntText(c));
  }

  // ---------------------------------------------------------------------
  // The driver
  // ---------------------------------------------------------------------

  /** `SR844(rm, address)`: a driver over one VISA device. */
  class Sr844Driver {
    const dev: VisaDevice

    constructor (dev: VisaDevice)
      ensures this.dev == dev
    {
      this.dev := dev;
    }

    /**
     * `harmonic(harm)`: with no harmonic, the device's code plus one; with
     * harmonic 1 or 2, `HARM harm-1` and nothing returned; with any
     * other, RuntimeError and nothing written.
     */
    method Harmonic(harm: Option<int>) returns (r: Result<Option<int>>)
      modifies dev
      ensures harm.None? ==>
        dev.log == old(dev.log) + [Queried("HARM?")] && dev.replies == AfterReply(old(dev.replies)) &&
        var h := HarmonicOf(IntReply(old(dev.replies)));
        r == if h.Ok? then Ok(Some(h.value)) else Err(h.error)
      ensures harm.Some? ==>
        var c := HarmonicCommand(harm.value);
        && dev.replies == old(dev.replies)
        && (c.Ok? ==> r == Ok(None) && dev.log == old(dev.log) + [Written(c.value)])
        && (c.Err? ==> r == Err(c.error) && dev.log == old(dev.log))
    {
      if harm.None? {
        var code := dev.QueryInt("HARM?");
        var h := HarmonicOf(code);
        return if h.Ok? then Ok(Some(h.value)) else Err(h.error);
      }
      var c := HarmonicCommand(harm.value);
      if c.Err? {
        return Err(c.error);
      }
      dev.Write(c.value);
      r := Ok(None);
    }

    /**
     * `input_impedance(imp)`: with no impedance, the impedance of the
     * device's code; otherwise its command, or RuntimeError and nothing
     * written.
     */
    method InputImpedance(imp: Option<string>) returns (r: Result<Option<string>>)
      modifies dev
      ensures imp.None? ==>
        dev.log == old(dev.log) + [Queried("INPZ?")] && dev.replies == AfterReply(old(dev.replies)) &&
        var z := ImpedanceOf(IntReply(old(dev.replies)));
        r == if z.Ok? then Ok(Some(z.value)) else Err(z.error)
      ensures imp.Some? ==>
        var c := ImpedanceCommand(imp.value);
        && dev.replies == old(dev.replies)
        && (c.Ok? ==> r == Ok(None) && dev.log == old(dev.log) + [Written(c.value)])
        && (c.Err? ==> r == Err(c.error) && dev.log == old(dev.log))
    {
      if imp.None? {
        var code := dev.QueryInt("INPZ?");
        var z := ImpedanceOf(code);
        return if z.Ok? then Ok(Some(z.value)) else Err(z.error);
      }
      var c := ImpedanceCommand(imp.value);
      if c.Err? {
        return Err(c.error);
      }
      dev.Write(c.value);
      r := Ok(None);
    }

    /**
     * The body `wide_reserve` and `close_reserve` share: with no reserve,
     * the reserve of the device's code; with a reserve, its code is
     * written when the name is known, and then the bare `raise` after the
     * `try` raises RuntimeError in every case.
     */
    method Reserve(head: string, res: Option<string>) returns (r: Result<string>)
      modifies dev
      ensures res.None? ==>
        dev.log == old(dev.log) + [Queried(head + "?")] && dev.replies == AfterReply(old(dev.replies)) &&
        r == ReserveOf(IntReply(old(dev.replies)))
      ensures res.Some? ==>
        var c := ReserveCommand(head, res.value);
        && r == Err(NoActiveException)
        && dev.replies == old(dev.replies)
        && dev.log == old(dev.log) + (if c.Ok? then [Written(c.value)] else [])
    {
      if res.None? {
        var code := dev.QueryInt(head + "?");
        return ReserveOf(code);
      }
      var c := ReserveCommand(head, res.value);
      if c.Ok? {
        dev.Write(c.value);
      }
      r := Err(NoActiveException);
    }

    /** `wide_reserve(res)`: the reserve before the mixer, `WRSV`. */
    method WideReserve(res: Option<string>) returns (r: Result<string>)
      modifies dev
      ensures res.None? ==>
        dev.log == old(dev.log) + [Queried("WRSV?")] && dev.replies == AfterReply(old(dev.replies)) &&
        r == ReserveOf(IntReply(old(dev.replies)))
      ensures res.Some? ==>
        var c := ReserveCommand("WRSV", res.value);
        && r == Err(NoActiveException)
        && dev.replies == old(dev.replies)
        && dev.log == old(dev.log) + (if c.Ok? then [Written(c.value)] else [])
    {
      assert "WRSV" + "?" == "WRSV?";
      r := Reserve("WRSV", res);
    }

    /** `close_reserve(res)`: the reserve after the mixer, `CRSV`. */
    method CloseReserve(res: Option<string>) returns (r: Result<string>)
      modifies dev
      ensures res.None? ==>
        dev.log == old(dev.log) + [Queried("CRSV?")] && dev.replies == AfterReply(old(dev.replies)) &&
        r == ReserveOf(IntReply(old(dev.replies)))
      ensures res.Some? ==>
        var c := ReserveCommand("CRSV", res.value);
        && r == Err(NoActiveException)
        && dev.replies == old(dev.replies)
        && dev.log == old(dev.log) + (if c.Ok? then [Written(c.value)] else [])
    {
      assert "CRSV" + "?" == "CRSV?";
      r := Reserve("CRSV", res);
    }

    /** `set_timeconstant(tc)`: KeyError and nothing written for an unknown time constant. */
    method SetTimeconstant(tc: string) returns (r: Outcome)
      modifies dev
      ensures var c := TimeconstantCommand(tc);
        && (c.Err? ==> r == Fail(c.error) && dev.log == old(dev.log))
        && (c.Ok? ==> r == Pass && dev.log == old(dev.log) + [Written(c.value)])
      ensures dev.replies == old(dev.replies)
    {
      var c := TimeconstantCommand(tc);
      if c.Err? {
        return Fail(c.error);
      }
      dev.Write(c.value);
      r := Pass;
    }

    /** `get_timeconstant()`: the time constant of the code the device answers. */
    method GetTimeconstant() returns (r: Result<string>)
      modifies dev
      ensures dev.log == old(dev.log) + [Queried("OFLT?")] && dev.replies == AfterReply(old(dev.replies))
      ensures r == EntryOfReply(Tcs, IntReply(old(dev.replies)))
    {
      var code := dev.QueryInt("OFLT?");
      r := EntryOfReply(Tcs, code);
    }

    /** `set_sensitivity(sens)`: KeyError and nothing written for an unknown sensitivity. */
    method SetSensitivity(sens: string) returns (r: Outcome)
      modifies dev
      ensures var c := SensitivityCommand(sens);
        && (c.Err? ==> r == Fail(c.error) && dev.log == old(dev.log))
        && (c.Ok? ==> r == Pass && dev.log == old(dev.log) + [Written(c.value)])
      ensures dev.replies == old(dev.replies)
    {
      var c := SensitivityCommand(sens);
      if c.Err? {
        return Fail(c.error);
      }
      dev.Write(c.value);
      r := Pass;
    }

    /**
     * `auto_sens(maxval, do_set)`: the value of the best sensitivity for
     * `maxval`, which is written to the device only when `do_set` holds.
     */
    method AutoSens(maxval: real, doSet: bool) returns (value: real)
      modifies dev
      ensures value == CodeToValue(BestSens(maxval))
      ensures value > 1.5 * maxval || value == 1.0
      ensures doSet ==> dev.log == old(dev.log) + [Written(SensitivityCommand(BestSens(maxval)).value)]
      ensures !doSet ==> dev.log == old(dev.log)
      ensures dev.replies == old(dev.replies)
    {
      var sens := BestSens(maxval);
      if doSet {
        var written := SetSensitivity(sens);
      }
      value := CodeToValue(sens);
    }

    /**
     * `overloadp()`: the status is read, the device cleared, and the
     * result is whether any of the status's three low bits is set.
     */
    method Overloadp() returns (r: Result<bool>)
      modifies dev
      ensures dev.replies == AfterReply(old(dev.replies))
      ensures var s := IntReply(old(dev.replies));
        && (s.Err? ==> r == Err(s.error) && dev.log == old(dev.log) + [Queried("LIAS?")])
        && (s.Ok? ==> r == Ok(s.value % 8 != 0) && dev.log == old(dev.log) + [Queried("LIAS?"), Cleared])
    {
      var status := dev.QueryInt("LIAS?");
      if status.Err? {
        return Err(status.error);
      }
      dev.Clear();
      OverloadedIffLowBits(status.value);
      r := Ok(Overloaded(status.value));
    }
  }
}
