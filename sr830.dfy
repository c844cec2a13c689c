/**
 * The Stanford SR830 lock-in driver, SR830.py: its front-panel code
 * tables, the automatic choice of sensitivity, the overload report, the
 * display selection and the range checks made before anything is written.
 */
module Sr830 {
  import opened Base
  import opened Text
  import opened Lockin
  import opened Device

  // ---------------------------------------------------------------------
  // Tables
  // ---------------------------------------------------------------------

  /** `tcs`: the time constants; the position of each is its `OFLT` code. */
  const Tcs: seq<string> := ["10u", "30u", "100u", "300u",
                             "1m", "3m", "10m", "30m", "100m", "300m",
                             "1", "3", "10", "30", "100", "300",
                             "1k", "3k", "10k", "30k"]

  /** `senss`: the sensitivities; the position of each is its `SENS` code. */
  const Senss: seq<string> := ["2n", "5n", "10n", "20n", "50n", "100n", "200n", "500n",
                               "1u", "2u", "5u", "10u", "20u", "50u", "100u", "200u", "500u",
                               "1m", "2m", "5m", "10m", "20m", "50m", "100m", "200m", "500m",
                               "1"]

  /** `fslps`: the low-pass filter slopes in dB per octave. */
  const Fslps: seq<string> := ["6", "12", "18", "24"]

  /** The keys of `sample_rates`, whose codes are their positions 0 to 14. */
  const SampleRates: seq<string> := ["62.5mHz", "125mHz", "250mHz", "500mHz", "1Hz", "2Hz", "4Hz",
                                     "8Hz", "16Hz", "32Hz", "64Hz", "128Hz", "256Hz", "512Hz",
                                     "Trigger"]

  /** What channel 1 and channel 2 can display. */
  const XDisplay: seq<string> := ["X", "R", "X noise", "AUX in 1", "AUX in 2"]
  const YDisplay: seq<string> := ["Y", "Theta", "Y noise", "AUX in 3", "AUX in 4"]

  /** The largest buffer `buffer_shot` accepts. */
  const MaxBufferPoints := 16383

  lemma TablesDistinct()
    ensures Distinct(Tcs) && Distinct(Senss) && Distinct(Fslps) && Distinct(SampleRates)
    ensures Distinct(XDisplay) && Distinct(YDisplay)
  {
    TcsDistinct();
    SenssDistinct();
    SampleRatesDistinct();
  }

  lemma TcsDistinct()
    ensures Distinct(Tcs)
  {
    TimeConstantsAscending();
    AscendingDistinct(Tcs);
  }

  lemma SenssDistinct()
    ensures Distinct(Senss)
  {
    SensitivitiesAscending();
    AscendingDistinct(Senss);
  }

  lemma SampleRatesDistinct()
    ensures Distinct(SampleRates)
  {
  }

  lemma SensitivitiesAreCodes()
    ensures AllCodes(Senss)
  {
  }

  /** The value of each sensitivity, in volts. */
  lemma SensitivityValues0()
    ensures IsCode(Senss[0]) && CodeToValue(Senss[0]) == 0.000000002
    ensures IsCode(Senss[1]) && CodeToValue(Senss[1]) == 0.000000005
    ensures IsCode(Senss[2]) && CodeToValue(Senss[2]) == 0.00000001
  {
    assert "2n"[..1] == "2";
    assert "2"[..0] == "";
    assert "5n"[..1] == "5";
    assert "5"[..0] == "";
    assert "10n"[..2] == "10";
    assert "10"[..1] == "1";
    assert "1"[..0] == "";
  }

  lemma SensitivityValues1()
    ensures IsCode(Senss[3]) && CodeToValue(Senss[3]) == 0.00000002
    ensures IsCode(Senss[4]) && CodeToValue(Senss[4]) == 0.00000005
    ensures IsCode(Senss[5]) && CodeToValue(Senss[5]) == 0.0000001
  {
    assert "20n"[..2] == "20";
    assert "20"[..1] == "2";
    assert "2"[..0] == "";
    assert "50n"[..2] == "50";
    assert "50"[..1] == "5";
    assert "5"[..0] == "";
    assert "100n"[..3] == "100";
    assert "100"[..2] == "10";
    assert "10"[..1] == "1";
    assert "1"[..0] == "";
  }

  lemma SensitivityValues2()
    ensures IsCode(Senss[6]) && CodeToValue(Senss[6]) == 0.0000002
    ensures IsCode(Senss[7]) && CodeToValue(Senss[7]) == 0.0000005
    ensures IsCode(Senss[8]) && CodeToValue(Senss[8]) == 0.000001
  {
    assert "200n"[..3] == "200";
    assert "200"[..2] == "20";
    assert "20"[..1] == "2";
    assert "2"[..0] == "";
    assert "500n"[..3] == "500";
    assert "500"[..2] == "50";
    assert "50"[..1] == "5";
    assert "5"[..0] == "";
    assert "1u"[..1] == "1";
    assert "1"[..0] == "";
  }

  lemma SensitivityValues3()
    ensures IsCode(Senss[9]) && CodeToValue(Senss[9]) == 0.000002
    ensures IsCode(Senss[10]) && CodeToValue(Senss[10]) == 0.000005
    ensures IsCode(Senss[11]) && CodeToValue(Senss[11]) == 0.00001
  {
    assert "2u"[..1] == "2";
    assert "2"[..0] == "";
    assert "5u"[..1] == "5";
    assert "5"[..0] == "";
    assert "10u"[..2] == "10";
    assert "10"[..1] == "1";
    assert "1"[..0] == "";
  }

  lemma SensitivityValues4()
    ensures IsCode(Senss[12]) && CodeToValue(Senss[12]) == 0.00002
    ensures IsCode(Senss[13]) && CodeToValue(Senss[13]) == 0.00005
    ensures IsCode(Senss[14]) && CodeToValue(Senss[14]) == 0.0001
  {
    assert "20u"[..2] == "20";
    assert "20"[..1] == "2";
    assert "2"[..0] == "";
    assert "50u"[..2] == "50";
    assert "50"[..1] == "5";
    assert "5"[..0] == "";
    assert "100u"[..3] == "100";
    assert "100"[..2] == "10";
    assert "10"[..1] == "1";
    assert "1"[..0] == "";
  }

  lemma SensitivityValues5()
    ensures IsCode(Senss[15]) && CodeToValue(Senss[15]) == 0.0002
    ensures IsCode(Senss[16]) && CodeToValue(Senss[16]) == 0.0005
    ensures IsCode(Senss[17]) && CodeToValue(Senss[17]) == 0.001
  {
    assert "200u"[..3] == "200";
    assert "200"[..2] == "20";
    assert "20"[..1] == "2";
    assert "2"[..0] == "";
    assert "500u"[..3] == "500";
    assert "500"[..2] == "50";
    assert "50"[..1] == "5";
    assert "5"[..0] == "";
    assert "1m"[..1] == "1";
    assert "1"[..0] == "";
  }

  lemma SensitivityValues6()
    ensures IsCode(Senss[18]) && CodeToValue(Senss[18]) == 0.002
    ensures IsCode(Senss[19]) && CodeToValue(Senss[19]) == 0.005
    ensures IsCode(Senss[20]) && CodeToValue(Senss[20]) == 0.01
  {
    assert "2m"[..1] == "2";
    assert "2"[..0] == "";
    assert "5m"[..1] == "5";
    assert "5"[..0] == "";
    assert "10m"[..2] == "10";
    assert "10"[..1] == "1";
    assert "1"[..0] == "";
  }

  lemma SensitivityValues7()
    ensures IsCode(Senss[21]) && CodeToValue(Senss[21]) == 0.02
    ensures IsCode(Senss[22]) && CodeToValue(Senss[22]) == 0.05
    ensures IsCode(Senss[23]) && CodeToValue(Senss[23]) == 0.1
  {
    assert "20m"[..2] == "20";
    assert "20"[..1] == "2";
    assert "2"[..0] == "";
    assert "50m"[..2] == "50";
    assert "50"[..1] == "5";
    assert "5"[..0] == "";
    assert "100m"[..3] == "100";
    assert "100"[..2] == "10";
    assert "10"[..1] == "1";
    assert "1"[..0] == "";
  }

  lemma SensitivityValues8()
    ensures IsCode(Senss[24]) && CodeToValue(Senss[24]) == 0.2
    ensures IsCode(Senss[25]) && CodeToValue(Senss[25]) == 0.5
    ensures IsCode(Senss[26]) && CodeToValue(Senss[26]) == 1.0
  {
    assert "200m"[..3] == "200";
    assert "200"[..2] == "20";
    assert "20"[..1] == "2";
    assert "2"[..0] == "";
    assert "500m"[..3] == "500";
    assert "500"[..2] == "50";
    assert "50"[..1] == "5";
    assert "5"[..0] == "";
    assert "1"[..0] == "";
  }

  /** Every sensitivity is larger than the one before it. */
  lemma SensitivitiesAscending()
    ensures AllCodes(Senss) && Ascending(Senss)
  {
    SensitivitiesAreCodes();
    SensitivityValues0();
    SensitivityValues1();
    SensitivityValues2();
    SensitivityValues3();
    SensitivityValues4();
    SensitivityValues5();
    SensitivityValues6();
    SensitivityValues7();
    SensitivityValues8();
  }

  lemma TimeConstantsAreCodes()
    ensures AllCodes(Tcs)
  {
  }

  /** The value of each time constant, in seconds. */
  lemma TimeConstantValues0()
    ensures IsCode(Tcs[0]) && CodeToValue(Tcs[0]) == 0.00001
    ensures IsCode(Tcs[1]) && CodeToValue(Tcs[1]) == 0.00003
    ensures IsCode(Tcs[2]) && CodeToValue(Tcs[2]) == 0.0001
  {
    assert "10u"[..2] == "10";
    assert "10"[..1] == "1";
    assert "1"[..0] == "";
    assert "30u"[..2] == "30";
    assert "30"[..1] == "3";
    assert "3"[..0] == "";
    assert "100u"[..3] == "100";
    assert "100"[..2] == "10";
  }

  lemma TimeConstantValues1()
    ensures IsCode(Tcs[3]) && CodeToValue(Tcs[3]) == 0.0003
    ensures IsCode(Tcs[4]) && CodeToValue(Tcs[4]) == 0.001
    ensures IsCode(Tcs[5]) && CodeToValue(Tcs[5]) == 0.003
  {
    assert "300u"[..3] == "300";
    assert "300"[..2] == "30";
    assert "30"[..1] == "3";
    assert "3"[..0] == "";
    assert "1m"[..1] == "1";
    assert "1"[..0] == "";
    assert "3m"[..1] == "3";
  }

  lemma TimeConstantValues2()
    ensures IsCode(Tcs[6]) && CodeToValue(Tcs[6]) == 0.01
    ensures IsCode(Tcs[7]) && CodeToValue(Tcs[7]) == 0.03
    ensures IsCode(Tcs[8]) && CodeToValue(Tcs[8]) == 0.1
  {
    assert "10m"[..2] == "10";
    assert "10"[..1] == "1";
    assert "1"[..0] == "";
    assert "30m"[..2] == "30";
    assert "30"[..1] == "3";
    assert "3"[..0] == "";
    assert "100m"[..3] == "100";
    assert "100"[..2] == "10";
  }

  lemma TimeConstantValues3()
    ensures IsCode(Tcs[9]) && CodeToValue(Tcs[9]) == 0.3
    ensures IsCode(Tcs[10]) && CodeToValue(Tcs[10]) == 1.0
    ensures IsCode(Tcs[11]) && CodeToValue(Tcs[11]) == 3.0
  {
    assert "300m"[..3] == "300";
    assert "300"[..2] == "30";
    assert "30"[..1] == "3";
    assert "3"[..0] == "";
    assert "1"[..0] == "";
  }

  lemma TimeConstantValues4()
    ensures IsCode(Tcs[12]) && CodeToValue(Tcs[12]) == 10.0
    ensures IsCode(Tcs[13]) && CodeToValue(Tcs[13]) == 30.0
    ensures IsCode(Tcs[14]) && CodeToValue(Tcs[14]) == 100.0
  {
    assert "10"[..1] == "1";
    assert "1"[..0] == "";
    assert "30"[..1] == "3";
    assert "3"[..0] == "";
    assert "100"[..2] == "10";
  }

  lemma TimeConstantValues5()
    ensures IsCode(Tcs[15]) && CodeToValue(Tcs[15]) == 300.0
    ensures IsCode(Tcs[16]) && CodeToValue(Tcs[16]) == 1000.0
    ensures IsCode(Tcs[17]) && CodeToValue(Tcs[17]) == 3000.0
  {
    assert "300"[..2] == "30";
    assert "30"[..1] == "3";
    assert "3"[..0] == "";
    assert "1k"[..1] == "1";
    assert "1"[..0] == "";
    assert "3k"[..1] == "3";
  }

  lemma TimeConstantValues6()
    ensures IsCode(Tcs[18]) && CodeToValue(Tcs[18]) == 10000.0
    ensures IsCode(Tcs[19]) && CodeToValue(Tcs[19]) == 30000.0
  {
    assert "10k"[..2] == "10";
    assert "10"[..1] == "1";
    assert "1"[..0] == "";
    assert "30k"[..2] == "30";
    assert "30"[..1] == "3";
    assert "3"[..0] == "";
  }

  /** Every time constant is longer than the one before it, from 10 µs up to 30 ks. */
  lemma TimeConstantsAscending()
    ensures AllCodes(Tcs) && Ascending(Tcs)
  {
    TimeConstantsAreCodes();
    TimeConstantValues0();
    TimeConstantValues1();
    TimeConstantValues2();
    TimeConstantValues3();
    TimeConstantValues4();
    TimeConstantValues5();
    TimeConstantValues6();
  }

  // ---------------------------------------------------------------------
  // Commands and replies
  // ---------------------------------------------------------------------

  /** `"OFLT {}".format(time_constants[tc])`, or KeyError for an unknown time constant. */
  function TimeconstantCommand(tc: string): Result<string>
  {
    TableCommand("OFLT", Tcs, tc)
  }

  /** `"SENS {}".format(sensitivities[sens])`, or KeyError for an unknown sensitivity. */
  function SensitivityCommand(sens: string): Result<string>
  {
    TableCommand("SENS", Senss, sens)
  }

  /** `"OFSL {}".format(lpfslopes[slope])`, or KeyError for an unknown slope. */
  function SlopeCommand(slope: string): Result<string>
  {
    TableCommand("OFSL", Fslps, slope)
  }

  /**
   * `find_best_sens(val)`: the smallest sensitivity above one and a half
   * times `val`, or "1", the largest, when none is.
   */
  function BestSens(v: real): (r: string)
    ensures AllCodes(Senss) && BestFor(Senss, v, r)
  {
    SensitivitiesAscending();
    assert Senss[26] == "1";
    BestInTable(Senss, v);
    FindBestSens(Senss, v)
  }

  /** The range `phase` accepts, in degrees. */
  predicate PhaseInRange(phi: real)
  {
    phi <= 729.99 && phi >= -360.0
  }

  /** The error `phase` raises outside the range; the rendering of the rejected value is not modelled. */
  const PhaseOutOfRange := Fault(RuntimeError, "\"phi\" needs to be a number between -360 and 729.99 or \"None\"")

  const AuxLimitExceeded := Fault(RuntimeError, "Set voltage exceeds lockin limit 10.5 V")

  /**
   * The only error `set_display` lets out: whatever went wrong, it names
   * the display.  The repr of a message holding single quotes is in
   * double quotes.
   */
  function InvalidDisplay(display: string): Fault
  {
    Fault(KeyError, "\"Invalid value '" + display + "' of 'display'\"")
  }

  /**
   * `set_display(channel, display)`: `DDEF channel, i, 0` with `i` the
   * display's position in the channel's list; any other channel, or a
   * display the channel does not offer, is KeyError.
   */
  function DisplayCommand(channel: int, display: string): (r: Result<string>)
    ensures r.Ok? <==> (channel == 1 && display in XDisplay) || (channel == 2 && display in YDisplay)
    ensures r.Err? ==> r.error == InvalidDisplay(display)
  {
    var table := if channel == 1 then XDisplay else YDisplay;
    if channel != 1 && channel != 2 then Err(InvalidDisplay(display))
    else
      match IndexOf(table, display)
      case None => Err(InvalidDisplay(display))
      case Some(i) => Ok("DDEF " + IntText(channel) + ", " + IntText(i) + ", 0")
  }

  /** `get_display`'s reading of a `DDEF?` reply: the display named by its first character. */
  function DisplayOf(table: seq<string>, reply: string): Result<string>
  {
    if reply == [] then Err(Fault(IndexError, "string index out of range"))
    else EntryOfReply(table, ParseInt([reply[0]]))
  }

  /**
   * When the device answers `DDEF?` on a channel with the display index
   * `set_display` wrote there, `get_display` reads back the display that
   * was set: channel 1 over the x displays, channel 2 over the y displays.
   */
  lemma DisplayRoundTrip(channel: int, display: string, i: nat, rest: string)
    requires channel == 1 || channel == 2
    requires var table := if channel == 1 then XDisplay else YDisplay;
      i < |table| && table[i] == display
    ensures DisplayCommand(channel, display) == Ok("DDEF " + IntText(channel) + ", " + IntText(i) + ", 0")
    ensures DisplayOf(if channel == 1 then XDisplay else YDisplay, IntText(i) + rest) == Ok(display)
  {
    var table := if channel == 1 then XDisplay else YDisplay;
    TablesDistinct();
    assert IndexOf(table, display) == Some(i);
    ParseIntText(i);
    assert IntText(i) == [DigitChar(i)];
    assert (IntText(i) + rest)[0] == DigitChar(i);
  }

  /** `buffer_shot`'s errors: an unknown sample rate, and too many points. */
  const InvalidSampleRate := KeyErrorFor("Invalid sample rate")
  const TooManyPoints := Fault(Foreign("Exception"), "Maximum number of measured points (16383) exceeded!")

  /** Four single writes append the four entries in order. */
  lemma LogOfFour(log: seq<Io>, a: Io, b: Io, c: Io, d: Io)
    ensures log + [a] + [b] + [c] + [d] == log + [a, b, c, d]
  {
  }

  // ---------------------------------------------------------------------
  // The driver
  // ---------------------------------------------------------------------

  /** `SR830(rm, address)`: a driver over one VISA device. */
  class Sr830Driver {
    const dev: VisaDevice

    constructor (dev: VisaDevice)
      ensures this.dev == dev
    {
      this.dev := dev;
    }

    /**
     * `phase(phi)`: out of range raises before anything is written;
     * otherwise `PHAS phi` when a phase is given, then `PHAS?` in any case,
     * whose reply is returned.
     */
    method Phase(phi: Option<real>) returns (r: Result<string>)
      modifies dev
      ensures phi.Some? && !PhaseInRange(phi.value) ==>
        r == Err(PhaseOutOfRange) && dev.log == old(dev.log) && dev.replies == old(dev.replies)
      ensures phi.None? ==>
        dev.log == old(dev.log) + [Queried("PHAS?")] &&
        r == NextReply(old(dev.replies)) && dev.replies == AfterReply(old(dev.replies))
      ensures phi.Some? && PhaseInRange(phi.value) ==>
        dev.log == old(dev.log) + [WrittenValue("PHAS", phi.value), Queried("PHAS?")] &&
        r == NextReply(old(dev.replies)) && dev.replies == AfterReply(old(dev.replies))
    {
      if phi.Some? {
        if !PhaseInRange(phi.value) {
          return Err(PhaseOutOfRange);
        }
        dev.WriteValue("PHAS", phi.value);
      }
      r := dev.Query("PHAS?");
    }

    /** `set_aux(n, U)`: `AUXV n, U` for `|U| <= 10.5`, RuntimeError and nothing written above. */
    method SetAux(n: int, u: real) returns (r: Outcome)
      modifies dev
      ensures (u > 10.5 || u < -10.5) ==> r == Fail(AuxLimitExceeded) && dev.log == old(dev.log)
      ensures -10.5 <= u <= 10.5 ==> r == Pass && dev.log == old(dev.log) + [WrittenValue("AUXV " + IntText(n) + ",", u)]
      ensures dev.replies == old(dev.replies)
    {
      var magnitude := if u < 0.0 then -u else u;
      if magnitude > 10.5 {
        return Fail(AuxLimitExceeded);
      }
      dev.WriteValue("AUXV " + IntText(n) + ",", u);
      r := Pass;
    }

    /** `set_timeconstant(tc)`: KeyError and nothing written for an unknown time constant. */
    method SetTimeconstant(tc: string) returns (r: Outcome)
      modifies dev
      ensures var c := TimeconstantCommand(tc);
        && (c.Err? ==> r == Fail(c.error) && dev.log == old(dev.log))
        && (c.Ok? ==> r == Pass && dev.log == old(dev.log) + [Written(c.value)])
      ensures dev.replies == old(dev.replies)
    {
      var c := TimeconstantCommand(tc);
      if c.Err? {
        return Fail(c.error);
      }
      dev.Write(c.value);
      r := Pass;
    }

    /** `get_timeconstant()`: the time constant of the code the device answers. */
    method GetTimeconstant() returns (r: Result<string>)
      modifies dev
      ensures dev.log == old(dev.log) + [Queried("OFLT?")] && dev.replies == AfterReply(old(dev.replies))
      ensures r == EntryOfReply(Tcs, IntReply(old(dev.replies)))
    {
      var code := dev.QueryInt("OFLT?");
      r := EntryOfReply(Tcs, code);
    }

    /** `set_sensitivity(sens)`: KeyError and nothing written for an unknown sensitivity. */
    method SetSensitivity(sens: string) returns (r: Outcome)
      modifies dev
      ensures var c := SensitivityCommand(sens);
        && (c.Err? ==> r == Fail(c.error) && dev.log == old(dev.log))
        && (c.Ok? ==> r == Pass && dev.log == old(dev.log) + [Written(c.value)])
      ensures dev.replies == old(dev.replies)
    {
      var c := SensitivityCommand(sens);
      if c.Err? {
        return Fail(c.error);
      }
      dev.Write(c.value);
      r := Pass;
    }

    /** `set_slope(slope)`: KeyError and nothing written for an unknown slope. */
    method SetSlope(slope: string) returns (r: Outcome)
      modifies dev
      ensures var c := SlopeCommand(slope);
        && (c.Err? ==> r == Fail(c.error) && dev.log == old(dev.log))
        && (c.Ok? ==> r == Pass && dev.log == old(dev.log) + [Written(c.value)])
      ensures dev.replies == old(dev.replies)
    {
      var c := SlopeCommand(slope);
      if c.Err? {
        return Fail(c.error);
      }
      dev.Write(c.value);
      r := Pass;
    }

    /** `get_slope()`: the slope of the code the device answers. */
    method GetSlope() returns (r: Result<string>)
      modifies dev
      ensures dev.log == old(dev.log) + [Queried("OFSL?")] && dev.replies == AfterReply(old(dev.replies))
      ensures r == EntryOfReply(Fslps, IntReply(old(dev.replies)))
    {
      var code := dev.QueryInt("OFSL?");
      r := EntryOfReply(Fslps, code);
    }

    /**
     * `auto_sens(maxval, do_set)`: the value of the best sensitivity for
     * `maxval`, which is written to the device only when `do_set` holds.
     */
    method AutoSens(maxval: real, doSet: bool) returns (value: real)
      modifies dev
      ensures value == CodeToValue(BestSens(maxval))
      ensures value > 1.5 * maxval || value == 1.0
      ensures doSet ==> dev.log == old(dev.log) + [Written(SensitivityCommand(BestSens(maxval)).value)]
      ensures !doSet ==> dev.log == old(dev.log)
      ensures dev.replies == old(dev.replies)
    {
      var sens := BestSens(maxval);
      if doSet {
        var written := SetSensitivity(sens);
      }
      value := CodeToValue(sens);
    }

    /**
     * `overloadp()`: the status is read, the device cleared, and the
     * result is whether any of the status's three low bits is set.
     */
    method Overloadp() returns (r: Result<bool>)
      modifies dev
      ensures dev.replies == AfterReply(old(dev.replies))
      ensures var s := IntReply(old(dev.replies));
        && (s.Err? ==> r == Err(s.error) && dev.log == old(dev.log) + [Queried("LIAS?")])
        && (s.Ok? ==> r == Ok(s.value % 8 != 0) && dev.log == old(dev.log) + [Queried("LIAS?"), Cleared])
    {
      var status := dev.QueryInt("LIAS?");
      if status.Err? {
        return Err(status.error);
      }
      dev.Clear();
      OverloadedIffLowBits(status.value);
      r := Ok(Overloaded(status.value));
    }

    /** `set_display(channel, display)`: nothing is written unless the channel offers the display. */
    method SetDisplay(channel: int, display: string) returns (r: Outcome)
      modifies dev
      ensures var c := DisplayCommand(channel, display);
        && (c.Err? ==> r == Fail(c.error) && dev.log == old(dev.log))
        && (c.Ok? ==> r == Pass && dev.log == old(dev.log) + [Written(c.value)])
      ensures dev.replies == old(dev.replies)
    {
      var c := DisplayCommand(channel, display);
      if c.Err? {
        return Fail(c.error);
      }
      dev.Write(c.value);
      r := Pass;
    }

    /** `get_display()`: what channels 1 and 2 display, read from the first character of each reply. */
    method GetDisplay() returns (r: Result<(string, string)>)
      modifies dev
      ensures |old(dev.replies)| >= 2 ==>
        dev.log == old(dev.log) + [Queried("DDEF? 1"), Queried("DDEF? 2")] &&
        var x := DisplayOf(XDisplay, old(dev.replies)[0]);
        var y := DisplayOf(YDisplay, old(dev.replies)[1]);
        r == if x.Err? then Err(x.error) else if y.Err? then Err(y.error) else Ok((x.value, y.value))
      ensures |old(dev.replies)| < 2 ==>
        r == Err(Timeout) && dev.replies == [] &&
        dev.log == old(dev.log) + if old(dev.replies) == [] then [Queried("DDEF? 1")] else [Queried("DDEF? 1"), Queried("DDEF? 2")]
      ensures |old(dev.replies)| >= 2 ==> dev.replies == old(dev.replies)[2..]
    {
      var d1 := dev.Query("DDEF? 1");
      if d1.Err? {
        return Err(d1.error);
      }
      var d2 := dev.Query("DDEF? 2");
      if d2.Err? {
        return Err(d2.error);
      }
      var x := DisplayOf(XDisplay, d1.value);
      if x.Err? {
        return Err(x.error);
      }
      var y := DisplayOf(YDisplay, d2.value);
      if y.Err? {
        return Err(y.error);
      }
      r := Ok((x.value, y.value));
    }

    /**
     * The start of `buffer_shot(sample_rate, N)`: an unknown sample rate
     * raises before anything is written; the rate is written before the
     * number of points is checked; then the buffer is paused, reset and
     * started.
     */
    method BufferShotStart(sampleRate: string, n: int) returns (r: Outcome)
      modifies dev
      ensures var i := CodeOf(SampleRates, sampleRate);
        && (i.Err? ==> r == Fail(InvalidSampleRate) && dev.log == old(dev.log))
        && (i.Ok? && n > MaxBufferPoints ==>
              r == Fail(TooManyPoints) && dev.log == old(dev.log) + [Written("SRAT " + IntText(i.value))])
        && (i.Ok? && n <= MaxBufferPoints ==>
              r == Pass && dev.log == old(dev.log) + [Written("SRAT " + IntText(i.value)), Written("PAUS"), Written("REST"), Written("STRT")])
      ensures dev.replies == old(dev.replies)
    {
      var i := CodeOf(SampleRates, sampleRate);
      if i.Err? {
        return Fail(InvalidSampleRate);
      }
      ghost var before := dev.log;
      var srat := Written("SRAT " + IntText(i.value));
      dev.Write("SRAT " + IntText(i.value));
      if n > MaxBufferPoints {
        return Fail(TooManyPoints);
      }
      dev.Write("PAUS");
      dev.Write("REST");
      dev.Write("STRT");
      LogOfFour(before, srat, Written("PAUS"), Written("REST"), Written("STRT"));
      r := Pass;
    }
  }
}
