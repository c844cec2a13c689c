/**
 * What the SR830 and SR844 drivers share: front-panel code tables, their
 * dictionaries, the value of a code such as "10m", the choice of the best
 * sensitivity, and the overload bits of the status byte.  Each driver
 * defines these itself with its own tables; the model defines them once
 * over a table parameter.
 */
module Lockin {
  import opened Base
  import opened Text

  // ---------------------------------------------------------------------
  // Code tables and the dictionaries built from them
  // ---------------------------------------------------------------------

  /** A table with no entry twice. */
  predicate Distinct(t: seq<string>)
  {
    forall i, j :: 0 <= i < j < |t| ==> t[i] != t[j]
  }

  /** The first position of `key` in `t` (`t.index(key)`), if any. */
  function IndexOf(t: seq<string>, key: string): (r: Option<nat>)
    ensures r.None? <==> key !in t
    ensures r.Some? ==> r.value < |t| && t[r.value] == key && forall j :: 0 <= j < r.value ==> t[j] != key
  {
    if t == [] then None
    else if t[0] == key then Some(0)
    else
      assert t == [t[0]] + t[1..];
      match IndexOf(t[1..], key)
      case None => None
      case Some(i) => Some(i + 1)
  }

  /**
   * `{val: code for code, val in enumerate(t)}[key]`: the code of a
   * front-panel string, or KeyError.  With no entry twice, the position
   * of the key is its code.
   */
  function CodeOf(t: seq<string>, key: string): (r: Result<nat>)
    ensures r.Err? <==> key !in t
    ensures r.Err? ==> r.error == KeyErrorFor(key)
    ensures r.Ok? ==> r.value < |t| && t[r.value] == key
  {
    match IndexOf(t, key)
    case None => Err(KeyErrorFor(key))
    case Some(i) => Ok(i)
  }

  /** `{code: val for code, val in enumerate(t)}[code]`: the string of a code, or KeyError. */
  function EntryFor(t: seq<string>, code: int): (r: Result<string>)
    ensures r.Ok? <==> 0 <= code < |t|
    ensures r.Ok? ==> r.value == t[code]
    ensures r.Err? ==> r.error == Fault(KeyError, IntText(code))
  {
    if 0 <= code < |t| then Ok(t[code]) else Err(Fault(KeyError, IntText(code)))
  }

  /** `t[i]` on a Python list: a negative index counts from the end. */
  function ListIndex(t: seq<string>, i: int): (r: Result<string>)
    ensures r.Ok? <==> -|t| <= i < |t|
    ensures 0 <= i < |t| ==> r == Ok(t[i])
    ensures -|t| <= i < 0 ==> r == Ok(t[|t| + i])
  {
    if 0 <= i < |t| then Ok(t[i])
    else if -|t| <= i < 0 then Ok(t[|t| + i])
    else Err(Fault(IndexError, "list index out of range"))
  }

  /** `t[int(reply)]`: the string a get-method reads back for the code the device answers. */
  function EntryOfReply(t: seq<string>, code: Result<int>): Result<string>
  {
    match code
    case Err(e) => Err(e)
    case Ok(n) => ListIndex(t, n)
  }

  /** The two dictionaries of a table with no entry twice are inverse to each other. */
  lemma EnumerateInverse(t: seq<string>)
    requires Distinct(t)
    ensures forall i :: 0 <= i < |t| ==> CodeOf(t, t[i]) == Ok(i) && EntryFor(t, i) == Ok(t[i])
    ensures forall key :: CodeOf(t, key).Ok? ==> EntryFor(t, CodeOf(t, key).value) == Ok(key)
  {
    forall i | 0 <= i < |t|
      ensures CodeOf(t, t[i]) == Ok(i)
    {
      var c := CodeOf(t, t[i]);
      assert c.Ok? && t[c.value] == t[i];
    }
  }

  /**
   * `"HEAD {}".format(d[key])` with `d = {val: code for code, val in
   * enumerate(t)}`: the command a set-method writes, or the KeyError of a
   * key the table does not hold, before anything is written.
   */
  function TableCommand(head: string, t: seq<string>, key: string): (r: Result<string>)
    ensures r.Ok? <==> key in t
    ensures r.Err? ==> r.error == KeyErrorFor(key)
    ensures r.Ok? ==> exists c: nat :: c < |t| && t[c] == key && r.value == head + " " + IntText(c)
  {
    match CodeOf(t, key)
    case Err(e) => Err(e)
    case Ok(c) => Ok(head + " " + IntText(c))
  }

  /**
   * A set-method writes `HEAD <code of key>`; when the device answers the
   * get-method's query with that code, the get-method returns `key` again.
   */
  lemma TableRoundTrip(head: string, t: seq<string>, key: string)
    requires key in t
    ensures exists c: nat :: c < |t| && TableCommand(head, t, key) == Ok(head + " " + IntText(c)) &&
                             EntryOfReply(t, ParseInt(IntText(c))) == Ok(key)
  {
    var c := CodeOf(t, key).value;
    ParseIntText(c);
    assert TableCommand(head, t, key) == Ok(head + " " + IntText(c));
  }

  // ---------------------------------------------------------------------
  // The value of a code
  // ---------------------------------------------------------------------

  /** The unit suffixes of the `suffixes` dict. */
  predicate IsSuffix(c: char)
  {
    c == 'n' || c == 'u' || c == 'm' || c == 'k'
  }

  /** The multiplier of a suffix, exactly: 1e-9, 1e-6, 1e-3 or 1e3. */
  function Scale(c: char): (s: real)
    requires IsSuffix(c)
    ensures s > 0.0
  {
    match c
    case 'n' => 0.000_000_001
    case 'u' => 0.000_001
    case 'm' => 0.001
    case 'k' => 1000.0
  }

  /** A code `code_to_value` can read: decimal digits, then an optional suffix. */
  predicate IsCode(code: string)
  {
    && |code| >= 1
    && if IsSuffix(code[|code| - 1]) then |code| >= 2 && AllDigits(code[..|code| - 1]) else AllDigits(code)
  }

  predicate AllCodes(t: seq<string>)
  {
    forall i :: 0 <= i < |t| ==> IsCode(t[i])
  }

  /**
   * `code_to_value(code)`: the number before a suffix times the suffix's
   * multiplier, or the number itself; as an exact value, not a float.
   */
  function CodeToValue(code: string): (v: real)
    requires IsCode(code)
    ensures v >= 0.0
  {
    var last := code[|code| - 1];
    if IsSuffix(last) then DigitsValue(code[..|code| - 1]) as real * Scale(last)
    else DigitsValue(code) as real
  }

  /** The value of a plain number code is that number. */
  lemma PlainCodeValue(d: nat)
    ensures IsCode(DecimalText(d)) && CodeToValue(DecimalText(d)) == d as real
  {
    var digits := DecimalText(d);
    assert !IsSuffix(digits[|digits| - 1]);
    DecimalRoundTrip(d);
  }

  /** The value of a code written from a number and a unit is that number times the unit. */
  lemma ScaledCodeValue(d: nat, unit: char)
    requires IsSuffix(unit)
    ensures IsCode(DecimalText(d) + [unit]) && CodeToValue(DecimalText(d) + [unit]) == d as real * Scale(unit)
  {
    var digits := DecimalText(d);
    var code := digits + [unit];
    assert code[|code| - 1] == unit;
    assert code[..|code| - 1] == digits;
    DecimalRoundTrip(d);
    assert DigitsValue(code[..|code| - 1]) == d;
  }

  // ---------------------------------------------------------------------
  // The best sensitivity
  // ---------------------------------------------------------------------

  /** The position of the first code whose value exceeds `1.5 * v`, if any. */
  function FirstAbove(t: seq<string>, v: real): (r: Option<nat>)
    requires AllCodes(t)
    ensures r.Some? ==> r.value < |t| && CodeToValue(t[r.value]) > 1.5 * v
    ensures r.Some? ==> forall j :: 0 <= j < r.value ==> CodeToValue(t[j]) <= 1.5 * v
    ensures r.None? ==> forall j :: 0 <= j < |t| ==> CodeToValue(t[j]) <= 1.5 * v
  {
    if t == [] then None
    else if CodeToValue(t[0]) > 1.5 * v then Some(0)
    else
      match FirstAbove(t[1..], v)
      case None =>
        assert forall j :: 1 <= j < |t| ==> t[j] == t[1..][j - 1];
        None
      case Some(i) =>
        assert forall j :: 1 <= j <= i + 1 ==> t[j] == t[1..][j - 1];
        Some(i + 1)
  }

  /**
   * `find_best_sens(val)` over the sensitivity table `t`: the first code
   * whose value exceeds one and a half times `val`, and "1" when none does.
   */
  function FindBestSens(t: seq<string>, v: real): (r: string)
    requires AllCodes(t)
    ensures IsCode(r)
    ensures "1" in t ==> r in t
    ensures CodeToValue(r) > 1.5 * v || (r == "1" && forall j :: 0 <= j < |t| ==> CodeToValue(t[j]) <= 1.5 * v)
    ensures forall j :: 0 <= j < |t| && CodeToValue(t[j]) > 1.5 * v ==> exists i :: 0 <= i <= j && t[i] == r
  {
    match FirstAbove(t, v)
    case Some(i) => t[i]
    case None => "1"
  }

  /** A table whose values grow from each entry to the next. */
  predicate Ascending(t: seq<string>)
    requires AllCodes(t)
  {
    forall i :: 0 <= i < |t| - 1 ==> CodeToValue(t[i]) < CodeToValue(t[i + 1])
  }

  lemma {:induction false} AscendingFrom(t: seq<string>, i: nat, j: nat)
    requires AllCodes(t) && Ascending(t) && i <= j < |t|
    ensures CodeToValue(t[i]) <= CodeToValue(t[j])
    decreases j - i
  {
    if i < j {
      AscendingFrom(t, i + 1, j);
    }
  }

  /** A table whose values grow from each entry to the next holds no entry twice. */
  lemma AscendingDistinct(t: seq<string>)
    requires AllCodes(t) && Ascending(t)
    ensures Distinct(t)
  {
    forall i, j | 0 <= i < j < |t|
      ensures t[i] != t[j]
    {
      AscendingFrom(t, i + 1, j);
    }
  }

  /**
   * On an ascending table the best sensitivity is the smallest that
   * exceeds one and a half times `val`: no code that exceeds it is smaller.
   */
  lemma BestIsSmallest(t: seq<string>, v: real)
    requires AllCodes(t) && Ascending(t)
    ensures forall j :: 0 <= j < |t| && CodeToValue(t[j]) > 1.5 * v ==> CodeToValue(FindBestSens(t, v)) <= CodeToValue(t[j])
  {
    var r := FirstAbove(t, v);
    forall j | 0 <= j < |t| && CodeToValue(t[j]) > 1.5 * v
      ensures CodeToValue(FindBestSens(t, v)) <= CodeToValue(t[j])
    {
      assert r.Some? && r.value <= j;
      AscendingFrom(t, r.value, j);
    }
  }

  /**
   * What `find_best_sens` promises of its choice `r` on the table `t`: an
   * entry of the table that exceeds one and a half times `v`, or "1" when
   * none does, and no entry exceeding `1.5 * v` is smaller.
   */
  predicate BestFor(t: seq<string>, v: real, r: string)
    requires AllCodes(t)
  {
    && r in t && IsCode(r)
    && (CodeToValue(r) > 1.5 * v || r == "1")
    && forall j :: 0 <= j < |t| && CodeToValue(t[j]) > 1.5 * v ==> CodeToValue(r) <= CodeToValue(t[j])
  }

  /** On an ascending table holding "1", `find_best_sens` makes the best choice. */
  lemma BestInTable(t: seq<string>, v: real)
    requires AllCodes(t) && Ascending(t) && "1" in t
    ensures BestFor(t, v, FindBestSens(t, v))
  {
    BestIsSmallest(t, v);
  }

  // ---------------------------------------------------------------------
  // The status byte
  // ---------------------------------------------------------------------

  /** `bool(status & (1 << k))` for k = 0, 1, 2, two's complement for a negative status. */
  predicate Bit(status: int, k: nat)
    requires k < 3
  {
    (status / (if k == 0 then 1 else if k == 1 then 2 else 4)) % 2 == 1
  }

  /** `overloadp`: the input, the filter or the output overloads. */
  predicate Overloaded(status: int)
  {
    Bit(status, 0) || Bit(status, 1) || Bit(status, 2)
  }

  /** The overload report is set exactly when the status's three low bits are not all clear. */
  lemma OverloadedIffLowBits(status: int)
    ensures Overloaded(status) <==> status % 8 != 0
  {
    var q := status / 8;
    var low := status % 8;
    assert status == 8 * q + low && 0 <= low < 8;
    assert status / 2 == 4 * q + low / 2;
    assert status / 4 == 2 * q + low / 4;
    assert (status / 2) % 2 == (low / 2) % 2;
    assert (status / 4) % 2 == (low / 4) % 2;
    assert status % 2 == low % 2;
  }
}
