/**
 * The pieces of Python's text handling that the broker's wire protocol and
 * the instrument wrappers rely on: `str.split(sep)` and `sep.join(...)`
 * with a one-character separator, `str.upper()`, `str(n)` and `int(s)`
 * for decimal integers, and `bytes.hex()` / `bytes.fromhex(s)`.
 */
module Text {
  import opened Base

  // ---------------------------------------------------------------------
  // split / join
  // ---------------------------------------------------------------------

  /** `sep.join(parts)`. */
  function Join(parts: seq<string>, sep: char): string
  {
    if parts == [] then ""
    else if |parts| == 1 then parts[0]
    else parts[0] + [sep] + Join(parts[1..], sep)
  }

  /**
   * `s.split(sep)`: cuts at every occurrence of `sep`, so two adjacent
   * separators give an empty piece and the empty string gives `['']`.
   * Joining the pieces again gives back `s`.
   */
  function Split(s: string, sep: char): (r: seq<string>)
    ensures |r| >= 1
    ensures forall i :: 0 <= i < |r| ==> sep !in r[i]
    ensures Join(r, sep) == s
  {
    if s == [] then [""]
    else
      var rest := Split(s[1..], sep);
      if s[0] == sep then
        [""] + rest
      else
        assert s == [s[0]] + s[1..];
        [[s[0]] + rest[0]] + rest[1..]
  }

  /** A word without the separator is not cut. */
  lemma {:induction false} SplitWord(a: string, sep: char)
    requires sep !in a
    ensures Split(a, sep) == [a]
  {
    if a != [] {
      SplitWord(a[1..], sep);
    }
  }

  /** A separator-free word followed by the separator is split off as the first piece. */
  lemma {:induction false} SplitAfterWord(a: string, sep: char, b: string)
    requires sep !in a
    ensures Split(a + [sep] + b, sep) == [a] + Split(b, sep)
  {
    if a == [] {
      assert a + [sep] + b == [sep] + b;
      assert ([sep] + b)[1..] == b;
    } else {
      var s := a + [sep] + b;
      assert s[0] == a[0] && s[0] != sep;
      assert s[1..] == a[1..] + [sep] + b;
      SplitAfterWord(a[1..], sep, b);
      var rest := Split(s[1..], sep);
      assert rest[0] == a[1..] && rest[1..] == Split(b, sep);
      assert Split(s, sep) == [[s[0]] + rest[0]] + rest[1..];
      assert [a[0]] + a[1..] == a;
    }
  }

  /** Splitting a join of separator-free pieces gives the pieces back. */
  lemma {:induction false} SplitJoin(parts: seq<string>, sep: char)
    requires |parts| >= 1
    requires forall i :: 0 <= i < |parts| ==> sep !in parts[i]
    ensures Split(Join(parts, sep), sep) == parts
  {
    if |parts| == 1 {
      SplitWord(parts[0], sep);
    } else {
      SplitJoin(parts[1..], sep);
      SplitAfterWord(parts[0], sep, Join(parts[1..], sep));
      assert [parts[0]] + parts[1..] == parts;
    }
  }

  // ---------------------------------------------------------------------
  // upper
  // ---------------------------------------------------------------------

  /** `c.upper()` for one ASCII character; other characters are kept. */
  function UpperChar(c: char): char
  {
    if 'a' <= c <= 'z' then (c as int - 'a' as int + 'A' as int) as char else c
  }

  /** `s.upper()`, character by character, on the ASCII letters. */
  function Upper(s: string): (r: string)
    ensures |r| == |s|
    ensures forall i :: 0 <= i < |s| ==> r[i] == UpperChar(s[i])
  {
    seq(|s|, i requires 0 <= i < |s| => UpperChar(s[i]))
  }

  /** Upper-casing is idempotent: an upper-cased word is its own upper case. */
  lemma UpperIdempotent(s: string)
    ensures Upper(Upper(s)) == Upper(s)
  {
    forall i | 0 <= i < |s|
      ensures Upper(Upper(s))[i] == Upper(s)[i]
    {
      var c := s[i];
      if 'a' <= c <= 'z' {
        assert !('a' <= UpperChar(c) <= 'z');
      }
    }
  }

  /** A word with no lower-case letter is its own upper case. */
  lemma UpperKeeps(s: string)
    requires forall i :: 0 <= i < |s| ==> !('a' <= s[i] <= 'z')
    ensures Upper(s) == s
  {
  }

  // ---------------------------------------------------------------------
  // Decimal integers: str(n) and int(s)
  // ---------------------------------------------------------------------

  predicate IsDigit(c: char)
  {
    '0' <= c <= '9'
  }

  predicate AllDigits(s: string)
  {
    forall i :: 0 <= i < |s| ==> IsDigit(s[i])
  }

  /** The characters `int()` and `str.strip()` treat as white space (ASCII only). */
  predicate IsSpace(c: char)
  {
    c == ' ' || c == '\t' || c == '\n' || c == '\r' || c == '\U{000B}' || c == '\U{000C}'
  }

  function DigitChar(d: nat): char
    requires d < 10
  {
    ('0' as int + d) as char
  }

  function DigitValue(c: char): nat
    requires IsDigit(c)
  {
    c as int - '0' as int
  }

  /** The value of a string of decimal digits. */
  function DigitsValue(s: string): nat
    requires AllDigits(s)
  {
    if s == [] then 0 else 10 * DigitsValue(s[..|s| - 1]) + DigitValue(s[|s| - 1])
  }

  /** `str(n)` for a natural number: its decimal digits, no leading zero. */
  function DecimalText(n: nat): (t: string)
    ensures |t| >= 1 && AllDigits(t)
    ensures |t| > 1 ==> t[0] != '0'
  {
    if n < 10 then [DigitChar(n)] else DecimalText(n / 10) + [DigitChar(n % 10)]
  }

  /** `str(n)` for any integer. */
  function IntText(n: int): string
  {
    if n < 0 then "-" + DecimalText(-n) else DecimalText(n)
  }

  /** Reading the digits of `str(n)` gives back `n`. */
  lemma {:induction false} DecimalRoundTrip(n: nat)
    ensures DigitsValue(DecimalText(n)) == n
  {
    if n >= 10 {
      DecimalRoundTrip(n / 10);
      var t := DecimalText(n);
      assert t[..|t| - 1] == DecimalText(n / 10);
    }
  }

  /** `str` is injective on the natural numbers. */
  lemma DecimalInjective(m: nat, n: nat)
    requires DecimalText(m) == DecimalText(n)
    ensures m == n
  {
    DecimalRoundTrip(m);
    DecimalRoundTrip(n);
  }

  /** `s.strip()` over the white space of `IsSpace`. */
  function Strip(s: string): (r: string)
    ensures |r| <= |s|
    ensures r != [] ==> !IsSpace(r[0]) && !IsSpace(r[|r| - 1])
  {
    if s == [] then s
    else if IsSpace(s[0]) then Strip(s[1..])
    else if IsSpace(s[|s| - 1]) then Strip(s[..|s| - 1])
    else s
  }

  /** The error `int(s)` raises for text that is not a decimal integer. */
  function InvalidIntLiteral(s: string): Fault
  {
    Fault(ValueError, "invalid literal for int() with base 10: '" + s + "'")
  }

  /**
   * `int(s)`: surrounding white space is ignored, then an optional sign
   * and at least one decimal digit; anything else is a ValueError.
   */
  function ParseInt(s: string): (r: Result<int>)
    ensures r.Ok? <==> (var t := Strip(s);
                        |t| >= 1 &&
                        (if t[0] == '+' || t[0] == '-' then |t| >= 2 && AllDigits(t[1..]) else AllDigits(t)))
  {
    var t := Strip(s);
    if t == [] then Err(InvalidIntLiteral(s))
    else if t[0] == '+' || t[0] == '-' then
      var d := t[1..];
      if d != [] && AllDigits(d) then
        Ok(if t[0] == '-' then 0 - DigitsValue(d) as int else DigitsValue(d))
      else Err(InvalidIntLiteral(s))
    else if AllDigits(t) then Ok(DigitsValue(t))
    else Err(InvalidIntLiteral(s))
  }

  lemma {:induction false} StripDigits(t: string, tail: string)
    requires |t| >= 1 && AllDigits(t)
    requires forall i :: 0 <= i < |tail| ==> IsSpace(tail[i])
    ensures Strip(t + tail) == t
    decreases |tail|
  {
    assert IsDigit(t[0]) && IsDigit(t[|t| - 1]);
    if tail == [] {
      assert t + tail == t;
    } else {
      var s, init := t + tail, tail[..|tail| - 1];
      assert s[0] == t[0];
      assert s[|s| - 1] == tail[|tail| - 1];
      assert s[..|s| - 1] == t + init;
      assert forall i :: 0 <= i < |init| ==> init[i] == tail[i];
      StripDigits(t, init);
    }
  }

  /** `int(str(n) + "\n")` is `n`: the line a file holds reads back as its number. */
  lemma ParseIntLine(n: nat)
    ensures ParseInt(DecimalText(n) + "\n") == Ok(n)
  {
    StripDigits(DecimalText(n), "\n");
    DecimalRoundTrip(n);
  }

  /** `int(str(n))` is `n` for every integer. */
  lemma ParseIntText(n: int)
    ensures ParseInt(IntText(n)) == Ok(n)
  {
    if n < 0 {
      var t := IntText(n);
      StripDigits(t[1..], "");
      assert t[1..] == DecimalText(-n);
      assert Strip(t) == t;
      DecimalRoundTrip(-n);
    } else {
      StripDigits(DecimalText(n), "");
      assert DecimalText(n) + "" == DecimalText(n);
      DecimalRoundTrip(n);
    }
  }

  // ---------------------------------------------------------------------
  // Hexadecimal text of bytes
  // ---------------------------------------------------------------------

  predicate IsHexDigit(c: char)
  {
    IsDigit(c) || 'a' <= c <= 'f' || 'A' <= c <= 'F'
  }

  function HexValue(c: char): (v: nat)
    requires IsHexDigit(c)
    ensures v < 16
  {
    if IsDigit(c) then DigitValue(c)
    else if 'a' <= c <= 'f' then c as int - 'a' as int + 10
    else c as int - 'A' as int + 10
  }

  /** The lower-case hex digit `bytes.hex()` writes for `v`. */
  function HexChar(v: nat): (c: char)
    requires v < 16
    ensures IsHexDigit(c) && HexValue(c) == v
  {
    if v < 10 then DigitChar(v) else ('a' as int + v - 10) as char
  }

  /** `b.hex()`: two lower-case hex digits per byte, no separators. */
  function ToHex(b: seq<byte>): (t: string)
    ensures |t| == 2 * |b|
  {
    if b == [] then ""
    else [HexChar(b[0] / 16), HexChar(b[0] % 16)] + ToHex(b[1..])
  }

  /** The error `bytes.fromhex` raises at character position `pos`. */
  function NonHexAt(pos: nat): Fault
  {
    Fault(ValueError, "non-hexadecimal number found in fromhex() arg at position " + DecimalText(pos))
  }

  /** The error `bytes.fromhex` raises when the argument ends after the first digit of a byte. */
  const OddHexDigits := Fault(ValueError, "fromhex() arg must contain an even number of hexadecimal digits")

  /**
   * `bytes.fromhex` on `s`, whose first character sits at position
   * `offset` of the whole argument: white space is skipped between byte
   * pairs, each byte needs two hex digits (either case), and the first
   * offending position is reported, unless the argument simply ends
   * after the first digit of a byte.
   */
  function FromHexAt(s: string, offset: nat): Result<seq<byte>>
  {
    if s == [] then Ok([])
    else if IsSpace(s[0]) then FromHexAt(s[1..], offset + 1)
    else if !IsHexDigit(s[0]) then Err(NonHexAt(offset))
    else if |s| == 1 then Err(OddHexDigits)
    else if !IsHexDigit(s[1]) then Err(NonHexAt(offset + 1))
    else
      match FromHexAt(s[2..], offset + 2)
      case Ok(rest) => Ok([16 * HexValue(s[0]) + HexValue(s[1])] + rest)
      case Err(e) => Err(e)
  }

  /** `bytes.fromhex(s)`. */
  function FromHex(s: string): Result<seq<byte>>
  {
    FromHexAt(s, 0)
  }

  lemma {:induction false} FromHexAtToHex(b: seq<byte>, offset: nat)
    ensures FromHexAt(ToHex(b), offset) == Ok(b)
  {
    if b != [] {
      var t := ToHex(b);
      assert t[2..] == ToHex(b[1..]);
      FromHexAtToHex(b[1..], offset + 2);
      assert [b[0]] + b[1..] == b;
    }
  }

  /** `bytes.fromhex(b.hex()) == b`. */
  lemma HexRoundTrip(b: seq<byte>)
    ensures FromHex(ToHex(b)) == Ok(b)
  {
    FromHexAtToHex(b, 0);
  }

  /** `b.hex()` holds no space, so it travels as one token of a message. */
  lemma {:induction false} HexHasNoSpace(b: seq<byte>)
    ensures ' ' !in ToHex(b)
  {
    if b != [] {
      HexHasNoSpace(b[1..]);
    }
  }
}
