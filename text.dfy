/**
 * The C string primitives the measurement and tuning code relies on:
 * strstr, sprintf with "%s" conversions only, and strtoul in base 16,
 * stated on Dafny strings.
 */
module Text {

  // ---------------------------------------------------------------------
  // strstr
  // ---------------------------------------------------------------------

  /** `sub` occurs in `s` starting at position `i`. */
  predicate OccursAt(s: string, sub: string, i: nat) {
    i + |sub| <= |s| && s[i..i + |sub|] == sub
  }

  /** strstr(s, sub) != NULL: `sub` occurs somewhere in `s`. */
  predicate Contains(s: string, sub: string) {
    exists i :: 0 <= i <= |s| - |sub| && OccursAt(s, sub, i)
  }

  // ---------------------------------------------------------------------
  // sprintf restricted to "%s"
  // ---------------------------------------------------------------------

  /** Number of "%s" conversions in a format string. */
  function Holes(fmt: string): nat
    decreases |fmt|
  {
    if |fmt| == 0 then 0
    else if |fmt| >= 2 && fmt[0] == '%' && fmt[1] == 's' then 1 + Holes(fmt[2..])
    else Holes(fmt[1..])
  }

  /**
   * What sprintf writes for a format whose only conversions are "%s",
   * given one argument per conversion (a missing argument is undefined
   * behaviour in C, hence the precondition).
   */
  function Format(fmt: string, args: seq<string>): string
    requires Holes(fmt) == |args|
    decreases |fmt|
  {
    if |fmt| == 0 then ""
    else if |fmt| >= 2 && fmt[0] == '%' && fmt[1] == 's' then args[0] + Format(fmt[2..], args[1..])
    else [fmt[0]] + Format(fmt[1..], args)
  }

  /** Text without a '%' is copied to the output unchanged. */
  lemma {:induction false} FormatLiteral(lit: string, rest: string, args: seq<string>)
    requires '%' !in lit
    requires Holes(rest) == |args|
    ensures Holes(lit + rest) == |args|
    ensures Format(lit + rest, args) == lit + Format(rest, args)
  {
    if lit == [] {
      assert lit + rest == rest;
    } else {
      FormatLiteral(lit[1..], rest, args);
      assert (lit + rest)[1..] == lit[1..] + rest;
    }
  }

  /** A "%s" at the front consumes the first argument. */
  lemma FormatHole(x: string, rest: string, args: seq<string>)
    requires Holes(rest) == |args|
    ensures Holes("%s" + rest) == |args| + 1
    ensures Format("%s" + rest, [x] + args) == x + Format(rest, args)
  {
    assert ("%s" + rest)[2..] == rest;
    assert ([x] + args)[1..] == args;
  }

  /** A literal piece, then a "%s" consuming the first argument. */
  lemma FormatStep(a: string, x: string, rest: string, args: seq<string>)
    requires '%' !in a
    requires Holes(rest) == |args|
    ensures Holes(a + ("%s" + rest)) == |args| + 1
    ensures Format(a + ("%s" + rest), [x] + args) == a + (x + Format(rest, args))
  {
    FormatHole(x, rest, args);
    FormatLiteral(a, "%s" + rest, [x] + args);
  }

  /** A format without conversions is printed as it stands. */
  lemma FormatPlain(a: string)
    requires '%' !in a
    ensures Holes(a) == 0 && Format(a, []) == a
  {
    FormatLiteral(a, "", []);
    assert a + "" == a;
  }

  /** sprintf with one "%s" between two literal pieces. */
  lemma Format1(a: string, x: string, b: string)
    requires '%' !in a && '%' !in b
    ensures Holes(a + ("%s" + b)) == 1
    ensures Format(a + ("%s" + b), [x]) == a + (x + b)
  {
    FormatPlain(b);
    FormatStep(a, x, b, []);
    assert [x] + [] == [x];
  }

  /** sprintf with two "%s" conversions. */
  lemma Format2(a: string, x: string, b: string, y: string, c: string)
    requires '%' !in a && '%' !in b && '%' !in c
    ensures Holes(a + ("%s" + (b + ("%s" + c)))) == 2
    ensures Format(a + ("%s" + (b + ("%s" + c))), [x, y]) == a + (x + (b + (y + c)))
  {
    Format1(b, y, c);
    FormatStep(a, x, b + ("%s" + c), [y]);
    assert [x] + [y] == [x, y];
  }

  /** sprintf with three "%s" conversions. */
  lemma Format3(a: string, x: string, b: string, y: string, c: string, z: string, d: string)
    requires '%' !in a && '%' !in b && '%' !in c && '%' !in d
    ensures Holes(a + ("%s" + (b + ("%s" + (c + ("%s" + d)))))) == 3
    ensures Format(a + ("%s" + (b + ("%s" + (c + ("%s" + d))))), [x, y, z])
         == a + (x + (b + (y + (c + (z + d)))))
  {
    Format2(b, y, c, z, d);
    FormatStep(a, x, b + ("%s" + (c + ("%s" + d))), [y, z]);
    assert [x] + [y, z] == [x, y, z];
  }

  // ---------------------------------------------------------------------
  // strtoul(s, NULL, 16)
  // ---------------------------------------------------------------------

  predicate IsHexDigit(c: char) {
    '0' <= c <= '9' || 'a' <= c <= 'f' || 'A' <= c <= 'F'
  }

  predicate AllHexDigits(d: string) {
    forall i :: 0 <= i < |d| ==> IsHexDigit(d[i])
  }

  function DigitValue(c: char): (v: nat)
    requires IsHexDigit(c)
    ensures v < 16
  {
    if '0' <= c <= '9' then c as int - '0' as int
    else if 'a' <= c <= 'f' then c as int - 'a' as int + 10
    else c as int - 'A' as int + 10
  }

  /** Value of a run of hex digits, most significant digit first. */
  function DigitsValue(d: string): nat
    requires AllHexDigits(d)
  {
    if |d| == 0 then 0 else 16 * DigitsValue(d[..|d| - 1]) + DigitValue(d[|d| - 1])
  }

  /** Length of the longest run of hex digits at the front of `s`: where strtoul stops reading. */
  function HexRun(s: string): (n: nat)
    ensures n <= |s| && AllHexDigits(s[..n])
    ensures n < |s| ==> !IsHexDigit(s[n])
  {
    if |s| == 0 || !IsHexDigit(s[0]) then 0
    else
      var m := HexRun(s[1..]);
      assert s[..1 + m] == [s[0]] + s[1..][..m];
      1 + m
  }

  /** The digits strtoul reads in base 16: a "0x" or "0X" prefix is skipped when a hex digit follows it. */
  function HexBody(s: string): string {
    if |s| >= 3 && s[0] == '0' && (s[1] == 'x' || s[1] == 'X') && IsHexDigit(s[2]) then s[2..] else s
  }

  /** The number strtoul(s, NULL, 16) computes before any range check. */
  function HexValue(s: string): nat {
    var body := HexBody(s);
    DigitsValue(body[..HexRun(body)])
  }

  const UlongLimit: nat := 0x1_0000_0000_0000_0000

  /**
   * std::stoul(s, NULL, 16) returns rather than throws: the text starts
   * with a hex digit (no leading blank or sign, which sysfs never writes)
   * and its value fits an unsigned 64-bit long.
   */
  predicate StoulAccepts(s: string) {
    |s| > 0 && IsHexDigit(s[0]) && HexValue(s) < UlongLimit
  }

  // ---------------------------------------------------------------------
  // The inverse direction: printing a number in hex, as sysfs does
  // ---------------------------------------------------------------------

  function HexChar(d: nat): (c: char)
    requires d < 16
    ensures IsHexDigit(c) && DigitValue(c) == d
  {
    if d < 10 then ('0' as int + d) as char else ('a' as int + d - 10) as char
  }

  /** printf's "%x": lower-case hex digits without leading zeros. */
  function HexOf(n: nat): (s: string)
    ensures |s| > 0 && AllHexDigits(s)
    decreases n
  {
    if n < 16 then [HexChar(n)] else HexOf(n / 16) + [HexChar(n % 16)]
  }

  /** `k` '0' characters: zero padding, as printf's "%04x" writes it. */
  function Zeros(k: nat): (s: string)
    ensures |s| == k && AllHexDigits(s)
  {
    if k == 0 then "" else Zeros(k - 1) + "0"
  }

  /** printf's "%04x": the "%x" digits, padded with zeros on the left to at least four. */
  function Hex04(n: nat): (s: string)
    ensures exists k: nat :: s == Zeros(k) + HexOf(n)
  {
    var d := HexOf(n);
    if |d| < 4 then
      Zeros(4 - |d|) + d
    else
      assert d == Zeros(0) + d;
      d
  }

  function Pow16(k: nat): nat {
    if k == 0 then 1 else 16 * Pow16(k - 1)
  }

  /** A number below 16^k has at most k hex digits. */
  lemma {:induction false} HexOfLength(n: nat, k: nat)
    requires 0 < k && n < Pow16(k)
    ensures |HexOf(n)| <= k
    decreases k
  {
    if n >= 16 {
      assert k > 1;
      assert n / 16 < Pow16(k - 1);
      HexOfLength(n / 16, k - 1);
    }
  }

  lemma {:induction false} Pow16Positive(k: nat)
    ensures Pow16(k) >= 1
  {
    if k > 0 {
      Pow16Positive(k - 1);
    }
  }

  /** A number of at least 16^(k-1) has at least k hex digits. */
  lemma {:induction false} HexOfAtLeast(n: nat, k: nat)
    requires 0 < k && Pow16(k - 1) <= n
    ensures |HexOf(n)| >= k
    decreases k
  {
    if k > 1 {
      Pow16Positive(k - 2);
      assert n >= 16;
      assert Pow16(k - 2) <= n / 16;
      HexOfAtLeast(n / 16, k - 1);
    }
  }

  /** A 16-bit number prints under "%04x" as exactly four digits. */
  lemma Hex04Width(n: nat)
    requires n < 0x1_0000
    ensures |Hex04(n)| == 4
  {
    assert Pow16(4) == 0x1_0000;
    HexOfLength(n, 4);
  }

  lemma {:induction false} DigitsValueOfHexOf(n: nat)
    ensures DigitsValue(HexOf(n)) == n
    decreases n
  {
    if n >= 16 {
      DigitsValueOfHexOf(n / 16);
      var s := HexOf(n);
      assert s[..|s| - 1] == HexOf(n / 16);
    }
  }

  /** Leading zeros do not change the value of a digit run. */
  lemma {:induction false} DigitsValueLeadingZeros(k: nat, d: string)
    requires AllHexDigits(d)
    ensures AllHexDigits(Zeros(k) + d)
    ensures DigitsValue(Zeros(k) + d) == DigitsValue(d)
    decreases k + |d|
  {
    var s := Zeros(k) + d;
    if d == [] {
      assert s == Zeros(k);
      if k > 0 {
        DigitsValueLeadingZeros(k - 1, []);
        assert Zeros(k - 1) + [] == Zeros(k - 1);
        assert s[..|s| - 1] == Zeros(k - 1);
      }
    } else {
      DigitsValueLeadingZeros(k, d[..|d| - 1]);
      assert s[..|s| - 1] == Zeros(k) + d[..|d| - 1];
    }
  }

  /** strtoul reads all of a string made only of hex digits. */
  lemma WholeRun(d: string)
    requires AllHexDigits(d)
    ensures HexRun(d) == |d| && d[..HexRun(d)] == d
  {
  }

  /** A "0x" prefix in front of a digit run is skipped. */
  lemma PrefixedValue(digits: string)
    requires |digits| > 0 && AllHexDigits(digits)
    ensures HexValue("0x" + digits) == DigitsValue(digits)
  {
    var s := "0x" + digits;
    assert s[2] == digits[0];
    assert s[2..] == digits;
    WholeRun(digits);
  }

  /**
   * Round trip: strtoul in base 16 reads back the number that "0x%0*x"
   * printed, whatever the zero padding.
   */
  lemma HexRoundTrip(n: nat, k: nat)
    ensures HexValue("0x" + Zeros(k) + HexOf(n)) == n
    ensures n < UlongLimit ==> StoulAccepts("0x" + Zeros(k) + HexOf(n))
  {
    var digits := Zeros(k) + HexOf(n);
    DigitsValueLeadingZeros(k, HexOf(n));
    DigitsValueOfHexOf(n);
    PrefixedValue(digits);
    assert "0x" + Zeros(k) + HexOf(n) == "0x" + digits;
  }

  /** The round trip for printf's "0x%04x", the form sysfs writes IDs in. */
  lemma Hex04RoundTrip(n: nat)
    ensures HexValue("0x" + Hex04(n)) == n
    ensures n < UlongLimit ==> StoulAccepts("0x" + Hex04(n))
  {
    var k: nat :| Hex04(n) == Zeros(k) + HexOf(n);
    HexRoundTrip(n, k);
    assert "0x" + Hex04(n) == "0x" + Zeros(k) + HexOf(n);
  }
}
