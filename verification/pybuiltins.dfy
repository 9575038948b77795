/** The pieces of Python's built-in behaviour that the program relies on:
    `int(s, base)` on a string, `str(n)` of an int, the format spec `02x`,
    `str.lstrip(c)` and slicing, all over ASCII text. */
module PyBuiltins {
  import opened Wrappers

  /** The whitespace that `int()` skips around its digits: `\t \n \v \f \r`,
      the four separators `\x1c`..`\x1f` and the space. */
  predicate IsSpace(c: char) {
    9 <= c as int <= 13 || 28 <= c as int <= 32
  }

  predicate IsDecDigit(c: char) {
    '0' <= c <= '9'
  }

  predicate IsLowerHexDigit(c: char) {
    IsDecDigit(c) || 'a' <= c <= 'f'
  }

  predicate IsHexDigit(c: char) {
    IsLowerHexDigit(c) || 'A' <= c <= 'F'
  }

  /** A digit of the given base (10 or 16). */
  predicate IsDigit(c: char, base: int) {
    IsHexDigit(c) && (base == 16 || IsDecDigit(c))
  }

  /** The value of a decimal or hexadecimal digit, either case. */
  function DigitValue(c: char): (d: int)
    requires IsHexDigit(c)
    ensures 0 <= d < 16
    ensures d < 10 <==> IsDecDigit(c)
  {
    if IsDecDigit(c) then c as int - '0' as int
    else if 'a' <= c <= 'f' then c as int - 'a' as int + 10
    else c as int - 'A' as int + 10
  }

  /** The lower-case digit for a value below 16. */
  function DigitChar(d: int): (c: char)
    requires 0 <= d < 16
    ensures IsLowerHexDigit(c) && DigitValue(c) == d
  {
    if d < 10 then ('0' as int + d) as char else ('a' as int + d - 10) as char
  }

  /** `s` with leading whitespace removed. */
  function TrimStart(s: string): (r: string)
    ensures |r| <= |s|
    ensures |r| == 0 || !IsSpace(r[0])
  {
    if |s| > 0 && IsSpace(s[0]) then TrimStart(s[1..]) else s
  }

  /** `s` with trailing whitespace removed. */
  function TrimEnd(s: string): (r: string)
    ensures |r| <= |s|
    ensures |r| == 0 || !IsSpace(r[|r| - 1])
  {
    if |s| > 0 && IsSpace(s[|s| - 1]) then TrimEnd(s[..|s| - 1]) else s
  }

  /** `s.lstrip(c)`: every leading `c` removed. */
  function LStrip(s: string, c: char): (r: string)
    ensures |r| <= |s| && r == s[|s| - |r|..]
    ensures |r| == 0 || r[0] != c
    ensures forall i :: 0 <= i < |s| - |r| ==> s[i] == c
  {
    if |s| > 0 && s[0] == c then LStrip(s[1..], c) else s
  }

  /** The slice `s[i:j]` for `0 <= i <= j`: both ends are clamped to the
      length, so a short string gives a short (possibly empty) slice. */
  function Slice(s: string, i: nat, j: nat): (r: string)
    requires i <= j
    ensures |s| >= j ==> r == s[i..j]
    ensures |s| <= i ==> r == []
    ensures i <= |s| <= j ==> r == s[i..]
  {
    if |s| <= i then [] else if |s| <= j then s[i..] else s[i..j]
  }

  /** The digits of a numeral as `int()` accepts them: not empty, only
      digits of the base and underscores, an underscore only between two
      digits. */
  predicate WellFormedDigits(s: string, base: int) {
    && |s| > 0
    && (forall i :: 0 <= i < |s| ==> s[i] == '_' || IsDigit(s[i], base))
    && s[0] != '_' && s[|s| - 1] != '_'
    && (forall i :: 0 <= i < |s| - 1 ==> s[i] == '_' ==> s[i + 1] != '_')
  }

  /** The positional value of a digit string, underscores skipped. */
  function DigitsValue(s: string, base: int): (v: int)
    requires base == 10 || base == 16
    requires forall i :: 0 <= i < |s| ==> s[i] == '_' || IsDigit(s[i], base)
    ensures v >= 0
  {
    if |s| == 0 then 0
    else if s[|s| - 1] == '_' then DigitsValue(s[..|s| - 1], base)
    else
      assert IsDigit(s[|s| - 1], base);
      DigitsValue(s[..|s| - 1], base) * base + DigitValue(s[|s| - 1])
  }

  /** What follows the one optional `+` or `-`. */
  function DropSign(t: string): (u: string)
    ensures |u| <= |t|
  {
    if |t| > 0 && (t[0] == '+' || t[0] == '-') then t[1..] else t
  }

  /** What follows the optional `0x`/`0X` prefix (and the one underscore it
      may carry) of a base-16 numeral; a base-10 numeral has no prefix. */
  function DropPrefix(u: string, base: int): (r: string)
    ensures |r| <= |u|
  {
    if base == 16 && |u| >= 2 && u[0] == '0' && (u[1] == 'x' || u[1] == 'X') then
      if |u| >= 3 && u[2] == '_' then u[3..] else u[2..]
    else u
  }

  /** `int(s, base)` for base 10 or 16: `None` where Python raises
      `ValueError`. Whitespace around the numeral is skipped; one `+` or `-`
      may lead; a base-16 numeral may start with `0x`. */
  function ParseInt(s: string, base: int): Option<int>
    requires base == 10 || base == 16
  {
    var t := TrimEnd(TrimStart(s));
    var negative := |t| > 0 && t[0] == '-';
    var digits := DropPrefix(DropSign(t), base);
    if WellFormedDigits(digits, base) then
      var v := DigitsValue(digits, base);
      Some(if negative then -v else v)
    else None
  }

  /** The decimal digits of a natural number, most significant first. */
  function NatToDecimal(n: nat): (s: string)
    ensures |s| > 0 && (s[0] == '0' ==> n == 0)
    ensures forall i :: 0 <= i < |s| ==> IsDecDigit(s[i])
  {
    if n < 10 then [DigitChar(n)] else NatToDecimal(n / 10) + [DigitChar(n % 10)]
  }

  /** `str(n)`: a minus sign for a negative number, then its digits. */
  function IntToDecimal(n: int): string {
    if n < 0 then "-" + NatToDecimal(-n) else NatToDecimal(n)
  }

  /** The lower-case hexadecimal digits of a natural number. */
  function NatToHex(n: nat): (s: string)
    ensures |s| > 0
    ensures forall i :: 0 <= i < |s| ==> IsLowerHexDigit(s[i])
    ensures n < 16 <==> |s| == 1
  {
    if n < 16 then [DigitChar(n)] else NatToHex(n / 16) + [DigitChar(n % 16)]
  }

  /** `f'{n:02x}'`: lower-case hexadecimal, zero-padded to two characters
      after the sign; a negative number is written with a `-` and is never
      padded, since the sign and one digit already fill the width. */
  function Hex02(n: int): string {
    if n < 0 then "-" + NatToHex(-n)
    else if n < 16 then "0" + NatToHex(n)
    else NatToHex(n)
  }

  lemma {:induction false} NatToDecimalValue(n: nat)
    ensures DigitsValue(NatToDecimal(n), 10) == n
  {
    var s := NatToDecimal(n);
    if n >= 10 {
      NatToDecimalValue(n / 10);
      assert s[..|s| - 1] == NatToDecimal(n / 10);
    }
  }

  lemma TrimmedAlready(s: string)
    requires |s| > 0 && !IsSpace(s[0]) && !IsSpace(s[|s| - 1])
    ensures TrimEnd(TrimStart(s)) == s
  {
  }

  /** A numeral made of an optional minus sign and digits of the base, with
      no whitespace and no underscores, parses to its positional value. */
  lemma ParsePlain(s: string, negative: bool, digits: string, base: int)
    requires base == 10 || base == 16
    requires |digits| > 0 && forall i :: 0 <= i < |digits| ==> IsDigit(digits[i], base)
    requires s == (if negative then "-" else "") + digits
    ensures ParseInt(s, base)
         == Some(if negative then -DigitsValue(digits, base) else DigitsValue(digits, base))
  {
    PlainTrimmed(s, negative, digits, base);
    PlainSign(s, negative, digits, base);
    if |digits| >= 2 {
      NoPrefix(digits, base);
    }
    PlainDigits(digits, base);
  }

  lemma PlainTrimmed(s: string, negative: bool, digits: string, base: int)
    requires base == 10 || base == 16
    requires |digits| > 0 && forall i :: 0 <= i < |digits| ==> IsDigit(digits[i], base)
    requires s == (if negative then "-" else "") + digits
    ensures TrimEnd(TrimStart(s)) == s
  {
    assert s[|s| - 1] == digits[|digits| - 1];
    assert IsDigit(digits[0], base);
    TrimmedAlready(s);
  }

  lemma PlainSign(s: string, negative: bool, digits: string, base: int)
    requires base == 10 || base == 16
    requires |digits| > 0 && forall i :: 0 <= i < |digits| ==> IsDigit(digits[i], base)
    requires s == (if negative then "-" else "") + digits
    ensures (|s| > 0 && s[0] == '-') == negative
    ensures DropSign(s) == digits
  {
    assert IsDigit(digits[0], base);
    if negative {
      assert s[1..] == digits;
    }
  }

  lemma NoPrefix(digits: string, base: int)
    requires |digits| >= 2 && IsDigit(digits[1], base)
    ensures DropPrefix(digits, base) == digits
  {
    assert digits[1] != 'x' && digits[1] != 'X';
  }

  lemma PlainDigits(digits: string, base: int)
    requires |digits| > 0 && forall i :: 0 <= i < |digits| ==> IsDigit(digits[i], base)
    ensures WellFormedDigits(digits, base)
  {
    assert forall i :: 0 <= i < |digits| ==> digits[i] != '_';
  }

  /** `int(str(n)) == n` for every integer. */
  lemma DecimalRoundTrip(n: int)
    ensures ParseInt(IntToDecimal(n), 10) == Some(n)
  {
    var m: nat := if n < 0 then -n else n;
    NatToDecimalValue(m);
    ParsePlain(IntToDecimal(n), n < 0, NatToDecimal(m), 10);
  }

  /** Two hexadecimal digits, in either case, parse to their positional
      value. */
  lemma HexPairValue(a: char, b: char)
    requires IsHexDigit(a) && IsHexDigit(b)
    ensures ParseInt([a, b], 16) == Some(DigitValue(a) * 16 + DigitValue(b))
  {
    var s := [a, b];
    ParsePlain(s, false, s, 16);
    HexPairDigits(a, b);
  }

  lemma HexPairDigits(a: char, b: char)
    requires IsHexDigit(a) && IsHexDigit(b)
    ensures DigitsValue([a, b], 16) == DigitValue(a) * 16 + DigitValue(b)
  {
    var s := [a, b];
    assert s[..1] == [a] && [a][..0] == [];
    assert DigitsValue([a], 16) == DigitsValue([], 16) * 16 + DigitValue(a) == DigitValue(a);
    assert DigitsValue(s, 16) == DigitsValue([a], 16) * 16 + DigitValue(b);
  }

  /** For an 8-bit value, `02x` gives exactly two lower-case digits whose
      positional value is the number. */
  lemma Hex02Byte(n: int)
    requires 0 <= n <= 255
    ensures |Hex02(n)| == 2
    ensures IsLowerHexDigit(Hex02(n)[0]) && IsLowerHexDigit(Hex02(n)[1])
    ensures DigitValue(Hex02(n)[0]) * 16 + DigitValue(Hex02(n)[1]) == n
  {
    if n >= 16 {
      assert NatToHex(n / 16) == [DigitChar(n / 16)];
    }
  }
}
