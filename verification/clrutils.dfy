/** Hexadecimal colour notation `#rrggbb` (CSS Color Module Level 3,
    section 4.2.1): the formatter `GetHexStr` and the parser `HexStrToRGB`. */
module ClrUtils {
  import opened Wrappers
  import opened PyBuiltins
  import opened Rgb

  /** `GetHexStr(rgb)`: a `#` and each component written with `02x`. */
  function GetHexStr(rgb: RGB): string {
    "#" + Hex02(rgb.0) + Hex02(rgb.1) + Hex02(rgb.2)
  }

  /** The text of the `ValueError` that `int(f, 16)` raises. */
  function InvalidLiteral(f: string): string {
    "invalid literal for int() with base 16: '" + f + "'"
  }

  /** `int(t[i:i+2], 16)`. */
  function ParseField(t: string, i: nat): Result<int> {
    var f := Slice(t, i, i + 2);
    match ParseInt(f, 16)
    case Some(v) => Success(v)
    case None => Failure(InvalidLiteral(f))
  }

  /** `HexStrToRGB(sHex)` as written: strip every leading `#`, then read the
      slices `[0:2]`, `[2:4]` and `[4:6]` with `int(_, 16)`. */
  function HexStrToRGB(sHex: string): Result<RGB> {
    var t := LStrip(sHex, '#');
    var r :- ParseField(t, 0);
    var g :- ParseField(t, 2);
    var b :- ParseField(t, 4);
    Success((r, g, b))
  }

  /** A field read the way the notation means it: exactly two hexadecimal
      digits, nothing else. */
  function ParseFieldStrict(t: string, i: nat): (r: Result<int>)
    ensures r.Success? ==> 0 <= r.value <= 255
  {
    var f := Slice(t, i, i + 2);
    if |f| == 2 && IsHexDigit(f[0]) && IsHexDigit(f[1]) then
      Success(DigitValue(f[0]) * 16 + DigitValue(f[1]))
    else Failure(InvalidLiteral(f))
  }

  /** The parser as evidently intended: like `HexStrToRGB`, but a field that
      is not two hexadecimal digits is refused. */
  function HexStrToRGBStrict(sHex: string): Result<RGB> {
    var t := LStrip(sHex, '#');
    var r :- ParseFieldStrict(t, 0);
    var g :- ParseFieldStrict(t, 2);
    var b :- ParseFieldStrict(t, 4);
    Success((r, g, b))
  }

  function ToLower(c: char): char {
    if 'A' <= c <= 'Z' then (c as int - 'A' as int + 'a' as int) as char else c
  }

  function Lower(s: string): (r: string)
    ensures |r| == |s| && forall i :: 0 <= i < |s| ==> r[i] == ToLower(s[i])
  {
    seq(|s|, i requires 0 <= i < |s| => ToLower(s[i]))
  }

  /** For a valid triple the result is a `#` and six lower-case hexadecimal
      digits, two per component, whose positional values are the
      components. */
  lemma GetHexStrFormat(rgb: RGB)
    requires IsValid(rgb)
    ensures |GetHexStr(rgb)| == 7 && GetHexStr(rgb)[0] == '#'
    ensures forall i :: 1 <= i < 7 ==> IsLowerHexDigit(GetHexStr(rgb)[i])
    ensures DigitValue(GetHexStr(rgb)[1]) * 16 + DigitValue(GetHexStr(rgb)[2]) == rgb.0
    ensures DigitValue(GetHexStr(rgb)[3]) * 16 + DigitValue(GetHexStr(rgb)[4]) == rgb.1
    ensures DigitValue(GetHexStr(rgb)[5]) * 16 + DigitValue(GetHexStr(rgb)[6]) == rgb.2
  {
    Hex02Byte(rgb.0);
    Hex02Byte(rgb.1);
    Hex02Byte(rgb.2);
  }

  /** An 8-bit component written with `02x` reads back as itself. */
  lemma FieldRoundTrip(n: int)
    requires 0 <= n <= 255
    ensures ParseInt(Hex02(n), 16) == Some(n)
  {
    var h := Hex02(n);
    Hex02Byte(n);
    assert h == [h[0], h[1]];
    HexPairValue(h[0], h[1]);
  }

  /** The three slices of a `#rrggbb` string with the `#` stripped. */
  lemma SplitFields(rgb: RGB)
    requires IsValid(rgb)
    ensures LStrip(GetHexStr(rgb), '#') == Hex02(rgb.0) + Hex02(rgb.1) + Hex02(rgb.2)
    ensures Slice(LStrip(GetHexStr(rgb), '#'), 0, 2) == Hex02(rgb.0)
    ensures Slice(LStrip(GetHexStr(rgb), '#'), 2, 4) == Hex02(rgb.1)
    ensures Slice(LStrip(GetHexStr(rgb), '#'), 4, 6) == Hex02(rgb.2)
  {
    Hex02Byte(rgb.0);
    Hex02Byte(rgb.1);
    Hex02Byte(rgb.2);
    var t := Hex02(rgb.0) + Hex02(rgb.1) + Hex02(rgb.2);
    assert t[0] != '#';
    assert GetHexStr(rgb) == "#" + t;
    assert ("#" + t)[1..] == t;
  }

  /** `HexStrToRGB(GetHexStr(rgb)) == rgb` for every valid triple. */
  lemma RoundTrip(rgb: RGB)
    requires IsValid(rgb)
    ensures HexStrToRGB(GetHexStr(rgb)) == Success(rgb)
  {
    SplitFields(rgb);
    FieldRoundTrip(rgb.0);
    FieldRoundTrip(rgb.1);
    FieldRoundTrip(rgb.2);
  }

  /** Writing the value of two hexadecimal digits with `02x` gives the
      digits back in lower case. */
  lemma Hex02OfPair(a: char, b: char)
    requires IsHexDigit(a) && IsHexDigit(b)
    ensures Hex02(DigitValue(a) * 16 + DigitValue(b)) == [ToLower(a), ToLower(b)]
  {
    var n := DigitValue(a) * 16 + DigitValue(b);
    assert n / 16 == DigitValue(a) && n % 16 == DigitValue(b);
    if n >= 16 {
      assert NatToHex(n / 16) == [DigitChar(DigitValue(a))];
    }
  }

  /** The value of the two digits at `h[i]` and `h[i + 1]`. */
  function PairValue(h: string, i: nat): int
    requires i + 1 < |h| && IsHexDigit(h[i]) && IsHexDigit(h[i + 1])
  {
    DigitValue(h[i]) * 16 + DigitValue(h[i + 1])
  }

  /** Two hexadecimal digits that `HexStrToRGB` reads as one field. */
  lemma FieldOfPair(t: string, i: nat) returns (v: int)
    requires i + 2 <= |t| && IsHexDigit(t[i]) && IsHexDigit(t[i + 1])
    ensures ParseField(t, i) == Success(v)
    ensures v == PairValue(t, i)
  {
    assert Slice(t, i, i + 2) == [t[i], t[i + 1]];
    HexPairValue(t[i], t[i + 1]);
    v := PairValue(t, i);
  }

  /** Three fields that read well make the triple. */
  lemma ReadFields(t: string, r: int, g: int, b: int)
    requires LStrip(t, '#') == t
    requires ParseField(t, 0) == Success(r)
    requires ParseField(t, 2) == Success(g)
    requires ParseField(t, 4) == Success(b)
    ensures HexStrToRGB(t) == Success((r, g, b))
  {
  }

  /** Six hexadecimal digits with no `#` in front are read pair by pair. */
  lemma ReadSixDigits(t: string)
    requires |t| >= 6 && forall i :: 0 <= i < 6 ==> IsHexDigit(t[i])
    ensures HexStrToRGB(t) == Success((PairValue(t, 0), PairValue(t, 2), PairValue(t, 4)))
  {
    assert IsHexDigit(t[0]);
    var r := FieldOfPair(t, 0);
    var g := FieldOfPair(t, 2);
    var b := FieldOfPair(t, 4);
    ReadFields(t, r, g, b);
  }

  /** Writing the three pair values back gives the digits in lower case. */
  lemma WriteSixDigits(h: string)
    requires |h| == 6 && forall i :: 0 <= i < 6 ==> IsHexDigit(h[i])
    ensures GetHexStr((PairValue(h, 0), PairValue(h, 2), PairValue(h, 4))) == "#" + Lower(h)
  {
    Hex02OfPair(h[0], h[1]);
    Hex02OfPair(h[2], h[3]);
    Hex02OfPair(h[4], h[5]);
    assert "#" + Lower(h) == "#" + [ToLower(h[0]), ToLower(h[1])] + [ToLower(h[2]), ToLower(h[3])]
      + [ToLower(h[4]), ToLower(h[5])];
  }

  /** Reading `#` and six hexadecimal digits and writing the result back
      gives the same string, in lower case. */
  lemma ReverseRoundTrip(h: string)
    requires |h| == 6 && forall i :: 0 <= i < 6 ==> IsHexDigit(h[i])
    ensures HexStrToRGB("#" + h).Success?
    ensures GetHexStr(HexStrToRGB("#" + h).value) == "#" + Lower(h)
  {
    assert LStrip("#" + h, '#') == LStrip(h, '#') by {
      assert ("#" + h)[1..] == h;
    }
    assert IsHexDigit(h[0]);
    assert LStrip(h, '#') == h;
    SameFields("#" + h, h);
    ReadSixDigits(h);
    WriteSixDigits(h);
  }

  lemma {:induction false} LStripAppend(s: string, tail: string, c: char)
    requires |LStrip(s, c)| > 0
    ensures LStrip(s + tail, c) == LStrip(s, c) + tail
  {
    if s[0] == c {
      assert (s + tail)[1..] == s[1..] + tail;
      LStripAppend(s[1..], tail, c);
    }
  }

  /** A field depends on nothing but its slice. */
  lemma SameSlice(t: string, u: string, i: nat)
    requires Slice(t, i, i + 2) == Slice(u, i, i + 2)
    ensures ParseField(t, i) == ParseField(u, i)
  {
  }

  /** A field that lies inside `t` is the same field of any extension of
      `t`. */
  lemma FieldOfPrefix(t: string, tail: string, i: nat)
    requires i + 2 <= |t|
    ensures ParseField(t + tail, i) == ParseField(t, i)
  {
    SameSlice(t + tail, t, i);
  }

  /** `HexStrToRGB` looks at nothing but the three fields it reads. */
  lemma SameFields(s: string, s2: string)
    requires var t, u := LStrip(s, '#'), LStrip(s2, '#');
      ParseField(t, 0) == ParseField(u, 0) && ParseField(t, 2) == ParseField(u, 2)
      && ParseField(t, 4) == ParseField(u, 4)
    ensures HexStrToRGB(s) == HexStrToRGB(s2)
  {
  }

  /** Whatever follows the sixth character after the `#`s is never read. */
  lemma TailIgnored(s: string, tail: string)
    requires |LStrip(s, '#')| >= 6
    ensures HexStrToRGB(s + tail) == HexStrToRGB(s)
  {
    LStripAppend(s, tail, '#');
    var t := LStrip(s, '#');
    FieldOfPrefix(t, tail, 0);
    FieldOfPrefix(t, tail, 2);
    FieldOfPrefix(t, tail, 4);
    SameFields(s + tail, s);
  }

  /** As written, a field may carry a sign: `'#-10000'` is read as
      `(-1, 0, 0)`, which is not a colour. */
  lemma SignedFieldAccepted()
    ensures HexStrToRGB("#-10000") == Success((-1, 0, 0))
  {
    var t := "-10000";
    assert LStrip("#-10000", '#') == t by {
      assert "#-10000"[1..] == t;
    }
    assert Slice(t, 0, 2) == "-1" && Slice(t, 2, 4) == "00" && Slice(t, 4, 6) == "00";
    ParsePlain("-1", true, "1", 16);
    assert DigitsValue("1", 16) == 1 by {
      assert "1"[..0] == [];
    }
    HexPairValue('0', '0');
  }

  /** Every component the intended parser returns is in 0..255. */
  lemma StrictInRange(sHex: string)
    ensures HexStrToRGBStrict(sHex).Success? ==> IsValid(HexStrToRGBStrict(sHex).value)
  {
  }

  /** On two hexadecimal digits the intended field reader and `int(_, 16)`
      agree. */
  lemma StrictFieldAgrees(t: string, i: nat)
    requires i + 2 <= |t| && IsHexDigit(t[i]) && IsHexDigit(t[i + 1])
    ensures ParseFieldStrict(t, i) == ParseField(t, i)
  {
    var v := FieldOfPair(t, i);
    assert Slice(t, i, i + 2) == [t[i], t[i + 1]];
  }

  /** The two parsers agree when they agree field by field. */
  lemma AgreeByFields(sHex: string)
    requires var t := LStrip(sHex, '#');
      && ParseFieldStrict(t, 0) == ParseField(t, 0)
      && ParseFieldStrict(t, 2) == ParseField(t, 2)
      && ParseFieldStrict(t, 4) == ParseField(t, 4)
    ensures HexStrToRGBStrict(sHex) == HexStrToRGB(sHex)
  {
  }

  lemma StrictAgreesOnDigits(sHex: string)
    requires var t := LStrip(sHex, '#');
      |t| >= 6 && forall i :: 0 <= i < 6 ==> IsHexDigit(t[i])
    ensures HexStrToRGBStrict(sHex) == HexStrToRGB(sHex)
  {
    var t := LStrip(sHex, '#');
    assert IsHexDigit(t[0]);
    StrictFieldAgrees(t, 0);
    StrictFieldAgrees(t, 2);
    StrictFieldAgrees(t, 4);
    AgreeByFields(sHex);
  }

  /** The intended parser agrees with `HexStrToRGB` whenever the six
      characters after the `#`s are hexadecimal digits. */
  lemma StrictAgrees(sHex: string)
    ensures var t := LStrip(sHex, '#');
      |t| >= 6 && (forall i :: 0 <= i < 6 ==> IsHexDigit(t[i])) ==>
        HexStrToRGBStrict(sHex) == HexStrToRGB(sHex)
  {
    var t := LStrip(sHex, '#');
    if |t| >= 6 && (forall i :: 0 <= i < 6 ==> IsHexDigit(t[i])) {
      StrictAgreesOnDigits(sHex);
    }
  }

  /** The intended parser refuses the signed field that `HexStrToRGB`
      accepts. */
  lemma StrictRefusesSign()
    ensures HexStrToRGBStrict("#-10000").Failure?
  {
    var t := "-10000";
    assert LStrip("#-10000", '#') == t by {
      assert "#-10000"[1..] == t;
    }
    assert Slice(t, 0, 2) == "-1";
    assert ParseFieldStrict(t, 0).Failure?;
  }

  /** The intended parser reads back every formatted valid triple. */
  lemma StrictRoundTrip(rgb: RGB)
    requires IsValid(rgb)
    ensures HexStrToRGBStrict(GetHexStr(rgb)) == Success(rgb)
  {
    GetHexStrFormat(rgb);
    RoundTrip(rgb);
    StrictAgrees(GetHexStr(rgb));
    SplitFields(rgb);
  }
}
