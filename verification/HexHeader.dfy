/** The four-character length header: `snprintf(header, 5, "%04x", len)` on the sending side and
    `std::stoul(text, nullptr, 16)` on the receiving side (section 7.22.1.4 of ISO/IEC 9899:2011). */
module HexHeader {
  import opened Collections

  type Byte = b: int | 0 <= b < 256

  const ULONG_RANGE: nat := 0x1_0000_0000_0000_0000
  const UINT32_RANGE: nat := 0x1_0000_0000

  // ---------------------------------------------------------------- reading

  /** `isspace` in the C locale. */
  predicate IsSpace(b: Byte) {
    b == 32 || 9 <= b <= 13
  }

  function DigitValue(b: Byte): (v: Option<nat>)
    ensures v.Some? ==> v.value < 16
  {
    if 48 <= b <= 57 then Some(b - 48)          // 0-9
    else if 97 <= b <= 102 then Some(b - 87)    // a-f
    else if 65 <= b <= 70 then Some(b - 55)     // A-F
    else None
  }

  function SkipSpaces(s: seq<Byte>): seq<Byte> {
    if s != [] && IsSpace(s[0]) then SkipSpaces(s[1..]) else s
  }

  /** The longest prefix of hexadecimal digits. */
  function DigitPrefix(s: seq<Byte>): seq<Byte> {
    if s != [] && DigitValue(s[0]).Some? then [s[0]] + DigitPrefix(s[1..]) else []
  }

  /** The value of a digit string, most significant digit first. */
  function DigitsValue(s: seq<Byte>, acc: nat): nat {
    if s == [] then acc
    else DigitsValue(s[1..], acc * 16 + (match DigitValue(s[0]) case Some(v) => v case None => 0))
  }

  /** An optional `0x` counts as a prefix only when a digit follows it. */
  function SkipPrefix(s: seq<Byte>): seq<Byte> {
    if |s| >= 3 && s[0] == 48 && (s[1] == 120 || s[1] == 88) && DigitValue(s[2]).Some? then s[2..] else s
  }

  /** `stoul` in base 16; None stands for the exception thrown when no digit is found. Four characters
      never exceed the range of `unsigned long`, and a minus sign negates in that type. */
  function Stoul(s: seq<Byte>): Option<nat> {
    var t := SkipSpaces(s);
    var negative := t != [] && t[0] == 45;
    var body := SkipPrefix(if t != [] && (t[0] == 45 || t[0] == 43) then t[1..] else t);
    var digits := DigitPrefix(body);
    if digits == [] then None
    else
      var v := DigitsValue(digits, 0) % ULONG_RANGE;
      Some(if negative && v != 0 then ULONG_RANGE - v else v)
  }

  /** The assignment to `uint32_t len`. */
  function ReadHeader(s: seq<Byte>): (len: Option<nat>)
    ensures len.Some? ==> len.value < UINT32_RANGE
  {
    match Stoul(s)
    case None => None
    case Some(v) => Some(v % UINT32_RANGE)
  }

  // ---------------------------------------------------------------- writing

  function HexDigit(v: nat): Byte
    requires v < 16
  {
    if v < 10 then 48 + v else 87 + v
  }

  /** All digits of `n`, with no padding for `n > 0` and nothing for 0. */
  function HexDigits(n: nat): seq<Byte> {
    if n == 0 then [] else HexDigits(n / 16) + [HexDigit(n % 16)]
  }

  function ZeroPad(s: seq<Byte>): (r: seq<Byte>)
    ensures |r| >= 4
    decreases 4 - |s|
  {
    if |s| < 4 then ZeroPad([48] + s) else s
  }

  /** `%04x` into a five-byte buffer: padded to four digits, and cut to four characters. */
  function WriteHeader(n: nat): (h: seq<Byte>)
    ensures |h| == 4
  {
    ZeroPad(HexDigits(n))[..4]
  }

  // ---------------------------------------------------------------- reading back what was written

  predicate AllDigits(s: seq<Byte>) {
    forall i :: 0 <= i < |s| ==> DigitValue(s[i]).Some?
  }

  /** Only these characters are produced by `%x`. */
  predicate IsLowerHex(b: Byte) {
    48 <= b <= 57 || 97 <= b <= 102
  }

  lemma {:induction false} DigitPrefixOfDigits(s: seq<Byte>)
    requires AllDigits(s)
    ensures DigitPrefix(s) == s
  {
    if s != [] { DigitPrefixOfDigits(s[1..]); }
  }

  lemma {:induction false} ValueAppend(s: seq<Byte>, d: Byte, acc: nat)
    requires AllDigits(s) && DigitValue(d).Some?
    ensures DigitsValue(s + [d], acc) == DigitsValue(s, acc) * 16 + DigitValue(d).value
  {
    if s == [] {
      assert ([d])[1..] == [];
    } else {
      assert (s + [d])[1..] == s[1..] + [d];
      ValueAppend(s[1..], d, acc * 16 + DigitValue(s[0]).value);
    }
  }

  lemma {:induction false} HexDigitsValue(n: nat)
    ensures AllDigits(HexDigits(n)) && DigitsValue(HexDigits(n), 0) == n
    ensures forall i :: 0 <= i < |HexDigits(n)| ==> IsLowerHex(HexDigits(n)[i])
  {
    if n > 0 {
      HexDigitsValue(n / 16);
      ValueAppend(HexDigits(n / 16), HexDigit(n % 16), 0);
    }
  }

  lemma {:induction false} PadKeepsValue(s: seq<Byte>)
    requires AllDigits(s) && forall i :: 0 <= i < |s| ==> IsLowerHex(s[i])
    ensures AllDigits(ZeroPad(s)) && DigitsValue(ZeroPad(s), 0) == DigitsValue(s, 0)
    ensures forall i :: 0 <= i < |ZeroPad(s)| ==> IsLowerHex(ZeroPad(s)[i])
    ensures |ZeroPad(s)| == if |s| < 4 then 4 else |s|
    decreases 4 - |s|
  {
    if |s| < 4 {
      assert ([48] + s)[1..] == s;
      PadKeepsValue([48] + s);
    }
  }

  /** Four lower-case digits are read as their plain value: no sign, space or `0x` can appear. */
  lemma ReadPlainDigits(s: seq<Byte>)
    requires |s| == 4 && AllDigits(s) && forall i :: 0 <= i < |s| ==> IsLowerHex(s[i])
    ensures ReadHeader(s) == Some(DigitsValue(s, 0)) && DigitsValue(s, 0) < 65536
  {
    DigitPrefixOfDigits(s);
    assert IsLowerHex(s[0]) && IsLowerHex(s[1]);
    FourDigits(s);
  }

  lemma FourDigits(s: seq<Byte>)
    requires |s| == 4 && AllDigits(s)
    ensures DigitsValue(s, 0) < 65536
  {
    var a, b, c, d := DigitValue(s[0]).value, DigitValue(s[1]).value, DigitValue(s[2]).value, DigitValue(s[3]).value;
    assert s[1..][0] == s[1] && s[1..][1..][0] == s[2] && s[1..][1..][1..][0] == s[3];
    assert DigitsValue(s, 0) == DigitsValue(s[1..], a);
    assert DigitsValue(s[1..], a) == DigitsValue(s[1..][1..], a * 16 + b);
    assert DigitsValue(s[1..][1..], a * 16 + b) == DigitsValue(s[1..][1..][1..], (a * 16 + b) * 16 + c);
    assert DigitsValue(s[1..][1..][1..], (a * 16 + b) * 16 + c) == ((a * 16 + b) * 16 + c) * 16 + d;
  }

  lemma {:induction false} DigitCount(n: nat, k: nat)
    requires n > 0
    ensures |HexDigits(n)| <= k <==> n < Power16(k)
    decreases n
  {
    if k == 0 {
    } else if n < 16 {
      assert HexDigits(n / 16) == [];
      PowerPositive(k - 1);
    } else {
      DigitCount(n / 16, k - 1);
    }
  }

  function Power16(k: nat): nat { if k == 0 then 1 else 16 * Power16(k - 1) }

  lemma {:induction false} PowerPositive(k: nat)
    ensures Power16(k) >= 1
  {
    if k > 0 { PowerPositive(k - 1); }
  }

  /** A header survives the trip exactly for lengths of at most four hexadecimal digits; a longer one is
      cut by `snprintf` and read as a smaller number. */
  lemma HeaderRoundTrip(n: nat)
    ensures ReadHeader(WriteHeader(n)) == Some(n) <==> n <= 65535
    ensures ReadHeader(WriteHeader(n)).Some? && ReadHeader(WriteHeader(n)).value < 65536
  {
    HexDigitsValue(n);
    PadKeepsValue(HexDigits(n));
    var h := WriteHeader(n);
    assert AllDigits(h) && forall i :: 0 <= i < |h| ==> IsLowerHex(h[i]);
    ReadPlainDigits(h);
    if n > 0 {
      DigitCount(n, 4);
      assert Power16(4) == 65536;
    }
    if n <= 65535 { assert h == ZeroPad(HexDigits(n)); }
  }

  lemma FourOf(a: Byte, b: Byte, c: Byte, d: Byte)
    ensures ZeroPad([d]) == [48, 48, 48, d] && ZeroPad([c, d]) == [48, 48, c, d] && ZeroPad([b, c, d]) == [48, b, c, d]
    ensures ZeroPad([a, b, c, d]) == [a, b, c, d] && ZeroPad([]) == [48, 48, 48, 48]
  {
    var z: Byte := 48;
    assert [z] + [b, c, d] == [z, b, c, d];
    assert [z] + [c, d] == [z, c, d] && [z] + [z, c, d] == [z, z, c, d];
    PadStep([c, d]);
    assert [z] + [d] == [z, d] && [z] + [z, d] == [z, z, d] && [z] + [z, z, d] == [z, z, z, d];
    PadStep([d]);
    PadStep([z, d]);
    assert [z] + [] == [z] && [z] + [z] == [z, z] && [z] + [z, z] == [z, z, z] && [z] + [z, z, z] == [z, z, z, z];
    PadStep([]);
    PadStep([z]);
    PadStep([z, z]);
  }

  lemma PadStep(s: seq<Byte>)
    requires |s| < 4
    ensures ZeroPad(s) == ZeroPad([48] + s)
  {
  }

  lemma DigitsOfOne(n: nat)
    requires 0 < n < 16
    ensures HexDigits(n) == [HexDigit(n)]
  {
    assert HexDigits(n) == [] + [HexDigit(n)];
  }

  lemma DigitsOfMore(n: nat)
    requires n >= 16
    ensures HexDigits(n) == HexDigits(n / 16) + [HexDigit(n % 16)]
  {
  }

  /** The header of a length of at most four digits, digit by digit. */
  lemma HeaderDigits(n: nat)
    requires n < 65536
    ensures WriteHeader(n) == [HexDigit(n / 4096), HexDigit(n / 256 % 16), HexDigit(n / 16 % 16), HexDigit(n % 16)]
  {
    var a, b, c, d := HexDigit(n / 4096), HexDigit(n / 256 % 16), HexDigit(n / 16 % 16), HexDigit(n % 16);
    FourOf(a, b, c, d);
    if 0 < n < 16 {
      DigitsOfOne(n);
    } else if 16 <= n < 256 {
      DigitsOfMore(n);
      DigitsOfOne(n / 16);
      assert HexDigits(n) == [c, d];
    } else if 256 <= n < 4096 {
      DigitsOfMore(n);
      DigitsOfMore(n / 16);
      DigitsOfOne(n / 16 / 16);
      assert HexDigits(n) == [b, c, d];
    } else if n >= 4096 {
      DigitsOfMore(n);
      DigitsOfMore(n / 16);
      DigitsOfMore(n / 16 / 16);
      DigitsOfOne(n / 16 / 16 / 16);
      assert HexDigits(n) == [a, b, c, d];
    }
  }
}
