/**
 * The hand-written decoders of packages/kaos/src/internal.ts that skip invalid input, against the
 * encodings themselves (section 3 of RFC 3629 and section 2.1 of RFC 2781). Text is a sequence of
 * Unicode code points.
 */
module TextDecoders {
  import opened Sequences

  type Byte = n: int | 0 <= n < 256

  // A code point that can be encoded: no surrogate.
  predicate IsScalar(c: int) {
    0 <= c < 0xD800 || 0xE000 <= c < 0x110000
  }

  // ---- UTF-8 ----

  function EncodeUtf8Char(c: int): (bytes: seq<Byte>)
    requires IsScalar(c)
    ensures 1 <= |bytes| <= 4
  {
    if c < 0x80 then [c]
    else if c < 0x800 then [0xC0 + c / 0x40, 0x80 + c % 0x40]
    else if c < 0x10000 then [0xE0 + c / 0x40 / 0x40, 0x80 + c / 0x40 % 0x40, 0x80 + c % 0x40]
    else [0xF0 + c / 0x40 / 0x40 / 0x40, 0x80 + c / 0x40 / 0x40 % 0x40, 0x80 + c / 0x40 % 0x40, 0x80 + c % 0x40]
  }

  // ---- UTF-16, little-endian ----

  function Unit(u: int): seq<Byte>
    requires 0 <= u < 0x10000
  {
    [u % 0x100, u / 0x100]
  }

  function EncodeUtf16Char(c: int): (bytes: seq<Byte>)
    requires IsScalar(c)
    ensures |bytes| == if c < 0x10000 then 2 else 4
  {
    if c < 0x10000 then Unit(c)
    else Unit(0xD800 + (c - 0x10000) / 0x400) + Unit(0xDC00 + (c - 0x10000) % 0x400)
  }

  // ---- decoding, as the inverse of encoding ----

  datatype Encoding = Utf8 | Utf16Le

  // What a decoder skips where no character is encoded: one code unit.
  function Width(e: Encoding): nat {
    if e.Utf8? then 1 else 2
  }

  function EncodeChar(e: Encoding, c: int): (bytes: seq<Byte>)
    requires IsScalar(c)
    ensures Width(e) <= |bytes| <= 4
  {
    if e.Utf8? then EncodeUtf8Char(c) else EncodeUtf16Char(c)
  }

  ghost predicate AllScalar(text: seq<int>) {
    forall i :: 0 <= i < |text| ==> IsScalar(text[i])
  }

  ghost function Encode(e: Encoding, text: seq<int>): seq<Byte>
    requires AllScalar(text)
  {
    if text == [] then [] else EncodeChar(e, text[0]) + Encode(e, text[1..])
  }

  // c is what the bytes start with.
  predicate StartsWithChar(e: Encoding, bytes: seq<Byte>, c: int) {
    IsScalar(c) && EncodeChar(e, c) <= bytes
  }

  // Skipping invalid input: read a character wherever one is encoded, drop one unit anywhere else.
  ghost function Decode(e: Encoding, bytes: seq<Byte>): seq<int>
    decreases |bytes|
  {
    if |bytes| < Width(e) then []
    else if c: int :| StartsWithChar(e, bytes, c) then [c] + Decode(e, bytes[|EncodeChar(e, c)|..])
    else Decode(e, bytes[Width(e)..])
  }

  // ---- the byte patterns of section 4 of RFC 3629 ----

  predicate IsContinuation(b: Byte) {
    0x80 <= b <= 0xBF
  }

  predicate IsSecondOfThree(b0: Byte, b1: Byte) {
    || (b0 == 0xE0 && 0xA0 <= b1 <= 0xBF)
    || (0xE1 <= b0 <= 0xEC && IsContinuation(b1))
    || (b0 == 0xED && 0x80 <= b1 <= 0x9F)
    || (0xEE <= b0 <= 0xEF && IsContinuation(b1))
  }

  predicate IsSecondOfFour(b0: Byte, b1: Byte) {
    || (b0 == 0xF0 && 0x90 <= b1 <= 0xBF)
    || (0xF1 <= b0 <= 0xF3 && IsContinuation(b1))
    || (b0 == 0xF4 && 0x80 <= b1 <= 0x8F)
  }

  predicate IsTwo(s: seq<Byte>) {
    |s| >= 2 && 0xC2 <= s[0] <= 0xDF && IsContinuation(s[1])
  }

  predicate IsThree(s: seq<Byte>) {
    |s| >= 3 && 0xE0 <= s[0] <= 0xEF && IsSecondOfThree(s[0], s[1]) && IsContinuation(s[2])
  }

  predicate IsFour(s: seq<Byte>) {
    |s| >= 4 && 0xF0 <= s[0] <= 0xF4 && IsSecondOfFour(s[0], s[1]) && IsContinuation(s[2]) && IsContinuation(s[3])
  }

  // The masks and shifts of the source, on bytes in these ranges.
  function TwoByteChar(b0: Byte, b1: Byte): int {
    b0 % 0x20 * 0x40 + b1 % 0x40
  }

  function ThreeByteChar(b0: Byte, b1: Byte, b2: Byte): int {
    (b0 % 0x10 * 0x40 + b1 % 0x40) * 0x40 + b2 % 0x40
  }

  function FourByteChar(b0: Byte, b1: Byte, b2: Byte, b3: Byte): int {
    ((b0 % 8 * 0x40 + b1 % 0x40) * 0x40 + b2 % 0x40) * 0x40 + b3 % 0x40
  }

  // What the first n bytes say when they match the pattern of length n.
  predicate Reads(s: seq<Byte>, n: nat, c: int) {
    if n == 1 then |s| >= 1 && s[0] < 0x80 && c == s[0]
    else if n == 2 then IsTwo(s) && c == TwoByteChar(s[0], s[1])
    else if n == 3 then IsThree(s) && c == ThreeByteChar(s[0], s[1], s[2])
    else n == 4 && IsFour(s) && c == FourByteChar(s[0], s[1], s[2], s[3])
  }

  lemma TwoByteEncoding(c: int)
    requires 0x80 <= c < 0x800
    ensures Reads(EncodeUtf8Char(c), 2, c)
  {
  }

  lemma ThreeByteEncoding(c: int)
    requires IsScalar(c) && 0x800 <= c < 0x10000
    ensures Reads(EncodeUtf8Char(c), 3, c)
  {
    var q := c / 0x40;
    assert c == q * 0x40 + c % 0x40 && q == q / 0x40 * 0x40 + q % 0x40;
  }

  lemma FourByteEncoding(c: int)
    requires 0x10000 <= c < 0x110000
    ensures Reads(EncodeUtf8Char(c), 4, c)
  {
    var q := c / 0x40;
    FourBytesRead(q / 0x40 / 0x40, q / 0x40 % 0x40, q % 0x40, c % 0x40, c);
  }

  lemma FourBytesRead(h: int, r: int, q: int, d: int, c: int)
    requires 0x10000 <= c < 0x110000 && 0 <= r < 0x40 && 0 <= q < 0x40 && 0 <= d < 0x40
    requires c == ((h * 0x40 + r) * 0x40 + q) * 0x40 + d
    ensures 0 <= h <= 4 && Reads([0xF0 + h, 0x80 + r, 0x80 + q, 0x80 + d], 4, c)
  {
  }

  // An encoding has the pattern of its length and stands for its character.
  lemma EncodingHasPattern(s: seq<Byte>, c: int)
    requires StartsWithChar(Utf8, s, c)
    ensures Reads(s, |EncodeUtf8Char(c)|, c)
  {
    var e := EncodeUtf8Char(c);
    if 0x80 <= c < 0x800 {
      TwoByteEncoding(c);
    } else if 0x800 <= c < 0x10000 {
      ThreeByteEncoding(c);
    } else if 0x10000 <= c {
      FourByteEncoding(c);
    }
    assert Reads(e, |e|, c);
    assert forall i :: 0 <= i < |e| ==> s[i] == e[i];
  }

  lemma Digits(high: int, low: int)
    requires 0 <= low < 0x40
    ensures (high * 0x40 + low) / 0x40 == high && (high * 0x40 + low) % 0x40 == low
  {
  }

  // Conversely, bytes that match a pattern encode the character they stand for.
  lemma PatternEncodes(s: seq<Byte>, n: nat, c: int)
    requires Reads(s, n, c)
    ensures StartsWithChar(Utf8, s, c) && |EncodeUtf8Char(c)| == n
  {
    if n == 1 {
      assert EncodeUtf8Char(c) == [s[0]];
    } else if n == 2 {
      TwoBytesEncode(s, c);
    } else if n == 3 {
      ThreeBytesEncode(s, c);
    } else {
      FourBytesEncode(s, c);
    }
  }

  lemma TwoBytesEncode(s: seq<Byte>, c: int)
    requires Reads(s, 2, c)
    ensures IsScalar(c) && EncodeUtf8Char(c) == [s[0], s[1]]
  {
    Digits(s[0] % 0x20, s[1] % 0x40);
  }

  // The low six bits of a continuation byte.
  lemma ContinuationBits(b: Byte)
    requires IsContinuation(b)
    ensures b % 0x40 == b - 0x80
  {
  }

  lemma ThreeBytesEncode(s: seq<Byte>, c: int)
    requires Reads(s, 3, c)
    ensures IsScalar(c) && EncodeUtf8Char(c) == [s[0], s[1], s[2]]
  {
    ContinuationBits(s[1]);
    ContinuationBits(s[2]);
    assert s[0] % 0x10 == s[0] - 0xE0;
    ThreeDigits(s[0] - 0xE0, s[1] - 0x80, s[2] - 0x80, c);
  }

  lemma ThreeDigits(r: int, q: int, d: int, c: int)
    requires 0 <= r < 0x10 && 0 <= q < 0x40 && 0 <= d < 0x40
    requires 0x20 <= r * 0x40 + q && (r * 0x40 + q < 0x360 || 0x380 <= r * 0x40 + q)
    requires c == (r * 0x40 + q) * 0x40 + d
    ensures IsScalar(c) && EncodeUtf8Char(c) == [0xE0 + r, 0x80 + q, 0x80 + d]
  {
    Digits(r * 0x40 + q, d);
    Digits(r, q);
  }

  lemma FourBytesEncode(s: seq<Byte>, c: int)
    requires Reads(s, 4, c)
    ensures IsScalar(c) && EncodeUtf8Char(c) == [s[0], s[1], s[2], s[3]]
  {
    ContinuationBits(s[1]);
    ContinuationBits(s[2]);
    ContinuationBits(s[3]);
    assert s[0] % 8 == s[0] - 0xF0;
    FourDigits(s[0] - 0xF0, s[1] - 0x80, s[2] - 0x80, s[3] - 0x80, c);
  }

  lemma FourDigits(h: int, r: int, q: int, d: int, c: int)
    requires 0 <= h <= 4 && 0 <= r < 0x40 && 0 <= q < 0x40 && 0 <= d < 0x40 && 0x10 <= h * 0x40 + r < 0x110
    requires c == ((h * 0x40 + r) * 0x40 + q) * 0x40 + d
    ensures IsScalar(c) && EncodeUtf8Char(c) == [0xF0 + h, 0x80 + r, 0x80 + q, 0x80 + d]
  {
    Digits((h * 0x40 + r) * 0x40 + q, d);
    Digits(h * 0x40 + r, q);
    Digits(h, r);
  }

  // ---- the patterns of UTF-16 ----

  function UnitAt(lo: Byte, hi: Byte): int {
    lo + 0x100 * hi
  }

  predicate IsHigh(u: int) {
    0xD800 <= u <= 0xDBFF
  }

  predicate IsLow(u: int) {
    0xDC00 <= u <= 0xDFFF
  }

  predicate IsPair(s: seq<Byte>) {
    |s| >= 4 && IsHigh(UnitAt(s[0], s[1])) && IsLow(UnitAt(s[2], s[3]))
  }

  // What the first n bytes say when they are one unit or a surrogate pair.
  predicate ReadsUnits(s: seq<Byte>, n: nat, c: int) {
    if n == 2 then
      |s| >= 2 && c == UnitAt(s[0], s[1]) && !IsHigh(c) && !IsLow(c)
    else
      n == 4 && IsPair(s) &&
      c == 0x10000 + (UnitAt(s[0], s[1]) - 0xD800) * 0x400 + (UnitAt(s[2], s[3]) - 0xDC00)
  }

  lemma UnitIsReadBack(u: int)
    requires 0 <= u < 0x10000
    ensures UnitAt(Unit(u)[0], Unit(u)[1]) == u
  {
  }

  lemma ReadUnitIsWritten(lo: Byte, hi: Byte)
    ensures Unit(UnitAt(lo, hi)) == [lo, hi]
  {
  }

  lemma EncodingHasUnits(s: seq<Byte>, c: int)
    requires StartsWithChar(Utf16Le, s, c)
    ensures ReadsUnits(s, |EncodeUtf16Char(c)|, c)
  {
    var e := EncodeUtf16Char(c);
    assert forall i :: 0 <= i < |e| ==> s[i] == e[i];
    if c < 0x10000 {
      UnitIsReadBack(c);
    } else {
      var d := c - 0x10000;
      assert d == d / 0x400 * 0x400 + d % 0x400 && 0 <= d / 0x400 < 0x400;
      UnitIsReadBack(0xD800 + d / 0x400);
      UnitIsReadBack(0xDC00 + d % 0x400);
    }
  }

  lemma UnitsEncode(s: seq<Byte>, n: nat, c: int)
    requires ReadsUnits(s, n, c)
    ensures StartsWithChar(Utf16Le, s, c) && |EncodeUtf16Char(c)| == n
  {
    ReadUnitIsWritten(s[0], s[1]);
    if n == 4 {
      ReadUnitIsWritten(s[2], s[3]);
      var high, low := UnitAt(s[0], s[1]) - 0xD800, UnitAt(s[2], s[3]) - 0xDC00;
      assert (high * 0x400 + low) / 0x400 == high && (high * 0x400 + low) % 0x400 == low;
      assert EncodeUtf16Char(c) == [s[0], s[1], s[2], s[3]];
    }
  }

  // ---- decoding is a function of the bytes ----

  // No encoding is a proper prefix of another: what a string of bytes starts with is unique.
  lemma CharIsUnique(e: Encoding, s: seq<Byte>, c: int, d: int)
    requires StartsWithChar(e, s, c) && StartsWithChar(e, s, d)
    ensures c == d
  {
    if e.Utf8? {
      EncodingHasPattern(s, c);
      EncodingHasPattern(s, d);
    } else {
      EncodingHasUnits(s, c);
      EncodingHasUnits(s, d);
    }
  }

  lemma DecodeChar(e: Encoding, s: seq<Byte>, c: int)
    requires StartsWithChar(e, s, c)
    ensures Decode(e, s) == [c] + Decode(e, s[|EncodeChar(e, c)|..])
  {
    var d: int :| StartsWithChar(e, s, d) && Decode(e, s) == [d] + Decode(e, s[|EncodeChar(e, d)|..]);
    CharIsUnique(e, s, c, d);
  }

  // A byte that starts no pattern is dropped.
  lemma DropByte(s: seq<Byte>)
    requires s != [] && s[0] >= 0x80 && !IsTwo(s) && !IsThree(s) && !IsFour(s)
    ensures Decode(Utf8, s) == Decode(Utf8, s[1..])
  {
    forall c: int ensures !StartsWithChar(Utf8, s, c) {
      if StartsWithChar(Utf8, s, c) {
        EncodingHasPattern(s, c);
      }
    }
  }

  // ---- the UTF-8 decoder ----

  // Decoding from i on finds this first and then goes on `used` bytes further.
  ghost predicate Advances(e: Encoding, data: seq<Byte>, i: nat, found: seq<int>, used: nat) {
    1 <= used && i + used <= |data| && Decode(e, data[i..]) == found + Decode(e, data[i + used..])
  }

  lemma ReadAt(data: seq<Byte>, i: nat, n: nat, c: int)
    requires i <= |data| && Reads(data[i..], n, c)
    ensures Advances(Utf8, data, i, [c], n)
  {
    PatternEncodes(data[i..], n, c);
    DecodeChar(Utf8, data[i..], c);
    assert data[i..][n..] == data[i + n..];
  }

  lemma DropAt(data: seq<Byte>, i: nat)
    requires i < |data| && data[i] >= 0x80 && !IsTwo(data[i..]) && !IsThree(data[i..]) && !IsFour(data[i..])
    ensures Advances(Utf8, data, i, [], 1)
  {
    DropByte(data[i..]);
    assert data[i..][1..] == data[i + 1..];
  }

  // One round of the loop: the character found at i, if any, and how many bytes to move on.
  method ReadUtf8(data: seq<Byte>, i: nat) returns (found: seq<int>, used: nat)
    requires i < |data|
    ensures Advances(Utf8, data, i, found, used)
  {
    var b0 := data[i];
    if b0 <= 0x7F {
      ReadAt(data, i, 1, b0);
      return [b0], 1;
    }
    if 0xC2 <= b0 <= 0xDF {
      if i + 1 < |data| && IsContinuation(data[i + 1]) {
        ReadAt(data, i, 2, TwoByteChar(b0, data[i + 1]));
        return [TwoByteChar(b0, data[i + 1])], 2;
      }
      DropAt(data, i);
      return [], 1;
    }
    if 0xE0 <= b0 <= 0xEF {
      var validSecond := i + 1 < |data| && IsSecondOfThree(b0, data[i + 1]);
      if validSecond && i + 2 < |data| && IsContinuation(data[i + 2]) {
        ReadAt(data, i, 3, ThreeByteChar(b0, data[i + 1], data[i + 2]));
        return [ThreeByteChar(b0, data[i + 1], data[i + 2])], 3;
      }
      DropAt(data, i);
      return [], 1;
    }
    if 0xF0 <= b0 <= 0xF4 {
      var validSecond := i + 1 < |data| && IsSecondOfFour(b0, data[i + 1]);
      if validSecond && i + 3 < |data| && IsContinuation(data[i + 2]) && IsContinuation(data[i + 3]) {
        ReadAt(data, i, 4, FourByteChar(b0, data[i + 1], data[i + 2], data[i + 3]));
        return [FourByteChar(b0, data[i + 1], data[i + 2], data[i + 3])], 4;
      }
      DropAt(data, i);
      return [], 1;
    }
    DropAt(data, i);
    return [], 1;
  }

  method DecodeUtf8Ignore(data: seq<Byte>) returns (output: seq<int>)
    ensures output == Decode(Utf8, data)
  {
    output := [];
    var i := 0;
    assert data[0..] == data;
    while i < |data|
      invariant 0 <= i <= |data|
      invariant output + Decode(Utf8, data[i..]) == Decode(Utf8, data)
    {
      var found, used := ReadUtf8(data, i);
      Regroup(output, found, Decode(Utf8, data[i + used..]));
      output := output + found;
      i := i + used;
    }
    assert data[|data|..] == [];
  }

  // ---- the UTF-16LE decoder ----

  // A surrogate with no partner is dropped.
  lemma DropUnit(s: seq<Byte>)
    requires |s| >= 2 && !IsPair(s)
    requires var u := UnitAt(s[0], s[1]); IsHigh(u) || IsLow(u)
    ensures Decode(Utf16Le, s) == Decode(Utf16Le, s[2..])
  {
    forall c: int ensures !StartsWithChar(Utf16Le, s, c) {
      if StartsWithChar(Utf16Le, s, c) {
        EncodingHasUnits(s, c);
      }
    }
  }

  lemma ReadUnitsAt(data: seq<Byte>, i: nat, n: nat, c: int)
    requires i <= |data| && ReadsUnits(data[i..], n, c)
    ensures Advances(Utf16Le, data, i, [c], n)
  {
    UnitsEncode(data[i..], n, c);
    DecodeChar(Utf16Le, data[i..], c);
    assert data[i..][n..] == data[i + n..];
  }

  lemma DropUnitAt(data: seq<Byte>, i: nat)
    requires i + 1 < |data| && !IsPair(data[i..])
    requires var u := UnitAt(data[i], data[i + 1]); IsHigh(u) || IsLow(u)
    ensures Advances(Utf16Le, data, i, [], 2)
  {
    DropUnit(data[i..]);
    assert data[i..][2..] == data[i + 2..];
  }

  // One round of the loop: the character found at i, if any, and how many bytes to move on.
  // A high surrogate takes the low one after it along, or is dropped.
  method ReadPair(data: seq<Byte>, i: nat, high: int) returns (found: seq<int>, used: nat)
    requires i + 1 < |data| && high == UnitAt(data[i], data[i + 1]) && 0xD800 <= high <= 0xDBFF
    ensures Advances(Utf16Le, data, i, found, used)
  {
    found, used := [], 2;
    if i + 3 < |data| {
      var low := UnitAt(data[i + 2], data[i + 3]);
      if 0xDC00 <= low <= 0xDFFF {
        found, used := [0x10000 + (high - 0xD800) * 0x400 + (low - 0xDC00)], 4;
        ReadUnitsAt(data, i, 4, found[0]);
        return;
      }
    }
    DropUnitAt(data, i);
  }

  method ReadUtf16(data: seq<Byte>, i: nat) returns (found: seq<int>, used: nat)
    requires i + 1 < |data|
    ensures Advances(Utf16Le, data, i, found, used)
  {
    var codeUnit := UnitAt(data[i], data[i + 1]);
    found, used := [], 2;
    if 0xD800 <= codeUnit <= 0xDBFF {
      found, used := ReadPair(data, i, codeUnit);
    } else if 0xDC00 <= codeUnit <= 0xDFFF {
      DropUnitAt(data, i);
    } else {
      found := [codeUnit];
      ReadUnitsAt(data, i, 2, codeUnit);
    }
  }

  method DecodeUtf16LeIgnore(data: seq<Byte>) returns (output: seq<int>)
    ensures output == Decode(Utf16Le, data)
  {
    output := [];
    var i := 0;
    assert data[0..] == data;
    while i + 1 < |data|
      invariant 0 <= i <= |data|
      invariant output + Decode(Utf16Le, data[i..]) == Decode(Utf16Le, data)
    {
      var found, used := ReadUtf16(data, i);
      Regroup(output, found, Decode(Utf16Le, data[i + used..]));
      output := output + found;
      i := i + used;
    }
  }

  // ---- what skipping invalid input guarantees, in either encoding ----

  lemma EncodeFirst(e: Encoding, text: seq<int>, rest: seq<Byte>)
    requires AllScalar(text) && text != []
    ensures Encode(e, text) + rest == EncodeChar(e, text[0]) + (Encode(e, text[1..]) + rest)
  {
  }

  lemma DecodeFirst(e: Encoding, c: int, tail: seq<Byte>)
    requires IsScalar(c)
    ensures Decode(e, EncodeChar(e, c) + tail) == [c] + Decode(e, tail)
  {
    var bytes := EncodeChar(e, c);
    DecodeChar(e, bytes + tail, c);
    assert (bytes + tail)[|bytes|..] == tail;
  }

  lemma RegroupText(text: seq<int>, more: seq<int>)
    requires text != []
    ensures [text[0]] + (text[1..] + more) == text + more
  {
  }

  lemma DecodeOneMore(e: Encoding, text: seq<int>, tail: seq<Byte>, rest: seq<Byte>)
    requires text != [] && IsScalar(text[0]) && Decode(e, tail) == text[1..] + Decode(e, rest)
    ensures Decode(e, EncodeChar(e, text[0]) + tail) == text + Decode(e, rest)
  {
    DecodeFirst(e, text[0], tail);
    RegroupText(text, Decode(e, rest));
  }

  // Valid text in front is read back exactly, whatever follows it.
  lemma {:induction false} DecodingInvertsEncoding(e: Encoding, text: seq<int>, rest: seq<Byte>)
    requires AllScalar(text)
    ensures Decode(e, Encode(e, text) + rest) == text + Decode(e, rest)
    decreases |text|
  {
    if text == [] {
      assert Encode(e, text) + rest == rest;
    } else {
      DecodingInvertsEncoding(e, text[1..], rest);
      DecodeOneMore(e, text, Encode(e, text[1..]) + rest, rest);
      EncodeFirst(e, text, rest);
    }
  }

  lemma {:induction false} DecodedTextIsScalar(e: Encoding, bytes: seq<Byte>)
    ensures AllScalar(Decode(e, bytes))
    decreases |bytes|
  {
    if |bytes| >= Width(e) {
      if c: int :| StartsWithChar(e, bytes, c) {
        DecodeChar(e, bytes, c);
        DecodedTextIsScalar(e, bytes[|EncodeChar(e, c)|..]);
      } else {
        DecodedTextIsScalar(e, bytes[Width(e)..]);
      }
    }
  }

  // t is s with some elements left out.
  predicate IsSubsequence<T(==)>(t: seq<T>, s: seq<T>) {
    if t == [] then true
    else if s == [] then false
    else (t[0] == s[0] && IsSubsequence(t[1..], s[1..])) || IsSubsequence(t, s[1..])
  }

  // That is, its elements stand in s at increasing positions.
  ghost predicate StandsIn<T>(t: seq<T>, s: seq<T>, at: seq<nat>) {
    && |at| == |t|
    && (forall i :: 0 <= i < |t| ==> at[i] < |s| && t[i] == s[at[i]])
    && (forall i, j :: 0 <= i < j < |t| ==> at[i] < at[j])
  }

  lemma {:induction false} SubsequencePositions<T>(t: seq<T>, s: seq<T>)
    requires IsSubsequence(t, s)
    ensures exists at :: StandsIn(t, s, at)
    decreases |s|
  {
    if t == [] {
      assert StandsIn(t, s, []);
    } else if t[0] == s[0] && IsSubsequence(t[1..], s[1..]) {
      SubsequencePositions(t[1..], s[1..]);
      var later :| StandsIn(t[1..], s[1..], later);
      assert StandsIn(t, s, [0 as nat] + seq(|later|, i requires 0 <= i < |later| => later[i] + 1));
    } else {
      SubsequencePositions(t, s[1..]);
      var later :| StandsIn(t, s[1..], later);
      assert StandsIn(t, s, seq(|later|, i requires 0 <= i < |later| => later[i] + 1));
    }
  }

  lemma {:induction false} SubsequenceUnderPrefix<T>(p: seq<T>, t: seq<T>, s: seq<T>)
    requires IsSubsequence(t, s)
    ensures IsSubsequence(p + t, p + s)
    decreases |p|
  {
    if p == [] {
      assert p + t == t && p + s == s;
    } else {
      assert (p + t)[1..] == p[1..] + t && (p + s)[1..] == p[1..] + s;
      SubsequenceUnderPrefix(p[1..], t, s);
    }
  }

  // Nothing is made up: the output re-encoded is the input with some bytes left out.
  lemma {:induction false} ReencodingIsASubsequence(e: Encoding, bytes: seq<Byte>)
    ensures AllScalar(Decode(e, bytes)) && IsSubsequence(Encode(e, Decode(e, bytes)), bytes)
    decreases |bytes|
  {
    DecodedTextIsScalar(e, bytes);
    if |bytes| >= Width(e) {
      if c: int :| StartsWithChar(e, bytes, c) {
        var first := EncodeChar(e, c);
        var rest := bytes[|first|..];
        DecodeChar(e, bytes, c);
        ReencodingIsASubsequence(e, rest);
        SubsequenceUnderPrefix(first, Encode(e, Decode(e, rest)), rest);
        assert first + rest == bytes;
        assert Decode(e, bytes)[1..] == Decode(e, rest);
      } else {
        ReencodingIsASubsequence(e, bytes[Width(e)..]);
        if e.Utf16Le? {
          assert bytes[2..] == bytes[1..][1..];
        }
      }
    }
  }

  // One stray byte between two valid encodings is dropped and harms neither.
  lemma StrayByteIsDropped(before: seq<int>, stray: Byte, after: seq<int>)
    requires AllScalar(before) && AllScalar(after) && stray >= 0x80
    ensures Decode(Utf8, Encode(Utf8, before) + ([stray] + Encode(Utf8, after))) == before + after
  {
    DecodingInvertsEncoding(Utf8, before, [stray] + Encode(Utf8, after));
    DecodeAfterStray(stray, after);
  }

  lemma DecodeAfterStray(stray: Byte, after: seq<int>)
    requires AllScalar(after) && stray >= 0x80
    ensures Decode(Utf8, [stray] + Encode(Utf8, after)) == after
  {
    var tail := [stray] + Encode(Utf8, after);
    if after != [] {
      FirstByteStartsAPattern(after);
      assert tail[1] == Encode(Utf8, after)[0];
    }
    DropByte(tail);
    assert tail[1..] == Encode(Utf8, after);
    EncodedTextIsReadBack(Utf8, after);
  }

  lemma FirstByteStartsAPattern(text: seq<int>)
    requires AllScalar(text) && text != []
    ensures Encode(Utf8, text) != [] && !IsContinuation(Encode(Utf8, text)[0])
  {
    assert StartsWithChar(Utf8, Encode(Utf8, text), text[0]);
    EncodingHasPattern(Encode(Utf8, text), text[0]);
  }

  lemma EncodedTextIsReadBack(e: Encoding, text: seq<int>)
    requires AllScalar(text)
    ensures Decode(e, Encode(e, text)) == text
  {
    DecodingInvertsEncoding(e, text, []);
    assert Encode(e, text) + [] == Encode(e, text) && text + [] == text;
  }

  // A surrogate that does not pair up with what follows is dropped, and so is an odd last byte.
  lemma UnpairedSurrogateIsDropped(before: seq<int>, u: int, after: seq<int>)
    requires AllScalar(before) && AllScalar(after) && 0xD800 <= u < 0xE000
    ensures Decode(Utf16Le, Encode(Utf16Le, before) + (Unit(u) + Encode(Utf16Le, after))) == before + after
  {
    var tail := Unit(u) + Encode(Utf16Le, after);
    DecodingInvertsEncoding(Utf16Le, before, tail);
    UnitIsReadBack(u);
    if after != [] {
      FirstUnitIsNotLow(after);
      assert tail[2] == Encode(Utf16Le, after)[0] && tail[3] == Encode(Utf16Le, after)[1];
    }
    DropUnit(tail);
    assert tail[2..] == Encode(Utf16Le, after);
    EncodedTextIsReadBack(Utf16Le, after);
  }

  lemma FirstUnitIsNotLow(text: seq<int>)
    requires AllScalar(text) && text != []
    ensures var e := Encode(Utf16Le, text); |e| >= 2 && !IsLow(UnitAt(e[0], e[1]))
  {
    var e := Encode(Utf16Le, text);
    assert StartsWithChar(Utf16Le, e, text[0]);
    EncodingHasUnits(e, text[0]);
  }

  lemma OddLastByteIsDropped(text: seq<int>, last: Byte)
    requires AllScalar(text)
    ensures Decode(Utf16Le, Encode(Utf16Le, text) + [last]) == text
  {
    DecodingInvertsEncoding(Utf16Le, text, [last]);
  }
}
