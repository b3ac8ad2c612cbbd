/**
 * The volume token: four hexadecimal characters typed by the user, packed
 * into the two-byte payload handed to the native control transfer.
 */
module HexCodec {

  /** A Java byte, seen as its bit pattern: the value 0..255 that reaches the device. */
  type uint8 = x: int | 0 <= x < 256

  predicate IsHexDigit(c: char) {
    '0' <= c <= '9' || 'a' <= c <= 'f' || 'A' <= c <= 'F'
  }

  /** Character.digit(c, 16) on ASCII: the digit's value, or -1 for anything else. */
  function Digit(c: char): (d: int)
    ensures -1 <= d < 16
    ensures d >= 0 <==> IsHexDigit(c)
  {
    if '0' <= c <= '9' then c as int - '0' as int
    else if 'a' <= c <= 'f' then c as int - 'a' as int + 10
    else if 'A' <= c <= 'F' then c as int - 'A' as int + 10
    else -1
  }

  predicate IsHexString(s: string) {
    forall i :: 0 <= i < |s| ==> IsHexDigit(s[i])
  }

  /** The whole text matches the regular expression [0-9A-Fa-f]{4}. */
  predicate IsVolumeToken(s: string) {
    |s| == 4 && IsHexString(s)
  }

  /** Numeric value of a string of hexadecimal digits, most significant digit first. */
  function HexValue(s: string): nat
    requires IsHexString(s)
  {
    if s == [] then 0 else HexValue(s[..|s| - 1]) * 16 + Digit(s[|s| - 1])
  }

  /** Numeric value of a byte string, most significant byte first. */
  function BytesValue(b: seq<uint8>): nat {
    if b == [] then 0 else BytesValue(b[..|b| - 1]) * 256 + b[|b| - 1]
  }

  /**
   * The bytes hexStringToByteArray produces: byte i holds the digit at 2i as its
   * high nibble and the digit at 2i+1 as its low nibble.
   */
  function Pack(s: string): (bytes: seq<uint8>)
    requires |s| % 2 == 0 && IsHexString(s)
    ensures |bytes| == |s| / 2
  {
    if s == [] then []
    else Pack(s[..|s| - 2]) + [Digit(s[|s| - 2]) * 16 + Digit(s[|s| - 1])]
  }

  /** One unfolding of Pack, stated on a single string so that the solver need not rebuild it. */
  lemma {:induction false} PackAt(s: string, i: int)
    requires |s| % 2 == 0 && IsHexString(s) && 0 <= i < |s| / 2
    ensures Pack(s)[i] == Digit(s[2 * i]) * 16 + Digit(s[2 * i + 1])
  {
    if i < |s| / 2 - 1 {
      PackAt(s[..|s| - 2], i);
    }
  }

  lemma PackLast(s: string)
    requires |s| % 2 == 0 && IsHexString(s) && s != []
    ensures Pack(s) == Pack(s[..|s| - 2]) + [Digit(s[|s| - 2]) * 16 + Digit(s[|s| - 1])]
  {
  }

  lemma NibbleSplit(hi: int, lo: int)
    requires 0 <= hi < 16 && 0 <= lo < 16
    ensures (hi * 16 + lo) / 16 == hi && (hi * 16 + lo) % 16 == lo
  {
  }

  /** hexStringToByteArray: fills a fresh array two characters at a time. */
  method HexStringToByteArray(s: string) returns (data: array<uint8>)
    requires |s| % 2 == 0 && IsHexString(s)
    ensures fresh(data)
    ensures data[..] == Pack(s)
  {
    var len := |s|;
    data := new uint8[len / 2];
    var i := 0;
    while i < len
      invariant 0 <= i <= len && i % 2 == 0
      invariant forall k :: 0 <= k < i / 2 ==> data[k] == Pack(s)[k]
    {
      PackAt(s, i / 2);
      data[i / 2] := Digit(s[i]) * 16 + Digit(s[i + 1]);
      i := i + 2;
    }
  }

  /** ASCII upper-casing, which is what String.toUpperCase does to hexadecimal text. */
  function UpperCase(c: char): char {
    if 'a' <= c <= 'z' then (c as int - 32) as char else c
  }

  function ToUpperCase(s: string): (u: string)
    ensures |u| == |s|
    ensures forall i :: 0 <= i < |s| ==> u[i] == UpperCase(s[i])
  {
    seq(|s|, i requires 0 <= i < |s| => UpperCase(s[i]))
  }

  function UpperHexDigit(d: int): (c: char)
    requires 0 <= d < 16
    ensures IsHexDigit(c) && Digit(c) == d && UpperCase(c) == c
  {
    if d < 10 then ('0' as int + d) as char else ('A' as int + d - 10) as char
  }

  /** The inverse of Pack: two upper-case hexadecimal digits per byte, high nibble first. */
  function ToHex(b: seq<uint8>): (s: string)
    ensures |s| == 2 * |b|
  {
    seq(2 * |b|, j requires 0 <= j < 2 * |b| =>
      if j % 2 == 0 then UpperHexDigit(b[j / 2] / 16) else UpperHexDigit(b[j / 2] % 16))
  }

  lemma UpperHexDigitOfDigit(c: char)
    requires IsHexDigit(c)
    ensures UpperHexDigit(Digit(c)) == UpperCase(c)
  {
  }

  /** Byte i of the input is printed at positions 2i and 2i+1. */
  lemma ToHexAt(b: seq<uint8>, i: int)
    requires 0 <= i < |b|
    ensures ToHex(b)[2 * i] == UpperHexDigit(b[i] / 16)
    ensures ToHex(b)[2 * i + 1] == UpperHexDigit(b[i] % 16)
  {
    assert (2 * i) / 2 == i && (2 * i + 1) / 2 == i;
  }

  lemma ToHexIsHex(b: seq<uint8>)
    ensures IsHexString(ToHex(b))
  {
    var s := ToHex(b);
    forall j | 0 <= j < |s| ensures IsHexDigit(s[j]) {
      var i := j / 2;
      assert j == 2 * i || j == 2 * i + 1;
    }
  }

  lemma PackToHexAt(b: seq<uint8>, i: int)
    requires 0 <= i < |b| && IsHexString(ToHex(b))
    ensures Pack(ToHex(b))[i] == b[i]
  {
    ToHexAt(b, i);
    PackAt(ToHex(b), i);
  }

  /** Decoding the upper-case text of any byte string gives the bytes back. */
  lemma PackToHex(b: seq<uint8>)
    ensures IsHexString(ToHex(b)) && Pack(ToHex(b)) == b
  {
    ToHexIsHex(b);
    var p := Pack(ToHex(b));
    assert |p| == |b|;
    forall i | 0 <= i < |b| ensures p[i] == b[i] {
      PackToHexAt(b, i);
    }
    SameElements(p, b);
  }

  lemma SameElements<T>(p: seq<T>, q: seq<T>)
    requires |p| == |q| && forall i :: 0 <= i < |p| ==> p[i] == q[i]
    ensures p == q
  {
  }

  /** Encoding then printing a hexadecimal string gives back its upper-case form. */
  lemma ToHexPack(s: string)
    requires |s| % 2 == 0 && IsHexString(s)
    ensures ToHex(Pack(s)) == ToUpperCase(s)
  {
    var t, u := ToHex(Pack(s)), ToUpperCase(s);
    forall j | 0 <= j < |s| ensures t[j] == u[j] {
      ToHexPackIndex(s, j);
    }
    SameElements(t, u);
  }

  lemma ToHexPackIndex(s: string, j: int)
    requires |s| % 2 == 0 && IsHexString(s) && 0 <= j < |s|
    ensures ToHex(Pack(s))[j] == UpperCase(s[j])
  {
    var i := j / 2;
    ToHexPackAt(s, i);
    assert j == 2 * i || j == 2 * i + 1;
  }

  lemma ToHexPackAt(s: string, i: int)
    requires |s| % 2 == 0 && IsHexString(s) && 0 <= i < |s| / 2
    ensures ToHex(Pack(s))[2 * i] == UpperCase(s[2 * i])
    ensures ToHex(Pack(s))[2 * i + 1] == UpperCase(s[2 * i + 1])
  {
    var hi, lo := s[2 * i], s[2 * i + 1];
    var x := Pack(s)[i];
    PackAt(s, i);
    NibbleSplit(Digit(hi), Digit(lo));
    assert x / 16 == Digit(hi) && x % 16 == Digit(lo);
    ToHexAt(Pack(s), i);
    UpperHexDigitOfDigit(hi);
    UpperHexDigitOfDigit(lo);
  }

  /** Read as a big-endian number, the packed bytes have the value of the hexadecimal text. */
  lemma {:induction false} PackValue(s: string)
    requires |s| % 2 == 0 && IsHexString(s)
    ensures BytesValue(Pack(s)) == HexValue(s)
  {
    if s != [] {
      var p := s[..|s| - 2];
      PackLast(s);
      assert Pack(s)[..|Pack(s)| - 1] == Pack(p);
      PackValue(p);
      assert s[..|s| - 1][..|s| - 2] == p;
      assert HexValue(s[..|s| - 1]) == HexValue(p) * 16 + Digit(s[|s| - 2]);
    }
  }

  /** Parsing ignores letter case. */
  lemma {:induction false} HexValueIgnoresCase(s: string)
    requires IsHexString(s)
    ensures IsHexString(ToUpperCase(s)) && HexValue(ToUpperCase(s)) == HexValue(s)
  {
    var u := ToUpperCase(s);
    forall i | 0 <= i < |u| ensures IsHexDigit(u[i]) && Digit(u[i]) == Digit(s[i]) {
      UpperHexDigitOfDigit(s[i]);
    }
    if s != [] {
      HexValueIgnoresCase(s[..|s| - 1]);
      assert u[..|u| - 1] == ToUpperCase(s[..|s| - 1]);
    }
  }

  /**
   * A volume token becomes a two-byte big-endian payload: high byte times 256
   * plus low byte is the 16-bit value of the token, whatever its letter case.
   */
  lemma VolumeTokenPayload(s: string)
    requires IsVolumeToken(s)
    ensures |Pack(s)| == 2
    ensures Pack(s)[0] as int * 256 + Pack(s)[1] as int == HexValue(s) == HexValue(ToUpperCase(s))
    ensures HexValue(s) < 0x1_0000
  {
    var b := Pack(s);
    PackValue(s);
    HexValueIgnoresCase(s);
    assert b[..1][..0] == [] && b[..1] == [b[0]];
    assert BytesValue(b) == BytesValue(b[..1]) * 256 + b[1];
  }

  /** A volume token packs into its first digit pair and its second digit pair. */
  lemma PackToken(s: string)
    requires IsVolumeToken(s)
    ensures Pack(s) == [Digit(s[0]) * 16 + Digit(s[1]), Digit(s[2]) * 16 + Digit(s[3])]
  {
  }

  /** The default token and two more examples, and two texts the validation rejects. */
  lemma VolumeTokenExamples()
    ensures Pack("007f") == [0x00, 0x7F]
    ensures Pack("abcd") == [0xAB, 0xCD] == Pack("ABCD")
    ensures !IsVolumeToken("12") && !IsVolumeToken("12G4")
  {
    PackToken("007f");
    PackToken("abcd");
    PackToken("ABCD");
    assert "12G4"[2] == 'G';
  }
}
