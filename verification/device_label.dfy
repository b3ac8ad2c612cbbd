/**
 * The text the activity shows for a connected device: a fixed name for the
 * dongle, otherwise its vendor and product identifiers in hexadecimal.
 */
module DeviceLabel {
  import opened DeviceMatch
  import opened HexCodec

  function LowerHexDigit(d: int): (c: char)
    requires 0 <= d < 16
    ensures IsHexDigit(c) && Digit(c) == d
    ensures UpperCase(c) == UpperHexDigit(d)
  {
    if d < 10 then ('0' as int + d) as char else ('a' as int + d - 10) as char
  }

  /**
   * Integer.toHexString on a non-negative value: lower-case digits, no leading
   * zeros, and "0" for zero.
   */
  function ToHexString(n: nat): (s: string)
    ensures |s| >= 1 && IsHexString(s)
    ensures HexValue(s) == n
    ensures Digit(s[0]) == 0 ==> s == "0"
  {
    if n < 16 then [LowerHexDigit(n)]
    else
      var t := ToHexString(n / 16);
      var s := t + [LowerHexDigit(n % 16)];
      assert s[..|s| - 1] == t;
      s
  }

  /**
   * Upper-case hexadecimal text of n, unpadded: what
   * Integer.toHexString(n).toUpperCase() gives (HexUpperIsUpperCasedHexString).
   */
  function HexUpper(n: nat): (s: string)
    ensures |s| >= 1 && IsHexString(s) && HexValue(s) == n
  {
    if n < 16 then [UpperHexDigit(n)]
    else
      var t := HexUpper(n / 16);
      var s := t + [UpperHexDigit(n % 16)];
      assert s[..|s| - 1] == t;
      s
  }

  lemma {:induction false} HexUpperIsUpperCasedHexString(n: nat)
    ensures HexUpper(n) == ToUpperCase(ToHexString(n))
  {
    var u, l := HexUpper(n), ToHexString(n);
    if n < 16 {
      assert ToUpperCase(l)[0] == UpperHexDigit(n);
    } else {
      HexUpperIsUpperCasedHexString(n / 16);
      var t := ToHexString(n / 16);
      assert l == t + [LowerHexDigit(n % 16)];
      assert ToUpperCase(l) == ToUpperCase(t) + [UpperHexDigit(n % 16)];
    }
  }

  /** The label connectDevice writes into the device-name text view. */
  function Label(d: UsbDevice): string {
    var vendorId := "0x" + HexUpper(d.vendorId);
    var productId := "0x" + HexUpper(d.productId);
    if IsAppleDongle(d) then "Apple Dongle"
    else
      var fallback := "vendorId: " + vendorId + " productId:" + productId;
      assert fallback[0] == 'v';
      fallback
  }

  /** Any other device is shown by its identifiers in upper-case hexadecimal, each after "0x". */
  lemma LabelFallback(d: UsbDevice)
    requires !IsAppleDongle(d)
    ensures Label(d) == "vendorId: 0x" + HexUpper(d.vendorId) + " productId:0x" + HexUpper(d.productId)
      == "vendorId: 0x" + ToUpperCase(ToHexString(d.vendorId)) + " productId:0x" + ToUpperCase(ToHexString(d.productId))
  {
    HexUpperIsUpperCasedHexString(d.vendorId);
    HexUpperIsUpperCasedHexString(d.productId);
  }

  /** The fixed name is shown for the dongle and for no other device. */
  lemma LabelNamesOnlyTheDongle(d: UsbDevice)
    ensures Label(d) == "Apple Dongle" <==> IsAppleDongle(d)
  {
    if !IsAppleDongle(d) {
      LabelFallback(d);
      assert Label(d)[0] == 'v' != "Apple Dongle"[0];
    }
  }

  /** Two strings that both continue with a space right after a space-free head split at the same place. */
  lemma SplitAtSpace(a1: string, r1: string, a2: string, r2: string)
    requires a1 + r1 == a2 + r2
    requires |r1| > 0 && |r2| > 0 && r1[0] == ' ' && r2[0] == ' '
    requires ' ' !in a1 && ' ' !in a2
    ensures a1 == a2 && r1 == r2
  {
    var s := a1 + r1;
    assert s[|a1|] == ' ' && s[|a2|] == ' ';
    assert forall k :: 0 <= k < |a1| ==> s[k] == a1[k] != ' ';
    assert forall k :: 0 <= k < |a2| ==> s[k] == a2[k] != ' ';
    assert |a1| == |a2|;
    assert a1 == s[..|a1|] == a2;
  }

  lemma HexHasNoSpace(s: string)
    requires IsHexString(s)
    ensures ' ' !in s
  {
    assert forall i :: 0 <= i < |s| ==> s[i] != ' ';
  }

  /** The two hexadecimal fields of a fallback label can be read back from it. */
  lemma FallbackFieldsDetermined(v1: string, p1: string, v2: string, p2: string)
    requires IsHexString(v1) && IsHexString(v2)
    requires "vendorId: 0x" + v1 + " productId:0x" + p1 == "vendorId: 0x" + v2 + " productId:0x" + p2
    ensures v1 == v2 && p1 == p2
  {
    var prefix, middle := "vendorId: 0x", " productId:0x";
    var l1, l2 := prefix + v1 + middle + p1, prefix + v2 + middle + p2;
    assert l1 == prefix + (v1 + (middle + p1));
    assert l2 == prefix + (v2 + (middle + p2));
    assert v1 + (middle + p1) == l1[|prefix|..] == l2[|prefix|..] == v2 + (middle + p2);
    HexHasNoSpace(v1);
    HexHasNoSpace(v2);
    SplitAtSpace(v1, middle + p1, v2, middle + p2);
    assert p1 == (middle + p1)[|middle|..] == (middle + p2)[|middle|..] == p2;
  }

  /** A fallback label names one vendor and product pair: different identifiers give different labels. */
  lemma FallbackLabelIdentifiesDevice(d1: UsbDevice, d2: UsbDevice)
    requires !IsAppleDongle(d1) && !IsAppleDongle(d2)
    requires Label(d1) == Label(d2)
    ensures d1.vendorId == d2.vendorId && d1.productId == d2.productId
  {
    LabelFallback(d1);
    LabelFallback(d2);
    FallbackFieldsDetermined(HexUpper(d1.vendorId), HexUpper(d1.productId), HexUpper(d2.vendorId), HexUpper(d2.productId));
  }
}
