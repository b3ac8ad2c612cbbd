/**
 * Recognising the one USB device the activity drives: the Apple USB-C to
 * 3.5 mm headphone adapter, vendor 0x05AC, product 0x110A.
 */
module DeviceMatch {

  /** USB vendor and product identifiers are 16-bit values. */
  type uint16 = x: int | 0 <= x < 0x1_0000

  /** What the activity reads off an attached device. */
  datatype UsbDevice = UsbDevice(vendorId: uint16, productId: uint16, deviceName: string)

  /** The activity keeps its identifiers as decimal text and parses them on every comparison. */
  const AppleVendorIdText: string := "1452"
  const AppleDongleProductIdText: string := "4362"

  predicate IsDecimalDigit(c: char) {
    '0' <= c <= '9'
  }

  predicate IsDecimalText(s: string) {
    forall i :: 0 <= i < |s| ==> IsDecimalDigit(s[i])
  }

  /**
   * Unsigned decimal text that Integer.parseInt accepts without overflow: one to
   * nine digits, so the value stays below 2^31. Empty text throws in Java.
   */
  predicate IsIntText(s: string) {
    0 < |s| <= 9 && IsDecimalText(s)
  }

  /** Value of such a text, most significant digit first. */
  function ParseInt(s: string): nat
    requires IsIntText(s)
  {
    var last := s[|s| - 1] as int - '0' as int;
    if |s| == 1 then last else ParseInt(s[..|s| - 1]) * 10 + last
  }

  /** The identifiers the decimal texts stand for. */
  const AppleVendorId: uint16 := 0x05AC
  const AppleDongleProductId: uint16 := 0x110A

  /** Parsing the stored decimal texts gives the dongle's vendor and product identifiers. */
  lemma ConstantsAreAppleIds()
    ensures IsIntText(AppleVendorIdText) && ParseInt(AppleVendorIdText) == AppleVendorId
    ensures IsIntText(AppleDongleProductIdText) && ParseInt(AppleDongleProductIdText) == AppleDongleProductId
  {
    assert AppleVendorIdText[..3] == "145" && "145"[..2] == "14" && "14"[..1] == "1";
    assert AppleDongleProductIdText[..3] == "436" && "436"[..2] == "43" && "43"[..1] == "4";
  }

  /**
   * isAppleDongle: the single matching predicate used both by the scan and by the
   * permission receiver. The texts are parsed on every call in the activity; here
   * they are compared through the values ConstantsAreAppleIds proves they parse to.
   */
  predicate IsAppleDongle(d: UsbDevice) {
    d.vendorId == AppleVendorId && d.productId == AppleDongleProductId
  }

  /** Exactly one vendor and product pair is recognised. */
  lemma MatchesExactlyTheDongle(d: UsbDevice)
    ensures IsAppleDongle(d) <==> d.vendorId == ParseInt(AppleVendorIdText) && d.productId == ParseInt(AppleDongleProductIdText)
  {
    ConstantsAreAppleIds();
  }
}
