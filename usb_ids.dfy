/**
 * Formatting of USB identifiers (src/util/usb.js): `hexpad4` and `getDeviceId`.
 * The hardware access in that file (opening devices, reading string
 * descriptors) is not part of this model.
 */
module UsbIds {
  import opened Wrappers
  import opened Strings
  import opened NumText

  /** The part of a libusb device that `getDeviceId` reads. */
  datatype DeviceDescriptor = DeviceDescriptor(idVendor: nat, idProduct: nat)
  datatype UsbDevice = UsbDevice(busNumber: nat, deviceAddress: nat, deviceDescriptor: DeviceDescriptor)

  /** `s.padStart(targetLength, '0')`. */
  function PadStart(s: string, targetLength: nat): (r: string)
    ensures |r| == if |s| >= targetLength then |s| else targetLength
    ensures r == Zeros(|r| - |s|) + s
  {
    if |s| >= targetLength then
      assert Zeros(0) + s == s;
      s
    else
      Zeros(targetLength - |s|) + s
  }

  /** 16 to the power k. */
  function Pow16(k: nat): (p: nat)
    ensures p >= 1
  {
    if k == 0 then 1 else 16 * Pow16(k - 1)
  }

  /** The hexadecimal text of n fits in k digits exactly when n < 16^k. */
  lemma {:induction false} HexWidth(n: nat, k: nat)
    requires k >= 1
    ensures |DigitsIn(16, n)| <= k <==> n < Pow16(k)
  {
    if n >= 16 {
      var prefix := DigitsIn(16, n / 16);
      assert DigitsIn(16, n) == prefix + [DigitChar(n % 16)];
      if k == 1 {
        assert Pow16(1) == 16;
      } else {
        HexWidth(n / 16, k - 1);
        assert Pow16(k) == 16 * Pow16(k - 1);
      }
    } else if k > 1 {
      assert Pow16(k) == 16 * Pow16(k - 1);
    }
  }

  /**
   * `hexpad4(number)`: "0x" followed by the number's lower-case hexadecimal
   * text, left-padded with zeros to at least four digits.
   */
  function Hexpad4(number: int): (r: string)
    ensures |r| >= 6 && r[..2] == "0x"
    ensures 0 <= number < 0x10000 ==> |r| == 6
    ensures number >= 0x10000 ==> |r| > 6
    ensures number >= 0 ==> IsDigitsIn(16, r[2..]) && ValueIn(16, r[2..]) == number
  {
    var digits := IntToString(16, number);
    var padded := PadStart(digits, 4);
    var r := "0x" + padded;
    assert r[2..] == padded;
    if number >= 0 then
      LeadingZeros(16, |padded| - |digits|, digits);
      HexWidth(number, 4);
      assert Pow16(4) == 0x10000;
      r
    else
      r
  }

  lemma Hexpad4Examples()
    ensures Hexpad4(0xa) == "0x000a"
    ensures Hexpad4(0x1915) == "0x1915"
  {
    assert DigitsIn(16, 0xa) == "a";
    assert Zeros(3) == "000";
    assert DigitsIn(16, 0x1) == "1";
    assert DigitsIn(16, 0x19) == "19";
    assert DigitsIn(16, 0x191) == "191";
    assert DigitsIn(16, 0x1915) == "1915";
  }


  function ParseDecimal(s: string): Option<nat> {
    if IsAllDigits(s) then Some(DecimalValue(s)) else None
  }

  function ParseHex4(s: string): Option<nat> {
    if |s| > 2 && s[..2] == "0x" && IsDigitsIn(16, s[2..]) then Some(ValueIn(16, s[2..])) else None
  }

  /** `s` cut at its first `c`: the text before it and the text after it. */
  function SplitFirst(s: string, c: char): Option<(string, string)> {
    var i := IndexOf(s, c);
    if i == |s| then None else Some((s[..i], s[i + 1..]))
  }

  /**
   * Reads an identifier back by cutting it at the first '.', then the
   * first ' ', then the first '/'; the inverse of GetDeviceId.
   */
  function ParseDeviceId(id: string): Option<UsbDevice> {
    match SplitFirst(id, '.')
    case None => None
    case Some((busText, afterDot)) =>
      match SplitFirst(afterDot, ' ')
      case None => None
      case Some((addressText, ids)) =>
        match SplitFirst(ids, '/')
        case None => None
        case Some((vendorText, productText)) =>
          match (ParseDecimal(busText), ParseDecimal(addressText), ParseHex4(vendorText), ParseHex4(productText))
          case (Some(bus), Some(address), Some(vendor), Some(product)) =>
            Some(UsbDevice(bus, address, DeviceDescriptor(vendor, product)))
          case _ => None
  }

  /** Splitting `a + [c] + b` at its first `c` gives back `a` and `b` when `a` holds no `c`. */
  lemma {:induction false} SplitAtFirst(a: string, c: char, b: string)
    requires Excludes(a, c)
    ensures SplitFirst(a + [c] + b, c) == Some((a, b))
  {
    IndexOfAfter(a, c, b);
    var s := a + [c] + b;
    assert s[..|a|] == a && s[|a| + 1..] == b;
  }

  lemma DecimalTextRoundTrip(n: nat)
    ensures IsAllDigits(IntToString(10, n))
    ensures ParseDecimal(IntToString(10, n)) == Some(n)
  {
    var s := IntToString(10, n);
    forall i | 0 <= i < |s| ensures IsDigit(s[i]) {
      assert IsLowerHexDigit(s[i]) && DigitValue(s[i]) < 10;
    }
  }

  /** "0x" followed by hexadecimal digits is read back by ParseHex4 and holds no '/'. */
  lemma HexTextParses(r: string)
    requires |r| > 2 && r[..2] == "0x" && IsDigitsIn(16, r[2..])
    ensures ParseHex4(r) == Some(ValueIn(16, r[2..]))
    ensures Excludes(r, '/')
  {
    forall j | 0 <= j < |r| ensures r[j] != '/' {
      if j >= 2 {
        assert r[j] == r[2..][j - 2];
      } else {
        assert r[j] == r[..2][j];
      }
    }
  }

  lemma Hexpad4RoundTrip(n: nat)
    ensures ParseHex4(Hexpad4(n)) == Some(n)
    ensures Excludes(Hexpad4(n), '/')
  {
    HexTextParses(Hexpad4(n));
  }

  lemma DigitsExclude(s: string, c: char)
    requires IsAllDigits(s) && !IsDigit(c)
    ensures Excludes(s, c)
  {
  }

  /** How ParseDeviceId reads a string built from four fields and three separators. */
  lemma ParseDeviceIdOfFields(bus: string, address: string, vendor: string, product: string, device: UsbDevice)
    requires Excludes(bus, '.') && Excludes(address, ' ') && Excludes(vendor, '/')
    requires ParseDecimal(bus) == Some(device.busNumber)
    requires ParseDecimal(address) == Some(device.deviceAddress)
    requires ParseHex4(vendor) == Some(device.deviceDescriptor.idVendor)
    requires ParseHex4(product) == Some(device.deviceDescriptor.idProduct)
    ensures ParseDeviceId(bus + "." + address + " " + vendor + "/" + product) == Some(device)
  {
    var ids := vendor + ['/'] + product;
    var afterDot := address + [' '] + ids;
    assert bus + "." + address + " " + vendor + "/" + product == bus + ['.'] + afterDot;
    SplitAtFirst(bus, '.', afterDot);
    SplitAtFirst(address, ' ', ids);
    SplitAtFirst(vendor, '/', product);
  }

  /**
   * `getDeviceId(device)`: "busNumber.deviceAddress 0xVVVV/0xPPPP". Bus,
   * address, vendor and product are recovered from the identifier.
   */
  function GetDeviceId(device: UsbDevice): (id: string)
    ensures ParseDeviceId(id) == Some(device)
  {
    var bus := IntToString(10, device.busNumber);
    var address := IntToString(10, device.deviceAddress);
    var vendor := Hexpad4(device.deviceDescriptor.idVendor);
    var product := Hexpad4(device.deviceDescriptor.idProduct);
    DecimalTextRoundTrip(device.busNumber);
    DecimalTextRoundTrip(device.deviceAddress);
    Hexpad4RoundTrip(device.deviceDescriptor.idVendor);
    Hexpad4RoundTrip(device.deviceDescriptor.idProduct);
    DigitsExclude(bus, '.');
    DigitsExclude(address, ' ');
    ParseDeviceIdOfFields(bus, address, vendor, product, device);
    bus + "." + address + " " + vendor + "/" + product
  }

  /** Distinct devices get distinct identifiers. */
  lemma DeviceIdInjective(d1: UsbDevice, d2: UsbDevice)
    ensures GetDeviceId(d1) == GetDeviceId(d2) ==> d1 == d2
  {
  }
}
