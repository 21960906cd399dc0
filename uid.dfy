/**
 * The RDM unique ID (section 5 of ANSI E1.20): a 16-bit manufacturer id and a
 * 32-bit device id, where the all-ones device id addresses every device of a
 * manufacturer and (0xFFFF, 0xFFFFFFFF) every device of every manufacturer.
 * A UID object always holds in-range ids, so a UID here is a value of the
 * subset type `UID`; `NewUid` is the checking constructor.
 */
module UidAddressing {
  import opened Outcomes
  import opened JavaLang

  const MAX_MANUFACTURER_ID: int := 65535
  const MAX_DEVICE_ID: int := 4294967295

  /** `checkManufacturerBounds`: exactly the ids the four-digit text can hold. */
  predicate CheckManufacturerBounds(n: int): (valid: bool)
    ensures valid <==> 0 <= n < Pow16(4)
  {
    0 <= n <= MAX_MANUFACTURER_ID
  }

  /** `checkDeviceBounds`: exactly the ids the eight-digit text can hold. */
  predicate CheckDeviceBounds(n: int): (valid: bool)
    ensures valid <==> 0 <= n < Pow16(8)
  {
    0 <= n <= MAX_DEVICE_ID
  }

  datatype UidValue = UidValue(manufacturerId: int, deviceId: int)

  /** The ids a constructed UID can hold. */
  type UID = u: UidValue | CheckManufacturerBounds(u.manufacturerId) && CheckDeviceBounds(u.deviceId)
    witness UidValue(0, 0)

  /** `new UID(manufacturerId, deviceId)`: fails unless both ids are in range. */
  function NewUid(manufacturerId: int, deviceId: int): (r: Outcome<UID>)
    ensures r.Returned? <==> CheckManufacturerBounds(manufacturerId) && CheckDeviceBounds(deviceId)
    ensures r.Returned? ==> r.value.manufacturerId == manufacturerId && r.value.deviceId == deviceId
    ensures r.Threw? ==> r.exception == IllegalArgumentException
  {
    if !CheckManufacturerBounds(manufacturerId) then Threw(IllegalArgumentException)
    else if !CheckDeviceBounds(deviceId) then Threw(IllegalArgumentException)
    else Returned(UidValue(manufacturerId, deviceId))
  }

  /** `toString()`: the string `%04X:%08X` the constructor stores. */
  function ToString(u: UID): (s: string)
    ensures |s| == 13 && s[4] == ':'
    ensures forall i :: 0 <= i < |s| && i != 4 ==> IsUpperHexDigit(s[i])
    ensures HexDigitsValue(s[..4]) == Some(u.manufacturerId)
    ensures HexDigitsValue(s[5..]) == Some(u.deviceId)
  {
    FormatHexValue(u.manufacturerId, 4);
    FormatHexValue(u.deviceId, 8);
    var s := FormatHex(u.manufacturerId, 4) + ":" + FormatHex(u.deviceId, 8);
    assert s[..4] == FormatHex(u.manufacturerId, 4);
    assert s[5..] == FormatHex(u.deviceId, 8);
    s
  }

  /** Two UIDs with the same text are the same UID. */
  lemma ToStringInjective(u: UID, v: UID)
    requires ToString(u) == ToString(v)
    ensures u == v
  {
    assert ToString(u)[..4] == ToString(v)[..4];
    assert ToString(u)[5..] == ToString(v)[5..];
  }

  /** An argument of `equals(Object)`: a UID, or any other object as its `toString()` gives it. */
  datatype JavaObject = UidObject(uid: UID) | OtherObject(text: string)

  function ObjectText(o: JavaObject): (text: string)
    ensures o.UidObject? ==> text == ToString(o.uid)
  {
    match o
    case UidObject(v) => ToString(v)
    case OtherObject(text) => text
  }

  /** `equals(Object)`: false for null, otherwise a comparison of the two texts. */
  function Equals(u: UID, other: Option<JavaObject>): (r: bool)
    ensures other.None? ==> !r
    ensures other.Some? ==> (r <==> ObjectText(other.value) == ToString(u))
  {
    other.Some? && ObjectText(other.value) == ToString(u)
  }

  /** Against another UID, `equals` is equality of the ids. */
  lemma EqualsIsValueEquality(u: UID, v: UID)
    ensures Equals(u, Some(UidObject(v))) <==> u == v
  {
    if Equals(u, Some(UidObject(v))) {
      ToStringInjective(v, u);
    }
  }

  /** `equals` also accepts an object of another class whose text matches. */
  lemma EqualsAcceptsMatchingText(u: UID)
    ensures Equals(u, Some(OtherObject(ToString(u))))
  {
  }

  /** `hashCode()`: the hash of the stored text. */
  function HashCode(u: UID): (h: int)
    ensures INT_MIN <= h <= INT_MAX
  {
    StringHashCode(ToString(u))
  }

  /** Objects `equals` accepts hash like the UID, so equal UIDs have equal hashes. */
  lemma EqualsAgreesWithHashCode(u: UID, other: JavaObject)
    requires Equals(u, Some(other))
    ensures HashCode(u) == StringHashCode(ObjectText(other))
    ensures other.UidObject? ==> HashCode(u) == HashCode(other.uid)
  {
  }

  /** The UID order: manufacturer id first, then device id. */
  predicate Precedes(a: UID, b: UID) {
    a.manufacturerId < b.manufacturerId
    || (a.manufacturerId == b.manufacturerId && a.deviceId < b.deviceId)
  }

  /** `compareTo(other)`: 1 against null, otherwise the sign of the order. */
  function CompareTo(u: UID, other: Option<UID>): (r: int)
    ensures -1 <= r <= 1
    ensures other.None? ==> r == 1
    ensures other.Some? ==> (r < 0 <==> Precedes(u, other.value))
    ensures other.Some? ==> (r == 0 <==> u == other.value)
    ensures other.Some? ==> (r > 0 <==> Precedes(other.value, u))
  {
    match other
    case None => 1
    case Some(v) =>
      if u.manufacturerId == v.manufacturerId then Compare(u.deviceId, v.deviceId)
      else Compare(u.manufacturerId, v.manufacturerId)
  }

  /** `compareTo` is a total order consistent with `equals`. */
  lemma CompareToIsTotalOrder(a: UID, b: UID, c: UID)
    ensures CompareTo(a, Some(b)) == -CompareTo(b, Some(a))
    ensures CompareTo(a, Some(b)) <= 0 && CompareTo(b, Some(c)) <= 0 ==> CompareTo(a, Some(c)) <= 0
    ensures CompareTo(a, Some(b)) == 0 <==> Equals(a, Some(UidObject(b)))
  {
    EqualsIsValueEquality(a, b);
  }

  /** `isBroadcast()`: the device id is the all-devices value. */
  predicate IsBroadcast(u: UID) {
    u.deviceId == MAX_DEVICE_ID
  }

  /** The broadcast UIDs are exactly those `allManufacturerDevices` returns. */
  lemma BroadcastIffAllManufacturerDevices(u: UID)
    ensures IsBroadcast(u) <==> AllManufacturerDevices(u.manufacturerId) == Returned(u)
  {
  }

  /** `allDevices()`: the shared instance for every device of every manufacturer. */
  function AllDevices(): (u: UID)
    ensures IsBroadcast(u) && u.manufacturerId == MAX_MANUFACTURER_ID
  {
    UidValue(MAX_MANUFACTURER_ID, MAX_DEVICE_ID)
  }

  /** `allManufacturerDevices(m)`: the broadcast UID of manufacturer m, if m is in range. */
  function AllManufacturerDevices(manufacturerId: int): (r: Outcome<UID>)
    ensures r.Returned? <==> CheckManufacturerBounds(manufacturerId)
    ensures r.Returned? ==> IsBroadcast(r.value) && r.value.manufacturerId == manufacturerId
    ensures r.Threw? ==> r.exception == IllegalArgumentException
  {
    NewUid(manufacturerId, MAX_DEVICE_ID)
  }

  /**
   * `fromString(uidStr)`: null on a field count other than two or on an id out of
   * range; the parser's exception on a field that is not a hex number.
   */
  function FromString(uidStr: Option<string>): (r: Outcome<Option<UID>>)
    ensures uidStr.None? ==> r == Threw(NullPointerException)
    ensures uidStr.Some? && |SplitOnColon(uidStr.value)| != 2 ==> r == Returned(None)
    ensures uidStr.Some? && r.Threw? ==> r.exception == NumberFormatException
  {
    match uidStr
    case None => Threw(NullPointerException)
    case Some(text) =>
      var parts := SplitOnColon(text);
      if |parts| != 2 then Returned(None) else FromFields(parts[0], parts[1])
  }

  /**
   * The part of `fromString` after the split: parse both fields, then check both
   * bounds. A parse error propagates; parsed ids out of range give null.
   */
  function FromFields(manufacturerText: string, deviceText: string): (r: Outcome<Option<UID>>)
    ensures r.Threw? <==> ParseInt(manufacturerText).Threw? || ParseLong(deviceText).Threw?
    ensures r.Threw? ==> r.exception == NumberFormatException
    ensures ParseInt(manufacturerText).Returned? && ParseLong(deviceText).Returned? ==>
      var m, d := ParseInt(manufacturerText).value, ParseLong(deviceText).value;
      r == Returned(if CheckManufacturerBounds(m) && CheckDeviceBounds(d) then Some(UidValue(m, d)) else None)
  {
    match ParseInt(manufacturerText)
    case Threw(e) => Threw(e)
    case Returned(manufacturerId) =>
      match ParseLong(deviceText)
      case Threw(e) => Threw(e)
      case Returned(deviceId) =>
        if !CheckManufacturerBounds(manufacturerId) then Returned(None)
        else if !CheckDeviceBounds(deviceId) then Returned(None)
        else Returned(Some(UidValue(manufacturerId, deviceId)))
  }

  /**
   * Two fields: `fromString` throws exactly when one of them is not a hex number,
   * and otherwise gives the UID of the two parsed ids, or null when either is out of range.
   */
  lemma FromStringTwoFields(text: string)
    requires |SplitOnColon(text)| == 2
    ensures var p := SplitOnColon(text);
      FromString(Some(text)).Threw? <==> ParseInt(p[0]).Threw? || ParseLong(p[1]).Threw?
    ensures var p := SplitOnColon(text);
      ParseInt(p[0]).Returned? && ParseLong(p[1]).Returned? ==>
        var m, d := ParseInt(p[0]).value, ParseLong(p[1]).value;
        FromString(Some(text)) ==
          Returned(if CheckManufacturerBounds(m) && CheckDeviceBounds(d) then Some(UidValue(m, d)) else None)
  {
  }

  /** Parsing the text of a UID gives the UID back. */
  lemma FromStringToString(u: UID)
    ensures FromString(Some(ToString(u))) == Returned(Some(u))
  {
    var a := FormatHex(u.manufacturerId, 4);
    var b := FormatHex(u.deviceId, 8);
    assert ToString(u) == a + ":" + b;
    assert ':' !in a by { assert forall i :: 0 <= i < |a| ==> IsUpperHexDigit(a[i]); }
    assert ':' !in b by { assert forall i :: 0 <= i < |b| ==> IsUpperHexDigit(b[i]); }
    SplitOnColonTwoFields(a, b);
    ParseFormatHex(u.manufacturerId, 4, INT_MIN, INT_MAX);
    ParseFormatHex(u.deviceId, 8, LONG_MIN, LONG_MAX);
  }

  /**
   * Where `fromString` gives a UID, its text names it: the two fields are hex numbers
   * equal to the ids (case and leading zeros aside).
   */
  lemma FromStringFields(text: string)
    requires FromString(Some(text)).Returned? && FromString(Some(text)).value.Some?
    ensures var u := FromString(Some(text)).value.value;
      && |SplitOnColon(text)| == 2
      && ParseInt(SplitOnColon(text)[0]) == Returned(u.manufacturerId)
      && ParseLong(SplitOnColon(text)[1]) == Returned(u.deviceId)
  {
  }

  /** A reference as `nextUID` sees it: null, the shared `allDevices()` instance, or another instance. */
  datatype UidRef = NullRef | AllDevicesRef | OtherRef(uid: UID)

  /**
   * `nextUID(uid)` as written: the out-of-range check compares references, so only
   * the shared instance is refused; an equal UID built separately reaches
   * `new UID(65536, 0)`.
   */
  function NextUid(uid: UidRef): (r: Outcome<UID>)
    ensures uid.NullRef? ==> r == Threw(NullPointerException)
    ensures uid.AllDevicesRef? ==> r == Threw(UIDOutOfRangeException)
    ensures uid.OtherRef? && uid.uid != AllDevices() ==> r.Returned? && Precedes(uid.uid, r.value)
  {
    match uid
    case NullRef => Threw(NullPointerException)
    case AllDevicesRef => Threw(UIDOutOfRangeException)
    case OtherRef(u) =>
      if IsBroadcast(u) then NewUid(u.manufacturerId + 1, 0)
      else NewUid(u.manufacturerId, u.deviceId + 1)
  }

  /** The discrepancy: a separately built all-devices UID fails with the constructor's exception. */
  lemma NextUidSeparateAllDevices()
    ensures NextUid(OtherRef(AllDevices())) == Threw(IllegalArgumentException)
    ensures NextUid(AllDevicesRef) == Threw(UIDOutOfRangeException)
  {
  }

  /**
   * `nextUID` with the out-of-range check made on the value: the immediate successor
   * in the UID order, crossing into the next manufacturer after its broadcast id.
   */
  function NextUidByValue(uid: Option<UID>): (r: Outcome<UID>)
    ensures uid.None? ==> r == Threw(NullPointerException)
    ensures uid.Some? ==> (r.Threw? <==> uid.value == AllDevices())
    ensures uid.Some? && r.Threw? ==> r.exception == UIDOutOfRangeException
    ensures uid.Some? && r.Returned? ==> CompareTo(r.value, uid) == 1
  {
    match uid
    case None => Threw(NullPointerException)
    case Some(u) =>
      if u == AllDevices() then Threw(UIDOutOfRangeException)
      else if IsBroadcast(u) then Returned(UidValue(u.manufacturerId + 1, 0))
      else Returned(UidValue(u.manufacturerId, u.deviceId + 1))
  }

  /** The two agree on every reference except a separately built all-devices UID. */
  lemma NextUidAgreesByValue(uid: UidRef)
    requires uid != OtherRef(AllDevices())
    ensures NextUid(uid) == NextUidByValue(match uid
      case NullRef => None
      case AllDevicesRef => Some(AllDevices())
      case OtherRef(u) => Some(u))
  {
  }

  /** Nothing lies strictly between a UID and its successor. */
  lemma NextUidIsImmediateSuccessor(u: UID, w: UID)
    requires NextUidByValue(Some(u)).Returned?
    ensures !(Precedes(u, w) && Precedes(w, NextUidByValue(Some(u)).value))
  {
  }

  /** `previousUID(uid)`: the UID just before, crossing back to the previous manufacturer's broadcast id. */
  function PreviousUid(uid: Option<UID>): (r: Outcome<UID>)
    ensures uid.None? ==> r == Threw(NullPointerException)
    ensures uid.Some? ==> (r.Threw? <==> uid.value == UidValue(0, 0))
    ensures uid.Some? && r.Threw? ==> r.exception == UIDOutOfRangeException
    ensures uid.Some? && r.Returned? ==> CompareTo(r.value, uid) == -1
  {
    match uid
    case None => Threw(NullPointerException)
    case Some(u) =>
      if u.manufacturerId == 0 && u.deviceId == 0 then Threw(UIDOutOfRangeException)
      else if u.deviceId == 0 then NewUid(u.manufacturerId - 1, MAX_DEVICE_ID)
      else NewUid(u.manufacturerId, u.deviceId - 1)
  }

  /** Stepping forward then back, or back then forward, returns to the start. */
  lemma NextPreviousInverse(u: UID)
    ensures NextUidByValue(Some(u)).Returned? ==>
      PreviousUid(Some(NextUidByValue(Some(u)).value)) == Returned(u)
    ensures PreviousUid(Some(u)).Returned? ==>
      NextUidByValue(Some(PreviousUid(Some(u)).value)) == Returned(u)
  {
  }

  /** The zero UID prints as all zeros. */
  lemma ToStringOfZero()
    ensures ToString(UidValue(0, 0)) == "0000:00000000"
  {
  }

  /** Parsing sample fields used below. */
  lemma ParseFourLowerF()
    ensures ParseInt("ffff") == Returned(0xffff)
  {
    LowerFsValue("ffff");
  }

  lemma ParseEightLowerF()
    ensures ParseLong("ffffffff") == Returned(0xffff_ffff)
  {
    LowerFsValue("ffffffff");
    assert Pow16(8) == 0x1_0000_0000;
  }

  lemma ParseTwoToThe16()
    ensures ParseInt("10000") == Returned(0x10000)
  {
    OneThenZerosValue("10000");
    assert Pow16(4) == 0x10000;
  }

  lemma ParseTwoToThe32()
    ensures ParseLong("100000000") == Returned(0x1_0000_0000)
  {
    OneThenZerosValue("100000000");
    assert Pow16(8) == 0x1_0000_0000;
  }

  /** Lower-case digits parse: the all-ones text is the all-devices UID. */
  lemma FromStringAllOnes()
    ensures FromString(Some("ffff:ffffffff")) == Returned(Some(AllDevices()))
  {
    assert "ffff:ffffffff" == "ffff" + ":" + "ffffffff";
    SplitOnColonTwoFields("ffff", "ffffffff");
    ParseFourLowerF();
    ParseEightLowerF();
    FromStringTwoFields("ffff:ffffffff");
  }

  /** Three fields give null. */
  lemma FromStringThreeFields()
    ensures FromString(Some("1:2:3")) == Returned(None)
  {
    assert "1:2:3" == "1" + ":" + "2:3";
    assert "2:3" == "2" + ":" + "3";
    SplitAtColonsCons("1", "2:3");
    SplitAtColonsCons("2", "3");
    SplitAtColonsNone("3");
    assert "1:2:3"[1] == ':';
    assert |SplitOnColon("1:2:3")| == 3;
  }

  /** `split` drops a trailing empty field, so a trailing colon is accepted. */
  lemma FromStringTrailingColon()
    ensures FromString(Some("1:2:")) == Returned(Some(UidValue(1, 2)))
  {
    assert "1:2:" == "1" + ":" + "2" + ":";
    SplitOnColonTrailingColon("1", "2");
    assert FormatHex(1, 1) == "1" && FormatHex(2, 1) == "2";
    ParseFormatHex(1, 1, INT_MIN, INT_MAX);
    ParseFormatHex(2, 1, LONG_MIN, LONG_MAX);
    FromStringTwoFields("1:2:");
  }

  /** A manufacturer id out of range gives null. */
  lemma FromStringManufacturerOutOfRange()
    ensures FromString(Some("10000:0")) == Returned(None)
  {
    assert "10000:0" == "10000" + ":" + "0";
    SplitOnColonTwoFields("10000", "0");
    ParseTwoToThe16();
    ParseZero();
    FromStringTwoFields("10000:0");
  }

  /** A device id out of range gives null. */
  lemma FromStringDeviceOutOfRange()
    ensures FromString(Some("0:100000000")) == Returned(None)
  {
    DeviceOutOfRangeFields();
    FromStringTwoFields("0:100000000");
  }

  lemma DeviceOutOfRangeFields()
    ensures SplitOnColon("0:100000000") == ["0", "100000000"]
    ensures FromFields("0", "100000000") == Returned(None)
  {
    assert "0:100000000" == "0" + ":" + "100000000";
    SplitOnColonTwoFields("0", "100000000");
    ParseZero();
    ParseTwoToThe32();
  }

  lemma ParseZero()
    ensures ParseInt("0") == Returned(0) && ParseLong("0") == Returned(0)
  {
    assert FormatHex(0, 1) == "0";
    ParseFormatHex(0, 1, INT_MIN, INT_MAX);
    ParseFormatHex(0, 1, LONG_MIN, LONG_MAX);
  }

  lemma ParseText()
    ensures ParseInt("text") == Threw(NumberFormatException)
    ensures ParseLong("text") == Threw(NumberFormatException)
  {
    HexDigitsValueSnoc("tex", 't');
    assert "tex" + ['t'] == "text";
  }

  /** A field that is not a hex number throws. */
  lemma FromStringNotHex()
    ensures FromString(Some("text:0")) == Threw(NumberFormatException)
    ensures FromString(Some("0:text")) == Threw(NumberFormatException)
  {
    assert "text:0" == "text" + ":" + "0";
    SplitOnColonTwoFields("text", "0");
    assert "0:text" == "0" + ":" + "text";
    SplitOnColonTwoFields("0", "text");
    ParseText();
    ParseZero();
    FromStringTwoFields("text:0");
    FromStringTwoFields("0:text");
  }
}
