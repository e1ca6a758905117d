/** Device announcements: the mDNS record and the endpoint info of a connection request (utils.rs),
    and the parse of the latter in inbound.rs. Names are UTF-8 byte strings. */
module EndpointInfo {
  import opened Wrappers
  import opened Messages
  import B = Base64Url

  // Whether a byte string is valid UTF-8.
  type Utf8 = Bytes -> bool

  function RawValue(t: DeviceType): (v: byte)
    ensures v <= 3
  {
    match t
    case Unknown => 0
    case Phone => 1
    case Tablet => 2
    case Laptop => 3
  }

  function FromRawValue(v: byte): DeviceType {
    match v
    case 1 => Phone
    case 2 => Tablet
    case 3 => Laptop
    case _ => Unknown
  }

  lemma RawValueRoundTrip(t: DeviceType)
    ensures FromRawValue(RawValue(t) * 2 % 256 / 2 % 8) == t
    ensures FromRawValue(RawValue(t) * 2 % 8 % 8 / 2) == t
  {
  }

  /** The record both generators write: a type byte, 16 random bytes, a length byte and the name. */
  function Record(typeByte: byte, random: Bytes, length: byte, name: Bytes): Bytes {
    [typeByte] + random + [length] + name
  }

  method GenMdnsEndpointInfo(deviceType: byte, name: Bytes, random: Bytes) returns (text: string)
    requires |random| == 16
    ensures text == B.Encode(Record(deviceType * 2 % 256, random, |name| % 256, name))
  {
    var record: Bytes := [];
    record := record + [deviceType * 2 % 256];
    record := record + random;
    var length: byte := |name| % 256;
    record := record + [length];
    record := record + name;
    assert record == Record(deviceType * 2 % 256, random, length, name);
    text := B.Encode(record);
  }

  function ParseMdnsEndpointInfo(text: string, utf8: Utf8): Option<RemoteDeviceInfo> {
    match B.Decode(text)
    case None => None
    case Some(b) =>
      if |b| < 19 then None
      else
        var length: nat := b[17];
        if 18 + length > |b| then None
        else
          var name := b[18..18 + length];
          if !utf8(name) then None
          else Some(RemoteDeviceInfo(name, FromRawValue(b[0] / 2 % 8)))
  }

  method Serialize(info: RemoteDeviceInfo, random: Bytes) returns (endpointInfo: Bytes)
    requires |random| == 16
    ensures endpointInfo == EndpointRecord(info, random)
  {
    endpointInfo := [RawValue(info.deviceType) * 2 % 8];
    endpointInfo := endpointInfo + random;
    var nameChars := info.name;
    if |nameChars| > 255 {
      nameChars := nameChars[..255];
    }
    endpointInfo := endpointInfo + [|nameChars|];
    endpointInfo := endpointInfo + nameChars;
  }

  function Truncated(name: Bytes): (t: Bytes)
    ensures t <= name && |t| == if |name| > 255 then 255 else |name|
    ensures t == name <==> |name| <= 255
  {
    if |name| > 255 then name[..255] else name
  }

  function EndpointRecord(info: RemoteDeviceInfo, random: Bytes): Bytes {
    Record(RawValue(info.deviceType) * 2 % 8, random, |Truncated(info.name)|, Truncated(info.name))
  }

  /** `process_connection_request`, once the frame's fields are there. */
  function ParseEndpointInfo(b: Bytes, utf8: Utf8): Option<RemoteDeviceInfo> {
    if |b| <= 17 then None
    else
      var length: nat := b[17];
      if |b| < length + 18 then None
      else
        var name := b[18..18 + length];
        if !utf8(name) then None
        else Some(RemoteDeviceInfo(name, FromRawValue(b[0] % 8 / 2)))
  }

  /** Whatever follows a record that parses is ignored. */
  lemma TrailingIgnored(b: Bytes, more: Bytes, utf8: Utf8)
    requires ParseEndpointInfo(b, utf8).Some?
    ensures ParseEndpointInfo(b + more, utf8) == ParseEndpointInfo(b, utf8)
  {
    assert (b + more)[18..18 + b[17]] == b[18..18 + b[17]];
  }

  lemma RecordFields(typeByte: byte, random: Bytes, length: byte, name: Bytes)
    requires |random| == 16 && length <= |name|
    ensures var r := Record(typeByte, random, length, name);
            |r| == 18 + |name| && r[0] == typeByte && r[1..17] == random && r[17] == length
            && r[18..18 + length] == name[..length]
  {
  }

  /** What the mDNS parser makes of any record whose length byte does not exceed the name. */
  lemma ParseRecord(typeByte: byte, random: Bytes, length: byte, name: Bytes, utf8: Utf8)
    requires |random| == 16 && length <= |name|
    ensures ParseMdnsEndpointInfo(B.Encode(Record(typeByte, random, length, name)), utf8)
         == if |name| == 0 || !utf8(name[..length]) then None
            else Some(RemoteDeviceInfo(name[..length], FromRawValue(typeByte / 2 % 8)))
  {
    B.RoundTrip(Record(typeByte, random, length, name));
    RecordFields(typeByte, random, length, name);
  }

  /** Parsing a generated mDNS record gives the name back exactly when it has 1 to 255 bytes: an empty
      name makes the record too short, and a longer one overflows the length byte. */
  lemma MdnsRoundTrip(t: DeviceType, name: Bytes, random: Bytes, utf8: Utf8)
    requires |random| == 16 && utf8(name)
    ensures var text := B.Encode(Record(RawValue(t) * 2 % 256, random, |name| % 256, name));
            ParseMdnsEndpointInfo(text, utf8) == Some(RemoteDeviceInfo(name, t)) <==> 1 <= |name| <= 255
  {
    var length: byte := |name| % 256;
    assert length <= |name|;
    ParseRecord(RawValue(t) * 2 % 256, random, length, name, utf8);
    RawValueRoundTrip(t);
    if |name| <= 255 {
      assert name[..length] == name;
    } else {
      assert name[..length] != name;
    }
  }

  /** The receiver reads the sender's device back exactly when its name fits 255 bytes. */
  lemma EndpointRoundTrip(info: RemoteDeviceInfo, random: Bytes, utf8: Utf8)
    requires |random| == 16 && utf8(info.name)
    ensures ParseEndpointInfo(EndpointRecord(info, random), utf8) == Some(info) <==> |info.name| <= 255
  {
    var name := Truncated(info.name);
    RecordFields(RawValue(info.deviceType) * 2 % 8, random, |name|, name);
    RawValueRoundTrip(info.deviceType);
    assert name[..|name|] == name;
  }
}
