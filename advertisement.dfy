/** The RAPT Pill's BLE advertisement: a 23-byte manufacturer-specific payload
    that starts with the marker "PT" and a version byte, followed by one of two
    big-endian layouts. The two IEEE-754 binary32 fields are kept as opaque
    groups of four bytes. */
module Advertisement {
  import opened Common

  /** One octet of a payload. */
  newtype Byte = b: int | 0 <= b < 0x100

  /** Company identifier under which the Pill's payload is found. */
  const ManufacturerId: int := 16722
  const PayloadLength: nat := 23
  /** The two marker bytes "PT". */
  const Prefix: seq<Byte> := [0x50, 0x54]
  /** The bytes "PTdPillG1": an advertisement that names the Pill and carries no metrics. */
  const NameMarker: seq<Byte> := [0x50, 0x54, 0x64, 0x50, 0x69, 0x6C, 0x6C, 0x47, 0x31]

  /** A big-endian IEEE-754 binary32 value, left undecoded. */
  type Float32 = b: seq<Byte> | |b| == 4 witness [0, 0, 0, 0]
  /** The six raw MAC bytes of a version-1 record. */
  type MacBytes = b: seq<Byte> | |b| == 6 witness [0, 0, 0, 0, 0, 0]

  /** struct code "B". */
  function UInt8(b: Byte): (n: nat)
    ensures n < 0x100
  {
    b as int
  }

  /** struct code ">H": the unsigned 16-bit big-endian value at offset i. */
  function UInt16(d: seq<Byte>, i: nat): (n: nat)
    requires i + 2 <= |d|
    ensures n < 0x1_0000
  {
    d[i] as int * 0x100 + d[i + 1] as int
  }

  /** struct code ">h": the two's-complement 16-bit big-endian value at offset i. */
  function Int16(d: seq<Byte>, i: nat): (n: int)
    requires i + 2 <= |d|
    ensures -0x8000 <= n < 0x8000
    ensures n >= 0 <==> d[i] < 0x80
  {
    var u := UInt16(d, i);
    if u < 0x8000 then u else u - 0x1_0000
  }

  /** The two record types, tagged by version. Temperature is in 1/128 kelvin,
      acceleration in 1/16 units and battery in 1/256 units. */
  datatype Metrics =
    | V1(version: nat, mac: MacBytes, temperature: nat, gravity: Float32,
         x: int, y: int, z: int, battery: int)
    | V2(hasGravityVel: nat, gravityVel: Float32, temperature: nat, gravity: Float32,
         x: int, y: int, z: int, battery: int)

  predicate IsInt16(n: int) { -0x8000 <= n < 0x8000 }

  /** The field ranges the two struct layouts can produce. */
  predicate WellFormed(m: Metrics) {
    m.temperature < 0x1_0000 && IsInt16(m.x) && IsInt16(m.y) && IsInt16(m.z) &&
    match m
    case V1(version, _, _, _, _, _, _, battery) => version == 1 && IsInt16(battery)
    case V2(flag, _, _, _, _, _, _, battery) => flag < 0x100 && 0 <= battery < 0x1_0000
  }

  /** unpack(">B6sHfhhhh", d): the version-1 record, read from offset 2 of the payload. */
  function UnpackV1(d: seq<Byte>): Metrics
    requires |d| == 21
  {
    V1(UInt8(d[0]), d[1..7], UInt16(d, 7), d[9..13],
       Int16(d, 13), Int16(d, 15), Int16(d, 17), Int16(d, 19))
  }

  /** unpack(">BfHfhhhH", d): the version-2 record, read from offset 4 of the payload. */
  function UnpackV2(d: seq<Byte>): Metrics
    requires |d| == 19
  {
    V2(UInt8(d[0]), d[1..5], UInt16(d, 5), d[7..11],
       Int16(d, 11), Int16(d, 13), Int16(d, 15), UInt16(d, 17))
  }

  /** The guards and layout dispatch of decode_rapt_data. The layout is chosen by
      the byte at offset 2 alone, and in both layouts temperature, gravity and the
      three axes sit at the same absolute offsets; only battery's signedness differs. */
  function Decode(data: seq<Byte>): (r: Result<Metrics>)
    ensures |data| != PayloadLength ==> r == Err(InvalidLength)
    ensures |data| == PayloadLength && data[..2] != Prefix ==> r == Err(InvalidPrefix)
    ensures r.Ok? <==> |data| == PayloadLength && data[..2] == Prefix
    ensures r.Ok? ==> WellFormed(r.value) && (r.value.V1? <==> data[2] == 1)
    ensures r.Ok? ==>
      r.value.temperature == UInt16(data, 9) && r.value.gravity == data[11..15] &&
      r.value.x == Int16(data, 15) && r.value.y == Int16(data, 17) && r.value.z == Int16(data, 19)
    ensures r.Ok? && r.value.V1? ==> r.value.mac == data[3..9] && r.value.battery == Int16(data, 21)
    ensures r.Ok? && r.value.V2? ==>
      r.value.gravityVel == data[5..9] && r.value.battery == UInt16(data, 21)
  {
    if |data| != PayloadLength then Err(InvalidLength)
    else if data[..2] != Prefix then Err(InvalidPrefix)
    else if data[2] == 1 then Ok(UnpackV1(data[2..]))
    else Ok(UnpackV2(data[4..]))
  }

  /** struct.pack(">H", n). */
  function PackUInt16(n: nat): (b: seq<Byte>)
    requires n < 0x1_0000
    ensures |b| == 2 && UInt16(b, 0) == n
  {
    [(n / 0x100) as Byte, (n % 0x100) as Byte]
  }

  /** struct.pack(">h", n). */
  function PackInt16(n: int): (b: seq<Byte>)
    requires IsInt16(n)
    ensures |b| == 2 && Int16(b, 0) == n
  {
    PackUInt16(if n < 0 then n + 0x1_0000 else n)
  }

  /** The payload a Pill sends for a record; a version-2 payload carries version
      byte 2 and a zero padding byte before its record. */
  function Encode(m: Metrics): (data: seq<Byte>)
    requires WellFormed(m)
    ensures |data| == PayloadLength && data[..2] == Prefix
  {
    match m
    case V1(version, mac, temperature, gravity, x, y, z, battery) =>
      Prefix + [version as Byte] + mac + PackUInt16(temperature) + gravity
        + PackInt16(x) + PackInt16(y) + PackInt16(z) + PackInt16(battery)
    case V2(flag, gravityVel, temperature, gravity, x, y, z, battery) =>
      Prefix + [2, 0] + [flag as Byte] + gravityVel + PackUInt16(temperature) + gravity
        + PackInt16(x) + PackInt16(y) + PackInt16(z) + PackUInt16(battery)
  }

  lemma UInt16At(a: seq<Byte>, b: seq<Byte>, c: seq<Byte>)
    requires |b| == 2
    ensures UInt16(a + b + c, |a|) == UInt16(b, 0)
  {
    assert (a + b + c)[|a|] == b[0] && (a + b + c)[|a| + 1] == b[1];
  }

  lemma Int16At(a: seq<Byte>, b: seq<Byte>, c: seq<Byte>)
    requires |b| == 2
    ensures Int16(a + b + c, |a|) == Int16(b, 0)
  {
    UInt16At(a, b, c);
  }

  /** Decoding what a Pill encodes gives back the record. */
  lemma DecodeEncode(m: Metrics)
    requires WellFormed(m)
    ensures Decode(Encode(m)) == Ok(m)
  {
    if m.V1? {
      DecodeEncodeV1(m);
    } else {
      DecodeEncodeV2(m);
    }
  }

  /** The fields of an encoded version-1 record sit where the decoder reads them. */
  lemma DecodeEncodeV1(m: Metrics)
    requires WellFormed(m) && m.V1?
    ensures Decode(Encode(m)) == Ok(m)
  {
    var data := Encode(m);
    var head := Prefix + [m.version as Byte] + m.mac;
    var t, pz := PackUInt16(m.temperature), PackInt16(m.z);
    var px, py, pb := PackInt16(m.x), PackInt16(m.y), PackInt16(m.battery);
    var gravity := m.gravity;
    assert data == head + t + (gravity + px + py + pz + pb);
    UInt16At(head, t, gravity + px + py + pz + pb);
    assert data == (head + t + gravity) + px + (py + pz + pb);
    Int16At(head + t + gravity, px, py + pz + pb);
    assert data == (head + t + gravity + px) + py + (pz + pb);
    Int16At(head + t + gravity + px, py, pz + pb);
    assert data == (head + t + gravity + px + py) + pz + pb;
    Int16At(head + t + gravity + px + py, pz, pb);
    assert data == (head + t + gravity + px + py + pz) + pb + [];
    Int16At(head + t + gravity + px + py + pz, pb, []);
    assert data[3..9] == m.mac;
    assert data[11..15] == gravity;
    assert data[2] == 1;
  }

  /** The fields of an encoded version-2 record sit where the decoder reads them. */
  lemma DecodeEncodeV2(m: Metrics)
    requires WellFormed(m) && m.V2?
    ensures Decode(Encode(m)) == Ok(m)
  {
    var data := Encode(m);
    var head := Prefix + [2, 0] + [m.hasGravityVel as Byte] + m.gravityVel;
    var t, pz := PackUInt16(m.temperature), PackInt16(m.z);
    var px, py, pb := PackInt16(m.x), PackInt16(m.y), PackUInt16(m.battery);
    var gravity := m.gravity;
    assert data == head + t + (gravity + px + py + pz + pb);
    UInt16At(head, t, gravity + px + py + pz + pb);
    assert data == (head + t + gravity) + px + (py + pz + pb);
    Int16At(head + t + gravity, px, py + pz + pb);
    assert data == (head + t + gravity + px) + py + (pz + pb);
    Int16At(head + t + gravity + px, py, pz + pb);
    assert data == (head + t + gravity + px + py) + pz + pb;
    Int16At(head + t + gravity + px + py, pz, pb);
    assert data == (head + t + gravity + px + py + pz) + pb + [];
    UInt16At(head + t + gravity + px + py + pz, pb, []);
    assert data[5..9] == m.gravityVel;
    assert data[11..15] == gravity;
    assert data[2] == 2;
  }

  /** Packing a 16-bit field read from d gives back its two bytes. */
  lemma PackUnpack16(d: seq<Byte>, i: nat)
    requires i + 2 <= |d|
    ensures PackUInt16(UInt16(d, i)) == d[i..i + 2]
    ensures PackInt16(Int16(d, i)) == d[i..i + 2]
  {
  }

  /** Every byte of an accepted payload is accounted for by its record, except
      that a version-2 record forgets the version byte and the byte after it. */
  lemma EncodeDecode(data: seq<Byte>)
    requires Decode(data).Ok?
    ensures var m := Decode(data).value;
      Encode(m) == if m.V1? then data else Prefix + [2, 0] + data[4..]
  {
    var m := Decode(data).value;
    var fields := FieldBytes(data);
    if m.V1? {
      EncodeV1Fields(m, data[..2] + [data[2]] + data[3..9], fields);
      assert data == data[..9] + data[9..];
    } else {
      EncodeV2Fields(m, Prefix + [2, 0] + [data[4]] + data[5..9], fields);
      assert data[4..] == data[4..9] + data[9..];
    }
  }

  /** The bytes from offset 9 on are the packed fields shared by both layouts. */
  lemma FieldBytes(data: seq<Byte>) returns (fields: seq<Byte>)
    requires Decode(data).Ok?
    ensures fields == data[9..]
    ensures var m := Decode(data).value;
      fields == PackUInt16(m.temperature) + m.gravity + PackInt16(m.x) + PackInt16(m.y)
        + PackInt16(m.z) + (if m.V1? then PackInt16(m.battery) else PackUInt16(m.battery))
  {
    PackUnpack16(data, 9);
    PackUnpack16(data, 15);
    PackUnpack16(data, 17);
    PackUnpack16(data, 19);
    PackUnpack16(data, 21);
    fields := data[9..];
    assert fields == data[9..11] + data[11..15] + data[15..17] + data[17..19] + data[19..21] + data[21..23];
  }

  /** A version-1 record encodes as its header followed by its packed fields. */
  lemma EncodeV1Fields(m: Metrics, head: seq<Byte>, fields: seq<Byte>)
    requires WellFormed(m) && m.V1?
    requires head == Prefix + [m.version as Byte] + m.mac
    requires fields == PackUInt16(m.temperature) + m.gravity + PackInt16(m.x) + PackInt16(m.y)
      + PackInt16(m.z) + PackInt16(m.battery)
    ensures Encode(m) == head + fields
  {
  }

  /** A version-2 record encodes as its header followed by its packed fields. */
  lemma EncodeV2Fields(m: Metrics, head: seq<Byte>, fields: seq<Byte>)
    requires WellFormed(m) && m.V2?
    requires head == Prefix + [2, 0] + [m.hasGravityVel as Byte] + m.gravityVel
    requires fields == PackUInt16(m.temperature) + m.gravity + PackInt16(m.x) + PackInt16(m.y)
      + PackInt16(m.z) + PackUInt16(m.battery)
    ensures Encode(m) == head + fields
  {
  }

  /** Layout selection looks at the byte at offset 2 only: two accepted version-2
      payloads that agree from offset 4 on decode to the same record, whatever
      their version bytes (other than 1) and the byte at offset 3. */
  lemma V2IgnoresVersionBytes(d: seq<Byte>, e: seq<Byte>)
    requires |d| == |e| == PayloadLength && d[..2] == e[..2] == Prefix
    requires d[2] != 1 && e[2] != 1 && d[4..] == e[4..]
    ensures Decode(d) == Decode(e)
  {
  }

  /** The Pill's name advertisement would be refused by the length guard, so
      skipping it only avoids raising. */
  lemma NameMarkerIsNotAPayload()
    ensures Decode(NameMarker) == Err(InvalidLength)
  {
  }

  /** ASCII lower-casing of one character (MAC addresses are hexadecimal). */
  function LowerChar(c: char): char
  {
    if 'A' <= c <= 'Z' then (c as int + 32) as char else c
  }

  function Lower(s: string): (r: string)
    ensures |r| == |s|
  {
    seq(|s|, i requires 0 <= i < |s| => LowerChar(s[i]))
  }

  /** An independent statement of case-insensitive equality, character by character. */
  predicate SameIgnoringCase(a: string, b: string) {
    |a| == |b| && forall i :: 0 <= i < |a| ==> LowerChar(a[i]) == LowerChar(b[i])
  }

  lemma LowerEqualIff(a: string, b: string)
    ensures Lower(a) == Lower(b) <==> SameIgnoringCase(a, b)
  {
    if SameIgnoringCase(a, b) {
      assert forall i :: 0 <= i < |a| ==> Lower(a)[i] == Lower(b)[i];
    }
    if Lower(a) == Lower(b) {
      assert |a| == |b|;
      forall i | 0 <= i < |a| ensures LowerChar(a[i]) == LowerChar(b[i]) {
        assert Lower(a)[i] == Lower(b)[i];
      }
    }
  }

  /** The filter of device_found: the payload to hand to the decoder, if any. A
      packet is decoded exactly when its address matches the session's MAC
      address ignoring case, it carries data under ManufacturerId, and that data
      is not the name advertisement. */
  function PayloadFor(address: string, mac: string, manufacturerData: map<int, seq<Byte>>)
    : (r: Option<seq<Byte>>)
    ensures r.Some? <==>
      SameIgnoringCase(address, mac) && ManufacturerId in manufacturerData &&
      manufacturerData[ManufacturerId] != NameMarker
    ensures r.Some? ==> r.value == manufacturerData[ManufacturerId]
  {
    LowerEqualIff(address, mac);
    if Lower(address) != Lower(mac) then None
    else if ManufacturerId !in manufacturerData then None
    else if manufacturerData[ManufacturerId] == NameMarker then None
    else Some(manufacturerData[ManufacturerId])
  }
}
