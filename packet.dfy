/**
 * The game's wire packets: a one-byte tag followed by the variant's fields,
 * strings as u16-length-prefixed bytes and building ids as little-endian
 * u32 holding the i32.
 */
module Packets {
  import opened Wrappers
  import opened Bytes
  import opened Buffers

  type i32 = x: int | -0x8000_0000 <= x < 0x8000_0000

  /** Packet strings are carried as their UTF-8 bytes. */
  datatype Packet =
    | Login(username: seq<byte>, password: seq<byte>)
    | Logout(token: seq<byte>)
    | Chat(message: seq<byte>)
    | Build(building: i32)
    | Upgrade(upgraded: i32)
    | Destroy(destroyed: i32)
    | Cancel(cancelled: i32)
    | Error(error: seq<byte>)

  datatype PacketError = InvalidPacket(description: string)

  const InvalidPacketType := "Invalid packet type"

  /** `get_packet_type`: the tag byte of each variant. */
  function PacketType(p: Packet): (t: byte)
    ensures t <= 7
  {
    match p
    case Login(_, _) => 0
    case Logout(_) => 1
    case Chat(_) => 2
    case Build(_) => 3
    case Upgrade(_) => 4
    case Destroy(_) => 5
    case Cancel(_) => 6
    case Error(_) => 7
  }

  /** `get_packet_by_bit`: the empty packet of the tag's variant; a tag above 7 is an InvalidPacket error. */
  function PacketByBit(bit: byte): (r: Result<Packet, PacketError>)
    ensures r.Ok? <==> bit <= 7
    ensures r.Ok? ==> PacketType(r.value) == bit
    ensures r.Err? ==> r.error == InvalidPacket(InvalidPacketType)
  {
    match bit
    case 0 => Ok(Login([], []))
    case 1 => Ok(Logout([]))
    case 2 => Ok(Chat([]))
    case 3 => Ok(Build(0))
    case 4 => Ok(Upgrade(0))
    case 5 => Ok(Destroy(0))
    case 6 => Ok(Cancel(0))
    case 7 => Ok(Error([]))
    case _ => Err(InvalidPacket(InvalidPacketType))
  }

  /** Tags identify variants: two packets share a tag exactly when they are the same variant. */
  lemma TagsIdentifyVariants(p: Packet, q: Packet)
    ensures PacketType(p) == PacketType(q) <==>
      (p.Login? && q.Login?) || (p.Logout? && q.Logout?) || (p.Chat? && q.Chat?) ||
      (p.Build? && q.Build?) || (p.Upgrade? && q.Upgrade?) || (p.Destroy? && q.Destroy?) ||
      (p.Cancel? && q.Cancel?) || (p.Error? && q.Error?)
  {
  }

  /** Every string in the packet fits a u16 length prefix. */
  predicate Encodable(p: Packet)
  {
    match p
    case Login(u, w) => |u| < 0x1_0000 && |w| < 0x1_0000
    case Logout(t) => |t| < 0x1_0000
    case Chat(m) => |m| < 0x1_0000
    case Error(m) => |m| < 0x1_0000
    case _ => true
  }

  /** The bytes `set_packet` writes: the tag, then the fields in declaration order. */
  function Encode(p: Packet): (bs: seq<byte>)
    ensures |bs| >= 1 && bs[0] == PacketType(p) && bs[1..] == Body(p)
  {
    [PacketType(p)] + Body(p)
  }

  /** The fields of a packet, in declaration order. */
  function Body(p: Packet): seq<byte>
  {
    match p
    case Login(u, w) => StringBytes(u) + StringBytes(w)
    case Logout(t) => StringBytes(t)
    case Chat(m) => StringBytes(m)
    case Build(id) => LE(I32ToU32(id), 4)
    case Upgrade(id) => LE(I32ToU32(id), 4)
    case Destroy(id) => LE(I32ToU32(id), 4)
    case Cancel(id) => LE(I32ToU32(id), 4)
    case Error(m) => StringBytes(m)
  }

  /** An encoded Login is 1 + 2 + |username| + 2 + |password| bytes. */
  lemma LoginLength(u: seq<byte>, w: seq<byte>)
    ensures |Encode(Login(u, w))| == 1 + 2 + |u| + 2 + |w|
  {
  }

  /** What decoding bytes can give: a packet and the bytes it took, a bad tag, or too few bytes. */
  datatype Decoding = Decoded(packet: Packet, used: nat) | BadTag | Short

  /** A length-prefixed string at the front of `bs`, with the bytes it takes. */
  function DecodeString(bs: seq<byte>): (r: Option<(seq<byte>, nat)>)
    ensures r.Some? ==> r.value.1 == 2 + |r.value.0| <= |bs|
  {
    if |bs| < 2 || |bs| < 2 + FromLE(bs[..2]) then None
    else Some((bs[2..2 + FromLE(bs[..2])], 2 + FromLE(bs[..2])))
  }

  /** An i32 stored as a little-endian u32 at the front of `bs`. */
  function DecodeId(bs: seq<byte>): (r: Option<i32>)
  {
    if |bs| < 4 then None else Some(U32ToI32(FromLE(bs[..4])))
  }

  /** The fields of the variant tagged `tag` at the front of `rest`, with the bytes they take. */
  function DecodeBody(tag: byte, rest: seq<byte>): (r: Option<(Packet, nat)>)
    requires tag <= 7
    ensures r.Some? ==> r.value.1 <= |rest| && PacketType(r.value.0) == tag
  {
    if tag == 0 then
      match DecodeString(rest)
      case None => None
      case Some((u, n)) =>
        match DecodeString(rest[n..])
        case None => None
        case Some((w, m)) => Some((Login(u, w), n + m))
    else if tag == 1 || tag == 2 || tag == 7 then
      match DecodeString(rest)
      case None => None
      case Some((s, n)) =>
        Some((if tag == 1 then Logout(s) else if tag == 2 then Chat(s) else Error(s), n))
    else
      match DecodeId(rest)
      case None => None
      case Some(id) =>
        Some((if tag == 3 then Build(id) else if tag == 4 then Upgrade(id)
              else if tag == 5 then Destroy(id) else Cancel(id), 4))
  }

  /** The reference decoder `get_packet` follows, over the bytes from the read cursor on. */
  function Decode(bs: seq<byte>): (r: Decoding)
    ensures r.Decoded? ==> r.used <= |bs|
  {
    if |bs| < 1 then Short
    else if bs[0] > 7 then BadTag
    else
      match DecodeBody(bs[0], bs[1..])
      case None => Short
      case Some((p, n)) => Decoded(p, 1 + n)
  }

  lemma DecodeStringOfStringBytes(s: seq<byte>, rest: seq<byte>)
    requires |s| < 0x1_0000
    ensures DecodeString(StringBytes(s) + rest) == Some((s, 2 + |s|))
    ensures (StringBytes(s) + rest)[2 + |s|..] == rest
  {
    StringBytesRoundTrip(s, rest);
  }

  lemma DecodeIdOfLE(id: i32, rest: seq<byte>)
    ensures DecodeId(LE(I32ToU32(id), 4) + rest) == Some(id)
  {
    assert (LE(I32ToU32(id), 4) + rest)[..4] == LE(I32ToU32(id), 4);
    FromLEOfLE(I32ToU32(id), 4);
    I32RoundTrip(id);
  }

  /** `get_packet(set_packet(p)) == p`, whatever bytes follow the packet. */
  lemma DecodeEncode(p: Packet, rest: seq<byte>)
    requires Encodable(p)
    ensures Decode(Encode(p) + rest) == Decoded(p, |Encode(p)|)
  {
    var bs := Encode(p) + rest;
    assert bs[0] == PacketType(p);
    assert bs[1..] == Body(p) + rest;
    DecodeBodyOfBody(p, rest);
  }

  /** The fields of a packet decode back to it under its own tag. */
  lemma DecodeBodyOfBody(p: Packet, rest: seq<byte>)
    requires Encodable(p)
    ensures DecodeBody(PacketType(p), Body(p) + rest) == Some((p, |Body(p)|))
  {
    match p
    case Login(u, w) =>
      DecodeLoginBody(u, w, rest);
    case Logout(t) =>
      DecodeStringOfStringBytes(t, rest);
    case Chat(m) =>
      DecodeStringOfStringBytes(m, rest);
    case Error(m) =>
      DecodeStringOfStringBytes(m, rest);
    case Build(id) =>
      DecodeIdOfLE(id, rest);
    case Upgrade(id) =>
      DecodeIdOfLE(id, rest);
    case Destroy(id) =>
      DecodeIdOfLE(id, rest);
    case Cancel(id) =>
      DecodeIdOfLE(id, rest);
  }

  /** A Login's two strings decode back in order. */
  lemma DecodeLoginBody(u: seq<byte>, w: seq<byte>, rest: seq<byte>)
    requires |u| < 0x1_0000 && |w| < 0x1_0000
    ensures DecodeBody(0, Body(Login(u, w)) + rest) == Some((Login(u, w), |Body(Login(u, w))|))
  {
    var body := Body(Login(u, w)) + rest;
    assert body == StringBytes(u) + (StringBytes(w) + rest);
    DecodeStringOfStringBytes(u, StringBytes(w) + rest);
    DecodeStringOfStringBytes(w, rest);
  }

  /** `set_packet`: appends the packet's encoding to the written data. */
  method SetPacket(b: Buffer, p: Packet)
    requires b.Valid() && b.size + |Encode(p)| <= b.data.Length
    modifies b, b.data
    ensures b.Valid() && b.data == old(b.data) && b.index == old(b.index)
    ensures b.WriteData() == old(b.WriteData()) + Encode(p)
  {
    ghost var w0 := b.WriteData();
    var _ := b.WriteByte(PacketType(p));
    WriteBody(b, p);
    AppendAssoc(w0, [PacketType(p)], Body(p));
  }

  /** The field writes of `set_packet`, after the tag. */
  method WriteBody(b: Buffer, p: Packet)
    requires b.Valid() && b.size + |Body(p)| <= b.data.Length
    modifies b, b.data
    ensures b.Valid() && b.data == old(b.data) && b.index == old(b.index)
    ensures b.WriteData() == old(b.WriteData()) + Body(p)
  {
    if p.Login? {
      WriteLogin(b, p.username, p.password);
    } else if p.Logout? || p.Chat? || p.Error? {
      WriteTextBody(b, p);
    } else {
      WriteIdBody(b, p);
    }
  }

  /** The one string field of a Logout, Chat or Error. */
  method WriteTextBody(b: Buffer, p: Packet)
    requires p.Logout? || p.Chat? || p.Error?
    requires b.Valid() && b.size + |Body(p)| <= b.data.Length
    modifies b, b.data
    ensures b.Valid() && b.data == old(b.data) && b.index == old(b.index)
    ensures b.WriteData() == old(b.WriteData()) + Body(p)
  {
    var text := if p.Logout? then p.token else if p.Chat? then p.message else p.error;
    assert Body(p) == StringBytes(text);
    var _ := b.WriteString(text);
  }

  /** The one building id of a Build, Upgrade, Destroy or Cancel. */
  method WriteIdBody(b: Buffer, p: Packet)
    requires p.Build? || p.Upgrade? || p.Destroy? || p.Cancel?
    requires b.Valid() && b.size + |Body(p)| <= b.data.Length
    modifies b, b.data
    ensures b.Valid() && b.data == old(b.data) && b.index == old(b.index)
    ensures b.WriteData() == old(b.WriteData()) + Body(p)
  {
    var id := if p.Build? then p.building else if p.Upgrade? then p.upgraded
              else if p.Destroy? then p.destroyed else p.cancelled;
    assert Body(p) == LE(I32ToU32(id), 4);
    var _ := b.WriteInteger(I32ToU32(id));
  }

  /** The two string fields of a Login. */
  method WriteLogin(b: Buffer, u: seq<byte>, w: seq<byte>)
    requires b.Valid() && b.size + |Body(Login(u, w))| <= b.data.Length
    modifies b, b.data
    ensures b.Valid() && b.data == old(b.data) && b.index == old(b.index)
    ensures b.WriteData() == old(b.WriteData()) + Body(Login(u, w))
  {
    ghost var w0 := b.WriteData();
    ghost var su, sw := StringBytes(u), StringBytes(w);
    assert Body(Login(u, w)) == su + sw;
    var _ := b.WriteString(u);
    var _ := b.WriteString(w);
    AppendAssoc(w0, su, sw);
  }

  lemma AppendAssoc(a: seq<byte>, b: seq<byte>, c: seq<byte>)
    ensures (a + b) + c == a + (b + c)
  {
  }

  /**
   * `get_packet`: reads the tag, then the variant's fields, from the read
   * cursor. A bad tag is an error after the tag byte has been consumed. The
   * source panics when a field runs past the end of the block, so the bytes
   * there must decode.
   */
  method GetPacket(b: Buffer) returns (r: Result<Packet, PacketError>)
    requires b.Valid() && !Decode(b.data[b.index..]).Short?
    modifies b
    ensures b.Valid() && b.data == old(b.data) && b.size == old(b.size)
    ensures var d := Decode(old(b.data[b.index..]));
      (d.BadTag? ==> r == Err(InvalidPacket(InvalidPacketType)) && b.index == old(b.index) + 1) &&
      (d.Decoded? ==> r == Ok(d.packet) && b.index == old(b.index) + d.used)
  {
    ghost var bs := b.data[b.index..];
    var tag := b.ReadByte();
    var empty := PacketByBit(tag);
    if empty.Err? {
      return Err(empty.error);
    }
    assert bs[1..] == b.data[b.index..];
    var p := ReadBody(b, tag);
    r := Ok(p);
  }

  /** The field reads of `get_packet`, after the tag. */
  method ReadBody(b: Buffer, tag: byte) returns (p: Packet)
    requires tag <= 7 && b.Valid() && DecodeBody(tag, b.data[b.index..]).Some?
    modifies b
    ensures b.Valid() && b.data == old(b.data) && b.size == old(b.size)
    ensures DecodeBody(tag, old(b.data[b.index..])) == Some((p, b.index - old(b.index)))
  {
    if tag == 0 {
      ghost var rest := b.data[b.index..];
      var u := ReadStringField(b);
      assert rest[2 + |u|..] == b.data[b.index..];
      var w := ReadStringField(b);
      p := Login(u, w);
    } else if tag == 1 || tag == 2 || tag == 7 {
      var s := ReadStringField(b);
      p := if tag == 1 then Logout(s) else if tag == 2 then Chat(s) else Error(s);
    } else {
      var id := ReadIdField(b);
      p := if tag == 3 then Build(id) else if tag == 4 then Upgrade(id) else if tag == 5 then Destroy(id) else Cancel(id);
    }
  }

  /** `read_string` at the cursor, as `DecodeString` reads it. */
  method ReadStringField(b: Buffer) returns (s: seq<byte>)
    requires b.Valid() && DecodeString(b.data[b.index..]).Some?
    modifies b
    ensures b.Valid() && b.data == old(b.data) && b.size == old(b.size)
    ensures DecodeString(old(b.data[b.index..])) == Some((s, b.index - old(b.index)))
  {
    assert b.data[b.index..][..2] == b.data[b.index..b.index + 2];
    ghost var rest := b.data[b.index..];
    ghost var start := b.index;
    s := b.ReadString();
    assert rest[2..2 + |s|] == b.data[start + 2..start + 2 + |s|];
  }

  /** `read_integer` cast to i32 at the cursor, as `DecodeId` reads it. */
  method ReadIdField(b: Buffer) returns (id: i32)
    requires b.Valid() && DecodeId(b.data[b.index..]).Some?
    modifies b
    ensures b.Valid() && b.data == old(b.data) && b.size == old(b.size)
    ensures DecodeId(old(b.data[b.index..])) == Some(id) && b.index == old(b.index) + 4
  {
    assert b.data[b.index..][..4] == b.data[b.index..b.index + 4];
    var u := b.ReadInteger();
    id := U32ToI32(u);
  }

  /**
   * `set_packet` into a new buffer, then `get_packet`: the packet comes
   * back, and the buffer holds exactly its encoding.
   */
  method SetGetRoundTrip(p: Packet) returns (size: nat, r: Result<Packet, PacketError>)
    requires Encodable(p) && |Encode(p)| <= Capacity
    ensures size == |Encode(p)|
    ensures r == Ok(p)
  {
    var b := new Buffer();
    SetPacket(b, p);
    size := b.size;
    assert b.WriteData() == Encode(p);
    assert b.data[..] == b.data[..size] + b.data[size..];
    assert b.data[b.index..] == Encode(p) + b.data[size..];
    DecodeEncode(p, b.data[size..]);
    r := GetPacket(b);
  }

  /** A Login for "lorem"/"ipsum" is 15 bytes on the wire. */
  lemma LoremIpsumLoginLength()
    ensures Encodable(Login(Ascii("lorem"), Ascii("ipsum")))
    ensures |Encode(Login(Ascii("lorem"), Ascii("ipsum")))| == 15
  {
    LoginLength(Ascii("lorem"), Ascii("ipsum"));
  }
}
