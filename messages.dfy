/** The frame codec: `Header`, `Body` and `BaseMessage` of NsbDeviceSimulator.Type/BaseMessage.cs.
    A frame is a 4-byte header `7E cmd lenH lenL` followed by the payload and the end marker `EF`. */
module Messages {
  import opened Wrappers
  import opened Bytes
  import Commands
  type Command = Commands.Command

  const StartByte: byte := 0x7E
  const EndByte: byte := 0xEF
  const HeaderLength: nat := 4

  /** What a `Header` object holds once constructed. */
  datatype Header = Header(command: Command, dataLength: short, rawData: seq<byte>)

  /** What a `Body` object holds once constructed: the payload and the payload followed by `EF`. */
  datatype Body = Body(data: seq<byte>, rawData: seq<byte>)

  /** A message; either part may still be unset (`null`), as in `new BaseMessage()`. */
  datatype BaseMessage = BaseMessage(header: Option<Header>, body: Option<Body>)

  /** The four header bytes the `Header` constructor writes. */
  function HeaderBytes(c: Command, len: short): (r: seq<byte>)
    ensures |r| == HeaderLength && r[0] == StartByte && r[1] == Commands.Code(c)
    ensures 0 <= len ==> r[2] as int * 256 + r[3] as int == len
    ensures ToShort(r[2] as int * 256 + r[3] as int) == len
  {
    HighLowJoin(len);
    [StartByte, Commands.Code(c), HighByte(len), LowByte(len)]
  }

  /** The header object `new Header(c, len)`. */
  function HeaderOf(c: Command, len: short): Header
  {
    Header(c, len, HeaderBytes(c, len))
  }

  /** The body object `new Body(data)` for non-null data. */
  function BodyOf(data: seq<byte>): (b: Body)
    ensures |b.rawData| == |data| + 1 && b.rawData[..|data|] == data && b.rawData[|data|] == EndByte
  {
    Body(data, data + [EndByte])
  }

  /** The `Header` constructor: fills a fresh 4-byte array slot by slot. */
  method NewHeader(c: Command, len: short) returns (h: Header)
    ensures h.command == c && h.dataLength == len
    ensures h.rawData == HeaderBytes(c, len)
  {
    var raw := new byte[HeaderLength];
    raw[0] := StartByte;
    raw[1] := Commands.Code(c);
    raw[2] := HighByte(len);
    raw[3] := LowByte(len);
    h := Header(c, len, raw[..]);
  }

  /** The `Body` constructor. With `null` it never assigns `Data` and then dereferences it,
      which throws: that outcome is `None`. Otherwise it copies the payload and appends `EF`. */
  method NewBody(data: Option<seq<byte>>) returns (b: Option<Body>)
    ensures data.None? ==> b.None?
    ensures data.Some? ==> b.Some? && b.value.data == data.value
    ensures data.Some? ==> |b.value.rawData| == |data.value| + 1
    ensures data.Some? ==> b.value.rawData[..|data.value|] == data.value && b.value.rawData[|data.value|] == EndByte
    ensures data.Some? ==> b == Some(BodyOf(data.value))
  {
    if data.None? {
      return None;
    }
    var d := data.value;
    var raw := new byte[|d| + 1];
    var i := 0;
    while i < |d|
      invariant 0 <= i <= |d|
      invariant raw[..i] == d[..i]
    {
      raw[i] := d[i];
      i := i + 1;
    }
    raw[|d|] := EndByte;
    assert raw[..|d|] == d;
    assert raw[..] == d + [EndByte];
    b := Some(Body(d, raw[..]));
  }

  /** The explicit conversion `(Header?)bytes`. The length is the OR of the two length bytes,
      not their 16-bit combination, so it never exceeds 255. */
  function DecodeHeader(raw: seq<byte>): (r: Option<Header>)
    ensures r.Some? <==> |raw| == HeaderLength && raw[0] == StartByte && Commands.IsDefined(raw[1])
    ensures r.Some? ==> Commands.Code(r.value.command) == raw[1]
    ensures r.Some? ==> r.value.dataLength == OrBytes(raw[2], raw[3]) && 0 <= r.value.dataLength <= 255
    ensures r.Some? ==> r.value.rawData == HeaderBytes(r.value.command, r.value.dataLength)
  {
    if |raw| != HeaderLength then None
    else if raw[0] != StartByte then None
    else
      match Commands.FromCode(raw[1])
      case None => None
      case Some(c) =>
        Commands.FromCodeSound(raw[1]);
        Some(HeaderOf(c, OrBytes(raw[2], raw[3])))
  }

  /** The explicit conversion `(Body?)bytes`; an empty array would throw on `body[^1]`. */
  function DecodeBody(raw: seq<byte>): (r: Option<Body>)
    requires |raw| > 0
    ensures r.Some? <==> raw[|raw| - 1] == EndByte
    ensures r.Some? ==> r.value.data == raw[..|raw| - 1] && r.value.rawData == raw
  {
    if raw[|raw| - 1] != EndByte then None
    else Some(BodyOf(raw[..|raw| - 1]))
  }

  /** A message whose two parts came from their constructors. */
  predicate Complete(m: BaseMessage)
  {
    && m.header.Some? && m.body.Some?
    && m.header.value.rawData == HeaderBytes(m.header.value.command, m.header.value.dataLength)
    && m.body.value.rawData == BodyOf(m.body.value.data).rawData
  }

  /** The bytes `GetBytes` puts on the wire for a complete message. */
  function FrameBytes(m: BaseMessage): (r: seq<byte>)
    requires Complete(m)
    ensures |r| == HeaderLength + |m.body.value.data| + 1
    ensures r[..HeaderLength] == m.header.value.rawData && r[HeaderLength..] == m.body.value.rawData
  {
    m.header.value.rawData + m.body.value.rawData
  }

  /** `BaseMessage.GetBytes`: a fresh array of `HeaderLength + BodyLength` bytes, the header's raw
      bytes copied to the front and the body's raw bytes after them. */
  method GetBytes(m: BaseMessage) returns (bytes: array<byte>)
    requires Complete(m)
    ensures bytes.Length == HeaderLength + |m.body.value.data| + 1
    ensures bytes[..] == FrameBytes(m)
  {
    var h := m.header.value.rawData;
    var b := m.body.value.rawData;
    bytes := new byte[HeaderLength + |m.body.value.data| + 1];
    var i := 0;
    while i < HeaderLength
      invariant 0 <= i <= HeaderLength
      invariant bytes[..i] == h[..i]
    {
      bytes[i] := h[i];
      i := i + 1;
    }
    var j := 0;
    while j < |b|
      invariant 0 <= j <= |b|
      invariant bytes[..HeaderLength] == h
      invariant bytes[HeaderLength..HeaderLength + j] == b[..j]
    {
      bytes[HeaderLength + j] := b[j];
      j := j + 1;
    }
    assert bytes[..] == bytes[..HeaderLength] + bytes[HeaderLength..HeaderLength + |b|];
  }

  /** Header round trip: for a length that fits in the low byte, decoding the encoded header gives
      back the same command and length. */
  lemma {:induction false} HeaderRoundTrip(c: Command, len: short)
    requires 0 <= len <= 255
    ensures DecodeHeader(HeaderBytes(c, len)) == Some(HeaderOf(c, len))
  {
    Commands.CodeRoundTrip(c);
    assert HighByte(len) == 0;
  }

  /** Beyond 255 the round trip fails: the decoded length is at most 255, e.g. 256 decodes to 1. */
  lemma HeaderRoundTripLosesLength(c: Command, len: short)
    requires len >= 256
    ensures DecodeHeader(HeaderBytes(c, len)).Some?
    ensures DecodeHeader(HeaderBytes(c, len)).value.dataLength != len
    ensures len == 256 ==> DecodeHeader(HeaderBytes(c, len)).value.dataLength == 1
  {
    Commands.CodeRoundTrip(c);
    if len == 256 {
      assert HighByte(len) == 1 && LowByte(len) == 0;
    }
  }

  /** Body round trip: decoding the raw bytes of `new Body(d)` gives a body with the same payload. */
  lemma BodyRoundTrip(data: seq<byte>)
    ensures DecodeBody(BodyOf(data).rawData) == Some(BodyOf(data))
  {
    assert BodyOf(data).rawData[..|data|] == data;
  }

  /** A frame of a complete message whose length field is at most 255 decodes back to the message:
      the first four bytes as its header, the rest as its body. */
  lemma {:induction false} FrameRoundTrip(c: Command, data: seq<byte>)
    requires |data| <= 255
    ensures var m := BaseMessage(Some(HeaderOf(c, |data|)), Some(BodyOf(data)));
      && Complete(m)
      && DecodeHeader(FrameBytes(m)[..HeaderLength]) == m.header
      && DecodeBody(FrameBytes(m)[HeaderLength..]) == m.body
  {
    HeaderRoundTrip(c, |data|);
    BodyRoundTrip(data);
  }
}
