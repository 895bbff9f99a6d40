/** The two messages the device sends on its own: `LoginSendMsg` and `HeartbeatSendMsg`
    (NsbDeviceSimulator.Type/Model/Send). */
module SendMessages {
  import opened Wrappers
  import opened Bytes
  import opened Messages
  import Commands

  /** `Encoding.ASCII.GetBytes`: one byte per character, `?` for anything outside ASCII. */
  function AsciiBytes(s: string): (r: seq<byte>)
    ensures |r| == |s|
    ensures forall i :: 0 <= i < |s| ==> (s[i] as int < 128 ==> r[i] == s[i] as int)
    ensures forall i :: 0 <= i < |s| ==> (s[i] as int >= 128 ==> r[i] == '?' as int)
  {
    seq(|s|, i requires 0 <= i < |s| => if s[i] as int < 128 then s[i] as int else '?' as int)
  }

  /** The message the `LoginSendMsg` constructor builds: serial bytes and the device-type byte as
      payload, a `Login` header whose length is the payload length cast to `short`. */
  function LoginMessage(sn: string, deviceType: byte): (m: BaseMessage)
    ensures Complete(m)
  {
    BaseMessage(Some(HeaderOf(Commands.Login, ToShort(|sn| + 1))), Some(BodyOf(AsciiBytes(sn) + [deviceType])))
  }

  /** The `LoginSendMsg` constructor: allocates `|sn| + 1` bytes, copies the serial's ASCII bytes in,
      writes the device type last, then builds the body and the header from it. */
  method LoginSendMsg(sn: string, deviceType: byte) returns (m: BaseMessage)
    ensures m.body.Some? && |m.body.value.data| == |sn| + 1
    ensures m.body.value.data[..|sn|] == AsciiBytes(sn) && m.body.value.data[|sn|] == deviceType
    ensures m.header.Some? && m.header.value.command == Commands.Login
    ensures m.header.value.dataLength == ToShort(|sn| + 1)
    ensures m == LoginMessage(sn, deviceType)
  {
    var ascii := AsciiBytes(sn);
    var data := new byte[|sn| + 1];
    var i := 0;
    while i < |sn|
      invariant 0 <= i <= |sn|
      invariant data[..i] == ascii[..i]
    {
      data[i] := ascii[i];
      i := i + 1;
    }
    data[|sn|] := deviceType;
    assert data[..] == ascii + [deviceType];
    var body := NewBody(Some(data[..]));
    var header := NewHeader(Commands.Login, ToShort(|body.value.data|));
    m := BaseMessage(Some(header), body);
  }

  /** The whole login frame: `7E 01 hi lo`, the serial, the device type, `EF`. */
  lemma {:induction false} LoginFrameLayout(sn: string, deviceType: byte)
    ensures var f := FrameBytes(LoginMessage(sn, deviceType));
      && |f| == |sn| + 6
      && f[..4] == HeaderBytes(Commands.Login, ToShort(|sn| + 1))
      && f[0] == 0x7E && f[1] == 0x01
      && f[4..4 + |sn|] == AsciiBytes(sn)
      && f[4 + |sn|] == deviceType && f[5 + |sn|] == 0xEF
  {
    var f := FrameBytes(LoginMessage(sn, deviceType));
    Commands.KnownCodes();
    assert f[4..] == AsciiBytes(sn) + [deviceType] + [EndByte];
    assert f[4..][..|sn|] == AsciiBytes(sn);
  }

  /** A serial of at most 254 characters gives a frame whose header decodes back to `Login` with the
      payload length, and whose body decodes back to the payload. */
  lemma {:induction false} LoginFrameDecodes(sn: string, deviceType: byte)
    requires |sn| + 1 <= 255
    ensures var f := FrameBytes(LoginMessage(sn, deviceType));
      && DecodeHeader(f[..4]).Some?
      && DecodeHeader(f[..4]).value.command == Commands.Login
      && DecodeHeader(f[..4]).value.dataLength == |sn| + 1
      && DecodeBody(f[4..]) == Some(BodyOf(AsciiBytes(sn) + [deviceType]))
  {
    FrameRoundTrip(Commands.Login, AsciiBytes(sn) + [deviceType]);
  }

  /** The `HeartbeatSendMsg` constructor as written: the header is `Heartbeat` with length 0, but the
      body is built from `null`, which throws, so no message is ever produced (`None`). */
  method HeartbeatSendMsg() returns (m: Option<BaseMessage>)
    ensures m.None?
  {
    var header := NewHeader(Commands.Heartbeat, 0);
    var body := NewBody(None);
    if body.None? {
      return None;
    }
    m := Some(BaseMessage(Some(header), body));
  }

  /** The heartbeat as evidently intended: a `Heartbeat` header of length 0 and an empty payload. */
  function HeartbeatMessage(): (m: BaseMessage)
    ensures Complete(m)
  {
    BaseMessage(Some(HeaderOf(Commands.Heartbeat, 0)), Some(BodyOf([])))
  }

  /** The corrected constructor: the body is built from an empty payload instead of `null`. */
  method HeartbeatSendMsgFixed() returns (m: BaseMessage)
    ensures m.header.Some? && m.header.value.command == Commands.Heartbeat && m.header.value.dataLength == 0
    ensures m.body.Some? && m.body.value.data == []
    ensures m == HeartbeatMessage()
  {
    var header := NewHeader(Commands.Heartbeat, 0);
    var body := NewBody(Some([]));
    m := BaseMessage(Some(header), body);
  }

  /** The corrected heartbeat is the five bytes `7E 02 00 00 EF`, and its header decodes to
      `Heartbeat` with length 0. */
  lemma HeartbeatFrame()
    ensures HeartbeatMessage().header.value.rawData == [0x7E, 0x02, 0x00, 0x00]
    ensures FrameBytes(HeartbeatMessage()) == [0x7E, 0x02, 0x00, 0x00, 0xEF]
    ensures DecodeHeader(FrameBytes(HeartbeatMessage())[..4]) == HeartbeatMessage().header
  {
    Commands.KnownCodes();
    HeaderRoundTrip(Commands.Heartbeat, 0);
  }
}
