/** The device side of the TCP session, `Connection` (NsbDeviceSimulator.Logic/Connection.cs):
    the reconnect guard, the login flag, the heartbeat miss counter, the chain of reads that
    alternates header and body handlers, and the dispatcher that takes received messages off the
    queue. The socket is abstract: a connect completes with a success flag, a read completes with
    the bytes it delivered (none at end of stream), and a send appends the frame to `sent`. */
module Link {
  import opened Wrappers
  import opened Bytes
  import opened Messages
  import opened Timers
  import SendMessages
  import Commands

  const MaxRetryTimes := 3
  const LoginTimeoutMs := 10_000
  const HeartbeatPeriodMs := 60_000

  /** The callback an outstanding `BeginRead` completes into. */
  datatype Handler = OnHeader | OnBody

  /** The outstanding read: its handler and the `StateObject` it carries (buffer and message). */
  datatype Read = NoRead | Pending(handler: Handler, buffer: seq<byte>, message: BaseMessage)

  /** Socket-level calls, in order: `BeginConnect` on a fresh client, and closing the stream. */
  datatype LinkCall = Connect | Close

  datatype Link = Link(
    connected: bool,
    cancelled: bool,
    isLogin: bool,
    reconnecting: bool,
    heartbeatCnt: int,
    loginTimer: TimerHandle,
    heartbeatTimer: TimerHandle,
    read: Read,
    sent: seq<seq<byte>>,
    queue: seq<BaseMessage>,
    dispatcherAlive: bool,
    calls: seq<LinkCall>)

  /** Every outstanding read has room for at least one byte. */
  predicate ReadOk(l: Link)
  {
    l.read.Pending? ==> |l.read.buffer| > 0
  }

  function Zeros(n: nat): (r: seq<byte>)
    ensures |r| == n && forall i :: 0 <= i < n ==> r[i] == 0
  {
    seq(n, _ => 0)
  }

  /** A read of `received` into `buffer`: the bytes delivered overwrite its front, the rest of the
      buffer keeps what it held. */
  function ReadInto(buffer: seq<byte>, received: seq<byte>): (r: seq<byte>)
    requires |received| <= |buffer|
    ensures |r| == |buffer| && r[..|received|] == received && r[|received|..] == buffer[|received|..]
  {
    received + buffer[|received|..]
  }

  /** `SendMessage`: written only on a connected client. */
  function SendStep(l: Link, m: BaseMessage): (r: Link)
    requires Complete(m)
    ensures r.sent == if l.connected then l.sent + [FrameBytes(m)] else l.sent
    ensures r.(sent := l.sent) == l
  {
    if l.connected then l.(sent := l.sent + [FrameBytes(m)]) else l
  }

  /** `Stop`: a connected client has its stream and itself closed; on an unconnected one `GetStream`
      throws before anything is closed, and the exception is swallowed. */
  function StopStep(l: Link): (r: Link)
    ensures !r.connected
    ensures r.calls == if l.connected then l.calls + [Close] else l.calls
    ensures r.(connected := l.connected, calls := l.calls) == l
  {
    if l.connected then l.(connected := false, calls := l.calls + [Close]) else l
  }

  /** `Start`, that is `Connect`: a fresh, not yet connected client and a `BeginConnect`. */
  function StartStep(l: Link): Link
  {
    l.(connected := false, calls := l.calls + [Connect])
  }

  /** `Reconnect`: nothing while a reconnect is in progress; otherwise mark one, stop, and start
      again unless cancellation was requested. */
  function ReconnectStep(l: Link): (r: Link)
    ensures l.reconnecting ==> r == l
    ensures !l.reconnecting ==> r.reconnecting && !r.connected
    ensures !l.reconnecting ==>
      r.calls == l.calls + (if l.connected then [Close] else []) + (if l.cancelled then [] else [Connect])
    ensures r.(connected := l.connected, reconnecting := l.reconnecting, calls := l.calls) == l
  {
    if l.reconnecting then l
    else
      var s := StopStep(l.(reconnecting := true));
      if s.cancelled then s else StartStep(s)
  }

  /** A reconnect in progress absorbs every further reconnect until `OnConnect` clears the flag. */
  lemma ReconnectIdempotent(l: Link)
    ensures ReconnectStep(ReconnectStep(l)) == ReconnectStep(l)
    ensures |ReconnectStep(l).calls| <= |l.calls| + 2
  {
  }

  /** `OnConnect`, with the outcome of the connect: clear the reconnect flag, arm both timers, clear
      the login flag, send the login frame and, if it went out, start reading a 4-byte header. */
  function OnConnectStep(l: Link, ok: bool, sn: string, deviceType: byte): (r: Link)
    ensures !r.reconnecting && !r.isLogin && r.connected == ok
    ensures r.loginTimer == Armed(LoginTimeoutMs, InfiniteMs)
    ensures r.heartbeatTimer == Armed(LoginTimeoutMs, HeartbeatPeriodMs)
    ensures ok ==> r.sent == l.sent + [FrameBytes(SendMessages.LoginMessage(sn, deviceType))]
    ensures ok ==> r.read == Pending(OnHeader, Zeros(HeaderLength), BaseMessage(None, None))
    ensures !ok ==> r.sent == l.sent && r.read == l.read
  {
    var c := l.(
      reconnecting := false,
      loginTimer := Armed(LoginTimeoutMs, InfiniteMs),
      heartbeatTimer := Armed(LoginTimeoutMs, HeartbeatPeriodMs),
      isLogin := false,
      connected := ok);
    if !c.connected then c
    else
      var s := SendStep(c, SendMessages.LoginMessage(sn, deviceType));
      s.(read := Pending(OnHeader, Zeros(HeaderLength), BaseMessage(None, None)))
  }

  /** `OnHeaderReceive`, for a read that delivered `received`. A valid header sets the message's
      header and reads `DataLength + 1` bytes into a fresh buffer for the body handler; an invalid
      one reads 4 more bytes into the same buffer for the header handler; an empty read reconnects;
      on a client that is no longer connected the read chain just ends. */
  function OnHeaderReceiveStep(l: Link, received: seq<byte>): (r: Link)
    requires l.read.Pending? && l.read.handler == OnHeader && |received| <= |l.read.buffer|
    ensures !l.connected ==> r == l.(read := NoRead)
    ensures l.connected && received == [] ==> r == ReconnectStep(l.(read := NoRead))
    ensures l.connected && received != [] ==>
      var data := ReadInto(l.read.buffer, received);
      && r == l.(read := r.read)
      && r.read.Pending?
      && r.read.message == l.read.message.(header := DecodeHeader(data))
      && (DecodeHeader(data).Some? ==>
            r.read.handler == OnBody && |r.read.buffer| == DecodeHeader(data).value.dataLength + 1 <= 256)
      && (DecodeHeader(data).None? ==> r.read.handler == OnHeader && r.read.buffer == data)
  {
    if !l.connected then l.(read := NoRead)
    else if |received| == 0 then ReconnectStep(l.(read := NoRead))
    else
      var data := ReadInto(l.read.buffer, received);
      var m := l.read.message.(header := DecodeHeader(data));
      match m.header
      case Some(h) => l.(read := Pending(OnBody, Zeros(h.dataLength + 1), m))
      case None => l.(read := Pending(OnHeader, data, m))
  }

  /** `OnBodyReceive`, for a read that delivered `received`. The body is decoded from the whole buffer
      (`None` when its last byte is not `EF`), the message is queued, a fresh message and 4-byte
      buffer are read next, into the body handler again, and the miss counter is reset. An empty read
      reconnects. When cancellation was requested, adding to the queue throws and the handler closes
      the client. On a client that is no longer connected the read chain just ends. */
  function OnBodyReceiveStep(l: Link, received: seq<byte>): (r: Link)
    requires l.read.Pending? && l.read.handler == OnBody && |received| <= |l.read.buffer|
    requires ReadOk(l)
    ensures !l.connected ==> r == l.(read := NoRead)
    ensures l.connected && received == [] ==> r == ReconnectStep(l.(read := NoRead))
    ensures l.connected && received != [] && l.cancelled ==> r == StopStep(l.(read := NoRead))
    ensures l.connected && received != [] && !l.cancelled ==>
      var data := ReadInto(l.read.buffer, received);
      && r.queue == l.queue + [l.read.message.(body := DecodeBody(data))]
      && r.heartbeatCnt == 0
      && r.read == Pending(OnBody, Zeros(HeaderLength), BaseMessage(None, None))
      && r.(queue := l.queue, heartbeatCnt := l.heartbeatCnt, read := l.read) == l
  {
    if !l.connected then l.(read := NoRead)
    else if |received| == 0 then ReconnectStep(l.(read := NoRead))
    else
      var data := ReadInto(l.read.buffer, received);
      var m := l.read.message.(body := DecodeBody(data));
      if l.cancelled then StopStep(l.(read := NoRead))
      else
        var q := l.(queue := l.queue + [m], read := Pending(OnBody, Zeros(HeaderLength), BaseMessage(None, None)));
        HeartbeatStep(q)
  }

  /** `Heartbeat`: the miss counter restarts. */
  function HeartbeatStep(l: Link): (r: Link)
    ensures r.heartbeatCnt == 0 && r.(heartbeatCnt := l.heartbeatCnt) == l
  {
    l.(heartbeatCnt := 0)
  }

  /** `OnLoginTimeout`: reconnect unless logged in. */
  function OnLoginTimeoutStep(l: Link): (r: Link)
    ensures l.isLogin ==> r == l
    ensures !l.isLogin ==> r == ReconnectStep(l)
  {
    if l.isLogin then l else ReconnectStep(l)
  }

  /** `OnHeartbeatTimeout`: on a connected client, building the heartbeat throws, the exception
      is swallowed and nothing is written; then the miss is counted, and once more than three
      misses have piled up the counter is reset and the client reconnects. */
  function OnHeartbeatTimeoutStep(l: Link): (r: Link)
    ensures r.sent == l.sent
    ensures l.heartbeatCnt + 1 <= MaxRetryTimes ==> r == l.(heartbeatCnt := l.heartbeatCnt + 1)
    ensures l.heartbeatCnt + 1 > MaxRetryTimes ==> r == ReconnectStep(l.(heartbeatCnt := 0))
  {
    var c := l.heartbeatCnt + 1;
    if c <= MaxRetryTimes then l.(heartbeatCnt := c) else ReconnectStep(l.(heartbeatCnt := 0))
  }

  /** The tick with the corrected heartbeat: the heartbeat is written first on a connected client,
      and the rest of the tick is unchanged. */
  function OnHeartbeatTimeoutFixedStep(l: Link): (r: Link)
    ensures r.sent == if l.connected then l.sent + [FrameBytes(SendMessages.HeartbeatMessage())] else l.sent
    ensures r.(sent := l.sent) == OnHeartbeatTimeoutStep(l)
  {
    OnHeartbeatTimeoutStep(SendStep(l, SendMessages.HeartbeatMessage()))
  }

  /** As written, a heartbeat tick never writes anything; corrected, a tick on a connected client
      writes the five bytes `7E 02 00 00 EF`. Counter and reconnects are the same in both. */
  lemma HeartbeatTickSends(l: Link)
    ensures OnHeartbeatTimeoutStep(l).sent == l.sent
    ensures l.connected ==> OnHeartbeatTimeoutFixedStep(l).sent == l.sent + [[0x7E, 0x02, 0x00, 0x00, 0xEF]]
    ensures OnHeartbeatTimeoutFixedStep(l).heartbeatCnt == OnHeartbeatTimeoutStep(l).heartbeatCnt
    ensures OnHeartbeatTimeoutFixedStep(l).calls == OnHeartbeatTimeoutStep(l).calls
  {
    SendMessages.HeartbeatFrame();
  }

  /** Four heartbeat ticks in a row with no body received in between: the first three only count,
      the fourth resets the counter and reconnects. */
  lemma FourMissesReconnect(l: Link)
    requires l.heartbeatCnt == 0 && !l.reconnecting && !l.cancelled
    ensures var t3 := OnHeartbeatTimeoutStep(OnHeartbeatTimeoutStep(OnHeartbeatTimeoutStep(l)));
      && t3.heartbeatCnt == 3 && t3.calls == l.calls && !t3.reconnecting
      && OnHeartbeatTimeoutStep(t3).heartbeatCnt == 0
      && OnHeartbeatTimeoutStep(t3).reconnecting
      && OnHeartbeatTimeoutStep(t3).calls == l.calls + (if l.connected then [Close] else []) + [Connect]
  {
  }

  /** A received body resets the counter, so a body received before the fourth tick postpones the
      reconnect by four more ticks. */
  lemma BodyPostponesReconnect(l: Link, received: seq<byte>)
    requires l.connected && !l.cancelled && l.read.Pending? && l.read.handler == OnBody
    requires ReadOk(l) && 0 < |received| <= |l.read.buffer|
    ensures OnBodyReceiveStep(l, received).heartbeatCnt == 0
    ensures OnHeartbeatTimeoutStep(OnBodyReceiveStep(l, received)).heartbeatCnt == 1
    ensures OnHeartbeatTimeoutStep(OnBodyReceiveStep(l, received)).calls == l.calls
  {
  }

  /** One pass of the `MessageHandle` loop on a taken message: a `Login` frame sets the login flag,
      anything but a `Heartbeat` is ignored. Two cases throw out of the loop and end the dispatcher:
      a message with no header (on `msg.Header.Command`) and a `Heartbeat` frame (building the
      answer throws). */
  function DispatchOne(l: Link, m: BaseMessage): (r: Link)
    ensures m.header.None? ==> r == l.(dispatcherAlive := false)
    ensures m.header.Some? && m.header.value.command == Commands.Login ==> r == l.(isLogin := true)
    ensures m.header.Some? && m.header.value.command == Commands.Heartbeat ==> r == l.(dispatcherAlive := false)
    ensures m.header.Some? && m.header.value.command != Commands.Login && m.header.value.command != Commands.Heartbeat ==>
      r == l
  {
    match m.header
    case None => l.(dispatcherAlive := false)
    case Some(h) =>
      if h.command == Commands.Login then l.(isLogin := true)
      else if h.command == Commands.Heartbeat then l.(dispatcherAlive := false)
      else l
  }

  /** The pass with the corrected heartbeat: a `Heartbeat` frame is answered and the dispatcher
      goes on; every other message is handled as before. */
  function DispatchOneFixed(l: Link, m: BaseMessage): (r: Link)
    ensures m.header.Some? && m.header.value.command == Commands.Heartbeat ==>
      r == SendStep(l, SendMessages.HeartbeatMessage())
    ensures !(m.header.Some? && m.header.value.command == Commands.Heartbeat) ==> r == DispatchOne(l, m)
  {
    if m.header.Some? && m.header.value.command == Commands.Heartbeat then SendStep(l, SendMessages.HeartbeatMessage())
    else DispatchOne(l, m)
  }

  /** The dispatcher draining the queue in order: it stops when cancellation was requested, and ends
      for good at the first message without a header. */
  function Dispatch(l: Link): Link
    decreases |l.queue|
  {
    if !l.dispatcherAlive || l.queue == [] then l
    else if l.cancelled then l.(dispatcherAlive := false)
    else Dispatch(DispatchOne(l.(queue := l.queue[1..]), l.queue[0]))
  }

  /** The dispatcher leaves only the messages after the one that stopped it: an empty queue if it is
      still alive; it never changes the socket calls, the counter or the read chain. */
  lemma {:induction false} DispatchEffect(l: Link)
    ensures var r := Dispatch(l);
      && (r.dispatcherAlive ==> r.queue == [])
      && |r.queue| <= |l.queue|
      && r.calls == l.calls && r.heartbeatCnt == l.heartbeatCnt && r.read == l.read && r.sent == l.sent
      && r.connected == l.connected && r.reconnecting == l.reconnecting
      && (!l.dispatcherAlive ==> r == l)
    decreases |l.queue|
  {
    if l.dispatcherAlive && l.queue != [] && !l.cancelled {
      DispatchEffect(DispatchOne(l.(queue := l.queue[1..]), l.queue[0]));
    }
  }

  /** A received login acknowledgement silences the login timeout. */
  lemma LoginAckSilencesTimeout(l: Link, h: Header, b: Option<Body>)
    requires h.command == Commands.Login
    ensures DispatchOne(l, BaseMessage(Some(h), b)).isLogin
    ensures OnLoginTimeoutStep(DispatchOne(l, BaseMessage(Some(h), b))) == DispatchOne(l, BaseMessage(Some(h), b))
  {
  }

  /** As written, a received heartbeat is never answered: the dispatcher ends on it, and every
      message queued after it stays unhandled. */
  lemma {:induction false} HeartbeatEndsDispatcher(l: Link, h: Header, b: Option<Body>, rest: seq<BaseMessage>)
    requires h.command == Commands.Heartbeat && l.dispatcherAlive && !l.cancelled
    requires l.queue == [BaseMessage(Some(h), b)] + rest
    ensures !Dispatch(l).dispatcherAlive
    ensures Dispatch(l).queue == rest && Dispatch(l).sent == l.sent
  {
    assert l.queue[1..] == rest;
  }

  /** Corrected, a received heartbeat is answered on a connected client with the five bytes
      `7E 02 00 00 EF` and the dispatcher stays alive. */
  lemma HeartbeatAnswered(l: Link, h: Header, b: Option<Body>)
    requires h.command == Commands.Heartbeat && l.connected
    ensures DispatchOneFixed(l, BaseMessage(Some(h), b)).sent == l.sent + [[0x7E, 0x02, 0x00, 0x00, 0xEF]]
    ensures DispatchOneFixed(l, BaseMessage(Some(h), b)).dispatcherAlive == l.dispatcherAlive
  {
    SendMessages.HeartbeatFrame();
  }

  /** After a body, the next read goes to the body handler: the 4 header bytes of the following
      frame are taken as a whole body. Unless the length's low byte is `EF` they do not decode as a
      body, and either way the queued message has no header, so the dispatcher dies on it. */
  lemma {:induction false} NextHeaderReadAsBody(l: Link, c: Commands.Command, len: short)
    requires l.connected && !l.cancelled && l.dispatcherAlive && l.queue == []
    requires l.read == Pending(OnBody, Zeros(HeaderLength), BaseMessage(None, None))
    ensures var r := OnBodyReceiveStep(l, HeaderBytes(c, len));
      && r.queue == [BaseMessage(None, DecodeBody(HeaderBytes(c, len)))]
      && (LowByte(len) != EndByte ==> r.queue[0].body.None?)
      && r.read.handler == OnBody
      && !Dispatch(r).dispatcherAlive
  {
    var hb := HeaderBytes(c, len);
    assert ReadInto(l.read.buffer, hb) == hb;
    var r := OnBodyReceiveStep(l, hb);
    assert r.queue == [] + [BaseMessage(None, DecodeBody(hb))];
    assert r.queue[1..] == [];
  }

  class Connection {
    const sn: string
    const deviceType: byte
    var connected: bool
    var cancelled: bool
    var isLogin: bool
    var reconnecting: bool
    var heartbeatCnt: int
    var loginTimer: TimerHandle
    var heartbeatTimer: TimerHandle
    var read: Read
    var sent: seq<seq<byte>>
    var queue: seq<BaseMessage>
    var dispatcherAlive: bool
    var calls: seq<LinkCall>

    ghost function Model(): Link
      reads this
    {
      Link(connected, cancelled, isLogin, reconnecting, heartbeatCnt, loginTimer, heartbeatTimer,
        read, sent, queue, dispatcherAlive, calls)
    }

    ghost predicate Inv()
      reads this
    {
      ReadOk(Model())
    }

    /** The constructor: a fresh unconnected client, an empty queue, and the dispatcher started. */
    constructor (serial: string, device: byte)
      ensures sn == serial && deviceType == device
      ensures Model() == Link(false, false, false, false, 0, NoTimer, NoTimer, NoRead, [], [], true, [])
      ensures Inv()
    {
      sn, deviceType := serial, device;
      connected, cancelled, isLogin, reconnecting := false, false, false, false;
      heartbeatCnt := 0;
      loginTimer, heartbeatTimer := NoTimer, NoTimer;
      read := NoRead;
      sent, queue := [], [];
      dispatcherAlive := true;
      calls := [];
    }

    /** The cancellation token is signalled. */
    method Cancel()
      modifies this`cancelled
      ensures Model() == old(Model()).(cancelled := true)
    {
      cancelled := true;
    }

    method Start()
      modifies this`connected, this`calls
      ensures Model() == StartStep(old(Model()))
    {
      connected := false;
      calls := calls + [Connect];
    }

    method Stop()
      modifies this`connected, this`calls
      ensures Model() == StopStep(old(Model()))
    {
      if connected {
        connected := false;
        calls := calls + [Close];
      }
    }

    method Reconnect()
      modifies this`reconnecting, this`connected, this`calls
      ensures Model() == ReconnectStep(old(Model()))
    {
      if reconnecting {
        return;
      }
      reconnecting := true;
      Stop();
      if cancelled {
        return;
      }
      Start();
    }

    method SendMessage(m: BaseMessage) returns (ok: bool)
      requires Complete(m)
      modifies this`sent
      ensures ok == connected
      ensures Model() == SendStep(old(Model()), m)
    {
      if !connected {
        return false;
      }
      var bytes := GetBytes(m);
      sent := sent + [bytes[..]];
      ok := true;
    }

    /** The first half of `OnConnect`: clear the flags and arm both timers. */
    method ResetForLogin(ok: bool)
      modifies this`reconnecting, this`loginTimer, this`heartbeatTimer, this`isLogin, this`connected
      ensures Model() == old(Model()).(
        reconnecting := false,
        loginTimer := Armed(LoginTimeoutMs, InfiniteMs),
        heartbeatTimer := Armed(LoginTimeoutMs, HeartbeatPeriodMs),
        isLogin := false,
        connected := ok)
    {
      reconnecting := false;
      loginTimer := Armed(LoginTimeoutMs, InfiniteMs);
      heartbeatTimer := Armed(LoginTimeoutMs, HeartbeatPeriodMs);
      isLogin := false;
      connected := ok;
    }

    method OnConnect(ok: bool)
      requires Inv()
      modifies this
      ensures Model() == OnConnectStep(old(Model()), ok, sn, deviceType)
      ensures Inv()
    {
      ResetForLogin(ok);
      var loginMsg := SendMessages.LoginSendMsg(sn, deviceType);
      var wrote := SendMessage(loginMsg);
      if wrote {
        read := Pending(OnHeader, Zeros(HeaderLength), BaseMessage(None, None));
      }
    }

    method OnHeaderReceive(received: seq<byte>)
      requires Inv() && read.Pending? && read.handler == OnHeader && |received| <= |read.buffer|
      modifies this
      ensures Model() == OnHeaderReceiveStep(old(Model()), received)
      ensures Inv()
    {
      if !connected {
        read := NoRead;
        return;
      }
      var so := read;
      read := NoRead;
      if |received| == 0 {
        Reconnect();
        return;
      }
      var data := ReadInto(so.buffer, received);
      var m := so.message.(header := DecodeHeader(data));
      if m.header.Some? {
        read := Pending(OnBody, Zeros(m.header.value.dataLength + 1), m);
      } else {
        read := Pending(OnHeader, data, m);
      }
    }

    method OnBodyReceive(received: seq<byte>)
      requires Inv() && read.Pending? && read.handler == OnBody && |received| <= |read.buffer|
      modifies this
      ensures Model() == OnBodyReceiveStep(old(Model()), received)
      ensures Inv()
    {
      if !connected {
        read := NoRead;
        return;
      }
      var so := read;
      read := NoRead;
      if |received| == 0 {
        Reconnect();
        return;
      }
      var data := ReadInto(so.buffer, received);
      var m := so.message.(body := DecodeBody(data));
      if cancelled {
        Stop();
        return;
      }
      queue := queue + [m];
      read := Pending(OnBody, Zeros(HeaderLength), BaseMessage(None, None));
      Heartbeat();
    }

    method OnLoginTimeout()
      modifies this`reconnecting, this`connected, this`calls
      ensures Model() == OnLoginTimeoutStep(old(Model()))
    {
      if isLogin {
        return;
      }
      Reconnect();
    }

    method OnHeartbeatTimeout()
      modifies this`sent, this`heartbeatCnt, this`reconnecting, this`connected, this`calls
      ensures Model() == OnHeartbeatTimeoutStep(old(Model()))
    {
      if connected {
        // The constructor throws before anything is written; the exception is ignored.
        var beat := SendMessages.HeartbeatSendMsg();
        assert beat.None?;
      }
      heartbeatCnt := heartbeatCnt + 1;
      if heartbeatCnt <= MaxRetryTimes {
        return;
      }
      heartbeatCnt := 0;
      Reconnect();
    }

    method Heartbeat()
      modifies this`heartbeatCnt
      ensures Model() == HeartbeatStep(old(Model()))
    {
      heartbeatCnt := 0;
    }

    /** One pass of the `MessageHandle` loop: take the first queued message and act on its command. */
    method HandleOne()
      requires dispatcherAlive && queue != []
      modifies this`queue, this`isLogin, this`sent, this`dispatcherAlive
      ensures Model() == DispatchOne(old(Model()).(queue := old(queue)[1..]), old(queue)[0])
    {
      var msg := queue[0];
      queue := queue[1..];
      match msg.header {
        case None =>
          dispatcherAlive := false;
        case Some(h) =>
          if h.command == Commands.Login {
            isLogin := true;
          } else if h.command == Commands.Heartbeat {
            // Building the answer throws, and nothing in the loop catches it.
            var beat := SendMessages.HeartbeatSendMsg();
            assert beat.None?;
            dispatcherAlive := false;
          }
      }
    }

    /** `MessageHandle`, run until the queue is empty or the dispatcher has stopped. */
    method MessageHandle()
      modifies this`queue, this`isLogin, this`sent, this`dispatcherAlive
      ensures Model() == Dispatch(old(Model()))
    {
      while dispatcherAlive && queue != []
        invariant Dispatch(Model()) == Dispatch(old(Model()))
        decreases |queue|
      {
        if cancelled {
          dispatcherAlive := false;
          return;
        }
        HandleOne();
      }
    }
  }
}
