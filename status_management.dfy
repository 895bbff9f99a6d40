/** The login flag and heartbeat miss counter `StatusManagement`
    (NsbDeviceSimulator.Logic/StatusManagement.cs). Timer callbacks are methods that the
    environment calls; the cancellation token's state is passed to the callback that reads it. */
module HeartbeatWatch {
  import opened Timers

  const LoginTimeoutMs := 20_000
  const HeartbeatTimeoutMs := 60_000
  const MaxRetryTimes := 3

  /** One heartbeat tick: the counter goes up by one, and the callback fires when the new count
      exceeds the retry limit and no cancellation was requested. */
  function Tick(count: int, cancelled: bool): (r: (int, bool))
    ensures r.0 == count + 1
    ensures r.1 <==> count + 1 > MaxRetryTimes && !cancelled
  {
    var c := count + 1;
    (c, c > MaxRetryTimes && !cancelled)
  }

  /** A run of ticks with no `Heartbeat()` between them: the final count and, tick by tick, whether
      the callback fired; `cancels[k]` is the token's state at tick `k`. */
  function Ticks(count: int, cancels: seq<bool>): (int, seq<bool>)
    decreases |cancels|
  {
    if cancels == [] then (count, [])
    else
      var pre := Ticks(count, cancels[..|cancels| - 1]);
      var t := Tick(pre.0, cancels[|cancels| - 1]);
      (t.0, pre.1 + [t.1])
  }

  /** From a reset counter, tick `k` (counting from 0) fires exactly when `k >= 3` and the token is
      not cancelled: nothing resets the counter when the callback fires, so every tick after the
      third fires again until the next `Heartbeat()`. */
  lemma {:induction false} TicksFromReset(cancels: seq<bool>)
    ensures Ticks(0, cancels).0 == |cancels|
    ensures |Ticks(0, cancels).1| == |cancels|
    ensures forall k :: 0 <= k < |cancels| ==> (Ticks(0, cancels).1[k] <==> k >= MaxRetryTimes && !cancels[k])
    decreases |cancels|
  {
    if cancels != [] {
      var init := cancels[..|cancels| - 1];
      TicksFromReset(init);
      assert forall k :: 0 <= k < |init| ==> cancels[k] == init[k];
    }
  }

  /** Once a tick fires, the next uncancelled tick fires as well. */
  lemma KeepsFiring(count: int, next: bool)
    requires Tick(count, false).1
    ensures Tick(Tick(count, false).0, next).1 <==> !next
  {
  }

  /** The login timer after the `IsLogin` setter: `true` disposes the current one, `false` arms a
      fresh one-shot timer (the handle it replaces is dropped, not disposed). */
  function LoginTimerAfter(t: TimerHandle, value: bool): (r: TimerHandle)
    ensures value ==> r == Dispose(t) && !r.Armed?
    ensures !value ==> r == Armed(LoginTimeoutMs, InfiniteMs)
  {
    if value then Dispose(t) else Armed(LoginTimeoutMs, InfiniteMs)
  }

  /** Logging out and back in leaves a disposed one-shot login timer, whatever was there before;
      logging in twice disposes no more than once. */
  lemma LoginTimerCycle(t: TimerHandle)
    ensures LoginTimerAfter(LoginTimerAfter(t, false), true) == Disposed(LoginTimeoutMs, InfiniteMs)
    ensures LoginTimerAfter(LoginTimerAfter(t, true), true) == LoginTimerAfter(t, true)
  {
  }

  class StatusManagement {
    var isLogin: bool
    var heartbeatCnt: int
    var loginTimer: TimerHandle
    var heartbeatTimer: TimerHandle

    constructor ()
      ensures !isLogin && heartbeatCnt == 0 && loginTimer == NoTimer && heartbeatTimer == NoTimer
    {
      isLogin := false;
      heartbeatCnt := 0;
      loginTimer := NoTimer;
      heartbeatTimer := NoTimer;
    }

    /** The `IsLogin` setter. */
    method SetIsLogin(value: bool)
      modifies this`isLogin, this`loginTimer
      ensures isLogin == value
      ensures loginTimer == LoginTimerAfter(old(loginTimer), value)
    {
      isLogin := value;
      if value {
        loginTimer := Dispose(loginTimer);
      } else {
        loginTimer := Armed(LoginTimeoutMs, InfiniteMs);
      }
    }

    /** `Heartbeat()`: a heartbeat was seen, the miss counter restarts. */
    method Heartbeat()
      modifies this`heartbeatCnt
      ensures heartbeatCnt == 0
    {
      heartbeatCnt := 0;
    }

    /** `Initiate`: a one-shot login timer and a periodic heartbeat timer, both first due after
        the login timeout. */
    method Initiate()
      modifies this`loginTimer, this`heartbeatTimer
      ensures loginTimer == Armed(LoginTimeoutMs, InfiniteMs)
      ensures heartbeatTimer == Armed(LoginTimeoutMs, HeartbeatTimeoutMs)
    {
      loginTimer := Armed(LoginTimeoutMs, InfiniteMs);
      heartbeatTimer := Armed(LoginTimeoutMs, HeartbeatTimeoutMs);
    }

    /** `HeartbeatTimerCb`; `fired` says whether the heartbeat callback was invoked. */
    method HeartbeatTimerCb(cancelled: bool) returns (fired: bool)
      modifies this`heartbeatCnt
      ensures (heartbeatCnt, fired) == Tick(old(heartbeatCnt), cancelled)
    {
      heartbeatCnt := heartbeatCnt + 1;
      fired := heartbeatCnt > MaxRetryTimes && !cancelled;
    }
  }
}
