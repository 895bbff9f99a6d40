/** The session loop `StatusManager.Manage` (NsbDeviceSimulator.Logic/StatusManager.cs), against an
    abstract connection offering `Start`, `Login` and `Stop`. The loop runs on its own thread and the
    connection's callbacks arrive on others; the model takes the loop iterations and the callbacks
    as one sequence of inputs, in the order they happen. */
module Session {
  datatype Status = Idle | Connected | Logged | Error

  /** What the loop asks of the connection. */
  datatype ConnCall = StartCall | LoginCall | StopCall

  datatype Input =
    /** One pass of the loop body: whether `Start` would report success, and whether the login
        acknowledgement arrives within the 10-second wait. */
    | Iteration(startOk: bool, ackInTime: bool)
    /** The error callback handed to `Start`. */
    | ErrorReported
    /** A late login acknowledgement: the callback handed to `Login`, after the wait timed out. */
    | LoginAcked

  /** One pass of the `switch (Status)`. */
  function Step(s: Status, startOk: bool, ackInTime: bool): (r: (Status, seq<ConnCall>))
    ensures s == Idle ==> r == (if startOk then Connected else Idle, [StartCall])
    ensures s == Connected ==> r == (if ackInTime then Logged else Connected, [LoginCall])
    ensures s == Logged ==> r == (Logged, [])
    ensures s == Error ==> r == (Idle, [StopCall])
  {
    match s
    case Idle => (if startOk then Connected else Idle, [StartCall])
    case Connected => (if ackInTime then Logged else Connected, [LoginCall])
    case Logged => (Logged, [])
    case Error => (Idle, [StopCall])
  }

  /** One input: a loop pass, or a callback, which overwrites the status whatever it was. */
  function Apply(s: Status, i: Input): (r: (Status, seq<ConnCall>))
    ensures i.ErrorReported? ==> r == (Error, [])
    ensures i.LoginAcked? ==> r == (Logged, [])
  {
    match i
    case Iteration(startOk, ackInTime) => Step(s, startOk, ackInTime)
    case ErrorReported => (Error, [])
    case LoginAcked => (Logged, [])
  }

  /** A run of inputs: the final status and every call made, in order. */
  function Run(s: Status, inputs: seq<Input>): (Status, seq<ConnCall>)
    decreases |inputs|
  {
    if inputs == [] then (s, [])
    else
      var pre := Run(s, inputs[..|inputs| - 1]);
      var r := Apply(pre.0, inputs[|inputs| - 1]);
      (r.0, pre.1 + r.1)
  }

  predicate IsIteration(i: Input)
  {
    i.Iteration?
  }

  /** Once logged in, loop passes change nothing and call nothing. */
  lemma {:induction false} LoggedIsFixed(inputs: seq<Input>)
    requires forall k :: 0 <= k < |inputs| ==> IsIteration(inputs[k])
    ensures Run(Logged, inputs) == (Logged, [])
    decreases |inputs|
  {
    if inputs != [] {
      LoggedIsFixed(inputs[..|inputs| - 1]);
      assert IsIteration(inputs[|inputs| - 1]);
      assert Apply(Logged, inputs[|inputs| - 1]) == (Logged, []);
      assert Run(Logged, inputs).1 == [] + [];
    }
  }

  /** An input that acknowledges a login. */
  predicate Acks(i: Input)
  {
    i.LoginAcked? || (i.Iteration? && i.ackInTime)
  }

  /** Only a login acknowledgement leads to `Logged`. */
  lemma {:induction false} LoggedNeedsAck(s: Status, inputs: seq<Input>)
    requires s != Logged && Run(s, inputs).0 == Logged
    ensures exists k :: 0 <= k < |inputs| && Acks(inputs[k])
    decreases |inputs|
  {
    var init := inputs[..|inputs| - 1];
    var last := inputs[|inputs| - 1];
    if Acks(last) {
      assert Acks(inputs[|inputs| - 1]);
    } else {
      LoggedNeedsAck(s, init);
      var k :| 0 <= k < |init| && Acks(init[k]);
      assert Acks(inputs[k]);
    }
  }

  /** How many times `x` occurs in `xs`. */
  function Count<T(==)>(xs: seq<T>, x: T): nat
    decreases |xs|
  {
    if xs == [] then 0 else Count(xs[..|xs| - 1], x) + (if xs[|xs| - 1] == x then 1 else 0)
  }

  lemma CountAppend<T>(xs: seq<T>, ys: seq<T>, x: T)
    ensures Count(xs + ys, x) == Count(xs, x) + Count(ys, x)
    decreases |ys|
  {
    if ys == [] {
      assert xs + ys == xs;
    } else {
      assert (xs + ys)[..|xs + ys| - 1] == xs + ys[..|ys| - 1];
      CountAppend(xs, ys[..|ys| - 1], x);
    }
  }

  /** Each `Stop` answers an error: a run makes at most as many `Stop` calls as errors it sees,
      counting an initial `Error` status, less one if it ends in `Error` still unanswered. */
  lemma {:induction false} StopsAnswerErrors(s: Status, inputs: seq<Input>)
    ensures Count(Run(s, inputs).1, StopCall) + (if Run(s, inputs).0 == Error then 1 else 0)
      <= Count(inputs, ErrorReported) + (if s == Error then 1 else 0)
    decreases |inputs|
  {
    if inputs != [] {
      var init := inputs[..|inputs| - 1];
      var pre := Run(s, init);
      StopsAnswerErrors(s, init);
      CountAppend(pre.1, Apply(pre.0, inputs[|inputs| - 1]).1, StopCall);
      assert Run(s, inputs).1 == pre.1 + Apply(pre.0, inputs[|inputs| - 1]).1;
    }
  }

  /** The happy path: a successful start, then an acknowledged login. */
  lemma ConnectThenLogin(ack: bool, startOk: bool)
    ensures Run(Idle, [Iteration(true, ack), Iteration(startOk, true)]) == (Logged, [StartCall, LoginCall])
  {
    var first := [Iteration(true, ack)];
    var both := [Iteration(true, ack), Iteration(startOk, true)];
    assert first[..0] == [];
    assert [] + [StartCall] == [StartCall];
    assert Run(Idle, first) == (Connected, [StartCall]);
    assert [StartCall] + [LoginCall] == [StartCall, LoginCall];
    assert both[..1] == first;
  }

  class StatusManager {
    var status: Status
    /** The calls made on the connection so far. */
    var calls: seq<ConnCall>

    /** The constructor: the status starts `Idle`. */
    constructor ()
      ensures status == Idle && calls == []
    {
      status := Idle;
      calls := [];
    }

    /** `Manage`, over the inputs that reach it before the token is cancelled. */
    method Manage(inputs: seq<Input>)
      modifies this
      ensures (status, calls) == (Run(old(status), inputs).0, old(calls) + Run(old(status), inputs).1)
    {
      var i := 0;
      assert old(calls) + Run(old(status), inputs[..0]).1 == old(calls);
      while i < |inputs|
        invariant 0 <= i <= |inputs|
        invariant (status, calls) == (Run(old(status), inputs[..i]).0, old(calls) + Run(old(status), inputs[..i]).1)
      {
        assert inputs[..i + 1][..i] == inputs[..i];
        ghost var a := Apply(status, inputs[i]);
        ghost var before := calls;
        match inputs[i] {
          case Iteration(startOk, ackInTime) =>
            match status {
              case Idle =>
                calls := calls + [StartCall];
                if startOk {
                  status := Connected;
                }
              case Connected =>
                calls := calls + [LoginCall];
                if ackInTime {
                  status := Logged;
                }
              case Logged =>
              case Error =>
                calls := calls + [StopCall];
                status := Idle;
            }
          case ErrorReported =>
            status := Error;
          case LoginAcked =>
            status := Logged;
        }
        assert status == a.0 && calls == before + a.1;
        assert old(calls) + (Run(old(status), inputs[..i]).1 + a.1) == before + a.1;
        i := i + 1;
      }
      assert inputs[..i] == inputs;
    }
  }
}
