/** The playback engine `AudioManager` (NsbDeviceSimulator.Logic/AudioManager.cs).
    The worker thread and its semaphore handshake are taken as one synchronous step: an event handed
    to a running worker is processed at once, and the caller's one-second wait succeeds exactly
    when the worker acknowledged the event. */
module Playback {
  import opened Wrappers

  datatype Status = Idle | Playing | Pausing
  datatype AudioEvent = Play | Pause | Stop | Volume

  /** Volume levels 0..30; the stored gain of the source is `level / 30`. */
  const MaxVolume := 30
  /** The initial gain 0.5 as a level. */
  const InitialVolume := 15

  /** The worker's `switch` on an event in its current status; `None` is the
      `ArgumentOutOfRangeException` of the default case, which ends the worker. */
  function Transition(s: Status, e: AudioEvent): (r: Option<Status>)
    ensures e == Stop ==> r == Some(Idle)
    ensures e == Volume ==> r == Some(s)
    ensures e == Pause ==> (r.Some? <==> s == Playing) && (r.Some? ==> r.value == Pausing)
    ensures e == Play ==> (r.Some? <==> s == Pausing) && (r.Some? ==> r.value == Playing)
  {
    match e
    case Volume => Some(s)
    case Play => if s == Pausing then Some(Playing) else None
    case Pause => if s == Playing then Some(Pausing) else None
    case Stop => Some(Idle)
  }

  /** What the worker leaves behind after draining a queue: its status, how many events it
      acknowledged, and whether it is still running. */
  datatype Drained = Drained(status: Status, acked: nat, running: bool)

  /** The worker loop: take events in order while the status is not `Idle`, apply the switch,
      acknowledge each handled event; a throwing event or reaching `Idle` ends the worker. */
  function Drain(s: Status, q: seq<AudioEvent>): Drained
    decreases |q|
  {
    if q == [] then Drained(s, 0, s != Idle)
    else if s == Idle then Drained(s, 0, false)
    else
      match Transition(s, q[0])
      case None => Drained(s, 0, false)
      case Some(s') =>
        var d := Drain(s', q[1..]);
        d.(acked := d.acked + 1)
  }

  /** Replaying the acknowledged events, in order, through the switch. */
  function Replay(s: Status, q: seq<AudioEvent>): Option<Status>
    decreases |q|
  {
    if q == [] then Some(s)
    else match Transition(s, q[0])
      case None => None
      case Some(s') => Replay(s', q[1..])
  }

  /** The worker acknowledges a prefix of the queue, and the status it leaves is the replay of exactly
      that prefix; if it stopped short of the end it is no longer running, and a running worker
      is never `Idle`. */
  lemma {:induction false} DrainAcksPrefix(s: Status, q: seq<AudioEvent>)
    ensures Drain(s, q).acked <= |q|
    ensures Replay(s, q[..Drain(s, q).acked]) == Some(Drain(s, q).status)
    ensures Drain(s, q).acked < |q| ==> !Drain(s, q).running
    ensures Drain(s, q).running ==> Drain(s, q).status != Idle
    decreases |q|
  {
    if q != [] && s != Idle {
      match Transition(s, q[0])
      case None =>
      case Some(s') =>
        DrainAcksPrefix(s', q[1..]);
        assert q[..Drain(s, q).acked][1..] == q[1..][..Drain(s', q[1..]).acked];
    }
  }

  /** A `Stop` taken by a live worker is acknowledged, leaves `Idle` and ends the worker: nothing
      queued after it is processed. */
  lemma StopEndsWorker(s: Status, rest: seq<AudioEvent>)
    requires s != Idle
    ensures Drain(s, [Stop] + rest) == Drained(Idle, 1, false)
  {
    assert ([Stop] + rest)[1..] == rest;
  }

  /** The engine's state: status, current index, volume level, file listing and whether a worker runs. */
  datatype Player = Player(status: Status, index: int, volume: int, files: seq<string>, worker: bool)

  /** Invariant: the level is in range and a running worker is never `Idle`. */
  predicate Valid(p: Player)
  {
    0 <= p.volume <= MaxVolume && (p.worker ==> p.status != Idle)
  }

  /** The worker started by `Play` from `Idle` opens `_files[_index]`; an index outside the listing
      throws there and the worker ends without leaving `Idle`. */
  function StartWorker(p: Player): (q: Player)
  {
    if 0 <= p.index < |p.files| then p.(status := Playing, worker := true) else p
  }

  /** `Handle`: `Play` from `Idle` starts a worker and succeeds at once; in any other status the
      event is queued for the worker and succeeds iff the worker acknowledges it; `Volume` in
      `Idle` signals nothing and `Pause`/`Stop` in `Idle` throw, so both report failure. */
  function HandleStep(p: Player, e: AudioEvent): (Player, bool)
  {
    if e == Play && p.status == Idle then (StartWorker(p), true)
    else if p.status != Idle then
      if !p.worker then (p, false)
      else
        var d := Drain(p.status, [e]);
        (p.(status := d.status, worker := d.running), d.acked == 1)
    else (p, false)
  }

  function PlayStep(p: Player, index: Option<int>): (Player, bool)
  {
    match index
    case None => if p.status == Playing then (p, true) else HandleStep(p, Play)
    case Some(i) =>
      if i >= |p.files| then (p, false)
      else
        var p1 := p.(index := i);
        var p2 := if p1.status != Idle then HandleStep(p1, Stop).0 else p1;
        HandleStep(p2, Play)
  }

  function PauseStep(p: Player): (Player, bool)
  {
    if p.status != Playing then (p, true) else HandleStep(p, Pause)
  }

  function StopStep(p: Player): (Player, bool)
  {
    if p.status == Idle then (p, true) else HandleStep(p, Stop)
  }

  /** `++_index`, back to 0 once it reaches the listing size. */
  function NextIndex(i: int, n: int): int
  {
    if i + 1 >= n then 0 else i + 1
  }

  /** `--_index`, up to `n - 1` once it drops below 0. */
  function PreviousIndex(i: int, n: int): int
  {
    if i - 1 < 0 then n - 1 else i - 1
  }

  /** A `Stop` and, only if that succeeded, a `Play`. */
  function RestartStep(p: Player): (Player, bool)
  {
    var (p1, ok) := HandleStep(p, Stop);
    if !ok then (p1, false) else HandleStep(p1, Play)
  }

  function NextStep(p: Player): (Player, bool)
  {
    var p1 := p.(index := NextIndex(p.index, |p.files|));
    if p1.status == Idle then (p1, true) else RestartStep(p1)
  }

  function PreviousStep(p: Player): (Player, bool)
  {
    var p1 := p.(index := PreviousIndex(p.index, |p.files|));
    if p1.status == Idle then (p1, true) else RestartStep(p1)
  }

  function VolumeStep(p: Player, v: int): (Player, bool)
  {
    if v < 0 || v > MaxVolume then (p, false) else HandleStep(p.(volume := v), Volume)
  }

  function DeleteStep(p: Player, i: int): (Player, bool)
    requires 0 <= i
  {
    if i >= |p.files| then (p, false) else (p.(files := p.files[..i] + p.files[i + 1..]), true)
  }

  /** Every public operation keeps the invariant. */
  lemma {:induction false} StepsKeepValid(p: Player, idx: Option<int>, v: int, i: nat)
    requires Valid(p)
    ensures Valid(PlayStep(p, idx).0) && Valid(PauseStep(p).0) && Valid(StopStep(p).0)
    ensures Valid(NextStep(p).0) && Valid(PreviousStep(p).0)
    ensures Valid(VolumeStep(p, v).0) && Valid(DeleteStep(p, i).0)
  {
    forall s: Status, e: AudioEvent ensures Drain(s, [e]).running ==> Drain(s, [e]).status != Idle {
      DrainAcksPrefix(s, [e]);
    }
  }

  /** `Play(i)` with an index past the listing fails and changes nothing. */
  lemma PlayOutOfRange(p: Player, i: int)
    requires i >= |p.files|
    ensures PlayStep(p, Some(i)) == (p, false)
  {
  }

  /** `Play(i)` for a file of the listing, from `Idle` or with a live worker, stops whatever plays
      and ends up playing file `i` with a live worker. */
  lemma {:induction false} PlayIndexPlays(p: Player, i: int)
    requires Valid(p) && 0 <= i < |p.files|
    requires p.status == Idle || p.worker
    ensures PlayStep(p, Some(i)) == (p.(index := i, status := Playing, worker := true), true)
  {
    if p.status != Idle {
      StopEndsWorker(p.status, []);
      assert [Stop] + [] == [Stop];
    }
  }

  /** `Play()` while playing, `Pause()` unless playing and `Stop()` when idle succeed without an event. */
  lemma NoEventSuccesses(p: Player)
    ensures p.status == Playing ==> PlayStep(p, None) == (p, true)
    ensures p.status != Playing ==> PauseStep(p) == (p, true)
    ensures p.status == Idle ==> StopStep(p) == (p, true)
  {
  }

  /** From `Idle`, `Next`/`Previous` only move the index and succeed. */
  lemma IdleNavigation(p: Player)
    requires p.status == Idle
    ensures NextStep(p) == (p.(index := NextIndex(p.index, |p.files|)), true)
    ensures PreviousStep(p) == (p.(index := PreviousIndex(p.index, |p.files|)), true)
  {
  }

  /** `Volume(v)` outside 0..30 fails and leaves everything unchanged; inside, the level is stored,
      and the call reports success exactly when a live worker acknowledges it. */
  lemma VolumeBounds(p: Player, v: int)
    requires Valid(p)
    ensures (v < 0 || v > MaxVolume) ==> VolumeStep(p, v) == (p, false)
    ensures 0 <= v <= MaxVolume ==> VolumeStep(p, v).0 == p.(volume := v)
    ensures 0 <= v <= MaxVolume ==> (VolumeStep(p, v).1 <==> p.worker)
  {
    assert [Volume][1..] == [];
  }

  /** The dispatch table of `Handle` from `Idle`. */
  lemma HandleFromIdle(p: Player)
    requires p.status == Idle
    ensures HandleStep(p, Play) == (StartWorker(p), true)
    ensures HandleStep(p, Pause) == (p, false) && HandleStep(p, Stop) == (p, false)
    ensures HandleStep(p, Volume) == (p, false)
  {
  }

  /** `n` applications of `NextIndex` from an index `i` of the listing. */
  function NextTimes(i: int, n: int, k: nat): int
    decreases k
  {
    if k == 0 then i else NextTimes(NextIndex(i, n), n, k - 1)
  }

  lemma {:induction false} NextTimesSplit(i: int, n: int, a: nat, b: nat)
    ensures NextTimes(i, n, a + b) == NextTimes(NextTimes(i, n, a), n, b)
    decreases a
  {
    if a > 0 {
      NextTimesSplit(NextIndex(i, n), n, a - 1, b);
    }
  }

  lemma {:induction false} NextTimesClimbs(i: int, n: int, k: nat)
    requires 0 <= i && i + k < n
    ensures NextTimes(i, n, k) == i + k
    decreases k
  {
    if k > 0 {
      NextTimesClimbs(i + 1, n, k - 1);
    }
  }

  /** As many `Next`s as there are files bring the index back to where it started. */
  lemma {:induction false} NextCycle(i: int, n: int)
    requires 0 <= i < n
    ensures NextTimes(i, n, n) == i
  {
    NextTimesSplit(i, n, n - 1 - i, i + 1);
    NextTimesClimbs(i, n, n - 1 - i);
    NextTimesSplit(n - 1, n, 1, i);
    if i > 0 {
      NextTimesClimbs(0, n, i);
    }
  }

  /** `Previous` undoes `Next` on an index of the listing, and wraps from 0 to the last file. */
  /** In every status, Next and Previous move the index as the index updates say and keep the
      listing, whatever the restart of a playing or paused engine does. */
  lemma NavigationMovesIndex(p: Player)
    ensures NextStep(p).0.index == NextIndex(p.index, |p.files|) && NextStep(p).0.files == p.files
    ensures PreviousStep(p).0.index == PreviousIndex(p.index, |p.files|) && PreviousStep(p).0.files == p.files
  {
  }

  /** Previous right after Next returns to a listed index, in every status. */
  lemma PreviousAfterNext(p: Player)
    requires 0 <= p.index < |p.files|
    ensures PreviousStep(NextStep(p).0).0.index == p.index
    ensures PreviousStep(NextStep(p).0).0.files == p.files
  {
    NavigationMovesIndex(p);
    NavigationMovesIndex(NextStep(p).0);
    PreviousUndoesNext(p.index, |p.files|);
  }

  lemma PreviousUndoesNext(i: int, n: int)
    requires 0 <= i < n
    ensures PreviousIndex(NextIndex(i, n), n) == i
    ensures PreviousIndex(0, n) == n - 1
  {
  }

  /** `DeleteAudio(i)` past the listing fails; otherwise exactly file `i` leaves the listing. */
  lemma DeleteRemovesOne(p: Player, i: int)
    requires 0 <= i
    ensures i >= |p.files| ==> DeleteStep(p, i) == (p, false)
    ensures i < |p.files| ==> DeleteStep(p, i).1 && |DeleteStep(p, i).0.files| == |p.files| - 1
    ensures i < |p.files| ==> multiset(DeleteStep(p, i).0.files) + multiset{p.files[i]} == multiset(p.files)
  {
    if i < |p.files| {
      assert p.files == p.files[..i] + [p.files[i]] + p.files[i + 1..];
    }
  }

  /** The decimal digits of `n`, as `$"{n}"` prints them. */
  function DecimalDigits(n: nat): (s: string)
    ensures 1 <= |s| && (n >= 10 ==> |s| >= 2)
    ensures forall i :: 0 <= i < |s| ==> '0' <= s[i] <= '9'
    decreases n
  {
    var d := ['0' + (n % 10) as char];
    if n < 10 then d else DecimalDigits(n / 10) + d
  }

  lemma {:induction false} DecimalDigitsInjective(a: nat, b: nat)
    requires DecimalDigits(a) == DecimalDigits(b)
    ensures a == b
    decreases a
  {
    var s := DecimalDigits(a);
    if a >= 10 && b >= 10 {
      assert s[|s| - 1] == '0' + (a % 10) as char == '0' + (b % 10) as char;
      assert DecimalDigits(a / 10) == s[..|s| - 1] == DecimalDigits(b / 10);
      DecimalDigitsInjective(a / 10, b / 10);
    }
  }

  /** The renamed file `base(n).mp3`. */
  function Suffixed(base: string, n: nat): string
  {
    base + "(" + DecimalDigits(n) + ").mp3"
  }

  lemma SuffixedInjective(base: string, a: nat, b: nat)
    requires Suffixed(base, a) == Suffixed(base, b)
    ensures a == b
  {
    var s, t := Suffixed(base, a), Suffixed(base, b);
    assert DecimalDigits(a) == s[|base| + 1..|s| - 5];
    assert DecimalDigits(b) == t[|base| + 1..|t| - 5];
    DecimalDigitsInjective(a, b);
  }

  /** The name without its four-character extension, `fullFileName[..^4]`. */
  function BaseName(full: string): string
    requires |full| >= 4
  {
    full[..|full| - 4]
  }

  predicate IsMp3(name: string)
  {
    |name| >= 4 && name[|name| - 4..] == ".mp3"
  }

  class AudioManager {
    var status: Status
    var index: int
    var volume: int
    var files: seq<string>
    var worker: bool

    ghost function Model(): Player
      reads this
    {
      Player(status, index, volume, files, worker)
    }

    ghost predicate Inv()
      reads this
    {
      Valid(Model())
    }

    /** The constructor, given the listing of the library directory. */
    constructor (listing: seq<string>)
      ensures Model() == Player(Idle, 0, InitialVolume, listing, false) && Inv()
    {
      status := Idle;
      index := 0;
      volume := InitialVolume;
      files := listing;
      worker := false;
    }

    function Count(): nat
      reads this
    {
      |files|
    }

    /** The worker's event loop over the queued events, from `Processing`. */
    method DrainEvents(q: seq<AudioEvent>) returns (acked: nat)
      requires Inv() && worker
      modifies this`status, this`worker
      ensures Drain(old(status), q) == Drained(status, acked, worker)
      ensures Inv()
    {
      acked := 0;
      var i := 0;
      while i < |q| && worker
        invariant 0 <= i <= |q| && 0 <= volume <= MaxVolume
        invariant worker ==> status != Idle
        invariant !worker ==> Drain(old(status), q) == Drained(status, acked, false)
        invariant worker ==> Drain(old(status), q) == Drain(status, q[i..]).(acked := Drain(status, q[i..]).acked + acked)
        decreases |q| - i
      {
        assert q[i..][1..] == q[i + 1..];
        match Transition(status, q[i]) {
          case None =>
            worker := false;
          case Some(s) =>
            status := s;
            acked := acked + 1;
            if s == Idle {
              worker := false;
              assert Drain(s, q[i + 1..]).acked == 0;
            }
        }
        i := i + 1;
      }
    }

    /** `Handle`, with the worker's handshake taken as one step. */
    method Handle(e: AudioEvent) returns (ok: bool)
      requires Inv()
      modifies this`status, this`worker
      ensures (Model(), ok) == HandleStep(old(Model()), e)
      ensures Inv()
    {
      if e == AudioEvent.Play && status == Idle {
        if 0 <= index < |files| {
          status, worker := Playing, true;
        }
        ok := true;
      } else if status != Idle {
        if !worker {
          ok := false;
        } else {
          var acked := DrainEvents([e]);
          ok := acked == 1;
        }
      } else {
        ok := false;
      }
    }

    method Play(i: Option<int>) returns (ok: bool)
      requires Inv()
      modifies this
      ensures (Model(), ok) == PlayStep(old(Model()), i)
      ensures Inv()
    {
      if i.None? {
        if status == Playing {
          return true;
        }
        ok := Handle(AudioEvent.Play);
        return;
      }
      if i.value >= |files| {
        return false;
      }
      index := i.value;
      if status != Idle {
        var _ := Handle(AudioEvent.Stop);
      }
      ok := Handle(AudioEvent.Play);
    }

    method Pause() returns (ok: bool)
      requires Inv()
      modifies this
      ensures (Model(), ok) == PauseStep(old(Model()))
      ensures Inv()
    {
      if status != Playing {
        return true;
      }
      ok := Handle(AudioEvent.Pause);
    }

    method Stop() returns (ok: bool)
      requires Inv()
      modifies this
      ensures (Model(), ok) == StopStep(old(Model()))
      ensures Inv()
    {
      if status == Idle {
        return true;
      }
      ok := Handle(AudioEvent.Stop);
    }

    method Next() returns (ok: bool)
      requires Inv()
      modifies this
      ensures (Model(), ok) == NextStep(old(Model()))
      ensures Inv()
    {
      index := index + 1;
      if index >= |files| {
        index := 0;
      }
      if status == Idle {
        return true;
      }
      ok := Handle(AudioEvent.Stop);
      if ok {
        ok := Handle(AudioEvent.Play);
      }
    }

    method Previous() returns (ok: bool)
      requires Inv()
      modifies this
      ensures (Model(), ok) == PreviousStep(old(Model()))
      ensures Inv()
    {
      index := index - 1;
      if index < 0 {
        index := |files| - 1;
      }
      if status == Idle {
        return true;
      }
      ok := Handle(AudioEvent.Stop);
      if ok {
        ok := Handle(AudioEvent.Play);
      }
    }

    method Volume(v: int) returns (ok: bool)
      requires Inv()
      modifies this
      ensures (Model(), ok) == VolumeStep(old(Model()), v)
      ensures Inv()
    {
      if v < 0 || v > MaxVolume {
        return false;
      }
      volume := v;
      ok := Handle(AudioEvent.Volume);
    }

    /** The device's `PlaybackStopped` callback (natural end of the track): back to `Idle`, worker cancelled. */
    method PlaybackStopped()
      requires Inv()
      modifies this
      ensures Model() == old(Model()).(status := Idle, worker := false)
      ensures Inv()
    {
      status, worker := Idle, false;
    }

    /** The renaming loop of `AddAudio`: a free name stays, a taken one becomes `base(n).mp3` for the
        smallest `n >= 1` that is not in the listing. */
    method FreeName(full: string) returns (name: string)
      requires IsMp3(full)
      ensures name !in files
      ensures full !in files ==> name == full
      ensures full in files ==>
        (exists n: nat :: 1 <= n && name == Suffixed(BaseName(full), n)
           && forall j: nat :: 1 <= j < n ==> Suffixed(BaseName(full), j) in files)
    {
      if full !in files {
        return full;
      }
      var base := BaseName(full);
      var n: nat := 1;
      name := Suffixed(base, n);
      n := n + 1;
      ghost var remaining := set f | f in files;
      while name in files
        invariant n >= 2 && name == Suffixed(base, n - 1)
        invariant forall j: nat :: 1 <= j < n - 1 ==> Suffixed(base, j) in files
        invariant forall k: nat :: k >= n - 1 && Suffixed(base, k) in files ==> Suffixed(base, k) in remaining
        decreases |remaining|
      {
        remaining := remaining - {name};
        forall k: nat | k >= n && Suffixed(base, k) in files
          ensures Suffixed(base, k) in remaining
        {
          if Suffixed(base, k) == name {
            SuffixedInjective(base, k, n - 1);
          }
        }
        name := Suffixed(base, n);
        n := n + 1;
      }
    }

    /** `AddAudio`, given what the download produced: the file name from the response, or `None`
        when the request failed or named no file. Names not ending in `.mp3` are refused; otherwise
        the file is stored under a free name and, being the newest, is listed last. */
    method AddAudio(download: Option<string>) returns (ok: bool)
      requires Inv()
      modifies this
      ensures ok <==> download.Some? && IsMp3(download.value)
      ensures !ok ==> Model() == old(Model())
      ensures ok ==> Model() == old(Model()).(files := files) && |files| == |old(files)| + 1
      ensures ok ==> files[..|old(files)|] == old(files) && files[|old(files)|] !in old(files)
      ensures ok && download.value !in old(files) ==> files[|old(files)|] == download.value
      ensures ok && download.value in old(files) ==>
        (exists n: nat :: 1 <= n && files[|old(files)|] == Suffixed(BaseName(download.value), n)
           && forall j: nat :: 1 <= j < n ==> Suffixed(BaseName(download.value), j) in old(files))
      ensures Inv()
    {
      if download.None? || download.value == [] || !IsMp3(download.value) {
        return false;
      }
      var name := FreeName(download.value);
      files := files + [name];
      ok := true;
    }

    method DeleteAudio(i: int) returns (ok: bool)
      requires Inv() && 0 <= i
      modifies this
      ensures (Model(), ok) == DeleteStep(old(Model()), i)
      ensures Inv()
    {
      if i >= |files| {
        return false;
      }
      files := files[..i] + files[i + 1..];
      ok := true;
    }
  }
}
