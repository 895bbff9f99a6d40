/** The weekly scheduler `TaskManager` (NsbDeviceSimulator.Logic/TaskManager.cs): the stored cron tasks,
    the two timers armed per (task, weekday) pair, and the timer callback that drives playback.
    The clock is a parameter; times are whole milliseconds. */
module Scheduling {
  import opened Wrappers
  import opened CronTasks
  import Bytes
  import Playback

  const MinuteMs := 60_000
  const HourMs := 60 * MinuteMs
  const DayMs := 24 * HourMs
  const WeekMs := 7 * DayMs
  /** `Timeout.Infinite` as a due time. */
  const InfiniteMs := -1

  /** The wall clock at the moment of a rebuild: `DateTime.DayOfWeek` (0 = Sunday .. 6 = Saturday)
      and the time of day. */
  datatype Clock = Clock(dayOfWeek: int, msOfDay: int)

  predicate ValidClock(now: Clock)
  {
    0 <= now.dayOfWeek <= 6 && 0 <= now.msOfDay < DayMs
  }

  /** Today's weekday on the task scale, Monday = 0 .. Sunday = 6. */
  function Weekday(now: Clock): (w: int)
    requires ValidClock(now)
    ensures 0 <= w <= 6
    ensures (w + 1) % 7 == now.dayOfWeek
  {
    var w := now.dayOfWeek - 1;
    if w == -1 then 6 else w
  }

  /** Days from `weekday` forward to `day`. */
  function DayOffset(day: int, weekday: int): (off: int)
    requires 0 <= day <= 6 && 0 <= weekday <= 6
    ensures 0 <= off <= 6 && (weekday + off) % 7 == day
  {
    var off := day - weekday;
    if off < 0 then off + 7 else off
  }

  /** The task's start time of day. */
  function StartMs(t: CronTask): int
  {
    t.startHour * HourMs + t.startMinute * MinuteMs
  }

  /** The task's start time of day lies within the day when its start fields are clock values. */
  predicate StartInDay(t: CronTask)
  {
    0 <= t.startHour <= 23 && 0 <= t.startMinute <= 59
  }

  /** The day offset as written: once today's start time has passed, the offset is 7 whatever
      the weekday difference; otherwise it is the distance to the task's weekday. */
  function FirstOffsetAsWritten(t: CronTask, day: int, now: Clock): (off: int)
    requires ValidClock(now) && 0 <= day <= 6
    ensures 0 <= off <= 7
    ensures StartMs(t) < now.msOfDay ==> off == 7 && (Weekday(now) + off) % 7 == Weekday(now)
    ensures StartMs(t) >= now.msOfDay ==> off <= 6 && (Weekday(now) + off) % 7 == day
  {
    if StartMs(t) < now.msOfDay then 7 else DayOffset(day, Weekday(now))
  }

  /** The first start of a task on a weekday happens on that weekday: a start earlier today than
      `now` moves only today's occurrence (offset 0) to next week. */
  function FirstOffset(t: CronTask, day: int, now: Clock): (off: int)
    requires ValidClock(now) && 0 <= day <= 6
    ensures 0 <= off <= 7 && (Weekday(now) + off) % 7 == day
    ensures off * DayMs + StartMs(t) >= now.msOfDay || StartMs(t) < 0
  {
    var off := DayOffset(day, Weekday(now));
    if off == 0 && StartMs(t) < now.msOfDay then 7 else off
  }

  /** The as-written offset sends a start on another weekday to today's weekday next week, where
      the corrected one reaches the task's weekday within six days. */
  lemma OffsetAsWrittenMissesWeekday(t: CronTask, day: int, now: Clock)
    requires ValidClock(now) && 0 <= day <= 6
    requires StartMs(t) < now.msOfDay && day != Weekday(now)
    ensures FirstOffsetAsWritten(t, day, now) == 7
    ensures (Weekday(now) + FirstOffsetAsWritten(t, day, now)) % 7 != day
    ensures 1 <= FirstOffset(t, day, now) <= 6 && FirstOffset(t, day, now) != FirstOffsetAsWritten(t, day, now)
  {
  }

  /** The instance: on a Monday at 09:00, a Wednesday 08:00 task first fires seven days later, on
      a Monday, instead of two days later. */
  lemma OffsetAsWrittenExample()
    ensures var t := CronTask(0, 8, 0, 9, 0, 10, true, 1, [2]);
      var now := Clock(1, 9 * HourMs);
      && FirstOffsetAsWritten(t, 2, now) == 7
      && (Weekday(now) + FirstOffsetAsWritten(t, 2, now)) % 7 == 0
      && FirstOffset(t, 2, now) == 2
  {
    var now := Clock(1, 9 * HourMs);
    OffsetAsWrittenMissesWeekday(CronTask(0, 8, 0, 9, 0, 10, true, 1, [2]), 2, now);
  }

  /** What a timer hands to the callback. */
  datatype TimerState =
    | StartState(volume: int, relay: bool, audio: int)
    | EndState(relay: bool)

  /** The start-timer state `new TimerStateObject(task.Volume, task.Relay, task.Audio)`. */
  function StartStateOf(t: CronTask): (s: TimerState)
    ensures s.StartState? && s.volume == t.volume && s.relay == t.relay && s.audio == t.audio
  {
    StartState(t.volume, t.relay, t.audio)
  }

  /** The end-timer state `new TimerStateObject(task.Relay)`, which stores the negated relay. */
  function EndStateOf(t: CronTask): (s: TimerState)
    ensures s.EndState? && s.relay == !t.relay
  {
    EndState(!t.relay)
  }

  /** An armed `System.Threading.Timer`: its state, first due time and period. */
  datatype Timer = Timer(state: TimerState, dueMs: int, periodMs: int)

  /** The due time of the start timer: the start on the day the code picks, minus now. */
  function StartDue(t: CronTask, day: int, now: Clock): int
    requires ValidClock(now) && 0 <= day <= 6
  {
    StartMs(t) + FirstOffsetAsWritten(t, day, now) * DayMs - now.msOfDay
  }

  /** The due time of the start timer with the corrected offset. */
  function CorrectedStartDue(t: CronTask, day: int, now: Clock): int
    requires ValidClock(now) && 0 <= day <= 6
  {
    StartMs(t) + FirstOffset(t, day, now) * DayMs - now.msOfDay
  }

  /** The weekday (Monday = 0) on which a timer armed at `now` with due time `due` first fires. */
  function FiringWeekday(now: Clock, due: int): int
    requires ValidClock(now)
  {
    (Weekday(now) + (now.msOfDay + due) / DayMs) % 7
  }

  lemma DaysOf(a: int, k: int)
    requires 0 <= a < DayMs
    ensures (a + k * DayMs) / DayMs == k
  {
  }

  /** As written, a start timer fires on the task's weekday only while today's start time is still
      ahead; once it has passed, the timer fires on today's weekday, a week later. */
  lemma {:induction false} StartFiresAsWritten(t: CronTask, day: int, now: Clock)
    requires ValidClock(now) && 0 <= day <= 6 && StartInDay(t)
    ensures 0 <= StartDue(t, day, now) <= WeekMs
    ensures StartMs(t) >= now.msOfDay ==> FiringWeekday(now, StartDue(t, day, now)) == day
    ensures StartMs(t) < now.msOfDay ==> FiringWeekday(now, StartDue(t, day, now)) == Weekday(now)
  {
    var off := FirstOffsetAsWritten(t, day, now);
    DaysOf(StartMs(t), off);
    assert now.msOfDay + StartDue(t, day, now) == StartMs(t) + off * DayMs;
  }

  /** Corrected, the start timer fires on the task's weekday, within the coming week, at its start
      time, and never in the past. */
  lemma {:induction false} StartFiresCorrected(t: CronTask, day: int, now: Clock)
    requires ValidClock(now) && 0 <= day <= 6 && StartInDay(t)
    ensures 0 <= CorrectedStartDue(t, day, now) <= WeekMs
    ensures FiringWeekday(now, CorrectedStartDue(t, day, now)) == day
    ensures (now.msOfDay + CorrectedStartDue(t, day, now)) % DayMs == StartMs(t)
  {
    var off := FirstOffset(t, day, now);
    DaysOf(StartMs(t), off);
    assert now.msOfDay + CorrectedStartDue(t, day, now) == StartMs(t) + off * DayMs;
  }

  /** The due time of the end timer: the same execution time plus the end-minus-start hours and minutes. */
  function EndDue(t: CronTask, day: int, now: Clock): int
    requires ValidClock(now) && 0 <= day <= 6
  {
    StartDue(t, day, now) + (t.endHour - t.startHour) * HourMs + (t.endMinute - t.startMinute) * MinuteMs
  }

  function StartTimer(t: CronTask, day: int, now: Clock): Timer
    requires ValidClock(now) && 0 <= day <= 6
  {
    Timer(StartStateOf(t), StartDue(t, day, now), WeekMs)
  }

  function EndTimer(t: CronTask, day: int, now: Clock): Timer
    requires ValidClock(now) && 0 <= day <= 6
  {
    Timer(EndStateOf(t), EndDue(t, day, now), WeekMs)
  }

  /** The largest due time, in milliseconds, that the `Timer` constructor accepts. */
  const MaxDueMs := 0xFFFF_FFFE

  /** The `Timer` constructor refuses a due time that is negative but not `Infinite`, and one
      above `MaxDueMs`. */
  predicate DueAccepted(dueMs: int)
  {
    dueMs == InfiniteMs || 0 <= dueMs <= MaxDueMs
  }

  /** The start timer of a task whose start is a clock time is due within the coming week, so it
      is always accepted; the end timer lies the end-minus-start duration after it. */
  lemma {:induction false} DueTimes(t: CronTask, day: int, now: Clock)
    requires ValidClock(now) && 0 <= day <= 6 && StartInDay(t)
    ensures 0 <= StartDue(t, day, now) <= WeekMs
    ensures DueAccepted(StartDue(t, day, now))
    ensures EndDue(t, day, now) - StartDue(t, day, now)
      == (t.endHour * HourMs + t.endMinute * MinuteMs) - StartMs(t)
  {
    StartFiresAsWritten(t, day, now);
  }

  /** An end time 2000 hours after a midnight start is due more than `MaxDueMs` after now, so its
      end timer is refused, and arming stops after that pair's start timer. */
  lemma LateEndRefused(now: Clock)
    requires ValidClock(now)
    ensures var t := CronTask(0, 0, 0, 2000, 0, 15, false, 1, [0]);
      Schedulable(t) && !DueAccepted(EndDue(t, 0, now))
      && ArmSlots([Slot(t, 0)], now) == Armed([StartTimer(t, 0, now)], false)
  {
    var t := CronTask(0, 0, 0, 2000, 0, 15, false, 1, [0]);
    DueTimes(t, 0, now);
    assert EndDue(t, 0, now) >= 2000 * HourMs;
    assert ArmSlots([Slot(t, 0)], now) == ArmOne(ArmSlots([], now), Slot(t, 0), now);
  }

  /** A (task, weekday) pair. */
  datatype Slot = Slot(task: CronTask, day: int)

  /** What the rebuild needs of a task: a start that `new DateTime(...)` accepts, and weekdays on
      the task scale. */
  predicate Schedulable(t: CronTask)
  {
    StartInDay(t) && forall i :: 0 <= i < |t.weekdays| ==> 0 <= t.weekdays[i] <= 6
  }

  /** Every task `TryParse` accepts can be scheduled. */
  lemma ParsedSchedulable(data: seq<Bytes.byte>)
    ensures TryParse(data).0 ==> Schedulable(TryParse(data).1)
  {
    ParsedInRange(data);
  }

  /** The pairs of one task, one per listed weekday, in order. */
  function DaySlots(t: CronTask, days: seq<int>): (ps: seq<Slot>)
    ensures |ps| == |days|
    ensures forall k :: 0 <= k < |days| ==> ps[k] == Slot(t, days[k])
  {
    seq(|days|, k requires 0 <= k < |days| => Slot(t, days[k]))
  }

  lemma DaySlotsSplit(t: CronTask, days: seq<int>, i: nat)
    requires i <= |days|
    ensures DaySlots(t, days) == DaySlots(t, days[..i]) + DaySlots(t, days[i..])
    ensures i < |days| ==> DaySlots(t, days[..i + 1]) == DaySlots(t, days[..i]) + [Slot(t, days[i])]
  {
  }

  /** One more weekday of a task arms one more pair on top of the earlier ones. */
  lemma ArmDayStep(t: CronTask, days: seq<int>, done: seq<Slot>, i: nat, now: Clock)
    requires ValidClock(now) && i < |days| && 0 <= days[i] <= 6
    requires AllSlotsOk(done + DaySlots(t, days[..i]))
    ensures AllSlotsOk(done + DaySlots(t, days[..i + 1]))
    ensures ArmSlots(done + DaySlots(t, days[..i + 1]), now)
      == ArmOne(ArmSlots(done + DaySlots(t, days[..i]), now), Slot(t, days[i]), now)
  {
    DaySlotsSplit(t, days, i);
    ArmSlotsSnoc(done + DaySlots(t, days[..i]), Slot(t, days[i]), now);
    assert done + DaySlots(t, days[..i + 1]) == (done + DaySlots(t, days[..i])) + [Slot(t, days[i])];
  }

  lemma ArmDaysAll(t: CronTask, days: seq<int>, done: seq<Slot>, i: nat, now: Clock)
    requires ValidClock(now) && i == |days|
    requires AllSlotsOk(done + DaySlots(t, days[..i]))
    ensures AllSlotsOk(done + DaySlots(t, days))
    ensures ArmSlots(done + DaySlots(t, days), now) == ArmSlots(done + DaySlots(t, days[..i]), now)
  {
    assert days[..i] == days;
  }

  lemma AppendAssoc(a: seq<Slot>, b: seq<Slot>, c: seq<Slot>)
    ensures a + (b + c) == (a + b) + c
  {
  }

  /** Once arming the pairs of one task has failed, its remaining weekdays add nothing. */
  lemma ArmDaysStop(t: CronTask, days: seq<int>, done: seq<Slot>, i: nat, now: Clock)
    requires ValidClock(now) && i <= |days|
    requires AllSlotsOk(done + DaySlots(t, days[..i])) && AllSlotsOk(DaySlots(t, days[i..]))
    requires !ArmSlots(done + DaySlots(t, days[..i]), now).ok
    ensures AllSlotsOk(done + DaySlots(t, days))
    ensures ArmSlots(done + DaySlots(t, days), now) == ArmSlots(done + DaySlots(t, days[..i]), now)
  {
    var front := DaySlots(t, days[..i]);
    var rest := DaySlots(t, days[i..]);
    DaySlotsSplit(t, days, i);
    AppendAssoc(done, front, rest);
    ArmSlotsStops(done + front, rest, now);
  }

  /** The pairs of all tasks, task by task. */
  function Slots(ts: seq<CronTask>): seq<Slot>
    decreases |ts|
  {
    if ts == [] then [] else Slots(ts[..|ts| - 1]) + DaySlots(ts[|ts| - 1], ts[|ts| - 1].weekdays)
  }

  /** A pair whose weekday is a proper one. */
  predicate SlotOk(p: Slot)
  {
    0 <= p.day <= 6
  }

  /** The timers armed for a sequence of pairs, and whether arming went through: the first end
      timer whose due time the constructor refuses throws, after that pair's start timer was added. */
  datatype Armed = Armed(timers: seq<Timer>, ok: bool)

  predicate AllSlotsOk(ps: seq<Slot>)
  {
    forall k :: 0 <= k < |ps| ==> SlotOk(ps[k])
  }

  /** One pair on top of what is armed so far: nothing after a failure; else its start timer, then
      its end timer or the failure. */
  function ArmOne(pre: Armed, p: Slot, now: Clock): Armed
    requires ValidClock(now) && SlotOk(p)
  {
    if !pre.ok then pre
    else if !DueAccepted(EndDue(p.task, p.day, now)) then Armed(pre.timers + [StartTimer(p.task, p.day, now)], false)
    else Armed(pre.timers + [StartTimer(p.task, p.day, now), EndTimer(p.task, p.day, now)], true)
  }

  function ArmSlots(ps: seq<Slot>, now: Clock): Armed
    requires ValidClock(now) && AllSlotsOk(ps)
    decreases |ps|
  {
    if ps == [] then Armed([], true)
    else ArmOne(ArmSlots(ps[..|ps| - 1], now), ps[|ps| - 1], now)
  }

  lemma ArmSlotsSnoc(ps: seq<Slot>, p: Slot, now: Clock)
    requires ValidClock(now) && AllSlotsOk(ps) && SlotOk(p)
    ensures AllSlotsOk(ps + [p])
    ensures ArmSlots(ps + [p], now) == ArmOne(ArmSlots(ps, now), p, now)
  {
    assert (ps + [p])[..|ps|] == ps;
  }

  /** Exactly two timers per (task, weekday) pair, the start timer then the end timer, when every
      end timer is accepted; arming fails exactly when some end timer is refused. */
  lemma {:induction false} ArmSlotsShape(ps: seq<Slot>, now: Clock)
    requires ValidClock(now) && AllSlotsOk(ps)
    ensures ArmSlots(ps, now).ok <==> forall k :: 0 <= k < |ps| ==> DueAccepted(EndDue(ps[k].task, ps[k].day, now))
    ensures ArmSlots(ps, now).ok ==> |ArmSlots(ps, now).timers| == 2 * |ps|
    ensures ArmSlots(ps, now).ok ==> forall k :: 0 <= k < |ps| ==>
      && ArmSlots(ps, now).timers[2 * k] == StartTimer(ps[k].task, ps[k].day, now)
      && ArmSlots(ps, now).timers[2 * k + 1] == EndTimer(ps[k].task, ps[k].day, now)
    decreases |ps|
  {
    if ps != [] {
      var init := ps[..|ps| - 1];
      var last := ps[|ps| - 1];
      ArmSlotsShape(init, now);
      assert forall k :: 0 <= k < |init| ==> ps[k] == init[k];
      var pre := ArmSlots(init, now);
      assert ArmSlots(ps, now) == ArmOne(pre, last, now);
      if ArmSlots(ps, now).ok {
        assert pre.ok && DueAccepted(EndDue(last.task, last.day, now));
        assert ArmSlots(ps, now).timers
          == pre.timers + [StartTimer(last.task, last.day, now), EndTimer(last.task, last.day, now)];
      }
    }
  }

  /** Once arming has failed, further pairs add nothing. */
  lemma {:induction false} ArmSlotsStops(ps: seq<Slot>, rest: seq<Slot>, now: Clock)
    requires ValidClock(now) && AllSlotsOk(ps) && AllSlotsOk(rest)
    requires !ArmSlots(ps, now).ok
    ensures AllSlotsOk(ps + rest)
    ensures ArmSlots(ps + rest, now) == ArmSlots(ps, now)
    decreases |rest|
  {
    if rest == [] {
      assert ps + rest == ps;
    } else {
      var r := rest[..|rest| - 1];
      assert ps + rest == (ps + r) + [rest[|rest| - 1]];
      ArmSlotsStops(ps, r, now);
      ArmSlotsSnoc(ps + r, rest[|rest| - 1], now);
    }
  }

  lemma {:induction false} SlotsOk(ts: seq<CronTask>)
    requires forall i :: 0 <= i < |ts| ==> Schedulable(ts[i])
    ensures AllSlotsOk(Slots(ts))
    decreases |ts|
  {
    if ts != [] {
      SlotsOk(ts[..|ts| - 1]);
    }
  }

  /** One more task adds its own pairs after those of the earlier tasks. */
  lemma SlotsSnoc(ts: seq<CronTask>, j: nat)
    requires j < |ts|
    ensures Slots(ts[..j + 1]) == Slots(ts[..j]) + DaySlots(ts[j], ts[j].weekdays)
  {
    assert ts[..j + 1][..j] == ts[..j];
  }

  /** Arming the tasks up to `j` is arming all of them, when `j` is the end or arming has failed. */
  lemma ArmTasksStop(ts: seq<CronTask>, j: nat, now: Clock)
    requires ValidClock(now) && j <= |ts| && AllSlotsOk(Slots(ts)) && AllSlotsOk(Slots(ts[..j]))
    requires j < |ts| ==> !ArmSlots(Slots(ts[..j]), now).ok
    ensures ArmSlots(Slots(ts), now) == ArmSlots(Slots(ts[..j]), now)
  {
    if j < |ts| {
      SlotsPrefix(ts, j);
      var rest := Slots(ts)[|Slots(ts[..j])|..];
      assert forall k :: 0 <= k < |rest| ==> rest[k] == Slots(ts)[|Slots(ts[..j])| + k];
      ArmSlotsStops(Slots(ts[..j]), rest, now);
    } else {
      assert ts[..j] == ts;
    }
  }

  /** The pairs of a prefix of the tasks come first among the pairs of all of them. */
  lemma {:induction false} SlotsPrefix(ts: seq<CronTask>, j: nat)
    requires j <= |ts|
    ensures |Slots(ts[..j])| <= |Slots(ts)|
    ensures Slots(ts) == Slots(ts[..j]) + Slots(ts)[|Slots(ts[..j])|..]
    decreases |ts|
  {
    if j < |ts| {
      var init := ts[..|ts| - 1];
      assert init[..j] == ts[..j];
      SlotsPrefix(init, j);
    } else {
      assert ts[..j] == ts;
    }
  }

  /** What the callback does with the playback engine, and the relay signal it reports. */
  datatype Action =
    | PlayAudio(volume: int, index: int, relay: bool)
    | StopAudio(relay: bool)

  /** `CronTimerCb`: a start state whose audio number is below the listing size sets the volume and
      plays `audio - 1`; anything else stops playback. */
  function CallbackAction(s: TimerState, count: nat): (a: Action)
    ensures a.PlayAudio? <==> s.StartState? && s.audio < count
    ensures a.PlayAudio? ==> a.volume == s.volume && a.index == s.audio - 1 && a.index < count - 1
    ensures a.relay == s.relay
  {
    if s.StartState? && s.audio < count then PlayAudio(s.volume, s.audio - 1, s.relay) else StopAudio(s.relay)
  }

  /** With the bound `audio < count` and the shift `audio - 1`, the last file of the listing is never
      played by a start timer, and audio number 0 asks for index -1. */
  lemma CallbackNeverPlaysLast(s: TimerState, count: nat)
    requires count > 0 && (s.StartState? ==> s.audio >= 0)
    ensures CallbackAction(s, count).PlayAudio? ==> -1 <= CallbackAction(s, count).index < count - 1
    ensures s.StartState? && s.audio == count ==> CallbackAction(s, count).StopAudio?
  {
  }

  /** The end timer of a task always stops playback and reports the negated relay. */
  lemma EndTimerStops(t: CronTask, count: nat)
    ensures CallbackAction(EndStateOf(t), count) == StopAudio(!t.relay)
  {
  }

  class TaskManager {
    /** The line store `cronTask`, one task per line. */
    var store: seq<CronTask>
    /** `_cronTasks`, as last loaded from the store. */
    var tasks: seq<CronTask>
    /** `_timers`. */
    var timers: seq<Timer>
    const audio: Playback.AudioManager
    /** Whether construction completed: `false` stands for the constructor throwing, when the
        rebuild it runs throws on a refused end timer. */
    var built: bool

    /** The constructor: an absent store file is created empty and nothing is armed; an existing
        one is loaded and armed. */
    constructor (stored: Option<seq<CronTask>>, audioManager: Playback.AudioManager, now: Clock)
      requires ValidClock(now)
      requires stored.Some? ==> forall i :: 0 <= i < |stored.value| ==> Schedulable(stored.value[i])
      ensures audio == audioManager
      ensures stored.None? ==> store == [] && tasks == [] && timers == []
      ensures stored.Some? ==> store == stored.value && tasks == stored.value
      ensures stored.Some? ==> AllSlotsOk(Slots(tasks)) && timers == ArmSlots(Slots(tasks), now).timers
      ensures stored.None? ==> built
      ensures stored.Some? ==> built == ArmSlots(Slots(tasks), now).ok
    {
      audio := audioManager;
      store := [];
      tasks := [];
      timers := [];
      built := true;
      new;
      if stored.Some? {
        store := stored.value;
        built := UpdateTask(now);
      }
    }


    /** The inner loop of `UpdateTask` for one task: a start timer, then an end timer, per listed
        weekday, stopping at the first refused end timer. */
    method ArmTask(t: CronTask, now: Clock, ghost done: seq<Slot>) returns (ok: bool)
      requires ValidClock(now) && Schedulable(t) && AllSlotsOk(done)
      requires Armed(timers, true) == ArmSlots(done, now)
      modifies this`timers
      ensures AllSlotsOk(done + DaySlots(t, t.weekdays))
      ensures Armed(timers, ok) == ArmSlots(done + DaySlots(t, t.weekdays), now)
    {
      ok := true;
      var i := 0;
      assert done + DaySlots(t, t.weekdays[..0]) == done;
      while i < |t.weekdays| && ok
        invariant 0 <= i <= |t.weekdays|
        invariant AllSlotsOk(done + DaySlots(t, t.weekdays[..i]))
        invariant Armed(timers, ok) == ArmSlots(done + DaySlots(t, t.weekdays[..i]), now)
      {
        var day := t.weekdays[i];
        ArmDayStep(t, t.weekdays, done, i, now);
        var startTimer := StartTimer(t, day, now);
        var endTimer := EndTimer(t, day, now);
        if !DueAccepted(endTimer.dueMs) {
          timers := timers + [startTimer];
          ok := false;
        } else {
          timers := timers + [startTimer, endTimer];
        }
        i := i + 1;
      }
      if ok {
        ArmDaysAll(t, t.weekdays, done, i, now);
      } else {
        ArmDaysStop(t, t.weekdays, done, i, now);
      }
    }

    /** `UpdateTask`: drop every timer and task, reload the tasks from the store, then arm a start
        and an end timer for each (task, weekday) pair; `false` when a refused end timer threw. */
    method UpdateTask(now: Clock) returns (ok: bool)
      requires ValidClock(now)
      requires forall i :: 0 <= i < |store| ==> Schedulable(store[i])
      modifies this`tasks, this`timers
      ensures tasks == store && AllSlotsOk(Slots(tasks))
      ensures Armed(timers, ok) == ArmSlots(Slots(tasks), now)
    {
      timers := [];
      tasks := [];
      var ts := store;
      tasks := ts;
      SlotsOk(ts);
      ok := true;
      var j := 0;
      while j < |ts| && ok
        invariant tasks == ts && 0 <= j <= |ts|
        invariant AllSlotsOk(Slots(ts[..j]))
        invariant Armed(timers, ok) == ArmSlots(Slots(ts[..j]), now)
      {
        SlotsSnoc(ts, j);
        ok := ArmTask(ts[j], now, Slots(ts[..j]));
        j := j + 1;
      }
      ArmTasksStop(ts, j, now);
    }

    /** `AddCronTasks`: the store is truncated and rewritten with exactly the given tasks, in order,
        then reloaded and re-armed. */
    method AddCronTasks(given: seq<CronTask>, now: Clock) returns (ok: bool)
      requires ValidClock(now)
      requires forall i :: 0 <= i < |given| ==> Schedulable(given[i])
      modifies this`store, this`tasks, this`timers
      ensures store == given && tasks == given && AllSlotsOk(Slots(given))
      ensures Armed(timers, ok) == ArmSlots(Slots(given), now)
    {
      store := given;
      ok := UpdateTask(now);
    }

    /** `CronTimerCb` for a timer's state: set the volume and play, or stop. */
    method CronTimerCb(s: TimerState)
      requires audio.Inv()
      modifies audio
      ensures audio.Inv()
      ensures var p := old(audio.Model());
        match CallbackAction(s, |p.files|)
        case PlayAudio(v, i, _) =>
          audio.Model() == Playback.PlayStep(Playback.VolumeStep(p, v).0, Some(i)).0
        case StopAudio(_) =>
          audio.Model() == Playback.StopStep(p).0
    {
      match CallbackAction(s, audio.Count()) {
        case PlayAudio(v, i, _) =>
          var _ := audio.Volume(v);
          var _ := audio.Play(Some(i));
        case StopAudio(_) =>
          var _ := audio.Stop();
      }
    }
  }
}
