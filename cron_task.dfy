/** Cron task records and their wire decoder `CronTask.TryParse` (NsbDeviceSimulator.Type/CronTask.cs). */
module CronTasks {
  import opened Bytes

  /** One weekly task: times are device-local, weekdays run 0 = Monday .. 6 = Sunday. */
  datatype CronTask = CronTask(
    index: int,
    startHour: int, startMinute: int,
    endHour: int, endMinute: int,
    volume: int, relay: bool, audio: int,
    weekdays: seq<int>)

  /** `new CronTask()`: all fields zero and no weekdays. */
  const DefaultTask := CronTask(0, 0, 0, 0, 0, 0, false, 0, [])

  // The `Offset` layout of a record on the wire.
  const IndexOffset := 0
  const StartHourOffset := 1
  const StartMinuteOffset := 2
  const EndHourOffset := 3
  const EndMinuteOffset := 4
  const VolumeOffset := 5
  const RelayOffset := 6
  const AudioOffset := 7
  const WeekdaysOffset := 8

  /** A wire hour shifted by the +8 hour zone offset, with one subtraction of 24 when it overflows. */
  function LocalHour(wire: byte): (h: int)
    ensures wire < 24 ==> h == (wire + 8) % 24
    ensures wire <= 15 ==> h == wire + 8
    ensures wire >= 16 ==> h == wire - 16
    ensures 0 <= h && (h - wire - 8) % 24 == 0
  {
    var h := wire + 8;
    if h > 23 then h - 24 else h
  }

  /** The weekday bytes after the fixed fields, each turned from 1-based into 0-based. */
  function WireWeekdays(tail: seq<byte>): (days: seq<int>)
    ensures |days| == |tail|
    ensures forall i :: 0 <= i < |tail| ==> days[i] + 1 == tail[i]
  {
    seq(|tail|, i requires 0 <= i < |tail| => tail[i] as int - 1)
  }

  /** The record as `TryParse` reads it, before any range check. */
  function Decoded(data: seq<byte>): CronTask
    requires |data| >= WeekdaysOffset
  {
    CronTask(
      data[IndexOffset],
      LocalHour(data[StartHourOffset]), data[StartMinuteOffset],
      LocalHour(data[EndHourOffset]), data[EndMinuteOffset],
      data[VolumeOffset], data[RelayOffset] == 1, data[AudioOffset],
      WireWeekdays(data[WeekdaysOffset..]))
  }

  /** The range checks of `TryParse`. */
  predicate InRange(t: CronTask)
  {
    && 0 <= t.startHour <= 23 && 0 <= t.startMinute <= 59
    && 0 <= t.endHour <= 23 && 0 <= t.endMinute <= 59
    && 0 <= t.volume <= 30 && t.audio >= 0
    && forall i :: 0 <= i < |t.weekdays| ==> 0 <= t.weekdays[i] <= 6
  }

  /** `CronTask.TryParse`: the success flag and the `out` task. A short input or any field out of
      range rejects the whole record and yields the default task. Accepted exactly when the minutes
      are at most 59, the volume at most 30, every weekday byte in 1..7, and both wire hours at most
      39 (wire hours 24..39 are accepted and read as 8..23, since the shift subtracts 24 only once). */
  function TryParse(data: seq<byte>): (r: (bool, CronTask))
    ensures !r.0 ==> r.1 == DefaultTask
    ensures |data| < WeekdaysOffset ==> !r.0
    ensures r.0 <==>
      && |data| >= WeekdaysOffset
      && data[StartHourOffset] <= 39 && data[EndHourOffset] <= 39
      && data[StartMinuteOffset] <= 59 && data[EndMinuteOffset] <= 59
      && data[VolumeOffset] <= 30
      && (forall i :: WeekdaysOffset <= i < |data| ==> 1 <= data[i] <= 7)
    ensures r.0 ==> r.1.index == data[IndexOffset] && r.1.audio == data[AudioOffset]
    ensures r.0 ==> r.1.startHour == LocalHour(data[StartHourOffset]) && r.1.endHour == LocalHour(data[EndHourOffset])
    ensures r.0 ==> r.1.startHour == (data[StartHourOffset] + 8) % 24 && r.1.endHour == (data[EndHourOffset] + 8) % 24
    ensures r.0 ==> r.1.relay == (data[RelayOffset] == 1)
    ensures r.0 ==> r.1.startMinute == data[StartMinuteOffset] && r.1.endMinute == data[EndMinuteOffset]
    ensures r.0 ==> r.1.volume == data[VolumeOffset]
    ensures r.0 ==> |r.1.weekdays| == |data| - WeekdaysOffset
    ensures r.0 ==> forall i :: 0 <= i < |r.1.weekdays| ==> r.1.weekdays[i] == data[WeekdaysOffset + i] as int - 1
  {
    if |data| < WeekdaysOffset then (false, DefaultTask)
    else
      var t := Decoded(data);
      assert forall i :: WeekdaysOffset <= i < |data| ==> t.weekdays[i - WeekdaysOffset] == data[i] as int - 1;
      if !InRange(t) then (false, DefaultTask) else (true, t)
  }

  /** An accepted record is in range; its hours are proper clock hours. */
  lemma ParsedInRange(data: seq<byte>)
    ensures TryParse(data).0 ==> InRange(TryParse(data).1)
  {
  }

  /** The time-zone shift: wire hours 0..15 are 8..23 local, 16..23 are 0..7 local, and 24..39 are
      aliases of 0..15. */
  lemma HourShift(wire: byte)
    ensures wire <= 15 ==> LocalHour(wire) == wire + 8
    ensures 16 <= wire <= 23 ==> LocalHour(wire) == wire - 16
    ensures 24 <= wire <= 39 ==> LocalHour(wire) == LocalHour(wire - 24)
    ensures wire >= 40 ==> LocalHour(wire) > 23
  {
  }

  /** A task every field of which has its valid range, as the server sends it. */
  predicate Sendable(t: CronTask)
  {
    && InRange(t)
    && 0 <= t.index <= 255 && t.audio <= 255
  }

  /** The record a server sends for a task: hours shifted back by 8, weekdays 1-based. */
  function WireRecord(t: CronTask): (data: seq<byte>)
    requires Sendable(t)
    ensures |data| == WeekdaysOffset + |t.weekdays|
  {
    [t.index, (t.startHour + 16) % 24, t.startMinute, (t.endHour + 16) % 24, t.endMinute,
     t.volume, if t.relay then 1 else 0, t.audio]
    + seq(|t.weekdays|, i requires 0 <= i < |t.weekdays| => t.weekdays[i] + 1)
  }

  /** Every valid task survives the trip over the wire: `TryParse` accepts the record and rebuilds
      exactly the task. */
  lemma {:induction false} ParseRoundTrip(t: CronTask)
    requires Sendable(t)
    ensures TryParse(WireRecord(t)) == (true, t)
  {
    var data := WireRecord(t);
    assert LocalHour(data[StartHourOffset]) == t.startHour;
    assert LocalHour(data[EndHourOffset]) == t.endHour;
    assert WireWeekdays(data[WeekdaysOffset..]) == t.weekdays;
    assert Decoded(data) == t;
  }

  /** A record with minute 60 is rejected even when every other field is valid. */
  lemma MinuteSixtyRejected(data: seq<byte>)
    requires |data| >= WeekdaysOffset && data[StartMinuteOffset] == 60
    ensures TryParse(data) == (false, DefaultTask)
  {
  }

  /** A record of exactly the fixed fields carries no weekdays and is accepted when they are in range. */
  lemma NoWeekdaysAccepted(data: seq<byte>)
    requires |data| == WeekdaysOffset
    requires data[StartHourOffset] <= 23 && data[EndHourOffset] <= 23
    requires data[StartMinuteOffset] <= 59 && data[EndMinuteOffset] <= 59 && data[VolumeOffset] <= 30
    ensures TryParse(data).0 && TryParse(data).1.weekdays == []
  {
  }
}
