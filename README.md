# NsbDeviceSimulator core, modelled in Dafny

NsbDeviceSimulator impersonates an audio-broadcast device. The device:

- talks to a server over TCP in a framed binary protocol;
- logs in and keeps the session alive with heartbeats;
- plays mp3 files from a local library;
- runs weekly cron tasks that start and stop playback.

This project models the sequential logic at the centre of the simulator and proves properties of
it. Sockets, threads, timers and the audio device are left out.

- `bytes.dfy` (module `Bytes`): C# `byte`/`short`, the `(short)` cast, the byte split of a `short`, and bitwise OR of two bytes
- `commands.dfy` (module `Commands`): the `Command` enum: byte codes, their recognition, and the undefined gaps
- `messages.dfy` (module `Messages`): `Header`, `Body` and `BaseMessage`: constructors, decode operators and `GetBytes`
- `send_messages.dfy` (module `SendMessages`): `LoginSendMsg` and `HeartbeatSendMsg`
- `cron_task.dfy` (module `CronTasks`): `CronTask` and `TryParse`
- `audio_manager.dfy` (module `Playback`): `AudioManager`: the public operations, the `Handle` dispatch, the worker's switch in `Processing`, the `AddAudio` renaming loop, and `DeleteAudio`
- `task_manager.dfy` (module `Scheduling`): `TaskManager`: weekday and offset arithmetic, the timer rebuild in `UpdateTask`, `AddCronTasks`, `CronTimerCb`, and `TimerStateObject`
- `timers.dfy` (module `Timers`): timer handles (armed or disposed, due time, period)
- `status_management.dfy` (module `HeartbeatWatch`): `StatusManagement`: the heartbeat miss counter, the `IsLogin` setter, and `Initiate`
- `status_manager.dfy` (module `Session`): `StatusManager.Manage`, run against an abstract connection
- `connection.dfy` (module `Link`): `Connection`: reconnect guard, login flag, heartbeat counter, the header/body read chain, and the `MessageHandle` dispatcher
- `wrappers.dfy` (module `Wrappers`): `Option`, standing in for C# `null`

Code that changes state step by step is imperative Dafny:

- the message constructors and `GetBytes` are methods that fill arrays in loops;
- `AudioManager`, `TaskManager`, `StatusManagement`, `StatusManager` and `Connection` are classes whose methods update their fields.

Each such method is proved against a pure step function over a value of the whole state. The
lemmas about those step functions carry the properties. Pure code is modelled as functions:

- the decode operators;
- `TryParse`;
- the schedule arithmetic.

Exceptions are modelled as the outcome the code reaches after them. Examples:

- a constructor that throws returns `None`;
- a worker that throws is no longer running;
- a dispatcher that throws is dead.

Behaviour of the code that a reader may not expect, which the model keeps:

- `TryParse` accepts wire hours 24..39 and reads them as 8..23. The +8 shift subtracts 24 only
  once, so only wire hours of 40 and above are rejected (`CronTasks.HourShift`).
- `Volume` while idle reports failure. `Handle` signals nothing for it, and the one-second wait
  times out (`Playback.HandleFromIdle`).
- `Connection` never sends a heartbeat: building one throws. The tick ignores that, and the
  dispatcher ends on the first heartbeat it receives.
- `Connection` reconnects by itself after more than three missed heartbeats. Its heartbeat timer
  runs every 60 s, after a first tick at 10 s.
- After a body is received, the next 4-byte read goes to the body handler again
  (`Link.NextHeaderReadAsBody`). The next frame's header is therefore queued as a headerless
  message, and the dispatcher dies on it.
- `CronTimerCb` plays file `audio - 1` only when `audio < Count()`. The last file of the listing
  is therefore never started by a timer (`Scheduling.CallbackNeverPlaysLast`).

## Model

| member | source | states |
|---|---|---|
| `Bytes.ToShort` | NsbDeviceSimulator.Type/Model/Send/LoginSendMsg.cs:21 | the `(short)` cast keeps values in the 16-bit range unchanged and otherwise wraps modulo 65536 |
| `Bytes.OrBytes` | NsbDeviceSimulator.Type/BaseMessage.cs:59 | the OR of the two length bytes is a byte, equals the other byte when one is 0, and lies between the larger byte and their sum |
| `Bytes.HighLowJoin` | NsbDeviceSimulator.Type/BaseMessage.cs:43-44 | the high byte times 256 plus the low byte, read as a `short`, gives back the original length |
| `Commands.CodeRoundTrip` | NsbDeviceSimulator.Type/Command.cs:3-44 | every enum member's byte code is recognised again as that member |
| `Commands.FromCodeSound` | NsbDeviceSimulator.Type/BaseMessage.cs:56 | a recognised byte is exactly the code of the member it names |
| `Commands.DefinedExactly` | NsbDeviceSimulator.Type/Command.cs:3-44 | the bytes `Enum.IsDefined` accepts are exactly the 29 declared values |
| `Commands.CodesDistinct` | NsbDeviceSimulator.Type/Command.cs:3-44 | no two members share a byte code |
| `Commands.KnownCodes` | NsbDeviceSimulator.Type/Command.cs:5-23 | Login is 0x01, Heartbeat 0x02, SetTimingAlarm 0x23, CronCount 0x87; None is 0xFF and is a defined code |
| `Commands.GapsUndefined` | NsbDeviceSimulator.Type/Command.cs:8-43 | bytes in the gaps between the declared groups are not commands, so headers carrying them are rejected |
| `Messages.HeaderBytes` | NsbDeviceSimulator.Type/BaseMessage.cs:40-44 | the header is 4 bytes: 0x7E, the command code, then the length's high and low bytes, which join back to the length |
| `Messages.BodyOf` | NsbDeviceSimulator.Type/BaseMessage.cs:79-81 | the raw body is the payload followed by 0xEF, one byte longer |
| `Messages.NewHeader` | NsbDeviceSimulator.Type/BaseMessage.cs:38-48 | the constructor stores the command and length unchanged, and its raw bytes are the 4-byte header |
| `Messages.NewBody` | NsbDeviceSimulator.Type/BaseMessage.cs:73-82 | null data yields no body, because the constructor throws; otherwise the data is kept and the raw bytes are the data plus 0xEF |
| `Messages.DecodeHeader` | NsbDeviceSimulator.Type/BaseMessage.cs:50-63 | decoding succeeds exactly for 4 bytes starting with 0x7E whose command byte is defined; the length is the OR of the length bytes, so it is at most 255 |
| `Messages.DecodeBody` | NsbDeviceSimulator.Type/BaseMessage.cs:84-90 | decoding succeeds exactly when the last byte is 0xEF; the data is every byte before it, and the raw bytes are the input |
| `Messages.FrameBytes` | NsbDeviceSimulator.Type/BaseMessage.cs:14-27 | a frame is the header's raw bytes followed by the body's raw bytes, 4 + payload + 1 bytes in all |
| `Messages.GetBytes` | NsbDeviceSimulator.Type/BaseMessage.cs:19-27 | the copied array equals the header bytes followed by the body bytes |
| `Messages.HeaderRoundTrip` | NsbDeviceSimulator.Type/BaseMessage.cs:38-63 | for lengths 0..255, decoding the encoded header gives back the same header |
| `Messages.HeaderRoundTripLosesLength` | NsbDeviceSimulator.Type/BaseMessage.cs:43-44 | for lengths of 256 and more, the decoded length differs from the encoded one; 256 decodes to 1 |
| `Messages.BodyRoundTrip` | NsbDeviceSimulator.Type/BaseMessage.cs:73-90 | decoding the raw bytes of a body gives back the same body |
| `Messages.FrameRoundTrip` | NsbDeviceSimulator.Type/BaseMessage.cs:19-90 | a frame with a payload of at most 255 bytes decodes back to its header and body |
| `SendMessages.AsciiBytes` | NsbDeviceSimulator.Type/Model/Send/LoginSendMsg.cs:17 | ASCII encoding gives one byte per character, the character's code, or '?' outside ASCII |
| `SendMessages.LoginMessage` | NsbDeviceSimulator.Type/Model/Send/LoginSendMsg.cs:11-22 | the login message is complete, with a well-formed header and body |
| `SendMessages.LoginSendMsg` | NsbDeviceSimulator.Type/Model/Send/LoginSendMsg.cs:11-22 | the body data has \|sn\| + 1 bytes: the serial's ASCII bytes then the device type; the header is Login with length \|sn\| + 1 |
| `SendMessages.LoginFrameLayout` | NsbDeviceSimulator.Type/Model/Send/LoginSendMsg.cs:16-21 | the login frame is 7E 01, the length bytes, the serial, the device type, then EF |
| `SendMessages.LoginFrameDecodes` | NsbDeviceSimulator.Type/Model/Send/LoginSendMsg.cs:20-21 | with \|sn\| + 1 at most 255, the frame decodes back to Login with that length and to the same payload |
| `SendMessages.HeartbeatSendMsg` | NsbDeviceSimulator.Type/Model/Send/HeartbeatSendMsg.cs:6-10 | as written, the constructor never produces a message, because the body is built from null |
| `SendMessages.HeartbeatMessage` | NsbDeviceSimulator.Type/Model/Send/HeartbeatSendMsg.cs:8-9 | the corrected heartbeat, a Heartbeat header of length 0 and an empty body, is a complete message |
| `SendMessages.HeartbeatSendMsgFixed` | NsbDeviceSimulator.Type/Model/Send/HeartbeatSendMsg.cs:6-10 | the corrected constructor gives a Heartbeat header of length 0 and an empty payload |
| `SendMessages.HeartbeatFrame` | NsbDeviceSimulator.Type/Model/Send/HeartbeatSendMsg.cs:8 | the corrected heartbeat's header is 7E 02 00 00, its frame is 7E 02 00 00 EF, and the header decodes to Heartbeat with length 0 |
| `CronTasks.LocalHour` | NsbDeviceSimulator.Type/CronTask.cs:42-46 | wire hours 0..15 become wire + 8 and hours of 16 and above become wire - 16 (24 subtracted once); always congruent to wire + 8 modulo 24 |
| `CronTasks.WireWeekdays` | NsbDeviceSimulator.Type/CronTask.cs:51 | one weekday per byte after offset 8, each one less than its byte, in order |
| `CronTasks.TryParse` | NsbDeviceSimulator.Type/CronTask.cs:33-67 | short input is rejected; a record is accepted exactly when hours are at most 39, minutes at most 59, volume at most 30 and every weekday byte is 1..7; on success every field is the decoded value, the hours being (wire + 8) mod 24; on failure the task is the default one |
| `CronTasks.ParsedInRange` | NsbDeviceSimulator.Type/CronTask.cs:53-66 | an accepted task has every field in its valid range |
| `CronTasks.HourShift` | NsbDeviceSimulator.Type/CronTask.cs:42-46 | wire hours 0..15 map to 8..23, 16..23 to 0..7, and 24..39 alias 0..15; 40 and above fall out of range |
| `CronTasks.WireRecord` | NsbDeviceSimulator.Type/CronTask.cs:70-81 | the wire record of a task has 8 fixed bytes plus one byte per weekday |
| `CronTasks.ParseRoundTrip` | NsbDeviceSimulator.Type/CronTask.cs:33-67 | every valid task, encoded as the server sends it, is accepted and decoded back to itself |
| `CronTasks.MinuteSixtyRejected` | NsbDeviceSimulator.Type/CronTask.cs:53-63 | a record with minute 60 is rejected as a whole and yields the default task |
| `CronTasks.NoWeekdaysAccepted` | NsbDeviceSimulator.Type/CronTask.cs:51-66 | an exactly 8-byte record in range is accepted with no weekdays |
| `Playback.Transition` | NsbDeviceSimulator.Logic/AudioManager.cs:165-184 | Stop goes to Idle, Volume keeps the status, Pause works only while Playing, Play only while Pausing; anything else throws |
| `Playback.DrainAcksPrefix` | NsbDeviceSimulator.Logic/AudioManager.cs:161-187 | the worker acknowledges a prefix of the queue, and ends with the replay of exactly that prefix; if it stops short it is no longer running, and a running worker is never Idle |
| `Playback.StopEndsWorker` | NsbDeviceSimulator.Logic/AudioManager.cs:161-181 | a Stop taken by a live worker is acknowledged, leaves Idle and ends the worker, so nothing queued after it is processed |
| `Playback.StepsKeepValid` | NsbDeviceSimulator.Logic/AudioManager.cs:30-129 | every public operation keeps the volume in 0..30 and never leaves a live worker in Idle |
| `Playback.PlayOutOfRange` | NsbDeviceSimulator.Logic/AudioManager.cs:33 | Play(i) with i at or past the listing size fails and changes nothing |
| `Playback.PlayIndexPlays` | NsbDeviceSimulator.Logic/AudioManager.cs:30-39 | Play(i) for a listed file sets the index, stops what plays, and ends up Playing with a live worker |
| `Playback.NoEventSuccesses` | NsbDeviceSimulator.Logic/AudioManager.cs:32-49 | Play() while Playing, Pause() unless Playing, and Stop() while Idle succeed with no change |
| `Playback.IdleNavigation` | NsbDeviceSimulator.Logic/AudioManager.cs:51-71 | while Idle, Next and Previous only move the index, with wrap-around, and succeed |
| `Playback.VolumeBounds` | NsbDeviceSimulator.Logic/AudioManager.cs:73-79 | a volume outside 0..30 fails with no change; otherwise the level is stored, and success means a live worker acknowledged it |
| `Playback.HandleFromIdle` | NsbDeviceSimulator.Logic/AudioManager.cs:204-233 | from Idle, Play starts the worker and succeeds; Pause, Stop and Volume report failure |
| `Playback.NextCycle` | NsbDeviceSimulator.Logic/AudioManager.cs:53-54 | as many Next steps as there are files bring the index back to where it started |
| `Playback.NavigationMovesIndex` | NsbDeviceSimulator.Logic/AudioManager.cs:51-71 | in every status, Next and Previous set the index by the wrap-around updates and keep the listing |
| `Playback.PreviousAfterNext` | NsbDeviceSimulator.Logic/AudioManager.cs:51-71 | in every status, Previous right after Next returns to the listed index it started from |
| `Playback.PreviousUndoesNext` | NsbDeviceSimulator.Logic/AudioManager.cs:51-65 | Previous undoes Next on a listed index, and Previous from 0 wraps to the last file |
| `Playback.DeleteRemovesOne` | NsbDeviceSimulator.Logic/AudioManager.cs:121-129 | DeleteAudio(i) past the listing fails; otherwise exactly file i leaves the listing |
| `Playback.DecimalDigitsInjective` | NsbDeviceSimulator.Logic/AudioManager.cs:99 | different counters print as different digit strings |
| `Playback.SuffixedInjective` | NsbDeviceSimulator.Logic/AudioManager.cs:99 | different counters give different `base(n).mp3` names |
| `Playback.AudioManager.constructor` | NsbDeviceSimulator.Logic/AudioManager.cs:11-26 | the engine starts Idle at index 0 with half volume and the given listing |
| `Playback.AudioManager.DrainEvents` | NsbDeviceSimulator.Logic/AudioManager.cs:161-187 | the worker's loop leaves the status, acknowledgement count and running flag the drain function gives |
| `Playback.AudioManager.Handle` | NsbDeviceSimulator.Logic/AudioManager.cs:199-234 | the dispatch step agrees with the Handle step function |
| `Playback.AudioManager.Play` | NsbDeviceSimulator.Logic/AudioManager.cs:30-39 | the new state and result agree with the Play step |
| `Playback.AudioManager.Pause` | NsbDeviceSimulator.Logic/AudioManager.cs:41-44 | the new state and result agree with the Pause step |
| `Playback.AudioManager.Stop` | NsbDeviceSimulator.Logic/AudioManager.cs:46-49 | the new state and result agree with the Stop step |
| `Playback.AudioManager.Next` | NsbDeviceSimulator.Logic/AudioManager.cs:51-60 | the new state and result agree with the Next step |
| `Playback.AudioManager.Previous` | NsbDeviceSimulator.Logic/AudioManager.cs:62-71 | the new state and result agree with the Previous step |
| `Playback.AudioManager.Volume` | NsbDeviceSimulator.Logic/AudioManager.cs:73-80 | the new state and result agree with the Volume step |
| `Playback.AudioManager.PlaybackStopped` | NsbDeviceSimulator.Logic/AudioManager.cs:156-160 | the natural end of a track returns to Idle and ends the worker |
| `Playback.AudioManager.FreeName` | NsbDeviceSimulator.Logic/AudioManager.cs:92-103 | the chosen name is not listed; a free name is kept; a taken one becomes `base(n).mp3` for the smallest n ≥ 1 not listed |
| `Playback.AudioManager.AddAudio` | NsbDeviceSimulator.Logic/AudioManager.cs:82-119 | a missing download or a name not ending in .mp3 fails with no change; otherwise exactly one name, new to the listing, is appended, and it is the downloaded name when that was free, otherwise the base name with the smallest suffix n >= 1 not yet listed |
| `Playback.AudioManager.DeleteAudio` | NsbDeviceSimulator.Logic/AudioManager.cs:121-129 | the new listing and result agree with the Delete step |
| `Scheduling.Weekday` | NsbDeviceSimulator.Logic/TaskManager.cs:52-53 | today's weekday is in 0..6 with Monday = 0, one step behind DayOfWeek modulo 7 |
| `Scheduling.DayOffset` | NsbDeviceSimulator.Logic/TaskManager.cs:54-55 | the offset from today's weekday to the task's day is in 0..6 and lands on that day |
| `Scheduling.FirstOffsetAsWritten` | NsbDeviceSimulator.Logic/TaskManager.cs:54-59 | as written: the offset is in 0..7; it is 7, landing on today's weekday, whenever today's start time has passed; otherwise it is at most 6 and lands on the task's weekday |
| `Scheduling.FirstOffset` | NsbDeviceSimulator.Logic/TaskManager.cs:54-59 | corrected: the offset is in 0..7, lands on the task's weekday, and puts the start at or after now |
| `Scheduling.OffsetAsWrittenMissesWeekday` | NsbDeviceSimulator.Logic/TaskManager.cs:57-58 | as written, for every task whose start time has passed today and whose weekday is not today, the offset is 7 and lands on today's weekday instead of the task's, while the corrected offset is 1..6 |
| `Scheduling.OffsetAsWrittenExample` | NsbDeviceSimulator.Logic/TaskManager.cs:58 | on a Monday at 09:00, a Wednesday 08:00 task gets offset 7, landing on a Monday, where the corrected offset is 2 |
| `Scheduling.StartStateOf` | NsbDeviceSimulator.Logic/TaskManager.cs:110-116 | the start state carries the task's volume, relay and audio |
| `Scheduling.EndStateOf` | NsbDeviceSimulator.Logic/TaskManager.cs:118-122 | the end state carries the negated relay |
| `Scheduling.DueTimes` | NsbDeviceSimulator.Logic/TaskManager.cs:56-63 | with the code's offset, the start timer is due within the coming week and is always accepted; the end timer lies the end-minus-start duration after it |
| `Scheduling.StartFiresAsWritten` | NsbDeviceSimulator.Logic/TaskManager.cs:54-61 | as written, the start timer fires on the task's weekday while today's start time is still ahead, and on today's weekday a week later once it has passed |
| `Scheduling.StartFiresCorrected` | NsbDeviceSimulator.Logic/TaskManager.cs:54-61 | corrected, the start timer fires within the coming week, on the task's weekday, at the task's start time |
| `Scheduling.ParsedSchedulable` | NsbDeviceSimulator.Type/CronTask.cs:53-66 | every task the parser accepts meets what the rebuild needs |
| `Scheduling.DaySlots` | NsbDeviceSimulator.Logic/TaskManager.cs:50 | one (task, weekday) pair per listed weekday, in order |
| `Scheduling.ArmSlotsShape` | NsbDeviceSimulator.Logic/TaskManager.cs:48-66 | arming succeeds exactly when every end timer is accepted (due in 0 .. 0xFFFFFFFE ms, or infinite), and then there are exactly two timers per pair: its start timer and then its end timer |
| `Scheduling.LateEndRefused` | NsbDeviceSimulator.Logic/TaskManager.cs:62-64 | a task ending 2000 hours after a midnight start is schedulable, but its end timer is due beyond 0xFFFFFFFE ms and is refused, so only its start timer is armed and arming fails |
| `Scheduling.ArmSlotsStops` | NsbDeviceSimulator.Logic/TaskManager.cs:64 | once a refused end timer has thrown, no further timer is armed |
| `Scheduling.SlotsPrefix` | NsbDeviceSimulator.Logic/TaskManager.cs:48-50 | the pairs of the first tasks come first among the pairs of all tasks |
| `Scheduling.CallbackAction` | NsbDeviceSimulator.Logic/TaskManager.cs:69-87 | a start state with audio below the listing size sets its volume and plays audio - 1; anything else stops; the relay is reported either way |
| `Scheduling.CallbackNeverPlaysLast` | NsbDeviceSimulator.Logic/TaskManager.cs:74-77 | a timer plays only indices -1 .. Count - 2, so the last file is never started; audio = Count stops |
| `Scheduling.EndTimerStops` | NsbDeviceSimulator.Logic/TaskManager.cs:69-87 | an end timer always stops playback and reports the negated relay |
| `Scheduling.TaskManager.constructor` | NsbDeviceSimulator.Logic/TaskManager.cs:13-30 | with no store, nothing is loaded or armed and construction completes; with one, the tasks are loaded and armed with the code's offset, and construction completes exactly when the rebuild does (a refused end timer makes `new TaskManager` throw) |
| `Scheduling.TaskManager.ArmTask` | NsbDeviceSimulator.Logic/TaskManager.cs:50-65 | the inner loop arms the pairs of one task as the arming function does, with the code's offset |
| `Scheduling.TaskManager.UpdateTask` | NsbDeviceSimulator.Logic/TaskManager.cs:32-67 | timers and tasks are cleared, the tasks reloaded from the store, and the timers and outcome are those of arming all pairs with the code's offset |
| `Scheduling.TaskManager.AddCronTasks` | NsbDeviceSimulator.Logic/TaskManager.cs:89-100 | the store becomes exactly the given tasks, which are reloaded and armed as the rebuild does |
| `Scheduling.TaskManager.CronTimerCb` | NsbDeviceSimulator.Logic/TaskManager.cs:69-87 | the engine ends in the state of Volume then Play(audio - 1), or of Stop, as the callback rule decides |
| `Timers.Dispose` | NsbDeviceSimulator.Logic/StatusManagement.cs:27 | disposing keeps an absent handle absent and never leaves a timer armed |
| `HeartbeatWatch.Tick` | NsbDeviceSimulator.Logic/StatusManagement.cs:54-58 | a tick adds exactly one to the counter and fires when the new count exceeds 3 and nothing is cancelled |
| `HeartbeatWatch.TicksFromReset` | NsbDeviceSimulator.Logic/StatusManagement.cs:54-58 | from a reset counter, tick k fires exactly when k ≥ 3 and the token is not cancelled, so every tick after the third fires again |
| `HeartbeatWatch.KeepsFiring` | NsbDeviceSimulator.Logic/StatusManagement.cs:56-57 | after a tick that fires, the next tick fires unless cancelled |
| `HeartbeatWatch.LoginTimerAfter` | NsbDeviceSimulator.Logic/StatusManagement.cs:19-33 | setting true disposes the login timer; setting false arms a fresh one-shot 20 s timer |
| `HeartbeatWatch.LoginTimerCycle` | NsbDeviceSimulator.Logic/StatusManagement.cs:19-33 | logging out then in leaves a disposed 20 s one-shot timer; logging in twice is the same as once |
| `HeartbeatWatch.StatusManagement.constructor` | NsbDeviceSimulator.Logic/StatusManagement.cs:41-46 | not logged in, counter 0, no timers |
| `HeartbeatWatch.StatusManagement.SetIsLogin` | NsbDeviceSimulator.Logic/StatusManagement.cs:19-33 | the flag is stored and the login timer updated as the setter rule says |
| `HeartbeatWatch.StatusManagement.Heartbeat` | NsbDeviceSimulator.Logic/StatusManagement.cs:36-39 | the counter becomes 0 |
| `HeartbeatWatch.StatusManagement.Initiate` | NsbDeviceSimulator.Logic/StatusManagement.cs:48-52 | a one-shot login timer at 20 s, and a heartbeat timer first due at 20 s with a 60 s period |
| `HeartbeatWatch.StatusManagement.HeartbeatTimerCb` | NsbDeviceSimulator.Logic/StatusManagement.cs:54-58 | the counter and the fired flag are those of one tick |
| `Session.Step` | NsbDeviceSimulator.Logic/StatusManager.cs:22-45 | Idle calls Start and moves to Connected on success; Connected calls Login and moves to Logged only on an ack; Logged does nothing; Error calls Stop and moves to Idle |
| `Session.Apply` | NsbDeviceSimulator.Logic/StatusManager.cs:25-35 | the error callback sets Error and the login callback sets Logged, whatever the status |
| `Session.LoggedIsFixed` | NsbDeviceSimulator.Logic/StatusManager.cs:38-39 | once Logged, loop passes change nothing and call nothing |
| `Session.LoggedNeedsAck` | NsbDeviceSimulator.Logic/StatusManager.cs:28-37 | a run that reaches Logged from another status contains a login acknowledgement |
| `Session.StopsAnswerErrors` | NsbDeviceSimulator.Logic/StatusManager.cs:25-43 | Stop is called at most once per reported error, counting an initial Error status, and an Error still pending at the end has not been answered |
| `Session.ConnectThenLogin` | NsbDeviceSimulator.Logic/StatusManager.cs:24-37 | a successful start then an acknowledged login reach Logged with exactly the calls Start, Login |
| `Session.StatusManager.constructor` | NsbDeviceSimulator.Logic/StatusManager.cs:10-16 | the status starts Idle |
| `Session.StatusManager.Manage` | NsbDeviceSimulator.Logic/StatusManager.cs:18-48 | the loop ends with the status and connection calls of the run function |
| `Link.ReadInto` | NsbDeviceSimulator.Logic/Connection.cs:100-101 | a read overwrites the front of the buffer with the bytes delivered and keeps the rest |
| `Link.SendStep` | NsbDeviceSimulator.Logic/Connection.cs:157-174 | a frame is written only on a connected client; nothing else changes |
| `Link.StopStep` | NsbDeviceSimulator.Logic/Connection.cs:45-58 | a connected client is closed; on an unconnected one nothing is closed |
| `Link.ReconnectStep` | NsbDeviceSimulator.Logic/Connection.cs:60-67 | nothing while reconnecting; otherwise the flag is set, the client closed if connected, and a connect started unless cancelled |
| `Link.ReconnectIdempotent` | NsbDeviceSimulator.Logic/Connection.cs:62-63 | a second reconnect in a row does nothing |
| `Link.OnConnectStep` | NsbDeviceSimulator.Logic/Connection.cs:76-92 | clears the reconnect and login flags and arms both timers; on a connected client it sends the login frame and starts a 4-byte header read |
| `Link.OnHeaderReceiveStep` | NsbDeviceSimulator.Logic/Connection.cs:94-124 | a valid header leads to a body read of length + 1 (at most 256) bytes; an invalid one to another 4-byte header read into the same buffer; an empty read reconnects |
| `Link.OnBodyReceiveStep` | NsbDeviceSimulator.Logic/Connection.cs:126-155 | the decoded message is queued, the counter reset, and a fresh 4-byte read handed to the body handler; an empty read reconnects; a cancelled token closes the client |
| `Link.HeartbeatStep` | NsbDeviceSimulator.Logic/Connection.cs:205-208 | the counter becomes 0 and nothing else changes |
| `Link.OnLoginTimeoutStep` | NsbDeviceSimulator.Logic/Connection.cs:179-184 | logged in: nothing; otherwise a reconnect |
| `Link.OnHeartbeatTimeoutStep` | NsbDeviceSimulator.Logic/Connection.cs:186-203 | as written nothing is sent, since building the heartbeat throws and the exception is ignored; the counter is incremented, or reset to 0 followed by a reconnect once it exceeds 3 |
| `Link.OnHeartbeatTimeoutFixedStep` | NsbDeviceSimulator.Logic/Connection.cs:190-193 | corrected: the heartbeat frame is written first on a connected client, and the rest of the tick is unchanged |
| `Link.HeartbeatTickSends` | NsbDeviceSimulator.Logic/Connection.cs:186-203 | as written a tick never writes; corrected, a connected tick writes 7E 02 00 00 EF; counter and reconnects agree |
| `Link.FourMissesReconnect` | NsbDeviceSimulator.Logic/Connection.cs:200-202 | three ticks only count; the fourth resets the counter and closes and reconnects |
| `Link.BodyPostponesReconnect` | NsbDeviceSimulator.Logic/Connection.cs:138-143 | a received body resets the counter, so the next tick counts 1 and reconnects nothing |
| `Link.DispatchOne` | NsbDeviceSimulator.Logic/Connection.cs:217-226 | Login sets the login flag; other commands are ignored; a headerless message and, as written, a Heartbeat frame end the dispatcher |
| `Link.DispatchOneFixed` | NsbDeviceSimulator.Logic/Connection.cs:223-224 | corrected: a Heartbeat frame is answered with the heartbeat; every other message is handled as written |
| `Link.DispatchEffect` | NsbDeviceSimulator.Logic/Connection.cs:212-228 | a live dispatcher empties the queue; it never touches socket calls, sent frames, the counter or the read chain; a dead one does nothing |
| `Link.LoginAckSilencesTimeout` | NsbDeviceSimulator.Logic/Connection.cs:179-184 | after a Login frame is dispatched, the login timeout does nothing |
| `Link.HeartbeatAnswered` | NsbDeviceSimulator.Logic/Connection.cs:223-224 | corrected, a received Heartbeat frame is answered with the bytes 7E 02 00 00 EF and the dispatcher lives on |
| `Link.HeartbeatEndsDispatcher` | NsbDeviceSimulator.Logic/Connection.cs:223-224 | as written, a Heartbeat frame at the head of the queue ends the dispatcher, sends nothing and leaves the rest of the queue unhandled |
| `Link.NextHeaderReadAsBody` | NsbDeviceSimulator.Logic/Connection.cs:138-142 | after a body, the next frame's 4 header bytes are queued as a message with no header, and the dispatcher dies on it |
| `Link.Connection.constructor` | NsbDeviceSimulator.Logic/Connection.cs:28-38 | a fresh unconnected client, an empty queue and a running dispatcher |
| `Link.Connection.Start` | NsbDeviceSimulator.Logic/Connection.cs:40-43 | the new state is the Start step's |
| `Link.Connection.Stop` | NsbDeviceSimulator.Logic/Connection.cs:45-58 | the new state is the Stop step's |
| `Link.Connection.Reconnect` | NsbDeviceSimulator.Logic/Connection.cs:60-67 | the new state is the Reconnect step's |
| `Link.Connection.SendMessage` | NsbDeviceSimulator.Logic/Connection.cs:157-174 | reports whether the client is connected and appends the frame's bytes only then |
| `Link.Connection.OnConnect` | NsbDeviceSimulator.Logic/Connection.cs:76-92 | the new state is the OnConnect step's |
| `Link.Connection.OnHeaderReceive` | NsbDeviceSimulator.Logic/Connection.cs:94-124 | the new state is the header step's |
| `Link.Connection.OnBodyReceive` | NsbDeviceSimulator.Logic/Connection.cs:126-155 | the new state is the body step's |
| `Link.Connection.OnLoginTimeout` | NsbDeviceSimulator.Logic/Connection.cs:179-184 | the new state is the login-timeout step's |
| `Link.Connection.OnHeartbeatTimeout` | NsbDeviceSimulator.Logic/Connection.cs:186-203 | the new state is the as-written heartbeat-timeout step's |
| `Link.Connection.Heartbeat` | NsbDeviceSimulator.Logic/Connection.cs:205-208 | the counter becomes 0 |
| `Link.Connection.HandleOne` | NsbDeviceSimulator.Logic/Connection.cs:217-226 | one pass takes the first queued message and leaves the state the as-written dispatch step gives, a Heartbeat ending the dispatcher |
| `Link.Connection.MessageHandle` | NsbDeviceSimulator.Logic/Connection.cs:212-228 | the loop ends in the state the as-written dispatch function gives |

## Left out

- Sockets: `TcpClient`, `BeginConnect`, `BeginRead`, `EndRead` and `WriteAsync` are abstract. A connect completes with a success flag, a read with the bytes it delivered, and a write appends to `sent`.
- Threads, `Task.Run`, `BlockingCollection`, semaphores and `System.Threading.Timer` callbacks are left out. The inputs arrive in one order chosen by the caller. The playback handshake is one synchronous step, and timer callbacks are methods the environment calls.
- Timer handles replaced without `Dispose` (in `OnConnect`, the `IsLogin` setter and `Initiate`) may keep firing until collected. The model keeps only the newest handle.
- The NAudio device, the HTTP download, and the file writes and deletes are left out. The listing is a sequence of names. A new file is appended as the newest, without the `.mp3` extension filter or creation-time order of `UpdateAudios`.
- Events queued while no worker runs are dropped in the model. In the source they stay in the queue and a later worker would take them first.
- The volume is the level 0..30, not the float gain `level / 30`.
- JSON (de)serialisation of the task store and its blank-line skipping are left out. The store is a sequence of `CronTask`.
- The clock is a parameter (DayOfWeek and milliseconds since midnight), read once per rebuild. The source reads it once per (task, weekday) pair.
- `ConfigHelper`, `Program` and `Agent` are not part of this model. Neither are the connection API that `StatusManager` calls (`Start(callback)`, `Login(callback)`) nor `DeviceType`, which is an opaque byte here.
- `Scheduling.TaskManager.UpdateTask`: requires each stored task to have a start hour of 0..23, a start minute of 0..59 and weekdays of 0..6. A start outside the clock throws in `new DateTime(...)`. A weekday outside 0..6 does not throw there, but gives offsets beyond a week or a negative start due time, which the `Timer` constructor refuses; the model does not follow those. `TryParse` only produces tasks that meet all three (`Scheduling.ParsedSchedulable`). Volume, audio and end times are not constrained: an end timer due below 0 or above 0xFFFFFFFE ms is refused and makes the rebuild fail, as in the source (`Scheduling.LateEndRefused`).
- `Scheduling.TaskManager.constructor`, `Scheduling.TaskManager.ArmTask`, `Scheduling.TaskManager.AddCronTasks`: the same requirement on the tasks they arm, for the same reasons as `UpdateTask`.
- The clock has no date, so `AddHours`/`AddMinutes` passing `DateTime.MaxValue` (the year 9999) is not modelled.
- `Playback.AudioManager.DeleteAudio`: requires `i >= 0`, because a negative index throws out of `_files[index]` to the caller.
- Counters (`_heartbeatCnt`) are unbounded integers. The 32-bit wrap-around after 2^31 ticks is not modelled.
- `Link.OnBodyReceiveStep`: a body read completing on a client that is no longer connected just ends the read chain. The exception thrown again inside its catch block is not modelled.
- `Link.OnHeaderReceiveStep`, `Link.OnBodyReceiveStep`: a read that delivers fewer bytes than requested is modelled (the rest of the buffer keeps its old content), but a read longer than the buffer is not possible and is excluded by the requires.
- Race between `StatusManager`'s `Start` returning true and its error callback, where `Connected` can overwrite `Error`, is not modelled.
- `Encoding.ASCII` on surrogate pairs: each UTF-16 code unit becomes one '?'. The model works on characters.

## Findings

| source | as written | input that shows it | evidently intended | confidence | as-written member | corrected member |
|---|---|---|---|---|---|---|
| NsbDeviceSimulator.Type/Model/Send/HeartbeatSendMsg.cs:9 | the body is built from null; `Body`'s constructor never assigns `Data` and then reads its length, which throws | any construction of a heartbeat message | a heartbeat with an empty payload, the 5 bytes 7E 02 00 00 EF | high, not executed | `Link.HeartbeatEndsDispatcher` | `Link.HeartbeatAnswered` |
| NsbDeviceSimulator.Logic/TaskManager.cs:58 | the day offset becomes 7 whenever today's start time has passed, whatever the task's weekday | Monday 09:00, a Wednesday task at 08:00: first due 7 days later, on a Monday, and weekly on Mondays after that | offset 7 only when the task's weekday is today (offset 0) | high, not executed | `Scheduling.OffsetAsWrittenMissesWeekday` | `Scheduling.StartFiresCorrected` |

The classes follow the code as written; the corrected definitions are proved beside them:

- `Connection`'s heartbeat tick sends nothing and still counts the miss, and its dispatcher ends on a received heartbeat (`Link.HeartbeatTickSends`, `Link.HeartbeatEndsDispatcher`). The corrected steps `Link.OnHeartbeatTimeoutFixedStep` and `Link.DispatchOneFixed` answer with the corrected heartbeat (`Link.HeartbeatAnswered`).
- The timer rebuild arms timers with the code's offset (`Scheduling.StartFiresAsWritten`). The corrected offset and start due time are `Scheduling.FirstOffset` and `Scheduling.CorrectedStartDue` (`Scheduling.StartFiresCorrected`).
