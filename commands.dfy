/** The protocol's command codes (NsbDeviceSimulator.Type/Command.cs). */
module Commands {
  import opened Bytes
  import Wrappers

  datatype Command =
    | None
    // communication
    | Activation | Login | Heartbeat
    // device control
    | Reboot | FactoryReset
    // timing
    | LoopWhile | QueryTimingMode | QueryTimingSet | SetTimingAlarm | SetTimingAfter | TimingReport | CronCount
    // file transfer
    | FileTransReqWifi | FileTransProcWifi | FileTransErrWifi | FileTransRptWifi | FileTransReqCell | FileTransRptCell
    // play control
    | Play | Pause | Next | Previous | Volume | FastForward | FastBackward | PlayIndex | ReadFilesList | DeleteFile

  /** The byte the enum member stands for, `(byte)command`. */
  function Code(c: Command): byte
  {
    match c
    case None => 0xFF
    case Activation => 0x00
    case Login => 0x01
    case Heartbeat => 0x02
    case Reboot => 0x10
    case FactoryReset => 0x11
    case LoopWhile => 0x20
    case QueryTimingMode => 0x21
    case QueryTimingSet => 0x22
    case SetTimingAlarm => 0x23
    case SetTimingAfter => 0x24
    case TimingReport => 0x25
    case CronCount => 0x87
    case FileTransReqWifi => 0xA0
    case FileTransProcWifi => 0xA1
    case FileTransErrWifi => 0xA2
    case FileTransRptWifi => 0xA3
    case FileTransReqCell => 0xA4
    case FileTransRptCell => 0xA5
    case Play => 0xF0
    case Pause => 0xF1
    case Next => 0xF2
    case Previous => 0xF3
    case Volume => 0xF4
    case FastForward => 0xF5
    case FastBackward => 0xF6
    case PlayIndex => 0xF7
    case ReadFilesList => 0xF8
    case DeleteFile => 0xF9
  }

  /** `Enum.IsDefined` followed by the cast `(Command)b`: the member whose value is `b`, if any. */
  function FromCode(b: byte): Wrappers.Option<Command>
  {
    match b
    case 0xFF => Wrappers.Some(None)
    case 0x00 => Wrappers.Some(Activation)
    case 0x01 => Wrappers.Some(Login)
    case 0x02 => Wrappers.Some(Heartbeat)
    case 0x10 => Wrappers.Some(Reboot)
    case 0x11 => Wrappers.Some(FactoryReset)
    case 0x20 => Wrappers.Some(LoopWhile)
    case 0x21 => Wrappers.Some(QueryTimingMode)
    case 0x22 => Wrappers.Some(QueryTimingSet)
    case 0x23 => Wrappers.Some(SetTimingAlarm)
    case 0x24 => Wrappers.Some(SetTimingAfter)
    case 0x25 => Wrappers.Some(TimingReport)
    case 0x87 => Wrappers.Some(CronCount)
    case 0xA0 => Wrappers.Some(FileTransReqWifi)
    case 0xA1 => Wrappers.Some(FileTransProcWifi)
    case 0xA2 => Wrappers.Some(FileTransErrWifi)
    case 0xA3 => Wrappers.Some(FileTransRptWifi)
    case 0xA4 => Wrappers.Some(FileTransReqCell)
    case 0xA5 => Wrappers.Some(FileTransRptCell)
    case 0xF0 => Wrappers.Some(Play)
    case 0xF1 => Wrappers.Some(Pause)
    case 0xF2 => Wrappers.Some(Next)
    case 0xF3 => Wrappers.Some(Previous)
    case 0xF4 => Wrappers.Some(Volume)
    case 0xF5 => Wrappers.Some(FastForward)
    case 0xF6 => Wrappers.Some(FastBackward)
    case 0xF7 => Wrappers.Some(PlayIndex)
    case 0xF8 => Wrappers.Some(ReadFilesList)
    case 0xF9 => Wrappers.Some(DeleteFile)
    case _ => Wrappers.None
  }

  /** The values the enum declares. */
  const DefinedCodes: set<int> :=
    {0xFF, 0x00, 0x01, 0x02, 0x10, 0x11, 0x20, 0x21, 0x22, 0x23, 0x24, 0x25, 0x87,
     0xA0, 0xA1, 0xA2, 0xA3, 0xA4, 0xA5,
     0xF0, 0xF1, 0xF2, 0xF3, 0xF4, 0xF5, 0xF6, 0xF7, 0xF8, 0xF9}

  predicate IsDefined(b: byte)
  {
    FromCode(b).Some?
  }

  /** Every member's value is recognised again and names that member. */
  lemma CodeRoundTrip(c: Command)
    ensures FromCode(Code(c)) == Wrappers.Some(c)
  {
  }

  /** A recognised byte is exactly the value of the member it names. */
  lemma FromCodeSound(b: byte)
    ensures FromCode(b).Some? ==> Code(FromCode(b).value) == b
  {
  }

  /** The bytes `Enum.IsDefined` accepts are exactly the values the enum declares. */
  lemma DefinedExactly(b: byte)
    ensures IsDefined(b) <==> b in DefinedCodes
  {
  }

  /** All enum values are pairwise distinct. */
  lemma CodesDistinct(c1: Command, c2: Command)
    ensures Code(c1) == Code(c2) ==> c1 == c2
  {
    CodeRoundTrip(c1);
    CodeRoundTrip(c2);
  }

  /** The codes the send messages and the cron protocol rely on. */
  lemma KnownCodes()
    ensures Code(Login) == 0x01 && Code(Heartbeat) == 0x02
    ensures Code(CronCount) == 0x87 && Code(SetTimingAlarm) == 0x23
    ensures Code(None) == 0xFF && IsDefined(0xFF)
  {
  }

  /** Bytes between the declared groups name no member. */
  lemma GapsUndefined(b: byte)
    requires 0x03 <= b <= 0x0F || 0x12 <= b <= 0x1F || 0x26 <= b <= 0x86 || 0x88 <= b <= 0x9F
          || 0xA6 <= b <= 0xEF || 0xFA <= b <= 0xFE
    ensures !IsDefined(b)
  {
  }
}
