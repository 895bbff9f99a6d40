/** `System.Threading.Timer` handles as values: the callback, thread pool and clock stay outside
    the model; a handle records its first due time and period, and whether it was disposed. */
module Timers {
  /** `Timeout.Infinite`: as a period, a one-shot timer. */
  const InfiniteMs := -1

  datatype TimerHandle =
    | NoTimer
    | Armed(dueMs: int, periodMs: int)
    | Disposed(dueMs: int, periodMs: int)

  /** `timer?.Dispose()`: an absent handle stays absent, an armed one stops, a disposed one stays so. */
  function Dispose(t: TimerHandle): (r: TimerHandle)
    ensures t.NoTimer? <==> r.NoTimer?
    ensures !r.Armed?
    ensures t.Armed? ==> r == Disposed(t.dueMs, t.periodMs)
    ensures !t.Armed? ==> r == t
  {
    match t
    case Armed(d, p) => Disposed(d, p)
    case _ => t
  }
}
