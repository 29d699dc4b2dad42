/**
 * The values MemoryManager works with and the effect log through which every
 * collaborator call is observed: delegate invocations, bundle loads and
 * unloads, global events, cache clears and error logs.
 */
module Effects {

  /** The unsigned 32-bit byte counts the memory profiler reports. */
  newtype uint32 = x: int | 0 <= x < 0x1_0000_0000

  /** One subscriber of the load-progress delegate, as an opaque handle. */
  datatype Callback = Callback(id: nat)

  /**
   * A progress value kept exactly, as the fraction num/den of two counts;
   * Value gives the floating-point number it stands for.
   */
  datatype Fraction = Fraction(num: nat, den: nat)

  function Value(f: Fraction): real
  {
    if f.den == 0 then 0.0 else f.num as real / f.den as real
  }

  /** The progress value a load-progress callback receives. */
  datatype LoadState = LoadState(isDone: bool, progress: Fraction)

  /** The shared sentinel reported when loading has finished: done, progress 1. */
  const CompleteState := LoadState(true, Fraction(1, 1))

  /** The two kinds of global memory notification. */
  datatype MemoryEvent = FreeHeapMemory | FreeMemory

  /** What an error log line reports. */
  datatype LogMessage =
    | LoadFinishCallBackError
    | TotalMemoryAlarm(totalAllocatedMB: real)
    | HeapMemoryAlarm(monoUsedMB: real)

  /** One observable call out of MemoryManager. */
  datatype Effect =
    | Invoke(subscribers: seq<Callback>, state: LoadState)  // the progress delegate is called
    | LoadBundleAsync(bundleName: string)
    | UnLoadBundle(bundleName: string)
    | DispatchEvent(event: MemoryEvent)
    | CleanPool
    | DestroyAllHideUI
    | DataCleanCatch
    | ConfigCleanCatch
    | RecordCleanCatch
    | LogError(message: LogMessage)

  /** An effect that asks a collaborator to release memory. */
  predicate IsReclamation(e: Effect)
  {
    e.DispatchEvent? || e.CleanPool? || e.DestroyAllHideUI? ||
    e.DataCleanCatch? || e.ConfigCleanCatch? || e.RecordCleanCatch?
  }

  /** The effects of FreeHeapMemory: the notification first, then the three caches. */
  function FreeHeapMemoryTrace(): seq<Effect>
  {
    [DispatchEvent(MemoryEvent.FreeHeapMemory), DataCleanCatch, ConfigCleanCatch, RecordCleanCatch]
  }

  /** The effects of FreeMemory: its notification, the pool, the hidden UI, then FreeHeapMemory. */
  function FreeMemoryTrace(): seq<Effect>
  {
    [DispatchEvent(MemoryEvent.FreeMemory), CleanPool, DestroyAllHideUI] + FreeHeapMemoryTrace()
  }

  /** Number of occurrences of `e` in `log`. */
  function Count(log: seq<Effect>, e: Effect): nat
  {
    if log == [] then 0 else (if log[0] == e then 1 else 0) + Count(log[1..], e)
  }

  lemma {:induction false} CountAppend(a: seq<Effect>, b: seq<Effect>, e: Effect)
    ensures Count(a + b, e) == Count(a, e) + Count(b, e)
  {
    if a == [] {
      assert a + b == b;
    } else {
      assert (a + b)[1..] == a[1..] + b;
      CountAppend(a[1..], b, e);
    }
  }

  /** The full cascade carries exactly one FreeMemory notification, and the heap cascade none. */
  lemma FreeMemoryTraceCounts()
    ensures Count(FreeMemoryTrace(), DispatchEvent(MemoryEvent.FreeMemory)) == 1
    ensures Count(FreeHeapMemoryTrace(), DispatchEvent(MemoryEvent.FreeMemory)) == 0
    ensures forall i :: 0 <= i < |FreeMemoryTrace()| ==> IsReclamation(FreeMemoryTrace()[i])
  {
    var h := FreeHeapMemoryTrace();
    assert Count(h[3..], DispatchEvent(MemoryEvent.FreeMemory)) == 0;
    assert Count(h[2..], DispatchEvent(MemoryEvent.FreeMemory)) == 0;
    assert Count(h[1..], DispatchEvent(MemoryEvent.FreeMemory)) == 0;
    CountAppend([DispatchEvent(MemoryEvent.FreeMemory), CleanPool, DestroyAllHideUI], h,
                DispatchEvent(MemoryEvent.FreeMemory));
  }
}
