/**
 * MemoryManager itself: the static state of the source as the fields of one
 * object, and its operations as methods that update those fields in place
 * and append their collaborator calls to an effect log. Each method is
 * proved against the value-level specifications in LoadQueue and
 * MemoryMonitor, whose properties are proved there.
 */
module Governor {
  import opened Effects
  import LoadQueue
  import MemoryMonitor

  class MemoryManager {
    // configuration
    var allowDynamicLoad: bool
    var maxMemoryUse: int
    var maxHeapMemoryUse: int

    // resource load queue
    var loadCount: int
    var isLoading: bool
    var loadList: seq<string>
    var loadCallBack: seq<Callback>  // the delegate's invocation list; [] is null
    var loadStatus: LoadState

    // memory monitor
    var isFreeMemory: bool
    var isFreeMemory2: bool
    var isFreeHeapMemory: bool
    var isFreeHeapMemory2: bool

    /** Every collaborator call, in the order it was made. */
    var log: seq<Effect>

    ghost function Queue(): LoadQueue.Queue
      reads this
    {
      LoadQueue.Queue(loadList, loadCount, isLoading, loadCallBack, loadStatus)
    }

    ghost function Flags(): MemoryMonitor.Flags
      reads this
    {
      MemoryMonitor.Flags(isFreeMemory, isFreeMemory2, isFreeHeapMemory, isFreeHeapMemory2)
    }

    ghost predicate Valid()
      reads this
    {
      LoadQueue.Inv(Queue())
    }

    /** The static initialisers: limits of 170 and 50 megabytes, an empty idle queue, all flags clear. */
    constructor ()
      ensures Valid() && log == []
      ensures Queue() == LoadQueue.Initial && Flags() == MemoryMonitor.Cleared
      ensures allowDynamicLoad && maxMemoryUse == 170 && maxHeapMemoryUse == 50
    {
      allowDynamicLoad := true;
      maxMemoryUse := 170;
      maxHeapMemoryUse := 50;
      loadCount := 0;
      isLoading := false;
      loadList := [];
      loadCallBack := [];
      loadStatus := LoadState(false, Fraction(0, 1));
      isFreeMemory, isFreeMemory2 := false, false;
      isFreeHeapMemory, isFreeHeapMemory2 := false, false;
      log := [];
    }

    /** FreeHeapMemory: notify, then clear the data, config and record caches. */
    method FreeHeapMemory()
      modifies this`log
      ensures log == old(log) + FreeHeapMemoryTrace()
    {
      log := log + [DispatchEvent(MemoryEvent.FreeHeapMemory)];
      log := log + [DataCleanCatch];
      log := log + [ConfigCleanCatch];
      log := log + [RecordCleanCatch];
    }

    /** FreeMemory: notify, clear the object pool and hidden UI, then FreeHeapMemory. */
    method FreeMemory()
      modifies this`log
      ensures log == old(log) + FreeMemoryTrace()
    {
      log := log + [DispatchEvent(MemoryEvent.FreeMemory)];
      log := log + [CleanPool];
      log := log + [DestroyAllHideUI];
      FreeHeapMemory();
    }

    /** LoadRes; `resourceMode` is whether the game loads from Resources rather than bundles. */
    method LoadRes(resourceMode: bool, resList: seq<string>, callBack: Callback)
      requires Valid()
      modifies this`loadCallBack, this`loadList, this`loadCount, this`log
      ensures Valid()
      ensures Queue() == LoadQueue.LoadRes(old(Queue()), resourceMode, resList, callBack).queue
      ensures log == old(log) + LoadQueue.LoadRes(old(Queue()), resourceMode, resList, callBack).effects
    {
      if resourceMode {
        log := log + [Invoke([callBack], CompleteState)];
      } else {
        loadCallBack := loadCallBack + [callBack];
        loadList := loadList + resList;
        loadCount := loadCount + |resList|;
      }
    }

    /** UnLoadRes: one unload request per bundle, in order, unless in Resource mode. */
    method UnLoadRes(resourceMode: bool, resList: seq<string>)
      modifies this`log
      ensures log == old(log) + (if resourceMode then [] else LoadQueue.UnLoadTrace(resList))
    {
      if !resourceMode {
        for i := 0 to |resList|
          invariant log == old(log) + LoadQueue.UnLoadTrace(resList[..i])
        {
          assert resList[..i + 1] == resList[..i] + [resList[i]];
          UnLoadTraceAppend(resList[..i], resList[i]);
          log := log + [UnLoadBundle(resList[i])];
        }
        assert resList[..|resList|] == resList;
      }
    }

    /** One tick of the load queue; `callBackFails` is whether the progress callback throws. */
    method LoadResources(callBackFails: bool)
      requires Valid()
      modifies this`loadCallBack, this`loadList, this`loadCount, this`isLoading, this`loadStatus, this`log
      ensures Valid()
      ensures Queue() == LoadQueue.LoadResources(LoadQueue.AsWritten, old(Queue()), callBackFails).queue
      ensures log == old(log) + LoadQueue.LoadResources(LoadQueue.AsWritten, old(Queue()), callBackFails).effects
    {
      if !isLoading {
        if |loadList| == 0 {
          if loadCallBack != [] {
            log := log + [Invoke(loadCallBack, CompleteState)];
            if callBackFails {
              log := log + [LogError(LoadFinishCallBackError)];
            }
            loadCallBack := [];
            loadCount := 0;
          }
        } else {
          log := log + [LoadBundleAsync(loadList[0])];
          loadList := loadList[1..];
          isLoading := true;
          loadStatus := LoadState(false, LoadQueue.ReportedProgress(LoadQueue.AsWritten, |loadList|, loadCount));
          log := log + [Invoke(loadCallBack, loadStatus)];
          if callBackFails {
            log := log + [LogError(LoadFinishCallBackError)];
          }
        }
      }
    }

    /** The loader's completion callback; the loaded bundle is ignored. */
    method LoadResourcesFinishCallBack(state: LoadState)
      requires Valid()
      modifies this`isLoading
      ensures Valid()
      ensures Queue() == LoadQueue.LoadResourcesFinishCallBack(old(Queue()), state)
    {
      if state.isDone {
        isLoading := false;
      }
    }

    /** MonitorMemorySize over one profiler sample: the total tier, then the heap tier. */
    method MonitorMemorySize(sample: MemoryMonitor.Sample)
      modifies this`isFreeMemory, this`isFreeMemory2, this`isFreeHeapMemory, this`isFreeHeapMemory2, this`log
      ensures Flags() == MemoryMonitor.Monitor(old(Flags()), sample, maxMemoryUse, maxHeapMemoryUse).flags
      ensures log == old(log) + MemoryMonitor.Monitor(old(Flags()), sample, maxMemoryUse, maxHeapMemoryUse).effects
    {
      MonitorTotalMemory(sample);
      MonitorHeapMemory(sample);
    }

    /** The first half of MonitorMemorySize: reserved memory against the soft level, mono heap size against the hard one. */
    method MonitorTotalMemory(sample: MemoryMonitor.Sample)
      modifies this`isFreeMemory, this`isFreeMemory2, this`log
      ensures var r := MemoryMonitor.TotalTier(old(isFreeMemory), old(isFreeMemory2), sample, maxMemoryUse);
        isFreeMemory == r.high && isFreeMemory2 == r.critical && log == old(log) + r.effects
    {
      if MemoryMonitor.TotalSoft(sample, maxMemoryUse) {
        if !isFreeMemory {
          isFreeMemory := true;
          FreeMemory();
        }
        if MemoryMonitor.TotalHard(sample, maxMemoryUse) {
          if !isFreeMemory2 {
            isFreeMemory2 := true;
            FreeMemory();
            log := log + [LogError(TotalMemoryAlarm(MemoryMonitor.ByteToM(sample.totalAllocated)))];
          }
        } else {
          isFreeMemory2 := false;
        }
      } else {
        isFreeMemory := false;
      }
    }

    /** The second half of MonitorMemorySize: the mono used size against both levels. */
    method MonitorHeapMemory(sample: MemoryMonitor.Sample)
      modifies this`isFreeHeapMemory, this`isFreeHeapMemory2, this`log
      ensures var r := MemoryMonitor.HeapTier(old(isFreeHeapMemory), old(isFreeHeapMemory2), sample, maxHeapMemoryUse);
        isFreeHeapMemory == r.high && isFreeHeapMemory2 == r.critical && log == old(log) + r.effects
    {
      if MemoryMonitor.HeapSoft(sample, maxHeapMemoryUse) {
        if !isFreeHeapMemory {
          isFreeHeapMemory := true;
        }
        if MemoryMonitor.HeapHard(sample, maxHeapMemoryUse) {
          if !isFreeHeapMemory2 {
            isFreeHeapMemory2 := true;
            log := log + [LogError(HeapMemoryAlarm(MemoryMonitor.ByteToM(sample.monoUsed)))];
          }
        } else {
          isFreeHeapMemory2 := false;
        }
      } else {
        isFreeHeapMemory := false;
      }
    }

    /** Update, once per frame: the load queue first, then the memory monitor. */
    method Update(callBackFails: bool, sample: MemoryMonitor.Sample)
      requires Valid()
      modifies this`loadCallBack, this`loadList, this`loadCount, this`isLoading, this`loadStatus
      modifies this`isFreeMemory, this`isFreeMemory2, this`isFreeHeapMemory, this`isFreeHeapMemory2, this`log
      ensures Valid()
      ensures Queue() == LoadQueue.LoadResources(LoadQueue.AsWritten, old(Queue()), callBackFails).queue
      ensures Flags() == MemoryMonitor.Monitor(old(Flags()), sample, maxMemoryUse, maxHeapMemoryUse).flags
      ensures log == old(log)
                     + LoadQueue.LoadResources(LoadQueue.AsWritten, old(Queue()), callBackFails).effects
                     + MemoryMonitor.Monitor(old(Flags()), sample, maxMemoryUse, maxHeapMemoryUse).effects
    {
      LoadResources(callBackFails);
      MonitorMemorySize(sample);
    }
  }

  lemma UnLoadTraceAppend(done: seq<string>, next: string)
    ensures LoadQueue.UnLoadTrace(done + [next]) == LoadQueue.UnLoadTrace(done) + [UnLoadBundle(next)]
  {
    var a := LoadQueue.UnLoadTrace(done + [next]);
    var b := LoadQueue.UnLoadTrace(done) + [UnLoadBundle(next)];
    assert |a| == |b|;
    forall i | 0 <= i < |a| ensures a[i] == b[i] {
      if i < |done| {
        assert (done + [next])[i] == done[i];
      }
    }
  }
}
