/**
 * The memory threshold monitor of MemoryManager as values: two tiers, each a
 * pair of flags remembering whether its soft level (70% of the limit) and
 * its hard level (the limit) were already crossed, so that reclamation and
 * alarms fire on the transition into a state and not on every sample.
 */
module MemoryMonitor {
  import opened Effects

  datatype Flags = Flags(
    isFreeMemory: bool,       // total tier above its soft level
    isFreeMemory2: bool,      // total tier above its hard level
    isFreeHeapMemory: bool,   // heap tier above its soft level
    isFreeHeapMemory2: bool)  // heap tier above its hard level

  const Cleared := Flags(false, false, false, false)

  /** One reading of the profiler's counters, in bytes. */
  datatype Sample = Sample(
    totalReserved: uint32,
    monoHeapSize: uint32,
    monoUsed: uint32,
    totalAllocated: uint32)

  /** Bytes to megabytes, exactly. */
  function ByteToM(byteCount: uint32): (mb: real)
    ensures mb >= 0.0
    ensures mb * 1048576.0 == byteCount as int as real
  {
    byteCount as int as real / 1048576.0
  }

  predicate AboveSoft(mb: real, limit: int)
  {
    mb > limit as real * 0.7
  }

  predicate AboveHard(mb: real, limit: int)
  {
    mb > limit as real
  }

  /** The soft level of the total tier, on reserved memory. */
  predicate TotalSoft(s: Sample, maxMemoryUse: int)
  {
    AboveSoft(ByteToM(s.totalReserved), maxMemoryUse)
  }

  /** The hard level of the total tier, on the mono heap size. */
  predicate TotalHard(s: Sample, maxMemoryUse: int)
  {
    AboveHard(ByteToM(s.monoHeapSize), maxMemoryUse)
  }

  predicate HeapSoft(s: Sample, maxHeapMemoryUse: int)
  {
    AboveSoft(ByteToM(s.monoUsed), maxHeapMemoryUse)
  }

  predicate HeapHard(s: Sample, maxHeapMemoryUse: int)
  {
    AboveHard(ByteToM(s.monoUsed), maxHeapMemoryUse)
  }

  datatype TierStep = TierStep(high: bool, critical: bool, effects: seq<Effect>)

  function CountFree(log: seq<Effect>): nat
  {
    Count(log, DispatchEvent(MemoryEvent.FreeMemory))
  }

  function CountAlarms(log: seq<Effect>): nat
  {
    if log == [] then 0
    else (if log[0].LogError? && log[0].message.TotalMemoryAlarm? then 1 else 0) + CountAlarms(log[1..])
  }

  lemma {:induction false} CountAlarmsAppend(a: seq<Effect>, b: seq<Effect>)
    ensures CountAlarms(a + b) == CountAlarms(a) + CountAlarms(b)
  {
    if a == [] {
      assert a + b == b;
    } else {
      assert (a + b)[1..] == a[1..] + b;
      CountAlarmsAppend(a[1..], b);
    }
  }

  lemma FreeMemoryTraceAlarms()
    ensures CountAlarms(FreeMemoryTrace()) == 0
  {
    var t := FreeMemoryTrace();
    assert CountAlarms(t[7..]) == 0;
    assert CountAlarms(t[6..]) == 0;
    assert CountAlarms(t[5..]) == 0;
    assert CountAlarms(t[4..]) == 0;
    assert CountAlarms(t[3..]) == 0;
    assert CountAlarms(t[2..]) == 0;
    assert CountAlarms(t[1..]) == 0;
  }

  /**
   * The total tier of MonitorMemorySize. Above the soft level a first
   * crossing runs FreeMemory; a first crossing of the hard level then runs
   * FreeMemory again and logs an alarm with the allocated memory, and the
   * hard flag clears when the hard level is not exceeded. At or below the
   * soft level only the soft flag clears.
   */
  function TotalTier(high: bool, critical: bool, s: Sample, maxMemoryUse: int): (r: TierStep)
    ensures r.high == TotalSoft(s, maxMemoryUse)
    ensures r.critical == if TotalSoft(s, maxMemoryUse) then TotalHard(s, maxMemoryUse) else critical
  {
    if TotalSoft(s, maxMemoryUse) then
      var soft := if !high then FreeMemoryTrace() else [];
      var hard :=
        if TotalHard(s, maxMemoryUse) then
          if !critical then FreeMemoryTrace() + [LogError(TotalMemoryAlarm(ByteToM(s.totalAllocated)))]
          else []
        else [];
      TierStep(true, TotalHard(s, maxMemoryUse), soft + hard)
    else
      TierStep(false, critical, [])
  }

  /**
   * The total tier runs FreeMemory once for a first crossing of the soft
   * level and once more, with one alarm, for a first crossing of the hard
   * level; otherwise it neither frees nor alarms.
   */
  lemma TotalTierCounts(high: bool, critical: bool, s: Sample, maxMemoryUse: int)
    ensures var r := TotalTier(high, critical, s, maxMemoryUse);
      && CountFree(r.effects) ==
           (if TotalSoft(s, maxMemoryUse) && !high then 1 else 0) +
           (if TotalSoft(s, maxMemoryUse) && TotalHard(s, maxMemoryUse) && !critical then 1 else 0)
      && CountAlarms(r.effects) ==
           (if TotalSoft(s, maxMemoryUse) && TotalHard(s, maxMemoryUse) && !critical then 1 else 0)
  {
    if TotalSoft(s, maxMemoryUse) {
      var soft := if !high then FreeMemoryTrace() else [];
      var hard :=
        if TotalHard(s, maxMemoryUse) then
          if !critical then FreeMemoryTrace() + [LogError(TotalMemoryAlarm(ByteToM(s.totalAllocated)))]
          else []
        else [];
      assert TotalTier(high, critical, s, maxMemoryUse).effects == soft + hard;
      FreeMemoryTraceCounted(soft, hard, s);
    }
  }

  /** Counting lemma for the pieces the total tier emits. */
  lemma FreeMemoryTraceCounted(soft: seq<Effect>, hard: seq<Effect>, s: Sample)
    requires soft == [] || soft == FreeMemoryTrace()
    requires hard == [] || hard == FreeMemoryTrace() + [LogError(TotalMemoryAlarm(ByteToM(s.totalAllocated)))]
    ensures CountFree(soft + hard) == (if soft == [] then 0 else 1) + (if hard == [] then 0 else 1)
    ensures CountAlarms(soft + hard) == (if hard == [] then 0 else 1)
  {
    FreeMemoryTraceCounts();
    FreeMemoryTraceAlarms();
    var alarm := [LogError(TotalMemoryAlarm(ByteToM(s.totalAllocated)))];
    assert CountAlarms(alarm) == 1 by {
      assert alarm[1..] == [];
    }
    assert Count(alarm, DispatchEvent(MemoryEvent.FreeMemory)) == 0 by {
      assert alarm[1..] == [];
    }
    CountAppend(FreeMemoryTrace(), alarm, DispatchEvent(MemoryEvent.FreeMemory));
    CountAlarmsAppend(FreeMemoryTrace(), alarm);
    CountAppend(soft, hard, DispatchEvent(MemoryEvent.FreeMemory));
    CountAlarmsAppend(soft, hard);
  }

  /**
   * The heap tier of MonitorMemorySize: the same flag discipline on the mono
   * used size, but it never reclaims anything; a first crossing of the hard
   * level only logs an alarm with the used size.
   */
  function HeapTier(high: bool, critical: bool, s: Sample, maxHeapMemoryUse: int): (r: TierStep)
    ensures r.high == HeapSoft(s, maxHeapMemoryUse)
    ensures r.critical == if HeapSoft(s, maxHeapMemoryUse) then HeapHard(s, maxHeapMemoryUse) else critical
    ensures |r.effects| == (if HeapSoft(s, maxHeapMemoryUse) && HeapHard(s, maxHeapMemoryUse) && !critical then 1 else 0)
    ensures forall i :: 0 <= i < |r.effects| ==>
              r.effects[i] == LogError(HeapMemoryAlarm(ByteToM(s.monoUsed)))
  {
    if HeapSoft(s, maxHeapMemoryUse) then
      var alarm :=
        if HeapHard(s, maxHeapMemoryUse) then
          if !critical then [LogError(HeapMemoryAlarm(ByteToM(s.monoUsed)))] else []
        else [];
      TierStep(true, HeapHard(s, maxHeapMemoryUse), alarm)
    else
      TierStep(false, critical, [])
  }

  datatype MonitorStep = MonitorStep(flags: Flags, effects: seq<Effect>)

  /** MonitorMemorySize: the total tier, then the heap tier. */
  function Monitor(f: Flags, s: Sample, maxMemoryUse: int, maxHeapMemoryUse: int): (r: MonitorStep)
  {
    var total := TotalTier(f.isFreeMemory, f.isFreeMemory2, s, maxMemoryUse);
    var heap := HeapTier(f.isFreeHeapMemory, f.isFreeHeapMemory2, s, maxHeapMemoryUse);
    MonitorStep(Flags(total.high, total.critical, heap.high, heap.critical), total.effects + heap.effects)
  }

  /** Only the total tier frees memory or raises total-memory alarms. */
  lemma MonitorCounts(f: Flags, s: Sample, maxMemoryUse: int, maxHeapMemoryUse: int)
    ensures var r := Monitor(f, s, maxMemoryUse, maxHeapMemoryUse);
      var total := TotalTier(f.isFreeMemory, f.isFreeMemory2, s, maxMemoryUse);
      CountFree(r.effects) == CountFree(total.effects) && CountAlarms(r.effects) == CountAlarms(total.effects)
  {
    var total := TotalTier(f.isFreeMemory, f.isFreeMemory2, s, maxMemoryUse);
    var heap := HeapTier(f.isFreeHeapMemory, f.isFreeHeapMemory2, s, maxHeapMemoryUse);
    HeapTierSilent(heap.effects, s);
    CountAppend(total.effects, heap.effects, DispatchEvent(MemoryEvent.FreeMemory));
    CountAlarmsAppend(total.effects, heap.effects);
  }

  /**
   * The effects of one sample are those of the total tier followed by at
   * most one more, which reclaims nothing; the flags are the two tiers'.
   */
  lemma MonitorHeapTierDoesNotReclaim(f: Flags, s: Sample, maxMemoryUse: int, maxHeapMemoryUse: int)
    ensures var r := Monitor(f, s, maxMemoryUse, maxHeapMemoryUse);
      var total := TotalTier(f.isFreeMemory, f.isFreeMemory2, s, maxMemoryUse);
      var n := |total.effects|;
      && n <= |r.effects| <= n + 1
      && r.effects[..n] == total.effects
      && (forall i :: n <= i < |r.effects| ==> !IsReclamation(r.effects[i]))
      && r.flags.isFreeMemory == total.high && r.flags.isFreeMemory2 == total.critical
  {
    var total := TotalTier(f.isFreeMemory, f.isFreeMemory2, s, maxMemoryUse);
    var heap := HeapTier(f.isFreeHeapMemory, f.isFreeHeapMemory2, s, maxHeapMemoryUse);
    AppendKeepsPrefix(total.effects, heap.effects);
  }

  lemma AppendKeepsPrefix(a: seq<Effect>, b: seq<Effect>)
    requires forall i :: 0 <= i < |b| ==> !IsReclamation(b[i])
    ensures (a + b)[..|a|] == a
    ensures forall i :: |a| <= i < |a + b| ==> !IsReclamation((a + b)[i])
  {
    assert forall i :: |a| <= i < |a + b| ==> (a + b)[i] == b[i - |a|];
  }

  lemma HeapTierSilent(e: seq<Effect>, s: Sample)
    requires |e| <= 1 && forall i :: 0 <= i < |e| ==> e[i] == LogError(HeapMemoryAlarm(ByteToM(s.monoUsed)))
    ensures CountFree(e) == 0 && CountAlarms(e) == 0
  {
    if |e| == 1 {
      assert e[1..] == [];
    }
  }

  /** A run of MonitorMemorySize over successive samples. */
  function MonitorRun(f: Flags, samples: seq<Sample>, maxMemoryUse: int, maxHeapMemoryUse: int): (r: MonitorStep)
    decreases |samples|
  {
    if samples == [] then MonitorStep(f, [])
    else
      var s := Monitor(f, samples[0], maxMemoryUse, maxHeapMemoryUse);
      var t := MonitorRun(s.flags, samples[1..], maxMemoryUse, maxHeapMemoryUse);
      MonitorStep(t.flags, s.effects + t.effects)
  }

  /** The rising edges of the total tier's hard level, starting from a previous state. */
  function HardEdges(previous: bool, samples: seq<Sample>, maxMemoryUse: int): nat
    decreases |samples|
  {
    if samples == [] then 0
    else
      var now := TotalHard(samples[0], maxMemoryUse);
      (if now && !previous then 1 else 0) + HardEdges(now, samples[1..], maxMemoryUse)
  }

  /**
   * While reserved memory stays above the soft level, FreeMemory runs once
   * for the crossing (none if the flag was already set) plus once for each
   * rising edge of the hard level, and each such edge logs one alarm.
   */
  lemma {:induction false} SustainedHighFreesOncePerEdge(f: Flags, samples: seq<Sample>, maxMemoryUse: int, maxHeapMemoryUse: int)
    requires samples != []
    requires forall i :: 0 <= i < |samples| ==> TotalSoft(samples[i], maxMemoryUse)
    ensures var r := MonitorRun(f, samples, maxMemoryUse, maxHeapMemoryUse);
      && CountFree(r.effects) == (if f.isFreeMemory then 0 else 1) + HardEdges(f.isFreeMemory2, samples, maxMemoryUse)
      && CountAlarms(r.effects) == HardEdges(f.isFreeMemory2, samples, maxMemoryUse)
      && r.flags.isFreeMemory
    decreases |samples|
  {
    var s := Monitor(f, samples[0], maxMemoryUse, maxHeapMemoryUse);
    var t := MonitorRun(s.flags, samples[1..], maxMemoryUse, maxHeapMemoryUse);
    HighSample(f, samples[0], maxMemoryUse, maxHeapMemoryUse);
    CountAppend(s.effects, t.effects, DispatchEvent(MemoryEvent.FreeMemory));
    CountAlarmsAppend(s.effects, t.effects);
    if |samples| > 1 {
      SustainedHighFreesOncePerEdge(s.flags, samples[1..], maxMemoryUse, maxHeapMemoryUse);
    }
  }

  /** One sample above the soft level: freeing and alarms as the flags and the hard level say. */
  lemma HighSample(f: Flags, s: Sample, maxMemoryUse: int, maxHeapMemoryUse: int)
    requires TotalSoft(s, maxMemoryUse)
    ensures var m := Monitor(f, s, maxMemoryUse, maxHeapMemoryUse);
      var edge := if TotalHard(s, maxMemoryUse) && !f.isFreeMemory2 then 1 else 0;
      && CountFree(m.effects) == (if f.isFreeMemory then 0 else 1) + edge
      && CountAlarms(m.effects) == edge
      && m.flags.isFreeMemory && m.flags.isFreeMemory2 == TotalHard(s, maxMemoryUse)
  {
    MonitorCounts(f, s, maxMemoryUse, maxHeapMemoryUse);
    TotalTierCounts(f.isFreeMemory, f.isFreeMemory2, s, maxMemoryUse);
  }

  /** With the hard level never exceeded, a sustained excursion above soft frees exactly once. */
  lemma SustainedHighFreesOnce(samples: seq<Sample>, maxMemoryUse: int, maxHeapMemoryUse: int)
    requires samples != []
    requires forall i :: 0 <= i < |samples| ==> TotalSoft(samples[i], maxMemoryUse) && !TotalHard(samples[i], maxMemoryUse)
    ensures CountFree(MonitorRun(Cleared, samples, maxMemoryUse, maxHeapMemoryUse).effects) == 1
    ensures CountAlarms(MonitorRun(Cleared, samples, maxMemoryUse, maxHeapMemoryUse).effects) == 0
  {
    SustainedHighFreesOncePerEdge(Cleared, samples, maxMemoryUse, maxHeapMemoryUse);
    NoHardNoEdges(false, samples, maxMemoryUse);
  }

  lemma {:induction false} NoHardNoEdges(previous: bool, samples: seq<Sample>, maxMemoryUse: int)
    requires forall i :: 0 <= i < |samples| ==> !TotalHard(samples[i], maxMemoryUse)
    ensures HardEdges(previous, samples, maxMemoryUse) == 0
    decreases |samples|
  {
    if samples != [] {
      NoHardNoEdges(false, samples[1..], maxMemoryUse);
    }
  }

  /** Falling to or below the soft level re-arms the soft trigger: the next crossing frees again. */
  lemma DropBelowSoftRearms(f: Flags, low: Sample, high: Sample, maxMemoryUse: int, maxHeapMemoryUse: int)
    requires !TotalSoft(low, maxMemoryUse) && TotalSoft(high, maxMemoryUse)
    ensures var f1 := Monitor(f, low, maxMemoryUse, maxHeapMemoryUse).flags;
      && !f1.isFreeMemory && f1.isFreeMemory2 == f.isFreeMemory2
      && CountFree(Monitor(f1, high, maxMemoryUse, maxHeapMemoryUse).effects) >= 1
  {
    var f1 := Monitor(f, low, maxMemoryUse, maxHeapMemoryUse).flags;
    MonitorCounts(f1, high, maxMemoryUse, maxHeapMemoryUse);
    TotalTierCounts(f1.isFreeMemory, f1.isFreeMemory2, high, maxMemoryUse);
  }

  /**
   * The hard flag of the total tier is cleared only by a sample above soft
   * and not above hard: an excursion over the limit, a drop below soft and a
   * second excursion over the limit log a single alarm between them.
   */
  lemma HardFlagSurvivesDropBelowSoft(critical: Sample, low: Sample, maxMemoryUse: int, maxHeapMemoryUse: int)
    requires TotalSoft(critical, maxMemoryUse) && TotalHard(critical, maxMemoryUse)
    requires !TotalSoft(low, maxMemoryUse)
    ensures var r := MonitorRun(Cleared, [critical, low, critical], maxMemoryUse, maxHeapMemoryUse);
      CountAlarms(r.effects) == 1 && CountFree(r.effects) == 3
  {
    var s1 := Monitor(Cleared, critical, maxMemoryUse, maxHeapMemoryUse);
    var s2 := Monitor(s1.flags, low, maxMemoryUse, maxHeapMemoryUse);
    var s3 := Monitor(s2.flags, critical, maxMemoryUse, maxHeapMemoryUse);
    MonitorCounts(Cleared, critical, maxMemoryUse, maxHeapMemoryUse);
    TotalTierCounts(false, false, critical, maxMemoryUse);
    MonitorCounts(s1.flags, low, maxMemoryUse, maxHeapMemoryUse);
    TotalTierCounts(s1.flags.isFreeMemory, s1.flags.isFreeMemory2, low, maxMemoryUse);
    MonitorCounts(s2.flags, critical, maxMemoryUse, maxHeapMemoryUse);
    TotalTierCounts(s2.flags.isFreeMemory, s2.flags.isFreeMemory2, critical, maxMemoryUse);
    var run := [critical, low, critical];
    assert run[1..] == [low, critical] && run[1..][1..] == [critical] && run[1..][1..][1..] == [];
    assert MonitorRun(s2.flags, [critical], maxMemoryUse, maxHeapMemoryUse).effects == s3.effects + [];
    assert s3.effects + [] == s3.effects;
    CountAppend(s2.effects, s3.effects, DispatchEvent(MemoryEvent.FreeMemory));
    CountAlarmsAppend(s2.effects, s3.effects);
    CountAppend(s1.effects, s2.effects + s3.effects, DispatchEvent(MemoryEvent.FreeMemory));
    CountAlarmsAppend(s1.effects, s2.effects + s3.effects);
  }
}
