/** The aggregation behind the query metrics panels (getEventMetrics, identical in
    src/components/QueryMetricsPanel.tsx and src/components/UnifiedMetricsPanel.tsx) and
    the choice of the events whose statistics the unified panel shows. */
module MetricsPanel {
  import opened Common
  import opened ApiTypes

  /** The metrics object: a key is None where the code leaves it unset. */
  datatype EventMetrics = EventMetrics(
    cpuTime: Option<int>,
    wallTime: Option<int>,
    queuedTime: Option<int>,
    peakMemory: Option<int>,
    totalRows: Option<int>,
    totalBytes: Option<int>,
    completedSplits: Option<int>,
    catalogs: Option<seq<string>>,
    schemas: Option<seq<string>>)

  // ---------------------------------------------------------------------------
  // The accumulations, one event at a time

  /** The sum of the truthy values. */
  function SumTruthy(vs: seq<Option<int>>): int {
    if vs == [] then 0
    else SumTruthy(vs[..|vs| - 1]) + if TruthyNum(vs[|vs| - 1]) then vs[|vs| - 1].value else 0
  }

  /** The running maximum of the truthy values, starting from 0. */
  function MaxTruthy(vs: seq<Option<int>>): int {
    if vs == [] then 0
    else
      var m := MaxTruthy(vs[..|vs| - 1]);
      var v := vs[|vs| - 1];
      if TruthyNum(v) && v.value > m then v.value else m
  }

  /** The last truthy value, or 0 when there is none. */
  function LastTruthy(vs: seq<Option<int>>): int {
    if vs == [] then 0
    else if TruthyNum(vs[|vs| - 1]) then vs[|vs| - 1].value
    else LastTruthy(vs[..|vs| - 1])
  }

  /** [...new Set(vs.filter(Boolean))]: the truthy values, each once, in the order of
      their first occurrence. */
  function DistinctTruthy(vs: seq<Option<string>>): seq<string> {
    if vs == [] then []
    else
      var seen := DistinctTruthy(vs[..|vs| - 1]);
      var v := vs[|vs| - 1];
      if TruthyStr(v) && v.value !in seen then seen + [v.value] else seen
  }

  function CpuTimes(events: seq<ApiEvent>): seq<Option<int>> {
    seq(|events|, i requires 0 <= i < |events| => events[i].cpuTimeMs)
  }

  function WallTimes(events: seq<ApiEvent>): seq<Option<int>> {
    seq(|events|, i requires 0 <= i < |events| => events[i].wallTimeMs)
  }

  function QueuedTimes(events: seq<ApiEvent>): seq<Option<int>> {
    seq(|events|, i requires 0 <= i < |events| => events[i].queuedTimeMs)
  }

  function PeakMemories(events: seq<ApiEvent>): seq<Option<int>> {
    seq(|events|, i requires 0 <= i < |events| => events[i].peakMemoryBytes)
  }

  function RowCounts(events: seq<ApiEvent>): seq<Option<int>> {
    seq(|events|, i requires 0 <= i < |events| => events[i].totalRows)
  }

  function ByteCounts(events: seq<ApiEvent>): seq<Option<int>> {
    seq(|events|, i requires 0 <= i < |events| => events[i].totalBytes)
  }

  function SplitCounts(events: seq<ApiEvent>): seq<Option<int>> {
    seq(|events|, i requires 0 <= i < |events| => events[i].completedSplits)
  }

  function Catalogs(events: seq<ApiEvent>): seq<Option<string>> {
    seq(|events|, i requires 0 <= i < |events| => events[i].catalog)
  }

  function Schemas(events: seq<ApiEvent>): seq<Option<string>> {
    seq(|events|, i requires 0 <= i < |events| => events[i].schema)
  }

  /** The seven accumulators of getEventMetrics. */
  datatype Totals = Totals(
    cpuTime: int, wallTime: int, queuedTime: int, maxMemory: int,
    totalRows: int, totalBytes: int, completedSplits: int)

  /** What one event does to the accumulators: the times add up, the memory keeps its
      maximum, and the counts are overwritten by a truthy value. */
  function Step(t: Totals, e: ApiEvent): Totals {
    Totals(
      t.cpuTime + (if TruthyNum(e.cpuTimeMs) then e.cpuTimeMs.value else 0),
      t.wallTime + (if TruthyNum(e.wallTimeMs) then e.wallTimeMs.value else 0),
      t.queuedTime + (if TruthyNum(e.queuedTimeMs) then e.queuedTimeMs.value else 0),
      if TruthyNum(e.peakMemoryBytes) && e.peakMemoryBytes.value > t.maxMemory then e.peakMemoryBytes.value else t.maxMemory,
      if TruthyNum(e.totalRows) then e.totalRows.value else t.totalRows,
      if TruthyNum(e.totalBytes) then e.totalBytes.value else t.totalBytes,
      if TruthyNum(e.completedSplits) then e.completedSplits.value else t.completedSplits)
  }

  /** The accumulators after the events, from all zero. */
  function Accumulate(events: seq<ApiEvent>): Totals {
    if events == [] then Totals(0, 0, 0, 0, 0, 0, 0)
    else Step(Accumulate(events[..|events| - 1]), events[|events| - 1])
  }

  /** A total is set only when it is positive. */
  function IfPositive(n: int): Option<int> {
    if n > 0 then Some(n) else None
  }

  function IfNonEmpty(xs: seq<string>): Option<seq<string>> {
    if xs == [] then None else Some(xs)
  }

  /** The metrics object of a list of events. */
  function MetricsOf(events: seq<ApiEvent>): EventMetrics {
    var t := Accumulate(events);
    EventMetrics(
      IfPositive(t.cpuTime), IfPositive(t.wallTime), IfPositive(t.queuedTime),
      IfPositive(t.maxMemory),
      IfPositive(t.totalRows), IfPositive(t.totalBytes), IfPositive(t.completedSplits),
      IfNonEmpty(DistinctTruthy(Catalogs(events))),
      IfNonEmpty(DistinctTruthy(Schemas(events))))
  }

  /** The body of the forEach of getEventMetrics. */
  method AddEvent(totals: Totals, event: ApiEvent) returns (r: Totals)
    ensures r == Step(totals, event)
  {
    var Totals(totalCpuTime, totalWallTime, totalQueuedTime, maxMemory, totalRows, totalBytes, completedSplits) := totals;
    if TruthyNum(event.cpuTimeMs) {
      totalCpuTime := totalCpuTime + event.cpuTimeMs.value;
    }
    if TruthyNum(event.wallTimeMs) {
      totalWallTime := totalWallTime + event.wallTimeMs.value;
    }
    if TruthyNum(event.queuedTimeMs) {
      totalQueuedTime := totalQueuedTime + event.queuedTimeMs.value;
    }
    if TruthyNum(event.peakMemoryBytes) && event.peakMemoryBytes.value > maxMemory {
      maxMemory := event.peakMemoryBytes.value;
    }
    if TruthyNum(event.totalRows) {
      totalRows := event.totalRows.value;
    }
    if TruthyNum(event.totalBytes) {
      totalBytes := event.totalBytes.value;
    }
    if TruthyNum(event.completedSplits) {
      completedSplits := event.completedSplits.value;
    }
    r := Totals(totalCpuTime, totalWallTime, totalQueuedTime, maxMemory, totalRows, totalBytes, completedSplits);
  }

  /** getEventMetrics: one pass over the events with seven accumulators, then the
      totals that are positive and the distinct catalogs and schemas. */
  method GetEventMetrics(events: seq<ApiEvent>) returns (metrics: EventMetrics)
    ensures metrics == MetricsOf(events)
  {
    var totals := Totals(0, 0, 0, 0, 0, 0, 0);
    var i := 0;
    while i < |events|
      invariant 0 <= i <= |events|
      invariant totals == Accumulate(events[..i])
    {
      assert events[..i + 1][..i] == events[..i];
      totals := AddEvent(totals, events[i]);
      i := i + 1;
    }
    assert events[..i] == events;
    var catalogs := DistinctTruthy(Catalogs(events));
    var schemas := DistinctTruthy(Schemas(events));
    metrics := EventMetrics(
      if totals.cpuTime > 0 then Some(totals.cpuTime) else None,
      if totals.wallTime > 0 then Some(totals.wallTime) else None,
      if totals.queuedTime > 0 then Some(totals.queuedTime) else None,
      if totals.maxMemory > 0 then Some(totals.maxMemory) else None,
      if totals.totalRows > 0 then Some(totals.totalRows) else None,
      if totals.totalBytes > 0 then Some(totals.totalBytes) else None,
      if totals.completedSplits > 0 then Some(totals.completedSplits) else None,
      if |catalogs| > 0 then Some(catalogs) else None,
      if |schemas| > 0 then Some(schemas) else None);
  }

  /** The time accumulators are the sums of the truthy times. */
  lemma {:induction false} AccumulateTimes(events: seq<ApiEvent>)
    ensures Accumulate(events).cpuTime == SumTruthy(CpuTimes(events))
    ensures Accumulate(events).wallTime == SumTruthy(WallTimes(events))
    ensures Accumulate(events).queuedTime == SumTruthy(QueuedTimes(events))
    decreases |events|
  {
    if events != [] {
      var init := events[..|events| - 1];
      AccumulateTimes(init);
      assert CpuTimes(events)[..|events| - 1] == CpuTimes(init);
      assert WallTimes(events)[..|events| - 1] == WallTimes(init);
      assert QueuedTimes(events)[..|events| - 1] == QueuedTimes(init);
    }
  }

  /** The memory accumulator is the maximum of the truthy peak memories. */
  lemma {:induction false} AccumulateMemory(events: seq<ApiEvent>)
    ensures Accumulate(events).maxMemory == MaxTruthy(PeakMemories(events))
    decreases |events|
  {
    if events != [] {
      var init := events[..|events| - 1];
      AccumulateMemory(init);
      assert PeakMemories(events)[..|events| - 1] == PeakMemories(init);
    }
  }

  /** The count accumulators are the last truthy counts, not sums. */
  lemma {:induction false} AccumulateCounts(events: seq<ApiEvent>)
    ensures Accumulate(events).totalRows == LastTruthy(RowCounts(events))
    ensures Accumulate(events).totalBytes == LastTruthy(ByteCounts(events))
    ensures Accumulate(events).completedSplits == LastTruthy(SplitCounts(events))
    decreases |events|
  {
    if events != [] {
      var init := events[..|events| - 1];
      AccumulateCounts(init);
      assert RowCounts(events)[..|events| - 1] == RowCounts(init);
      assert ByteCounts(events)[..|events| - 1] == ByteCounts(init);
      assert SplitCounts(events)[..|events| - 1] == SplitCounts(init);
    }
  }

  // ---------------------------------------------------------------------------
  // What the accumulations mean

  /** The sum of a concatenation is the sum of its parts, so the total does not depend on
      how the events are split into batches. */
  lemma {:induction false} SumTruthyAppend(a: seq<Option<int>>, b: seq<Option<int>>)
    ensures SumTruthy(a + b) == SumTruthy(a) + SumTruthy(b)
    decreases |b|
  {
    if b == [] {
      assert a + b == a;
    } else {
      assert (a + b)[..|a + b| - 1] == a + b[..|b| - 1];
      assert (a + b)[|a + b| - 1] == b[|b| - 1];
      SumTruthyAppend(a, b[..|b| - 1]);
    }
  }

  /** Summing the truthy values is summing every present value: null and 0 add nothing. */
  lemma {:induction false} SumTruthyPresent(vs: seq<Option<int>>)
    ensures SumTruthy(vs) == if vs == [] then 0 else (if vs[0].Some? then vs[0].value else 0) + SumTruthy(vs[1..])
  {
    if vs != [] {
      SumTruthyAppend([vs[0]], vs[1..]);
      assert [vs[0]] + vs[1..] == vs;
      assert [vs[0]][..0] == [];
    }
  }

  /** The maximum is at least 0 and at least every present value, and it is 0 or one of
      the values. */
  lemma {:induction false} MaxTruthySpec(vs: seq<Option<int>>)
    ensures MaxTruthy(vs) >= 0
    ensures forall i :: 0 <= i < |vs| && vs[i].Some? ==> vs[i].value <= MaxTruthy(vs)
    ensures MaxTruthy(vs) == 0 || exists i :: 0 <= i < |vs| && vs[i] == Some(MaxTruthy(vs))
    decreases |vs|
  {
    if vs != [] {
      var init := vs[..|vs| - 1];
      MaxTruthySpec(init);
      assert forall i :: 0 <= i < |init| ==> init[i] == vs[i];
      if MaxTruthy(vs) != 0 && MaxTruthy(vs) == MaxTruthy(init) {
        var i :| 0 <= i < |init| && init[i] == Some(MaxTruthy(init));
        assert vs[i] == Some(MaxTruthy(vs));
      }
    }
  }

  /** The last truthy value is 0 exactly when no value is truthy; otherwise it is the
      value of an event after which no event has a truthy value, which is not a sum. */
  lemma {:induction false} LastTruthySpec(vs: seq<Option<int>>)
    ensures LastTruthy(vs) == 0 <==> forall i :: 0 <= i < |vs| ==> !TruthyNum(vs[i])
    ensures LastTruthy(vs) != 0 ==>
      exists i :: 0 <= i < |vs| && vs[i] == Some(LastTruthy(vs)) &&
        forall j :: i < j < |vs| ==> !TruthyNum(vs[j])
    decreases |vs|
  {
    if vs != [] {
      var init := vs[..|vs| - 1];
      LastTruthySpec(init);
      assert forall i :: 0 <= i < |init| ==> init[i] == vs[i];
      if !TruthyNum(vs[|vs| - 1]) && LastTruthy(vs) != 0 {
        var i :| 0 <= i < |init| && init[i] == Some(LastTruthy(init)) &&
          forall j :: i < j < |init| ==> !TruthyNum(init[j]);
        assert vs[i] == Some(LastTruthy(vs));
      }
    }
  }

  /** The distinct values hold each truthy value exactly once and nothing else. */
  lemma {:induction false} DistinctTruthySpec(vs: seq<Option<string>>)
    ensures forall v :: v in DistinctTruthy(vs) <==> v != "" && Some(v) in vs
    ensures forall i, j :: 0 <= i < j < |DistinctTruthy(vs)| ==> DistinctTruthy(vs)[i] != DistinctTruthy(vs)[j]
    decreases |vs|
  {
    if vs != [] {
      var init := vs[..|vs| - 1];
      DistinctTruthySpec(init);
      assert vs == init + [vs[|vs| - 1]];
    }
  }

  /** The distinct values of a prefix are a prefix of the distinct values: a value is
      placed by its first occurrence and later events only add after it. */
  lemma {:induction false} DistinctTruthyPrefix(vs: seq<Option<string>>, k: nat)
    requires k <= |vs|
    ensures |DistinctTruthy(vs[..k])| <= |DistinctTruthy(vs)|
    ensures DistinctTruthy(vs[..k]) == DistinctTruthy(vs)[..|DistinctTruthy(vs[..k])|]
    decreases |vs|
  {
    if k < |vs| {
      var init := vs[..|vs| - 1];
      assert vs[..k] == init[..k];
      DistinctTruthyPrefix(init, k);
    } else {
      assert vs[..k] == vs;
    }
  }

  /** Which keys the metrics object sets: each of the three times when its total is
      positive, the peak memory when some event has a positive peak, each of the three
      last-value counts when its last truthy value is positive, and the catalogs and
      schemas when some event names one. */
  lemma MetricsKeys(events: seq<ApiEvent>)
    ensures MetricsOf(events).cpuTime == IfPositive(SumTruthy(CpuTimes(events)))
    ensures MetricsOf(events).totalBytes == IfPositive(LastTruthy(ByteCounts(events)))
    ensures MetricsOf(events).peakMemory.Some? <==>
      exists i :: 0 <= i < |events| && events[i].peakMemoryBytes.Some? && events[i].peakMemoryBytes.value > 0
    ensures MetricsOf(events).totalRows.None? <==>
      LastTruthy(RowCounts(events)) <= 0
    ensures MetricsOf(events).catalogs.Some? <==>
      exists i :: 0 <= i < |events| && TruthyStr(events[i].catalog)
    ensures MetricsOf(events).wallTime == IfPositive(SumTruthy(WallTimes(events)))
    ensures MetricsOf(events).queuedTime == IfPositive(SumTruthy(QueuedTimes(events)))
    ensures MetricsOf(events).completedSplits == IfPositive(LastTruthy(SplitCounts(events)))
    ensures MetricsOf(events).schemas.Some? <==>
      exists i :: 0 <= i < |events| && TruthyStr(events[i].schema)
  {
    AccumulateTimes(events);
    AccumulateCounts(events);
    PeakMemoryPresent(events);
    CatalogsPresent(events);
    SchemasPresent(events);
  }

  /** A peak memory is shown exactly when some event has a positive one. */
  lemma PeakMemoryPresent(events: seq<ApiEvent>)
    ensures MetricsOf(events).peakMemory.Some? <==>
      exists i :: 0 <= i < |events| && events[i].peakMemoryBytes.Some? && events[i].peakMemoryBytes.value > 0
  {
    AccumulateMemory(events);
    var mem := PeakMemories(events);
    MaxTruthySpec(mem);
    if exists i :: 0 <= i < |events| && events[i].peakMemoryBytes.Some? && events[i].peakMemoryBytes.value > 0 {
      var i :| 0 <= i < |events| && events[i].peakMemoryBytes.Some? && events[i].peakMemoryBytes.value > 0;
      assert mem[i] == events[i].peakMemoryBytes;
    }
    if MaxTruthy(mem) > 0 {
      var i :| 0 <= i < |mem| && mem[i] == Some(MaxTruthy(mem));
      assert events[i].peakMemoryBytes == mem[i];
    }
  }

  /** Catalogs are shown exactly when some event has a truthy catalog. */
  lemma CatalogsPresent(events: seq<ApiEvent>)
    ensures MetricsOf(events).catalogs.Some? <==>
      exists i :: 0 <= i < |events| && TruthyStr(events[i].catalog)
  {
    var cs := Catalogs(events);
    DistinctTruthySpec(cs);
    if exists i :: 0 <= i < |events| && TruthyStr(events[i].catalog) {
      var i :| 0 <= i < |events| && TruthyStr(events[i].catalog);
      assert cs[i] == events[i].catalog;
      assert events[i].catalog.value in DistinctTruthy(cs);
    }
    if DistinctTruthy(cs) != [] {
      var v := DistinctTruthy(cs)[0];
      assert Some(v) in cs;
      var i :| 0 <= i < |cs| && cs[i] == Some(v);
      assert TruthyStr(events[i].catalog);
    }
  }

  /** Schemas are shown exactly when some event has a truthy schema. */
  lemma SchemasPresent(events: seq<ApiEvent>)
    ensures MetricsOf(events).schemas.Some? <==>
      exists i :: 0 <= i < |events| && TruthyStr(events[i].schema)
  {
    var ss := Schemas(events);
    DistinctTruthySpec(ss);
    if exists i :: 0 <= i < |events| && TruthyStr(events[i].schema) {
      var i :| 0 <= i < |events| && TruthyStr(events[i].schema);
      assert ss[i] == events[i].schema;
      assert events[i].schema.value in DistinctTruthy(ss);
    }
    if DistinctTruthy(ss) != [] {
      var v := DistinctTruthy(ss)[0];
      assert Some(v) in ss;
      var i :| 0 <= i < |ss| && ss[i] == Some(v);
      assert TruthyStr(events[i].schema);
    }
  }

  // ---------------------------------------------------------------------------
  // The events whose statistics the unified panel shows

  /** query.events?.filter(e => e.statistics) || []: the events that carry statistics,
      in their order. */
  function EventsWithStats(events: Option<seq<ApiEvent>>): seq<ApiEvent> {
    if events.None? then [] else WithStatistics(events.value)
  }

  function WithStatistics(events: seq<ApiEvent>): (r: seq<ApiEvent>)
    ensures |r| <= |events|
    ensures forall e :: e in r <==> e in events && e.statistics.Some?
  {
    if events == [] then []
    else
      var e := events[|events| - 1];
      assert events == events[..|events| - 1] + [e];
      WithStatistics(events[..|events| - 1]) + if e.statistics.Some? then [e] else []
  }

  /** Filtering keeps the order: the events of a concatenation are those of its parts,
      one after the other. */
  lemma {:induction false} WithStatisticsAppend(a: seq<ApiEvent>, b: seq<ApiEvent>)
    ensures WithStatistics(a + b) == WithStatistics(a) + WithStatistics(b)
    decreases |b|
  {
    if b == [] {
      assert a + b == a;
    } else {
      assert (a + b)[..|a + b| - 1] == a + b[..|b| - 1];
      assert (a + b)[|a + b| - 1] == b[|b| - 1];
      WithStatisticsAppend(a, b[..|b| - 1]);
    }
  }

  /** The event shown: the selected one among those with statistics, none when no event
      has statistics, and undefined (also none) when the index is past the end. */
  function SelectedEvent(events: Option<seq<ApiEvent>>, selectedIndex: nat): (r: Option<ApiEvent>)
    ensures r.Some? ==> r.value.statistics.Some? && events.Some? && r.value in events.value
    ensures EventsWithStats(events) == [] ==> r.None?
    ensures selectedIndex < |EventsWithStats(events)| ==> r == Some(EventsWithStats(events)[selectedIndex])
  {
    var withStats := EventsWithStats(events);
    if |withStats| > 0 then
      if selectedIndex < |withStats| then
        assert withStats[selectedIndex] in withStats;
        Some(withStats[selectedIndex])
      else None
    else None
  }
}
