/** The performance monitor's state and analysis: the active-request map, the
    bounded list of completed requests, operations recorded into a request,
    bottleneck identification, the counting parts of the statistics, percentile
    index selection, the trend comparison and the status a finished request is
    logged with. Durations and memory readings are given `real` values (seconds
    and megabytes); the clock and the process sampler are not modelled. */
module Monitor {
  import opened Errors

  // ---------------------------------------------------------------------------
  // Records
  // ---------------------------------------------------------------------------

  /** A finished operation: its name, duration, whether it succeeded, the message
      of the exception it failed with, and the memory readings taken when it
      started and finished (None when sampling failed). */
  datatype Operation = Operation(name: string, duration: real, success: bool, error: Option<string>,
                                 memoryStart: Option<real>, memoryEnd: Option<real>)

  /** A tracked request: its id, the operations recorded into it, and its total
      duration once finished. */
  datatype Request = Request(id: string, operations: seq<Operation>, totalDuration: Option<real>)

  /** The monitor: requests being tracked, by id, and the finished ones, oldest first. */
  datatype Monitor = Monitor(active: map<string, Request>, completed: seq<Request>)

  const MaxCompletedRequests := 100

  /** Python truthiness of an optional float: present and not zero. */
  predicate Truthy(x: Option<real>) {
    x.Some? && x.value != 0.0
  }

  /** The memory delta of an operation: end minus start, only when both readings
      are truthy. */
  function MemoryDelta(op: Operation): (d: Option<real>)
    ensures d.Some? <==> Truthy(op.memoryStart) && Truthy(op.memoryEnd)
    ensures d.Some? ==> op.memoryStart.value + d.value == op.memoryEnd.value
  {
    if Truthy(op.memoryEnd) && Truthy(op.memoryStart) then
      Some(op.memoryEnd.value - op.memoryStart.value)
    else None
  }

  /** Every active request is filed under its own id and at most 100 finished
      requests are kept. */
  predicate Valid(m: Monitor) {
    && |m.completed| <= MaxCompletedRequests
    && forall id :: id in m.active ==> m.active[id].id == id
  }

  const Empty := Monitor(map[], [])

  lemma EmptyIsValid()
    ensures Valid(Empty)
  {
  }

  // ---------------------------------------------------------------------------
  // State transitions
  // ---------------------------------------------------------------------------

  /** `start_request`: fresh metrics under `id`, replacing any active entry with
      the same id; the other entries and the completed list are untouched. */
  function StartRequest(m: Monitor, id: string): (m': Monitor)
    ensures id in m'.active && m'.active[id] == Request(id, [], None)
    ensures m'.active.Keys == m.active.Keys + {id}
    ensures forall other :: other in m.active && other != id ==> m'.active[other] == m.active[other]
    ensures m'.completed == m.completed
  {
    m.(active := m.active[id := Request(id, [], None)])
  }

  /** The last `n` elements of `xs` (all of them when there are fewer). */
  function KeepLast<T>(xs: seq<T>, n: nat): (r: seq<T>)
    ensures |r| <= n && |r| <= |xs|
    ensures |xs| <= n ==> r == xs
    ensures |xs| > n ==> |r| == n
    ensures r == xs[|xs| - |r|..]
  {
    if |xs| > n then xs[|xs| - n..] else xs
  }

  /** What `finish_request` leaves behind and returns. */
  datatype Finish = Finish(monitor: Monitor, finished: Option<Request>)

  /** `finish_request(id)` after the request ran for `duration` seconds: an unknown
      id changes nothing and returns None; otherwise the request leaves the active
      map, gets its total duration and joins the completed list, whose oldest
      entries are dropped beyond 100. */
  function FinishRequest(m: Monitor, id: string, duration: real): (f: Finish)
    ensures id !in m.active <==> f.finished.None?
    ensures id !in m.active ==> f.monitor == m
    ensures id in m.active ==>
              && f.finished == Some(m.active[id].(totalDuration := Some(duration)))
              && f.monitor.active == m.active - {id}
              && |f.monitor.completed| <= MaxCompletedRequests
              && 0 < |f.monitor.completed| <= |m.completed| + 1
              && f.monitor.completed[|f.monitor.completed| - 1] == f.finished.value
              && f.monitor.completed == (m.completed + [f.finished.value])[|m.completed| + 1 - |f.monitor.completed|..]
  {
    if id !in m.active then Finish(m, None)
    else
      var r := m.active[id].(totalDuration := Some(duration));
      Finish(Monitor(m.active - {id}, KeepLast(m.completed + [r], MaxCompletedRequests)), Some(r))
  }

  /** Below the cap nothing is dropped: the finished request is simply appended. */
  lemma FinishBelowCapAppends(m: Monitor, id: string, duration: real)
    requires id in m.active && |m.completed| < MaxCompletedRequests
    ensures FinishRequest(m, id, duration).monitor.completed
            == m.completed + [m.active[id].(totalDuration := Some(duration))]
  {
  }

  /** At the cap exactly the oldest completed request is dropped. */
  lemma FinishAtCapDropsOldest(m: Monitor, id: string, duration: real)
    requires id in m.active && |m.completed| == MaxCompletedRequests
    ensures FinishRequest(m, id, duration).monitor.completed
            == m.completed[1..] + [m.active[id].(totalDuration := Some(duration))]
  {
    var r := m.active[id].(totalDuration := Some(duration));
    assert (m.completed + [r])[1..] == m.completed[1..] + [r];
  }

  /** The operation `track_operation` records: successful, or failed with the
      message of the exception the body raised. */
  function RecordedOperation<T>(name: string, duration: real, memoryStart: Option<real>,
                                memoryEnd: Option<real>, body: Result<T>): (op: Operation)
    ensures op.name == name && op.duration == duration
    ensures op.success <==> body.Ok?
    ensures op.error.Some? <==> body.Err?
    ensures body.Err? ==> op.error == Some(Str(body.error))
  {
    Operation(name, duration, body.Ok?, if body.Err? then Some(Str(body.error)) else None,
              memoryStart, memoryEnd)
  }

  /** What `track_operation` leaves behind and lets through. */
  datatype Tracked<T> = Tracked(monitor: Monitor, outcome: Result<T>)

  /** `track_operation` around a body that returned or raised `body`: the
      operation is appended to the request when the id is active, whatever the
      outcome, and the outcome itself passes through (an exception is re-raised). */
  function TrackOperation<T>(m: Monitor, id: string, name: string, duration: real,
                             memoryStart: Option<real>, memoryEnd: Option<real>, body: Result<T>): (t: Tracked<T>)
    ensures t.outcome == body
    ensures t.monitor.completed == m.completed
    ensures t.monitor.active.Keys == m.active.Keys
    ensures id !in m.active ==> t.monitor == m
    ensures id in m.active ==>
              && t.monitor.active[id].id == m.active[id].id
              && t.monitor.active[id].operations
                 == m.active[id].operations + [RecordedOperation(name, duration, memoryStart, memoryEnd, body)]
    ensures forall other :: other in m.active && other != id ==> t.monitor.active[other] == m.active[other]
  {
    var op := RecordedOperation(name, duration, memoryStart, memoryEnd, body);
    if id in m.active then
      var r := m.active[id];
      Tracked(m.(active := m.active[id := r.(operations := r.operations + [op])]), body)
    else Tracked(m, body)
  }

  lemma StartPreservesValid(m: Monitor, id: string)
    requires Valid(m)
    ensures Valid(StartRequest(m, id))
  {
    var s := StartRequest(m, id);
    forall k | k in s.active ensures s.active[k].id == k {
      if k != id { assert s.active[k] == m.active[k]; }
    }
  }

  lemma FinishPreservesValid(m: Monitor, id: string, duration: real)
    requires Valid(m)
    ensures Valid(FinishRequest(m, id, duration).monitor)
  {
    if id in m.active {
      var f := FinishRequest(m, id, duration).monitor;
      forall k | k in f.active ensures f.active[k].id == k {
        assert k in m.active && f.active[k] == m.active[k];
      }
    }
  }

  lemma TrackPreservesValid<T>(m: Monitor, id: string, name: string, duration: real,
                               memoryStart: Option<real>, memoryEnd: Option<real>, body: Result<T>)
    requires Valid(m)
    ensures Valid(TrackOperation(m, id, name, duration, memoryStart, memoryEnd, body).monitor)
  {
    var t := TrackOperation(m, id, name, duration, memoryStart, memoryEnd, body).monitor;
    forall k | k in t.active ensures t.active[k].id == k {
      assert k in m.active;
    }
  }

  /** Starting, finishing and tracking keep the monitor valid. */
  lemma TransitionsPreserveValid<T>(m: Monitor, id: string, name: string, duration: real,
                                    memoryStart: Option<real>, memoryEnd: Option<real>, body: Result<T>)
    requires Valid(m)
    ensures Valid(StartRequest(m, id))
    ensures Valid(FinishRequest(m, id, duration).monitor)
    ensures Valid(TrackOperation(m, id, name, duration, memoryStart, memoryEnd, body).monitor)
  {
    StartPreservesValid(m, id);
    FinishPreservesValid(m, id, duration);
    TrackPreservesValid(m, id, name, duration, memoryStart, memoryEnd, body);
  }

  /** A request started and then finished straight away is the newest completed
      request, has the id it was started with and no operations, and is no longer
      active. */
  lemma StartThenFinish(m: Monitor, id: string, duration: real)
    ensures var f := FinishRequest(StartRequest(m, id), id, duration);
            && f.finished == Some(Request(id, [], Some(duration)))
            && id !in f.monitor.active
            && f.monitor.completed[|f.monitor.completed| - 1] == Request(id, [], Some(duration))
  {
  }

  // ---------------------------------------------------------------------------
  // Bottlenecks
  // ---------------------------------------------------------------------------

  /** A bottleneck entry; the rounded percentage of the total is not modelled. */
  datatype Bottleneck =
    | SlowestOperation(operation: string, duration: real)
    | ThresholdExceeded(operation: string, duration: real, threshold: real)
    | MemorySpike(operation: string, increase: real)

  /** The per-operation limits `identify_bottlenecks` checks, in seconds. */
  function BottleneckThreshold(name: string): (t: Option<real>)
    ensures t.Some? ==> t.value > 0.0
  {
    if name == "document_download" then Some(10.0)
    else if name == "document_chunking" then Some(5.0)
    else if name == "vector_store_creation" then Some(15.0)
    else if name == "answer_generation" then Some(20.0)
    else None
  }

  /** Python's `max(ops, key=duration)`: the index of the first operation with the
      largest duration. */
  function SlowestIndex(ops: seq<Operation>): (k: nat)
    requires |ops| > 0
    ensures k < |ops|
    ensures forall j :: 0 <= j < |ops| ==> ops[j].duration <= ops[k].duration
    ensures forall j :: 0 <= j < k ==> ops[j].duration < ops[k].duration
  {
    if |ops| == 1 then 0
    else
      var k := SlowestIndex(ops[..|ops| - 1]);
      assert forall j :: 0 <= j < |ops| - 1 ==> ops[..|ops| - 1][j] == ops[j];
      if ops[|ops| - 1].duration > ops[k].duration then |ops| - 1 else k
  }

  /** Whether an operation is reported as exceeding its threshold. */
  predicate Exceeds(op: Operation) {
    op.duration != 0.0 && BottleneckThreshold(op.name).Some? &&
    op.duration > BottleneckThreshold(op.name).value
  }

  /** The "threshold_exceeded" entries, in operation order. */
  function ThresholdEntries(ops: seq<Operation>): (entries: seq<Bottleneck>)
    ensures |entries| <= |ops|
    ensures forall e :: e in entries ==> e.ThresholdExceeded?
  {
    if |ops| == 0 then []
    else
      var op := ops[|ops| - 1];
      ThresholdEntries(ops[..|ops| - 1]) +
      (if Exceeds(op) then [ThresholdExceeded(op.name, op.duration, BottleneckThreshold(op.name).value)] else [])
  }

  /** Whether an operation is reported as a memory spike (more than 100 MB). */
  predicate Spikes(op: Operation) {
    MemoryDelta(op).Some? && MemoryDelta(op).value != 0.0 && MemoryDelta(op).value > 100.0
  }

  /** The "memory_spike" entries, in operation order. */
  function MemoryEntries(ops: seq<Operation>): (entries: seq<Bottleneck>)
    ensures |entries| <= |ops|
    ensures forall e :: e in entries ==> e.MemorySpike?
  {
    if |ops| == 0 then []
    else
      var op := ops[|ops| - 1];
      MemoryEntries(ops[..|ops| - 1]) +
      (if Spikes(op) then [MemorySpike(op.name, MemoryDelta(op).value)] else [])
  }

  /** `identify_bottlenecks`: the slowest operation when it took any time, then the
      threshold violations, then the memory spikes. */
  function IdentifyBottlenecks(r: Request): (b: seq<Bottleneck>)
    ensures |r.operations| == 0 ==> b == []
    ensures |b| <= 1 + 2 * |r.operations|
  {
    var ops := r.operations;
    if |ops| == 0 then []
    else
      var slowest := ops[SlowestIndex(ops)];
      (if slowest.duration > 0.0 then [SlowestOperation(slowest.name, slowest.duration)] else []) +
      ThresholdEntries(ops) + MemoryEntries(ops)
  }

  /** `ops[s]` is the first operation no other one outlasts. */
  predicate FirstLongest(ops: seq<Operation>, s: int) {
    && 0 <= s < |ops|
    && (forall j :: 0 <= j < |ops| ==> ops[j].duration <= ops[s].duration)
    && (forall j :: 0 <= j < s ==> ops[j].duration < ops[s].duration)
  }

  /** Only the threshold and memory entries follow the optional first one. */
  lemma TailHasNoSlowest(ops: seq<Operation>)
    ensures forall e :: e in ThresholdEntries(ops) + MemoryEntries(ops) ==> !e.SlowestOperation?
  {
  }

  /** At most one "slowest_operation" entry is emitted, it comes first, and it
      names the first operation no other one outlasts, which took time; it is
      emitted exactly when some operation took time. */
  lemma SlowestEntryIsUniqueAndFirst(r: Request)
    ensures var b := IdentifyBottlenecks(r);
            forall k :: 0 < k < |b| ==> !b[k].SlowestOperation?
    ensures var b := IdentifyBottlenecks(r);
            |b| > 0 && b[0].SlowestOperation? ==>
              && b[0].duration > 0.0
              && exists s :: FirstLongest(r.operations, s) &&
                             r.operations[s].name == b[0].operation && r.operations[s].duration == b[0].duration
    ensures |r.operations| > 0 ==>
              (exists j :: 0 <= j < |r.operations| && r.operations[j].duration > 0.0) ==
              (|IdentifyBottlenecks(r)| > 0 && IdentifyBottlenecks(r)[0].SlowestOperation?)
  {
    var ops := r.operations;
    if |ops| > 0 {
      var b := IdentifyBottlenecks(r);
      var s := SlowestIndex(ops);
      assert FirstLongest(ops, s);
      var tail := ThresholdEntries(ops) + MemoryEntries(ops);
      TailHasNoSlowest(ops);
      if ops[s].duration > 0.0 {
        assert b == [SlowestOperation(ops[s].name, ops[s].duration)] + tail;
        forall k | 0 < k < |b| ensures !b[k].SlowestOperation? {
          assert b[k] == tail[k - 1];
        }
      } else {
        assert b == tail;
        forall k | 0 <= k < |b| ensures !b[k].SlowestOperation? {
          assert b[k] in tail;
        }
      }
    }
  }

  /** The threshold entries are assembled operation by operation: the entries of
      a concatenation are the entries of its parts, in order. */
  lemma {:induction false} ThresholdEntriesAppend(a: seq<Operation>, b: seq<Operation>)
    ensures ThresholdEntries(a + b) == ThresholdEntries(a) + ThresholdEntries(b)
    decreases |b|
  {
    if |b| > 0 {
      var b' := b[..|b| - 1];
      assert (a + b)[..|a + b| - 1] == a + b';
      assert (a + b)[|a + b| - 1] == b[|b| - 1];
      ThresholdEntriesAppend(a, b');
    } else {
      assert a + b == a;
    }
  }

  /** A threshold entry is reported for an operation exactly when it is one of the
      four checked operations and its duration is strictly above the limit. */
  lemma {:induction false} ThresholdEntryIff(ops: seq<Operation>, e: Bottleneck)
    ensures e in ThresholdEntries(ops) <==>
              exists k :: 0 <= k < |ops| && Exceeds(ops[k]) &&
                          e == ThresholdExceeded(ops[k].name, ops[k].duration, BottleneckThreshold(ops[k].name).value)
    decreases |ops|
  {
    if |ops| > 0 {
      var init := ops[..|ops| - 1];
      ThresholdEntryIff(init, e);
      if e in ThresholdEntries(init) {
        var k :| 0 <= k < |init| && Exceeds(init[k]) &&
                 e == ThresholdExceeded(init[k].name, init[k].duration, BottleneckThreshold(init[k].name).value);
        assert ops[k] == init[k];
      }
      if exists k :: 0 <= k < |ops| && Exceeds(ops[k]) &&
                     e == ThresholdExceeded(ops[k].name, ops[k].duration, BottleneckThreshold(ops[k].name).value) {
        var k :| 0 <= k < |ops| && Exceeds(ops[k]) &&
                 e == ThresholdExceeded(ops[k].name, ops[k].duration, BottleneckThreshold(ops[k].name).value);
        if k < |ops| - 1 {
          assert init[k] == ops[k];
        }
      }
    }
  }

  /** A memory-spike entry is reported for an operation exactly when both memory
      readings are present and it grew by more than 100 MB. */
  lemma {:induction false} MemoryEntryIff(ops: seq<Operation>, e: Bottleneck)
    ensures e in MemoryEntries(ops) <==>
              exists k :: 0 <= k < |ops| && Spikes(ops[k]) && e == MemorySpike(ops[k].name, MemoryDelta(ops[k]).value)
    decreases |ops|
  {
    if |ops| > 0 {
      var init := ops[..|ops| - 1];
      MemoryEntryIff(init, e);
      if e in MemoryEntries(init) {
        var k :| 0 <= k < |init| && Spikes(init[k]) && e == MemorySpike(init[k].name, MemoryDelta(init[k]).value);
        assert ops[k] == init[k];
      }
      if exists k :: 0 <= k < |ops| && Spikes(ops[k]) && e == MemorySpike(ops[k].name, MemoryDelta(ops[k]).value) {
        var k :| 0 <= k < |ops| && Spikes(ops[k]) && e == MemorySpike(ops[k].name, MemoryDelta(ops[k]).value);
        if k < |ops| - 1 {
          assert init[k] == ops[k];
        }
      }
    }
  }

  /** Every entry after the optional first one is a threshold or memory entry,
      the threshold entries in operation order before the memory entries. */
  lemma BottlenecksEndWithEntries(r: Request)
    ensures var b := IdentifyBottlenecks(r);
            var tail := ThresholdEntries(r.operations) + MemoryEntries(r.operations);
            |tail| <= |b| <= |tail| + 1 && b[|b| - |tail|..] == tail
  {
  }

  /** `identify_bottlenecks` reports a threshold entry exactly for each listed
      operation strictly over its limit. */
  lemma ReportedThresholdIff(r: Request, e: Bottleneck)
    ensures e.ThresholdExceeded? ==>
              (e in IdentifyBottlenecks(r) <==>
                 exists k :: 0 <= k < |r.operations| && Exceeds(r.operations[k]) &&
                             e == ThresholdExceeded(r.operations[k].name, r.operations[k].duration,
                                                    BottleneckThreshold(r.operations[k].name).value))
  {
    var ops := r.operations;
    ThresholdEntryIff(ops, e);
    if e.ThresholdExceeded? && |ops| > 0 {
      var tail := ThresholdEntries(ops) + MemoryEntries(ops);
      BottlenecksEndWithEntries(r);
      var b := IdentifyBottlenecks(r);
      assert e in b <==> e in tail;
      assert e !in MemoryEntries(ops);
    }
  }

  /** `identify_bottlenecks` reports a memory spike exactly for each operation
      that grew by more than 100 MB. */
  lemma ReportedSpikeIff(r: Request, e: Bottleneck)
    ensures e.MemorySpike? ==>
              (e in IdentifyBottlenecks(r) <==>
                 exists k :: 0 <= k < |r.operations| && Spikes(r.operations[k]) &&
                             e == MemorySpike(r.operations[k].name, MemoryDelta(r.operations[k]).value))
  {
    var ops := r.operations;
    MemoryEntryIff(ops, e);
    if e.MemorySpike? && |ops| > 0 {
      var tail := ThresholdEntries(ops) + MemoryEntries(ops);
      BottlenecksEndWithEntries(r);
      var b := IdentifyBottlenecks(r);
      assert e in b <==> e in tail;
      assert e !in ThresholdEntries(ops);
    }
  }

  // ---------------------------------------------------------------------------
  // Statistics
  // ---------------------------------------------------------------------------

  /** The limits the monitor's statistics and log lines use, in seconds; names
      outside the table get 5 s. */
  function MonitorThreshold(name: string): (t: real)
    ensures t > 0.0
    ensures BottleneckThreshold(name).Some? ==> t == BottleneckThreshold(name).value
  {
    if name == "document_download" then 10.0
    else if name == "document_chunking" then 5.0
    else if name == "vector_store_creation" then 15.0
    else if name == "answer_generation" then 20.0
    else if name == "total_request" then 30.0
    else 5.0
  }

  /** The counters `get_performance_stats` keeps per operation name. */
  datatype OperationStats = OperationStats(count: nat, failures: nat, thresholdViolations: nat)

  /** The per-name counters after folding `ops` in order, as the statistics loop
      does: one more recorded operation, one more failure when it failed, one more
      violation when its duration is truthy and above the limit. */
  function StatsOver(ops: seq<Operation>): (stats: map<string, OperationStats>)
    ensures forall name :: name in stats ==> stats[name].failures <= stats[name].count
  {
    if |ops| == 0 then map[]
    else
      var acc := StatsOver(ops[..|ops| - 1]);
      var op := ops[|ops| - 1];
      var s := if op.name in acc then acc[op.name] else OperationStats(0, 0, 0);
      acc[op.name := OperationStats(
        s.count + 1,
        s.failures + (if op.success then 0 else 1),
        s.thresholdViolations + (if op.duration != 0.0 && op.duration > MonitorThreshold(op.name) then 1 else 0))]
  }

  /** The names of the operations, in order. */
  function Names(ops: seq<Operation>): (names: seq<string>)
    ensures |names| == |ops|
  {
    if |ops| == 0 then [] else Names(ops[..|ops| - 1]) + [ops[|ops| - 1].name]
  }

  /** The names of the operations that failed, in order. */
  function FailedNames(ops: seq<Operation>): (names: seq<string>)
    ensures |names| <= |ops|
  {
    if |ops| == 0 then []
    else FailedNames(ops[..|ops| - 1]) + (if ops[|ops| - 1].success then [] else [ops[|ops| - 1].name])
  }

  /** The counters agree with the multiset of recorded names: a name has counters
      exactly when some operation carries it, its count is the number of
      operations with that name, and its failures the number of failed ones. */
  lemma {:induction false} StatsCountOperations(ops: seq<Operation>, name: string)
    ensures name in StatsOver(ops) <==> name in multiset(Names(ops))
    ensures name in StatsOver(ops) ==>
              && StatsOver(ops)[name].count == multiset(Names(ops))[name]
              && StatsOver(ops)[name].failures == multiset(FailedNames(ops))[name]
    decreases |ops|
  {
    if |ops| > 0 {
      var init := ops[..|ops| - 1];
      var op := ops[|ops| - 1];
      StatsCountOperations(init, name);
      NamesStep(ops);
      StatsStep(ops, name);
      if name != op.name {
        if name !in StatsOver(init) {
          FailedNamesAreNames(init, name);
        }
      } else if op.name !in StatsOver(init) {
        FailedNamesAreNames(init, name);
      }
    }
  }

  /** One step of the counters: only the last operation's name changes, its
      count grows by one and its failures by one when that operation failed. */
  lemma StatsStep(ops: seq<Operation>, name: string)
    requires |ops| > 0
    ensures var init := StatsOver(ops[..|ops| - 1]);
            name != ops[|ops| - 1].name ==>
              (name in StatsOver(ops) <==> name in init) &&
              (name in init ==> StatsOver(ops)[name] == init[name])
    ensures var init := StatsOver(ops[..|ops| - 1]);
            var op := ops[|ops| - 1];
            && op.name in StatsOver(ops)
            && StatsOver(ops)[op.name].count == (if op.name in init then init[op.name].count else 0) + 1
            && StatsOver(ops)[op.name].failures
               == (if op.name in init then init[op.name].failures else 0) + (if op.success then 0 else 1)
  {
  }

  /** The multisets of names grow by the last operation's name, and the failed
      names by that name when the last operation failed. */
  lemma NamesStep(ops: seq<Operation>)
    requires |ops| > 0
    ensures multiset(Names(ops)) == multiset(Names(ops[..|ops| - 1])) + multiset{ops[|ops| - 1].name}
    ensures multiset(FailedNames(ops)) ==
              multiset(FailedNames(ops[..|ops| - 1])) +
              (if ops[|ops| - 1].success then multiset{} else multiset{ops[|ops| - 1].name})
  {
    var init := ops[..|ops| - 1];
    var op := ops[|ops| - 1];
    if op.success {
      assert FailedNames(ops) == FailedNames(init);
    } else {
      assert FailedNames(ops) == FailedNames(init) + [op.name];
    }
  }

  /** A failed name is a recorded name. */
  lemma {:induction false} FailedNamesAreNames(ops: seq<Operation>, name: string)
    ensures multiset(FailedNames(ops))[name] <= multiset(Names(ops))[name]
    decreases |ops|
  {
    if |ops| > 0 {
      var init := ops[..|ops| - 1];
      var op := ops[|ops| - 1];
      FailedNamesAreNames(init, name);
      assert multiset(Names(ops)) == multiset(Names(init)) + multiset{op.name};
      if !op.success {
        assert multiset(FailedNames(ops)) == multiset(FailedNames(init)) + multiset{op.name};
      }
    }
  }

  /** All operations of the completed requests, request by request. */
  function AllOperations(requests: seq<Request>): (ops: seq<Operation>)
    ensures |requests| == 0 ==> ops == []
  {
    if |requests| == 0 then []
    else AllOperations(requests[..|requests| - 1]) + requests[|requests| - 1].operations
  }

  /** Python `f"{type}_{operation}"`, the key bottlenecks are counted under. */
  function BottleneckKey(b: Bottleneck): string {
    var kind := match b
      case SlowestOperation(_, _) => "slowest_operation"
      case ThresholdExceeded(_, _, _) => "threshold_exceeded"
      case MemorySpike(_, _) => "memory_spike";
    kind + "_" + b.operation
  }

  /** The bottleneck keys of the completed requests, request by request. */
  function AllBottleneckKeys(requests: seq<Request>): (keys: seq<string>) {
    if |requests| == 0 then []
    else
      var b := IdentifyBottlenecks(requests[|requests| - 1]);
      AllBottleneckKeys(requests[..|requests| - 1]) + seq(|b|, k requires 0 <= k < |b| => BottleneckKey(b[k]))
  }

  /** Occurrence counts of strings, built one occurrence at a time. */
  function Tally(keys: seq<string>): (counts: map<string, nat>)
  {
    if |keys| == 0 then map[]
    else
      var acc := Tally(keys[..|keys| - 1]);
      var key := keys[|keys| - 1];
      acc[key := (if key in acc then acc[key] else 0) + 1]
  }

  /** The tally counts each key as often as it occurs. */
  lemma {:induction false} TallyIsMultiplicity(keys: seq<string>, key: string)
    ensures key in Tally(keys) <==> key in multiset(keys)
    ensures key in Tally(keys) ==> Tally(keys)[key] == multiset(keys)[key]
    decreases |keys|
  {
    if |keys| > 0 {
      var init := keys[..|keys| - 1];
      assert keys == init + [keys[|keys| - 1]];
      assert multiset(keys) == multiset(init) + multiset{keys[|keys| - 1]};
      TallyIsMultiplicity(init, key);
    }
  }

  /** Whether the last 10 completed requests ran faster on the whole than the ten
      before them, with the two averages. */
  datatype Trend = Trend(recentAverage: real, previousAverage: real, improving: bool)

  /** Sum of the durations of the finished requests (a missing or zero duration
      adds nothing). */
  function DurationSum(requests: seq<Request>): real {
    if |requests| == 0 then 0.0
    else
      var r := requests[|requests| - 1];
      DurationSum(requests[..|requests| - 1]) + (if Truthy(r.totalDuration) then r.totalDuration.value else 0.0)
  }

  /** The trend section: present only with at least 20 completed requests. */
  function TrendOf(completed: seq<Request>): (t: Option<Trend>)
    ensures t.Some? <==> |completed| >= 20
    ensures t.Some? ==>
              (t.value.improving <==>
                 DurationSum(completed[|completed| - 10..]) < DurationSum(completed[|completed| - 20..|completed| - 10]))
  {
    if |completed| < 20 then None
    else
      var recent := DurationSum(completed[|completed| - 10..]) / 10.0;
      var older := DurationSum(completed[|completed| - 20..|completed| - 10]) / 10.0;
      Some(Trend(recent, older, recent < older))
  }

  /** The statistics that are counts; averages, minima, maxima, rounded values and
      percentages are not modelled. */
  datatype Stats =
    | ZeroSummary
    | Summary(totalRequests: nat, activeRequests: nat, operationStats: map<string, OperationStats>,
              bottleneckCounts: map<string, nat>, totalBottlenecks: nat, trend: Option<Trend>)

  /** `get_performance_stats`. */
  function PerformanceStats(m: Monitor): (s: Stats)
    ensures s.ZeroSummary? <==> |m.completed| == 0
    ensures s.Summary? ==>
              && s.totalRequests == |m.completed|
              && s.activeRequests == |m.active|
              && s.totalBottlenecks == |AllBottleneckKeys(m.completed)|
              && (s.trend.Some? <==> |m.completed| >= 20)
  {
    if |m.completed| == 0 then ZeroSummary
    else
      var keys := AllBottleneckKeys(m.completed);
      Summary(|m.completed|, |m.active|, StatsOver(AllOperations(m.completed)), Tally(keys), |keys|,
              TrendOf(m.completed))
  }

  /** Per-operation counts and failures in the statistics are the numbers of
      recorded and failed operations of that name across the completed requests,
      and each bottleneck key is counted as often as it was identified. */
  lemma StatsCountRecordedOperations(m: Monitor, name: string, key: string)
    requires |m.completed| > 0
    ensures var s := PerformanceStats(m);
            var ops := AllOperations(m.completed);
            && (name in s.operationStats <==> name in multiset(Names(ops)))
            && (name in s.operationStats ==>
                  && s.operationStats[name].count == multiset(Names(ops))[name]
                  && s.operationStats[name].failures == multiset(FailedNames(ops))[name])
            && (key in s.bottleneckCounts <==> key in multiset(AllBottleneckKeys(m.completed)))
            && (key in s.bottleneckCounts ==>
                  s.bottleneckCounts[key] == multiset(AllBottleneckKeys(m.completed))[key])
  {
    StatsCountOperations(AllOperations(m.completed), name);
    TallyIsMultiplicity(AllBottleneckKeys(m.completed), key);
  }

  /** The index `sorted[n * p // 100]` a percentile reads, for p of 50, 95 and 99. */
  function PercentileIndex(n: nat, percent: nat): (i: nat)
    requires n > 0 && percent < 100
    ensures i < n
  {
    n * percent / 100
  }

  /** The percentile indices used are in range and ordered. */
  lemma PercentileIndicesOrdered(n: nat)
    requires n > 0
    ensures PercentileIndex(n, 50) == n / 2
    ensures PercentileIndex(n, 50) <= PercentileIndex(n, 95) <= PercentileIndex(n, 99) < n
  {
  }

  // ---------------------------------------------------------------------------
  // Request summary status
  // ---------------------------------------------------------------------------

  datatype Status = Fast | Acceptable | Slow

  function Rank(s: Status): nat {
    match s
    case Fast => 0
    case Acceptable => 1
    case Slow => 2
  }

  /** The status a finished request is logged with: slow above the 30 s total
      limit, acceptable above 70% of it (21 s), fast otherwise. */
  function RequestStatus(totalDuration: real): (s: Status)
    ensures s == Slow <==> totalDuration > MonitorThreshold("total_request")
    ensures s == Fast <==> totalDuration <= 21.0
  {
    var limit := MonitorThreshold("total_request");
    if totalDuration > limit then Slow
    else if totalDuration > limit * 0.7 then Acceptable
    else Fast
  }

  /** A longer request is never logged with a better status. */
  lemma RequestStatusMonotone(a: real, b: real)
    requires a <= b
    ensures Rank(RequestStatus(a)) <= Rank(RequestStatus(b))
  {
  }
}
