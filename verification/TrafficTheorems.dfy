/** What traffic accounting conserves. */
module TrafficTheorems {
  import opened Text
  import opened Json
  import opened ConfigBundle
  import opened Traffic

  // ---- counters, quota rows and logs ----

  /** The bytes of a subscription in the logs from a position on. */
  function LoggedSince(logs: seq<TrafficLog>, from: nat, id: string): int
    requires from <= |logs|
    decreases |logs|
  {
    if from == |logs| then 0
    else
      var last := logs[|logs| - 1];
      LoggedSince(logs[..|logs| - 1], from, id) + if last.subscriptionId == id then last.up + last.down else 0
  }

  /** The counter is the value at the last set or reset plus what was logged since. */
  predicate Balanced(t: Tables, id: string)
    requires id in t.counters && id in t.baselines
  {
    t.baselines[id].logs <= |t.logs| &&
    t.counters[id].used == t.baselines[id].value + LoggedSince(t.logs, t.baselines[id].logs, id)
  }

  /** A quota row mirrors its counter; without one nothing was counted yet. */
  predicate Mirrored(t: Tables, id: string)
    requires id in t.counters
  {
    && ValidQuota(t.counters[id].limit, t.counters[id].used)
    && (if id in t.quotas then
          t.quotas[id].used == t.counters[id].used && ValidQuota(t.quotas[id].limit, t.quotas[id].used)
        else t.counters[id].used == 0)
  }

  predicate Conserved(t: Tables) {
    && t.counters.Keys == t.baselines.Keys && t.quotas.Keys <= t.counters.Keys
    && forall id :: id in t.counters ==> Balanced(t, id) && Mirrored(t, id)
  }

  lemma LoggedGrows(logs: seq<TrafficLog>, log: TrafficLog, from: nat, id: string)
    requires from <= |logs|
    ensures LoggedSince(logs + [log], from, id) ==
      LoggedSince(logs, from, id) + if log.subscriptionId == id then log.up + log.down else 0
  {
    assert (logs + [log])[..|logs|] == logs;
  }

  /** One statement pair with the right amount keeps everything balanced. */
  lemma CountedIsConserved(t: Tables, now: Tables, log: TrafficLog)
    requires Conserved(t) && log.subscriptionId in t.counters
    requires now.logs == t.logs + [log] && now.baselines == t.baselines
    requires now.counters == t.counters[log.subscriptionId :=
      t.counters[log.subscriptionId].(used := t.counters[log.subscriptionId].used + log.up + log.down)]
    requires now.quotas == t.quotas[log.subscriptionId := Incremented(t, log.subscriptionId, log.up + log.down)]
    requires ValidQuota(now.quotas[log.subscriptionId].limit, now.quotas[log.subscriptionId].used)
    ensures Conserved(now)
  {
    forall id | id in now.counters ensures Balanced(now, id) && Mirrored(now, id) {
      assert Balanced(t, id) && Mirrored(t, id);
      LoggedGrows(t.logs, log, t.baselines[id].logs, id);
    }
  }

  /** A log whose bytes are not what the counter grew by breaks the balance. */
  lemma MiscountedIsNotConserved(t: Tables, now: Tables, log: TrafficLog)
    requires Conserved(t) && log.subscriptionId in t.counters
    requires now.logs == t.logs + [log] && now.baselines == t.baselines && log.subscriptionId in now.counters
    requires now.counters[log.subscriptionId].used != t.counters[log.subscriptionId].used + log.up + log.down
    ensures !Conserved(now)
  {
    assert Balanced(t, log.subscriptionId);
    LoggedGrows(t.logs, log, t.baselines[log.subscriptionId].logs, log.subscriptionId);
    assert log.subscriptionId in now.baselines ==> !Balanced(now, log.subscriptionId);
  }

  /** The log that a call of RecordTraffic writes, if it gets that far. */
  function LogOf(id: string, deviceId: Option<string>, nodeId: string, up: int, down: int, now: Time): TrafficLog {
    TrafficLog(TrimSpace(id), CleanText(deviceId), TrimSpace(nodeId), up, down, now)
  }

  predicate Logs(t: Tables, id: string, deviceId: Option<string>, nodeId: string, up: int, down: int, now: Time) {
    && TrimSpace(id) != "" && TrimSpace(nodeId) != "" && up >= 0 && down >= 0
    && CreateLog(t, LogOf(id, deviceId, nodeId, up, down, now)).1.Done?
  }

  lemma NotLogged(t: Tables, id: string, deviceId: Option<string>, nodeId: string, up: int, down: int, now: Time)
    requires !Logs(t, id, deviceId, nodeId, up, down, now)
    ensures RecordTraffic(t, id, deviceId, nodeId, up, down, now).0 == t
    ensures RecordTraffic(t, id, deviceId, nodeId, up, down, now).1.Failed?
  {
  }

  lemma Logged(t: Tables, id: string, deviceId: Option<string>, nodeId: string, up: int, down: int, now: Time)
    requires Logs(t, id, deviceId, nodeId, up, down, now)
    ensures
      var log := LogOf(id, deviceId, nodeId, up, down, now);
      var (after, counted) := IncrementQuota(t.(logs := t.logs + [log]), log.subscriptionId, Wrap64(up + down));
      && log.subscriptionId in t.counters
      && RecordTraffic(t, id, deviceId, nodeId, up, down, now).0 == after
      && (RecordTraffic(t, id, deviceId, nodeId, up, down, now).1.Done? <==> counted.Done?)
  {
  }

  /** How much room is left before the counter no longer fits a 64-bit integer. */
  predicate Fits(t: Tables, log: TrafficLog)
    requires log.subscriptionId in t.counters
  {
    t.counters[log.subscriptionId].used + log.up + log.down <= MAX_INT64
  }

  lemma WrapCases(n: int)
    requires 0 <= n <= 2 * MAX_INT64
    ensures Wrap64(n) == if n <= MAX_INT64 then n else n - TWO64
  {
  }

  lemma IncrementFits(t: Tables, id: string, delta: int)
    requires Conserved(t) && id in t.counters && 0 <= delta && t.counters[id].used + delta <= MAX_INT64
    ensures
      var (now, counted) := IncrementQuota(t, id, delta);
      && counted.Done? && now.counters == t.counters[id := t.counters[id].(used := t.counters[id].used + delta)]
      && now.quotas == t.quotas[id := Incremented(t, id, delta)]
      && now.logs == t.logs && now.baselines == t.baselines
      && ValidQuota(now.quotas[id].limit, now.quotas[id].used)
  {
    assert Mirrored(t, id);
  }

  /** A recorded entry is conserved exactly when its subscription's counter, with the
      entry added, still fits 64 bits, and exactly then the call completes. Otherwise
      the quota is refused after the log was written: a sum that wraps around is
      negative, and one that does not is too large. */
  lemma RecordConservesIff(
    t: Tables, id: string, deviceId: Option<string>, nodeId: string, up: int, down: int, now: Time)
    requires Conserved(t) && Logs(t, id, deviceId, nodeId, up, down, now)
    ensures TrimSpace(id) in t.counters
    ensures Conserved(RecordTraffic(t, id, deviceId, nodeId, up, down, now).0) <==>
      Fits(t, LogOf(id, deviceId, nodeId, up, down, now))
    ensures RecordTraffic(t, id, deviceId, nodeId, up, down, now).1.Done? <==>
      Fits(t, LogOf(id, deviceId, nodeId, up, down, now))
  {
    var log := LogOf(id, deviceId, nodeId, up, down, now);
    Logged(t, id, deviceId, nodeId, up, down, now);
    var delta := Wrap64(up + down);
    WrapCases(up + down);
    assert Mirrored(t, log.subscriptionId);
    LoggedIncrement(t, log, delta);
  }

  /** A log and the increment that goes with it. */
  lemma LoggedIncrement(t: Tables, log: TrafficLog, delta: int)
    requires Conserved(t) && log.subscriptionId in t.counters && Mirrored(t, log.subscriptionId)
    requires 0 <= log.up <= MAX_INT64 && 0 <= log.down <= MAX_INT64
    requires delta == if log.up + log.down <= MAX_INT64 then log.up + log.down else log.up + log.down - TWO64
    ensures
      var (after, counted) := IncrementQuota(t.(logs := t.logs + [log]), log.subscriptionId, delta);
      (Conserved(after) <==> Fits(t, log)) && (counted.Done? <==> Fits(t, log))
  {
    IncrementIgnoresLogs(t, log, delta);
    var after := IncrementQuota(t, log.subscriptionId, delta).0.(logs := t.logs + [log]);
    if Fits(t, log) {
      IncrementFits(t, log.subscriptionId, delta);
      CountedIsConserved(t, after, log);
    } else {
      IncrementIsRefused(t, log.subscriptionId, delta);
      UncountedIsNotConserved(t, log);
    }
  }

  lemma UncountedIsNotConserved(t: Tables, log: TrafficLog)
    requires Conserved(t) && log.subscriptionId in t.counters && log.up >= 0 && log.down >= 0 && log.up + log.down > 0
    ensures !Conserved(t.(logs := t.logs + [log]))
  {
    MiscountedIsNotConserved(t, t.(logs := t.logs + [log]), log);
  }

  lemma IncrementIsRefused(t: Tables, id: string, delta: int)
    requires id in t.counters && Mirrored(t, id) && (delta < 0 || t.counters[id].used + delta > MAX_INT64)
    ensures IncrementQuota(t, id, delta) == (t, Failed(StorageError))
  {
  }

  lemma IncrementIgnoresLogs(t: Tables, log: TrafficLog, delta: int)
    ensures IncrementQuota(t.(logs := t.logs + [log]), log.subscriptionId, delta) ==
      (IncrementQuota(t, log.subscriptionId, delta).0.(logs := t.logs + [log]),
       IncrementQuota(t, log.subscriptionId, delta).1)
  {
  }

  // ---- reports ----

  /** The logs that a report's items become. */
  function LogsOf(items: seq<Item>, nodeId: string, now: Time): seq<TrafficLog> {
    seq(|items|, i requires 0 <= i < |items| =>
      LogOf(items[i].subscriptionId, items[i].deviceId, nodeId, items[i].up, items[i].down, now))
  }

  lemma RecordAddsLog(t: Tables, item: Item, nodeId: string, now: Time)
    ensures
      var (after, result) := RecordTraffic(t, item.subscriptionId, item.deviceId, nodeId, item.up, item.down, now);
      var log := LogOf(item.subscriptionId, item.deviceId, nodeId, item.up, item.down, now);
      && (after.logs == t.logs || after.logs == t.logs + [log])
      && (result.Done? ==> after.logs == t.logs + [log])
      && after.nodes == t.nodes
  {
  }

  /** The logs so far are the first n of what is to be logged. */
  predicate LoggedPrefix(base: seq<TrafficLog>, logs: seq<TrafficLog>, all: seq<TrafficLog>, n: nat) {
    n <= |all| && logs == base + all[..n]
  }

  lemma PrefixExtends(
    base: seq<TrafficLog>, logs: seq<TrafficLog>, front: seq<TrafficLog>, all: seq<TrafficLog>, n: nat, log: TrafficLog)
    requires LoggedPrefix(base, logs, front, n) && all == front + [log]
    ensures LoggedPrefix(base, logs, all, n)
    ensures n == |front| ==> LoggedPrefix(base, logs + [log], all, n + 1)
  {
    assert all[..n] == front[..n];
    if n == |front| { assert all[..n + 1] == front[..n] + [log]; }
  }

  lemma RecordAllStep(t: Tables, nodeId: string, items: seq<Item>, now: Time)
    requires items != []
    ensures
      var last := items[|items| - 1];
      var log := LogOf(last.subscriptionId, last.deviceId, nodeId, last.up, last.down, now);
      var (before, failed) := RecordAll(t, nodeId, items[..|items| - 1], now);
      var (after, ended) := RecordAll(t, nodeId, items, now);
      if failed.Some? then after == before && ended.Some?
      else
        && (after.logs == before.logs || after.logs == before.logs + [log])
        && (ended.None? ==> after.logs == before.logs + [log])
  {
    var before := RecordAll(t, nodeId, items[..|items| - 1], now).0;
    RecordAddsLog(before, items[|items| - 1], nodeId, now);
  }

  /** Recording stops at the first failure: the logs are those of the items before
      it, with or without the failed item's own; all of them when nothing fails. */
  lemma {:induction false} RecordedLogs(t: Tables, nodeId: string, items: seq<Item>, now: Time) returns (n: nat)
    ensures LoggedPrefix(t.logs, RecordAll(t, nodeId, items, now).0.logs, LogsOf(items, nodeId, now), n)
    ensures RecordAll(t, nodeId, items, now).1.None? ==> n == |items|
  {
    if items == [] {
      n := 0;
    } else {
      var front, last := items[..|items| - 1], items[|items| - 1];
      var log := LogOf(last.subscriptionId, last.deviceId, nodeId, last.up, last.down, now);
      n := RecordedLogs(t, nodeId, front, now);
      assert LogsOf(items, nodeId, now) == LogsOf(front, nodeId, now) + [log];
      var logs := RecordAll(t, nodeId, front, now).0.logs;
      PrefixExtends(t.logs, logs, LogsOf(front, nodeId, now), LogsOf(items, nodeId, now), n, log);
      RecordAllStep(t, nodeId, items, now);
      if RecordAll(t, nodeId, items, now).0.logs != logs { n := n + 1; }
    }
  }

  /** A successful report writes one log per item, in order, and says how many. */
  lemma SuccessfulReportLogsAll(c: Crypto, t: Tables, token: string, items: seq<Item>, now: Time)
    requires RecordReport(c, t, token, items, now).1.Done?
    ensures
      var (after, result) := RecordReport(c, t, token, items, now);
      && after.logs == t.logs + LogsOf(CleanedAll(items), result.value.nodeId, now)
      && result.value.accepted == |items| == |after.logs| - |t.logs|
  {
    var nodeId := t.nodes[c.hash(TrimSpace(token))];
    var n := RecordedLogs(t, nodeId, CleanedAll(items), now);
  }

  // ---- collected and recorded bytes ----

  function ItemBytes(items: seq<Item>): int {
    if items == [] then 0 else ItemBytes(items[..|items| - 1]) + items[|items| - 1].up + items[|items| - 1].down
  }

  function LogBytes(logs: seq<TrafficLog>): int {
    if logs == [] then 0 else LogBytes(logs[..|logs| - 1]) + logs[|logs| - 1].up + logs[|logs| - 1].down
  }

  lemma {:induction false} LogBytesAdd(a: seq<TrafficLog>, b: seq<TrafficLog>)
    ensures LogBytes(a + b) == LogBytes(a) + LogBytes(b)
  {
    if b == [] {
      assert a + b == a;
    } else {
      assert (a + b)[..|a + b| - 1] == a + b[..|b| - 1];
      LogBytesAdd(a, b[..|b| - 1]);
    }
  }

  predicate NonNegative(items: seq<Item>) {
    forall i :: 0 <= i < |items| ==> items[i].up >= 0 && items[i].down >= 0
  }

  lemma {:induction false} PrefixBytes(items: seq<Item>, nodeId: string, now: Time, n: nat)
    requires n <= |items| && NonNegative(items)
    ensures 0 <= LogBytes(LogsOf(items, nodeId, now)[..n]) <= ItemBytes(items)
    ensures n == |items| ==> LogBytes(LogsOf(items, nodeId, now)[..n]) == ItemBytes(items)
    decreases |items|
  {
    var logs := LogsOf(items, nodeId, now);
    if items != [] {
      var front := items[..|items| - 1];
      assert logs[..|front|] == LogsOf(front, nodeId, now);
      if n == |items| {
        PrefixBytes(front, nodeId, now, |front|);
        assert logs[..n][..n - 1] == logs[..n - 1] == LogsOf(front, nodeId, now)[..|front|];
      } else {
        PrefixBytes(front, nodeId, now, n);
        assert logs[..n] == LogsOf(front, nodeId, now)[..n];
      }
    }
  }

  lemma {:induction false} CleaningKeepsBytes(items: seq<Item>)
    ensures ItemBytes(CleanedAll(items)) == ItemBytes(items)
  {
    if items != [] {
      assert CleanedAll(items)[..|items| - 1] == CleanedAll(items[..|items| - 1]);
      CleaningKeepsBytes(items[..|items| - 1]);
    }
  }

  /** The agent's loop: a collected batch is sent once; it may be lost, and if it
      arrives the answer does not matter. Collecting resets the counters of xray. */
  datatype Collection = Collection(items: seq<Item>, arrives: bool, now: Time)

  function Delivered(c: Crypto, t: Tables, token: string, batch: Collection): Tables {
    if batch.arrives then RecordReport(c, t, token, batch.items, batch.now).0 else t
  }

  function Loop(c: Crypto, t: Tables, token: string, batches: seq<Collection>): Tables {
    if batches == [] then t
    else Delivered(c, Loop(c, t, token, batches[..|batches| - 1]), token, batches[|batches| - 1])
  }

  function Collected(batches: seq<Collection>): int {
    if batches == [] then 0 else Collected(batches[..|batches| - 1]) + ItemBytes(batches[|batches| - 1].items)
  }

  predicate AllNonNegative(batches: seq<Collection>) {
    forall i :: 0 <= i < |batches| ==> NonNegative(batches[i].items)
  }

  lemma ReportBytes(c: Crypto, t: Tables, token: string, items: seq<Item>, now: Time)
    requires NonNegative(items)
    ensures
      var (after, result) := RecordReport(c, t, token, items, now);
      && LogBytes(t.logs) <= LogBytes(after.logs) <= LogBytes(t.logs) + ItemBytes(items)
      && (result.Done? ==> LogBytes(after.logs) == LogBytes(t.logs) + ItemBytes(items))
  {
    var (after, result) := RecordReport(c, t, token, items, now);
    var cleaned := CleanedAll(items);
    CleaningKeepsBytes(items);
    PrefixBytes(cleaned, "", now, 0);
    if after != t || result.Done? {
      var nodeId := t.nodes[c.hash(TrimSpace(token))];
      var n := RecordedLogs(t, nodeId, cleaned, now);
      PrefixBytes(cleaned, nodeId, now, n);
      LogBytesAdd(t.logs, LogsOf(cleaned, nodeId, now)[..n]);
    }
  }

  /** Never more bytes are recorded than were collected, whatever is lost. */
  lemma {:induction false} RecordedAtMostCollected(c: Crypto, t: Tables, token: string, batches: seq<Collection>)
    requires AllNonNegative(batches)
    ensures LogBytes(t.logs) <= LogBytes(Loop(c, t, token, batches).logs) <= LogBytes(t.logs) + Collected(batches)
  {
    if batches != [] {
      var front, last := batches[..|batches| - 1], batches[|batches| - 1];
      RecordedAtMostCollected(c, t, token, front);
      ReportBytes(c, Loop(c, t, token, front), token, last.items, last.now);
      PrefixBytes(last.items, "", last.now, 0);
    }
  }

  /** Exactly as many when every batch arrives and is accepted. */
  lemma {:induction false} RecordedIsCollected(c: Crypto, t: Tables, token: string, batches: seq<Collection>)
    requires AllNonNegative(batches)
    requires forall i :: 0 <= i < |batches| ==>
      batches[i].arrives &&
      RecordReport(c, Loop(c, t, token, batches[..i]), token, batches[i].items, batches[i].now).1.Done?
    ensures LogBytes(Loop(c, t, token, batches).logs) == LogBytes(t.logs) + Collected(batches)
  {
    if batches != [] {
      var front, last := batches[..|batches| - 1], batches[|batches| - 1];
      forall i | 0 <= i < |front|
        ensures front[i].arrives &&
          RecordReport(c, Loop(c, t, token, front[..i]), token, front[i].items, front[i].now).1.Done?
      {
        assert front[..i] == batches[..i];
      }
      RecordedIsCollected(c, t, token, front);
      ReportBytes(c, Loop(c, t, token, front), token, last.items, last.now);
    }
  }

  // ---- reports and the balance ----

  /** The item is logged, as far as the tables before the report tell. */
  predicate ItemLogs(t: Tables, nodeId: string, item: Item, now: Time) {
    Logs(t, item.subscriptionId, item.deviceId, nodeId, item.up, item.down, now)
  }

  predicate AllLog(t: Tables, nodeId: string, items: seq<Item>, now: Time) {
    forall i :: 0 <= i < |items| ==> ItemLogs(t, nodeId, items[i], now)
  }

  /** The bytes of a subscription's items. */
  function BytesOf(items: seq<Item>, id: string): int {
    if items == [] then 0
    else
      var last := items[|items| - 1];
      BytesOf(items[..|items| - 1], id) + if TrimSpace(last.subscriptionId) == id then last.up + last.down else 0
  }

  /** The last item's counter has room for its subscription's items so far. */
  predicate LastFits(t: Tables, items: seq<Item>)
    requires items != []
  {
    var id := TrimSpace(items[|items| - 1].subscriptionId);
    id in t.counters ==> t.counters[id].used + BytesOf(items, id) <= MAX_INT64
  }

  /** Before the report: as far as all items are logged, there is room for them. */
  predicate ItemsFit(t: Tables, nodeId: string, items: seq<Item>, now: Time) {
    forall n :: 1 <= n <= |items| && AllLog(t, nodeId, items[..n], now) ==> LastFits(t, items[..n])
  }

  /** What recording items has not touched, and what it has added. */
  predicate Counted(t: Tables, after: Tables, items: seq<Item>) {
    && after.nodes == t.nodes && after.devices == t.devices && after.counters.Keys == t.counters.Keys
    && forall id :: id in t.counters ==> after.counters[id].used == t.counters[id].used + BytesOf(items, id)
  }

  lemma FrontFits(t: Tables, nodeId: string, items: seq<Item>, now: Time)
    requires items != []
    ensures AllLog(t, nodeId, items, now) <==>
      AllLog(t, nodeId, items[..|items| - 1], now) && ItemLogs(t, nodeId, items[|items| - 1], now)
    ensures ItemsFit(t, nodeId, items, now) <==>
      ItemsFit(t, nodeId, items[..|items| - 1], now) && (AllLog(t, nodeId, items, now) ==> LastFits(t, items))
  {
    var k, front := |items| - 1, items[..|items| - 1];
    assert items[..k + 1] == items;
    forall n | 0 <= n <= k ensures front[..n] == items[..n] {}
    if ItemsFit(t, nodeId, items, now) {
      forall n | 1 <= n <= |front| && AllLog(t, nodeId, front[..n], now) ensures LastFits(t, front[..n]) {
        assert AllLog(t, nodeId, items[..n], now);
      }
    }
  }

  lemma SameLogs(t: Tables, after: Tables, nodeId: string, item: Item, now: Time)
    requires after.nodes == t.nodes && after.devices == t.devices && after.counters.Keys == t.counters.Keys
    ensures ItemLogs(after, nodeId, item, now) <==> ItemLogs(t, nodeId, item, now)
  {
  }

  /** What recording an item that fits does to the tables it does not log in. */
  predicate Added(before: Tables, after: Tables, id: string, bytes: int)
    requires id in before.counters
  {
    && after.nodes == before.nodes && after.devices == before.devices
    && after.counters == before.counters[id := before.counters[id].(used := before.counters[id].used + bytes)]
  }

  lemma RecordAdds(t: Tables, item: Item, nodeId: string, now: Time)
    requires Conserved(t) && ItemLogs(t, nodeId, item, now)
    requires TrimSpace(item.subscriptionId) in t.counters
    requires t.counters[TrimSpace(item.subscriptionId)].used + item.up + item.down <= MAX_INT64
    ensures
      var after := RecordTraffic(t, item.subscriptionId, item.deviceId, nodeId, item.up, item.down, now).0;
      Added(t, after, TrimSpace(item.subscriptionId), item.up + item.down)
  {
    var log := LogOf(item.subscriptionId, item.deviceId, nodeId, item.up, item.down, now);
    var delta := item.up + item.down;
    assert Mirrored(t, log.subscriptionId);
    WrapCases(delta);
    Logged(t, item.subscriptionId, item.deviceId, nodeId, item.up, item.down, now);
    IncrementIgnoresLogs(t, log, delta);
    IncrementFits(t, log.subscriptionId, delta);
    IncrementKeepsNodes(t, log.subscriptionId, delta);
  }

  lemma IncrementKeepsNodes(t: Tables, id: string, delta: int)
    ensures
      var now := IncrementQuota(t, id, delta).0;
      now.nodes == t.nodes && now.devices == t.devices
  {
  }

  lemma CountedGrows(t: Tables, before: Tables, after: Tables, items: seq<Item>, id: string)
    requires items != [] && Counted(t, before, items[..|items| - 1])
    requires id == TrimSpace(items[|items| - 1].subscriptionId) && id in before.counters
    requires Added(before, after, id, items[|items| - 1].up + items[|items| - 1].down)
    ensures Counted(t, after, items)
  {
  }

  predicate HasRoom(t: Tables, item: Item) {
    var id := TrimSpace(item.subscriptionId);
    id in t.counters && t.counters[id].used + item.up + item.down <= MAX_INT64
  }

  /** Everything that room for an item decides when it is recorded. */
  lemma RecordsIff(t: Tables, item: Item, nodeId: string, now: Time)
    requires Conserved(t) && ItemLogs(t, nodeId, item, now)
    ensures TrimSpace(item.subscriptionId) in t.counters
    ensures
      var (after, result) := RecordTraffic(t, item.subscriptionId, item.deviceId, nodeId, item.up, item.down, now);
      && (Conserved(after) <==> HasRoom(t, item)) && (result.Done? <==> HasRoom(t, item))
      && (HasRoom(t, item) ==> Added(t, after, TrimSpace(item.subscriptionId), item.up + item.down))
  {
    RecordConservesIff(t, item.subscriptionId, item.deviceId, nodeId, item.up, item.down, now);
    if HasRoom(t, item) { RecordAdds(t, item, nodeId, now); }
  }

  /** One more item, after a front that was counted. */
  lemma LastCounted(t: Tables, before: Tables, after: Tables, items: seq<Item>, id: string)
    requires items != [] && Counted(t, before, items[..|items| - 1])
    requires id == TrimSpace(items[|items| - 1].subscriptionId) && id in before.counters
    requires HasRoom(before, items[|items| - 1]) ==>
      Added(before, after, id, items[|items| - 1].up + items[|items| - 1].down)
    ensures HasRoom(before, items[|items| - 1]) <==> LastFits(t, items)
    ensures LastFits(t, items) ==> Counted(t, after, items)
  {
    LastRoom(t, before, items, id);
    if LastFits(t, items) { CountedGrows(t, before, after, items, id); }
  }

  /** Room for the last item after the front is room for all of them before. */
  lemma LastRoom(t: Tables, before: Tables, items: seq<Item>, id: string)
    requires items != [] && Counted(t, before, items[..|items| - 1])
    requires id == TrimSpace(items[|items| - 1].subscriptionId) && id in before.counters
    ensures LastFits(t, items) <==>
      before.counters[id].used + items[|items| - 1].up + items[|items| - 1].down <= MAX_INT64
  {
  }

  /** What is claimed of recording items: the tables it ends in, and whether it completes. */
  predicate Recorded(t: Tables, nodeId: string, items: seq<Item>, now: Time, after: Tables, done: bool) {
    && (Conserved(after) <==> ItemsFit(t, nodeId, items, now))
    && (done <==> AllLog(t, nodeId, items, now) && ItemsFit(t, nodeId, items, now))
    && (done ==> Counted(t, after, items))
  }

  /** What recording the last item in the tables before has to do with room. */
  predicate LastRecorded(before: Tables, logs: bool, item: Item, after: Tables, done: bool) {
    if logs then
      && TrimSpace(item.subscriptionId) in before.counters
      && (Conserved(after) <==> HasRoom(before, item)) && (done <==> HasRoom(before, item))
      && (HasRoom(before, item) ==> Added(before, after, TrimSpace(item.subscriptionId), item.up + item.down))
    else after == before && !done
  }

  lemma OneMore(
    t: Tables, nodeId: string, items: seq<Item>, now: Time, before: Tables, after: Tables, done: bool)
    requires items != [] && Recorded(t, nodeId, items[..|items| - 1], now, before, true)
    requires LastRecorded(before, ItemLogs(t, nodeId, items[|items| - 1], now), items[|items| - 1], after, done)
    ensures Recorded(t, nodeId, items, now, after, done)
  {
    var last := items[|items| - 1];
    FrontFits(t, nodeId, items, now);
    if ItemLogs(t, nodeId, last, now) {
      LastCounted(t, before, after, items, TrimSpace(last.subscriptionId));
    }
  }

  lemma OneRecorded(before: Tables, nodeId: string, item: Item, now: Time)
    requires Conserved(before)
    ensures
      var (after, result) := RecordTraffic(before, item.subscriptionId, item.deviceId, nodeId, item.up, item.down, now);
      LastRecorded(before, ItemLogs(before, nodeId, item, now), item, after, result.Done?)
  {
    if ItemLogs(before, nodeId, item, now) {
      RecordsIff(before, item, nodeId, now);
    } else {
      NotLogged(before, item.subscriptionId, item.deviceId, nodeId, item.up, item.down, now);
    }
  }

  /** A failure ends the recording where it is. */
  lemma FailedFront(t: Tables, nodeId: string, items: seq<Item>, now: Time, after: Tables)
    requires items != [] && Recorded(t, nodeId, items[..|items| - 1], now, after, false)
    ensures Recorded(t, nodeId, items, now, after, false)
  {
    FrontFits(t, nodeId, items, now);
  }

  type Recorder = (Tables, Item) -> (Tables, Result<()>)

  function RecorderAt(nodeId: string, now: Time): Recorder {
    (t: Tables, item: Item) => RecordTraffic(t, item.subscriptionId, item.deviceId, nodeId, item.up, item.down, now)
  }

  /** RecordAll, over any way to record one item. */
  function RecordEach(record: Recorder, t: Tables, items: seq<Item>): (Tables, bool) {
    if items == [] then (t, true)
    else
      var (before, done) := RecordEach(record, t, items[..|items| - 1]);
      if !done then (before, false)
      else (record(before, items[|items| - 1]).0, record(before, items[|items| - 1]).1.Done?)
  }

  lemma {:induction false} RecordAllIsEach(t: Tables, nodeId: string, items: seq<Item>, now: Time)
    ensures
      var (after, failed) := RecordAll(t, nodeId, items, now);
      RecordEach(RecorderAt(nodeId, now), t, items) == (after, failed.None?)
  {
    if items != [] { RecordAllIsEach(t, nodeId, items[..|items| - 1], now); }
  }

  ghost predicate RecordsOne(record: Recorder, nodeId: string, now: Time) {
    forall t, item :: Conserved(t) ==>
      LastRecorded(t, ItemLogs(t, nodeId, item, now), item, record(t, item).0, record(t, item).1.Done?)
  }

  lemma {:induction false} EachRecorded(record: Recorder, t: Tables, nodeId: string, items: seq<Item>, now: Time)
    requires Conserved(t) && RecordsOne(record, nodeId, now)
    ensures
      var (after, done) := RecordEach(record, t, items);
      Recorded(t, nodeId, items, now, after, done)
  {
    if items != [] {
      var last := items[|items| - 1];
      var (before, done) := RecordEach(record, t, items[..|items| - 1]);
      EachRecorded(record, t, nodeId, items[..|items| - 1], now);
      if done {
        var (after, result) := record(before, last);
        assert Conserved(before);
        assert LastRecorded(before, ItemLogs(before, nodeId, last, now), last, after, result.Done?);
        SameLogs(t, before, nodeId, last, now);
        OneMore(t, nodeId, items, now, before, after, result.Done?);
      } else {
        FailedFront(t, nodeId, items, now, before);
      }
    }
  }

  /** Recording items one after the other keeps the balance exactly when they fit, and
      completes exactly when they are all logged, too. */
  lemma ItemsConserveIff(t: Tables, nodeId: string, items: seq<Item>, now: Time)
    requires Conserved(t)
    ensures
      var (after, failed) := RecordAll(t, nodeId, items, now);
      Recorded(t, nodeId, items, now, after, failed.None?)
  {
    var record := RecorderAt(nodeId, now);
    forall before, item | Conserved(before)
      ensures LastRecorded(
        before, ItemLogs(before, nodeId, item, now), item, record(before, item).0, record(before, item).1.Done?)
    {
      OneRecorded(before, nodeId, item, now);
    }
    EachRecorded(record, t, nodeId, items, now);
    RecordAllIsEach(t, nodeId, items, now);
  }

  /** The report gets as far as recording: a known token and valid items. */
  predicate Admitted(c: Crypto, t: Tables, token: string, items: seq<Item>) {
    && TrimSpace(token) != "" && c.hash(TrimSpace(token)) in t.nodes && items != []
    && forall i :: 0 <= i < |items| ==> ValidItem(items[i])
  }

  predicate ReportLogs(c: Crypto, t: Tables, token: string, items: seq<Item>, now: Time)
    requires Admitted(c, t, token, items)
  {
    AllLog(t, t.nodes[c.hash(TrimSpace(token))], CleanedAll(items), now)
  }

  predicate ReportFits(c: Crypto, t: Tables, token: string, items: seq<Item>, now: Time)
    requires Admitted(c, t, token, items)
  {
    ItemsFit(t, t.nodes[c.hash(TrimSpace(token))], CleanedAll(items), now)
  }

  lemma NotAdmitted(c: Crypto, t: Tables, token: string, items: seq<Item>, now: Time)
    requires !Admitted(c, t, token, items)
    ensures RecordReport(c, t, token, items, now).0 == t && RecordReport(c, t, token, items, now).1.Failed?
  {
  }

  /** From the tables before it: a report keeps the balance exactly when it is not
      admitted or its items fit, and it completes exactly when it is admitted and its
      items are all logged and fit. One that is not admitted changes nothing. */
  lemma ReportConservesIff(c: Crypto, t: Tables, token: string, items: seq<Item>, now: Time)
    requires Conserved(t)
    ensures
      var (after, result) := RecordReport(c, t, token, items, now);
      && (Conserved(after) <==> (Admitted(c, t, token, items) ==> ReportFits(c, t, token, items, now)))
      && (result.Done? <==>
            Admitted(c, t, token, items) && ReportLogs(c, t, token, items, now) && ReportFits(c, t, token, items, now))
      && (!Admitted(c, t, token, items) ==> after == t)
  {
    if Admitted(c, t, token, items) {
      ItemsConserveIff(t, t.nodes[c.hash(TrimSpace(token))], CleanedAll(items), now);
    } else {
      NotAdmitted(c, t, token, items, now);
    }
  }

  // ---- whole runs ----

  datatype TrafficOp =
    | OpCounter(id: string, limit: Option<int>)
    | OpRecord(id: string, deviceId: Option<string>, nodeId: string, up: int, down: int, now: Time)
    | OpReport(token: string, items: seq<Item>, now: Time)
    | OpSet(id: string, limit: Option<int>, used: Option<int>, resetAt: Option<Time>)
    | OpReset(id: string)
    | OpResetIfNeeded(id: string, now: Time)

  function Step(c: Crypto, t: Tables, op: TrafficOp): Tables {
    match op
    case OpCounter(id, limit) => CreateCounter(t, id, limit)
    case OpRecord(id, deviceId, nodeId, up, down, now) => RecordTraffic(t, id, deviceId, nodeId, up, down, now).0
    case OpReport(token, items, now) => RecordReport(c, t, token, items, now).0
    case OpSet(id, limit, used, resetAt) => ChooseQuota(t, id, limit, used, resetAt).0
    case OpReset(id) => ResetQuota(t, id).0
    case OpResetIfNeeded(id, now) => ResetIfNeeded(t, id, now)
  }

  function Run(c: Crypto, t: Tables, ops: seq<TrafficOp>): Tables {
    if ops == [] then t else Step(c, Run(c, t, ops[..|ops| - 1]), ops[|ops| - 1])
  }

  /** From the tables before the operation: what it records, if anything, fits. */
  predicate FitsNext(c: Crypto, t: Tables, op: TrafficOp) {
    match op
    case OpRecord(id, deviceId, nodeId, up, down, now) => ItemsFit(t, nodeId, [Item(id, deviceId, up, down)], now)
    case OpReport(token, items, now) => Admitted(c, t, token, items) ==> ReportFits(c, t, token, items, now)
    case _ => true
  }

  /** The call returns without an error, or it has changed nothing. */
  predicate Completes(c: Crypto, t: Tables, op: TrafficOp) {
    Step(c, t, op) == t ||
    match op
    case OpRecord(id, deviceId, nodeId, up, down, now) => RecordTraffic(t, id, deviceId, nodeId, up, down, now).1.Done?
    case OpReport(token, items, now) => RecordReport(c, t, token, items, now).1.Done?
    case _ => true
  }

  lemma SyncedIsConserved(t: Tables, id: string, quota: Quota)
    requires Conserved(t) && id in t.counters && ValidQuota(quota.limit, quota.used)
    ensures Conserved(Synced(t, id, quota))
  {
    var now := Synced(t, id, quota);
    forall n | n in now.counters ensures Balanced(now, n) && Mirrored(now, n) {
      if n != id { assert Balanced(t, n) && Mirrored(t, n); }
    }
  }

  lemma NewCounterIsConserved(t: Tables, id: string, limit: Option<int>)
    requires Conserved(t)
    ensures Conserved(CreateCounter(t, id, limit))
  {
    var now := CreateCounter(t, id, limit);
    forall n | n in now.counters ensures Balanced(now, n) && Mirrored(now, n) {
      if n in t.counters { assert Balanced(t, n) && Mirrored(t, n); }
    }
  }

  lemma OneItem(t: Tables, nodeId: string, item: Item, now: Time)
    ensures ItemsFit(t, nodeId, [item], now) <==>
      (ItemLogs(t, nodeId, item, now) ==>
         Fits(t, LogOf(item.subscriptionId, item.deviceId, nodeId, item.up, item.down, now)))
  {
    FrontFits(t, nodeId, [item], now);
    assert [item][..0] == [];
    assert BytesOf([item], TrimSpace(item.subscriptionId)) == item.up + item.down;
  }

  /** A step keeps the balance exactly when what it records fits. */
  lemma StepConservesIff(c: Crypto, t: Tables, op: TrafficOp)
    requires Conserved(t)
    ensures Conserved(Step(c, t, op)) <==> FitsNext(c, t, op)
  {
    match op
    case OpCounter(id, limit) => NewCounterIsConserved(t, id, limit);
    case OpRecord(id, deviceId, nodeId, up, down, now) =>
      OneItem(t, nodeId, Item(id, deviceId, up, down), now);
      if Logs(t, id, deviceId, nodeId, up, down, now) {
        RecordConservesIff(t, id, deviceId, nodeId, up, down, now);
      } else {
        NotLogged(t, id, deviceId, nodeId, up, down, now);
      }
    case OpReport(token, items, now) => ReportConservesIff(c, t, token, items, now);
    case OpSet(id, limit, used, resetAt) => SetConserves(t, id, limit, used, resetAt);
    case OpReset(id) => ResetConserves(t, id);
    case OpResetIfNeeded(id, _) => ResetConserves(t, TrimSpace(id));
  }

  lemma SetConserves(t: Tables, id: string, limit: Option<int>, used: Option<int>, resetAt: Option<Time>)
    requires Conserved(t)
    ensures Conserved(ChooseQuota(t, id, limit, used, resetAt).0)
  {
    var trimmed := TrimSpace(id);
    var now := ChooseQuota(t, id, limit, used, resetAt).0;
    if now != t {
      var quota := now.quotas[trimmed];
      SyncedIsConserved(t, trimmed, quota);
    }
  }

  lemma ResetConserves(t: Tables, id: string)
    requires Conserved(t)
    ensures Conserved(ResetQuota(t, id).0)
  {
    var (now, result) := ResetQuota(t, id);
    if result.Done? { SyncedIsConserved(t, id, now.quotas[id]); }
  }

  /** Over every run of records, reports, settings and resets whose sums fit: quota row
      and counter are equal, and both are the value at the last set or reset plus the
      logs since. */
  lemma {:induction false} RunConserves(c: Crypto, t: Tables, ops: seq<TrafficOp>)
    requires Conserved(t)
    requires forall i :: 0 <= i < |ops| ==> FitsNext(c, Run(c, t, ops[..i]), ops[i])
    ensures Conserved(Run(c, t, ops))
  {
    if ops != [] {
      var front := ops[..|ops| - 1];
      forall i | 0 <= i < |front| ensures FitsNext(c, Run(c, t, front[..i]), front[i]) {
        assert front[..i] == ops[..i];
      }
      RunConserves(c, t, front);
      StepConservesIff(c, Run(c, t, front), ops[|ops| - 1]);
    }
  }

  /** A call that completes has kept the balance. */
  lemma CompletedFits(c: Crypto, t: Tables, op: TrafficOp)
    requires Conserved(t) && Completes(c, t, op)
    ensures FitsNext(c, t, op)
  {
    StepConservesIff(c, t, op);
    match op
    case OpRecord(id, deviceId, nodeId, up, down, now) =>
      if RecordTraffic(t, id, deviceId, nodeId, up, down, now).1.Done? {
        OneItem(t, nodeId, Item(id, deviceId, up, down), now);
        if Logs(t, id, deviceId, nodeId, up, down, now) { RecordConservesIff(t, id, deviceId, nodeId, up, down, now); }
      }
    case OpReport(token, items, now) => ReportConservesIff(c, t, token, items, now);
    case _ =>
  }

  lemma {:induction false} CompletedRunConserves(c: Crypto, t: Tables, ops: seq<TrafficOp>)
    requires Conserved(t)
    requires forall i :: 0 <= i < |ops| ==> Completes(c, Run(c, t, ops[..i]), ops[i])
    ensures Conserved(Run(c, t, ops))
  {
    if ops != [] {
      var front := ops[..|ops| - 1];
      forall i | 0 <= i < |front| ensures Completes(c, Run(c, t, front[..i]), front[i]) {
        assert front[..i] == ops[..i];
      }
      CompletedRunConserves(c, t, front);
      CompletedFits(c, Run(c, t, front), ops[|ops| - 1]);
      StepConservesIff(c, Run(c, t, front), ops[|ops| - 1]);
    }
  }

  function EmptyTables(nodes: map<string, string>, devices: set<string>): Tables {
    Tables(map[], map[], [], nodes, devices, map[])
  }

  /** Over every run of the service in which each call completes, whatever the amounts:
      quota row and counter are equal, and both are the value at the last set or reset
      plus the logs since. */
  lemma ServiceConserves(c: Crypto, nodes: map<string, string>, devices: set<string>, ops: seq<TrafficOp>)
    requires forall i :: 0 <= i < |ops| ==> Completes(c, Run(c, EmptyTables(nodes, devices), ops[..i]), ops[i])
    ensures Conserved(Run(c, EmptyTables(nodes, devices), ops))
  {
    CompletedRunConserves(c, EmptyTables(nodes, devices), ops);
  }

  // ---- traffic that is lost ----

  /** A subscription counted up to the largest 64-bit integer. */
  function FullTables(id: string, nodeId: string): Tables {
    Tables(
      map[id := Counter(None, MAX_INT64)], map[id := Quota(None, MAX_INT64, None)], [], map["hash" := nodeId], {},
      map[id := Baseline(MAX_INT64, 0)])
  }

  /** They are reached: a new counter is set to that value. */
  lemma FullTablesAreReached(c: Crypto, id: string, nodeId: string)
    requires id != "" && Trimmed(id)
    ensures Run(c, EmptyTables(map["hash" := nodeId], {}), [OpCounter(id, None), OpSet(id, None, Some(MAX_INT64), None)])
      == FullTables(id, nodeId)
  {
    var empty := EmptyTables(map["hash" := nodeId], {});
    var a, b := OpCounter(id, None), OpSet(id, None, Some(MAX_INT64), None);
    TrimmedIsFixed(id);
    assert [a, b][..1] == [a] && [a][..0] == [];
    assert Run(c, empty, [a]) == Step(c, Run(c, empty, []), a) == CreateCounter(empty, id, None);
    assert Run(c, empty, [a, b]) == Step(c, CreateCounter(empty, id, None), b);
  }

  /** In tables that a new counter and one setting lead to, one byte more is logged and
      not counted, and the call fails. */
  lemma FullCounterLosesTraffic(c: Crypto, id: string, nodeId: string, now: Time)
    requires id != "" && Trimmed(id) && nodeId != "" && Trimmed(nodeId)
    ensures
      var ops := [OpCounter(id, None), OpSet(id, None, Some(MAX_INT64), None)];
      var t := Run(c, EmptyTables(map["hash" := nodeId], {}), ops);
      var (after, result) := RecordTraffic(t, id, None, nodeId, 1, 0, now);
      && Conserved(t) && Logs(t, id, None, nodeId, 1, 0, now) && !Fits(t, LogOf(id, None, nodeId, 1, 0, now))
      && after == t.(logs := [LogOf(id, None, nodeId, 1, 0, now)]) && result.Failed? && !Conserved(after)
  {
    var t := FullTables(id, nodeId);
    FullTablesAreReached(c, id, nodeId);
    TrimmedIsFixed(id);
    TrimmedIsFixed(nodeId);
    assert t.nodes["hash"] == nodeId;
    assert Balanced(t, id) && Mirrored(t, id);
    RecordConservesIff(t, id, None, nodeId, 1, 0, now);
  }
}
