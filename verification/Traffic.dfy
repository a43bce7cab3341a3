/** Traffic accounting on the panel (traffic/service.go, repository.go, model.go):
    logs, quota rows and the counters mirrored on subscriptions. Every repository
    call is one or two statements that take effect one after the other. */
module Traffic {
  import opened Text
  import opened Json
  import opened ConfigBundle

  type Time = int

  // ---- int64 ----

  const TWO64: int := 0x1_0000_0000_0000_0000

  predicate Fits64(n: int) {
    -MAX_INT64 - 1 <= n <= MAX_INT64
  }

  /** Go's int64 addition wraps around. */
  function Wrap64(n: int): (r: int)
    ensures Fits64(r) && (Fits64(n) ==> r == n)
    ensures (n - r) % TWO64 == 0
  {
    (n + MAX_INT64 + 1) % TWO64 - MAX_INT64 - 1
  }

  // ---- tables ----

  datatype TrafficLog = TrafficLog(subscriptionId: string, deviceId: Option<string>, nodeId: string, up: int, down: int, at: Time)
  datatype Counter = Counter(limit: Option<int>, used: int)
  datatype Quota = Quota(limit: Option<int>, used: int, resetAt: Option<Time>)

  /** What the counter was set to last, and how many logs there were then. */
  datatype Baseline = Baseline(value: int, logs: nat)

  /** nodes: enabled registered nodes by auth token hash. baselines is a history variable. */
  datatype Tables = Tables(
    counters: map<string, Counter>, quotas: map<string, Quota>, logs: seq<TrafficLog>,
    nodes: map<string, string>, devices: set<string>, baselines: map<string, Baseline>)

  datatype TrafficError = NotFound | InvalidInput | Unauthorized | StorageError
  datatype Result<+T> = Done(value: T) | Failed(error: TrafficError)

  // ---- derived fields ----

  datatype QuotaView = QuotaView(limit: Option<int>, used: int, remaining: Option<int>, exceeded: bool, resetAt: Option<Time>)

  function WithDerivedFields(q: Quota): (v: QuotaView)
    ensures v.used == q.used && v.limit == q.limit
    ensures v.remaining.Some? <==> q.limit.Some?
    ensures q.limit.Some? && q.limit.value > 0 ==> (v.exceeded <==> v.remaining == Some(0))
    ensures q.limit.Some? && q.used <= q.limit.value ==> v.remaining.value + q.used == q.limit.value
    ensures q.limit.None? ==> !v.exceeded
  {
    match q.limit
    case None => QuotaView(None, q.used, None, false, q.resetAt)
    case Some(limit) =>
      var left := limit - q.used;
      QuotaView(q.limit, q.used, Some(if left < 0 then 0 else left), q.used >= limit, q.resetAt)
  }

  // ---- repository ----

  function CreateLog(t: Tables, log: TrafficLog): (Tables, Result<()>) {
    if log.subscriptionId !in t.counters || log.nodeId !in t.nodes.Values
       || (log.deviceId.Some? && log.deviceId.value !in t.devices) || !Fits64(log.up) || !Fits64(log.down) then
      (t, Failed(StorageError))
    else (t.(logs := t.logs + [log]), Done(()))
  }

  predicate ValidQuota(limit: Option<int>, used: int) {
    (limit.Some? ==> 0 < limit.value <= MAX_INT64) && 0 <= used <= MAX_INT64
  }

  function Incremented(t: Tables, id: string, delta: int): Quota
    requires id in t.counters
  {
    if id in t.quotas then t.quotas[id].(used := t.quotas[id].used + delta)
    else Quota(t.counters[id].limit, delta, None)
  }

  /** The row that a statement proposes; the table checks it even when a row exists
      and is updated instead. */
  function Proposed(t: Tables, id: string, used: int): Quota
    requires id in t.counters
  {
    Quota(t.counters[id].limit, used, None)
  }

  /** The quota row, then the mirrored counter. */
  function IncrementQuota(t: Tables, id: string, delta: int): (Tables, Result<QuotaView>) {
    if id !in t.counters then (t, Failed(NotFound))
    else
      var quota := Incremented(t, id, delta);
      if !ValidQuota(Proposed(t, id, delta).limit, delta) || !ValidQuota(quota.limit, quota.used) then
        (t, Failed(StorageError))
      else
        var first := t.(quotas := t.quotas[id := quota]);
        var used := t.counters[id].used + delta;
        if !(0 <= used <= MAX_INT64) then (first, Failed(StorageError))
        else
          (first.(counters := t.counters[id := t.counters[id].(used := used)]), Done(WithDerivedFields(quota)))
  }

  /** Both rows at a value; a new baseline. */
  function Synced(t: Tables, id: string, quota: Quota): Tables {
    t.(quotas := t.quotas[id := quota], counters := t.counters[id := Counter(quota.limit, quota.used)],
       baselines := t.baselines[id := Baseline(quota.used, |t.logs|)])
  }

  function SetQuota(t: Tables, id: string, limit: Option<int>, used: int, resetAt: Option<Time>):
    (Tables, Result<QuotaView>)
  {
    if id !in t.counters then (t, Failed(NotFound))
    else if !ValidQuota(limit, used) then (t, Failed(StorageError))
    else
      var quota := Quota(limit, used, resetAt);
      (Synced(t, id, quota), Done(WithDerivedFields(quota)))
  }

  function ResetQuota(t: Tables, id: string): (Tables, Result<QuotaView>) {
    if id !in t.counters then (t, Failed(NotFound))
    else
      var quota := Quota(if id in t.quotas then t.quotas[id].limit else t.counters[id].limit, 0, None);
      if !ValidQuota(Proposed(t, id, 0).limit, 0) || !ValidQuota(quota.limit, 0) then (t, Failed(StorageError))
      else (Synced(t, id, quota), Done(WithDerivedFields(quota)))
  }

  /** A quota row's limit falls back to the subscription's. */
  function GetQuota(t: Tables, id: string): Result<QuotaView> {
    if id !in t.counters then Failed(NotFound)
    else if id !in t.quotas then Done(WithDerivedFields(Quota(t.counters[id].limit, t.counters[id].used, None)))
    else
      var q := t.quotas[id];
      Done(WithDerivedFields(q.(limit := if q.limit.Some? then q.limit else t.counters[id].limit)))
  }

  // ---- service ----

  datatype Item = Item(subscriptionId: string, deviceId: Option<string>, up: int, down: int)

  function CleanText(s: Option<string>): Option<string> {
    if s.None? || TrimSpace(s.value) == "" then None else Some(TrimSpace(s.value))
  }

  function RecordTraffic(
    t: Tables, id: string, deviceId: Option<string>, nodeId: string, up: int, down: int, now: Time): (Tables, Result<()>)
  {
    if TrimSpace(id) == "" || TrimSpace(nodeId) == "" || up < 0 || down < 0 then (t, Failed(InvalidInput))
    else
      var (logged, created) := CreateLog(t, TrafficLog(TrimSpace(id), CleanText(deviceId), TrimSpace(nodeId), up, down, now));
      if created.Failed? then (logged, created)
      else
        var (now', counted) := IncrementQuota(logged, TrimSpace(id), Wrap64(up + down));
        (now', if counted.Done? then Done(()) else Failed(counted.error))
  }

  predicate ValidItem(item: Item) {
    TrimSpace(item.subscriptionId) != "" && item.up >= 0 && item.down >= 0
  }

  function Cleaned(item: Item): Item {
    item.(subscriptionId := TrimSpace(item.subscriptionId), deviceId := CleanText(item.deviceId))
  }

  function CleanedAll(items: seq<Item>): seq<Item> {
    seq(|items|, i requires 0 <= i < |items| => Cleaned(items[i]))
  }

  /** The totals as int64 sums. */
  function UpOf(items: seq<Item>): int {
    if items == [] then 0 else Wrap64(UpOf(items[..|items| - 1]) + items[|items| - 1].up)
  }

  function DownOf(items: seq<Item>): int {
    if items == [] then 0 else Wrap64(DownOf(items[..|items| - 1]) + items[|items| - 1].down)
  }

  /** One after the other, up to the first that fails. */
  function RecordAll(t: Tables, nodeId: string, items: seq<Item>, now: Time): (Tables, Option<TrafficError>) {
    if items == [] then (t, None)
    else
      var (before, failed) := RecordAll(t, nodeId, items[..|items| - 1], now);
      if failed.Some? then (before, failed)
      else
        var item := items[|items| - 1];
        var (after, result) := RecordTraffic(before, item.subscriptionId, item.deviceId, nodeId, item.up, item.down, now);
        (after, if result.Done? then None else Some(result.error))
  }

  datatype ReportResult = ReportResult(nodeId: string, accepted: nat, up: int, down: int, total: int)

  function RecordReport(c: Crypto, t: Tables, token: string, items: seq<Item>, now: Time): (Tables, Result<ReportResult>) {
    if TrimSpace(token) == "" then (t, Failed(Unauthorized))
    else if items == [] || exists i :: 0 <= i < |items| && !ValidItem(items[i]) then (t, Failed(InvalidInput))
    else if c.hash(TrimSpace(token)) !in t.nodes then (t, Failed(Unauthorized))
    else
      var nodeId := t.nodes[c.hash(TrimSpace(token))];
      Concluded(RecordAll(t, nodeId, CleanedAll(items), now), nodeId, |items|, UpOf(items), DownOf(items))
  }

  function Concluded(recorded: (Tables, Option<TrafficError>), nodeId: string, accepted: nat, up: int, down: int):
    (Tables, Result<ReportResult>)
  {
    if recorded.1.Some? then (recorded.0, Failed(recorded.1.value))
    else (recorded.0, Done(ReportResult(nodeId, accepted, up, down, Wrap64(up + down))))
  }

  function ChooseQuota(t: Tables, id: string, limit: Option<int>, used: Option<int>, resetAt: Option<Time>):
    (Tables, Result<QuotaView>)
  {
    var trimmed := TrimSpace(id);
    if trimmed == "" || (limit.Some? && limit.value <= 0) || (used.Some? && used.value < 0) then (t, Failed(InvalidInput))
    else
      var current := GetQuota(t, trimmed);
      SetQuota(
        t, trimmed, limit, if used.Some? then used.value else if current.Done? then current.value.used else 0, resetAt)
  }

  function ResetIfNeeded(t: Tables, id: string, now: Time): Tables {
    match GetQuota(t, TrimSpace(id))
    case Failed(_) => t
    case Done(view) =>
      if view.resetAt.Some? && view.resetAt.value <= now then ResetQuota(t, TrimSpace(id)).0 else t
  }

  function CreateCounter(t: Tables, id: string, limit: Option<int>): Tables {
    if id in t.counters || !ValidQuota(limit, 0) then t
    else t.(counters := t.counters[id := Counter(limit, 0)], baselines := t.baselines[id := Baseline(0, |t.logs|)])
  }

  // ---- the service object over its tables ----

  class TrafficService {
    const crypto: Crypto
    const nodes: map<string, string>
    const devices: set<string>
    var counters: map<string, Counter>
    var quotas: map<string, Quota>
    var logs: seq<TrafficLog>
    ghost var baselines: map<string, Baseline>

    ghost function Now(): Tables
      reads this
    {
      Tables(counters, quotas, logs, nodes, devices, baselines)
    }

    constructor (crypto: Crypto, nodes: map<string, string>, devices: set<string>)
      ensures Now() == Tables(map[], map[], [], nodes, devices, map[])
      ensures this.crypto == crypto
    {
      this.crypto, this.nodes, this.devices := crypto, nodes, devices;
      counters, quotas, logs, baselines := map[], map[], [], map[];
    }

    method InsertLog(log: TrafficLog) returns (result: Result<()>)
      modifies this`logs
      ensures (Now(), result) == CreateLog(old(Now()), log)
    {
      if log.subscriptionId !in counters || log.nodeId !in nodes.Values
         || (log.deviceId.Some? && log.deviceId.value !in devices) || !Fits64(log.up) || !Fits64(log.down) {
        return Failed(StorageError);
      }
      logs := logs + [log];
      return Done(());
    }

    method AddToQuota(id: string, delta: int) returns (result: Result<QuotaView>)
      modifies this`quotas, this`counters
      ensures (Now(), result) == IncrementQuota(old(Now()), id, delta)
    {
      if id !in counters {
        return Failed(NotFound);
      }
      var quota := Quota(counters[id].limit, delta, None);
      if !ValidQuota(quota.limit, quota.used) {
        return Failed(StorageError);
      }
      if id in quotas {
        quota := quotas[id].(used := quotas[id].used + delta);
      }
      if !ValidQuota(quota.limit, quota.used) {
        return Failed(StorageError);
      }
      quotas := quotas[id := quota];
      var used := counters[id].used + delta;
      if used < 0 || used > MAX_INT64 {
        return Failed(StorageError);
      }
      counters := counters[id := counters[id].(used := used)];
      return Done(WithDerivedFields(quota));
    }

    method Record(id: string, deviceId: Option<string>, nodeId: string, up: int, down: int, now: Time)
      returns (result: Result<()>)
      modifies this
      ensures (Now(), result) == RecordTraffic(old(Now()), id, deviceId, nodeId, up, down, now)
    {
      if TrimSpace(id) == "" || TrimSpace(nodeId) == "" || up < 0 || down < 0 {
        return Failed(InvalidInput);
      }
      result := InsertLog(TrafficLog(TrimSpace(id), CleanText(deviceId), TrimSpace(nodeId), up, down, now));
      if result.Failed? {
        return;
      }
      var counted := AddToQuota(TrimSpace(id), Wrap64(up + down));
      return if counted.Done? then Done(()) else Failed(counted.error);
    }

    method CleanItems(items: seq<Item>) returns (cleaned: Option<seq<Item>>, up: int, down: int)
      ensures cleaned.None? <==> exists i :: 0 <= i < |items| && !ValidItem(items[i])
      ensures cleaned.Some? ==> cleaned.value == CleanedAll(items) && up == UpOf(items) && down == DownOf(items)
    {
      var kept: seq<Item> := [];
      up, down := 0, 0;
      for i := 0 to |items|
        invariant forall j :: 0 <= j < i ==> ValidItem(items[j])
        invariant kept == CleanedAll(items[..i]) && up == UpOf(items[..i]) && down == DownOf(items[..i])
      {
        if !ValidItem(items[i]) {
          return None, 0, 0;
        }
        CleanedNext(items, i);
        up := Wrap64(up + items[i].up);
        down := Wrap64(down + items[i].down);
        kept := kept + [Cleaned(items[i])];
      }
      assert items[..|items|] == items;
      cleaned := Some(kept);
    }

    method RecordItems(nodeId: string, items: seq<Item>, now: Time) returns (failed: Option<TrafficError>)
      modifies this
      ensures (Now(), failed) == RecordAll(old(Now()), nodeId, items, now)
    {
      for i := 0 to |items|
        invariant (Now(), None) == RecordAll(old(Now()), nodeId, items[..i], now)
      {
        assert items[..i + 1][..i] == items[..i];
        var result := Record(items[i].subscriptionId, items[i].deviceId, nodeId, items[i].up, items[i].down, now);
        if result.Failed? {
          FailureStays(old(Now()), nodeId, items, i + 1, now);
          return Some(result.error);
        }
      }
      assert items[..|items|] == items;
      return None;
    }

    method RecordReported(token: string, items: seq<Item>, now: Time) returns (result: Result<ReportResult>)
      modifies this
      ensures (Now(), result) == RecordReport(crypto, old(Now()), token, items, now)
    {
      if TrimSpace(token) == "" {
        return Failed(Unauthorized);
      }
      if items == [] {
        return Failed(InvalidInput);
      }
      var cleaned, up, down := CleanItems(items);
      if cleaned.None? {
        return Failed(InvalidInput);
      }
      var hash := crypto.hash(TrimSpace(token));
      if hash !in nodes {
        return Failed(Unauthorized);
      }
      result := RecordAdmitted(nodes[hash], cleaned.value, up, down, now);
    }

    /** The part of a report that writes. */
    method RecordAdmitted(nodeId: string, cleaned: seq<Item>, up: int, down: int, now: Time)
      returns (result: Result<ReportResult>)
      modifies this
      ensures (Now(), result) == Concluded(RecordAll(old(Now()), nodeId, cleaned, now), nodeId, |cleaned|, up, down)
    {
      var failed := RecordItems(nodeId, cleaned, now);
      if failed.Some? {
        return Failed(failed.value);
      }
      return Done(ReportResult(nodeId, |cleaned|, up, down, Wrap64(up + down)));
    }

    method ResetCounter(id: string) returns (result: Result<QuotaView>)
      modifies this
      ensures (Now(), result) == ResetQuota(old(Now()), id)
    {
      if id !in counters {
        return Failed(NotFound);
      }
      var limit := if id in quotas then quotas[id].limit else counters[id].limit;
      if !ValidQuota(counters[id].limit, 0) || !ValidQuota(limit, 0) {
        return Failed(StorageError);
      }
      quotas := quotas[id := Quota(limit, 0, None)];
      counters := counters[id := Counter(limit, 0)];
      baselines := baselines[id := Baseline(0, |logs|)];
      return Done(WithDerivedFields(quotas[id]));
    }
  }

  /** One item more is cleaned and added up. */
  lemma CleanedNext(items: seq<Item>, i: nat)
    requires i < |items|
    ensures CleanedAll(items[..i + 1]) == CleanedAll(items[..i]) + [Cleaned(items[i])]
    ensures UpOf(items[..i + 1]) == Wrap64(UpOf(items[..i]) + items[i].up)
    ensures DownOf(items[..i + 1]) == Wrap64(DownOf(items[..i]) + items[i].down)
  {
    assert items[..i + 1][..i] == items[..i];
  }

  /** Once an item has failed the rest is not looked at. */
  lemma {:induction false} FailureStays(t: Tables, nodeId: string, items: seq<Item>, i: nat, now: Time)
    requires i <= |items| && RecordAll(t, nodeId, items[..i], now).1.Some?
    ensures RecordAll(t, nodeId, items, now) == RecordAll(t, nodeId, items[..i], now)
    decreases |items| - i
  {
    if i < |items| {
      assert items[..i + 1][..i] == items[..i];
      FailureStays(t, nodeId, items, i + 1, now);
    } else {
      assert items[..i] == items;
    }
  }
}
