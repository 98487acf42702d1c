/** The database-backed collector of monitoring/enhanced_metrics_collector.py.
    A snapshot from the base collector is extended with a collection id and
    bookkeeping fields, inserted as a row of the `cluster_metrics` table,
    cached in Redis under the keys of the key layout, and announced on two
    channels. The stores are values: the table is an append-only row list,
    each Redis key maps to its value and the second it expires. */
module EnhancedCollector {
  import opened Wrappers
  import opened Seqs
  import opened Metrics
  import RedisKeys

  /** `EnhancedClusterMetrics`: a base snapshot plus the four added fields. */
  datatype EnhancedMetrics = EnhancedMetrics(
    base: ClusterMetrics,
    clusterId: Option<string>,
    collectionId: Option<string>,
    dataSource: string,
    processingTimeMs: real)

  const DefaultDataSource := "openstack_magnum"
  const ErrorDataSource := "error_handler"

  /** `_enhance_metrics`: every base field is kept, the collection id is the
      session id and the cluster name joined by "_", and the added fields
      take their defaults. */
  function Enhance(session: string, base: ClusterMetrics): (e: EnhancedMetrics)
    ensures e.base == base
    ensures e.collectionId == Some(session + "_" + base.clusterName)
    ensures e.clusterId.None? && e.dataSource == DefaultDataSource && e.processingTimeMs == 0.0
  {
    EnhancedMetrics(base, None, Some(session + "_" + base.clusterName), DefaultDataSource, 0.0)
  }

  /** `_create_error_metrics`: an ERROR snapshot for the name with no nodes,
      an unknown template and zero scores, labelled with the clock reading
      `hms` (the `%H%M%S` text). */
  function ErrorMetrics(name: string, now: string, hms: string): (e: EnhancedMetrics)
    ensures e.base.clusterName == name && e.base.timestamp == now
    ensures e.base.status == "ERROR" && e.base.healthStatus == "ERROR"
    ensures e.base.nodeCount == 0 && e.base.masterCount == 0 && e.base.templateId == "unknown"
    ensures e.base.healthScore == 0.0 && e.base.efficiencyScore == 0.0
    ensures e.base.powerConsumptionWatts == 0.0 && e.base.costPerHour == 0.0
    ensures e.dataSource == ErrorDataSource && e.collectionId == Some("error_" + hms)
    ensures e.processingTimeMs == 0.0 && e.clusterId.None?
  {
    EnhancedMetrics(Blank(name, now, "ERROR", "ERROR", 0, 0, "unknown", None),
                    None, Some("error_" + hms), ErrorDataSource, 0.0)
  }

  /** An error snapshot is never mistaken for a running cluster. */
  lemma ErrorSnapshotInactive(name: string, now: string, hms: string)
    ensures ErrorMetrics(name, now, hms).base.status != CreateComplete
    ensures ErrorMetrics(name, now, hms).dataSource != DefaultDataSource
  {
  }

  // The database row

  datatype TemplateInfo = TemplateInfo(templateId: string, apiAddress: Option<string>)

  /** The JSON `metadata` column. The snapshot has no `uuid` attribute, so
      `openstack_uuid` is always null. */
  datatype RowMetadata = RowMetadata(
    collectionId: Option<string>,
    dataSource: string,
    processingTimeMs: real,
    openstackUuid: Option<string>,
    templateInfo: TemplateInfo)

  /** `to_db_dict`: the row time, the base columns, `cluster_id`, and the
      metadata; `collection_id`, `data_source` and `processing_time_ms` have
      no column of their own. */
  datatype MetricsRow = MetricsRow(
    time: int,
    base: ClusterMetrics,
    clusterId: Option<string>,
    metadata: RowMetadata)

  function FromDbRow(row: MetricsRow): EnhancedMetrics
  {
    EnhancedMetrics(row.base, row.clusterId, row.metadata.collectionId, row.metadata.dataSource,
                    row.metadata.processingTimeMs)
  }

  /** Nothing is lost: the moved fields can be read back from the metadata. */
  function ToDbDict(e: EnhancedMetrics, now: int): (row: MetricsRow)
    ensures row.time == now && row.base == e.base
    ensures row.metadata.openstackUuid.None?
    ensures row.metadata.templateInfo == TemplateInfo(e.base.templateId, e.base.apiAddress)
    ensures FromDbRow(row) == e
  {
    MetricsRow(now, e.base, e.clusterId,
               RowMetadata(e.collectionId, e.dataSource, e.processingTimeMs, None,
                           TemplateInfo(e.base.templateId, e.base.apiAddress)))
  }

  // The Redis history list

  /** `LTRIM key 0 240` keeps 241 entries. */
  const HistoryLength := 241

  function Take<T>(s: seq<T>, n: nat): (r: seq<T>)
    ensures |r| == if |s| <= n then |s| else n
    ensures r == s[..|r|]
  {
    if |s| <= n then s else s[..n]
  }

  /** `LPUSH` followed by `LTRIM 0 240`. */
  function PushTrim<T>(list: seq<T>, x: T): (r: seq<T>)
    ensures 1 <= |r| <= HistoryLength && r[0] == x
    ensures |r| == if |list| < HistoryLength then |list| + 1 else HistoryLength
    ensures forall i :: 1 <= i < |r| ==> r[i] == list[i - 1]
  {
    Take([x] + list, HistoryLength)
  }

  function Reverse<T>(s: seq<T>): (r: seq<T>)
    ensures |r| == |s|
    ensures forall i :: 0 <= i < |s| ==> r[i] == s[|s| - 1 - i]
  {
    if |s| == 0 then [] else Reverse(s[1..]) + [s[0]]
  }

  function PushAll<T>(list: seq<T>, xs: seq<T>): seq<T>
    decreases |xs|
  {
    if |xs| == 0 then list else PushAll(PushTrim(list, xs[0]), xs[1..])
  }

  /** Pushing several snapshots leaves the newest first and only the last
      241, starting from any list this collector could have left. */
  lemma {:induction false} PushAllNewestFirst<T>(list: seq<T>, xs: seq<T>)
    requires |list| <= HistoryLength
    ensures PushAll(list, xs) == Take(Reverse(xs) + list, HistoryLength)
    decreases |xs|
  {
    if |xs| > 0 {
      var x := xs[0];
      var l1 := PushTrim(list, x);
      PushAllNewestFirst(l1, xs[1..]);
      var rest := Reverse(xs[1..]);
      assert Reverse(xs) == rest + [x];
      assert Reverse(xs) + list == rest + ([x] + list);
      TrimUnderPrefix(rest, x, list);
    }
  }

  /** Trimming after a push and trimming again under a prefix is trimming
      once. */
  lemma TrimUnderPrefix<T>(rest: seq<T>, x: T, list: seq<T>)
    ensures Take(rest + PushTrim(list, x), HistoryLength) == Take(rest + ([x] + list), HistoryLength)
  {
    var l1 := PushTrim(list, x);
    var full := rest + ([x] + list);
    if |rest| >= HistoryLength {
      assert Take(rest + l1, HistoryLength) == rest[..HistoryLength];
      assert Take(full, HistoryLength) == rest[..HistoryLength];
    } else {
      var n := HistoryLength;
      var a := Take(rest + l1, n);
      var b := Take(full, n);
      assert |a| == |b|;
      forall i | 0 <= i < |a|
        ensures a[i] == b[i]
      {
        if i >= |rest| {
          assert a[i] == l1[i - |rest|];
          assert b[i] == ([x] + list)[i - |rest|];
        } else {
          assert a[i] == rest[i] == b[i];
        }
      }
    }
  }

  // The stores

  /** The cached `current` entry: name, status, health and price. */
  datatype CurrentStatus = CurrentStatus(clusterName: string, status: string, healthScore: real, costPerHour: real)

  /** The metrics table, the Redis keys the collector writes (value and
      expiry second), the cluster-list set, and the published events as
      (channel, cluster) pairs. */
  datatype Stores = Stores(
    rows: seq<MetricsRow>,
    latest: map<string, (EnhancedMetrics, int)>,
    current: map<string, (CurrentStatus, int)>,
    history: map<string, (seq<EnhancedMetrics>, int)>,
    clusterList: set<string>,
    published: seq<(string, string)>)

  /** `_ensure_cluster_exists`: the looked-up or created id, or "unknown"
      when either query fails. */
  function EnsureClusterId(lookup: Result<string>): (id: string)
    ensures lookup.Ok? ==> id == lookup.value
    ensures lookup.Err? ==> id == "unknown"
  {
    match lookup
    case Ok(v) => v
    case Err(_) => "unknown"
  }

  /** The history list stored under a key; a missing key reads as empty,
      as `LPUSH` treats it. */
  function HistoryAt(st: Stores, key: string): seq<EnhancedMetrics>
  {
    if key in st.history then st.history[key].0 else []
  }

  /** `_update_redis_cache`: latest snapshot and current status with their
      expiry, the one-hour history pushed and trimmed, the name added to the
      cluster list. A failure anywhere is swallowed; the model lets it drop
      the whole update. */
  function UpdateCache(st: Stores, e: EnhancedMetrics, now: int, ok: bool): (r: Stores)
    ensures r.rows == st.rows && r.published == st.published
    ensures !ok ==> r == st
    ensures ok ==> var name := e.base.clusterName;
                   var hkey := RedisKeys.MetricsHistory(name, "1h");
                   var ckey := RedisKeys.ClusterCurrent(name);
                   r.latest == st.latest[RedisKeys.MetricsLatest(name) := (e, now + RedisKeys.MetricsLatestTtl)]
                   && r.clusterList == st.clusterList + {name}
                   // the current status: name, status, health and price, for its time to live
                   && ckey in r.current
                   && r.current[ckey] == (CurrentStatus(name, e.base.status, e.base.healthScore, e.base.costPerHour),
                                          now + RedisKeys.ClusterCurrentTtl)
                   // the history: the snapshot in front of what was there, trimmed
                   && hkey in r.history && HistoryAt(r, hkey) == PushTrim(HistoryAt(st, hkey), e)
                   && r.history[hkey].1 == now + RedisKeys.MetricsHistoryTtlDefault
                   // no other key of the two maps changes
                   && (forall k :: k != ckey ==>
                         (k in r.current <==> k in st.current) && (k in st.current ==> r.current[k] == st.current[k]))
                   && (forall k :: k != hkey ==>
                         (k in r.history <==> k in st.history) && (k in st.history ==> r.history[k] == st.history[k]))
  {
    if !ok then st
    else
      var name := e.base.clusterName;
      var hkey := RedisKeys.MetricsHistory(name, "1h");
      var status := CurrentStatus(name, e.base.status, e.base.healthScore, e.base.costPerHour);
      st.(latest := st.latest[RedisKeys.MetricsLatest(name) := (e, now + RedisKeys.MetricsLatestTtl)],
          current := st.current[RedisKeys.ClusterCurrent(name) := (status, now + RedisKeys.ClusterCurrentTtl)],
          history := st.history[hkey := (PushTrim(HistoryAt(st, hkey), e), now + RedisKeys.MetricsHistoryTtlDefault)],
          clusterList := st.clusterList + {name})
  }

  /** Successful cache updates for a run of snapshots, in order. */
  function UpdateEach(st: Stores, es: seq<EnhancedMetrics>, now: int): Stores
    decreases |es|
  {
    if |es| == 0 then st else UpdateEach(UpdateCache(st, es[0], now, true), es[1..], now)
  }

  /** Updating one cluster with a run of snapshots leaves its one-hour
      history holding them newest first in front of the older entries,
      241 at most. */
  lemma {:induction false} HistoryOfUpdates(st: Stores, es: seq<EnhancedMetrics>, now: int, name: string)
    requires forall i :: 0 <= i < |es| ==> es[i].base.clusterName == name
    requires |HistoryAt(st, RedisKeys.MetricsHistory(name, "1h"))| <= HistoryLength
    ensures var hkey := RedisKeys.MetricsHistory(name, "1h");
            HistoryAt(UpdateEach(st, es, now), hkey) == Take(Reverse(es) + HistoryAt(st, hkey), HistoryLength)
  {
    var hkey := RedisKeys.MetricsHistory(name, "1h");
    UpdatesPushAll(st, es, now, name);
    PushAllNewestFirst(HistoryAt(st, hkey), es);
  }

  lemma {:induction false} UpdatesPushAll(st: Stores, es: seq<EnhancedMetrics>, now: int, name: string)
    requires forall i :: 0 <= i < |es| ==> es[i].base.clusterName == name
    ensures var hkey := RedisKeys.MetricsHistory(name, "1h");
            HistoryAt(UpdateEach(st, es, now), hkey) == PushAll(HistoryAt(st, hkey), es)
    decreases |es|
  {
    if |es| > 0 {
      var hkey := RedisKeys.MetricsHistory(name, "1h");
      var st1 := UpdateCache(st, es[0], now, true);
      assert HistoryAt(st1, hkey) == PushTrim(HistoryAt(st, hkey), es[0]);
      assert forall i :: 0 <= i < |es[1..]| ==> es[1..][i] == es[i + 1];
      UpdatesPushAll(st1, es[1..], now, name);
    }
  }

  /** `_publish_metrics_update`: the global channel, then the cluster's own
      channel. */
  function Publish(st: Stores, e: EnhancedMetrics, ok: bool): (r: Stores)
    ensures !ok ==> r == st
    ensures ok ==> r == st.(published := st.published + [(RedisKeys.MetricsUpdatedChannel, e.base.clusterName),
                                                         ("kcloud:events:cluster:" + e.base.clusterName + ":metrics", e.base.clusterName)])
  {
    if !ok then st
    else st.(published := st.published + [(RedisKeys.MetricsUpdatedChannel, e.base.clusterName),
                                         ("kcloud:events:cluster:" + e.base.clusterName + ":metrics", e.base.clusterName)])
  }

  /** The per-cluster channel is published for pattern subscribers: a
      cluster's event pattern receives the update exactly when the update is
      about that cluster. */
  lemma PublishReachesClusterSubscribers(st: Stores, e: EnhancedMetrics, subscriber: string)
    requires RedisKeys.Separator !in e.base.clusterName && RedisKeys.Separator !in subscriber
    ensures var r := Publish(st, e, true);
            RedisKeys.GlobMatches(RedisKeys.ClusterEventsPattern(subscriber), r.published[|r.published| - 1].0)
            <==> e.base.clusterName == subscriber
  {
    RedisKeys.Layout4("events", "cluster", e.base.clusterName, "metrics");
    RedisKeys.ClusterEventsMatch(subscriber, e.base.clusterName, "metrics");
  }

  /** What the outside world answers during one collection. */
  datatype Environment = Environment(
    connected: bool,
    clusterLookup: Result<string>,
    insertOk: bool,
    cacheOk: bool,
    publishOk: bool)

  /** `collect_and_store_metrics`. A failing collection or a failing insert
      gives the error snapshot and writes nothing; otherwise the enhanced
      snapshot is returned, and stored, cached and published only when the
      database is connected. Cache and publish failures are swallowed. */
  function CollectAndStore(st: Stores, session: string, name: string, now: int, stamp: string, hms: string,
                           collected: Result<ClusterMetrics>, elapsedMs: real, env: Environment): (r: (EnhancedMetrics, Stores))
    ensures collected.Err? ==> r == (ErrorMetrics(name, stamp, hms), st)
    ensures collected.Ok? && env.connected && !env.insertOk ==> r == (ErrorMetrics(name, stamp, hms), st)
    ensures collected.Ok? && (!env.connected || env.insertOk) ==>
              r.0 == Enhance(session, collected.value).(processingTimeMs := elapsedMs)
    ensures collected.Ok? && !env.connected ==> r.1 == st
    ensures collected.Ok? && env.connected && env.insertOk ==>
              r.1.rows == st.rows + [ToDbDict(r.0, now).(clusterId := Some(EnsureClusterId(env.clusterLookup)))]
    ensures |st.rows| <= |r.1.rows| <= |st.rows| + 1 && r.1.rows[..|st.rows|] == st.rows
  {
    match collected
    case Err(_) => (ErrorMetrics(name, stamp, hms), st)
    case Ok(base) =>
      var e := Enhance(session, base).(processingTimeMs := elapsedMs);
      if !env.connected then (e, st)
      else if !env.insertOk then (ErrorMetrics(name, stamp, hms), st)
      else
        var row := ToDbDict(e, now).(clusterId := Some(EnsureClusterId(env.clusterLookup)));
        var st1 := st.(rows := st.rows + [row]);
        (e, Publish(UpdateCache(st1, e, now, env.cacheOk), e, env.publishOk))
  }

  /** Every stored row reads back as the snapshot that was returned, apart
      from the cluster id the insert assigns. */
  lemma StoredRowReadsBack(st: Stores, session: string, name: string, now: int, stamp: string, hms: string,
                           base: ClusterMetrics, elapsedMs: real, env: Environment)
    requires env.connected && env.insertOk
    ensures var r := CollectAndStore(st, session, name, now, stamp, hms, Ok(base), elapsedMs, env);
            FromDbRow(r.1.rows[|st.rows|]) == r.0.(clusterId := Some(EnsureClusterId(env.clusterLookup)))
            && r.0.base == base
  {
  }

  /** After a fully successful connected collection, the latest-metrics key
      holds the returned snapshot and the one-hour history starts with it. */
  lemma CacheHoldsLatest(st: Stores, session: string, name: string, now: int, stamp: string, hms: string,
                         base: ClusterMetrics, elapsedMs: real, env: Environment)
    requires env.connected && env.insertOk && env.cacheOk
    ensures var r := CollectAndStore(st, session, name, now, stamp, hms, Ok(base), elapsedMs, env);
            var key := RedisKeys.MetricsLatest(base.clusterName);
            var hkey := RedisKeys.MetricsHistory(base.clusterName, "1h");
            key in r.1.latest && r.1.latest[key].0 == r.0
            && hkey in r.1.history && r.1.history[hkey].0[0] == r.0
            && base.clusterName in r.1.clusterList
  {
  }

  // Batch collection

  /** The snapshot kept for the i-th request: the coroutine's result, or an error
      snapshot for that name when the coroutine raised. */
  function BatchEntry(name: string, outcome: Result<EnhancedMetrics>, stamp: string, hms: string): (e: EnhancedMetrics)
  {
    match outcome
    case Ok(m) => m
    case Err(_) => ErrorMetrics(name, stamp, hms)
  }

  /** The batch as a value: entry i is the i-th task's snapshot or its
      error snapshot. */
  function Batch(names: seq<string>, outcome: nat -> Result<EnhancedMetrics>, stamp: string, hms: string)
    : (out: seq<EnhancedMetrics>)
    ensures |out| == |names|
  {
    seq(|names|, i requires 0 <= i < |names| => BatchEntry(names[i], outcome(i), stamp, hms))
  }

  /** `collect_multiple_clusters_async`: `outcome(i)` is what the i-th
      gathered task produced. Exactly one snapshot per request, in request
      order. */
  method CollectMultipleAsync(names: seq<string>, outcome: nat -> Result<EnhancedMetrics>, stamp: string, hms: string)
    returns (out: seq<EnhancedMetrics>)
    ensures |out| == |names| && out == Batch(names, outcome, stamp, hms)
    ensures forall i :: 0 <= i < |names| && outcome(i).Ok? ==> out[i] == outcome(i).value
    ensures forall i :: 0 <= i < |names| && outcome(i).Err? ==> out[i] == ErrorMetrics(names[i], stamp, hms)
  {
    out := [];
    var i := 0;
    while i < |names|
      invariant 0 <= i <= |names| && |out| == i
      invariant forall k :: 0 <= k < i ==> out[k] == BatchEntry(names[k], outcome(k), stamp, hms)
    {
      out := out + [BatchEntry(names[i], outcome(i), stamp, hms)];
      i := i + 1;
    }
  }

  /** The snapshot a collection returns is filed under the requested name,
      provided the base collector answers for that name. */
  lemma CollectAndStoreNamed(st: Stores, session: string, name: string, now: int, stamp: string, hms: string,
                             collected: Result<ClusterMetrics>, elapsedMs: real, env: Environment)
    requires collected.Ok? ==> collected.value.clusterName == name
    ensures CollectAndStore(st, session, name, now, stamp, hms, collected, elapsedMs, env).0.base.clusterName == name
  {
  }

  /** When every task is a `collect_and_store_metrics` call for its own
      name, every entry of the batch carries the name it was requested
      under, since that call already turns its own failures into error
      snapshots for the name. */
  lemma BatchNamesMatch(names: seq<string>, outcome: nat -> Result<EnhancedMetrics>, stamp: string, hms: string,
                        i: nat)
    requires i < |names|
    requires outcome(i).Ok? ==> outcome(i).value.base.clusterName == names[i]
    ensures BatchEntry(names[i], outcome(i), stamp, hms).base.clusterName == names[i]
  {
  }
}
