/** The resilience controller of monitoring/database_integrated_monitor.py:
    a database-backed monitoring pass with an in-memory fallback, an error
    counter with threshold five, and the summaries, performance analysis
    and recommendations each mode reports. */
module DbMonitor {
  import opened Wrappers
  import opened Seqs
  import opened OrderedMaps
  import opened Metrics
  import opened Alerts
  import opened EnhancedAlerts
  import opened EnhancedCollector
  import IntegratedMonitor

  const MaxErrors := 5

  /** The controller's state: the constructor's `use_database`, whether a
      database manager was obtained, whether the fallback monitor exists
      (with its alert system), the database-backed alert engine, and the
      error counter. */
  datatype Controller = Controller(
    useDatabase: bool,
    dbManager: bool,
    fallbackReady: bool,
    fallbackAlerts: AlertSystem,
    alertEngine: EnhancedAlerts.System,
    errorCount: nat)

  /** A fresh controller; the alert engine starts with the default rules,
      an empty cache and empty stores. */
  function New(useDatabase: bool): Controller
  {
    Controller(useDatabase, false, false, Alerts.Init(), EnhancedAlerts.System(DefaultRules(), [], None, map[], map[], false), 0)
  }

  // Initialisation

  /** How the database start-up went: fully; not at all (`init_database`
      raised); with the manager obtained and the collector or the alert
      engine failing to be built; or with the alert engine started and the
      dashboard failing to be built. */
  datatype DbInit = DbReady | ConnectFailed | EngineFailed | DashboardFailed

  /** `initialize`. In database mode the manager `init_database` returns is
      connected, and the alert engine built on it loads its rules (`query`,
      at `now`); a start-up failure then falls back to the in-memory monitor,
      keeping what was set before the failure. Outside database mode a
      failing fallback start re-raises. */
  function Initialize(c: Controller, db: DbInit, fallbackOk: bool,
                      query: Result<seq<RuleRow>>, now: int): (r: Result<Controller>)
    ensures c.useDatabase && db == DbReady ==>
              r == Ok(c.(dbManager := true, alertEngine := StartEngine(true, query, now)))
    ensures c.useDatabase && db == DashboardFailed && fallbackOk ==>
              r == Ok(c.(dbManager := true, alertEngine := StartEngine(true, query, now), fallbackReady := true))
    ensures c.useDatabase && db == EngineFailed && fallbackOk ==>
              r == Ok(c.(dbManager := true, fallbackReady := true))
    ensures (!c.useDatabase || db == ConnectFailed) && fallbackOk ==> r == Ok(c.(fallbackReady := true))
    ensures r.Err? <==> (!c.useDatabase || db != DbReady) && !fallbackOk
    ensures r.Ok? ==> r.value.errorCount == c.errorCount && r.value.useDatabase == c.useDatabase
  {
    var c1 := if c.useDatabase && db != ConnectFailed then c.(dbManager := true) else c;
    var c2 := if c.useDatabase && (db == DbReady || db == DashboardFailed)
              then c1.(alertEngine := StartEngine(true, query, now)) else c1;
    if c.useDatabase && db == DbReady then Ok(c2)
    else if fallbackOk then Ok(c2.(fallbackReady := true))
    else Err(Error("RuntimeError", "fallback initialisation failed"))
  }

  /** A controller started in database mode has a connected alert engine
      whose first pass raises an alert for a walked rule exactly when the
      rule is enabled, its condition holds and its message renders: no
      cooldown is recorded yet. */
  lemma StartedEngineRaises(fallbackOk: bool, query: Result<seq<RuleRow>>, now: int,
                            m: ClusterMetrics, clusterUuid: Option<string>, later: int,
                            query2: Result<seq<RuleRow>>, render: Renderer, newUuid: nat -> string,
                            accepts: EnhancedAlert -> bool, j: nat)
    requires var e := Initialize(New(true), DbReady, fallbackOk, query, now).value.alertEngine;
             j < |RulesToCheck(CheckRulesReload(e, query2, later))|
    ensures var e := Initialize(New(true), DbReady, fallbackOk, query, now).value.alertEngine;
            var rule := RulesToCheck(CheckRulesReload(e, query2, later))[j].0;
            e.connected
            && (RaisedEnhanced(ProcessMetricsAlerts(e, m, clusterUuid, later, query2, render, newUuid, accepts).1, rule.name)
                <==> rule.enabled && Eval(rule.condition, m) == Ok(true) && render(rule, m).Ok?)
  {
    var e := Initialize(New(true), DbReady, fallbackOk, query, now).value.alertEngine;
    DefaultNamesDistinct();
    ProcessRaisedIff(e, m, clusterUuid, later, query2, render, newUuid, accepts, j);
  }

  // Summaries

  /** The answer of one monitoring call, whichever path produced it. */
  datatype Mode = DatabaseIntegrated | Fallback | ErrorMode

  /** The recommendation messages of this monitor, by meaning. */
  datatype Note =
    | NoActiveClusters
    | HighCostSavings(clusters: nat, monthlySavings: real)
    | ConsolidateIdle(clusters: nat)
    | GpuUnderused(averageGpu: real)
    | CriticalAlerts(alerts: nat)
    | PreventiveCheck(clusters: nat)
    | SystemGood
    | BasicHighCost(clusters: nat)
    | BasicGood
    | MonitoringPaused

  datatype Totals = Totals(
    totalCost: real,
    totalPower: real,
    activeClusters: nat,
    totalClusters: nat,
    avgHealth: real,
    avgEfficiency: real)

  datatype Performance =
    | NoActive
    | Analysis(
        cpuAvg: real, cpuMax: real, cpuMin: real,
        memoryAvg: real, memoryMax: real, memoryMin: real,
        costPerPerformance: real,
        highCostClusters: seq<string>,
        lowEfficiencyClusters: seq<string>,
        healthy: nat, warning: nat, critical: nat)

  datatype Report = Report(
    mode: Mode,
    clusters: OrderedMap<string, ClusterMetrics>,
    totals: Totals,
    activeAlerts: nat,
    performance: Option<Performance>,
    recommendations: seq<Note>)

  function Base(e: EnhancedMetrics): ClusterMetrics { e.base }
  function Health(m: ClusterMetrics): real { m.healthScore }
  function Efficiency(m: ClusterMetrics): real { m.efficiencyScore }
  function Cpu(m: ClusterMetrics): real { m.cpuUsage }
  function MemoryUse(m: ClusterMetrics): real { m.memoryUsage }

  function Bases(ms: seq<EnhancedMetrics>): (r: seq<ClusterMetrics>)
    ensures |r| == |ms| && forall i :: 0 <= i < |ms| ==> r[i] == ms[i].base
  {
    seq(|ms|, i requires 0 <= i < |ms| => ms[i].base)
  }

  /** `sum(f(m) for active m) / max(active, 1)`. */
  function ActiveAverage(ms: seq<ClusterMetrics>, f: ClusterMetrics -> real): real
  {
    var active := Filter(ms, Running);
    SumBy(active, f) / (if |active| >= 1 then |active| else 1) as real
  }

  /** The guarded average is the mean over the running clusters, and 0 when
      none runs; scores in [0, 100] average into [0, 100]. */
  lemma ActiveAverageIsMean(ms: seq<ClusterMetrics>, f: ClusterMetrics -> real)
    ensures ActiveAverage(ms, f) == Mean(Filter(ms, Running), f)
  {
  }

  lemma ActiveAverageBounds(ms: seq<ClusterMetrics>, f: ClusterMetrics -> real)
    requires forall i :: 0 <= i < |ms| ==> 0.0 <= f(ms[i]) <= 100.0
    ensures 0.0 <= ActiveAverage(ms, f) <= 100.0
  {
    FilterKeepsBounds(ms, f);
    ActiveAverageIsMean(ms, f);
    MeanBounds(Filter(ms, Running), f, 0.0, 100.0);
  }

  lemma FilterKeepsBounds(ms: seq<ClusterMetrics>, f: ClusterMetrics -> real)
    requires forall i :: 0 <= i < |ms| ==> 0.0 <= f(ms[i]) <= 100.0
    ensures forall i :: 0 <= i < |Filter(ms, Running)| ==> 0.0 <= f(Filter(ms, Running)[i]) <= 100.0
  {
    var active := Filter(ms, Running);
    forall i | 0 <= i < |active| ensures 0.0 <= f(active[i]) <= 100.0 {
      assert active[i] in ms;
    }
  }

  /** The order-preserving name → snapshot map the enhanced summary
      builds (a later snapshot of the same name replaces the earlier one). */
  function ByName(ms: seq<ClusterMetrics>): (r: OrderedMap<string, ClusterMetrics>)
    ensures DistinctKeys(r) && |r| <= |ms|
    ensures forall i :: 0 <= i < |ms| ==> ms[i].clusterName in Keys(r)
    ensures forall i :: 0 <= i < |r| ==> r[i].0 == r[i].1.clusterName
  {
    if |ms| == 0 then []
    else
      var init := ms[..|ms| - 1];
      var m := ms[|ms| - 1];
      var prev := ByName(init);
      var r := Put(prev, m.clusterName, m);
      assert forall i :: 0 <= i < |ms| ==> ms[i].clusterName in Keys(r) by {
        forall i | 0 <= i < |ms| ensures ms[i].clusterName in Keys(r) {
          if i < |init| {
            assert init[i] == ms[i];
            assert ms[i].clusterName in Keys(prev);
          }
        }
      }
      assert forall i :: 0 <= i < |r| ==> r[i].0 == r[i].1.clusterName by {
        forall i | 0 <= i < |r| ensures r[i].0 == r[i].1.clusterName {
          if r[i] != (m.clusterName, m) {
            var j :| 0 <= j < |prev| && prev[j] == r[i];
          }
        }
      }
      r
  }

  /** Largest and smallest of a non-empty list: `max(...)` and `min(...)`. */
  function MaxOf(s: seq<ClusterMetrics>, f: ClusterMetrics -> real): (r: real)
    requires |s| > 0
    ensures forall i :: 0 <= i < |s| ==> f(s[i]) <= r
    ensures exists i :: 0 <= i < |s| && f(s[i]) == r
  {
    if |s| == 1 then f(s[0])
    else
      var rest := MaxOf(s[1..], f);
      assert forall i :: 1 <= i < |s| ==> s[i] == s[1..][i - 1];
      if f(s[0]) >= rest then f(s[0]) else rest
  }

  function MinOf(s: seq<ClusterMetrics>, f: ClusterMetrics -> real): (r: real)
    requires |s| > 0
    ensures forall i :: 0 <= i < |s| ==> r <= f(s[i])
    ensures exists i :: 0 <= i < |s| && f(s[i]) == r
  {
    if |s| == 1 then f(s[0])
    else
      var rest := MinOf(s[1..], f);
      assert forall i :: 1 <= i < |s| ==> s[i] == s[1..][i - 1];
      if f(s[0]) <= rest then f(s[0]) else rest
  }

  function Names(s: seq<ClusterMetrics>): (r: seq<string>)
    ensures |r| == |s| && forall i :: 0 <= i < |s| ==> r[i] == s[i].clusterName
  {
    seq(|s|, i requires 0 <= i < |s| => s[i].clusterName)
  }

  predicate InHealthyBand(m: ClusterMetrics) { m.healthScore > 80.0 }
  predicate InWarningBand(m: ClusterMetrics) { 50.0 <= m.healthScore <= 80.0 }
  predicate InCriticalBand(m: ClusterMetrics) { m.healthScore < 50.0 }
  function CostPerPerformance(m: ClusterMetrics): real { m.costPerHour / Seqs.Max(m.efficiencyScore, 1.0) }

  /** `_analyze_cluster_performance`. */
  function AnalyzePerformance(ms: seq<ClusterMetrics>): (p: Performance)
    ensures p.NoActive? <==> |Filter(ms, Running)| == 0
    ensures p.Analysis? ==> p.healthy + p.warning + p.critical == |Filter(ms, Running)|
    ensures p.Analysis? ==> p.cpuMin <= p.cpuAvg <= p.cpuMax && p.memoryMin <= p.memoryAvg <= p.memoryMax
  {
    var active := Filter(ms, Running);
    if |active| == 0 then NoActive
    else
      PartitionCounts(active);
      MeanBetween(active, Cpu);
      MeanBetween(active, MemoryUse);
      Analysis(Mean(active, Cpu), MaxOf(active, Cpu), MinOf(active, Cpu),
               Mean(active, MemoryUse), MaxOf(active, MemoryUse), MinOf(active, MemoryUse),
               Mean(active, CostPerPerformance),
               Names(Filter(active, IntegratedMonitor.HighCost)),
               Names(Filter(active, IntegratedMonitor.LowEfficiency)),
               |Filter(active, InHealthyBand)|, |Filter(active, InWarningBand)|, |Filter(active, InCriticalBand)|)
  }

  /** The three health bands split any list of clusters. */
  lemma {:induction false} PartitionCounts(s: seq<ClusterMetrics>)
    ensures |Filter(s, InHealthyBand)| + |Filter(s, InWarningBand)| + |Filter(s, InCriticalBand)| == |s|
  {
    if |s| > 0 {
      PartitionCounts(s[1..]);
    }
  }

  /** A mean lies between the smallest and the largest term. */
  lemma MeanBetween(s: seq<ClusterMetrics>, f: ClusterMetrics -> real)
    requires |s| > 0
    ensures MinOf(s, f) <= Mean(s, f) <= MaxOf(s, f)
  {
    MeanWithin(s, f, MinOf(s, f), MaxOf(s, f));
  }

  predicate VeryCostly(m: ClusterMetrics) { m.costPerHour > 15.0 }
  predicate Idle(m: ClusterMetrics) { m.cpuUsage < 20.0 }
  function Savings(m: ClusterMetrics): real { m.costPerHour * 0.3 }
  predicate IsCritical(a: EnhancedAlert) { a.severity == Alerts.Critical }

  function When(c: bool, n: Note): seq<Note> { if c then [n] else [] }

  /** The notes `_generate_smart_recommendations` triggers for a non-empty
      list of running clusters, in the source's order. */
  function SmartFound(active: seq<ClusterMetrics>, alerts: seq<EnhancedAlert>): (r: seq<Note>)
    ensures NoActiveClusters !in r && SystemGood !in r
  {
    var costly := Filter(active, VeryCostly);
    var idle := Filter(active, Idle);
    var gpu := Filter(active, IntegratedMonitor.UsesGpu);
    var critical := Filter(alerts, IsCritical);
    var sick := Filter(active, IntegratedMonitor.Unhealthy);
    var a := When(|costly| > 0, HighCostSavings(|costly|, SumBy(costly, Savings) * 24.0 * 30.0));
    var b := When(|idle| > 1, ConsolidateIdle(|idle|));
    var c := When(|gpu| > 0 && Mean(gpu, IntegratedMonitor.Gpu) < 30.0, GpuUnderused(Mean(gpu, IntegratedMonitor.Gpu)));
    var d := When(|critical| > 0, CriticalAlerts(|critical|));
    var e := When(|sick| > 0, PreventiveCheck(|sick|));
    a + b + c + d + e
  }

  /** `_generate_smart_recommendations`: the triggered notes, or the single
      good-state note; the single no-active note when nothing runs. */
  function SmartRecommendations(ms: seq<ClusterMetrics>, alerts: seq<EnhancedAlert>): (r: seq<Note>)
    ensures |r| >= 1
    ensures r == [NoActiveClusters] <==> |Filter(ms, Running)| == 0
    ensures r == [SystemGood] <==> |Filter(ms, Running)| > 0 && |SmartFound(Filter(ms, Running), alerts)| == 0
  {
    var active := Filter(ms, Running);
    if |active| == 0 then [NoActiveClusters]
    else
      var found := SmartFound(active, alerts);
      if |found| == 0 then [SystemGood]
      else
        assert found[0] in found;
        found
  }

  /** A critical alert among the new ones always earns a note while some
      cluster runs. */
  lemma CriticalAlertsNoted(ms: seq<ClusterMetrics>, alerts: seq<EnhancedAlert>, i: nat)
    requires i < |alerts| && IsCritical(alerts[i])
    requires |Filter(ms, Running)| > 0
    ensures CriticalAlerts(|Filter(alerts, IsCritical)|) in SmartRecommendations(ms, alerts)
  {
    assert alerts[i] in Filter(alerts, IsCritical);
    var found := SmartFound(Filter(ms, Running), alerts);
    assert CriticalAlerts(|Filter(alerts, IsCritical)|) in found;
  }

  /** `_generate_basic_recommendations`. */
  function BasicRecommendations(clusters: OrderedMap<string, ClusterMetrics>): (r: seq<Note>)
    ensures |r| == 1
    ensures r == [NoActiveClusters] <==> |Filter(Values(clusters), Running)| == 0
  {
    var active := Filter(Values(clusters), Running);
    if |active| == 0 then [NoActiveClusters]
    else
      var high := Filter(active, IntegratedMonitor.HighCost);
      if |high| > 0 then [BasicHighCost(|high|)] else [BasicGood]
  }

  /** The basic advice flags high cost exactly when the richer advice of
      the in-memory monitor does. */
  lemma BasicAgreesWithIntegrated(clusters: OrderedMap<string, ClusterMetrics>)
    ensures var ms := Values(clusters);
            (exists n :: BasicRecommendations(clusters) == [BasicHighCost(n)])
            <==> IntegratedMonitor.SomeActive(ms, IntegratedMonitor.HighCost)
  {
    var ms := Values(clusters);
    IntegratedMonitor.FilterNonEmpty(ms, IntegratedMonitor.HighCost);
    var high := Filter(Filter(ms, Running), IntegratedMonitor.HighCost);
    if |high| > 0 {
      assert BasicRecommendations(clusters) == [BasicHighCost(|high|)];
    }
  }

  /** `_generate_enhanced_summary` over the collected snapshots, the new
      alerts and the alert summary. */
  function EnhancedReport(ms: seq<EnhancedMetrics>, alerts: seq<EnhancedAlert>, alertSummary: EnhancedSummary): (r: Report)
    ensures r.mode == DatabaseIntegrated
    ensures r.totals.totalClusters == |ms| && r.totals.activeClusters <= |ms|
    ensures r.activeAlerts == alertSummary.totalActive
    ensures r.totals.avgHealth == Mean(Filter(Bases(ms), Running), Health)
    ensures r.totals.avgEfficiency == Mean(Filter(Bases(ms), Running), Efficiency)
    ensures DistinctKeys(r.clusters) && forall i :: 0 <= i < |ms| ==> ms[i].base.clusterName in Keys(r.clusters)
    ensures r.performance == Some(AnalyzePerformance(Bases(ms)))
    ensures r.recommendations == SmartRecommendations(Bases(ms), alerts)
  {
    var bs := Bases(ms);
    ActiveAverageIsMean(bs, Health);
    ActiveAverageIsMean(bs, Efficiency);
    assert forall i :: 0 <= i < |ms| ==> ms[i].base.clusterName == bs[i].clusterName;
    var active := Filter(bs, Running);
    var totals := Totals(SumBy(bs, IntegratedMonitor.Cost), SumBy(bs, IntegratedMonitor.Power), |active|, |bs|,
                         ActiveAverage(bs, Health), ActiveAverage(bs, Efficiency));
    Report(DatabaseIntegrated, ByName(bs), totals, alertSummary.totalActive, Some(AnalyzePerformance(bs)),
           SmartRecommendations(bs, alerts))
  }

  /** The enhanced totals are the in-memory monitor's report totals over
      the same snapshots. */
  lemma EnhancedTotalsAgree(ms: seq<EnhancedMetrics>, alerts: seq<EnhancedAlert>, alertSummary: EnhancedSummary,
                            clusters: OrderedMap<string, ClusterMetrics>)
    requires Values(clusters) == Bases(ms)
    ensures var t := EnhancedReport(ms, alerts, alertSummary).totals;
            var s := IntegratedMonitor.Report(clusters);
            t.totalCost == s.totalCost && t.totalPower == s.totalPower
            && t.activeClusters == s.activeClusters && t.totalClusters == s.totalClusters
  {
  }

  /** `_monitor_clusters_fallback` once the fallback monitor exists. */
  function FallbackReport(clusters: OrderedMap<string, ClusterMetrics>): (r: Report)
    ensures r.mode == Fallback && r.activeAlerts == 0 && r.performance.None?
    ensures r.clusters == clusters && r.totals.totalClusters == |clusters|
  {
    var s := IntegratedMonitor.Report(clusters);
    Report(Fallback, clusters, Totals(s.totalCost, s.totalPower, s.activeClusters, s.totalClusters, 0.0, 0.0),
           0, None, BasicRecommendations(clusters))
  }

  /** `_generate_error_summary`. */
  function ErrorReport(): (r: Report)
    ensures r.mode == ErrorMode && r.clusters == [] && r.activeAlerts == 0
    ensures r.totals == Totals(0.0, 0.0, 0, 0, 0.0, 0.0) && r.recommendations == [MonitoringPaused]
  {
    Report(ErrorMode, [], Totals(0.0, 0.0, 0, 0, 0.0, 0.0), 0, None, [MonitoringPaused])
  }

  // One monitoring call

  /** What one enhanced pass produced. */
  datatype EnhancedRun = EnhancedRun(metrics: seq<EnhancedMetrics>, alerts: seq<EnhancedAlert>, summary: EnhancedSummary)

  /** The outside world of one enhanced pass: what each gathered collection
      task produced and the clock strings of its error snapshots, the rule
      query a reload would see, the uuids the k-th snapshot's alerts
      receive, which alert inserts the database accepts, the Redis view the
      alert summary reads, and whether an exception escapes the pass. */
  datatype PassWorld = PassWorld(
    outcome: nat -> Result<EnhancedMetrics>,
    stamp: string,
    hms: string,
    query: Result<seq<RuleRow>>,
    uuids: nat -> nat -> string,
    accepts: EnhancedAlert -> bool,
    view: Result<RedisView>,
    raises: bool)

  /** The alert loop: `process_metrics_alerts` for each snapshot in turn,
      the alerts of all of them in order. */
  function ProcessAll(sys: EnhancedAlerts.System, batch: seq<EnhancedMetrics>, now: int, render: Renderer,
                      w: PassWorld, k: nat): (r: (EnhancedAlerts.System, seq<EnhancedAlert>))
    ensures r.0.connected == sys.connected
    ensures !sys.connected ==> r.1 == [] && r.0.cooldowns == sys.cooldowns && r.0.table == sys.table
    ensures forall i :: 0 <= i < |r.1| ==> exists j :: 0 <= j < |batch| && r.1[i].clusterName == batch[j].base.clusterName
    decreases |batch|
  {
    if |batch| == 0 then (sys, [])
    else
      var step := ProcessMetricsAlerts(sys, batch[0].base, batch[0].clusterId, now, w.query, render, w.uuids(k), w.accepts);
      var rest := ProcessAll(step.0, batch[1..], now, render, w, k + 1);
      PassAlertsNamed(sys, batch[0], now, render, w, k);
      assert forall i :: 0 <= i < |rest.1| ==> exists j :: 0 <= j < |batch| && rest.1[i].clusterName == batch[j].base.clusterName by {
        forall i | 0 <= i < |rest.1| ensures exists j :: 0 <= j < |batch| && rest.1[i].clusterName == batch[j].base.clusterName {
          var j :| 0 <= j < |batch[1..]| && rest.1[i].clusterName == batch[1..][j].base.clusterName;
          assert batch[1..][j] == batch[j + 1];
        }
      }
      (rest.0, step.1 + rest.1)
  }

  /** The alerts of one `process_metrics_alerts` call name its snapshot's
      cluster. */
  lemma PassAlertsNamed(sys: EnhancedAlerts.System, e: EnhancedMetrics, now: int, render: Renderer, w: PassWorld, k: nat)
    ensures var step := ProcessMetricsAlerts(sys, e.base, e.clusterId, now, w.query, render, w.uuids(k), w.accepts);
            forall i :: 0 <= i < |step.1| ==> step.1[i].clusterName == e.base.clusterName
  {
  }

  /** The body of the `try` in `monitor_clusters_enhanced`: collect the
      batch, run the alert loop, read the alert summary. */
  function EnhancedPass(sys: EnhancedAlerts.System, names: seq<string>, now: int, render: Renderer, w: PassWorld)
    : (r: (EnhancedAlerts.System, EnhancedRun))
    ensures r.1.metrics == Batch(names, w.outcome, w.stamp, w.hms) && |r.1.metrics| == |names|
    ensures r.1.alerts == ProcessAll(sys, r.1.metrics, now, render, w, 0).1
    ensures r.1.summary == EnhancedAlerts.GetAlertSummary(w.view)
    ensures r.0 == ProcessAll(sys, r.1.metrics, now, render, w, 0).0
  {
    var batch := Batch(names, w.outcome, w.stamp, w.hms);
    var processed := ProcessAll(sys, batch, now, render, w, 0);
    (processed.0, EnhancedRun(batch, processed.1, EnhancedAlerts.GetAlertSummary(w.view)))
  }

  /** The fallback path: start the in-memory monitor if needed (a failure
      there propagates), then run one pass with it. */
  function RunFallback(c: Controller, names: seq<string>, fallbackOk: bool, collect: string -> Result<ClusterMetrics>,
                       now: int, render: Renderer): (r: Result<(Controller, Report)>)
    ensures r.Ok? ==> r.value.1.mode == Fallback && r.value.0.fallbackReady
    ensures r.Ok? ==> r.value.0.errorCount == c.errorCount && r.value.0.useDatabase == c.useDatabase
                      && r.value.0.dbManager == c.dbManager && r.value.0.alertEngine == c.alertEngine
    ensures r.Err? <==> !c.fallbackReady && !fallbackOk
  {
    if !c.fallbackReady && !fallbackOk then Err(Error("RuntimeError", "fallback initialisation failed"))
    else
      var pass := IntegratedMonitor.MonitorClusters(names, c.fallbackAlerts, collect, now, render);
      Ok((c.(fallbackReady := true, fallbackAlerts := pass.1), FallbackReport(pass.0)))
  }

  /** `monitor_clusters_enhanced`. Without database mode or manager the
      fallback answers. Otherwise a pass that does not raise answers with
      the enhanced report of what it collected and raised and resets the
      counter; one that raises increments it and answers with the error
      summary below the threshold and from the fallback at or above it.
      No mode flag changes, so the next call tries the database again. */
  function MonitorClustersEnhanced(c: Controller, names: seq<string>, w: PassWorld, fallbackOk: bool,
                                   collect: string -> Result<ClusterMetrics>, now: int, render: Renderer)
    : (r: Result<(Controller, Report)>)
    ensures !c.useDatabase || !c.dbManager ==> r == RunFallback(c, names, fallbackOk, collect, now, render)
    ensures c.useDatabase && c.dbManager && !w.raises ==>
              var pass := EnhancedPass(c.alertEngine, names, now, render, w);
              r == Ok((c.(errorCount := 0, alertEngine := pass.0),
                       EnhancedReport(pass.1.metrics, pass.1.alerts, pass.1.summary)))
    ensures c.useDatabase && c.dbManager && w.raises && c.errorCount + 1 < MaxErrors ==>
              r == Ok((c.(errorCount := c.errorCount + 1), ErrorReport()))
    ensures c.useDatabase && c.dbManager && w.raises && c.errorCount + 1 >= MaxErrors ==>
              r == RunFallback(c.(errorCount := c.errorCount + 1), names, fallbackOk, collect, now, render)
    ensures r.Ok? ==> r.value.0.useDatabase == c.useDatabase && r.value.0.dbManager == c.dbManager
  {
    if !c.useDatabase || !c.dbManager then RunFallback(c, names, fallbackOk, collect, now, render)
    else if !w.raises then
      var pass := EnhancedPass(c.alertEngine, names, now, render, w);
      Ok((c.(errorCount := 0, alertEngine := pass.0), EnhancedReport(pass.1.metrics, pass.1.alerts, pass.1.summary)))
    else
      var c1 := c.(errorCount := c.errorCount + 1);
      if c1.errorCount >= MaxErrors then RunFallback(c1, names, fallbackOk, collect, now, render)
      else Ok((c1, ErrorReport()))
  }

  /** A database-mode answer reports one snapshot per requested name, and
      every name whose task kept its own name is a key of the reported
      clusters. */
  lemma EnhancedAnswerCoversNames(c: Controller, names: seq<string>, w: PassWorld,
                                  collect: string -> Result<ClusterMetrics>, now: int, render: Renderer, i: nat)
    requires c.useDatabase && c.dbManager && !w.raises && i < |names|
    requires w.outcome(i).Ok? ==> w.outcome(i).value.base.clusterName == names[i]
    ensures var r := MonitorClustersEnhanced(c, names, w, false, collect, now, render);
            r.Ok? && r.value.1.mode == DatabaseIntegrated && r.value.1.totals.totalClusters == |names|
            && names[i] in Keys(r.value.1.clusters)
  {
    var batch := Batch(names, w.outcome, w.stamp, w.hms);
    BatchNamesMatch(names, w.outcome, w.stamp, w.hms, i);
    assert batch[i] == BatchEntry(names[i], w.outcome(i), w.stamp, w.hms);
    assert Bases(batch)[i].clusterName == names[i];
  }

  /** On a disconnected engine a database-mode answer raises no alert and
      leaves cooldowns and the alert table alone. */
  lemma DisconnectedPassRaisesNothing(c: Controller, names: seq<string>, w: PassWorld,
                                      collect: string -> Result<ClusterMetrics>, now: int, render: Renderer)
    requires c.useDatabase && c.dbManager && !w.raises && !c.alertEngine.connected
    ensures var r := MonitorClustersEnhanced(c, names, w, false, collect, now, render);
            r.Ok? && r.value.0.alertEngine.cooldowns == c.alertEngine.cooldowns
            && r.value.0.alertEngine.table == c.alertEngine.table
            && r.value.1.recommendations == SmartRecommendations(Bases(Batch(names, w.outcome, w.stamp, w.hms)), [])
  {
  }

  /** Starting from a clean counter, consecutive enhanced failures answer
      with the error summary four times and from the fallback on the fifth;
      the controller then still uses the database, and a pass that does not
      raise answers in database mode and clears the counter. */
  lemma ErrorThreshold(c: Controller, names: seq<string>, failing: PassWorld, working: PassWorld,
                       collect: string -> Result<ClusterMetrics>, now: int, render: Renderer)
    requires c.useDatabase && c.dbManager && c.fallbackReady && c.errorCount == 4
    requires failing.raises && !working.raises
    ensures var r := MonitorClustersEnhanced(c, names, failing, false, collect, now, render);
            r.Ok? && r.value.1.mode == Fallback && r.value.0.errorCount == 5
            && var next := MonitorClustersEnhanced(r.value.0, names, working, false, collect, now, render);
               next.Ok? && next.value.1.mode == DatabaseIntegrated && next.value.0.errorCount == 0
  {
  }

  /** Below the threshold a failure is reported, not hidden. */
  lemma EarlyFailuresReported(c: Controller, names: seq<string>, w: PassWorld, fallbackOk: bool,
                              collect: string -> Result<ClusterMetrics>, now: int, render: Renderer)
    requires c.useDatabase && c.dbManager && c.errorCount < MaxErrors - 1 && w.raises
    ensures var r := MonitorClustersEnhanced(c, names, w, fallbackOk, collect, now, render);
            r.Ok? && r.value.1.mode == ErrorMode && r.value.0.errorCount == c.errorCount + 1
  {
  }
}
