/** The per-cluster metrics pipeline of monitoring/metrics_collector.py:
    basic information from Magnum, simulated resource telemetry, the power
    and cost model, and the health and efficiency scores. */
module Metrics {
  import opened Wrappers
  import opened Seqs
  import opened MonitorConfig

  const CreateComplete := "CREATE_COMPLETE"

  /** The monitors count a cluster as active exactly in this status. */
  predicate Running(m: ClusterMetrics) { m.status == CreateComplete }

  /** One snapshot of one cluster. Percentages are in [0, 100] when the
      telemetry is; money is $/hour, power is watts. */
  datatype ClusterMetrics = ClusterMetrics(
    clusterName: string,
    timestamp: string,
    status: string,
    healthStatus: string,
    nodeCount: int,
    masterCount: int,
    templateId: string,
    apiAddress: Option<string>,
    cpuUsage: real,
    memoryUsage: real,
    gpuUsage: real,
    diskUsage: real,
    networkIoMbps: real,
    runningPods: int,
    failedPods: int,
    pendingPods: int,
    workloadCount: int,
    powerConsumptionWatts: real,
    costPerHour: real,
    estimatedMonthlyCost: real,
    healthScore: real,
    efficiencyScore: real)

  /** A snapshot with the dataclass defaults for every measured field. */
  function Blank(name: string, timestamp: string, status: string, healthStatus: string,
                 nodeCount: int, masterCount: int, templateId: string,
                 apiAddress: Option<string>): ClusterMetrics
  {
    ClusterMetrics(name, timestamp, status, healthStatus, nodeCount, masterCount, templateId,
                   apiAddress, 0.0, 0.0, 0.0, 0.0, 0.0, 0, 0, 0, 0, 0.0, 0.0, 0.0, 0.0, 0.0)
  }

  /** The fields of a Magnum cluster record the collector reads. */
  datatype MagnumCluster = MagnumCluster(
    status: string,
    healthStatus: Option<string>,
    nodeCount: int,
    masterCount: int,
    templateId: string,
    apiAddress: Option<string>)

  /** Python truthiness of an optional string: `None` and `""` are false. */
  predicate Truthy(s: Option<string>)
  {
    s.Some? && |s.value| > 0
  }

  /** collect_cluster_basic_info: the Magnum lookup either succeeds or its
      exception becomes an ERROR snapshot with no nodes. */
  function CollectBasicInfo(name: string, now: string, lookup: Result<MagnumCluster>): (r: ClusterMetrics)
    ensures r.clusterName == name && r.timestamp == now
    ensures r.cpuUsage == 0.0 && r.memoryUsage == 0.0 && r.gpuUsage == 0.0
    ensures r.powerConsumptionWatts == 0.0 && r.costPerHour == 0.0
    ensures lookup.Err? ==> r.status == "ERROR" && r.healthStatus == "ERROR"
                            && r.nodeCount == 0 && r.masterCount == 0 && r.templateId == "unknown"
                            && r.apiAddress.None?
    ensures lookup.Ok? ==> r.status == lookup.value.status
                           && r.nodeCount == lookup.value.nodeCount
                           && r.masterCount == lookup.value.masterCount
                           && r.templateId == lookup.value.templateId
                           && r.apiAddress == lookup.value.apiAddress
    ensures lookup.Ok? ==> (Truthy(lookup.value.healthStatus) ==> r.healthStatus == lookup.value.healthStatus.value)
                           && (!Truthy(lookup.value.healthStatus) ==> r.healthStatus == "UNKNOWN")
  {
    match lookup
    case Ok(c) =>
      var health := if Truthy(c.healthStatus) then c.healthStatus.value else "UNKNOWN";
      Blank(name, now, c.status, health, c.nodeCount, c.masterCount, c.templateId, c.apiAddress)
    case Err(_) =>
      Blank(name, now, "ERROR", "ERROR", 0, 0, "unknown", None)
  }

  /** The template a cluster is profiled and priced as: its own, or the
      development template when the id is not in the table. */
  function EffectiveTemplate(templateId: string): (t: ClusterTemplate)
    ensures GetClusterTemplate(templateId).Some? ==> t == GetClusterTemplate(templateId).value
    ensures GetClusterTemplate(templateId).None? ==> t == DevTemplate
  {
    GetClusterTemplate(templateId).GetOr(DevTemplate)
  }

  /** The values one round of simulated telemetry draws. The source draws
      them at random; here they are an input. */
  datatype ResourceSample = ResourceSample(
    cpu: real, memory: real, gpu: real, network: real,
    running: int, workload: int, disk: real, failed: int, pending: int)

  /** The ranges the simulation draws from (uniform and randint bounds). */
  predicate SampleInRange(s: ResourceSample, hasGpu: bool)
  {
    && 30.0 <= s.disk <= 85.0 && 0 <= s.failed <= 2 && 0 <= s.pending <= 5
    && (hasGpu ==>
          && 60.0 <= s.cpu <= 95.0 && 70.0 <= s.memory <= 90.0 && 40.0 <= s.gpu <= 95.0
          && 100.0 <= s.network <= 800.0 && 8 <= s.running <= 30 && 3 <= s.workload <= 10)
    && (!hasGpu ==>
          && 20.0 <= s.cpu <= 70.0 && 30.0 <= s.memory <= 80.0
          && 50.0 <= s.network <= 300.0 && 5 <= s.running <= 20 && 2 <= s.workload <= 8)
  }

  /** Utilisation percentages all lie in [0, 100]. */
  predicate UtilizationInRange(m: ClusterMetrics)
  {
    0.0 <= m.cpuUsage <= 100.0 && 0.0 <= m.memoryUsage <= 100.0 && 0.0 <= m.gpuUsage <= 100.0
  }

  /** The fields that identify a snapshot and its topology. */
  predicate SameIdentity(a: ClusterMetrics, b: ClusterMetrics)
  {
    a.clusterName == b.clusterName && a.timestamp == b.timestamp && a.status == b.status
    && a.healthStatus == b.healthStatus && a.nodeCount == b.nodeCount
    && a.masterCount == b.masterCount && a.templateId == b.templateId && a.apiAddress == b.apiAddress
  }

  /** collect_resource_metrics: only a CREATE_COMPLETE cluster gets telemetry;
      a CPU-only template always reports 0 % GPU. */
  function CollectResourceMetrics(m: ClusterMetrics, s: ResourceSample): (r: ClusterMetrics)
    ensures m.status != CreateComplete ==> r == m
    ensures SameIdentity(r, m)
    ensures r.powerConsumptionWatts == m.powerConsumptionWatts && r.costPerHour == m.costPerHour
    ensures m.status == CreateComplete ==>
              r.cpuUsage == s.cpu && r.memoryUsage == s.memory && r.failedPods == s.failed
              && r.pendingPods == s.pending && r.diskUsage == s.disk
              && r.gpuUsage == (if EffectiveTemplate(m.templateId).hasGpu then s.gpu else 0.0)
    ensures m.status == CreateComplete && SampleInRange(s, EffectiveTemplate(m.templateId).hasGpu) ==>
              UtilizationInRange(r) && r.failedPods >= 0 && r.pendingPods >= 0
  {
    if m.status != CreateComplete then m
    else
      var t := EffectiveTemplate(m.templateId);
      var gpu := if t.hasGpu then s.gpu else 0.0;
      m.(cpuUsage := s.cpu, memoryUsage := s.memory, gpuUsage := gpu, networkIoMbps := s.network,
         runningPods := s.running, workloadCount := s.workload, diskUsage := s.disk,
         failedPods := s.failed, pendingPods := s.pending)
  }

  /** Fraction of full load the cluster runs at: CPU and memory, plus GPU
      whenever it reports any GPU use. */
  function UtilizationFactor(m: ClusterMetrics): (u: real)
    ensures UtilizationInRange(m) ==> 0.0 <= u <= 1.0
    ensures m.cpuUsage == 0.0 && m.memoryUsage == 0.0 && m.gpuUsage == 0.0 ==> u == 0.0
  {
    if m.gpuUsage > 0.0 then (m.cpuUsage + m.memoryUsage + m.gpuUsage) / 300.0
    else (m.cpuUsage + m.memoryUsage) / 200.0
  }

  /** Draw of the whole cluster if every node ran at full load. */
  function PeakPower(t: ClusterTemplate, m: ClusterMetrics, cfg: MonitoringConfig): real
  {
    t.estimatedPowerPerNode * ((m.nodeCount + m.masterCount) as real) * cfg.coolingOverhead
  }

  /** Scaling the per-node draw by a load factor scales the whole draw. */
  lemma Regroup(base: real, g: real, n: real, c: real)
    ensures base * g * n * c == g * (base * n * c)
  {
  }

  /** Cluster draw from a per-node draw scaled by a load multiplier `g`,
      a node count and the cooling overhead: `g` times the peak draw. */
  function LoadedDraw(base: real, g: real, n: real, c: real): (p: real)
    ensures p == g * (base * n * c)
  {
    Regroup(base, g, n, c);
    base * g * n * c
  }

  lemma ScaleBetween(k: real, f: real)
    requires 0.0 <= k && 0.3 <= f <= 1.0
    ensures 0.3 * k <= f * k <= k
  {
  }

  /** The load-scaled draw lies between 30 % and 100 % of the peak. */
  lemma PowerWithinPeak(m: ClusterMetrics, cfg: MonitoringConfig, factor: real, power: real)
    requires factor == UtilizationFactor(m)
    requires power == (0.3 + 0.7 * factor) * PeakPower(EffectiveTemplate(m.templateId), m, cfg)
    ensures UtilizationInRange(m) && m.nodeCount + m.masterCount >= 0 && cfg.coolingOverhead >= 0.0 ==>
              0.3 * PeakPower(EffectiveTemplate(m.templateId), m, cfg) <= power
              <= PeakPower(EffectiveTemplate(m.templateId), m, cfg)
  {
    var t := EffectiveTemplate(m.templateId);
    var peak := PeakPower(t, m, cfg);
    if UtilizationInRange(m) && m.nodeCount + m.masterCount >= 0 && cfg.coolingOverhead >= 0.0 {
      assert t.estimatedPowerPerNode > 0.0 by {
        if GetClusterTemplate(m.templateId).Some? { TemplateTableFacts(m.templateId); }
      }
      assert peak >= 0.0 by {
        var n := (m.nodeCount + m.masterCount) as real;
        assert t.estimatedPowerPerNode * n >= 0.0;
      }
      var f := 0.3 + 0.7 * factor;
      assert 0.3 <= f <= 1.0;
      ScaleBetween(peak, f);
      assert power == f * peak;
    }
  }

  /** calculate_power_and_cost: watts for masters and workers with cooling
      overhead, and $/hour as electricity plus per-worker infrastructure. */
  function CalculatePowerAndCost(m: ClusterMetrics, cfg: MonitoringConfig): (r: ClusterMetrics)
    ensures SameIdentity(r, m)
    ensures r.cpuUsage == m.cpuUsage && r.memoryUsage == m.memoryUsage && r.gpuUsage == m.gpuUsage
    ensures r.failedPods == m.failedPods && r.pendingPods == m.pendingPods
    ensures r.healthScore == m.healthScore && r.efficiencyScore == m.efficiencyScore
    // idle floor and full-load ceiling
    ensures UtilizationInRange(m) && m.nodeCount + m.masterCount >= 0 && cfg.coolingOverhead >= 0.0 ==>
              0.3 * PeakPower(EffectiveTemplate(m.templateId), m, cfg) <= r.powerConsumptionWatts
              <= PeakPower(EffectiveTemplate(m.templateId), m, cfg)
    // infrastructure is charged per worker; masters only draw power
    ensures r.costPerHour - r.powerConsumptionWatts / 1000.0 * cfg.electricityRate
            == EffectiveTemplate(m.templateId).baseCostPerHour * (m.nodeCount as real)
    ensures r.estimatedMonthlyCost == r.costPerHour * 720.0
    // the draw moves linearly from 30 % of the peak when idle to the peak at full load
    ensures r.powerConsumptionWatts == (0.3 + 0.7 * UtilizationFactor(m)) * PeakPower(EffectiveTemplate(m.templateId), m, cfg)
    ensures UtilizationFactor(m) == 0.0 ==> r.powerConsumptionWatts == 0.3 * PeakPower(EffectiveTemplate(m.templateId), m, cfg)
    ensures UtilizationFactor(m) == 1.0 ==> r.powerConsumptionWatts == PeakPower(EffectiveTemplate(m.templateId), m, cfg)
  {
    var t := EffectiveTemplate(m.templateId);
    var factor := UtilizationFactor(m);
    var power := LoadedDraw(t.estimatedPowerPerNode, 0.3 + 0.7 * factor, (m.nodeCount + m.masterCount) as real, cfg.coolingOverhead);
    var cost := power / 1000.0 * cfg.electricityRate + t.baseCostPerHour * (m.nodeCount as real);
    PowerWithinPeak(m, cfg, factor, power);
    m.(powerConsumptionWatts := power, costPerHour := cost, estimatedMonthlyCost := cost * 24.0 * 30.0)
  }

  lemma ScaleUp(a: real, b: real, k: real)
    requires a <= b && 0.0 <= k
    ensures a * k <= b * k
  {
  }

  lemma PeakNonNegative(m: ClusterMetrics, cfg: MonitoringConfig)
    requires m.nodeCount + m.masterCount >= 0 && cfg.coolingOverhead >= 0.0
    ensures PeakPower(EffectiveTemplate(m.templateId), m, cfg) >= 0.0
  {
    var t := EffectiveTemplate(m.templateId);
    assert t.estimatedPowerPerNode > 0.0 by {
      if GetClusterTemplate(m.templateId).Some? { TemplateTableFacts(m.templateId); }
    }
    var n := (m.nodeCount + m.masterCount) as real;
    assert t.estimatedPowerPerNode * n >= 0.0;
  }

  /** Of two snapshots of the same cluster shape, the busier one draws at
      least as much power. */
  lemma {:induction false} PowerMonotoneInLoad(m: ClusterMetrics, busier: ClusterMetrics, cfg: MonitoringConfig)
    requires busier.templateId == m.templateId && busier.nodeCount == m.nodeCount && busier.masterCount == m.masterCount
    requires m.nodeCount + m.masterCount >= 0 && cfg.coolingOverhead >= 0.0
    requires UtilizationFactor(m) <= UtilizationFactor(busier)
    ensures CalculatePowerAndCost(m, cfg).powerConsumptionWatts <= CalculatePowerAndCost(busier, cfg).powerConsumptionWatts
  {
    PeakNonNegative(m, cfg);
    var p1, f1, k1 := DrawOf(m, cfg);
    var p2, f2, k2 := DrawOf(busier, cfg);
    PeakSameShape(m, busier, cfg);
    DrawMono(p1, p2, f1, f2, k1);
  }

  /** The peak draw depends only on the template and the node counts. */
  lemma PeakSameShape(m: ClusterMetrics, other: ClusterMetrics, cfg: MonitoringConfig)
    requires other.templateId == m.templateId && other.nodeCount == m.nodeCount && other.masterCount == m.masterCount
    ensures PeakPower(EffectiveTemplate(m.templateId), m, cfg) == PeakPower(EffectiveTemplate(other.templateId), other, cfg)
  {
  }

  /** Of two snapshots with the same template and workers, the one that
      draws more costs at least as much per hour when electricity has a
      non-negative price; with `PowerMonotoneInLoad`, a busier cluster is a
      dearer one. */
  lemma {:induction false} CostMonotoneInDraw(m: ClusterMetrics, other: ClusterMetrics, cfg: MonitoringConfig)
    requires other.templateId == m.templateId && other.nodeCount == m.nodeCount && cfg.electricityRate >= 0.0
    requires CalculatePowerAndCost(m, cfg).powerConsumptionWatts <= CalculatePowerAndCost(other, cfg).powerConsumptionWatts
    ensures CalculatePowerAndCost(m, cfg).costPerHour <= CalculatePowerAndCost(other, cfg).costPerHour
  {
    var c1, p1, i1 := CostOf(m, cfg);
    var c2, p2, i2 := CostOf(other, cfg);
    PriceMono(c1, c2, p1, p2, cfg.electricityRate, i1);
  }

  /** A snapshot's hourly cost as its electricity plus its infrastructure. */
  lemma CostOf(m: ClusterMetrics, cfg: MonitoringConfig) returns (cost: real, power: real, infra: real)
    ensures cost == CalculatePowerAndCost(m, cfg).costPerHour
    ensures power == CalculatePowerAndCost(m, cfg).powerConsumptionWatts
    ensures infra == EffectiveTemplate(m.templateId).baseCostPerHour * (m.nodeCount as real)
    ensures cost == power / 1000.0 * cfg.electricityRate + infra
  {
    var r := CalculatePowerAndCost(m, cfg);
    cost, power, infra := r.costPerHour, r.powerConsumptionWatts, EffectiveTemplate(m.templateId).baseCostPerHour * (m.nodeCount as real);
  }

  lemma PriceMono(c1: real, c2: real, p1: real, p2: real, rate: real, infra: real)
    requires c1 == p1 / 1000.0 * rate + infra && c2 == p2 / 1000.0 * rate + infra && p1 <= p2 && 0.0 <= rate
    ensures c1 <= c2
  {
    ScaleUp(p1 / 1000.0, p2 / 1000.0, rate);
  }

  /** A snapshot's draw as its load factor times its peak. */
  lemma DrawOf(m: ClusterMetrics, cfg: MonitoringConfig) returns (power: real, factor: real, peak: real)
    ensures power == CalculatePowerAndCost(m, cfg).powerConsumptionWatts
    ensures factor == 0.3 + 0.7 * UtilizationFactor(m) && peak == PeakPower(EffectiveTemplate(m.templateId), m, cfg)
    ensures power == factor * peak
  {
    power, factor, peak := CalculatePowerAndCost(m, cfg).powerConsumptionWatts, 0.3 + 0.7 * UtilizationFactor(m),
                           PeakPower(EffectiveTemplate(m.templateId), m, cfg);
  }

  lemma DrawMono(p1: real, p2: real, f1: real, f2: real, peak: real)
    requires p1 == f1 * peak && p2 == f2 * peak && f1 <= f2 && 0.0 <= peak
    ensures p1 <= p2
  {
    ScaleUp(f1, f2, peak);
  }

  /** Health before clamping: deductions for failed and queued pods,
      saturated CPU or memory, and an unreachable API server. */
  function RawHealth(m: ClusterMetrics): real
  {
    100.0
    - (if m.failedPods > 0 then (m.failedPods * 15) as real else 0.0)
    - (if m.pendingPods > 5 then ((m.pendingPods - 5) * 10) as real else 0.0)
    - (if m.cpuUsage > 90.0 then 20.0 else 0.0)
    - (if m.memoryUsage > 90.0 then 20.0 else 0.0)
    - (if !Truthy(m.apiAddress) then 10.0 else 0.0)
  }

  /** Mean utilisation, over CPU and memory, and GPU when it is in use. */
  function UtilizationScore(m: ClusterMetrics): real
  {
    if m.gpuUsage > 0.0 then (m.cpuUsage + m.memoryUsage + m.gpuUsage) / 3.0
    else (m.cpuUsage + m.memoryUsage) / 2.0
  }

  function HealthScore(m: ClusterMetrics): (h: real)
    ensures 0.0 <= h <= 100.0
    ensures m.status != CreateComplete ==> h == 0.0
  {
    if m.status != CreateComplete then 0.0 else Clamp(RawHealth(m), 0.0, 100.0)
  }

  function EfficiencyScore(m: ClusterMetrics): (e: real)
    ensures 0.0 <= e <= 100.0
    ensures m.status != CreateComplete || m.powerConsumptionWatts <= 0.0 ==> e == 0.0
  {
    if m.status == CreateComplete && m.powerConsumptionWatts > 0.0 then
      Max(0.0, Min(100.0, UtilizationScore(m) / (m.powerConsumptionWatts / 1000.0) * 20.0))
    else 0.0
  }

  /** calculate_scores: both scores land in [0, 100], and a cluster that is
      not CREATE_COMPLETE scores 0 on both. */
  function CalculateScores(m: ClusterMetrics): (r: ClusterMetrics)
    ensures 0.0 <= r.healthScore <= 100.0 && 0.0 <= r.efficiencyScore <= 100.0
    ensures m.status != CreateComplete ==> r.healthScore == 0.0 && r.efficiencyScore == 0.0
    ensures m.powerConsumptionWatts <= 0.0 ==> r.efficiencyScore == 0.0
    ensures r == m.(healthScore := r.healthScore, efficiencyScore := r.efficiencyScore)
  {
    m.(healthScore := HealthScore(m), efficiencyScore := EfficiencyScore(m))
  }

  /** A healthy cluster (no failing or queued pods, no saturation, API up)
      scores exactly 100. */
  lemma PerfectHealth(m: ClusterMetrics)
    requires m.status == CreateComplete && m.failedPods == 0 && m.pendingPods <= 5
    requires m.cpuUsage <= 90.0 && m.memoryUsage <= 90.0 && Truthy(m.apiAddress)
    ensures HealthScore(m) == 100.0
  {
  }

  /** Health never rises when more pods fail, all else equal. */
  lemma HealthMonotoneInFailures(m: ClusterMetrics, extra: nat)
    requires m.failedPods >= 0
    ensures HealthScore(m.(failedPods := m.failedPods + extra)) <= HealthScore(m)
  {
    var m' := m.(failedPods := m.failedPods + extra);
    assert RawHealth(m') <= RawHealth(m);
  }

  /** An unknown template id is priced exactly like the development template. */
  lemma UnknownTemplatePricedAsDev(m: ClusterMetrics, cfg: MonitoringConfig)
    requires GetClusterTemplate(m.templateId).None?
    ensures CalculatePowerAndCost(m, cfg).powerConsumptionWatts
            == CalculatePowerAndCost(m.(templateId := DevTemplateId), cfg).powerConsumptionWatts
    ensures CalculatePowerAndCost(m, cfg).costPerHour
            == CalculatePowerAndCost(m.(templateId := DevTemplateId), cfg).costPerHour
  {
    assert EffectiveTemplate(m.templateId) == EffectiveTemplate(DevTemplateId);
  }

  /** collect_full_metrics: basic info, telemetry, power and cost, scores. */
  function CollectFullMetrics(name: string, now: string, lookup: Result<MagnumCluster>,
                              s: ResourceSample, cfg: MonitoringConfig): (r: ClusterMetrics)
    ensures r.clusterName == name
    ensures 0.0 <= r.healthScore <= 100.0 && 0.0 <= r.efficiencyScore <= 100.0
    ensures lookup.Ok? ==> r.status == lookup.value.status && r.nodeCount == lookup.value.nodeCount
    ensures lookup.Err? ==> r.status == "ERROR" && r.healthScore == 0.0 && r.efficiencyScore == 0.0
  {
    var basic := CollectBasicInfo(name, now, lookup);
    var withUsage := CollectResourceMetrics(basic, s);
    var priced := CalculatePowerAndCost(withUsage, cfg);
    CalculateScores(priced)
  }

  /** The error snapshot of a failed lookup has no nodes, so the model
      charges it nothing: zero watts and zero dollars. */
  lemma FailedLookupCostsNothing(name: string, now: string, e: Error, s: ResourceSample, cfg: MonitoringConfig)
    ensures CollectFullMetrics(name, now, Err(e), s, cfg).powerConsumptionWatts == 0.0
    ensures CollectFullMetrics(name, now, Err(e), s, cfg).costPerHour == 0.0
  {
    var basic := CollectBasicInfo(name, now, Err(e));
    assert CollectResourceMetrics(basic, s) == basic;
  }

  /** The collector's result for every requested name, in order, keeping
      only the collections that did not raise. */
  function Collected(names: seq<string>, collect: string -> Result<ClusterMetrics>): seq<ClusterMetrics>
  {
    if |names| == 0 then []
    else
      (if collect(names[0]).Ok? then [collect(names[0]).value] else [])
      + Collected(names[1..], collect)
  }

  /** At most one result per request, and one for every request exactly
      when no collection fails. */
  lemma {:induction false} CollectedShape(names: seq<string>, collect: string -> Result<ClusterMetrics>)
    ensures |Collected(names, collect)| <= |names|
    ensures |Collected(names, collect)| == |names| <==> forall i :: 0 <= i < |names| ==> collect(names[i]).Ok?
  {
    if |names| > 0 {
      CollectedShape(names[1..], collect);
      if collect(names[0]).Ok? {
        assert forall i :: 1 <= i < |names| ==> names[i] == names[1..][i - 1];
      } else {
        assert |Collected(names, collect)| < |names|;
      }
    }
  }

  /** collect_multiple_clusters: a loop over the requests in which each
      failure is logged and skipped. */
  method CollectMultipleClusters(names: seq<string>, collect: string -> Result<ClusterMetrics>)
    returns (out: seq<ClusterMetrics>)
    ensures out == Collected(names, collect)
    ensures |out| <= |names|
  {
    out := [];
    var i := 0;
    while i < |names|
      invariant 0 <= i <= |names|
      invariant out + Collected(names[i..], collect) == Collected(names, collect)
    {
      assert names[i..][1..] == names[i + 1..];
      var result := collect(names[i]);
      if result.Ok? {
        out := out + [result.value];
      }
      i := i + 1;
    }
    assert names[i..] == [];
    CollectedShape(names, collect);
  }
}
