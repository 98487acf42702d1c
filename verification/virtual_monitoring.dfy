/** The group-level monitor of virtual_cluster_monitoring.py: per-cluster
    snapshots with its own scoring constants (deliberately different from
    the collector in the Metrics module), the group rollup, the bounded
    per-group history, threshold alerts and recommendations. */
module VirtualMonitoring {
  import opened Wrappers
  import opened Seqs
  import opened Strings

  const CreateComplete := "CREATE_COMPLETE"

  /** Snapshot of one member cluster. Pod counts cannot be negative. */
  datatype ClusterSnapshot = ClusterSnapshot(
    clusterName: string,
    timestamp: string,
    status: string,
    healthStatus: string,
    nodeCount: int,
    runningPods: nat,
    cpuUsage: real,
    memoryUsage: real,
    gpuUsage: real,
    networkIoMbps: real,
    diskUsage: real,
    powerConsumptionWatts: real,
    costPerHour: real,
    workloadCount: nat,
    failedPods: nat,
    pendingPods: nat)

  /** Rollup of one virtual group at one instant. */
  datatype GroupMetrics = GroupMetrics(
    groupName: string,
    timestamp: string,
    totalClusters: nat,
    activeClusters: nat,
    totalNodes: int,
    totalCostPerHour: real,
    avgCpuUsage: real,
    avgMemoryUsage: real,
    avgGpuUsage: real,
    totalPowerConsumption: real,
    healthScore: real,
    efficiencyScore: real,
    clusterMetrics: seq<ClusterSnapshot>)

  /** The Magnum cluster fields this monitor reads. */
  datatype MagnumCluster = MagnumCluster(
    status: string,
    healthStatus: Option<string>,
    nodeCount: int,
    templateId: string,
    gpuDevicePlugin: Option<string>)   // labels.get('gpu_device_plugin')

  /** One draw of the simulated telemetry (an input here). */
  datatype Sample = Sample(
    cpu: real, memory: real, gpu: real, powerPerNode: real, running: nat,
    network: real, disk: real, workload: nat, failed: nat, pending: nat)

  function Empty(name: string, now: string, status: string, health: string, nodes: int): ClusterSnapshot
  {
    ClusterSnapshot(name, now, status, health, nodes, 0, 0.0, 0.0, 0.0, 0.0, 0.0, 0.0, 0.0, 0, 0, 0)
  }

  /** `'gpu' in labels.get('gpu_device_plugin', '')`. */
  predicate IsGpuCluster(c: MagnumCluster)
  {
    Contains(c.gpuDevicePlugin.GetOr(""), "gpu")
  }

  /** _calculate_cluster_cost: a template id mentioning "ai" is billed at the
      GPU rate, anything else at the development rate, per worker node. */
  function ClusterCost(c: MagnumCluster): (cost: real)
    ensures Contains(c.templateId, "ai") ==> cost == 1.20 * (c.nodeCount as real)
    ensures !Contains(c.templateId, "ai") ==> cost == 0.15 * (c.nodeCount as real)
  {
    (if Contains(c.templateId, "ai") then 1.20 else 0.15) * (c.nodeCount as real)
  }

  /** collect_cluster_metrics: telemetry only for CREATE_COMPLETE clusters,
      cost for every cluster, an ERROR snapshot when the lookup fails. */
  function CollectClusterMetrics(name: string, now: string, lookup: Result<MagnumCluster>, s: Sample): (r: ClusterSnapshot)
    ensures r.clusterName == name
    ensures lookup.Err? ==> r == Empty(name, now, "ERROR", "ERROR", 0)
    ensures lookup.Ok? ==> r.status == lookup.value.status && r.nodeCount == lookup.value.nodeCount
                           && r.costPerHour == ClusterCost(lookup.value)
    ensures lookup.Ok? && lookup.value.status != CreateComplete ==>
              r.cpuUsage == 0.0 && r.memoryUsage == 0.0 && r.gpuUsage == 0.0 && r.powerConsumptionWatts == 0.0
    ensures lookup.Ok? && lookup.value.status == CreateComplete ==>
              r.cpuUsage == s.cpu && r.memoryUsage == s.memory
              && r.gpuUsage == (if IsGpuCluster(lookup.value) then s.gpu else 0.0)
              && r.powerConsumptionWatts == s.powerPerNode * (lookup.value.nodeCount as real)
  {
    match lookup
    case Err(_) => Empty(name, now, "ERROR", "ERROR", 0)
    case Ok(c) =>
      var health := if c.healthStatus.Some? && |c.healthStatus.value| > 0 then c.healthStatus.value else "UNKNOWN";
      var base := Empty(name, now, c.status, health, c.nodeCount);
      var measured :=
        if c.status == CreateComplete then
          base.(cpuUsage := s.cpu, memoryUsage := s.memory,
                gpuUsage := if IsGpuCluster(c) then s.gpu else 0.0,
                powerConsumptionWatts := s.powerPerNode * (c.nodeCount as real),
                runningPods := s.running, networkIoMbps := s.network, diskUsage := s.disk,
                workloadCount := s.workload, failedPods := s.failed, pendingPods := s.pending)
        else base;
      measured.(costPerHour := ClusterCost(c))
  }

  predicate IsActive(c: ClusterSnapshot) { c.status == CreateComplete }

  function Active(cs: seq<ClusterSnapshot>): (r: seq<ClusterSnapshot>)
    ensures |r| <= |cs|
    ensures forall i :: 0 <= i < |r| ==> IsActive(r[i]) && r[i] in cs
  {
    Filter(cs, IsActive)
  }

  /** Per-member health in this variant: 10 per failed pod, 5 per queued pod
      beyond 5, 20 each for CPU or memory above 90 %, floored at 0. */
  function MemberHealth(c: ClusterSnapshot): (h: real)
    ensures 0.0 <= h <= 100.0
  {
    Max(0.0, 100.0
      - (if c.failedPods > 0 then (c.failedPods * 10) as real else 0.0)
      - (if c.pendingPods > 5 then ((c.pendingPods - 5) * 5) as real else 0.0)
      - (if c.cpuUsage > 90.0 then 20.0 else 0.0)
      - (if c.memoryUsage > 90.0 then 20.0 else 0.0))
  }

  /** Mean of CPU and memory, averaged again with GPU when a GPU is busy. */
  function MemberUtilization(c: ClusterSnapshot): real
  {
    var u := (c.cpuUsage + c.memoryUsage) / 2.0;
    if c.gpuUsage > 0.0 then (u + c.gpuUsage) / 2.0 else u
  }

  predicate UsageInRange(c: ClusterSnapshot)
  {
    0.0 <= c.cpuUsage <= 100.0 && 0.0 <= c.memoryUsage <= 100.0 && 0.0 <= c.gpuUsage <= 100.0
    && c.powerConsumptionWatts >= 0.0
  }

  /** Per-member efficiency: utilisation per kW scaled by 50 and capped at
      100; the raw utilisation when no power is reported. */
  function MemberEfficiency(c: ClusterSnapshot): (e: real)
    ensures UsageInRange(c) ==> 0.0 <= e <= 100.0
    ensures c.powerConsumptionWatts > 0.0 ==> e <= 100.0
  {
    var u := MemberUtilization(c);
    if c.powerConsumptionWatts > 0.0 then
      var perKw := u / (c.powerConsumptionWatts / 1000.0);
      assert u >= 0.0 ==> perKw >= 0.0 by {
        if u >= 0.0 { DivNonNegative(u, c.powerConsumptionWatts / 1000.0); }
      }
      Min(100.0, perKw * 50.0)
    else u
  }

  lemma DivNonNegative(x: real, y: real)
    requires x >= 0.0 && y > 0.0
    ensures x / y >= 0.0
  {
  }

  /** _calculate_health_score: mean member health over the active members,
      0 when none is active. */
  function GroupHealth(active: seq<ClusterSnapshot>): (h: real)
    ensures 0.0 <= h <= 100.0
    ensures |active| == 0 ==> h == 0.0
  {
    MeanBounds(active, MemberHealth, 0.0, 100.0);
    Mean(active, MemberHealth)
  }

  /** _calculate_efficiency_score: mean member efficiency over the active
      members, 0 when none is active. */
  function GroupEfficiency(active: seq<ClusterSnapshot>): (e: real)
    ensures |active| == 0 ==> e == 0.0
    ensures (forall i :: 0 <= i < |active| ==> UsageInRange(active[i])) ==> 0.0 <= e <= 100.0
  {
    EfficiencyMeanBounds(active);
    Mean(active, MemberEfficiency)
  }

  lemma EfficiencyMeanBounds(active: seq<ClusterSnapshot>)
    ensures (forall i :: 0 <= i < |active| ==> UsageInRange(active[i])) ==>
              0.0 <= Mean(active, MemberEfficiency) <= 100.0
  {
    if forall i :: 0 <= i < |active| ==> UsageInRange(active[i]) {
      MeanBounds(active, MemberEfficiency, 0.0, 100.0);
    }
  }

  function Nodes(c: ClusterSnapshot): real { c.nodeCount as real }
  function NodeCount(c: ClusterSnapshot): int { c.nodeCount }
  function Cost(c: ClusterSnapshot): real { c.costPerHour }
  function Power(c: ClusterSnapshot): real { c.powerConsumptionWatts }
  function Cpu(c: ClusterSnapshot): real { c.cpuUsage }
  function Memory(c: ClusterSnapshot): real { c.memoryUsage }
  function Gpu(c: ClusterSnapshot): real { c.gpuUsage }

  /** collect_group_metrics over already collected member snapshots: totals
      over every member, power and averages over the active ones. */
  function RollUp(groupName: string, now: string, members: seq<ClusterSnapshot>): (g: GroupMetrics)
    ensures g.groupName == groupName && g.clusterMetrics == members
    ensures g.totalClusters == |members| && g.activeClusters <= g.totalClusters
    ensures g.activeClusters == |Active(members)|
    ensures g.totalNodes == SumInt(members, NodeCount)
    ensures g.totalCostPerHour == SumBy(members, Cost)
    ensures g.totalPowerConsumption == SumBy(Active(members), Power)
    ensures g.avgCpuUsage == Mean(Active(members), Cpu)
    ensures g.avgMemoryUsage == Mean(Active(members), Memory) && g.avgGpuUsage == Mean(Active(members), Gpu)
    ensures g.healthScore == GroupHealth(Active(members)) && g.efficiencyScore == GroupEfficiency(Active(members))
    ensures 0.0 <= g.healthScore <= 100.0
    ensures g.activeClusters == 0 ==>
              g.avgCpuUsage == 0.0 && g.avgMemoryUsage == 0.0 && g.avgGpuUsage == 0.0
              && g.healthScore == 0.0 && g.efficiencyScore == 0.0 && g.totalPowerConsumption == 0.0
    ensures |members| == 0 ==> g.totalNodes == 0 && g.totalCostPerHour == 0.0
  {
    var active := Active(members);
    if |members| == 0 then
      GroupMetrics(groupName, now, 0, 0, 0, 0.0, 0.0, 0.0, 0.0, 0.0, 0.0, 0.0, [])
    else
      GroupMetrics(groupName, now, |members|, |active|,
                   SumInt(members, NodeCount), SumBy(members, Cost),
                   Mean(active, Cpu), Mean(active, Memory), Mean(active, Gpu),
                   SumBy(active, Power), GroupHealth(active), GroupEfficiency(active), members)
  }

  /** The group's counts and totals add up over a split of its members:
      the roll-up of `a + b` counts and sums what the roll-ups of `a` and
      `b` do. */
  lemma RollUpAppend(groupName: string, now: string, a: seq<ClusterSnapshot>, b: seq<ClusterSnapshot>)
    ensures var g, ga, gb := RollUp(groupName, now, a + b), RollUp(groupName, now, a), RollUp(groupName, now, b);
            g.totalClusters == ga.totalClusters + gb.totalClusters
            && g.activeClusters == ga.activeClusters + gb.activeClusters
            && g.totalNodes == ga.totalNodes + gb.totalNodes
            && g.totalCostPerHour == ga.totalCostPerHour + gb.totalCostPerHour
            && g.totalPowerConsumption == ga.totalPowerConsumption + gb.totalPowerConsumption
  {
    FilterAppend(a, b, IsActive);
    SumIntAppend(a, b, NodeCount);
    SumByAppend(a, b, Cost);
    SumByAppend(Active(a), Active(b), Power);
  }

  /** collect_group_metrics: one snapshot per member name, in order, then the
      rollup. */
  function CollectGroupMetrics(groupName: string, now: string, names: seq<string>,
                               lookups: seq<Result<MagnumCluster>>, samples: seq<Sample>): (g: GroupMetrics)
    requires |lookups| == |names| && |samples| == |names|
    ensures g.totalClusters == |names| && |g.clusterMetrics| == |names|
    ensures forall i :: 0 <= i < |names| ==> g.clusterMetrics[i].clusterName == names[i]
  {
    var members := seq(|names|, i requires 0 <= i < |names| =>
                         CollectClusterMetrics(names[i], now, lookups[i], samples[i]));
    RollUp(groupName, now, members)
  }

  /** The group efficiency is in [0, 100] whenever the members' telemetry is. */
  lemma GroupEfficiencyBounded(groupName: string, now: string, members: seq<ClusterSnapshot>)
    requires forall i :: 0 <= i < |members| ==> UsageInRange(members[i])
    ensures 0.0 <= RollUp(groupName, now, members).efficiencyScore <= 100.0
  {
    var active := Active(members);
    assert forall i :: 0 <= i < |active| ==> UsageInRange(active[i]) by {
      forall i | 0 <= i < |active| ensures UsageInRange(active[i]) {
        var j :| 0 <= j < |members| && members[j] == active[i];
      }
    }
  }

  // ---------------------------------------------------------------------
  // History of rollups per group

  const HistoryLimit := 100

  type History = map<string, seq<GroupMetrics>>

  /** The bookkeeping of one monitoring cycle: append, then keep the 100
      most recent snapshots. */
  function Record(h: History, g: GroupMetrics): (h': History)
    ensures g.groupName in h'
    ensures 1 <= |h'[g.groupName]| <= HistoryLimit
    ensures h'[g.groupName][|h'[g.groupName]| - 1] == g
    ensures var prev := if g.groupName in h then h[g.groupName] else [];
            var all := prev + [g];
            |h'[g.groupName]| == (if |all| > HistoryLimit then HistoryLimit else |all|)
            && h'[g.groupName] == all[|all| - |h'[g.groupName]|..]
    ensures forall n :: n in h && n != g.groupName ==> n in h' && h'[n] == h[n]
    ensures h'.Keys == h.Keys + {g.groupName}
  {
    var prev := if g.groupName in h then h[g.groupName] else [];
    var all := prev + [g];
    var kept := if |all| > HistoryLimit then all[|all| - HistoryLimit..] else all;
    h[g.groupName := kept]
  }

  /** get_current_status: the latest rollup of a group, if any. */
  function CurrentStatus(h: History, groupName: string): (r: Option<GroupMetrics>)
    ensures r.Some? <==> groupName in h && |h[groupName]| > 0
    ensures r.Some? ==> r.value == h[groupName][|h[groupName]| - 1]
  {
    if groupName in h && |h[groupName]| > 0 then Some(h[groupName][|h[groupName]| - 1]) else None
  }

  /** After recording a rollup, it is the group's current status. */
  lemma RecordThenCurrent(h: History, g: GroupMetrics)
    ensures CurrentStatus(Record(h, g), g.groupName) == Some(g)
  {
  }

  // ---------------------------------------------------------------------
  // Threshold alerts

  datatype AlertType = HighCost | LowEfficiency | HealthIssue | HighPower

  /** An alert record. The message text is the formatted metric; the model
      keeps the metric value itself. `timestamp` is the key the monitor adds
      when it stores the alert. */
  datatype GroupAlert = GroupAlert(
    alertType: AlertType, group: string, value: real, severity: string, timestamp: Option<string>)

  /** The threshold each alert type watches. */
  predicate Triggered(g: GroupMetrics, t: AlertType)
  {
    match t
    case HighCost => g.totalCostPerHour > 20.0
    case LowEfficiency => g.efficiencyScore < 30.0
    case HealthIssue => g.healthScore < 50.0
    case HighPower => g.totalPowerConsumption > 10000.0
  }

  /** The alert of a given type for a rollup, before it is stored. */
  function Candidate(g: GroupMetrics, t: AlertType): GroupAlert
  {
    match t
    case HighCost => GroupAlert(HighCost, g.groupName, g.totalCostPerHour, "WARNING", None)
    case LowEfficiency => GroupAlert(LowEfficiency, g.groupName, g.efficiencyScore, "WARNING", None)
    case HealthIssue => GroupAlert(HealthIssue, g.groupName, g.healthScore, "CRITICAL", None)
    case HighPower => GroupAlert(HighPower, g.groupName, g.totalPowerConsumption, "INFO", None)
  }

  function When(c: bool, a: GroupAlert): seq<GroupAlert> { if c then [a] else [] }

  /** The candidate alerts of one rollup, in the order they are checked:
      exactly one per threshold crossed. */
  function Candidates(g: GroupMetrics): (r: seq<GroupAlert>)
    ensures forall t: AlertType :: Candidate(g, t) in r <==> Triggered(g, t)
    ensures forall i :: 0 <= i < |r| ==> r[i] == Candidate(g, r[i].alertType)
  {
    When(Triggered(g, HighCost), Candidate(g, HighCost))
    + When(Triggered(g, LowEfficiency), Candidate(g, LowEfficiency))
    + When(Triggered(g, HealthIssue), Candidate(g, HealthIssue))
    + When(Triggered(g, HighPower), Candidate(g, HighPower))
  }

  /** _check_alerts as written: a candidate is stored only if it is not
      already in the list, but the comparison includes the timestamp key
      that every stored alert has and no candidate has. */
  function CheckAlertsAsWritten(stored: seq<GroupAlert>, candidates: seq<GroupAlert>, now: string): seq<GroupAlert>
    decreases |candidates|
  {
    if |candidates| == 0 then stored
    else
      var c := candidates[0];
      var stored' := if c !in stored then stored + [c.(timestamp := Some(now))] else stored;
      CheckAlertsAsWritten(stored', candidates[1..], now)
  }

  predicate AllStamped(alerts: seq<GroupAlert>)
  {
    forall i :: 0 <= i < |alerts| ==> alerts[i].timestamp.Some?
  }

  /** As written, the membership test never matches: every candidate is
      appended, however often the same condition repeats. */
  lemma {:induction false} AsWrittenAppendsEverything(stored: seq<GroupAlert>, candidates: seq<GroupAlert>, now: string)
    requires AllStamped(stored)
    requires forall i :: 0 <= i < |candidates| ==> candidates[i].timestamp.None?
    ensures |CheckAlertsAsWritten(stored, candidates, now)| == |stored| + |candidates|
    ensures AllStamped(CheckAlertsAsWritten(stored, candidates, now))
    decreases |candidates|
  {
    if |candidates| > 0 {
      var c := candidates[0];
      assert forall i :: 0 <= i < |stored| ==> stored[i] != c;
      assert c !in stored;
      CheckAlertsAsWrittenStep(stored, candidates, now);
      AsWrittenAppendsEverything(stored + [c.(timestamp := Some(now))], candidates[1..], now);
    }
  }

  lemma CheckAlertsAsWrittenStep(stored: seq<GroupAlert>, candidates: seq<GroupAlert>, now: string)
    requires |candidates| > 0 && candidates[0] !in stored
    ensures CheckAlertsAsWritten(stored, candidates, now)
            == CheckAlertsAsWritten(stored + [candidates[0].(timestamp := Some(now))], candidates[1..], now)
  {
  }

  /** Concrete instance: a group that stays over the cost threshold for two
      cycles collects the same HIGH_COST alert twice. */
  lemma AsWrittenDuplicates()
    ensures var g := GroupMetrics("g", "t0", 1, 1, 20, 24.0, 50.0, 50.0, 0.0, 100.0, 90.0, 80.0, []);
            var once := CheckAlertsAsWritten([], Candidates(g), "t0");
            var twice := CheckAlertsAsWritten(once, Candidates(g), "t1");
            |once| == 1 && |twice| == 2 && twice[0].alertType == twice[1].alertType == HighCost
  {
    var g := GroupMetrics("g", "t0", 1, 1, 20, 24.0, 50.0, 50.0, 0.0, 100.0, 90.0, 80.0, []);
    var c := GroupAlert(HighCost, "g", 24.0, "WARNING", None);
    assert Candidates(g) == [c];
    var once := CheckAlertsAsWritten([], [c], "t0");
    assert once == [c.(timestamp := Some("t0"))] by {
      assert CheckAlertsAsWritten([], [c], "t0") == CheckAlertsAsWritten([c.(timestamp := Some("t0"))], [], "t0");
    }
    assert c != once[0];
    assert c !in once;
    assert CheckAlertsAsWritten(once, [c], "t1") == CheckAlertsAsWritten(once + [c.(timestamp := Some("t1"))], [], "t1");
  }

  /** Two alerts describe the same event when everything but the storage
      timestamp agrees. */
  predicate SameEvent(a: GroupAlert, b: GroupAlert)
  {
    a.alertType == b.alertType && a.group == b.group && a.value == b.value && a.severity == b.severity
  }

  predicate Known(stored: seq<GroupAlert>, c: GroupAlert)
  {
    exists i :: 0 <= i < |stored| && SameEvent(stored[i], c)
  }

  /** _check_alerts as intended ("store only new alerts"): a candidate is
      stored, stamped, unless the same event is already stored. */
  function CheckAlerts(stored: seq<GroupAlert>, candidates: seq<GroupAlert>, now: string): (r: seq<GroupAlert>)
    ensures |stored| <= |r| <= |stored| + |candidates|
    ensures r[..|stored|] == stored
    ensures forall i :: 0 <= i < |candidates| ==> Known(r, candidates[i])
    ensures forall i :: |stored| <= i < |r| ==> r[i].timestamp == Some(now)
    decreases |candidates|
  {
    if |candidates| == 0 then stored
    else
      var c := candidates[0];
      var stored' := if Known(stored, c) then stored else stored + [c.(timestamp := Some(now))];
      assert Known(stored', c) by {
        if !Known(stored, c) { assert SameEvent(stored'[|stored|], c); }
      }
      var r := CheckAlerts(stored', candidates[1..], now);
      assert r[..|stored|] == stored by {
        assert r[..|stored'|] == stored';
        assert stored'[..|stored|] == stored;
      }
      assert Known(r, c) by {
        var i :| 0 <= i < |stored'| && SameEvent(stored'[i], c);
        assert r[i] == stored'[i];
      }
      assert forall i :: 1 <= i < |candidates| ==> candidates[i] == candidates[1..][i - 1];
      r
  }

  /** Re-checking a rollup whose alerts are all stored adds nothing. */
  lemma {:induction false} CheckAlertsIdempotent(stored: seq<GroupAlert>, candidates: seq<GroupAlert>, now: string)
    requires forall i :: 0 <= i < |candidates| ==> Known(stored, candidates[i])
    ensures CheckAlerts(stored, candidates, now) == stored
  {
    if |candidates| > 0 {
      CheckAlertsIdempotent(stored, candidates[1..], now);
    }
  }

  /** Two cycles over the same rollup store each alert once. */
  lemma RepeatedCycleStoresOnce(stored: seq<GroupAlert>, g: GroupMetrics, t1: string, t2: string)
    ensures var once := CheckAlerts(stored, Candidates(g), t1);
            CheckAlerts(once, Candidates(g), t2) == once
  {
    var once := CheckAlerts(stored, Candidates(g), t1);
    CheckAlertsIdempotent(once, Candidates(g), t2);
  }

  // ---------------------------------------------------------------------
  // Recommendations

  datatype Recommendation = ScaleInIdleNodes | MoveNonGpuWork | ReduceGpuNodes | CheckFailingPods | ReviewScaleDownTiming

  function Costs(g: GroupMetrics): real { g.totalCostPerHour }

  /** _generate_recommendations: one message per condition that holds, in
      a fixed order; the trend rule needs more than 10 historical rollups. */
  function Recommendations(current: GroupMetrics, historical: seq<GroupMetrics>): (r: seq<Recommendation>)
    ensures ScaleInIdleNodes in r <==> current.efficiencyScore < 50.0
    ensures MoveNonGpuWork in r <==> current.totalCostPerHour > 15.0
    ensures ReduceGpuNodes in r <==> current.avgGpuUsage < 30.0
    ensures CheckFailingPods in r <==> current.healthScore < 70.0
    ensures ReviewScaleDownTiming in r <==>
              |historical| > 10
              && SumBy(historical[|historical| - 10..], Costs) / 10.0 > current.totalCostPerHour * 1.2
    ensures |r| <= 5
  {
    (if current.efficiencyScore < 50.0 then [ScaleInIdleNodes] else [])
    + (if current.totalCostPerHour > 15.0 then [MoveNonGpuWork] else [])
    + (if current.avgGpuUsage < 30.0 then [ReduceGpuNodes] else [])
    + (if current.healthScore < 70.0 then [CheckFailingPods] else [])
    + (if |historical| > 10
          && SumBy(historical[|historical| - 10..], Costs) / 10.0 > current.totalCostPerHour * 1.2
       then [ReviewScaleDownTiming] else [])
  }
}
