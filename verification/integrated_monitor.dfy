/** The in-memory monitor of monitoring/integrated_monitor.py: one collection
    pass over the requested clusters feeding the alert system, the report
    totals, the optimisation advice and the status indicators. */
module IntegratedMonitor {
  import opened Wrappers
  import opened Seqs
  import opened OrderedMaps
  import opened Metrics
  import opened Alerts

  // One monitoring pass

  /** The loop of `monitor_clusters` from request `names[0]` on, with the
      map built so far. A collection that raises leaves its name out; a
      collected snapshot is stored, then handed to the alert system. */
  function MonitorFrom(names: seq<string>, acc: OrderedMap<string, ClusterMetrics>, sys: AlertSystem,
                       collect: string -> Result<ClusterMetrics>, now: int, render: Renderer)
    : (r: (OrderedMap<string, ClusterMetrics>, AlertSystem))
    ensures DistinctKeys(acc) ==> DistinctKeys(r.0)
    ensures forall k :: k in Keys(r.0) <==> k in Keys(acc) || (k in names && collect(k).Ok?)
    ensures forall k :: k in names && collect(k).Ok? ==> Get(r.0, k) == Some(collect(k).value)
    ensures forall k :: k !in names ==> Get(r.0, k) == Get(acc, k)
    ensures |sys.history| <= |r.1.history| && r.1.history[..|sys.history|] == sys.history
    ensures r.1.rules == sys.rules
    decreases |names|
  {
    if |names| == 0 then (acc, sys)
    else
      var name := names[0];
      assert names == [name] + names[1..];
      match collect(name)
      case Err(_) => MonitorFrom(names[1..], acc, sys, collect, now, render)
      case Ok(m) =>
        var processed := ProcessMetrics(sys, m, now, render);
        var acc1 := Put(acc, name, m);
        StoreCollected(acc, name, m);
        var r := MonitorFrom(names[1..], acc1, processed.0, collect, now, render);
        assert r.1.history[..|sys.history|] == processed.0.history[..|sys.history|];
        r
  }

  /** Storing one snapshot adds its name to the keys and leaves every
      other entry as it was. */
  lemma StoreCollected(acc: OrderedMap<string, ClusterMetrics>, name: string, m: ClusterMetrics)
    ensures forall k :: k in Keys(Put(acc, name, m)) <==> k in Keys(acc) || k == name
    ensures forall k :: k != name ==> Get(Put(acc, name, m), k) == Get(acc, k)
  {
    forall k | k != name ensures Get(Put(acc, name, m), k) == Get(acc, k) {
      PutOther(acc, name, m, k);
    }
  }

  /** `monitor_clusters`: a map keyed by cluster name holding exactly the
      clusters whose collection did not raise. */
  function MonitorClusters(names: seq<string>, sys: AlertSystem, collect: string -> Result<ClusterMetrics>,
                           now: int, render: Renderer): (r: (OrderedMap<string, ClusterMetrics>, AlertSystem))
    ensures DistinctKeys(r.0) && |r.0| <= |names|
    ensures forall k :: k in Keys(r.0) <==> k in names && collect(k).Ok?
    ensures forall k :: k in Keys(r.0) ==> Get(r.0, k) == Some(collect(k).value)
    ensures |sys.history| <= |r.1.history| && r.1.history[..|sys.history|] == sys.history
  {
    var r := MonitorFrom(names, [], sys, collect, now, render);
    KeysWithin(r.0, names);
    r
  }

  /** A map without repeated keys, all drawn from `names`, has at most
      `|names|` entries. */
  lemma KeysWithin(m: OrderedMap<string, ClusterMetrics>, names: seq<string>)
    requires DistinctKeys(m)
    requires forall k :: k in Keys(m) ==> k in names
    ensures |m| <= |names|
  {
    var ks := set i | 0 <= i < |m| :: m[i].0;
    var ns := set k | k in names;
    assert ks <= ns by {
      forall i | 0 <= i < |m| ensures m[i].0 in ns {
        assert Keys(m)[i] == m[i].0;
      }
    }
    IndexedKeysCard(m);
    SeqSetCard(names);
    assert |ks| <= |ns| by { SubsetCard(ks, ns); }
  }

  lemma {:induction false} IndexedKeysCard(m: OrderedMap<string, ClusterMetrics>)
    requires DistinctKeys(m)
    ensures |set i | 0 <= i < |m| :: m[i].0| == |m|
  {
    if |m| > 0 {
      var init := m[..|m| - 1];
      IndexedKeysCard(init);
      var a := set i | 0 <= i < |init| :: init[i].0;
      var b := set i | 0 <= i < |m| :: m[i].0;
      assert b == a + {m[|m| - 1].0};
      assert m[|m| - 1].0 !in a;
    }
  }

  lemma {:induction false} SeqSetCard(s: seq<string>)
    ensures |set k | k in s| <= |s|
  {
    if |s| > 0 {
      var init := s[..|s| - 1];
      SeqSetCard(init);
      var a := set k | k in init;
      var b := set k | k in s;
      assert b <= a + {s[|s| - 1]};
      SubsetCard(b, a + {s[|s| - 1]});
    }
  }

  lemma SubsetCard(a: set<string>, b: set<string>)
    requires a <= b
    ensures |a| <= |b|
  {
    assert b == a + (b - a);
  }

  // The report

  datatype ReportSummary = ReportSummary(totalCost: real, totalPower: real, activeClusters: nat, totalClusters: nat)

  function Cost(m: ClusterMetrics): real { m.costPerHour }
  function Power(m: ClusterMetrics): real { m.powerConsumptionWatts }

  /** The `summary` block of `generate_report`, written with `sum` and a
      filtered `len`. */
  function Report(clusters: OrderedMap<string, ClusterMetrics>): (r: ReportSummary)
    ensures r.totalClusters == |clusters| && r.activeClusters <= r.totalClusters
  {
    var ms := Values(clusters);
    ReportSummary(SumBy(ms, Cost), SumBy(ms, Power), |Filter(ms, Running)|, |clusters|)
  }

  /** `print_monitoring_summary` reaches the same totals with a running
      loop. */
  method SummaryTotals(clusters: OrderedMap<string, ClusterMetrics>)
    returns (cost: real, power: real, active: nat)
    ensures Report(clusters) == ReportSummary(cost, power, active, |clusters|)
  {
    var ms := Values(clusters);
    cost, power, active := 0.0, 0.0, 0;
    var i := 0;
    while i < |ms|
      invariant 0 <= i <= |ms|
      invariant cost == SumBy(ms[..i], Cost) && power == SumBy(ms[..i], Power)
      invariant active == |Filter(ms[..i], Running)|
    {
      var m := ms[i];
      assert ms[..i + 1] == ms[..i] + [m];
      assert SumBy([m], Cost) == m.costPerHour && SumBy([m], Power) == m.powerConsumptionWatts;
      SumByAppend(ms[..i], [m], Cost);
      SumByAppend(ms[..i], [m], Power);
      FilterAppend(ms[..i], [m], Running);
      assert |Filter([m], Running)| == if Running(m) then 1 else 0;
      if Running(ms[i]) {
        active := active + 1;
      }
      cost := cost + ms[i].costPerHour;
      power := power + ms[i].powerConsumptionWatts;
      i := i + 1;
    }
    assert ms[..i] == ms;
  }

  // Recommendations

  /** The advice messages, by meaning. */
  datatype Advice =
    | NoActiveClusters
    | ScaleDownHighCost(clusters: nat)
    | RebalanceLowEfficiency(clusters: nat)
    | ConsolidateGpu
    | HealthIssues(clusters: nat)
    | StateGood

  predicate HighCost(m: ClusterMetrics) { m.costPerHour > 10.0 }
  predicate LowEfficiency(m: ClusterMetrics) { m.efficiencyScore < 40.0 }
  predicate UsesGpu(m: ClusterMetrics) { m.gpuUsage > 0.0 }
  predicate Unhealthy(m: ClusterMetrics) { m.healthScore < 70.0 }
  function Gpu(m: ClusterMetrics): real { m.gpuUsage }

  function Flag(c: bool, a: Advice): seq<Advice> { if c then [a] else [] }

  predicate GpuUnderused(active: seq<ClusterMetrics>)
  {
    var gpu := Filter(active, UsesGpu);
    |gpu| > 0 && Mean(gpu, Gpu) < 30.0
  }

  /** The triggered messages, in the order the source checks them. */
  function Triggered(active: seq<ClusterMetrics>): seq<Advice>
  {
    var high := Filter(active, HighCost);
    var low := Filter(active, LowEfficiency);
    var sick := Filter(active, Unhealthy);
    Flag(|high| > 0, ScaleDownHighCost(|high|))
    + Flag(|low| > 0, RebalanceLowEfficiency(|low|))
    + Flag(GpuUnderused(active), ConsolidateGpu)
    + Flag(|sick| > 0, HealthIssues(|sick|))
  }

  /** `generate_recommendations` over the map's snapshots. */
  function GenerateRecommendations(ms: seq<ClusterMetrics>): (r: seq<Advice>)
  {
    var active := Filter(ms, Running);
    if |active| == 0 then [NoActiveClusters]
    else
      var found := Triggered(active);
      if |found| == 0 then [StateGood] else found
  }

  predicate SomeActive(ms: seq<ClusterMetrics>, p: ClusterMetrics -> bool)
  {
    exists i :: 0 <= i < |ms| && Running(ms[i]) && p(ms[i])
  }

  lemma FilterNonEmpty(ms: seq<ClusterMetrics>, p: ClusterMetrics -> bool)
    ensures |Filter(Filter(ms, Running), p)| > 0 <==> SomeActive(ms, p)
  {
    var active := Filter(ms, Running);
    if SomeActive(ms, p) {
      var i :| 0 <= i < |ms| && Running(ms[i]) && p(ms[i]);
      assert ms[i] in active;
      var j :| 0 <= j < |active| && active[j] == ms[i];
      assert active[j] in Filter(active, p);
    }
    if |Filter(active, p)| > 0 {
      var x := Filter(active, p)[0];
      assert x in active && p(x);
      var i :| 0 <= i < |ms| && ms[i] == x;
    }
  }

  predicate IsScaleDown(a: Advice) { a.ScaleDownHighCost? }
  predicate IsRebalance(a: Advice) { a.RebalanceLowEfficiency? }
  predicate IsHealthIssue(a: Advice) { a.HealthIssues? }
  predicate IsGpuAdvice(a: Advice) { a.ConsolidateGpu? }
  predicate IsFallback(a: Advice) { a.NoActiveClusters? || a.StateGood? }

  /** Which messages a triggered list holds, by kind. */
  predicate HasKind(t: seq<Advice>, kind: Advice -> bool)
  {
    exists i :: 0 <= i < |t| && kind(t[i])
  }

  lemma HasKindFlags(a: bool, x: Advice, b: bool, y: Advice, c: bool, z: Advice, d: bool, w: Advice,
                     kind: Advice -> bool)
    ensures HasKind(Flag(a, x) + Flag(b, y) + Flag(c, z) + Flag(d, w), kind)
            <==> (a && kind(x)) || (b && kind(y)) || (c && kind(z)) || (d && kind(w))
  {
    var t := Flag(a, x) + Flag(b, y) + Flag(c, z) + Flag(d, w);
    if (a && kind(x)) || (b && kind(y)) || (c && kind(z)) || (d && kind(w)) {
      var v := if a && kind(x) then x else if b && kind(y) then y else if c && kind(z) then z else w;
      assert v in t;
    }
  }

  /** The kinds in a triggered list, read off the four guards. */
  lemma {:induction false} TriggeredKinds(active: seq<ClusterMetrics>)
    ensures var t := Triggered(active);
            (HasKind(t, IsScaleDown) <==> |Filter(active, HighCost)| > 0)
            && (HasKind(t, IsRebalance) <==> |Filter(active, LowEfficiency)| > 0)
            && (HasKind(t, IsHealthIssue) <==> |Filter(active, Unhealthy)| > 0)
            && (HasKind(t, IsGpuAdvice) <==> GpuUnderused(active))
            && !HasKind(t, IsFallback)
  {
    var high := Filter(active, HighCost);
    var low := Filter(active, LowEfficiency);
    var sick := Filter(active, Unhealthy);
    var x, y, z, w := ScaleDownHighCost(|high|), RebalanceLowEfficiency(|low|), ConsolidateGpu, HealthIssues(|sick|);
    var a, b, c, d := |high| > 0, |low| > 0, GpuUnderused(active), |sick| > 0;
    assert Triggered(active) == Flag(a, x) + Flag(b, y) + Flag(c, z) + Flag(d, w);
    FlaggedKinds(a, b, c, d, |high|, |low|, |sick|);
  }

  /** The kinds in the four-guard list, for any guards and counts. */
  lemma FlaggedKinds(a: bool, b: bool, c: bool, d: bool, nh: nat, nl: nat, ns: nat)
    ensures var x, y, z, w := ScaleDownHighCost(nh), RebalanceLowEfficiency(nl), ConsolidateGpu, HealthIssues(ns);
            var t := Flag(a, x) + Flag(b, y) + Flag(c, z) + Flag(d, w);
            (HasKind(t, IsScaleDown) <==> a) && (HasKind(t, IsRebalance) <==> b)
            && (HasKind(t, IsHealthIssue) <==> d) && (HasKind(t, IsGpuAdvice) <==> c)
            && !HasKind(t, IsFallback)
  {
    var x, y, z, w := ScaleDownHighCost(nh), RebalanceLowEfficiency(nl), ConsolidateGpu, HealthIssues(ns);
    HasKindFlags(a, x, b, y, c, z, d, w, IsScaleDown);
    HasKindFlags(a, x, b, y, c, z, d, w, IsRebalance);
    HasKindFlags(a, x, b, y, c, z, d, w, IsHealthIssue);
    HasKindFlags(a, x, b, y, c, z, d, w, IsGpuAdvice);
    HasKindFlags(a, x, b, y, c, z, d, w, IsFallback);
  }

  /** Each message of the triggered list appears iff some running cluster
      meets its trigger, and the list holds no other kind of message. */
  lemma TriggeredSpec(ms: seq<ClusterMetrics>)
    ensures var t := Triggered(Filter(ms, Running));
            (HasKind(t, IsScaleDown) <==> SomeActive(ms, HighCost))
            && (HasKind(t, IsRebalance) <==> SomeActive(ms, LowEfficiency))
            && (HasKind(t, IsHealthIssue) <==> SomeActive(ms, Unhealthy))
            && (HasKind(t, IsGpuAdvice) <==> GpuUnderused(Filter(ms, Running)))
            && !HasKind(t, IsFallback)
  {
    FilterNonEmpty(ms, HighCost);
    FilterNonEmpty(ms, LowEfficiency);
    FilterNonEmpty(ms, Unhealthy);
    TriggeredKinds(Filter(ms, Running));
  }

  /** The advice list is never empty. It is the single "no active clusters"
      message exactly when nothing runs; otherwise it is the triggered
      messages, or "state good" alone when none is triggered. */
  lemma RecommendationsSpec(ms: seq<ClusterMetrics>)
    ensures var r := GenerateRecommendations(ms);
            var active := Filter(ms, Running);
            |r| >= 1
            && (r == [NoActiveClusters] <==> |active| == 0)
            && (|active| > 0 && |Triggered(active)| > 0 ==> r == Triggered(active))
            && (StateGood in r <==> |active| > 0 && |Triggered(active)| == 0)
  {
    TriggeredSpec(ms);
    FallbackOnlyAlone(|Filter(ms, Running)|, Triggered(Filter(ms, Running)));
  }

  /** The choice at the end of `generate_recommendations`, for any count of
      running clusters and any list without a fallback message. */
  lemma FallbackOnlyAlone(running: nat, t: seq<Advice>)
    requires !HasKind(t, IsFallback)
    ensures var r := if running == 0 then [NoActiveClusters] else if |t| == 0 then [StateGood] else t;
            |r| >= 1
            && (r == [NoActiveClusters] <==> running == 0)
            && (StateGood in r <==> running > 0 && |t| == 0)
  {
    assert forall i :: 0 <= i < |t| ==> !IsFallback(t[i]);
    assert forall i :: 0 <= i < |t| ==> t[i] != StateGood && t[i] != NoActiveClusters;
    if |t| > 0 {
      assert t[0] != [NoActiveClusters][0];
    }
    assert [StateGood][0] != [NoActiveClusters][0];
  }

  // Status indicators

  /** `get_status_indicator`. */
  function StatusIndicator(status: string): (r: string)
  {
    if status == "CREATE_COMPLETE" then "[OK]"
    else if status == "CREATE_IN_PROGRESS" then "[IN_PROGRESS]"
    else if status == "CREATE_FAILED" then "[FAILED]"
    else if status == "DELETE_IN_PROGRESS" then "[DELETING]"
    else if status == "ERROR" then "[ERROR]"
    else "[UNKNOWN]"
  }

  const KnownStatuses := {"CREATE_COMPLETE", "CREATE_IN_PROGRESS", "CREATE_FAILED", "DELETE_IN_PROGRESS", "ERROR"}

  /** Only the five known statuses get an indicator of their own, and no two
      of them share one. */
  lemma StatusIndicatorSpec(a: string, b: string)
    ensures StatusIndicator(a) == "[UNKNOWN]" <==> a !in KnownStatuses
    ensures a in KnownStatuses && b in KnownStatuses && a != b ==> StatusIndicator(a) != StatusIndicator(b)
  {
  }
}
