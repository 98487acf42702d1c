/** The virtual cluster groups of virtual_cluster_group_manager.py: named
    groups of cluster records with node and cost totals, group creation and
    deletion, the hourly cost estimate, and node-level scale-out and
    scale-in across a group's clusters. Magnum calls are not performed: the
    resize and delete requests a call would send are returned instead, and
    since the source swallows their failures, nothing else depends on them. */
module GroupManager {
  import opened Wrappers
  import opened Seqs
  import opened MonitorConfig

  const CreateComplete := "CREATE_COMPLETE"
  const CreateInProgress := "CREATE_IN_PROGRESS"
  const Horizontal := "horizontal"

  /** One cluster record of a group: the keys of the source's dict that the
      manager reads; an absent key is `None`. */
  datatype ClusterInfo = ClusterInfo(
    name: string,
    template: string,
    nodeCount: Option<int>,
    hourlyCost: Option<real>,
    status: Option<string>)

  /** `c.get('node_count', 0)` and `c.get('hourly_cost', 0)`. */
  function Nodes(c: ClusterInfo): int { c.nodeCount.GetOr(0) }
  function HourlyCost(c: ClusterInfo): real { c.hourlyCost.GetOr(0.0) }

  function NodeSum(cs: seq<ClusterInfo>): int { SumInt(cs, Nodes) }
  function CostSum(cs: seq<ClusterInfo>): real { SumBy(cs, HourlyCost) }

  datatype Group = Group(
    name: string,
    groupType: string,
    clusters: seq<ClusterInfo>,
    totalNodes: int,
    totalCost: real)

  /** The group's totals agree with its member list. */
  predicate Consistent(g: Group)
  {
    g.totalNodes == NodeSum(g.clusters) && g.totalCost == CostSum(g.clusters)
  }

  function NewGroup(name: string, groupType: string): Group
  {
    Group(name, groupType, [], 0, 0.0)
  }

  /** `add_cluster`: the record is appended and its node count and cost,
      each 0 when absent, are added to the totals. */
  function AddCluster(g: Group, c: ClusterInfo): (r: Group)
    ensures r.clusters == g.clusters + [c]
    ensures r.totalNodes == g.totalNodes + Nodes(c) && r.totalCost == g.totalCost + HourlyCost(c)
    ensures Consistent(g) ==> Consistent(r)
  {
    SumIntAppend(g.clusters, [c], Nodes);
    SumByAppend(g.clusters, [c], HourlyCost);
    g.(clusters := g.clusters + [c], totalNodes := g.totalNodes + Nodes(c),
       totalCost := g.totalCost + HourlyCost(c))
  }

  /** `_recalculate_totals`. */
  function Recalculate(g: Group): (r: Group)
    ensures r.clusters == g.clusters && r.name == g.name && r.groupType == g.groupType
    ensures Consistent(r)
  {
    g.(totalNodes := NodeSum(g.clusters), totalCost := CostSum(g.clusters))
  }

  predicate NotNamed(name: string, c: ClusterInfo) { c.name != name }

  /** `remove_cluster`: every record with that name goes, the others stay
      in order, and the totals are recomputed. */
  function RemoveCluster(g: Group, name: string): (r: Group)
    ensures forall i :: 0 <= i < |r.clusters| ==> r.clusters[i].name != name && r.clusters[i] in g.clusters
    ensures forall i :: 0 <= i < |g.clusters| && g.clusters[i].name != name ==> g.clusters[i] in r.clusters
    ensures Consistent(r)
  {
    Recalculate(g.(clusters := Filter(g.clusters, c => NotNamed(name, c))))
  }

  /** Adding a record under a fresh name and removing that name gives the
      group back. */
  lemma AddThenRemove(g: Group, c: ClusterInfo)
    requires Consistent(g)
    requires forall i :: 0 <= i < |g.clusters| ==> g.clusters[i].name != c.name
    ensures RemoveCluster(AddCluster(g, c), c.name) == g
  {
    var keep := (x: ClusterInfo) => NotNamed(c.name, x);
    FilterAppend(g.clusters, [c], keep);
    FilterAll(g.clusters, keep);
    assert Filter([c], keep) == [];
    var a := AddCluster(g, c);
    assert Filter(a.clusters, keep) == g.clusters;
    var r := RemoveCluster(a, c.name);
    assert r.clusters == g.clusters;
    assert r.totalNodes == NodeSum(g.clusters) == g.totalNodes;
    assert r.totalCost == CostSum(g.clusters) == g.totalCost;
  }

  // The manager

  /** `create_virtual_group`: `None` and no change for a taken name;
      otherwise a fresh, empty group stored under that name. */
  function CreateVirtualGroup(groups: map<string, Group>, name: string, groupType: string)
    : (r: (Option<Group>, map<string, Group>))
    ensures name in groups ==> r == (None, groups)
    ensures name !in groups ==>
              r.0.Some? && r.0.value.name == name && r.0.value.groupType == groupType
              && r.0.value.clusters == [] && Consistent(r.0.value)
              && r.1 == groups[name := r.0.value]
  {
    if name in groups then (None, groups)
    else
      var g := NewGroup(name, groupType);
      (Some(g), groups[name := g])
  }

  /** A cluster entry of `create_group_with_clusters`' configuration. */
  datatype ClusterSpec = ClusterSpec(name: string, template: Option<string>, nodeCount: Option<int>)

  /** The `cost_map` of `_estimate_cluster_cost`: 0.15 for unknown ids. */
  function CostRate(template: string): real
  {
    if template == AiTemplateId then 1.20
    else if template == DevTemplateId then 0.15
    else if template == ProdTemplateId then 0.30
    else 0.15
  }

  /** `_estimate_cluster_cost`: rate times node count, with the template
      defaulting to dev and the node count to 1. */
  function EstimateClusterCost(spec: ClusterSpec): real
  {
    CostRate(spec.template.GetOr(DevTemplateId)) * spec.nodeCount.GetOr(1) as real
  }

  /** The estimate prices a node at the base cost of the monitoring
      configuration's template table, and an unknown template as the dev
      template. */
  lemma EstimateUsesTemplateTable(spec: ClusterSpec)
    ensures var id := spec.template.GetOr(DevTemplateId);
            var t := if GetClusterTemplate(id).Some? then GetClusterTemplate(id).value else DevTemplate;
            EstimateClusterCost(spec) == t.baseCostPerHour * spec.nodeCount.GetOr(1) as real
  {
  }

  /** The record `create_group_with_clusters` adds for a created cluster. */
  function SpecRecord(groupName: string, spec: ClusterSpec): (c: ClusterInfo)
    ensures c.name == groupName + "-" + spec.name
    ensures c.status == Some(CreateInProgress) && c.nodeCount == Some(spec.nodeCount.GetOr(1))
    ensures c.hourlyCost == Some(EstimateClusterCost(spec))
  {
    ClusterInfo(groupName + "-" + spec.name, spec.template.GetOr(AiTemplateId),
                Some(spec.nodeCount.GetOr(1)), Some(EstimateClusterCost(spec)), Some(CreateInProgress))
  }

  /** A spec without a template is recorded with the AI template but priced
      at the dev rate: the record's and the estimate's defaults differ. */
  lemma MissingTemplateDefaults(groupName: string, spec: ClusterSpec)
    requires spec.template.None?
    ensures SpecRecord(groupName, spec).template == AiTemplateId
    ensures SpecRecord(groupName, spec).hourlyCost == Some(0.15 * spec.nodeCount.GetOr(1) as real)
  {
  }

  /** The records of the accepted specs from index `i` on, in spec order:
      `created(k)` says whether Magnum accepted the k-th cluster. */
  function Accepted(groupName: string, specs: seq<ClusterSpec>, created: nat -> bool, i: nat): (a: seq<ClusterInfo>)
    requires i <= |specs|
    ensures |a| <= |specs| - i
    ensures forall j :: 0 <= j < |a| ==> a[j].status == Some(CreateInProgress)
    decreases |specs| - i
  {
    if i == |specs| then []
    else (if created(i) then [SpecRecord(groupName, specs[i])] else []) + Accepted(groupName, specs, created, i + 1)
  }

  /** A spec's record is among the accepted records exactly when Magnum
      accepted the spec. */
  lemma {:induction false} AcceptedMembers(groupName: string, specs: seq<ClusterSpec>, created: nat -> bool, i: nat)
    requires i <= |specs|
    ensures forall k :: i <= k < |specs| && created(k) ==> SpecRecord(groupName, specs[k]) in Accepted(groupName, specs, created, i)
    ensures forall c :: c in Accepted(groupName, specs, created, i) ==>
              exists k :: i <= k < |specs| && created(k) && c == SpecRecord(groupName, specs[k])
    decreases |specs| - i
  {
    if i < |specs| {
      AcceptedMembers(groupName, specs, created, i + 1);
    }
  }

  /** The loop of `create_group_with_clusters` over the specs from index
      `i`: `created(i)` says whether Magnum accepted the i-th cluster. */
  function AddCreated(g: Group, specs: seq<ClusterSpec>, created: nat -> bool, i: nat): (r: Group)
    requires i <= |specs|
    ensures r.clusters == g.clusters + Accepted(g.name, specs, created, i)
    ensures Consistent(g) ==> Consistent(r)
    ensures r.name == g.name && r.groupType == g.groupType
    decreases |specs| - i
  {
    if i == |specs| then g
    else
      var next := if created(i) then AddCluster(g, SpecRecord(g.name, specs[i])) else g;
      var r := AddCreated(next, specs, created, i + 1);
      var rec := if created(i) then [SpecRecord(g.name, specs[i])] else [];
      assert r.clusters == g.clusters + (rec + Accepted(g.name, specs, created, i + 1));
      r
  }

  /** `create_group_with_clusters`: `None` for a taken name; otherwise the
      new group holds one in-progress record per accepted cluster, with
      totals that agree with its records. */
  function CreateGroupWithClusters(groups: map<string, Group>, name: string, groupType: string,
                                   specs: seq<ClusterSpec>, created: nat -> bool)
    : (r: (Option<Group>, map<string, Group>))
    ensures name in groups ==> r == (None, groups)
    ensures name !in groups ==>
              r.0.Some? && Consistent(r.0.value) && r.1 == groups[name := r.0.value]
              && |r.0.value.clusters| <= |specs|
              && (forall j :: 0 <= j < |r.0.value.clusters| ==> r.0.value.clusters[j].status == Some(CreateInProgress))
              && r.0.value.name == name && r.0.value.groupType == groupType
              && r.0.value.clusters == Accepted(name, specs, created, 0)
  {
    var (made, groups1) := CreateVirtualGroup(groups, name, groupType);
    match made
    case None => (None, groups)
    case Some(g) =>
      var g1 := AddCreated(g, specs, created, 0);
      (Some(g1), groups1[name := g1])
  }

  /** A group created under a fresh name holds the record of a spec exactly
      when Magnum accepted it, nothing else, and totals summing the
      accepted records' node counts (1 when unset) and estimated costs. */
  lemma CreatedGroupRecords(groups: map<string, Group>, name: string, groupType: string,
                            specs: seq<ClusterSpec>, created: nat -> bool)
    requires name !in groups
    ensures var g := CreateGroupWithClusters(groups, name, groupType, specs, created).0.value;
            (forall k :: 0 <= k < |specs| && created(k) ==> SpecRecord(name, specs[k]) in g.clusters)
            && (forall c :: c in g.clusters ==> exists k :: 0 <= k < |specs| && created(k) && c == SpecRecord(name, specs[k]))
            && g.totalNodes == NodeSum(Accepted(name, specs, created, 0))
            && g.totalCost == CostSum(Accepted(name, specs, created, 0))
  {
    AcceptedMembers(name, specs, created, 0);
  }

  /** `delete_virtual_group`: false for an unknown group; otherwise the group
      is dropped and, when asked, a delete request goes out for each of its
      clusters (their failures are swallowed). */
  function DeleteVirtualGroup(groups: map<string, Group>, name: string, deleteClusters: bool)
    : (r: (bool, map<string, Group>, seq<string>))
    ensures name !in groups ==> r == (false, groups, [])
    ensures name in groups ==> r.0 && r.1 == groups - {name}
    ensures name in groups && deleteClusters ==>
              |r.2| == |groups[name].clusters|
              && forall i :: 0 <= i < |r.2| ==> r.2[i] == groups[name].clusters[i].name
    ensures !deleteClusters ==> r.2 == []
  {
    if name !in groups then (false, groups, [])
    else
      var cs := groups[name].clusters;
      (true, groups - {name}, if deleteClusters then seq(|cs|, i requires 0 <= i < |cs| => cs[i].name) else [])
  }

  // Scaling

  /** A resize request sent to Magnum: the cluster and its new node count. */
  datatype Resize = Resize(cluster: string, nodeCount: int)

  /** The outcome of a scaling walk: the records afterwards, the requests
      sent, and whether a record without `node_count` raised `KeyError`. */
  datatype Walk = Walk(clusters: seq<ClusterInfo>, resizes: seq<Resize>, keyError: bool)

  predicate Active(c: ClusterInfo) { c.status == Some(CreateComplete) }

  function ActiveCount(cs: seq<ClusterInfo>): nat
  {
    if |cs| == 0 then 0 else (if Active(cs[0]) then 1 else 0) + ActiveCount(cs[1..])
  }

  /** The share of the p-th active cluster when n nodes go to k clusters:
      `n // k`, plus one for the first `n % k`. */
  function Share(n: nat, k: nat, p: nat): nat
    requires k > 0
  {
    n / k + (if p < n % k then 1 else 0)
  }

  /** The shares of the first m active clusters. */
  function SharesUpTo(n: nat, k: nat, m: nat): nat
    requires k > 0
  {
    if m == 0 then 0 else SharesUpTo(n, k, m - 1) + Share(n, k, m - 1)
  }

  lemma {:induction false} SharesPrefix(n: nat, k: nat, m: nat)
    requires 0 < k && m <= k
    ensures SharesUpTo(n, k, m) == m * (n / k) + (if m <= n % k then m else n % k)
  {
    if m > 0 {
      SharesPrefix(n, k, m - 1);
    }
  }

  /** The shares of all k clusters add up to n. */
  lemma SharesTotal(n: nat, k: nat)
    requires k > 0
    ensures SharesUpTo(n, k, k) == n
  {
    SharesPrefix(n, k, k);
  }

  /** The loop of `_scale_out_group` over the records, `p` counting the
      active records already passed: each active record gets its share, a
      zero share leaves it alone, and a record that gets a share but has no
      node count raises, leaving the later records as they were. */
  function ScaleOutFrom(cs: seq<ClusterInfo>, n: nat, k: nat, p: nat): (w: Walk)
    requires k > 0
    ensures |w.clusters| == |cs|
    decreases |cs|
  {
    if |cs| == 0 then Walk([], [], false)
    else
      var c := cs[0];
      if !Active(c) then
        var rest := ScaleOutFrom(cs[1..], n, k, p);
        Walk([c] + rest.clusters, rest.resizes, rest.keyError)
      else if Share(n, k, p) == 0 then
        var rest := ScaleOutFrom(cs[1..], n, k, p + 1);
        Walk([c] + rest.clusters, rest.resizes, rest.keyError)
      else
        match c.nodeCount
        case None => Walk(cs, [], true)
        case Some(count) =>
          var grown := count + Share(n, k, p);
          var rest := ScaleOutFrom(cs[1..], n, k, p + 1);
          Walk([c.(nodeCount := Some(grown))] + rest.clusters, [Resize(c.name, grown)] + rest.resizes, rest.keyError)
  }

  /** Without a key error the walk adds exactly the shares of the active
      records it passes. */
  lemma {:induction false} ScaleOutFromSum(cs: seq<ClusterInfo>, n: nat, k: nat, p: nat)
    requires k > 0
    ensures !ScaleOutFrom(cs, n, k, p).keyError ==>
              NodeSum(ScaleOutFrom(cs, n, k, p).clusters)
              == NodeSum(cs) + SharesUpTo(n, k, p + ActiveCount(cs)) - SharesUpTo(n, k, p)
    decreases |cs|
  {
    if |cs| > 0 {
      var c := cs[0];
      var w := ScaleOutFrom(cs, n, k, p);
      var p' := if Active(c) then p + 1 else p;
      ScaleOutFromSum(cs[1..], n, k, p');
      var rest := ScaleOutFrom(cs[1..], n, k, p');
      if !w.keyError {
        assert w.clusters[1..] == rest.clusters;
      }
    }
  }

  /** Records with node counts never raise. */
  lemma {:induction false} ScaleOutCounted(cs: seq<ClusterInfo>, n: nat, k: nat, p: nat)
    requires k > 0
    requires forall i :: 0 <= i < |cs| ==> cs[i].nodeCount.Some?
    ensures !ScaleOutFrom(cs, n, k, p).keyError
    decreases |cs|
  {
    if |cs| > 0 {
      ScaleOutCounted(cs[1..], n, k, if Active(cs[0]) then p + 1 else p);
    }
  }

  /** Each record's fate: an inactive one is untouched; the j-th active one
      (counting from p) grows by `Share(n, k, j)`; only node counts change. */
  lemma {:induction false} ScaleOutFromEach(cs: seq<ClusterInfo>, n: nat, k: nat, p: nat, i: nat)
    requires k > 0 && i < |cs|
    requires !ScaleOutFrom(cs, n, k, p).keyError
    ensures var c := ScaleOutFrom(cs, n, k, p).clusters[i];
            c.name == cs[i].name && c.status == cs[i].status && c.hourlyCost == cs[i].hourlyCost
            && (!Active(cs[i]) ==> c == cs[i])
            && (Active(cs[i]) ==> Nodes(c) == Nodes(cs[i]) + Share(n, k, p + ActiveCount(cs[..i])))
    decreases |cs|
  {
    var p' := if Active(cs[0]) then p + 1 else p;
    var rest := ScaleOutFrom(cs[1..], n, k, p');
    assert ScaleOutFrom(cs, n, k, p).clusters[1..] == rest.clusters;
    if i > 0 {
      ScaleOutFromEach(cs[1..], n, k, p', i - 1);
      assert cs[..i][1..] == cs[1..][..i - 1];
      assert cs[1..][i - 1] == cs[i];
    }
  }

  /** `_scale_out_group`. Without active records nothing happens (not even
      a recount); otherwise the walk runs and the totals are recomputed,
      unless a key error interrupted it. */
  function ScaleOutGroup(g: Group, n: nat): (r: (Group, seq<Resize>, bool))
    ensures ActiveCount(g.clusters) == 0 ==> r == (g, [], false)
    ensures r.0.name == g.name && r.0.groupType == g.groupType && |r.0.clusters| == |g.clusters|
    ensures !r.2 ==> Consistent(r.0) || r.0 == g
  {
    var k := ActiveCount(g.clusters);
    if k == 0 then (g, [], false)
    else
      var w := ScaleOutFrom(g.clusters, n, k, 0);
      if w.keyError then (g.(clusters := w.clusters), w.resizes, true)
      else (Recalculate(g.(clusters := w.clusters)), w.resizes, false)
  }

  /** Scale-out adds exactly n nodes whenever some record is active. */
  lemma ScaleOutAddsExactly(g: Group, n: nat)
    requires ActiveCount(g.clusters) > 0
    requires !ScaleOutGroup(g, n).2
    ensures NodeSum(ScaleOutGroup(g, n).0.clusters) == NodeSum(g.clusters) + n
    ensures Consistent(ScaleOutGroup(g, n).0)
  {
    var k := ActiveCount(g.clusters);
    ScaleOutFromSum(g.clusters, n, k, 0);
    SharesTotal(n, k);
  }

  // Scale-in

  function MaxInt(a: int, b: int): int { if a >= b then a else b }
  function MinInt(a: int, b: int): int { if a <= b then a else b }

  /** The sort key of `_scale_in_group`: hourly cost per node, with the node
      count defaulting to 1 and floored at 1. */
  function CostPerNode(c: ClusterInfo): real
  {
    HourlyCost(c) / (MaxInt(c.nodeCount.GetOr(1), 1) as real)
  }

  function KeyAt(cs: seq<ClusterInfo>, i: nat): real
  {
    if i < |cs| then CostPerNode(cs[i]) else 0.0
  }

  /** The visiting order of `sorted(..., reverse=True)`, which is stable:
      higher cost per node first, and equal keys in their original order. */
  predicate Before(cs: seq<ClusterInfo>, a: nat, b: nat)
  {
    KeyAt(cs, a) > KeyAt(cs, b) || (KeyAt(cs, a) == KeyAt(cs, b) && a < b)
  }

  predicate SortedBy(cs: seq<ClusterInfo>, order: seq<nat>)
  {
    forall i, j :: 0 <= i < j < |order| ==> Before(cs, order[i], order[j])
  }

  /** A sorted order stays sorted when an index that comes before all of
      its entries is put at its head. */
  lemma SortedCons(cs: seq<ClusterInfo>, h: nat, rest: seq<nat>)
    requires SortedBy(cs, rest)
    requires forall y :: y in rest ==> Before(cs, h, y)
    ensures SortedBy(cs, [h] + rest)
  {
    var r := [h] + rest;
    forall i, j | 0 <= i < j < |r| ensures Before(cs, r[i], r[j]) {
      assert r[j] == rest[j - 1];
      if i > 0 {
        assert r[i] == rest[i - 1];
      } else {
        assert rest[j - 1] in rest;
      }
    }
  }

  /** The entries of the tail of a sorted order all come after its head;
      so does an index that does not come before the head. */
  lemma HeadBeforeAll(cs: seq<ClusterInfo>, x: nat, order: seq<nat>, rest: seq<nat>)
    requires |order| > 0 && SortedBy(cs, order) && x !in order && !Before(cs, x, order[0])
    requires multiset(rest) == multiset(order[1..]) + multiset{x}
    ensures forall y :: y in rest ==> Before(cs, order[0], y)
  {
    forall y | y in rest ensures Before(cs, order[0], y) {
      assert y in multiset(rest);
      if y != x {
        assert y in multiset(order[1..]);
        var k :| 0 <= k < |order[1..]| && order[1..][k] == y;
        assert order[k + 1] == y;
      }
    }
  }

  /** Inserting an index into a sorted visiting order. */
  function Insert(cs: seq<ClusterInfo>, x: nat, order: seq<nat>): (r: seq<nat>)
    ensures multiset(r) == multiset(order) + multiset{x}
    ensures SortedBy(cs, order) && x !in order ==> SortedBy(cs, r)
  {
    if |order| == 0 then [x]
    else if Before(cs, x, order[0]) then
      assert SortedBy(cs, order) ==> forall y :: y in order ==> Before(cs, x, y);
      assert SortedBy(cs, order) ==> SortedBy(cs, [x] + order) by {
        if SortedBy(cs, order) { SortedCons(cs, x, order); }
      }
      [x] + order
    else
      var rest := Insert(cs, x, order[1..]);
      assert order == [order[0]] + order[1..];
      assert SortedBy(cs, order) && x !in order ==> SortedBy(cs, [order[0]] + rest) by {
        if SortedBy(cs, order) && x !in order {
          assert SortedBy(cs, order[1..]);
          HeadBeforeAll(cs, x, order, rest);
          SortedCons(cs, order[0], rest);
        }
      }
      [order[0]] + rest
  }

  function Range(m: nat): (r: seq<nat>)
    ensures |r| == m && forall i :: 0 <= i < m ==> r[i] == i
  {
    if m == 0 then [] else Range(m - 1) + [m - 1]
  }

  /** The indices 0..m-1 in visiting order. */
  function SortIndices(cs: seq<ClusterInfo>, m: nat): (r: seq<nat>)
    ensures multiset(r) == multiset(Range(m))
    ensures SortedBy(cs, r)
    ensures forall i :: 0 <= i < |r| ==> r[i] < m
  {
    if m == 0 then []
    else
      var prev := SortIndices(cs, m - 1);
      assert m - 1 !in prev;
      var r := Insert(cs, m - 1, prev);
      assert forall i :: 0 <= i < |r| ==> r[i] < m by {
        forall i | 0 <= i < |r| ensures r[i] < m {
          assert r[i] in multiset(r);
        }
      }
      r
  }

  predicate Distinct(order: seq<nat>)
  {
    forall i, j :: 0 <= i < j < |order| ==> order[i] != order[j]
  }

  /** Nodes a record can give up: all but one. */
  function Slack(c: ClusterInfo): int { MaxInt(Nodes(c) - 1, 0) }

  function SlackAt(cs: seq<ClusterInfo>, i: nat): int
  {
    if i < |cs| then Slack(cs[i]) else 0
  }

  function SlackOf(cs: seq<ClusterInfo>): nat -> int
  {
    (i: nat) => SlackAt(cs, i)
  }

  function SlackAlong(cs: seq<ClusterInfo>, order: seq<nat>): int
  {
    SumInt(order, SlackOf(cs))
  }

  /** The loop of `_scale_in_group` along the visiting order: stop when
      nothing is left to remove; a record with more than one node gives up
      as much as it can spare, the others nothing; a record without a node
      count raises. */
  function ScaleInAlong(cs: seq<ClusterInfo>, order: seq<nat>, remaining: int): (w: Walk)
    requires forall i :: 0 <= i < |order| ==> order[i] < |cs|
    ensures |w.clusters| == |cs|
    decreases |order|
  {
    if |order| == 0 || remaining <= 0 then Walk(cs, [], false)
    else
      var idx := order[0];
      var c := cs[idx];
      match c.nodeCount
      case None => Walk(cs, [], true)
      case Some(count) =>
        if count > 1 then
          var cut := MinInt(remaining, count - 1);
          var rest := ScaleInAlong(cs[idx := c.(nodeCount := Some(count - cut))], order[1..], remaining - cut);
          Walk(rest.clusters, [Resize(c.name, count - cut)] + rest.resizes, rest.keyError)
        else ScaleInAlong(cs, order[1..], remaining)
  }

  /** Changing a record outside the order leaves its slack sum alone. */
  lemma {:induction false} SlackAlongOutside(cs: seq<ClusterInfo>, order: seq<nat>, idx: nat, c: ClusterInfo)
    requires idx < |cs| && idx !in order
    ensures SlackAlong(cs[idx := c], order) == SlackAlong(cs, order)
  {
    if |order| > 0 {
      SlackAlongOutside(cs, order[1..], idx, c);
    }
  }

  /** Along distinct indices, the walk removes the requested number of
      nodes, or all the slack if there is less. */
  lemma {:induction false} ScaleInAlongRemoves(cs: seq<ClusterInfo>, order: seq<nat>, remaining: int)
    requires forall i :: 0 <= i < |order| ==> order[i] < |cs|
    requires Distinct(order) && remaining >= 0
    ensures !ScaleInAlong(cs, order, remaining).keyError ==>
              NodeSum(cs) - NodeSum(ScaleInAlong(cs, order, remaining).clusters)
              == MinInt(remaining, SlackAlong(cs, order))
    decreases |order|
  {
    SlackAlongNonNegative(cs, order);
    if |order| > 0 && remaining > 0 {
      var idx := order[0];
      var c := cs[idx];
      assert forall i :: 0 <= i < |order[1..]| ==> order[1..][i] == order[i + 1];
      assert Distinct(order[1..]);
      assert idx !in order[1..];
      SlackAlongNonNegative(cs, order[1..]);
      match c.nodeCount
      case None =>
      case Some(count) =>
        if count > 1 {
          var cut := MinInt(remaining, count - 1);
          var cs' := cs[idx := c.(nodeCount := Some(count - cut))];
          ScaleInAlongRemoves(cs', order[1..], remaining - cut);
          SlackAlongOutside(cs, order[1..], idx, c.(nodeCount := Some(count - cut)));
          SumIntUpdate(cs, idx, c.(nodeCount := Some(count - cut)), Nodes);
        } else {
          ScaleInAlongRemoves(cs, order[1..], remaining);
        }
    }
  }

  lemma {:induction false} SlackAlongNonNegative(cs: seq<ClusterInfo>, order: seq<nat>)
    ensures SlackAlong(cs, order) >= 0
  {
    if |order| > 0 {
      SlackAlongNonNegative(cs, order[1..]);
    }
  }

  /** The walk never raises a node count and never takes a record below one
      node; only node counts change. */
  lemma {:induction false} ScaleInAlongFloor(cs: seq<ClusterInfo>, order: seq<nat>, remaining: int, i: nat)
    requires forall j :: 0 <= j < |order| ==> order[j] < |cs|
    requires i < |cs|
    ensures var c := ScaleInAlong(cs, order, remaining).clusters[i];
            c.name == cs[i].name && c.status == cs[i].status && c.hourlyCost == cs[i].hourlyCost
            && Nodes(c) <= Nodes(cs[i]) && (Nodes(c) < Nodes(cs[i]) ==> Nodes(c) >= 1)
    decreases |order|
  {
    if |order| > 0 && remaining > 0 {
      var idx := order[0];
      var c := cs[idx];
      match c.nodeCount
      case None =>
      case Some(count) =>
        if count > 1 {
          var cut := MinInt(remaining, count - 1);
          ScaleInAlongFloor(cs[idx := c.(nodeCount := Some(count - cut))], order[1..], remaining - cut, i);
        } else {
          ScaleInAlongFloor(cs, order[1..], remaining, i);
        }
    }
  }

  /** Records with node counts never raise. */
  lemma {:induction false} ScaleInCounted(cs: seq<ClusterInfo>, order: seq<nat>, remaining: int)
    requires forall j :: 0 <= j < |order| ==> order[j] < |cs|
    requires forall j :: 0 <= j < |cs| ==> cs[j].nodeCount.Some?
    ensures !ScaleInAlong(cs, order, remaining).keyError
    decreases |order|
  {
    if |order| > 0 && remaining > 0 {
      var idx := order[0];
      var c := cs[idx];
      if c.nodeCount.value > 1 {
        var cut := MinInt(remaining, c.nodeCount.value - 1);
        ScaleInCounted(cs[idx := c.(nodeCount := Some(c.nodeCount.value - cut))], order[1..], remaining - cut);
      } else {
        ScaleInCounted(cs, order[1..], remaining);
      }
    }
  }

  /** A sorted order has no repeated index. */
  lemma SortedDistinct(cs: seq<ClusterInfo>, order: seq<nat>)
    requires SortedBy(cs, order)
    ensures Distinct(order)
  {
    forall i, j | 0 <= i < j < |order| ensures order[i] != order[j] {
      assert Before(cs, order[i], order[j]);
    }
  }

  /** The slack along a full visiting order is the slack of all records. */
  lemma {:induction false} SlackAlongAll(cs: seq<ClusterInfo>, order: seq<nat>)
    requires multiset(order) == multiset(Range(|cs|))
    ensures SlackAlong(cs, order) == SumInt(cs, Slack)
  {
    SumIntPermutation(order, Range(|cs|), SlackOf(cs));
    SlackRange(cs, |cs|);
    assert cs[..|cs|] == cs;
  }

  lemma {:induction false} SlackRange(cs: seq<ClusterInfo>, m: nat)
    requires m <= |cs|
    ensures SlackAlong(cs, Range(m)) == SumInt(cs[..m], Slack)
  {
    if m > 0 {
      SlackRange(cs, m - 1);
      var last: nat := m - 1;
      SumIntAppend(Range(m - 1), [last], SlackOf(cs));
      assert cs[..m] == cs[..m - 1] + [cs[m - 1]];
      SumIntAppend(cs[..m - 1], [cs[m - 1]], Slack);
    } else {
      assert cs[..0] == [];
    }
  }

  /** `_scale_in_group`: walk the records by descending cost per node and
      recompute the totals, unless a key error interrupted the walk. */
  function ScaleInGroup(g: Group, n: int): (r: (Group, seq<Resize>, bool))
    ensures r.0.name == g.name && r.0.groupType == g.groupType && |r.0.clusters| == |g.clusters|
    ensures !r.2 ==> Consistent(r.0)
  {
    var order := SortIndices(g.clusters, |g.clusters|);
    assert forall i :: 0 <= i < |order| ==> order[i] < |g.clusters|;
    var w := ScaleInAlong(g.clusters, order, n);
    if w.keyError then (g.(clusters := w.clusters), w.resizes, true)
    else (Recalculate(g.(clusters := w.clusters)), w.resizes, false)
  }

  /** Scale-in removes the requested number of nodes, or every node above
      one per record when there are fewer, and leaves no shrunk record
      below one node. */
  lemma ScaleInRemoves(g: Group, n: nat)
    requires !ScaleInGroup(g, n).2
    ensures NodeSum(g.clusters) - NodeSum(ScaleInGroup(g, n).0.clusters) == MinInt(n, SumInt(g.clusters, Slack))
    ensures forall i :: 0 <= i < |g.clusters| ==>
              var c := ScaleInGroup(g, n).0.clusters[i];
              Nodes(c) <= Nodes(g.clusters[i]) && (Nodes(c) < Nodes(g.clusters[i]) ==> Nodes(c) >= 1)
  {
    var order := SortIndices(g.clusters, |g.clusters|);
    assert forall i :: 0 <= i < |order| ==> order[i] < |g.clusters|;
    SortedDistinct(g.clusters, order);
    ScaleInAlongRemoves(g.clusters, order, n);
    SlackAlongAll(g.clusters, order);
    forall i | 0 <= i < |g.clusters|
      ensures var c := ScaleInGroup(g, n).0.clusters[i];
              Nodes(c) <= Nodes(g.clusters[i]) && (Nodes(c) < Nodes(g.clusters[i]) ==> Nodes(c) >= 1)
    {
      ScaleInAlongFloor(g.clusters, order, n, i);
    }
  }

  /** The `scaling_policy` argument of `scale_group`. */
  datatype ScalingPolicy = ScalingPolicy(kind: Option<string>, targetTotalNodes: Option<int>)

  datatype ScaleResult = ScaleResult(groups: map<string, Group>, outcome: Result<bool>, resizes: seq<Resize>)

  const KeyError := Error("KeyError", "node_count")

  /** `scale_group`: false for an unknown group; horizontal scaling (the
      default kind) moves the group's node sum to the target (the group's
      recorded total by default) by scaling out or in; any other kind does
      nothing. A key error escapes, with the records already resized. */
  function ScaleGroup(groups: map<string, Group>, name: string, policy: ScalingPolicy): (r: ScaleResult)
    ensures name !in groups ==> r == ScaleResult(groups, Ok(false), [])
    ensures name in groups && policy.kind.GetOr(Horizontal) != Horizontal ==> r == ScaleResult(groups, Ok(true), [])
    ensures r.outcome.Ok? ==> r.groups.Keys == groups.Keys
    ensures r.outcome.Err? ==> r.outcome.error == KeyError
  {
    if name !in groups then ScaleResult(groups, Ok(false), [])
    else
      var g := groups[name];
      var target := policy.targetTotalNodes.GetOr(g.totalNodes);
      var current := NodeSum(g.clusters);
      if policy.kind.GetOr(Horizontal) != Horizontal || target == current then ScaleResult(groups, Ok(true), [])
      else
        var (g', resizes, failed) := if target > current then ScaleOutGroup(g, target - current)
                                     else ScaleInGroup(g, current - target);
        ScaleResult(groups[name := g'], if failed then Err(KeyError) else Ok(true), resizes)
  }

  /** Horizontal scaling of a group whose records all carry node counts:
      growing reaches the target exactly when some record is active, and
      shrinking reaches it unless every record is down to one node first;
      the totals agree with the records afterwards. */
  lemma {:induction false} ScaleGroupReachesTarget(groups: map<string, Group>, name: string, target: int)
    requires name in groups
    requires forall i :: 0 <= i < |groups[name].clusters| ==> groups[name].clusters[i].nodeCount.Some?
    ensures var r := ScaleGroup(groups, name, ScalingPolicy(None, Some(target)));
            var current := NodeSum(groups[name].clusters);
            var after := NodeSum(r.groups[name].clusters);
            r.outcome == Ok(true)
            && (target > current && ActiveCount(groups[name].clusters) > 0 ==> after == target)
            && (target < current ==>
                  after == current - MinInt(current - target, SumInt(groups[name].clusters, Slack)))
  {
    var current := NodeSum(groups[name].clusters);
    if target > current {
      ScaleGroupUp(groups, name, target);
    } else if target < current {
      ScaleGroupDown(groups, name, target);
    }
  }

  /** The growing half of `ScaleGroupReachesTarget`. */
  lemma ScaleGroupUp(groups: map<string, Group>, name: string, target: int)
    requires name in groups
    requires forall i :: 0 <= i < |groups[name].clusters| ==> groups[name].clusters[i].nodeCount.Some?
    requires target > NodeSum(groups[name].clusters)
    ensures var r := ScaleGroup(groups, name, ScalingPolicy(None, Some(target)));
            r.outcome == Ok(true)
            && (ActiveCount(groups[name].clusters) > 0 ==> NodeSum(r.groups[name].clusters) == target)
  {
    var g := groups[name];
    var n := target - NodeSum(g.clusters);
    var out := ScaleOutGroup(g, n);
    var k := ActiveCount(g.clusters);
    if k > 0 {
      ScaleOutCounted(g.clusters, n, k, 0);
      ScaleOutAddsExactly(g, n);
    }
    assert !out.2;
  }

  /** A shrinking horizontal policy stores the group's scale-in result. */
  lemma ScaleGroupShrinks(groups: map<string, Group>, name: string, target: int)
    requires name in groups && target < NodeSum(groups[name].clusters)
    requires !ScaleInGroup(groups[name], NodeSum(groups[name].clusters) - target).2
    ensures var shrunk := ScaleInGroup(groups[name], NodeSum(groups[name].clusters) - target);
            ScaleGroup(groups, name, ScalingPolicy(None, Some(target)))
            == ScaleResult(groups[name := shrunk.0], Ok(true), shrunk.1)
  {
  }

  lemma ScaleGroupDown(groups: map<string, Group>, name: string, target: int)
    requires name in groups
    requires forall i :: 0 <= i < |groups[name].clusters| ==> groups[name].clusters[i].nodeCount.Some?
    requires target < NodeSum(groups[name].clusters)
    ensures var r := ScaleGroup(groups, name, ScalingPolicy(None, Some(target)));
            var current := NodeSum(groups[name].clusters);
            r.outcome == Ok(true)
            && NodeSum(r.groups[name].clusters) == current - MinInt(current - target, SumInt(groups[name].clusters, Slack))
  {
    var g := groups[name];
    var n := NodeSum(g.clusters) - target;
    var order := SortIndices(g.clusters, |g.clusters|);
    assert forall i :: 0 <= i < |order| ==> order[i] < |g.clusters|;
    ScaleInCounted(g.clusters, order, n);
    ScaleInRemoves(g, n);
    ScaleGroupShrinks(groups, name, target);
  }
}
