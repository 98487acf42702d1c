/** The state effects of the cluster-group orchestrator
    (cluster_group_orchestrator.py): an in-memory table of groups, each with
    a list of member clusters and two counters, changed by group creation,
    cluster addition and removal, scale commands and group deletion. The
    CRUD controller's answers (a created cluster or an error, a deletion
    call) are arguments; the timestamps in ids and names are strings passed
    in. */
module Orchestrator {
  import opened Wrappers
  import opened Seqs
  import opened OrderedMaps
  import Strings
  import MonitorConfig
  import Crud = ClusterCrud

  // `GroupType` values.
  const GpuIntensive := "gpu_intensive"
  const CpuCompute := "cpu_compute"
  const MixedWorkload := "mixed_workload"
  const Development := "development"
  const Production := "production"

  // `GroupStatus` values the orchestrator sets.
  const Creating := "creating"
  const ActiveStatus := "active"
  const Deleting := "deleting"
  const ErrorStatus := "error"

  /** `ClusterGroupConfig`, without the utilisation thresholds nothing here
      reads. */
  datatype GroupConfig = GroupConfig(name: string, groupType: string, minClusters: int,
                                     maxClusters: int, labels: OrderedMap<string, string>)

  /** The dataclass constructor: at least one and at most ten clusters by
      default, and no labels when none are given. */
  function NewGroupConfig(name: string, groupType: string, minClusters: Option<int>,
                          maxClusters: Option<int>, labels: Option<OrderedMap<string, string>>): (c: GroupConfig)
    ensures c.minClusters == minClusters.GetOr(1) && c.maxClusters == maxClusters.GetOr(10)
    ensures labels.None? ==> c.labels == []
    ensures labels.Some? ==> c.labels == labels.value
  {
    GroupConfig(name, groupType, minClusters.GetOr(1), maxClusters.GetOr(10), labels.GetOr([]))
  }

  /** One entry of a group's `clusters` list. */
  datatype Member = Member(id: string, name: string, status: string, nodeCount: int,
                           masterCount: int, templateId: string, createdAt: string)

  /** `ClusterGroupInfo`, without timestamps and metrics. */
  datatype GroupInfo = GroupInfo(id: string, name: string, groupType: string, status: string,
                                 clusters: seq<Member>, totalNodes: int, activeClusters: int,
                                 config: GroupConfig)

  /** The groups table, keyed by group id. */
  type Groups = map<string, GroupInfo>

  /** The nodes a member contributes to `total_nodes`: workers and masters. */
  function Footprint(m: Member): int { m.nodeCount + m.masterCount }

  /** The counters agree with the member list. */
  predicate Tracked(g: GroupInfo)
  {
    g.activeClusters == |g.clusters| && g.totalNodes == SumInt(g.clusters, Footprint)
  }

  /** The entry `add_cluster_to_group` records for a created cluster. */
  function MemberOf(c: Crud.ClusterRecord): Member
  {
    Member(c.id, c.name, c.status, c.nodeCount, c.masterCount, c.clusterTemplateId, c.createdAt)
  }

  // ---------------------------------------------------------------------
  // Cluster configuration for a group

  const ComputeTemplateId := "compute-k8s-template"
  const GroupKeypair := "kcloud-keypair"
  const GroupNetwork := "cloud-platform-selfservice"
  const GroupSubnet := "cloud-platform-selfservice-subnet"

  /** Template per group type. */
  const TemplateMap: map<string, string> :=
    map[GpuIntensive := MonitorConfig.AiTemplateId, CpuCompute := ComputeTemplateId,
        MixedWorkload := MonitorConfig.DevTemplateId, Development := MonitorConfig.DevTemplateId,
        Production := MonitorConfig.ProdTemplateId]

  /** `template_map.get(group_type, "dev-k8s-template")`. */
  function TemplateFor(groupType: string): (t: string)
    ensures groupType !in TemplateMap ==> t == MonitorConfig.DevTemplateId
  {
    if groupType in TemplateMap then TemplateMap[groupType] else MonitorConfig.DevTemplateId
  }

  /** GPU groups get the AI template, CPU groups the compute template,
      mixed and development groups the dev template, production groups the
      prod template. Only the compute template is missing from the
      monitoring template table, so only CPU groups' clusters are priced by
      the monitors' fallback. */
  lemma TemplateChoice(groupType: string)
    ensures groupType == GpuIntensive ==> TemplateFor(groupType) == MonitorConfig.AiTemplateId
    ensures groupType == CpuCompute ==> TemplateFor(groupType) == ComputeTemplateId
    ensures groupType in {MixedWorkload, Development} ==> TemplateFor(groupType) == MonitorConfig.DevTemplateId
    ensures groupType == Production ==> TemplateFor(groupType) == MonitorConfig.ProdTemplateId
    ensures MonitorConfig.GetClusterTemplate(TemplateFor(groupType)).None? <==> groupType == CpuCompute
  {
    var t := TemplateFor(groupType);
    assert ComputeTemplateId !in {MonitorConfig.AiTemplateId, MonitorConfig.DevTemplateId, MonitorConfig.ProdTemplateId};
    if groupType != CpuCompute {
      assert t in {MonitorConfig.AiTemplateId, MonitorConfig.DevTemplateId, MonitorConfig.ProdTemplateId};
    }
  }

  /** The `cluster_spec` dictionary: every key optional. */
  datatype ClusterSpec = ClusterSpec(name: Option<string>, nodeCount: Option<int>,
                                     masterCount: Option<int>, labels: Option<OrderedMap<string, string>>)

  /** `{**group labels, 'group_id': ..., 'group_type': ..., **spec labels}`. */
  function MergedLabels(g: GroupInfo, spec: ClusterSpec): OrderedMap<string, string>
  {
    PutAll(Put(Put(g.config.labels, "group_id", g.id), "group_type", g.groupType), spec.labels.GetOr([]))
  }

  /** Later sources override earlier ones: the spec's labels, then the group
      id and type, then the group's own labels. */
  lemma LabelPrecedence(g: GroupInfo, spec: ClusterSpec, k: string)
    requires spec.labels.Some? ==> DistinctKeys(spec.labels.value)
    ensures Get(MergedLabels(g, spec), k) ==
      if spec.labels.Some? && k in Keys(spec.labels.value) then Get(spec.labels.value, k)
      else if k == "group_type" then Some(g.groupType)
      else if k == "group_id" then Some(g.id)
      else Get(g.config.labels, k)
  {
    var base := Put(Put(g.config.labels, "group_id", g.id), "group_type", g.groupType);
    assert DistinctKeys(spec.labels.GetOr([]));
    PutAllGet(base, spec.labels.GetOr([]), k);
    if k != "group_type" {
      PutOther(Put(g.config.labels, "group_id", g.id), "group_type", g.groupType, k);
      if k != "group_id" {
        PutOther(g.config.labels, "group_id", g.id, k);
      }
    }
  }

  /** `_build_cluster_config`: the group's template, the spec's counts (one
      master and two workers by default), the group network, and the merged
      labels. */
  function BuildClusterConfig(g: GroupInfo, spec: ClusterSpec, clock: string): (c: Crud.ClusterConfig)
    ensures c.clusterTemplateId == TemplateFor(g.groupType)
    ensures c.masterCount == spec.masterCount.GetOr(1) && c.nodeCount == spec.nodeCount.GetOr(2)
    ensures c.labels == MergedLabels(g, spec)
    ensures DistinctKeys(g.config.labels) ==> DistinctKeys(c.labels)
    ensures c.keypair == GroupKeypair && c.fixedNetwork == Some(GroupNetwork)
    ensures c.name == g.name + "-" + spec.name.GetOr("auto") + "-" + clock
  {
    Crud.MakeConfig(g.name + "-" + spec.name.GetOr("auto") + "-" + clock, TemplateFor(g.groupType),
                    GroupKeypair, spec.masterCount.GetOr(1), spec.nodeCount.GetOr(2), None, None,
                    Crud.DefaultDockerVolumeSize, Some(MergedLabels(g, spec)),
                    Some(GroupNetwork), Some(GroupSubnet), true)
  }

  // ---------------------------------------------------------------------
  // Adding a cluster

  /** The group after a created cluster joins it. */
  function Appended(g: GroupInfo, c: Crud.ClusterRecord): GroupInfo
  {
    g.(clusters := g.clusters + [MemberOf(c)],
       activeClusters := g.activeClusters + 1,
       totalNodes := g.totalNodes + c.nodeCount + c.masterCount)
  }

  /** Adding keeps the counters in step with the list. */
  lemma AppendedTracked(g: GroupInfo, c: Crud.ClusterRecord)
    ensures Tracked(g) ==> Tracked(Appended(g, c))
  {
    SumIntAppend(g.clusters, [MemberOf(c)], Footprint);
  }

  /** The new table and whether the cluster was added; `request` is the
      configuration sent to the controller, if any was. */
  datatype AddRun = AddRun(groups: Groups, added: bool, request: Option<Crud.ClusterConfig>)

  /** `add_cluster_to_group`: an unknown group asks for nothing; otherwise a
      configuration is sent and, when the controller creates the cluster,
      the cluster joins the group. */
  function AddClusterToGroup(groups: Groups, groupId: string, spec: ClusterSpec, clock: string,
                             outcome: Result<Crud.ClusterRecord>): (r: AddRun)
    ensures groupId !in groups ==> r == AddRun(groups, false, None)
    ensures groupId in groups ==> r.request == Some(BuildClusterConfig(groups[groupId], spec, clock))
    ensures r.added <==> groupId in groups && outcome.Ok?
    ensures !r.added ==> r.groups == groups
    ensures r.added ==> r.groups == groups[groupId := Appended(groups[groupId], outcome.value)]
  {
    if groupId !in groups then AddRun(groups, false, None)
    else
      var g := groups[groupId];
      var config := BuildClusterConfig(g, spec, clock);
      match outcome
      case Err(_) => AddRun(groups, false, Some(config))
      case Ok(c) => AddRun(groups[groupId := Appended(g, c)], true, Some(config))
  }

  // ---------------------------------------------------------------------
  // Removing a cluster

  /** The position of the first member with the id. */
  function FindMember(ms: seq<Member>, id: string): (r: Option<nat>)
    ensures r.Some? ==> r.value < |ms| && ms[r.value].id == id
    ensures r.Some? ==> forall j :: 0 <= j < r.value ==> ms[j].id != id
    ensures r.None? ==> forall j :: 0 <= j < |ms| ==> ms[j].id != id
  {
    if |ms| == 0 then None
    else if ms[0].id == id then Some(0)
    else
      match FindMember(ms[1..], id)
      case None => None
      case Some(i) => Some(i + 1)
  }

  /** The group after member `i` leaves it. */
  function Without(g: GroupInfo, i: nat): GroupInfo
    requires i < |g.clusters|
  {
    g.(clusters := g.clusters[..i] + g.clusters[i + 1..],
       activeClusters := g.activeClusters - 1,
       totalNodes := g.totalNodes - Footprint(g.clusters[i]))
  }

  /** Removing keeps the counters in step with the list. */
  lemma WithoutTracked(g: GroupInfo, i: nat)
    requires i < |g.clusters|
    ensures Tracked(g) ==> Tracked(Without(g, i))
  {
    SumIntRemove(g.clusters, i, Footprint);
  }

  /** `remove_cluster_from_group`: the first member with the id leaves the
      group only when the controller's (unforced) deletion answers True; an
      unknown group or id, a False answer and a raised error all leave the
      table alone. */
  function RemoveClusterFromGroup(groups: Groups, groupId: string, clusterId: string,
                                  call: Crud.DeleteCall): (r: (Groups, bool))
    ensures r.1 <==> groupId in groups && FindMember(groups[groupId].clusters, clusterId).Some?
                     && Crud.DeleteCluster(call, false) == Ok(true)
    ensures !r.1 ==> r.0 == groups
    ensures r.1 ==>
      r.0 == groups[groupId := Without(groups[groupId], FindMember(groups[groupId].clusters, clusterId).value)]
  {
    if groupId !in groups then (groups, false)
    else
      var g := groups[groupId];
      match FindMember(g.clusters, clusterId)
      case None => (groups, false)
      case Some(i) =>
        if Crud.DeleteCluster(call, false) == Ok(true) then (groups[groupId := Without(g, i)], true)
        else (groups, false)
  }

  // ---------------------------------------------------------------------
  // Repeated additions: minimum clusters and scale-out

  /** The members the successful attempts `i` to `n - 1` contribute. */
  function Successes(creates: nat -> Result<Crud.ClusterRecord>, i: nat, n: nat): seq<Member>
    decreases n - i
  {
    if i >= n then []
    else (if creates(i).Ok? then [MemberOf(creates(i).value)] else []) + Successes(creates, i + 1, n)
  }

  /** With every attempt successful, each one adds a member. */
  lemma {:induction false} SuccessesAll(creates: nat -> Result<Crud.ClusterRecord>, i: nat, n: nat)
    requires forall j :: i <= j < n ==> creates(j).Ok?
    ensures |Successes(creates, i, n)| == if i >= n then 0 else n - i
    decreases n - i
  {
    if i < n {
      SuccessesAll(creates, i + 1, n);
    }
  }

  /** The `{'name': f'auto-{i+1}', 'node_count': 1, 'master_count': 1}`
      spec of `_ensure_min_clusters`. */
  function AutoSpec(i: nat): ClusterSpec
  {
    ClusterSpec(Some("auto-" + Strings.NatToString(i + 1)), Some(1), Some(1), None)
  }

  /** The `{'name': 'scale-out', 'node_count': 2}` spec of a scale-out. */
  function ScaleOutSpec(i: nat): ClusterSpec
  {
    ClusterSpec(Some("scale-out"), Some(2), None, None)
  }

  /** What `_ensure_min_clusters` asks for: attempt `j` requests
      `<group>-auto-<j+1>-<clock>` with one master and one worker. */
  lemma AutoAttemptConfig(g: GroupInfo, clock: string, j: nat)
    ensures var c := BuildClusterConfig(g, AutoSpec(j), clock);
      c.name == g.name + "-auto-" + Strings.NatToString(j + 1) + "-" + clock
      && c.masterCount == 1 && c.nodeCount == 1
  {
    var a, n := g.name, Strings.NatToString(j + 1);
    assert "-" + "auto-" == "-auto-";
    assert (a + "-") + ("auto-" + n) == (a + ("-" + "auto-")) + n;
  }

  /** What a scale-out asks for: every attempt requests
      `<group>-scale-out-<clock>` with one master and two workers. */
  lemma ScaleOutAttemptConfig(g: GroupInfo, clock: string, j: nat)
    ensures var c := BuildClusterConfig(g, ScaleOutSpec(j), clock);
      c.name == g.name + "-scale-out-" + clock && c.masterCount == 1 && c.nodeCount == 2
  {
    var a := g.name;
    assert "-" + "scale-out" + "-" == "-scale-out-";
    assert a + "-" + "scale-out" + "-" == a + ("-" + "scale-out" + "-");
  }

  /** The table after one `add_cluster_to_group` whose controller call
      answered `outcome`; the specification sent does not affect it. */
  function Joined(groups: Groups, id: string, outcome: Result<Crud.ClusterRecord>): Groups
  {
    if id in groups && outcome.Ok? then groups[id := Appended(groups[id], outcome.value)] else groups
  }

  /** Whatever was asked for, the table after `add_cluster_to_group` is the
      table `Joined` describes. */
  lemma AddIsJoined(groups: Groups, id: string, spec: ClusterSpec, clock: string,
                    outcome: Result<Crud.ClusterRecord>)
    ensures AddClusterToGroup(groups, id, spec, clock, outcome).groups == Joined(groups, id, outcome)
  {
  }

  /** Attempts `i` to `n - 1` of adding a cluster, the controller answering
      `creates(j)` to attempt `j`: the successes join the group in order,
      and only the group's list and counters change. */
  function AddRepeated(groups: Groups, id: string, creates: nat -> Result<Crud.ClusterRecord>,
                       i: nat, n: nat): (r: Groups)
    ensures id !in groups ==> r == groups
    ensures id in groups ==>
      && r.Keys == groups.Keys
      && (forall k :: k in groups && k != id ==> r[k] == groups[k])
      && r[id].clusters == groups[id].clusters + Successes(creates, i, n)
      && r[id] == groups[id].(clusters := r[id].clusters, activeClusters := r[id].activeClusters,
                              totalNodes := r[id].totalNodes)
      && (Tracked(groups[id]) ==> Tracked(r[id]))
    decreases n - i
  {
    if i >= n || id !in groups then groups
    else
      var g := groups[id];
      var r := AddRepeated(Joined(groups, id, creates(i)), id, creates, i + 1, n);
      if creates(i).Ok? then
        var m := MemberOf(creates(i).value);
        AppendedTracked(g, creates(i).value);
        assert Successes(creates, i, n) == [m] + Successes(creates, i + 1, n);
        assert g.clusters + [m] + Successes(creates, i + 1, n) == g.clusters + Successes(creates, i, n);
        r
      else
        assert Successes(creates, i, n) == Successes(creates, i + 1, n);
        r
  }

  /** `_ensure_min_clusters`: attempt as many additions as the group is
      short of its minimum; when they all succeed the group has at least its
      minimum. */
  function EnsureMinClusters(groups: Groups, id: string, clock: string,
                             creates: nat -> Result<Crud.ClusterRecord>): (r: Groups)
    requires id in groups
    ensures id in r && r[id].status == groups[id].status
    ensures r.Keys == groups.Keys && forall k :: k in groups && k != id ==> r[k] == groups[k]
    ensures var needed := groups[id].config.minClusters - |groups[id].clusters|;
      r[id].clusters == groups[id].clusters + Successes(creates, 0, if needed > 0 then needed else 0)
    ensures (forall j :: 0 <= j < groups[id].config.minClusters - |groups[id].clusters| ==> creates(j).Ok?) ==>
      |r[id].clusters| >= groups[id].config.minClusters
  {
    var g := groups[id];
    var needed := g.config.minClusters - |g.clusters|;
    var r := AddRepeated(groups, id, creates, 0, if needed > 0 then needed else 0);
    if forall j :: 0 <= j < needed ==> creates(j).Ok? then
      SuccessesAll(creates, 0, if needed > 0 then needed else 0);
      r
    else r
  }

  // ---------------------------------------------------------------------
  // Creating a group

  /** `group-<name>-<YYYYmmddHHMMSS>`. */
  function GroupId(name: string, stamp: string): string
  {
    "group-" + name + "-" + stamp
  }

  /** The stored group and the table holding it. */
  datatype CreateRun = CreateRun(groups: Groups, group: GroupInfo)

  /** `create_group`: store an empty group in status creating, attempt the
      minimum number of clusters, then mark it active whatever the attempts
      gave. A group stored earlier under the same id is replaced. */
  function CreateGroup(groups: Groups, config: GroupConfig, stamp: string, clock: string,
                       creates: nat -> Result<Crud.ClusterRecord>): (r: CreateRun)
    ensures r.group.id == GroupId(config.name, stamp) && r.group.status == ActiveStatus
    ensures r.group.name == config.name && r.group.config == config
    ensures r.groups == groups[r.group.id := r.group]
    ensures r.group.clusters == Successes(creates, 0, if config.minClusters > 0 then config.minClusters else 0)
    ensures Tracked(r.group)
  {
    var id := GroupId(config.name, stamp);
    var g0 := GroupInfo(id, config.name, config.groupType, Creating, [], 0, 0, config);
    var s0 := groups[id := g0];
    var n := if config.minClusters > 0 then config.minClusters else 0;
    var s1 := AddRepeated(s0, id, creates, 0, n);
    assert s1 == (if config.minClusters > 0 then EnsureMinClusters(s0, id, clock, creates) else s0);
    var g1 := s1[id].(status := ActiveStatus);
    assert s1[id] == g0.(clusters := s1[id].clusters, activeClusters := s1[id].activeClusters,
                         totalNodes := s1[id].totalNodes);
    assert s1[id := g1] == groups[id := g1];
    CreateRun(s1[id := g1], g1)
  }

  // ---------------------------------------------------------------------
  // Scale commands

  /** The start of Python's slice `s[t:]` on a list of length `len`. */
  function SliceStart(t: int, len: nat): (r: nat)
    ensures r <= len
    ensures 0 <= t <= len ==> r == t
    ensures t < 0 ==> r == if len + t >= 0 then len + t else 0
  {
    if t >= 0 then (if t <= len then t else len)
    else if len + t >= 0 then len + t else 0
  }

  function MemberIds(ms: seq<Member>): (r: seq<string>)
    ensures |r| == |ms| && forall i :: 0 <= i < |ms| ==> r[i] == ms[i].id
  {
    seq(|ms|, i requires 0 <= i < |ms| => ms[i].id)
  }

  /** One `remove_cluster_from_group` per id, in order. */
  function RemoveEach(groups: Groups, id: string, ids: seq<string>, deletes: string -> Crud.DeleteCall): (r: Groups)
    ensures id !in groups ==> r == groups
    ensures id in groups ==>
      && r.Keys == groups.Keys
      && (forall k :: k in groups && k != id ==> r[k] == groups[k])
      && r[id].id == groups[id].id
      && (Tracked(groups[id]) ==> Tracked(r[id]))
    decreases |ids|
  {
    if |ids| == 0 then groups
    else
      var step := RemoveClusterFromGroup(groups, id, ids[0], deletes(ids[0]));
      if step.1 then
        WithoutTracked(groups[id], FindMember(groups[id].clusters, ids[0]).value);
        RemoveEach(step.0, id, ids[1..], deletes)
      else RemoveEach(step.0, id, ids[1..], deletes)
  }

  predicate DistinctIds(ms: seq<Member>)
  {
    forall i, j :: 0 <= i < j < |ms| ==> ms[i].id != ms[j].id
  }

  /** Every member's deletion answers True. */
  predicate AllDeletable(ms: seq<Member>, deletes: string -> Crud.DeleteCall)
  {
    forall j :: 0 <= j < |ms| ==> Crud.DeleteCluster(deletes(ms[j].id), false) == Ok(true)
  }

  /** With distinct ids the first member carrying the id of the suffix's
      head is that head. */
  lemma FindSuffixHead(prefix: seq<Member>, suffix: seq<Member>)
    requires |suffix| > 0 && DistinctIds(prefix + suffix)
    ensures FindMember(prefix + suffix, suffix[0].id) == Some(|prefix|)
  {
    var ms := prefix + suffix;
    assert ms[|prefix|] == suffix[0];
    forall j | 0 <= j < |prefix| ensures ms[j].id != suffix[0].id {
      assert ms[j].id != ms[|prefix|].id;
    }
  }

  /** Dropping the suffix's head keeps the ids distinct. */
  lemma DistinctDropHead(prefix: seq<Member>, suffix: seq<Member>)
    requires |suffix| > 0 && DistinctIds(prefix + suffix)
    ensures DistinctIds(prefix + suffix[1..])
    ensures (prefix + suffix)[..|prefix|] + (prefix + suffix)[|prefix| + 1..] == prefix + suffix[1..]
  {
    var ms := prefix + suffix;
    var ms' := prefix + suffix[1..];
    forall i, j | 0 <= i < j < |ms'| ensures ms'[i].id != ms'[j].id {
      var i' := if i < |prefix| then i else i + 1;
      var j' := if j < |prefix| then j else j + 1;
      assert ms'[i] == ms[i'] && ms'[j] == ms[j'];
    }
  }

  /** With distinct ids and deletions that succeed, removing the ids of a
      suffix leaves exactly the prefix. */
  lemma {:induction false} RemoveSuffix(groups: Groups, id: string, prefix: seq<Member>, suffix: seq<Member>,
                                        deletes: string -> Crud.DeleteCall)
    requires id in groups && groups[id].clusters == prefix + suffix
    requires DistinctIds(prefix + suffix) && AllDeletable(suffix, deletes)
    ensures RemoveEach(groups, id, MemberIds(suffix), deletes)[id].clusters == prefix
    decreases |suffix|
  {
    if |suffix| == 0 {
      assert prefix + suffix == prefix;
    } else {
      var ids := MemberIds(suffix);
      FindSuffixHead(prefix, suffix);
      DistinctDropHead(prefix, suffix);
      assert Crud.DeleteCluster(deletes(ids[0]), false) == Ok(true);
      var step := RemoveClusterFromGroup(groups, id, ids[0], deletes(ids[0]));
      var rest := suffix[1..];
      assert step.0[id].clusters == prefix + rest;
      assert AllDeletable(rest, deletes) by {
        forall j | 0 <= j < |rest| ensures Crud.DeleteCluster(deletes(rest[j].id), false) == Ok(true) {
          assert rest[j] == suffix[j + 1];
        }
      }
      assert ids[1..] == MemberIds(rest);
      RemoveSuffix(step.0, id, prefix, rest, deletes);
    }
  }

  /** `_handle_scale_group_command`: an unknown group raises ValueError, a
      missing target raises TypeError; growing attempts one `scale-out`
      addition per missing cluster, shrinking removes the members from index
      `target` on (Python slice semantics). The answer is the new member
      count. */
  function ScaleGroupCommand(groups: Groups, groupId: Option<string>, target: Option<int>, clock: string,
                             creates: nat -> Result<Crud.ClusterRecord>,
                             deletes: string -> Crud.DeleteCall): (r: (Groups, Result<nat>))
    ensures groupId.None? || groupId.value !in groups ==>
      r.0 == groups && r.1.Err? && r.1.error.kind == Crud.ValueErrorKind
    ensures groupId.Some? && groupId.value in groups && target.None? ==>
      r.0 == groups && r.1.Err? && r.1.error.kind == Crud.TypeErrorKind
    ensures r.1.Ok? ==> groupId.Some? && groupId.value in r.0 && r.1.value == |r.0[groupId.value].clusters|
    ensures r.1.Ok? && Tracked(groups[groupId.value]) ==> Tracked(r.0[groupId.value])
    ensures groupId.Some? && groupId.value in groups && target.Some? ==> r.1.Ok?
    ensures groupId.Some? && groupId.value in groups && target.Some? && target.value > |groups[groupId.value].clusters| ==>
      var current := |groups[groupId.value].clusters|;
      r.1 == Ok(current + |Successes(creates, 0, target.value - current)|)
    ensures groupId.Some? && groupId.value in groups && target == Some(|groups[groupId.value].clusters|) ==>
      r.0 == groups && r.1 == Ok(|groups[groupId.value].clusters|)
    ensures r.0.Keys == groups.Keys
    ensures forall k :: k in groups && (groupId.None? || k != groupId.value) ==> r.0[k] == groups[k]
  {
    if groupId.None? then
      var e: Result<nat> := Err(Error(Crud.ValueErrorKind, "Group not found: None"));
      (groups, e)
    else if groupId.value !in groups then
      var e: Result<nat> := Err(Error(Crud.ValueErrorKind, "Group not found: " + groupId.value));
      (groups, e)
    else if target.None? then
      var e: Result<nat> := Err(Error(Crud.TypeErrorKind, "'>' not supported between instances of 'NoneType' and 'int'"));
      (groups, e)
    else
      var id, t := groupId.value, target.value;
      var g := groups[id];
      var current := |g.clusters|;
      var s :=
        if t > current then AddRepeated(groups, id, creates, 0, t - current)
        else if t < current then RemoveEach(groups, id, MemberIds(g.clusters[SliceStart(t, current)..]), deletes)
        else groups;
      (s, Ok(|s[id].clusters|))
  }

  /** Growing with every creation successful reaches the target count. */
  lemma ScaleOutReachesTarget(groups: Groups, id: string, t: int, clock: string,
                              creates: nat -> Result<Crud.ClusterRecord>, deletes: string -> Crud.DeleteCall)
    requires id in groups && t > |groups[id].clusters|
    requires forall j :: 0 <= j < t - |groups[id].clusters| ==> creates(j).Ok?
    ensures ScaleGroupCommand(groups, Some(id), Some(t), clock, creates, deletes).1 == Ok(t)
  {
    var n := t - |groups[id].clusters|;
    SuccessesAll(creates, 0, n);
    var s := AddRepeated(groups, id, creates, 0, n);
    assert |s[id].clusters| == |groups[id].clusters| + n;
    var ok: Result<nat> := Ok(|s[id].clusters|);
    assert ScaleGroupCommand(groups, Some(id), Some(t), clock, creates, deletes) == (s, ok);
  }

  /** Shrinking with distinct ids and successful deletions keeps exactly the
      members before the slice start: the first `target` ones for a target
      in range, and all but the last `-target` ones for a negative
      target. */
  lemma ScaleInKeepsPrefix(groups: Groups, id: string, t: int, clock: string,
                           creates: nat -> Result<Crud.ClusterRecord>, deletes: string -> Crud.DeleteCall)
    requires id in groups && t < |groups[id].clusters|
    requires DistinctIds(groups[id].clusters) && AllDeletable(groups[id].clusters, deletes)
    ensures var ms := groups[id].clusters;
      var r := ScaleGroupCommand(groups, Some(id), Some(t), clock, creates, deletes);
      r.0[id].clusters == ms[..SliceStart(t, |ms|)] && r.1 == Ok(SliceStart(t, |ms|))
  {
    var ms := groups[id].clusters;
    var start := SliceStart(t, |ms|);
    assert ms == ms[..start] + ms[start..];
    assert AllDeletable(ms[start..], deletes) by {
      forall j | 0 <= j < |ms[start..]| ensures Crud.DeleteCluster(deletes(ms[start..][j].id), false) == Ok(true) {
        assert ms[start..][j] == ms[start + j];
      }
    }
    RemoveSuffix(groups, id, ms[..start], ms[start..], deletes);
  }

  // ---------------------------------------------------------------------
  // Command dispatch

  datatype Command = Command(kind: Option<string>, groupId: Option<string>, targetClusters: Option<int>)

  /** The reply dictionary: success, a message (or the error text), and the
      new member count for a scale command. */
  datatype CommandResult = CommandResult(success: bool, message: string, newClusterCount: Option<nat>)

  const ScaleCommand := "scale_group"
  /** Commands whose handlers are placeholders that report success. */
  const StubCommands := ["consolidate_groups", "migrate_workloads", "optimize_placement"]

  /** `execute_optimization_command`: dispatch on the type; an unknown type
      or a handler's exception becomes `success: False` with the error
      text, and leaves the groups alone. */
  function ExecuteOptimizationCommand(groups: Groups, cmd: Command, clock: string,
                                      creates: nat -> Result<Crud.ClusterRecord>,
                                      deletes: string -> Crud.DeleteCall): (r: (Groups, CommandResult))
    ensures r.1.success ==> cmd.kind.Some? && (cmd.kind.value == ScaleCommand || cmd.kind.value in StubCommands)
    ensures cmd.kind.Some? && cmd.kind.value in StubCommands ==> r.1.success && r.0 == groups
    ensures cmd.kind == Some(ScaleCommand) ==>
      var s := ScaleGroupCommand(groups, cmd.groupId, cmd.targetClusters, clock, creates, deletes);
      (r.1.success <==> s.1.Ok?) && (s.1.Ok? ==> r.0 == s.0 && r.1.newClusterCount == Some(s.1.value))
    ensures !r.1.success ==> r.0 == groups
  {
    match cmd.kind
    case None => (groups, CommandResult(false, "Unknown command type: None", None))
    case Some(kind) =>
      if kind == ScaleCommand then
        var s := ScaleGroupCommand(groups, cmd.groupId, cmd.targetClusters, clock, creates, deletes);
        match s.1
        case Ok(n) => (s.0, CommandResult(true, "", Some(n)))
        case Err(e) => (groups, CommandResult(false, e.message, None))
      else if kind == StubCommands[0] then (groups, CommandResult(true, "Consolidation completed", None))
      else if kind == StubCommands[1] then (groups, CommandResult(true, "Migration completed", None))
      else if kind == StubCommands[2] then (groups, CommandResult(true, "Placement optimized", None))
      else (groups, CommandResult(false, "Unknown command type: " + kind, None))
  }

  // ---------------------------------------------------------------------
  // Listing and deleting groups

  /** `list_groups(group_type)`: the stored groups, narrowed to one type
      when a type is given. */
  function ListGroups(groups: Groups, groupType: Option<string>): (r: set<GroupInfo>)
    ensures forall g :: g in r <==> g in groups.Values && (groupType.None? || g.groupType == groupType.value)
  {
    set g | g in groups.Values && (groupType.None? || g.groupType == groupType.value)
  }

  /** `list.remove(x)`: drop the first element equal to `x`. */
  function RemoveFirst(ms: seq<Member>, x: Member): (r: seq<Member>)
    ensures x in ms ==> multiset(r) == multiset(ms) - multiset{x}
    ensures x !in ms ==> r == ms
  {
    if |ms| == 0 then ms
    else if ms[0] == x then
      assert ms == [ms[0]] + ms[1..];
      ms[1..]
    else
      assert ms == [ms[0]] + ms[1..];
      [ms[0]] + RemoveFirst(ms[1..], x)
  }

  /** The member loop of `delete_group`: successful deletions leave the
      list; an error stops the loop unless forced. Returns the members left
      and whether an error escaped. */
  function DeleteMembers(todo: seq<Member>, current: seq<Member>, force: bool,
                         deletes: string -> Crud.DeleteCall): (r: (seq<Member>, bool))
    ensures r.1 <==> !force && exists i :: 0 <= i < |todo| && Crud.DeleteCluster(deletes(todo[i].id), false).Err?
    ensures multiset(r.0) <= multiset(current)
    decreases |todo|
  {
    if |todo| == 0 then (current, false)
    else
      var answer := Crud.DeleteCluster(deletes(todo[0].id), force);
      assert forall i :: 1 <= i < |todo| ==> todo[i] == todo[1..][i - 1];
      if answer == Ok(true) then DeleteMembers(todo[1..], RemoveFirst(current, todo[0]), force, deletes)
      else if answer.Err? && !force then (current, true)
      else DeleteMembers(todo[1..], current, force, deletes)
  }

  /** `delete_group(id, force)`: an unknown id answers False. Otherwise the
      members are deleted one by one; if no error escapes the group leaves
      the table, else it stays with status error, the members not yet
      removed, and the counters as they were. */
  function DeleteGroup(groups: Groups, id: string, force: bool, deletes: string -> Crud.DeleteCall): (r: (Groups, bool))
    ensures id !in groups ==> r == (groups, false)
    ensures id in groups && force ==> r == (groups - {id}, true)
    ensures id in groups ==>
      (r.1 <==> force || forall i :: 0 <= i < |groups[id].clusters| ==>
                          Crud.DeleteCluster(deletes(groups[id].clusters[i].id), false).Ok?)
    ensures r.1 ==> r.0 == groups - {id}
    ensures id in groups && !r.1 ==>
      && r.0.Keys == groups.Keys
      && r.0[id].status == ErrorStatus
      && multiset(r.0[id].clusters) <= multiset(groups[id].clusters)
      && r.0[id].totalNodes == groups[id].totalNodes && r.0[id].activeClusters == groups[id].activeClusters
  {
    if id !in groups then (groups, false)
    else
      var g := groups[id];
      var run := DeleteMembers(g.clusters, g.clusters, force, deletes);
      if !run.1 then (groups - {id}, true)
      else (groups[id := g.(status := ErrorStatus, clusters := run.0)], false)
  }
}
