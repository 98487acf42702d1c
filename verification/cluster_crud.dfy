/** The pure decisions inside the Magnum cluster CRUD controller
    (openstack_cluster_crud.py): configuration defaults, the list filter, the
    lookup argument checks, the status-polling classifier, the `force`
    policy of deletion, the JSON Patch an update sends, and the selection of
    stuck clusters for cleanup. Every call into the OpenStack SDK is an
    argument: a result value, or a function from what is asked to what the
    cloud answers. */
module ClusterCrud {
  import opened Wrappers
  import opened Seqs
  import opened Strings
  import opened OrderedMaps

  // Magnum cluster statuses the controller names.
  const CreateInProgress := "CREATE_IN_PROGRESS"
  const CreateComplete := "CREATE_COMPLETE"
  const UpdateInProgress := "UPDATE_IN_PROGRESS"
  const UpdateComplete := "UPDATE_COMPLETE"
  const DeleteInProgress := "DELETE_IN_PROGRESS"
  const Deleted := "DELETED"

  // Exception classes the controller raises or catches.
  const NotFoundKind := "ResourceNotFound"
  const ValueErrorKind := "ValueError"
  const TimeoutKind := "TimeoutError"
  const TypeErrorKind := "TypeError"

  // ---------------------------------------------------------------------
  // Cluster configuration

  const DefaultKeypair := "ketilinux"
  const DefaultMasterCount := 1
  const DefaultNodeCount := 2
  const DefaultDockerVolumeSize := 50

  const MinNodesKey := "min_node_count"
  const MaxNodesKey := "max_node_count"

  /** The labels a configuration gets when it is given none. */
  const DefaultLabels: OrderedMap<string, string> :=
    [("kube_dashboard_enabled", "true"), ("prometheus_monitoring", "true"),
     ("auto_scaling_enabled", "true"), (MinNodesKey, "1"), (MaxNodesKey, "10")]

  datatype ClusterConfig = ClusterConfig(
    name: string,
    clusterTemplateId: string,
    keypair: string,
    masterCount: int,
    nodeCount: int,
    masterFlavor: Option<string>,
    flavor: Option<string>,
    dockerVolumeSize: int,
    labels: OrderedMap<string, string>,
    fixedNetwork: Option<string>,
    fixedSubnet: Option<string>,
    floatingIpEnabled: bool)

  /** The dataclass constructor followed by `__post_init__`: only a missing
      label dictionary is replaced, an explicit one (even an empty one) is
      kept as given. */
  function MakeConfig(name: string, templateId: string, keypair: string,
                      masterCount: int, nodeCount: int,
                      masterFlavor: Option<string>, flavor: Option<string>,
                      dockerVolumeSize: int,
                      labels: Option<OrderedMap<string, string>>,
                      fixedNetwork: Option<string>, fixedSubnet: Option<string>,
                      floatingIpEnabled: bool): (c: ClusterConfig)
    ensures labels.None? ==> c.labels == DefaultLabels
    ensures labels.Some? ==> c.labels == labels.value
    ensures c.name == name && c.clusterTemplateId == templateId && c.keypair == keypair
    ensures c.masterCount == masterCount && c.nodeCount == nodeCount
    ensures c.fixedNetwork == fixedNetwork && c.fixedSubnet == fixedSubnet
  {
    ClusterConfig(name, templateId, keypair, masterCount, nodeCount, masterFlavor,
                  flavor, dockerVolumeSize, labels.GetOr(DefaultLabels),
                  fixedNetwork, fixedSubnet, floatingIpEnabled)
  }

  /** `ClusterConfig(name, template)` with every other field defaulted. */
  function DefaultConfig(name: string, templateId: string): (c: ClusterConfig)
    ensures c.keypair == DefaultKeypair && c.masterCount == 1 && c.nodeCount == 2
    ensures c.dockerVolumeSize == 50 && c.floatingIpEnabled
    ensures c.labels == DefaultLabels
  {
    MakeConfig(name, templateId, DefaultKeypair, DefaultMasterCount, DefaultNodeCount,
               None, None, DefaultDockerVolumeSize, None, None, None, true)
  }

  /** The default labels are a proper dictionary that turns autoscaling on
      with bounds 1 to 10 nodes. */
  lemma DefaultLabelsFacts()
    ensures DistinctKeys(DefaultLabels) && |DefaultLabels| == 5
    ensures Get(DefaultLabels, "auto_scaling_enabled") == Some("true")
    ensures Get(DefaultLabels, MinNodesKey) == Some("1")
    ensures Get(DefaultLabels, MaxNodesKey) == Some("10")
    ensures ParseInt("1") == 1 && ParseInt("10") == 10
  {
    FirstIndexIs(DefaultLabels, "auto_scaling_enabled", 2);
    FirstIndexIs(DefaultLabels, MinNodesKey, 3);
    FirstIndexIs(DefaultLabels, MaxNodesKey, 4);
    IntToStringRoundTrip(1);
    IntToStringRoundTrip(10);
    assert IntToString(10) == "10";
  }

  // ---------------------------------------------------------------------
  // Cluster records and the list filter

  /** `ClusterInfo`, as `_cluster_to_info` fills it in. */
  datatype ClusterRecord = ClusterRecord(
    id: string,
    name: string,
    status: string,
    stackId: string,
    masterCount: int,
    nodeCount: int,
    keypair: string,
    clusterTemplateId: string,
    apiAddress: Option<string>,
    coeVersion: Option<string>,
    createdAt: string,
    updatedAt: string,
    healthStatus: Option<string>,
    healthStatusReason: Option<string>,
    projectId: string,
    userId: string,
    nodeAddresses: seq<string>,
    masterAddresses: seq<string>)

  /** The values a filter can hold and an attribute can have. */
  datatype Value = VStr(s: string) | VInt(i: int) | VList(items: seq<string>) | VNone

  function OptStr(o: Option<string>): Value
  {
    match o
    case Some(s) => VStr(s)
    case None => VNone
  }

  /** `getattr(info, key, None)`. */
  function Attr(c: ClusterRecord, key: string): (v: Value)
    ensures key == "id" ==> v == VStr(c.id)
    ensures key == "status" ==> v == VStr(c.status)
  {
    match key
    case "id" => VStr(c.id)
    case "name" => VStr(c.name)
    case "status" => VStr(c.status)
    case "stack_id" => VStr(c.stackId)
    case "master_count" => VInt(c.masterCount)
    case "node_count" => VInt(c.nodeCount)
    case "keypair" => VStr(c.keypair)
    case "cluster_template_id" => VStr(c.clusterTemplateId)
    case "api_address" => OptStr(c.apiAddress)
    case "coe_version" => OptStr(c.coeVersion)
    case "created_at" => VStr(c.createdAt)
    case "updated_at" => VStr(c.updatedAt)
    case "health_status" => OptStr(c.healthStatus)
    case "health_status_reason" => OptStr(c.healthStatusReason)
    case "project_id" => VStr(c.projectId)
    case "user_id" => VStr(c.userId)
    case "node_addresses" => VList(c.nodeAddresses)
    case "master_addresses" => VList(c.masterAddresses)
    case _ => VNone
  }

  /** Every filter entry equals the record's attribute. */
  predicate Matches(c: ClusterRecord, filters: OrderedMap<string, Value>)
  {
    forall i :: 0 <= i < |filters| ==> Attr(c, filters[i].0) == filters[i].1
  }

  /** The source's loop over the filter items that stops at the first
      mismatch. */
  function MatchLoop(c: ClusterRecord, filters: OrderedMap<string, Value>): bool
  {
    if |filters| == 0 then true
    else if Attr(c, filters[0].0) != filters[0].1 then false
    else MatchLoop(c, filters[1..])
  }

  /** The early-exit loop accepts exactly the records that match every
      entry. */
  lemma {:induction false} MatchLoopIff(c: ClusterRecord, filters: OrderedMap<string, Value>)
    ensures MatchLoop(c, filters) <==> Matches(c, filters)
  {
    if |filters| > 0 {
      MatchLoopIff(c, filters[1..]);
      if Attr(c, filters[0].0) == filters[0].1 && Matches(c, filters[1..]) {
        forall i | 0 <= i < |filters|
          ensures Attr(c, filters[i].0) == filters[i].1
        {
          if i > 0 {
            assert filters[i] == filters[1..][i - 1];
          }
        }
      }
    }
  }

  function MatchesAll(filters: OrderedMap<string, Value>): ClusterRecord -> bool
  {
    c => MatchLoop(c, filters)
  }

  /** The records every filter item matches, as a test. */
  function Matching(filters: OrderedMap<string, Value>): ClusterRecord -> bool
  {
    c => Matches(c, filters)
  }

  /** `list_clusters(filters)`: the cloud's listing, or its error, filtered
      in order. A missing or empty filter keeps every record. */
  function ListClusters(listing: Result<seq<ClusterRecord>>, filters: Option<OrderedMap<string, Value>>): (r: Result<seq<ClusterRecord>>)
    ensures listing.Err? <==> r.Err?
    ensures listing.Err? ==> r.error == listing.error
    ensures listing.Ok? && (filters.None? || filters.value == []) ==> r == listing
    ensures listing.Ok? && filters.Some? ==>
      (forall i :: 0 <= i < |r.value| ==> r.value[i] in listing.value && Matches(r.value[i], filters.value))
    ensures listing.Ok? && filters.Some? ==>
      (forall i :: 0 <= i < |listing.value| && Matches(listing.value[i], filters.value) ==> listing.value[i] in r.value)
    ensures listing.Ok? && filters.Some? ==> r == Ok(Filter(listing.value, Matching(filters.value)))
  {
    match listing
    case Err(e) => Err(e)
    case Ok(cs) =>
      if filters.None? then Ok(cs)
      else if filters.value == [] then
        FilterAll(cs, Matching(filters.value));
        Ok(cs)
      else
        var kept := Filter(cs, MatchesAll(filters.value));
        forall c | c in cs ensures MatchLoop(c, filters.value) <==> Matches(c, filters.value) {
          MatchLoopIff(c, filters.value);
        }
        FilterAgree(cs, MatchesAll(filters.value), Matching(filters.value));
        Ok(kept)
  }

  // ---------------------------------------------------------------------
  // Lookup

  /** A Python truthy string argument: given and non-empty. */
  predicate Given(s: Option<string>)
  {
    s.Some? && |s.value| > 0
  }

  /** `get_cluster(cluster_id, cluster_name)`: the id wins when both are
      given; a name lookup that finds nothing is a not-found error; neither
      argument is a ValueError. `byId` and `byName` are the SDK's
      `get_cluster` and `find_cluster`. */
  function GetCluster(clusterId: Option<string>, clusterName: Option<string>,
                      byId: string -> Result<ClusterRecord>,
                      byName: string -> Result<Option<ClusterRecord>>): (r: Result<ClusterRecord>)
    ensures !Given(clusterId) && !Given(clusterName) ==> r.Err? && r.error.kind == ValueErrorKind
    ensures Given(clusterId) ==> r == byId(clusterId.value)
    ensures !Given(clusterId) && Given(clusterName) && byName(clusterName.value) == Ok(None) ==>
      r.Err? && r.error.kind == NotFoundKind
    ensures r.Ok? ==>
      (Given(clusterId) && byId(clusterId.value) == r)
      || (!Given(clusterId) && Given(clusterName) && byName(clusterName.value) == Ok(Some(r.value)))
  {
    if Given(clusterId) then byId(clusterId.value)
    else if Given(clusterName) then
      match byName(clusterName.value)
      case Err(e) => Err(e)
      case Ok(None) => Err(Error(NotFoundKind, "Cluster not found: " + clusterName.value))
      case Ok(Some(c)) => Ok(c)
    else Err(Error(ValueErrorKind, "Either cluster_id or cluster_name must be provided"))
  }

  // ---------------------------------------------------------------------
  // Waiting for a status

  /** What one poll of `get_cluster` gave: the record, a not-found error, or
      any other error. */
  datatype Poll = Seen(cluster: ClusterRecord) | Missing | PollFailed(error: Error)

  /** What a successful wait returns: the record in a target status, or the
      `{"status": "DELETED"}` marker when the cluster is gone. */
  datatype Waited = Reached(cluster: ClusterRecord) | GoneAsDeleted

  /** The decision one poll leads to. */
  datatype Step = Done(waited: Waited) | Raise(error: Error) | Again

  predicate FailedStatus(status: string)
  {
    Contains(status, "FAILED") || Contains(status, "ERROR")
  }

  /** One iteration of `_wait_for_cluster_status`. A target status wins even
      when it contains FAILED; not-found is success only when DELETED is a
      target. */
  function Classify(p: Poll, targets: seq<string>): (r: Step)
    ensures r.Done? && r.waited.Reached? ==> p == Seen(r.waited.cluster) && r.waited.cluster.status in targets
    ensures r.Done? && r.waited.GoneAsDeleted? ==> p.Missing? && Deleted in targets
    ensures r.Again? <==> p.Seen? && p.cluster.status !in targets && !FailedStatus(p.cluster.status)
    ensures p.Seen? && p.cluster.status !in targets && FailedStatus(p.cluster.status) ==> r.Raise?
    ensures p.Missing? && Deleted !in targets ==> r.Raise? && r.error.kind == NotFoundKind
  {
    match p
    case Seen(c) =>
      if c.status in targets then Done(Reached(c))
      else if FailedStatus(c.status) then Raise(Error("Exception", "Cluster operation failed: " + c.status))
      else Again
    case Missing =>
      if Deleted in targets then Done(GoneAsDeleted)
      else Raise(Error(NotFoundKind, "Cluster not found"))
    case PollFailed(e) => Raise(e)
  }

  /** The polling loop over the polls that fit before the timeout: the first
      decisive poll settles it, and running out of polls is a TimeoutError. */
  function WaitForStatus(polls: seq<Poll>, targets: seq<string>): (r: Result<Waited>)
    ensures r.Ok? && r.value.Reached? ==> r.value.cluster.status in targets
    ensures r.Ok? && r.value.GoneAsDeleted? ==> Deleted in targets
  {
    if |polls| == 0 then Err(Error(TimeoutKind, "Cluster operation timed out"))
    else
      match Classify(polls[0], targets)
      case Done(w) => Ok(w)
      case Raise(e) => Err(e)
      case Again => WaitForStatus(polls[1..], targets)
  }

  function StepResult(s: Step): Result<Waited>
    requires !s.Again?
  {
    match s
    case Done(w) => Ok(w)
    case Raise(e) => Err(e)
  }

  /** The wait ends with the verdict of the first poll that is not
      "keep waiting". */
  lemma {:induction false} WaitDecidedAt(polls: seq<Poll>, targets: seq<string>, i: nat)
    requires i < |polls| && !Classify(polls[i], targets).Again?
    requires forall j :: 0 <= j < i ==> Classify(polls[j], targets).Again?
    ensures WaitForStatus(polls, targets) == StepResult(Classify(polls[i], targets))
  {
    if i > 0 {
      assert Classify(polls[0], targets).Again?;
      assert forall j :: 0 <= j < i - 1 ==> polls[1..][j] == polls[j + 1];
      WaitDecidedAt(polls[1..], targets, i - 1);
    }
  }

  /** When no poll is decisive the wait times out. */
  lemma {:induction false} WaitTimesOut(polls: seq<Poll>, targets: seq<string>)
    requires forall j :: 0 <= j < |polls| ==> Classify(polls[j], targets).Again?
    ensures WaitForStatus(polls, targets).Err?
    ensures WaitForStatus(polls, targets).error.kind == TimeoutKind
  {
    if |polls| > 0 {
      assert Classify(polls[0], targets).Again?;
      assert forall j :: 0 <= j < |polls| - 1 ==> polls[1..][j] == polls[j + 1];
      WaitTimesOut(polls[1..], targets);
    }
  }

  // ---------------------------------------------------------------------
  // Deletion

  /** What the cloud does during one `delete_cluster` call: the existence
      check and the delete request each succeed (None) or raise, and the
      wait sees `polls`. */
  datatype DeleteCall = DeleteCall(lookup: Option<Error>, request: Option<Error>, polls: seq<Poll>)

  /** The first exception the call raises, if any. */
  function DeleteError(call: DeleteCall): Option<Error>
  {
    if call.lookup.Some? then call.lookup
    else if call.request.Some? then call.request
    else
      match WaitForStatus(call.polls, [Deleted])
      case Ok(_) => None
      case Err(e) => Some(e)
  }

  /** `delete_cluster(id, force)`: a not-found error answers `force`, any
      other error answers True under force and is re-raised otherwise. */
  function DeleteCluster(call: DeleteCall, force: bool): (r: Result<bool>)
    ensures force ==> r == Ok(true)
    ensures !force ==> (r == Ok(true) <==> DeleteError(call).None?)
    ensures !force ==> (r == Ok(false) <==> DeleteError(call).Some? && DeleteError(call).value.kind == NotFoundKind)
    ensures r.Err? ==> !force && DeleteError(call) == Some(r.error) && r.error.kind != NotFoundKind
  {
    match DeleteError(call)
    case None => Ok(true)
    case Some(e) =>
      if e.kind == NotFoundKind then Ok(force)
      else if force then Ok(true)
      else Err(e)
  }

  /** A cluster that disappears while the deletion is awaited has been
      deleted: the wait counts not-found as reaching DELETED. */
  lemma DeleteSucceedsWhenGone(polls: seq<Poll>, force: bool)
    requires |polls| > 0 && polls[0].Missing?
    ensures DeleteCluster(DeleteCall(None, None, polls), force) == Ok(true)
  {
    assert Classify(polls[0], [Deleted]) == Done(GoneAsDeleted);
  }

  // ---------------------------------------------------------------------
  // Update: the JSON Patch and what it does to the cluster document

  const NodeCountPath := "/node_count"
  const LabelsPrefix := "/labels/"

  datatype PatchValue = PInt(i: int) | PStr(s: string)

  /** A JSON Patch `replace` operation (section 4.3 of RFC 6902); the
      controller emits no other kind. */
  datatype PatchOp = Replace(path: string, value: PatchValue)

  /** `update_cluster`'s patch: one op per argument that is not None, in the
      order node count, maximum, minimum; the label bounds travel as
      strings. */
  function BuildPatch(nodeCount: Option<int>, maxNodes: Option<int>, minNodes: Option<int>): (r: seq<PatchOp>)
    ensures r == [] <==> nodeCount.None? && maxNodes.None? && minNodes.None?
    ensures |r| <= 3
  {
    (if nodeCount.Some? then [Replace(NodeCountPath, PInt(nodeCount.value))] else [])
    + (if maxNodes.Some? then [Replace(LabelsPrefix + MaxNodesKey, PStr(IntToString(maxNodes.value)))] else [])
    + (if minNodes.Some? then [Replace(LabelsPrefix + MinNodesKey, PStr(IntToString(minNodes.value)))] else [])
  }

  /** The part of a Magnum cluster document the patch can address. */
  datatype ClusterDoc = ClusterDoc(nodeCount: int, labels: map<string, string>)

  /** The location an RFC 6901 path names in a `ClusterDoc`. */
  datatype Target = NodeCountField | LabelField(key: string) | NoTarget

  function TargetOf(path: string): Target
  {
    if path == NodeCountPath then NodeCountField
    else if IsPrefix(LabelsPrefix, path) && '/' !in path[|LabelsPrefix|..] then LabelField(path[|LabelsPrefix|..])
    else NoTarget
  }

  /** Section 4.3 of RFC 6902: `replace` needs the target location to exist
      and sets its value; anything else is an error. */
  function ApplyOp(d: ClusterDoc, op: PatchOp): (r: Result<ClusterDoc>)
    ensures r.Ok? ==> r.value.labels.Keys == d.labels.Keys
  {
    match (TargetOf(op.path), op.value)
    case (NodeCountField, PInt(n)) => Ok(d.(nodeCount := n))
    case (LabelField(k), PStr(s)) =>
      if k in d.labels then Ok(d.(labels := d.labels[k := s]))
      else Err(Error("JsonPatchConflict", "replace target does not exist: " + op.path))
    case _ => Err(Error("JsonPatchConflict", "cannot replace " + op.path))
  }

  /** Section 5 of RFC 6902: operations apply in order and the first error
      fails the whole patch. */
  function ApplyPatch(d: ClusterDoc, ops: seq<PatchOp>): Result<ClusterDoc>
    decreases |ops|
  {
    if |ops| == 0 then Ok(d)
    else
      match ApplyOp(d, ops[0])
      case Err(e) => Err(e)
      case Ok(d') => ApplyPatch(d', ops[1..])
  }

  lemma {:induction false} ApplyPatchAppend(d: ClusterDoc, a: seq<PatchOp>, b: seq<PatchOp>)
    ensures ApplyPatch(d, a + b) ==
      match ApplyPatch(d, a)
      case Err(e) => Err(e)
      case Ok(d') => ApplyPatch(d', b)
    decreases |a|
  {
    if |a| > 0 {
      assert (a + b)[0] == a[0] && (a + b)[1..] == a[1..] + b;
      match ApplyOp(d, a[0])
      case Err(e) =>
      case Ok(d') => ApplyPatchAppend(d', a[1..], b);
    } else {
      assert a + b == b;
    }
  }

  /** A label path built from a key without `/` addresses that label. */
  lemma LabelTarget(k: string)
    requires '/' !in k
    ensures TargetOf(LabelsPrefix + k) == LabelField(k)
  {
    var p := LabelsPrefix + k;
    assert p[1] == 'l' && NodeCountPath[1] == 'n';
    assert p[..|LabelsPrefix|] == LabelsPrefix;
    assert p[|LabelsPrefix|..] == k;
  }

  /** The effect of one label op on its own. */
  lemma ApplyLabel(d: ClusterDoc, k: string, v: string)
    requires '/' !in k
    ensures ApplyPatch(d, [Replace(LabelsPrefix + k, PStr(v))]) ==
      if k in d.labels then Ok(d.(labels := d.labels[k := v]))
      else Err(Error("JsonPatchConflict", "replace target does not exist: " + LabelsPrefix + k))
  {
    LabelTarget(k);
  }

  lemma BoundKeysFacts()
    ensures '/' !in MaxNodesKey && '/' !in MinNodesKey && MaxNodesKey != MinNodesKey
    ensures NodeCountPath[1] != LabelsPrefix[1]
  {
    assert MaxNodesKey[1] != MinNodesKey[1];
  }

  /** The patch applied to a document that has the labels it replaces sets
      the node count and writes label bounds that read back (`int(...)`) as
      the requested integers, and touches no other label. */
  lemma PatchRoundTrip(d: ClusterDoc, nodeCount: Option<int>, maxNodes: Option<int>, minNodes: Option<int>)
    requires maxNodes.Some? ==> MaxNodesKey in d.labels
    requires minNodes.Some? ==> MinNodesKey in d.labels
    ensures ApplyPatch(d, BuildPatch(nodeCount, maxNodes, minNodes)).Ok?
    ensures var e := ApplyPatch(d, BuildPatch(nodeCount, maxNodes, minNodes)).value;
      && e.nodeCount == nodeCount.GetOr(d.nodeCount)
      && e.labels.Keys == d.labels.Keys
      && (forall k :: k in d.labels && k != MaxNodesKey && k != MinNodesKey ==> e.labels[k] == d.labels[k])
      && (maxNodes.Some? ==> ParseInt(e.labels[MaxNodesKey]) == maxNodes.value)
      && (minNodes.Some? ==> ParseInt(e.labels[MinNodesKey]) == minNodes.value)
      && (maxNodes.None? && MaxNodesKey in d.labels ==> e.labels[MaxNodesKey] == d.labels[MaxNodesKey])
      && (minNodes.None? && MinNodesKey in d.labels ==> e.labels[MinNodesKey] == d.labels[MinNodesKey])
  {
    BoundKeysFacts();
    var a := if nodeCount.Some? then [Replace(NodeCountPath, PInt(nodeCount.value))] else [];
    var b := if maxNodes.Some? then [Replace(LabelsPrefix + MaxNodesKey, PStr(IntToString(maxNodes.value)))] else [];
    var c := if minNodes.Some? then [Replace(LabelsPrefix + MinNodesKey, PStr(IntToString(minNodes.value)))] else [];
    assert BuildPatch(nodeCount, maxNodes, minNodes) == (a + b) + c;
    var d1 := d.(nodeCount := nodeCount.GetOr(d.nodeCount));
    assert ApplyPatch(d, a) == Ok(d1);
    var d2 := if maxNodes.Some? then d1.(labels := d1.labels[MaxNodesKey := IntToString(maxNodes.value)]) else d1;
    if maxNodes.Some? {
      ApplyLabel(d1, MaxNodesKey, IntToString(maxNodes.value));
    }
    assert ApplyPatch(d1, b) == Ok(d2);
    var d3 := if minNodes.Some? then d2.(labels := d2.labels[MinNodesKey := IntToString(minNodes.value)]) else d2;
    if minNodes.Some? {
      ApplyLabel(d2, MinNodesKey, IntToString(minNodes.value));
    }
    assert ApplyPatch(d2, c) == Ok(d3);
    ApplyPatchAppend(d, a, b);
    ApplyPatchAppend(d, a + b, c);
    assert ApplyPatch(d, BuildPatch(nodeCount, maxNodes, minNodes)) == Ok(d3);
    if maxNodes.Some? {
      IntToStringRoundTrip(maxNodes.value);
    }
    if minNodes.Some? {
      IntToStringRoundTrip(minNodes.value);
    }
  }

  /** A bound sent for a label the document lacks fails the whole patch. */
  lemma PatchNeedsLabel(d: ClusterDoc, nodeCount: Option<int>, maxNodes: Option<int>, minNodes: Option<int>)
    requires (maxNodes.Some? && MaxNodesKey !in d.labels) || (minNodes.Some? && MinNodesKey !in d.labels)
    ensures ApplyPatch(d, BuildPatch(nodeCount, maxNodes, minNodes)).Err?
  {
    BoundKeysFacts();
    var a := if nodeCount.Some? then [Replace(NodeCountPath, PInt(nodeCount.value))] else [];
    var b := if maxNodes.Some? then [Replace(LabelsPrefix + MaxNodesKey, PStr(IntToString(maxNodes.value)))] else [];
    var c := if minNodes.Some? then [Replace(LabelsPrefix + MinNodesKey, PStr(IntToString(minNodes.value)))] else [];
    assert BuildPatch(nodeCount, maxNodes, minNodes) == (a + b) + c;
    var d1 := d.(nodeCount := nodeCount.GetOr(d.nodeCount));
    assert ApplyPatch(d, a) == Ok(d1);
    ApplyPatchAppend(d, a, b);
    ApplyPatchAppend(d, a + b, c);
    if maxNodes.Some? {
      ApplyLabel(d1, MaxNodesKey, IntToString(maxNodes.value));
    }
    if maxNodes.Some? && MaxNodesKey !in d.labels {
      assert ApplyPatch(d1, b).Err?;
    } else {
      var d2 := if maxNodes.Some? then d1.(labels := d1.labels[MaxNodesKey := IntToString(maxNodes.value)]) else d1;
      assert ApplyPatch(d1, b) == Ok(d2);
      assert MinNodesKey !in d2.labels;
      ApplyLabel(d2, MinNodesKey, IntToString(minNodes.value));
    }
  }

  /** What the cloud does during one `update_cluster` call. */
  datatype UpdateCall = UpdateCall(lookup: Result<ClusterRecord>, request: Option<Error>, polls: seq<Poll>)

  /** The outcome and the patch that was sent (empty when none was). */
  datatype UpdateRun = UpdateRun(outcome: Result<ClusterRecord>, sent: seq<PatchOp>)

  const UpdateTargets := [UpdateComplete, CreateComplete]

  /** `update_cluster`: an empty patch sends nothing and answers the current
      record; otherwise the patch is sent and the cluster awaited until
      UPDATE_COMPLETE or CREATE_COMPLETE. */
  function UpdateCluster(call: UpdateCall, nodeCount: Option<int>, maxNodes: Option<int>, minNodes: Option<int>): (r: UpdateRun)
    ensures call.lookup.Err? ==> r == UpdateRun(Err(call.lookup.error), [])
    ensures call.lookup.Ok? && nodeCount.None? && maxNodes.None? && minNodes.None? ==>
      r == UpdateRun(Ok(call.lookup.value), [])
    ensures call.lookup.Ok? ==> r.sent == BuildPatch(nodeCount, maxNodes, minNodes)
    ensures r.sent != [] && r.outcome.Ok? ==> r.outcome.value.status in UpdateTargets
    ensures call.lookup.Ok? && r.sent != [] && call.request.Some? ==> r.outcome == Err(call.request.value)
    ensures call.lookup.Ok? && r.sent != [] && call.request.None? ==> SettledBy(r.outcome, call.polls)
  {
    match call.lookup
    case Err(e) => UpdateRun(Err(e), [])
    case Ok(current) =>
      var patch := BuildPatch(nodeCount, maxNodes, minNodes);
      if patch == [] then UpdateRun(Ok(current), [])
      else if call.request.Some? then UpdateRun(Err(call.request.value), patch)
      else
        match WaitForStatus(call.polls, UpdateTargets)
        case Ok(Reached(c)) => UpdateRun(Ok(c), patch)
        // the marker dictionary has no `id` attribute to convert
        case Ok(GoneAsDeleted) => UpdateRun(Err(Error("AttributeError", "'dict' object has no attribute 'id'")), patch)
        case Err(e) => UpdateRun(Err(e), patch)
  }

  /** The outcome of a sent update is the wait's verdict: a timeout or an
      error status raises, and reaching a target answers the cluster. A
      wait for these targets never ends on the deleted marker, so the
      AttributeError of converting it cannot arise. */
  predicate SettledBy(outcome: Result<ClusterRecord>, polls: seq<Poll>)
  {
    var w := WaitForStatus(polls, UpdateTargets);
    (w.Err? ==> outcome == Err(w.error)) && (w.Ok? ==> w.value.Reached? && outcome == Ok(w.value.cluster))
  }

  /** `resize_cluster`: an update of the node count alone. */
  function ResizeCluster(call: UpdateCall, nodeCount: int): (r: UpdateRun)
    ensures call.lookup.Err? ==> r.outcome == Err(call.lookup.error)
    ensures call.lookup.Ok? ==> r.sent == [Replace(NodeCountPath, PInt(nodeCount))]
    ensures r.outcome.Ok? && call.lookup.Ok? ==> r.outcome.value.status in UpdateTargets
    ensures call.lookup.Ok? && call.request.Some? ==> r.outcome == Err(call.request.value)
    ensures call.lookup.Ok? && call.request.None? ==> SettledBy(r.outcome, call.polls)
  {
    UpdateCluster(call, Some(nodeCount), None, None)
  }

  // ---------------------------------------------------------------------
  // Cleanup of stuck clusters

  const StuckStatuses := [CreateInProgress, DeleteInProgress, UpdateInProgress]

  /** What `datetime.fromisoformat` makes of a creation time once a trailing
      `Z` has become `+00:00`: a naive or an offset-aware instant (seconds
      on the clock `now` is read from), or a ValueError. */
  datatype CreatedAt = NaiveTime(t: int) | AwareTime(t: int) | Malformed

  /** The outcome of a cleanup and the ids whose deletion was requested,
      which stand even when the cleanup later raises. */
  datatype CleanupRun = CleanupRun(outcome: Result<seq<string>>, requested: seq<string>)

  predicate Stuck(c: ClusterRecord) { c.status in StuckStatuses }

  /** No creation time: the empty string, or `str(None)`. */
  predicate Undated(c: ClusterRecord) { c.createdAt == "" || c.createdAt == "None" }

  /** `datetime.now() - timedelta(hours=hours)`, in seconds. */
  function Cutoff(now: int, hours: int): int { now - hours * 3600 }

  function Ids(cs: seq<ClusterRecord>): (r: seq<string>)
    ensures |r| == |cs| && forall i :: 0 <= i < |cs| ==> r[i] == cs[i].id
  {
    seq(|cs|, i requires 0 <= i < |cs| => cs[i].id)
  }

  /** The forced deletion of one selected cluster, in front of the rest of
      the run; its id is reported when the deletion answers True. A forced
      deletion never raises (`DeleteCluster`), so the loop has no error path
      here. */
  function Purge(c: ClusterRecord, rest: CleanupRun, deletes: string -> DeleteCall): CleanupRun
  {
    if DeleteCluster(deletes(c.id), true) == Ok(true) then
      CleanupRun(match rest.outcome
                 case Ok(ids) => Ok([c.id] + ids)
                 case Err(e) => Err(e), [c.id] + rest.requested)
    else CleanupRun(rest.outcome, [c.id] + rest.requested)
  }

  /** The loop of `cleanup_stuck_clusters`. With `compareAware` false it is
      the code as written, where an offset-aware creation time compared with
      the naive cutoff raises TypeError; with it true, such a time is
      compared as the instant it denotes. */
  function CleanupFrom(cs: seq<ClusterRecord>, cutoff: int, parse: string -> CreatedAt,
                       deletes: string -> DeleteCall, compareAware: bool): (r: CleanupRun)
    ensures r.outcome.Ok? ==> r.outcome.value == r.requested
    ensures forall i :: 0 <= i < |r.requested| ==> r.requested[i] in Ids(cs)
  {
    if |cs| == 0 then CleanupRun(Ok([]), [])
    else
      var c := cs[0];
      var rest := CleanupFrom(cs[1..], cutoff, parse, deletes, compareAware);
      assert forall i :: 0 <= i < |rest.requested| ==> rest.requested[i] in Ids(cs) by {
        assert forall x :: x in Ids(cs[1..]) ==> x in Ids(cs) by {
          forall x | x in Ids(cs[1..]) ensures x in Ids(cs) {
            var j :| 0 <= j < |cs[1..]| && Ids(cs[1..])[j] == x;
            assert Ids(cs)[j + 1] == x;
          }
        }
      }
      assert Ids(cs)[0] == c.id;
      if !Stuck(c) then rest
      else if Undated(c) then Purge(c, rest, deletes)
      else
        match parse(c.createdAt)
        case NaiveTime(t) => if t > cutoff then rest else Purge(c, rest, deletes)
        case AwareTime(t) =>
          if !compareAware then
            CleanupRun(Err(Error(TypeErrorKind, "can't compare offset-naive and offset-aware datetimes")), [])
          else if t > cutoff then rest
          else Purge(c, rest, deletes)
        case Malformed => CleanupRun(Err(Error(ValueErrorKind, "Invalid isoformat string: " + c.createdAt)), [])
  }

  /** The creation instant, when the text parses. */
  function Instant(a: CreatedAt): Option<int>
  {
    match a
    case NaiveTime(t) => Some(t)
    case AwareTime(t) => Some(t)
    case Malformed => None
  }

  /** The clusters the cleanup means to remove: stuck, and created at or
      before the cutoff or with no creation time. */
  predicate Selected(c: ClusterRecord, cutoff: int, parse: string -> CreatedAt)
  {
    Stuck(c) && (Undated(c) || (Instant(parse(c.createdAt)).Some? && Instant(parse(c.createdAt)).value <= cutoff))
  }

  function SelectedBy(cutoff: int, parse: string -> CreatedAt): ClusterRecord -> bool
  {
    c => Selected(c, cutoff, parse)
  }

  /** Every stuck cluster with a creation time has one that parses. */
  predicate Parseable(cs: seq<ClusterRecord>, parse: string -> CreatedAt)
  {
    forall i :: 0 <= i < |cs| && Stuck(cs[i]) && !Undated(cs[i]) ==> !parse(cs[i].createdAt).Malformed?
  }

  /** The corrected cleanup deletes exactly the selected clusters, in listing
      order, and reports all of them. */
  lemma {:induction false} CleanupSelects(cs: seq<ClusterRecord>, cutoff: int, parse: string -> CreatedAt, deletes: string -> DeleteCall)
    requires Parseable(cs, parse)
    ensures CleanupFrom(cs, cutoff, parse, deletes, true) ==
      CleanupRun(Ok(Ids(Filter(cs, SelectedBy(cutoff, parse)))), Ids(Filter(cs, SelectedBy(cutoff, parse))))
  {
    if |cs| > 0 {
      assert Parseable(cs[1..], parse) by {
        forall i | 0 <= i < |cs[1..]| ensures cs[1..][i] == cs[i + 1] { }
      }
      CleanupSelects(cs[1..], cutoff, parse, deletes);
      var c := cs[0];
      if Selected(c, cutoff, parse) {
        assert Filter(cs, SelectedBy(cutoff, parse)) == [c] + Filter(cs[1..], SelectedBy(cutoff, parse));
        assert Ids([c] + Filter(cs[1..], SelectedBy(cutoff, parse))) == [c.id] + Ids(Filter(cs[1..], SelectedBy(cutoff, parse)));
      } else {
        assert Filter(cs, SelectedBy(cutoff, parse)) == Filter(cs[1..], SelectedBy(cutoff, parse));
      }
    }
  }

  /** No stuck, dated cluster has an offset-aware creation time. */
  predicate NoAwareTimes(cs: seq<ClusterRecord>, parse: string -> CreatedAt)
  {
    forall i :: 0 <= i < |cs| && Stuck(cs[i]) && !Undated(cs[i]) ==> !parse(cs[i].createdAt).AwareTime?
  }

  /** Without offset-aware creation times the code as written and the
      corrected cleanup agree. */
  lemma {:induction false} AsWrittenAgrees(cs: seq<ClusterRecord>, cutoff: int, parse: string -> CreatedAt, deletes: string -> DeleteCall)
    requires NoAwareTimes(cs, parse)
    ensures CleanupFrom(cs, cutoff, parse, deletes, false) == CleanupFrom(cs, cutoff, parse, deletes, true)
  {
    if |cs| > 0 {
      assert NoAwareTimes(cs[1..], parse) by {
        forall i | 0 <= i < |cs[1..]| ensures cs[1..][i] == cs[i + 1] { }
      }
      AsWrittenAgrees(cs[1..], cutoff, parse, deletes);
    }
  }

  /** `cleanup_stuck_clusters(hours)` as written. */
  function CleanupStuckClustersAsWritten(listing: Result<seq<ClusterRecord>>, hours: int, now: int,
                                         parse: string -> CreatedAt, deletes: string -> DeleteCall): (r: CleanupRun)
    ensures listing.Err? ==> r == CleanupRun(Err(listing.error), [])
    ensures r.outcome.Ok? ==> r.outcome.value == r.requested
  {
    match listing
    case Err(e) => CleanupRun(Err(e), [])
    case Ok(cs) =>
      CleanupFrom(cs, Cutoff(now, hours), parse, deletes, false)
  }

  /** `cleanup_stuck_clusters(hours)` with creation times compared as
      instants: it lists, selects and force-deletes, returning the ids of
      exactly the selected clusters. */
  function CleanupStuckClusters(listing: Result<seq<ClusterRecord>>, hours: int, now: int,
                                parse: string -> CreatedAt, deletes: string -> DeleteCall): (r: CleanupRun)
    ensures listing.Err? ==> r == CleanupRun(Err(listing.error), [])
    ensures listing.Ok? && Parseable(listing.value, parse) ==>
      r.outcome == Ok(Ids(Filter(listing.value, SelectedBy(Cutoff(now, hours), parse))))
    ensures listing.Ok? && Parseable(listing.value, parse) ==>
      forall i :: 0 <= i < |listing.value| && Selected(listing.value[i], Cutoff(now, hours), parse) ==>
        listing.value[i].id in r.requested
  {
    match listing
    case Err(e) => CleanupRun(Err(e), [])
    case Ok(cs) =>
      CleanupRequestsSelected(cs, Cutoff(now, hours), parse, deletes);
      CleanupFrom(cs, Cutoff(now, hours), parse, deletes, true)
  }

  /** Under the corrected cleanup every selected cluster is asked to be
      deleted. */
  lemma CleanupRequestsSelected(cs: seq<ClusterRecord>, cutoff: int, parse: string -> CreatedAt, deletes: string -> DeleteCall)
    ensures Parseable(cs, parse) ==>
      CleanupFrom(cs, cutoff, parse, deletes, true).outcome == Ok(Ids(Filter(cs, SelectedBy(cutoff, parse))))
    ensures Parseable(cs, parse) ==>
      forall i :: 0 <= i < |cs| && Selected(cs[i], cutoff, parse) ==>
        cs[i].id in CleanupFrom(cs, cutoff, parse, deletes, true).requested
  {
    if Parseable(cs, parse) {
      CleanupSelects(cs, cutoff, parse, deletes);
      var kept := Filter(cs, SelectedBy(cutoff, parse));
      forall i | 0 <= i < |cs| && Selected(cs[i], cutoff, parse)
        ensures cs[i].id in CleanupFrom(cs, cutoff, parse, deletes, true).requested
      {
        assert SelectedBy(cutoff, parse)(cs[i]);
        var j :| 0 <= j < |kept| && kept[j] == cs[i];
        assert Ids(kept)[j] == cs[i].id;
      }
    }
  }

  /** How `fromisoformat` reads `2024-01-01T00:00:00+00:00`: an
      offset-aware instant, taken as second 0 of the clock. */
  function ReadsAsAware(text: string): CreatedAt { AwareTime(0) }

  /** A stuck cluster created two days before `now` with a `Z`-suffixed
      timestamp makes the code as written raise TypeError, whereas the
      corrected cleanup deletes it. */
  lemma AwareTimeAborts(c: ClusterRecord, deletes: string -> DeleteCall)
    requires c.status == CreateInProgress && c.createdAt == "2024-01-01T00:00:00Z"
    ensures CleanupStuckClustersAsWritten(Ok([c]), 24, 2 * 86400, ReadsAsAware, deletes).outcome.Err?
    ensures CleanupStuckClustersAsWritten(Ok([c]), 24, 2 * 86400, ReadsAsAware, deletes).outcome.error.kind == TypeErrorKind
    ensures CleanupStuckClusters(Ok([c]), 24, 2 * 86400, ReadsAsAware, deletes).outcome == Ok([c.id])
  {
    assert Stuck(c) && !Undated(c);
    assert [c][1..] == [];
    var none := CleanupRun(Ok([]), []);
    assert CleanupFrom([c][1..], Cutoff(2 * 86400, 24), ReadsAsAware, deletes, true) == none;
    assert ReadsAsAware(c.createdAt) == AwareTime(0) && 0 <= Cutoff(2 * 86400, 24);
    assert DeleteCluster(deletes(c.id), true) == Ok(true);
    assert CleanupFrom([c], Cutoff(2 * 86400, 24), ReadsAsAware, deletes, true) == Purge(c, none, deletes);
    assert [c.id] + [] == [c.id];
    assert CleanupStuckClusters(Ok([c]), 24, 2 * 86400, ReadsAsAware, deletes)
        == CleanupFrom([c], Cutoff(2 * 86400, 24), ReadsAsAware, deletes, true);
  }
}
