/** Bucketing claimed pods into worker slots (filterPodsForCaffe2ReplicaType and getPodSlices in
    controller_pod.go), and the pods that createNewPod makes for a slot. */
module Slots {
  import opened Wrappers
  import opened Kube
  import opened Types
  import opened Strconv
  import opened Naming
  import opened Claims
  import opened PodFactory

  predicate HasType(pod: Pod, kind: string) {
    Matches(map[TYPE_LABEL := kind], pod.labels)
  }

  predicate IsWorker(pod: Pod) {
    HasType(pod, WORKER)
  }

  /** The slot a pod's index label names; None if it names none below replicas. */
  function SlotOf(pod: Pod, replicas: nat): Option<nat> {
    if INDEX_LABEL !in pod.labels then None
    else
      match Atoi(pod.labels[INDEX_LABEL])
      case None => None
      case Some(i) => if 0 <= i < replicas then Some(i) else None
  }

  predicate InSlot(pod: Pod, i: nat, replicas: nat) {
    IsWorker(pod) && SlotOf(pod, replicas) == Some(i)
  }

  /** The pods of one type in a list, in list order. */
  function OfType(pods: seq<Pod>, kind: string): seq<Pod> {
    if |pods| == 0 then []
    else
      var k := |pods| - 1;
      OfType(pods[..k], kind) + (if HasType(pods[k], kind) then [pods[k]] else [])
  }

  function Workers(pods: seq<Pod>): seq<Pod> {
    OfType(pods, WORKER)
  }

  /** The pods of a list in slot i, in list order. */
  function Slot(pods: seq<Pod>, i: nat, replicas: nat): seq<Pod> {
    if |pods| == 0 then []
    else
      var k := |pods| - 1;
      Slot(pods[..k], i, replicas) + (if SlotOf(pods[k], replicas) == Some(i) then [pods[k]] else [])
  }

  method FilterPodsForReplicaType(pods: seq<Pod>, kind: string) returns (result: seq<Pod>)
    ensures result == OfType(pods, kind)
  {
    result := [];
    for k := 0 to |pods|
      invariant result == OfType(pods[..k], kind)
    {
      assert pods[..k + 1][..k] == pods[..k];
      if !HasType(pods[k], kind) {
        continue;
      }
      result := result + [pods[k]];
    }
    assert pods[..|pods|] == pods;
  }

  method GetPodSlices(pods: seq<Pod>, replicas: nat) returns (slices: array<seq<Pod>>)
    ensures fresh(slices) && slices.Length == replicas
    ensures forall i :: 0 <= i < replicas ==> slices[i] == Slot(pods, i, replicas)
    ensures forall i: nat, p :: i < replicas ==> (p in slices[i] <==> p in pods && LabelledFor(p, i))
  {
    slices := new seq<Pod>[replicas](_ => []);
    for k := 0 to |pods|
      invariant forall i :: 0 <= i < replicas ==> slices[i] == Slot(pods[..k], i, replicas)
    {
      assert pods[..k + 1][..k] == pods[..k];
      var pod := pods[k];
      if INDEX_LABEL !in pod.labels {
        continue;
      }
      var index := Atoi(pod.labels[INDEX_LABEL]);
      if index == None {
        continue;
      }
      if index.value < 0 || index.value >= replicas {
      } else {
        slices[index.value] := slices[index.value] + [pod];
      }
    }
    assert pods[..|pods|] == pods;
    forall i: nat, p | i < replicas ensures p in slices[i] <==> p in pods && LabelledFor(p, i) {
      SliceMembers(pods, i, replicas, p);
    }
  }

  // ----- the slots are a partition -----

  /** The pod's index label is there and parses to this number. */
  predicate LabelledFor(p: Pod, i: int) {
    "caffe2_replica_index" in p.labels && Atoi(p.labels["caffe2_replica_index"]) == Some(i)
  }

  /** A label that is missing, does not parse, or is out of range names no slot. */
  lemma SlotOfIs(p: Pod, replicas: nat, i: nat)
    ensures SlotOf(p, replicas) == Some(i) <==> i < replicas && LabelledFor(p, i)
  {
  }

  /** A slot holds exactly the listed pods whose label parses to it. */
  lemma SliceMembers(pods: seq<Pod>, i: nat, replicas: nat, p: Pod)
    requires i < replicas
    ensures p in Slot(pods, i, replicas) <==> p in pods && LabelledFor(p, i)
  {
    SlotMembers(pods, i, replicas, p);
    SlotOfIs(p, replicas, i);
  }

  /** The worker pods are exactly those that say so; pods of other types, or of none, are left out. */
  lemma WorkersAre(pods: seq<Pod>, p: Pod)
    ensures p in OfType(pods, "worker") <==>
      p in pods && "caffe2_replica_type" in p.labels && p.labels["caffe2_replica_type"] == "worker"
  {
    WorkersMembers(pods, p);
    assert TYPE_LABEL in map[TYPE_LABEL := WORKER];
  }

  predicate CoversType(pods: seq<Pod>, kind: string, at: seq<nat>) {
    forall p :: 0 <= p < |pods| ==> (p in at <==> HasType(pods[p], kind))
  }

  lemma CoversTypeNext(pods: seq<Pod>, pod: Pod, more: seq<Pod>, kind: string, at: seq<nat>)
    requires CoversType(pods, kind, at) && more == pods + [pod] && forall j :: 0 <= j < |at| ==> at[j] < |pods|
    ensures CoversType(more, kind, if HasType(pod, kind) then at + [|pods|] else at)
  {
  }

  /** The filter keeps the list's order: `at` gives the increasing positions of the pods of the type. */
  lemma {:induction false} OfTypeIsSubsequence(pods: seq<Pod>, kind: string) returns (at: seq<nat>)
    ensures Picks(pods, OfType(pods, kind), at) && CoversType(pods, kind, at)
  {
    if |pods| == 0 {
      at := [];
    } else {
      var k := |pods| - 1;
      var before := OfTypeIsSubsequence(pods[..k], kind);
      PicksNext(pods[..k], pods[k], pods, OfType(pods[..k], kind), before);
      CoversTypeNext(pods[..k], pods[k], pods, kind, before);
      at := if HasType(pods[k], kind) then before + [k] else before;
    }
  }

  /** A slot holds exactly the listed pods whose label names it. */
  lemma {:induction false} SlotMembers(pods: seq<Pod>, i: nat, replicas: nat, p: Pod)
    ensures p in Slot(pods, i, replicas) <==> p in pods && SlotOf(p, replicas) == Some(i)
  {
    if |pods| > 0 {
      var k := |pods| - 1;
      SlotMembers(pods[..k], i, replicas, p);
      assert pods == pods[..k] + [pods[k]];
    }
  }

  lemma {:induction false} WorkersMembers(pods: seq<Pod>, p: Pod)
    ensures p in Workers(pods) <==> p in pods && IsWorker(p)
  {
    if |pods| > 0 {
      var k := |pods| - 1;
      WorkersMembers(pods[..k], p);
      assert pods == pods[..k] + [pods[k]];
    }
  }

  /** `at` lists every position whose pod names slot i, and no other. */
  predicate Covers(pods: seq<Pod>, i: nat, replicas: nat, at: seq<nat>) {
    forall p :: 0 <= p < |pods| ==> (p in at <==> SlotOf(pods[p], replicas) == Some(i))
  }

  lemma CoversNext(pods: seq<Pod>, pod: Pod, more: seq<Pod>, i: nat, replicas: nat, at: seq<nat>)
    requires Covers(pods, i, replicas, at) && more == pods + [pod] && forall j :: 0 <= j < |at| ==> at[j] < |pods|
    ensures Covers(more, i, replicas, if SlotOf(pod, replicas) == Some(i) then at + [|pods|] else at)
  {
  }

  /** Order is kept: `at` gives the increasing list positions of a slot's pods, and leaves out no
      position whose pod belongs there. */
  lemma {:induction false} SlotIsSubsequence(pods: seq<Pod>, i: nat, replicas: nat) returns (at: seq<nat>)
    ensures Picks(pods, Slot(pods, i, replicas), at)
    ensures Covers(pods, i, replicas, at)
  {
    if |pods| == 0 {
      at := [];
    } else {
      var k := |pods| - 1;
      var before := SlotIsSubsequence(pods[..k], i, replicas);
      PicksNext(pods[..k], pods[k], pods, Slot(pods[..k], i, replicas), before);
      CoversNext(pods[..k], pods[k], pods, i, replicas, before);
      at := if SlotOf(pods[k], replicas) == Some(i) then before + [k] else before;
    }
  }

  /** All slots together. */
  function Together(slots: seq<seq<Pod>>): multiset<Pod> {
    if |slots| == 0 then multiset{}
    else
      var k := |slots| - 1;
      Together(slots[..k]) + multiset(slots[k])
  }

  /** The pod's label parses to the number of some slot. */
  predicate NamesSlot(p: Pod, replicas: nat) {
    && "caffe2_replica_index" in p.labels
    && var index := Atoi(p.labels["caffe2_replica_index"]);
       index.Some? && 0 <= index.value < replicas
  }

  /** The listed pods whose label names a slot. */
  function Placed(pods: seq<Pod>, replicas: nat): seq<Pod> {
    if |pods| == 0 then []
    else
      var k := |pods| - 1;
      Placed(pods[..k], replicas) + (if NamesSlot(pods[k], replicas) then [pods[k]] else [])
  }

  /** How often a pod comes up in a list: as often as the list has it, if it belongs there at all. */
  function Times(pods: seq<Pod>, p: Pod, belongs: bool): nat {
    if belongs then multiset(pods)[p] else 0
  }

  lemma TimesNext(pods: seq<Pod>, last: Pod, more: seq<Pod>, p: Pod, belongs: bool)
    requires more == pods + [last]
    ensures Times(more, p, belongs) == Times(pods, p, belongs) + (if belongs && last == p then 1 else 0)
  {
  }

  lemma {:induction false} SlotCount(pods: seq<Pod>, i: nat, replicas: nat, p: Pod)
    ensures multiset(Slot(pods, i, replicas))[p] == Times(pods, p, SlotOf(p, replicas) == Some(i))
  {
    if |pods| > 0 {
      var k := |pods| - 1;
      SlotCount(pods[..k], i, replicas, p);
      TimesNext(pods[..k], pods[k], pods, p, SlotOf(p, replicas) == Some(i));
    }
  }

  lemma {:induction false} PlacedCount(pods: seq<Pod>, replicas: nat, p: Pod)
    ensures multiset(Placed(pods, replicas))[p] == Times(pods, p, NamesSlot(p, replicas))
  {
    if |pods| > 0 {
      var k := |pods| - 1;
      PlacedCount(pods[..k], replicas, p);
      TimesNext(pods[..k], pods[k], pods, p, NamesSlot(p, replicas));
    }
  }

  /** A pod that is in one slot at most is in all together as often as in that one. */
  lemma {:induction false} TogetherCount(slots: seq<seq<Pod>>, p: Pod, s: Option<nat>, times: nat)
    requires forall i: nat :: i < |slots| ==> multiset(slots[i])[p] == if s == Some(i) then times else 0
    ensures Together(slots)[p] == if s.Some? && s.value < |slots| then times else 0
  {
    if |slots| > 0 {
      TogetherCount(slots[..|slots| - 1], p, s, times);
    }
  }

  /** Nothing is lost or doubled: over all slots, the pods placed are exactly the listed pods whose
      label parses to an index below replicas. */
  lemma SlotsPartition(pods: seq<Pod>, replicas: nat, slots: seq<seq<Pod>>)
    requires |slots| == replicas && forall i: nat :: i < replicas ==> slots[i] == Slot(pods, i, replicas)
    ensures Together(slots) == multiset(Placed(pods, replicas))
  {
    forall p ensures Together(slots)[p] == multiset(Placed(pods, replicas))[p] {
      PodIsPlacedOnce(pods, replicas, slots, p);
    }
  }

  lemma PodIsPlacedOnce(pods: seq<Pod>, replicas: nat, slots: seq<seq<Pod>>, p: Pod)
    requires |slots| == replicas && forall i: nat :: i < replicas ==> slots[i] == Slot(pods, i, replicas)
    ensures Together(slots)[p] == multiset(Placed(pods, replicas))[p]
  {
    forall i: nat | i < replicas
      ensures multiset(slots[i])[p] == if SlotOf(p, replicas) == Some(i) then multiset(pods)[p] else 0
    {
      SlotCount(pods, i, replicas, p);
    }
    TogetherCount(slots, p, SlotOf(p, replicas), multiset(pods)[p]);
    PlacedCount(pods, replicas, p);
    NamesSlotIs(p, replicas);
  }

  lemma NamesSlotIs(p: Pod, replicas: nat)
    ensures NamesSlot(p, replicas) <==> SlotOf(p, replicas).Some?
    ensures SlotOf(p, replicas).Some? ==> SlotOf(p, replicas).value < replicas
  {
  }

  /** No pod is in two slots. */
  lemma SlotsDisjoint(pods: seq<Pod>, replicas: nat, i: nat, j: nat, p: Pod)
    requires i != j && p in Slot(pods, i, replicas)
    ensures p !in Slot(pods, j, replicas)
  {
    SlotMembers(pods, i, replicas, p);
    SlotMembers(pods, j, replicas, p);
  }

  // ----- create, claim and bucket undo each other -----

  /** The pod createNewPod asks for at slot i. */
  function PodAt(job: JobInfo, t: TemplateValue, i: nat): NewPod
    requires i < job.replicas as int
  {
    PrintParse(i);
    PodFor(job, t, WORKER, Itoa(i), ConfigFor(job, WORKER, Itoa(i)).value)
  }

  /** What worker i is told about the cluster and its place in it. */
  function WorkerConfig(job: JobInfo, i: nat): Caffe2Config
    requires job.replicas >= 0
  {
    Caffe2Config(ClusterOf(job.Key(), job.replicas as nat), TaskSpec(WORKER, i))
  }

  /** For every slot the config exists, so the silent early return is never taken from the slot loop. */
  lemma ConfigExists(job: JobInfo, i: nat)
    requires i < job.replicas as int
    ensures ConfigFor(job, WORKER, Itoa(i)) == Some(WorkerConfig(job, i))
  {
    PrintParse(i);
  }

  /** For every job, slot and template (even one that sets the reserved labels): the pod made for
      slot i passes the pod control's checks, is claimed with no patch at its next listing, passes
      the worker filter, and lands in slot i and no other. */
  lemma CreatedPodComesBack(job: JobInfo, t: TemplateValue, i: nat, name: string, uid: UID, phase: Phase)
    requires i < job.replicas as int
    ensures
      var asked := PodAt(job, t, i);
      var pod := Admit(asked, name, uid, phase);
      && ValidateControllerRef(Some(OwnerRefFor(job.name, job.uid))) == None
      && asked.ownerRefs == [OwnerRefFor(job.name, job.uid)]
      && asked.labels != map[]
      && AtMostOneController(asked.ownerRefs)
      && pod.namespace == job.namespace
      && Decide(job.AsOwner(), pod) == Keep
      && IsWorker(pod) && SlotOf(pod, job.replicas as nat) == Some(i)
  {
    PrintParse(i);
    var asked := PodAt(job, t, i);
    assert WorkerLabels(job, WORKER, Itoa(i)).Keys <= asked.labels.Keys;
    assert asked.labels[TYPE_LABEL] == WORKER && asked.labels[INDEX_LABEL] == Itoa(i);
    assert ControllerIn(asked.ownerRefs) == Some(OwnerRefFor(job.name, job.uid));
    assert TYPE_LABEL in asked.labels;
    assert Matches(job.AsOwner().selector, asked.labels);
  }

  // ----- worker identity -----

  /** The value of the last variable with a name, which is the one a container sees. */
  function Lookup(env: seq<EnvVar>, name: string): Option<EnvValue> {
    if |env| == 0 then None
    else if env[|env| - 1].name == name then Some(env[|env| - 1].value)
    else Lookup(env[..|env| - 1], name)
  }

  lemma {:induction false} LookupAppended(env: seq<EnvVar>, more: seq<EnvVar>, name: string)
    ensures Lookup(more, name).Some? ==> Lookup(env + more, name) == Lookup(more, name)
  {
    if |more| > 0 {
      LookupAppended(env, more[..|more| - 1], name);
      assert (env + more)[..|env + more| - 1] == env + more[..|more| - 1];
    }
  }

  /** Each container gets the template's variables followed by exactly seven more, and the identity
      they carry is consistent: the shard id, the config's task index and the index label are the
      same number, the cluster list has NUM_SHARDS hosts, and its entry at that number is the general
      name made of the pod's own index label. */
  lemma WorkerIdentityAgrees(job: JobInfo, t: TemplateValue, i: nat, c: nat)
    requires i < job.replicas as int && c < |t.containers|
    ensures
      var pod, env := PodAt(job, t, i), PodAt(job, t, i).containers[c].env;
      var config := WorkerConfig(job, i);
      && |pod.containers| == |t.containers|
      && |env| == |t.containers[c].env| + 7 && env[..|t.containers[c].env|] == t.containers[c].env
      && Lookup(env, "REDIS_HOST") == Some(Text(job.redisHost))
      && Lookup(env, "REDIS_PORT") == Some(Text(Itoa(job.redisPort)))
      && Lookup(env, "NFS_PATH") == Some(Text(job.nfsPath))
      && Lookup(env, "SHARD_ID") == Some(Text(pod.labels[INDEX_LABEL]))
      && Lookup(env, "NUM_SHARDS") == Some(Text(Itoa(job.replicas as nat)))
      && Lookup(env, "RUN_ID") == Some(Text(job.runtimeId))
      && Lookup(env, "CAFFE2_CONFIG") == Some(Json(config))
      && Atoi(pod.labels[INDEX_LABEL]) == Some(i) && config.task == TaskSpec(WORKER, i)
      && config.cluster.Keys == {WORKER} && |config.cluster[WORKER]| == job.replicas as nat
      && config.cluster[config.task.kind][config.task.index]
           == GenGeneralName(job.Key(), WORKER, pod.labels[INDEX_LABEL]) + ":" + PORT
  {
    ConfigExists(job, i);
    PrintParse(i);
    var config := WorkerConfig(job, i);
    var more := BaseEnv(job, Itoa(i)) + [EnvVar("CAFFE2_CONFIG", Json(config))];
    var own := t.containers[c].env;
    assert PodAt(job, t, i).containers[c].env == own + more;
    AppendedValues(job, Itoa(i), config);
    LookupAppended(own, more, "REDIS_HOST");
    LookupAppended(own, more, "REDIS_PORT");
    LookupAppended(own, more, "NFS_PATH");
    LookupAppended(own, more, "SHARD_ID");
    LookupAppended(own, more, "NUM_SHARDS");
    LookupAppended(own, more, "RUN_ID");
    LookupAppended(own, more, "CAFFE2_CONFIG");
  }

  lemma AppendedValues(job: JobInfo, index: string, config: Caffe2Config)
    requires job.replicas >= 0
    ensures
      var more := BaseEnv(job, index) + [EnvVar("CAFFE2_CONFIG", Json(config))];
      && |more| == 7
      && Lookup(more, "REDIS_HOST") == Some(Text(job.redisHost))
      && Lookup(more, "REDIS_PORT") == Some(Text(Itoa(job.redisPort)))
      && Lookup(more, "NFS_PATH") == Some(Text(job.nfsPath))
      && Lookup(more, "SHARD_ID") == Some(Text(index))
      && Lookup(more, "NUM_SHARDS") == Some(Text(Itoa(job.replicas as nat)))
      && Lookup(more, "RUN_ID") == Some(Text(job.runtimeId))
      && Lookup(more, "CAFFE2_CONFIG") == Some(Json(config))
  {
    var more := BaseEnv(job, index) + [EnvVar("CAFFE2_CONFIG", Json(config))];
    OnlyNamed(more, 0);
    OnlyNamed(more, 1);
    OnlyNamed(more, 2);
    OnlyNamed(more, 3);
    OnlyNamed(more, 4);
    OnlyNamed(more, 5);
    OnlyNamed(more, 6);
  }

  /** A variable whose name no later one repeats is the one seen. */
  lemma {:induction false} OnlyNamed(env: seq<EnvVar>, k: nat)
    requires k < |env| && forall j :: k < j < |env| ==> env[j].name != env[k].name
    ensures Lookup(env, env[k].name) == Some(env[k].value)
  {
    if k < |env| - 1 {
      OnlyNamed(env[..|env| - 1], k);
    }
  }

  /** The variables added to the template's, one by one. */
  lemma AddedVariables(job: JobInfo, t: TemplateValue, i: nat, c: nat)
    requires i < job.replicas as int && c < |t.containers|
    ensures PodAt(job, t, i).containers[c] == ContainerValue(
      t.containers[c].name,
      t.containers[c].env + [
        EnvVar("REDIS_HOST", Text(job.redisHost)),
        EnvVar("REDIS_PORT", Text(Itoa(job.redisPort))),
        EnvVar("NFS_PATH", Text(job.nfsPath)),
        EnvVar("SHARD_ID", Text(Itoa(i))),
        EnvVar("NUM_SHARDS", Text(Itoa(job.replicas as nat))),
        EnvVar("RUN_ID", Text(job.runtimeId)),
        EnvVar("CAFFE2_CONFIG", Json(WorkerConfig(job, i)))])
  {
    ConfigExists(job, i);
  }

  /** What else the pod for slot i is: the five reserved labels override the template's and all others stay,
      annotations and finalizers are the template's, and the job is its one owner and controller. */
  lemma CreatedPodIs(job: JobInfo, t: TemplateValue, i: nat)
    requires i < job.replicas as int
    ensures
      var pod, reserved := PodAt(job, t, i), Reserved(job, i);
      && pod.namespace == job.namespace && pod.generateName == PodsPrefix(job.name)
      && pod.labels.Keys == OrEmpty(t.labels).Keys + reserved.Keys
      && (forall k :: k in reserved ==> pod.labels[k] == reserved[k])
      && (forall k :: k in OrEmpty(t.labels) && k !in reserved ==> pod.labels[k] == t.labels.value[k])
      && pod.annotations == (if t.annotations.Some? then t.annotations.value else map[])
      && pod.finalizers == t.finalizers && |pod.containers| == |t.containers|
      && pod.ownerRefs ==
           [OwnerRef("kubeflow.org/v1alpha1", "Caffe2Job", job.name, job.uid, Some(true), Some(true))]
  {
  }

  /** The labels that belong to the controller; the first three are also the job's selector. */
  function Reserved(job: JobInfo, i: nat): Labels {
    map["group_name" := "kubeflow.org",
        "caffe2_job_key" := ReplaceSlash(KeyFunc(job.namespace, job.name)),
        "runtime_id" := job.runtimeId,
        "caffe2_replica_type" := "worker",
        "caffe2_replica_index" := Itoa(i)]
  }

  lemma SelectorIs(job: JobInfo, i: nat)
    ensures job.AsOwner().selector == Reserved(job, i) - {"caffe2_replica_type", "caffe2_replica_index"}
  {
  }

  /** All workers are told the same cluster, whose hosts are pairwise distinct, and no two workers
      are told the same place in it. */
  lemma WorkersShareOneCluster(job: JobInfo, i: nat, j: nat)
    requires i < job.replicas as int && j < job.replicas as int
    ensures
      var mine, theirs := WorkerConfig(job, i), WorkerConfig(job, j);
      && mine.cluster == theirs.cluster
      && (i != j ==> mine.cluster[WORKER][i] != mine.cluster[WORKER][j])
      && (i != j ==> mine.task.index != theirs.task.index && Itoa(i) != Itoa(j))
  {
    if i != j {
      if Host(job.Key(), i) == Host(job.Key(), j) {
        HostsDistinct(job.Key(), i, j);
      }
      if Itoa(i) == Itoa(j) {
        ItoaInjective(i, j);
      }
    }
  }

  /** The shard id that container c of a pod is told. */
  function ShardId(pod: NewPod, c: nat): Option<int>
    requires c < |pod.containers|
  {
    match Lookup(pod.containers[c].env, "SHARD_ID")
    case Some(Text(text)) => Atoi(text)
    case _ => None
  }

  /** Over all slots the shard ids are exactly 0 to replicas - 1, each once. */
  lemma ShardIdsAre(job: JobInfo, t: TemplateValue, c: nat, k: int)
    requires job.replicas >= 0 && c < |t.containers|
    ensures (exists i: nat :: i < job.replicas as int && ShardId(PodAt(job, t, i), c) == Some(k)) <==>
      0 <= k < job.replicas as int
    ensures forall i: nat, j: nat :: i < j < job.replicas as int ==>
      ShardId(PodAt(job, t, i), c) != ShardId(PodAt(job, t, j), c)
  {
    forall i: nat | i < job.replicas as int ensures ShardId(PodAt(job, t, i), c) == Some(i) {
      WorkerIdentityAgrees(job, t, i, c);
    }
    if 0 <= k < job.replicas as int {
      assert ShardId(PodAt(job, t, k), c) == Some(k);
    }
  }

  // ----- the cluster list and the names of the pods -----

  /** The list names a pod at its own place exactly if the pod bears the worker's general name. */
  lemma ListedIff(job: JobInfo, i: nat, name: string)
    requires i < job.replicas as int
    ensures
      var config := WorkerConfig(job, i);
      config.cluster[config.task.kind][config.task.index] == name + ":" + PORT <==>
        name == GenGeneralName(job.Key(), WORKER, Itoa(i))
  {
    var general := GenGeneralName(job.Key(), WORKER, Itoa(i));
    assert (general + ":" + PORT)[..|general|] == general;
    assert (name + ":" + PORT)[..|name|] == name;
    assert |general + ":" + PORT| == |general| + 5 && |name + ":" + PORT| == |name| + 5;
  }

  /** No entry of the cluster list names a pod whose name begins like the created pod's prefix, as far as the
      server keeps it, and goes on for fewer than eight characters (the server adds five): the general names
      are all longer. */
  lemma GeneratedNamesAreNotListed(job: JobInfo, t: TemplateValue, i: nat, base: string, suffix: string, k: nat)
    requires i < job.replicas as int && k < job.replicas as int
    requires base <= PodAt(job, t, i).generateName && |suffix| < 8
    ensures ClusterOf(job.Key(), job.replicas as nat)[WORKER][k] != base + suffix + ":" + PORT
  {
    assert |base| <= |job.name| + 1;
  }
}
