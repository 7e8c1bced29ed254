/** Job keys, the labels and selector of a job, and the general names of its workers
    (genLabels in controller.go, genGeneralName and genClusterSpec in config.go). */
module Naming {
  import opened Kube
  import opened Strconv

  const GROUP_NAME := "kubeflow.org"
  const PORT := "2222"
  const WORKER := "worker"
  const TYPE_LABEL := "caffe2_replica_type"
  const INDEX_LABEL := "caffe2_replica_index"

  /** namespace/name, or just the name of an object without namespace. */
  function KeyFunc(namespace: string, name: string): string {
    if |namespace| > 0 then namespace + "/" + name else name
  }

  function ReplaceSlash(s: string): (r: string)
    ensures |r| == |s|
    ensures forall i :: 0 <= i < |s| ==> r[i] == if s[i] == '/' then '-' else s[i]
  {
    if |s| == 0 then "" else [if s[0] == '/' then '-' else s[0]] + ReplaceSlash(s[1..])
  }

  function GenLabels(id: string, jobKey: string): Labels {
    map["group_name" := GROUP_NAME, "caffe2_job_key" := ReplaceSlash(jobKey), "runtime_id" := id]
  }

  function GenGeneralName(jobKey: string, rtype: string, index: string): string {
    ReplaceSlash(jobKey + "-" + rtype + "-" + index)
  }

  predicate SlashFree(s: string) {
    '/' !in s
  }

  // ----- jobs do not compete -----

  ghost predicate SelectorsOverlap(s: Labels, t: Labels) {
    exists labels: Labels :: Matches(s, labels) && Matches(t, labels)
  }

  /** Two jobs' selectors share a label map exactly when the runtime ids and the
      dash-joined keys agree. */
  lemma OverlapIff(id1: string, key1: string, id2: string, key2: string)
    ensures SelectorsOverlap(GenLabels(id1, key1), GenLabels(id2, key2)) <==>
      id1 == id2 && ReplaceSlash(key1) == ReplaceSlash(key2)
  {
    var s, t := GenLabels(id1, key1), GenLabels(id2, key2);
    if id1 == id2 && ReplaceSlash(key1) == ReplaceSlash(key2) {
      assert Matches(s, s) && Matches(t, s);
    }
    if SelectorsOverlap(s, t) {
      var labels: Labels :| Matches(s, labels) && Matches(t, labels);
      assert "runtime_id" in s && "caffe2_job_key" in s && "runtime_id" in t && "caffe2_job_key" in t;
      assert labels["runtime_id"] == id1 && labels["runtime_id"] == id2;
    }
  }

  lemma ReplacedKey(namespace: string, name: string)
    requires SlashFree(namespace) && SlashFree(name)
    ensures ReplaceSlash(KeyFunc(namespace, name)) == if |namespace| > 0 then namespace + "-" + name else name
  {
  }

  /** Which jobs compete for the same pods: those with equal runtime ids whose namespace and
      name, joined by a dash, agree. */
  lemma JobsCompeteIff(id1: string, ns1: string, name1: string, id2: string, ns2: string, name2: string)
    requires SlashFree(ns1) && SlashFree(name1) && SlashFree(ns2) && SlashFree(name2)
    requires |ns1| > 0 && |ns2| > 0
    ensures SelectorsOverlap(GenLabels(id1, KeyFunc(ns1, name1)), GenLabels(id2, KeyFunc(ns2, name2))) <==>
      id1 == id2 && ns1 + "-" + name1 == ns2 + "-" + name2
  {
    OverlapIff(id1, KeyFunc(ns1, name1), id2, KeyFunc(ns2, name2));
    ReplacedKey(ns1, name1);
    ReplacedKey(ns2, name2);
  }

  /** Within one namespace differently named jobs never compete. */
  lemma JobsInOneNamespaceDoNotCompete(id1: string, name1: string, id2: string, name2: string, namespace: string)
    requires SlashFree(namespace) && SlashFree(name1) && SlashFree(name2) && name1 != name2
    ensures !SelectorsOverlap(GenLabels(id1, KeyFunc(namespace, name1)), GenLabels(id2, KeyFunc(namespace, name2)))
  {
    OverlapIff(id1, KeyFunc(namespace, name1), id2, KeyFunc(namespace, name2));
    ReplacedKey(namespace, name1);
    ReplacedKey(namespace, name2);
    assert (namespace + "-" + name1)[|namespace| + 1..] == name1;
    assert (namespace + "-" + name2)[|namespace| + 1..] == name2;
  }

  /** Across namespaces they can: only the namespaced pod list keeps these two apart. */
  lemma JobsAcrossNamespacesCanCompete(id: string)
    ensures SelectorsOverlap(GenLabels(id, KeyFunc("a", "b-c")), GenLabels(id, KeyFunc("a-b", "c")))
  {
    JobsCompeteIff(id, "a", "b-c", id, "a-b", "c");
    assert "a" + "-" + "b-c" == "a-b-c" == "a-b" + "-" + "c";
  }

  // ----- the cluster list -----

  function Host(jobKey: string, i: nat): string {
    GenGeneralName(jobKey, WORKER, Itoa(i)) + ":" + PORT
  }

  /** The worker addresses: one for every index below replicas, in order. */
  method GenClusterSpec(jobKey: string, replicas: int32) returns (cluster: map<string, seq<string>>)
    requires replicas >= 0
    ensures cluster.Keys == {WORKER}
    ensures |cluster[WORKER]| == replicas as int
    ensures forall i :: 0 <= i < replicas as int ==> cluster[WORKER][i] == Host(jobKey, i)
    ensures cluster == ClusterOf(jobKey, replicas as int)
  {
    var replicaNames: seq<string> := [];
    var i: int32 := 0;
    while i < replicas
      invariant 0 <= i <= replicas
      invariant replicaNames == Hosts(jobKey, i as int)
    {
      HostsNext(jobKey, i as int);
      var host := GenGeneralName(jobKey, WORKER, Itoa(i as int)) + ":" + PORT;
      replicaNames := replicaNames + [host];
      i := i + 1;
    }
    cluster := map[WORKER := replicaNames];
  }

  /** A general name is the key, with a dash for each slash, the type and the index, joined by dashes. */
  lemma GeneralNameIs(key: string, rtype: string, index: string)
    requires SlashFree(rtype) && SlashFree(index)
    ensures GenGeneralName(key, rtype, index) == ReplaceSlash(key) + ("-" + rtype + "-" + index)
  {
    var tail := "-" + rtype + "-" + index;
    Regroup(key, "-", rtype, "-", index);
    TailFree(rtype, index);
    ReplaceAppended(key, tail);
    ReplaceFree(tail);
  }

  lemma Regroup(a: string, b: string, c: string, d: string, e: string)
    ensures a + b + c + d + e == a + (b + c + d + e)
  {
  }

  lemma TailFree(rtype: string, index: string)
    requires SlashFree(rtype) && SlashFree(index)
    ensures SlashFree("-" + rtype + "-" + index)
  {
  }

  /** A worker's address: namespace, job name, type and index joined by dashes, and the port. */
  lemma HostIs(namespace: string, name: string, i: nat)
    requires SlashFree(namespace) && SlashFree(name) && |namespace| > 0
    ensures Host(KeyFunc(namespace, name), i)
      == (namespace + "-" + name) + ("-" + "worker" + "-" + Itoa(i)) + ":" + "2222"
  {
    ItoaSlashFree(i);
    ReplacedKey(namespace, name);
    GeneralNameIs(KeyFunc(namespace, name), WORKER, Itoa(i));
  }

  lemma ReplaceAppended(a: string, b: string)
    ensures ReplaceSlash(a + b) == ReplaceSlash(a) + ReplaceSlash(b)
  {
  }

  lemma ReplaceFree(s: string)
    requires SlashFree(s)
    ensures ReplaceSlash(s) == s
  {
  }

  function Hosts(jobKey: string, n: nat): seq<string> {
    seq(n, i requires 0 <= i < n => Host(jobKey, i))
  }

  lemma HostsNext(jobKey: string, n: nat)
    ensures Hosts(jobKey, n + 1) == Hosts(jobKey, n) + [Host(jobKey, n)]
  {
  }

  function ClusterOf(jobKey: string, replicas: nat): map<string, seq<string>> {
    map[WORKER := Hosts(jobKey, replicas)]
  }

  /** The hosts of one job are pairwise distinct. */
  lemma HostsDistinct(jobKey: string, i: nat, j: nat)
    requires Host(jobKey, i) == Host(jobKey, j)
    ensures i == j
  {
    ItoaSlashFree(i);
    ItoaSlashFree(j);
    var p := jobKey + "-" + WORKER + "-";
    HostSuffix(p, Itoa(i));
    HostSuffix(p, Itoa(j));
    var a, b := Host(jobKey, i), Host(jobKey, j);
    assert a[|p|..|a| - 5] == Itoa(i) && b[|p|..|b| - 5] == Itoa(j);
    ItoaInjective(i, j);
  }

  lemma HostSuffix(p: string, s: string)
    requires SlashFree(s)
    ensures (ReplaceSlash(p + s) + ":" + PORT)[|p|..|p + s|] == s
    ensures |ReplaceSlash(p + s) + ":" + PORT| == |p| + |s| + 5
  {
  }

  lemma {:induction false} ItoaSlashFree(n: nat)
    ensures SlashFree(Itoa(n))
  {
    if n >= 10 {
      ItoaSlashFree(n / 10);
    }
  }
}
