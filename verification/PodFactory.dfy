/** Building and creating one worker pod: createNewPod in controller_pod.go, genCaffe2ConfigJSONStr
    in config.go, genOwnerReference in controller.go and the pod control in controller_utils.go. */
module PodFactory {
  import opened Wrappers
  import opened Kube
  import opened Types
  import opened Strconv
  import opened Naming
  import opened Claims
  import opened Api

  /** The part of a Caffe2Job that does not change along a run, defaults filled in. */
  datatype JobInfo = JobInfo(
    namespace: string, name: string, uid: UID, deleting: bool, runtimeId: string, replicas: int32,
    redisHost: string, redisPort: nat, nfsPath: string)
  {
    function Key(): string {
      KeyFunc(namespace, name)
    }

    /** The job as the reference manager sees it during a pass. */
    function AsOwner(): Owner {
      Owner(namespace, name, uid, deleting, GenLabels(runtimeId, Key()))
    }
  }

  datatype TemplateValue = TemplateValue(
    labels: Option<Labels>, annotations: Option<Labels>, finalizers: seq<string>, containers: seq<ContainerValue>)

  class Container {
    const name: string
    var env: seq<EnvVar>

    constructor (name: string, env: seq<EnvVar>)
      ensures this.name == name && this.env == env
    {
      this.name := name;
      this.env := env;
    }

    ghost function Value(): ContainerValue
      reads this
    {
      ContainerValue(name, env)
    }
  }

  ghost function Values(containers: seq<Container>): seq<ContainerValue>
    reads containers
  {
    seq(|containers|, i requires 0 <= i < |containers| reads containers => containers[i].Value())
  }

  /** A nil map is None. */
  class PodTemplate {
    var labels: Option<Labels>
    const annotations: Option<Labels>
    const finalizers: seq<string>
    const containers: seq<Container>

    constructor (labels: Option<Labels>, annotations: Option<Labels>, finalizers: seq<string>,
                 containers: seq<Container>)
      ensures this.labels == labels && this.annotations == annotations
      ensures this.finalizers == finalizers && this.containers == containers
    {
      this.labels := labels;
      this.annotations := annotations;
      this.finalizers := finalizers;
      this.containers := containers;
    }

    ghost function Value(): TemplateValue
      reads this, containers
    {
      TemplateValue(labels, annotations, finalizers, Values(containers))
    }

    /** An equal template that shares nothing with this one. */
    method DeepCopy() returns (copy: PodTemplate)
      ensures fresh(copy) && fresh(copy.containers)
      ensures |copy.containers| == |containers|
      ensures forall i, j :: 0 <= i < j < |copy.containers| ==> copy.containers[i] != copy.containers[j]
      ensures copy.Value() == Value()
    {
      var cs: seq<Container> := [];
      for k := 0 to |containers|
        invariant |cs| == k && fresh(cs)
        invariant forall i, j :: 0 <= i < j < k ==> cs[i] != cs[j]
        invariant forall i :: 0 <= i < k ==> cs[i].Value() == containers[i].Value()
      {
        var c := new Container(containers[k].name, containers[k].env);
        cs := cs + [c];
      }
      copy := new PodTemplate(labels, annotations, finalizers, cs);
      assert Values(copy.containers) == Values(containers);
    }
  }

  // ----- the pod to be built, as a value -----

  function OrEmpty(labels: Option<Labels>): Labels {
    if labels.Some? then labels.value else map[]
  }

  function WorkerLabels(job: JobInfo, rt: string, index: string): Labels {
    GenLabels(job.runtimeId, job.Key())[TYPE_LABEL := rt][INDEX_LABEL := index]
  }

  function BaseEnv(job: JobInfo, index: string): seq<EnvVar>
    requires job.replicas >= 0
  {
    [EnvVar("REDIS_HOST", Text(job.redisHost)),
     EnvVar("REDIS_PORT", Text(Itoa(job.redisPort))),
     EnvVar("NFS_PATH", Text(job.nfsPath)),
     EnvVar("SHARD_ID", Text(index)),
     EnvVar("NUM_SHARDS", Text(Itoa(job.replicas as nat))),
     EnvVar("RUN_ID", Text(job.runtimeId))]
  }

  /** None stands for the empty text, which an index that does not parse produces. */
  function ConfigFor(job: JobInfo, rt: string, index: string): Option<Caffe2Config>
    requires job.replicas >= 0
  {
    match ParseInt32(index)
    case None => None
    case Some(i) => Some(Caffe2Config(ClusterOf(job.Key(), job.replicas as nat), TaskSpec(rt, i)))
  }

  function ExtendEnv(containers: seq<ContainerValue>, more: seq<EnvVar>): seq<ContainerValue> {
    seq(|containers|, i requires 0 <= i < |containers| => ContainerValue(containers[i].name, containers[i].env + more))
  }

  function PodFor(job: JobInfo, t: TemplateValue, rt: string, index: string, config: Caffe2Config): NewPod
    requires job.replicas >= 0
  {
    NewPod(
      job.namespace,
      PodsPrefix(job.name),
      OrEmpty(t.labels) + WorkerLabels(job, rt, index),
      OrEmpty(t.annotations),
      t.finalizers,
      [OwnerRefFor(job.name, job.uid)],
      ExtendEnv(t.containers, BaseEnv(job, index) + [EnvVar("CAFFE2_CONFIG", Json(config))]))
  }

  // ----- controller_utils.go -----

  predicate Alphanumeric(c: char) {
    'a' <= c <= 'z' || '0' <= c <= '9'
  }

  /** A DNS-1123 subdomain: labels joined by dots, each beginning and ending with a letter or digit. */
  predicate IsSubdomain(s: string) {
    && 0 < |s| <= 253
    && (forall i :: 0 <= i < |s| ==> Alphanumeric(s[i]) || s[i] == '-' || s[i] == '.')
    && Alphanumeric(s[0]) && Alphanumeric(s[|s| - 1])
    && forall i :: 0 < i < |s| - 1 && s[i] == '.' ==> Alphanumeric(s[i - 1]) && Alphanumeric(s[i + 1])
  }

  /** The last two characters of a text ending in a dash give way to one letter. */
  function MaskTrailingDash(s: string): string {
    if |s| >= 2 && s[|s| - 1] == '-' then s[..|s| - 2] + "a" else s
  }

  /** The name the server is to complete: the owner's, with a dash if that is not too long. */
  function PodsPrefix(name: string): string {
    if IsSubdomain(MaskTrailingDash(name + "-")) then name + "-" else name
  }

  /** Names are subdomains, and the dash replaces their last character before the check: so it is always there. */
  lemma NamesGetADash(name: string)
    requires IsSubdomain(name)
    ensures PodsPrefix(name) == name + "-"
  {
    var masked := MaskTrailingDash(name + "-");
    assert (name + "-")[..|name| - 1] == name[..|name| - 1];
    assert |masked| == |name| && forall i :: 0 <= i < |name| - 1 ==> masked[i] == name[i];
  }

  /** For any name: the dash is added exactly if the name, its last character replaced by a letter, is a
      subdomain. */
  lemma PrefixIff(name: string)
    requires |name| > 0
    ensures
      if IsSubdomain(name[..|name| - 1] + "a") then PodsPrefix(name) == name + "-" else PodsPrefix(name) == name
  {
    assert (name + "-")[..|name| - 1] == name[..|name| - 1];
  }

  /** The pod control accepts a reference exactly if it names a version and a kind, is the controller's and
      blocks the owner's deletion. */
  lemma ValidIff(ref: Option<OwnerRef>)
    ensures ValidateControllerRef(ref) == None <==>
      && ref.Some? && ref.value.apiVersion != "" && ref.value.kind != ""
      && ref.value.IsController() && ref.value.blockOwnerDeletion == Some(true)
  {
  }

  function ValidateControllerRef(ref: Option<OwnerRef>): Option<Error> {
    if ref == None then Some(BadControllerRef)
    else if |ref.value.apiVersion| == 0 then Some(BadControllerRef)
    else if |ref.value.kind| == 0 then Some(BadControllerRef)
    else if ref.value.controller != Some(true) then Some(BadControllerRef)
    else if ref.value.blockOwnerDeletion != Some(true) then Some(BadControllerRef)
    else None
  }

  /** Copies a label or annotation map entry by entry; a nil map gives an empty one. */
  method CopyEntries(source: Option<Labels>) returns (desired: Labels)
    ensures desired == OrEmpty(source)
  {
    desired := map[];
    var left := OrEmpty(source).Keys;
    while left != {}
      invariant left <= OrEmpty(source).Keys
      invariant desired.Keys == OrEmpty(source).Keys - left
      invariant forall k :: k in desired ==> desired[k] == OrEmpty(source)[k]
      decreases left
    {
      var k :| k in left;
      desired := desired[k := OrEmpty(source)[k]];
      left := left - {k};
    }
  }

  class PodControl {
    const api: Client

    constructor (api: Client)
      ensures this.api == api
    {
      this.api := api;
    }

    /** `parent` is the name of the object that the pod is made for. */
    method GetPodFromTemplate(namespace: string, template: PodTemplate, parent: string, ref: Option<OwnerRef>)
      returns (pod: NewPod)
      ensures
        var t := template.Value();
        pod == NewPod(namespace, PodsPrefix(parent), OrEmpty(t.labels), OrEmpty(t.annotations), t.finalizers,
                      if ref.Some? then [ref.value] else [], t.containers)
    {
      var desiredLabels := CopyEntries(template.labels);
      var desiredAnnotations := CopyEntries(template.annotations);
      var spec: seq<ContainerValue> := [];
      for k := 0 to |template.containers|
        invariant spec == Values(template.containers)[..k]
      {
        spec := spec + [ContainerValue(template.containers[k].name, template.containers[k].env)];
      }
      pod := NewPod(namespace, PodsPrefix(parent), desiredLabels, desiredAnnotations, template.finalizers, [], spec);
      if ref != None {
        pod := pod.(ownerRefs := pod.ownerRefs + [ref.value]);
      }
    }

    /** Creates a pod unless the reference is malformed or the template has no labels. */
    method CreatePodsWithControllerRef(namespace: string, template: PodTemplate, parent: string, ref: Option<OwnerRef>)
      returns (err: Option<Error>)
      modifies api
      ensures ValidateControllerRef(ref) != None ==> err == ValidateControllerRef(ref) && api.log == old(api.log)
      ensures ValidateControllerRef(ref) == None && OrEmpty(old(template.labels)) == map[] ==>
        err == Some(NoLabels) && api.log == old(api.log)
      ensures ValidateControllerRef(ref) == None && OrEmpty(old(template.labels)) != map[] ==>
        var t := old(template.Value());
        && err == api.replies.create(|old(api.log)|)
        && api.log == old(api.log) + [CreatePod(NewPod(namespace, PodsPrefix(parent), OrEmpty(t.labels),
                                                        OrEmpty(t.annotations), t.finalizers,
                                                        [ref.value], t.containers))]
    {
      err := ValidateControllerRef(ref);
      if err != None {
        return;
      }
      var pod := GetPodFromTemplate(namespace, template, parent, ref);
      if pod.labels == map[] {
        return Some(NoLabels);
      }
      err := api.Create(pod);
    }

    // ----- config.go -----

    method GenCaffe2Config(job: JobInfo, rt: string, index: string) returns (config: Option<Caffe2Config>)
      requires job.replicas >= 0
      ensures config == ConfigFor(job, rt, index)
    {
      var i := ParseInt32(index);
      if i == None {
        return None;
      }
      var cluster := GenClusterSpec(job.Key(), job.replicas);
      config := Some(Caffe2Config(cluster, TaskSpec(rt, i.value)));
    }

    // ----- createNewPod in controller_pod.go -----

    method AddLabels(template: PodTemplate, labels: Labels)
      requires template.labels.Some?
      modifies template
      ensures template.labels == Some(OrEmpty(old(template.labels)) + labels)
    {
      var left := labels.Keys;
      ghost var start := template.labels.value;
      while left != {}
        invariant left <= labels.Keys
        invariant template.labels.Some?
        invariant template.labels.value.Keys == start.Keys + (labels.Keys - left)
        invariant forall k :: k in template.labels.value ==>
          template.labels.value[k] == if k in labels && k !in left then labels[k] else start[k]
        decreases left
      {
        var k :| k in left;
        template.labels := Some(template.labels.value[k := labels[k]]);
        left := left - {k};
      }
      assert template.labels.value == start + labels;
    }

    method AppendEnv(containers: seq<Container>, more: seq<EnvVar>)
      requires forall i, j :: 0 <= i < j < |containers| ==> containers[i] != containers[j]
      modifies containers
      ensures Values(containers) == ExtendEnv(old(Values(containers)), more)
    {
      for k := 0 to |containers|
        invariant forall i :: 0 <= i < k ==> containers[i].env == old(containers[i].env) + more
        invariant forall i :: k <= i < |containers| ==> containers[i].env == old(containers[i].env)
      {
        containers[k].env := containers[k].env + more;
      }
    }

    /** Builds the pod for an index from a private copy of the template and creates it. The template
        itself is not touched. A timed-out creation counts as success. An index that does not parse
        creates nothing, silently. */
    method CreateNewPod(job: JobInfo, rt: string, index: string, template: PodTemplate) returns (err: Option<Error>)
      requires job.replicas >= 0
      modifies api
      ensures
        var config := ConfigFor(job, rt, index);
        if config == None then err == None && api.log == old(api.log)
        else
          var reply := api.replies.create(|old(api.log)|);
          && api.log == old(api.log) + [CreatePod(PodFor(job, old(template.Value()), rt, index, config.value))]
          && err == (if reply != None && reply.value.IsTimeout() then None else reply)
    {
      ghost var t := template.Value();
      var controllerRef := OwnerRefFor(job.name, job.uid);
      var labels := GenLabels(job.runtimeId, job.Key());
      labels := labels[TYPE_LABEL := rt];
      labels := labels[INDEX_LABEL := index];
      var podTemplate := template.DeepCopy();
      if podTemplate.labels == None {
        podTemplate.labels := Some(map[]);
      }
      AddLabels(podTemplate, labels);
      AppendEnv(podTemplate.containers, BaseEnv(job, index));
      var config := GenCaffe2Config(job, rt, index);
      if config == None {
        return None;
      }
      var last := [EnvVar("CAFFE2_CONFIG", Json(config.value))];
      AppendEnv(podTemplate.containers, last);
      ExtendTwice(t.containers, BaseEnv(job, index), last);
      PodForIs(job, t, rt, index, config.value, podTemplate.Value());
      assert TYPE_LABEL in OrEmpty(podTemplate.labels);
      err := CreatePodsWithControllerRef(job.namespace, podTemplate, job.name, Some(controllerRef));
      if err != None && err.value.IsTimeout() {
        return None;
      } else if err != None {
        return err;
      }
    }
  }

  /** The pod made of the extended copy of the template. */
  lemma PodForIs(job: JobInfo, t: TemplateValue, rt: string, index: string, config: Caffe2Config, copy: TemplateValue)
    requires job.replicas >= 0 && copy.annotations == t.annotations && copy.finalizers == t.finalizers
    requires copy.labels == Some(OrEmpty(t.labels) + WorkerLabels(job, rt, index))
    requires
      var more := BaseEnv(job, index) + [EnvVar("CAFFE2_CONFIG", Json(config))];
      copy.containers == ExtendEnv(t.containers, more)
    ensures PodFor(job, t, rt, index, config)
      == NewPod(job.namespace, PodsPrefix(job.name), OrEmpty(copy.labels), OrEmpty(copy.annotations),
                copy.finalizers, [OwnerRefFor(job.name, job.uid)], copy.containers)
  {
  }

  lemma ExtendTwice(containers: seq<ContainerValue>, a: seq<EnvVar>, b: seq<EnvVar>)
    ensures ExtendEnv(ExtendEnv(containers, a), b) == ExtendEnv(containers, a + b)
  {
    forall i | 0 <= i < |containers|
      ensures ExtendEnv(ExtendEnv(containers, a), b)[i] == ExtendEnv(containers, a + b)[i]
    {
      assert (containers[i].env + a) + b == containers[i].env + (a + b);
    }
  }
}
