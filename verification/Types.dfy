/** Values of the Caffe2Job API and of the pods built for it. */
module Types {
  import opened Wrappers
  import opened Kube

  /** Time stamps are opaque: nothing is claimed about their order. */
  type Time = int

  /** CAFFE2_CONFIG before it is printed as JSON. */
  datatype TaskSpec = TaskSpec(kind: string, index: int)
  datatype Caffe2Config = Caffe2Config(cluster: map<string, seq<string>>, task: TaskSpec)

  /** JSON printing is kept symbolic; a printed config is never the empty text. */
  datatype EnvValue = Text(text: string) | Json(config: Caffe2Config)
  datatype EnvVar = EnvVar(name: string, value: EnvValue)
  datatype ContainerValue = ContainerValue(name: string, env: seq<EnvVar>)

  /** A pod as it is handed to the API server for creation. The server makes its name: it cuts
      `generateName` if that is too long, and completes it. */
  datatype NewPod = NewPod(
    namespace: string, generateName: string, labels: Labels, annotations: Labels, finalizers: seq<string>,
    ownerRefs: seq<OwnerRef>, containers: seq<ContainerValue>)

  /** The pod that exists once the server has accepted a creation request. */
  function Admit(pod: NewPod, name: string, uid: UID, phase: Phase): Pod {
    Pod(pod.namespace, name, uid, pod.labels, pod.ownerRefs, false, phase)
  }

  datatype ConditionType = Created | Running | Succeeded | Failed
  datatype ConditionStatus = True | False | Unknown
  datatype Condition = Condition(
    kind: ConditionType, status: ConditionStatus, reason: string, message: string,
    lastUpdateTime: Time, lastTransitionTime: Time)

  datatype ReplicaStatus = ReplicaStatus(active: int32, succeeded: int32, failed: int32)

  datatype JobStatus = JobStatus(
    conditions: seq<Condition>, replicaStatuses: Option<ReplicaStatus>,
    startTime: Option<Time>, completionTime: Option<Time>)
}
