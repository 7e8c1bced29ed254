/** One reconcile pass of a job (reconcileCaffe2Jobs, reconcilePods, getPodsForCaffe2Job,
    updateStatus and setCondition), step by step on the cached job object, proved to compute the
    functions of Claims, Slots and Counting. */
module Reconcile {
  import opened Wrappers
  import opened Kube
  import opened Api
  import opened Types
  import opened Naming
  import opened Strconv
  import opened Claims
  import opened RefManager
  import opened PodFactory
  import opened Slots
  import opened Conditions
  import opened Counting

  /** The cached Caffe2Job, whose status a pass updates in place. */
  class Caffe2Job {
    const info: JobInfo
    const template: PodTemplate
    var conditions: seq<Condition>
    var replicaStatuses: Option<ReplicaStatus>
    var startTime: Option<Time>
    var completionTime: Option<Time>

    constructor (info: JobInfo, template: PodTemplate)
      ensures this.info == info && this.template == template
      ensures Status() == JobStatus([], None, None, None)
    {
      this.info := info;
      this.template := template;
      conditions, replicaStatuses, startTime, completionTime := [], None, None, None;
    }

    function Status(): JobStatus
      reads this
    {
      JobStatus(conditions, replicaStatuses, startTime, completionTime)
    }

    method SetCondition(condition: Condition)
      modifies this
      ensures Status() == old(Status()).(conditions := WithCondition(old(conditions), condition))
    {
      var c := condition;
      var currentCond := GetCondition(conditions, c.kind);
      if currentCond != None && currentCond.value.status == c.status && currentCond.value.reason == c.reason {
        return;
      }
      if currentCond != None && currentCond.value.status == c.status {
        c := c.(lastTransitionTime := currentCond.value.lastTransitionTime);
      }
      var newConditions := FilterOutCondition(conditions, c.kind);
      conditions := newConditions + [c];
    }

    method UpdateConditions(kind: ConditionType, reason: string, message: string, now: Time)
      modifies this
      ensures Status() == Recorded(old(Status()), kind, reason, message, now)
    {
      SetCondition(NewCondition(kind, reason, message, now));
    }

    /** addCaffe2Job leaves a created condition. */
    method Add(now: Time)
      modifies this
      ensures Status() == Recorded(old(Status()), Created, CREATED_REASON, CreatedMessage(info.name), now)
    {
      UpdateConditions(Created, CREATED_REASON, CreatedMessage(info.name), now);
    }

    method InitializeReplicaStatuses()
      modifies this
      ensures Status() == old(Status()).(replicaStatuses := Some(ReplicaStatus(0, 0, 0)))
    {
      replicaStatuses := Some(ReplicaStatus(0, 0, 0));
    }

    method IncreaseActive()
      requires replicaStatuses.Some?
      modifies this
      ensures Status() == Bumped(old(Status()), ActiveCounter)
    {
      replicaStatuses := Some(replicaStatuses.value.(active := Incremented(replicaStatuses.value.active)));
    }

    method UpdateReplicaStatuses(pod: Pod)
      requires replicaStatuses.Some?
      modifies this
      ensures Status() == Bumped(old(Status()), CounterOf(pod.phase))
    {
      var rs := replicaStatuses.value;
      match pod.phase {
        case Running => replicaStatuses := Some(rs.(active := Incremented(rs.active)));
        case Pending => replicaStatuses := Some(rs.(active := Incremented(rs.active)));
        case Succeeded => replicaStatuses := Some(rs.(succeeded := Incremented(rs.succeeded)));
        case Failed => replicaStatuses := Some(rs.(failed := Incremented(rs.failed)));
        case OtherPhase =>
      }
    }

    method UpdateStatus(replicas: int32, now: Time)
      requires replicaStatuses.Some?
      modifies this
      ensures Status() == UpdatedStatus(info.name, old(Status()), replicas, now)
    {
      var expected := replicas as int - replicaStatuses.value.succeeded as int;
      var running := replicaStatuses.value.active;
      var failed := replicaStatuses.value.failed;
      if running == replicas {
        startTime := Some(now);
      }
      if running > 0 {
        UpdateConditions(ConditionType.Running, RUNNING_REASON, RunningMessage(info.name), now);
      }
      if expected == 0 {
        completionTime := Some(now);
        UpdateConditions(ConditionType.Succeeded, SUCCEEDED_REASON, SucceededMessage(info.name), now);
      }
      if failed > 0 {
        UpdateConditions(ConditionType.Failed, FAILED_REASON, FailedMessage(info.name), now);
      }
    }
  }

  function Bumped(st: JobStatus, c: Counter): JobStatus
    requires st.replicaStatuses.Some?
  {
    st.(replicaStatuses := Some(Counted(st.replicaStatuses.value, c)))
  }

  // ----- the pass as a function -----

  /** What reconcilePods does to the status and what it asks for, given the claimed pods. */
  datatype Reconciled = Reconciled(status: JobStatus, loop: Loop)

  function ReconcileOf(job: JobInfo, t: TemplateValue, st: JobStatus, claimed: seq<Pod>,
                       creates: nat -> Option<Error>, now: Time): Reconciled
    requires job.replicas >= 0
  {
    var slots := SlotsOf(claimed, job.replicas as nat);
    var l := RunLoop(slots, Maker(job, t), creates);
    LoopBounded(slots, |slots|, Maker(job, t), creates);
    var counted := st.(replicaStatuses := Some(Counters(l)));
    Reconciled(if l.err.Some? then counted else UpdatedStatus(job.name, counted, job.replicas, now), l)
  }

  /** The answers the slot loop gets when it starts with a call log of length n. */
  function CreatesUsed(slots: seq<seq<Pod>>, r: Replies, n: nat): nat -> Option<Error> {
    (i: nat) => CreateReply(slots, r, n, i)
  }

  function CreateReply(slots: seq<seq<Pod>>, r: Replies, n: nat, i: nat): Option<Error> {
    if i <= |slots| then r.create(n + Count(slots, i, Empty)) else None
  }

  /** Listing and claiming, when the call log has length n. */
  datatype Fetched = Fetched(claimed: seq<Pod>, err: Option<Error>, calls: seq<Call>)

  function FetchOf(owner: Owner, r: Replies, n: nat): Fetched {
    match r.list(n)
    case Err(e) => Fetched([], Some(e), [ListPods(owner.namespace)])
    case Ok(pods) =>
      var c := PassOver(owner, None, pods, r, n + 1);
      Fetched(Select(pods, c.outcomes), NewAggregate(ErrorsOf(c.outcomes)), [ListPods(owner.namespace)] + c.calls)
  }

  /** The answers that the creations of a pass get, slot by slot, when its fetch came out as f. */
  function CreatesAfter(f: Fetched, job: JobInfo, r: Replies, n: nat): nat -> Option<Error>
    requires job.replicas >= 0
  {
    CreatesUsed(SlotsOf(f.claimed, job.replicas as nat), r, n + |f.calls|)
  }

  lemma FetchIs(owner: Owner, r: Replies, n: nat, pods: seq<Pod>)
    requires r.list(n) == Ok(pods)
    ensures
      var c := PassOver(owner, None, pods, r, n + 1);
      FetchOf(owner, r, n)
      == Fetched(Select(pods, c.outcomes), NewAggregate(ErrorsOf(c.outcomes)), [ListPods(owner.namespace)] + c.calls)
  {
  }

  lemma CreatesAfterIs(f: Fetched, job: JobInfo, r: Replies, n: nat, m: nat)
    requires job.replicas >= 0 && m == n + |f.calls|
    ensures CreatesAfter(f, job, r, n) == CreatesUsed(SlotsOf(f.claimed, job.replicas as nat), r, m)
  {
  }

  /** A whole pass: the status it leaves on the cached job, its error, and its calls. */
  datatype PassResult = PassResult(status: JobStatus, err: Option<Error>, calls: seq<Call>)

  function AfterFetch(job: JobInfo, t: TemplateValue, st: JobStatus, claimed: seq<Pod>, r: Replies, n: nat,
                      now: Time): PassResult
    requires job.replicas >= 0
  {
    Reported(ReconcileOf(job, t, st, claimed, CreatesUsed(SlotsOf(claimed, job.replicas as nat), r, n), now), r, n)
  }

  /** The status is sent if every creation went well. */
  function Reported(rec: Reconciled, r: Replies, n: nat): PassResult {
    if rec.loop.err != None then PassResult(rec.status, rec.loop.err, rec.loop.calls)
    else PassResult(rec.status, r.update(n + |rec.loop.calls|), rec.loop.calls + [UpdateJob(rec.status)])
  }

  function PassOf(job: JobInfo, t: TemplateValue, st: JobStatus, r: Replies, n: nat, now: Time): PassResult
    requires job.replicas >= 0
  {
    PassFrom(FetchOf(job.AsOwner(), r, n), job, t, st, r, n, now)
  }

  /** The pass whose fetch came out as f. */
  function PassFrom(f: Fetched, job: JobInfo, t: TemplateValue, st: JobStatus, r: Replies, n: nat,
                    now: Time): PassResult
    requires job.replicas >= 0
  {
    Joined(f, st, AfterFetch(job, t, st, f.claimed, r, n + |f.calls|, now))
  }

  /** A fetch that fails ends the pass; else the rest follows. */
  function Joined(f: Fetched, st: JobStatus, rest: PassResult): PassResult {
    if f.err != None then PassResult(st, f.err, f.calls) else rest.(calls := f.calls + rest.calls)
  }

  /** A pass is what its fetch and the rest come to. */
  lemma PassFromJoins(f: Fetched, job: JobInfo, t: TemplateValue, st: JobStatus, r: Replies, n: nat, now: Time,
                      m: nat, rest: PassResult)
    requires job.replicas >= 0 && m == n + |f.calls|
    requires rest == AfterFetch(job, t, st, f.claimed, r, m, now)
    ensures PassFrom(f, job, t, st, r, n, now) == Joined(f, st, rest)
  {
  }

  /** The rest of a pass is what its loop and the answer to the status come to. */
  lemma AfterFetchIs(job: JobInfo, t: TemplateValue, st: JobStatus, claimed: seq<Pod>, r: Replies, n: nat, now: Time,
                     rec: Reconciled)
    requires job.replicas >= 0
    requires rec == ReconcileOf(job, t, st, claimed, CreatesUsed(SlotsOf(claimed, job.replicas as nat), r, n), now)
    ensures AfterFetch(job, t, st, claimed, r, n, now) == Reported(rec, r, n)
  {
  }

  lemma ReportedIs(rec: Reconciled, r: Replies, n: nat, before: seq<Call>, err: Option<Error>)
    requires rec.loop.err == None && |before| == n + |rec.loop.calls| && err == r.update(|before|)
    ensures Reported(rec, r, n) == PassResult(rec.status, err, rec.loop.calls + [UpdateJob(rec.status)])
  {
  }

  lemma MakerAt(job: JobInfo, t: TemplateValue, i: nat)
    requires i < job.replicas as int
    ensures Maker(job, t)(i) == PodAt(job, t, i)
  {
  }

  lemma CreatesUsedAt(slots: seq<seq<Pod>>, r: Replies, n: nat, i: nat)
    requires i <= |slots|
    ensures CreatesUsed(slots, r, n)(i) == r.create(n + Count(slots, i, Empty))
  {
  }

  /** The job's counters and the call log after n turns of the slot loop. */
  predicate LoopAt(now: JobStatus, calls: seq<Call>, slots: seq<seq<Pod>>, n: nat, make: nat -> NewPod,
                   creates: nat -> Option<Error>, st: JobStatus, log: seq<Call>)
    requires n <= |slots|
  {
    LoopHolds(LoopUpTo(slots, n, make, creates), n, |slots|, now, calls, st, log)
  }

  predicate LoopHolds(l: Loop, n: nat, total: nat, now: JobStatus, calls: seq<Call>, st: JobStatus, log: seq<Call>) {
    && l.active + l.succeeded + l.failed <= n <= total <= 0x7fff_ffff
    && now == st.(replicaStatuses := Some(Counters(l)))
    && calls == log + l.calls
  }

  /** A turn over a slot with several pods. */
  lemma SeveralTurn(now: JobStatus, calls: seq<Call>, slots: seq<seq<Pod>>, n: nat, make: nat -> NewPod,
                    creates: nat -> Option<Error>, st: JobStatus, log: seq<Call>)
    requires n < |slots| && LoopAt(now, calls, slots, n, make, creates, st, log)
    requires LoopUpTo(slots, n, make, creates).err == None && |slots[n]| > 1
    ensures LoopAt(now, calls, slots, n + 1, make, creates, st, log)
    ensures LoopUpTo(slots, n + 1, make, creates).err == None
  {
  }

  /** A turn over an empty slot: the creation is asked for, and counted if it went well. */
  lemma EmptyTurn(now: JobStatus, calls: seq<Call>, slots: seq<seq<Pod>>, n: nat, make: nat -> NewPod,
                  creates: nat -> Option<Error>, st: JobStatus, log: seq<Call>)
    requires n < |slots| && LoopAt(now, calls, slots, n, make, creates, st, log)
    requires LoopUpTo(slots, n, make, creates).err == None && |slots[n]| == 0
    ensures
      var error := CreateError(creates(n));
      && LoopUpTo(slots, n + 1, make, creates).err == error
      && LoopAt(if error == None then Bumped(now, ActiveCounter) else now, calls + [CreatePod(make(n))],
                slots, n + 1, make, creates, st, log)
  {
    Assoc(log, LoopUpTo(slots, n, make, creates).calls, [CreatePod(make(n))]);
  }

  /** The creation for the next empty slot comes after one call for each empty slot before. */
  lemma CallsSoFar(now: JobStatus, calls: seq<Call>, slots: seq<seq<Pod>>, n: nat, make: nat -> NewPod,
                   creates: nat -> Option<Error>, st: JobStatus, log: seq<Call>, r: Replies, m: nat)
    requires n <= |slots| && m == |log| && LoopAt(now, calls, slots, n, make, creates, st, log)
    requires LoopUpTo(slots, n, make, creates).err == None
    ensures r.create(|calls|) == r.create(m + Count(slots, n, Empty))
  {
    CallsNumberEmpties(slots, n, make, creates);
  }

  /** A turn over a slot with one pod: the pod is counted. */
  lemma SingleTurn(now: JobStatus, calls: seq<Call>, slots: seq<seq<Pod>>, n: nat, make: nat -> NewPod,
                   creates: nat -> Option<Error>, st: JobStatus, log: seq<Call>)
    requires n < |slots| && LoopAt(now, calls, slots, n, make, creates, st, log)
    requires LoopUpTo(slots, n, make, creates).err == None && |slots[n]| == 1
    ensures LoopAt(Bumped(now, CounterOf(slots[n][0].phase)), calls, slots, n + 1, make, creates, st, log)
    ensures LoopUpTo(slots, n + 1, make, creates).err == None
  {
  }

  /** A template whose labels and variables are as before has the same value as before. */
  twostate lemma TemplateUnchanged(t: PodTemplate)
    requires t.labels == old(t.labels)
    requires forall i :: 0 <= i < |t.containers| ==> t.containers[i].env == old(t.containers[i].env)
    ensures t.Value() == old(t.Value())
  {
    forall i | 0 <= i < |t.containers|
      ensures Values(t.containers)[i] == old(Values(t.containers))[i]
    {
    }
    assert Values(t.containers) == old(Values(t.containers));
  }

  class Controller {
    const api: Client
    const podControl: PodControl

    constructor (api: Client)
      ensures this.api == api && podControl.api == api
    {
      this.api := api;
      podControl := new PodControl(api);
    }

    /** Lists every pod of the namespace, then claims. */
    method GetPodsForJob(job: Caffe2Job) returns (claimed: seq<Pod>, err: Option<Error>)
      modifies api
      ensures
        var f := FetchOf(job.info.AsOwner(), api.replies, |old(api.log)|);
        claimed == f.claimed && err == f.err && api.log == old(api.log) + f.calls
    {
      ghost var n, log := |api.log|, api.log;
      var pods := api.List(job.info.namespace);
      if pods.Err? {
        return [], Some(pods.error);
      }
      var cm := new PodControllerRefManager(job.info.AsOwner(), api);
      claimed, err := cm.ClaimPods(pods.value);
      FetchIs(job.info.AsOwner(), api.replies, n, pods.value);
      ghost var calls := PassOver(job.info.AsOwner(), None, pods.value, api.replies, n + 1).calls;
      Assoc(log, [ListPods(job.info.namespace)], calls);
    }

    /** One turn of the slot loop: from the loop's state before slot `index` to the state after it. */
    method ReconcileSlot(job: Caffe2Job, index: nat, podSlice: seq<Pod>, ghost slots: seq<seq<Pod>>,
                         ghost make: nat -> NewPod, ghost creates: nat -> Option<Error>, ghost st: JobStatus,
                         ghost log: seq<Call>, ghost n: nat)
      returns (err: Option<Error>)
      requires podControl.api == api && index < |slots| == job.info.replicas as int && podSlice == slots[index]
      requires make(index) == PodAt(job.info, job.template.Value(), index)
      requires n == |log| && creates(index) == api.replies.create(n + Count(slots, index, Empty))
      requires LoopAt(job.Status(), api.log, slots, index, make, creates, st, log)
      requires LoopUpTo(slots, index, make, creates).err == None
      modifies api, job
      ensures LoopAt(job.Status(), api.log, slots, index + 1, make, creates, st, log)
      ensures err == LoopUpTo(slots, index + 1, make, creates).err
      ensures job.template.Value() == old(job.template.Value())
    {
      err := None;
      if |podSlice| > 1 {
        SeveralTurn(job.Status(), api.log, slots, index, make, creates, st, log);
      } else if |podSlice| == 0 {
        EmptyTurn(job.Status(), api.log, slots, index, make, creates, st, log);
        CallsSoFar(job.Status(), api.log, slots, index, make, creates, st, log, api.replies, n);
        ConfigExists(job.info, index);
        err := podControl.CreateNewPod(job.info, WORKER, Itoa(index), job.template);
        if err != None {
          return;
        }
        job.IncreaseActive();
      } else {
        SingleTurn(job.Status(), api.log, slots, index, make, creates, st, log);
        job.UpdateReplicaStatuses(podSlice[0]);
      }
    }

    /** The slot loop: fills empty slots and counts the others, up to the first creation that fails. */
    method ReconcileSlots(job: Caffe2Job, podSlices: array<seq<Pod>>, ghost slots: seq<seq<Pod>>,
                          ghost t: TemplateValue, ghost st: JobStatus, ghost n: nat)
      returns (err: Option<Error>)
      requires podControl.api == api && podSlices[..] == slots && |slots| == job.info.replicas as int
      requires t == job.template.Value() && st == job.Status() && n == |api.log|
      requires st.replicaStatuses == Some(ReplicaStatus(0, 0, 0))
      modifies api, job
      ensures
        var make, creates := Maker(job.info, t), CreatesUsed(slots, api.replies, n);
        && LoopAt(job.Status(), api.log, slots, |slots|, make, creates, st, old(api.log))
        && err == RunLoop(slots, make, creates).err
    {
      ghost var log := api.log;
      ghost var make, creates := Maker(job.info, t), CreatesUsed(slots, api.replies, n);
      for index := 0 to podSlices.Length
        invariant LoopAt(job.Status(), api.log, slots, index, make, creates, st, log)
        invariant LoopUpTo(slots, index, make, creates).err == None
        invariant job.template.Value() == t
        invariant forall i :: index <= i < podSlices.Length ==> podSlices[i] == slots[i]
      {
        MakerAt(job.info, t, index);
        CreatesUsedAt(slots, api.replies, n, index);
        err := ReconcileSlot(job, index, podSlices[index], slots, make, creates, st, log, n);
        if err != None {
          StoppedLoop(slots, index + 1, |slots|, make, creates);
          return;
        }
      }
      err := None;
    }

    /** Fills and counts the slots, and then derives conditions and times; a creation that fails leaves
        these alone. */
    method ReconcilePods(job: Caffe2Job, claimed: seq<Pod>, now: Time, ghost t: TemplateValue, ghost st: JobStatus,
                         ghost n: nat)
      returns (err: Option<Error>)
      requires job.info.replicas >= 0 && podControl.api == api
      requires t == job.template.Value() && st == job.Status() && n == |api.log|
      modifies api, job
      ensures
        var slots := SlotsOf(claimed, job.info.replicas as nat);
        var r := ReconcileOf(job.info, t, st, claimed, CreatesUsed(slots, api.replies, n), now);
        && job.Status() == r.status
        && err == r.loop.err
        && api.log == old(api.log) + r.loop.calls
    {
      var pods := FilterPodsForReplicaType(claimed, WORKER);
      var replicas := job.info.replicas;
      job.InitializeReplicaStatuses();
      var podSlices := GetPodSlices(pods, replicas as nat);
      ghost var slots := SlotsOf(claimed, replicas as nat);
      assert podSlices[..] == slots;
      err := ReconcileSlots(job, podSlices, slots, t, st.(replicaStatuses := Some(ReplicaStatus(0, 0, 0))), n);
      if err == None {
        job.UpdateStatus(replicas, now);
      }
    }

    /** A whole pass: list, claim, fill and count, and send the status, each only if all before went well. */
    method ReconcileJob(job: Caffe2Job, now: Time) returns (err: Option<Error>)
      requires job.info.replicas >= 0 && podControl.api == api
      modifies api, job
      ensures
        var p := PassOf(job.info, old(job.template.Value()), old(job.Status()), api.replies, |old(api.log)|, now);
        job.Status() == p.status && err == p.err && api.log == old(api.log) + p.calls
    {
      ghost var n, log, t, st := |api.log|, api.log, job.template.Value(), job.Status();
      ghost var f := FetchOf(job.info.AsOwner(), api.replies, n);
      var claimed;
      claimed, err := GetPodsForJob(job);
      if err != None {
        return;
      }
      TemplateUnchanged(job.template);
      err := FillAndReport(job, claimed, now, t, st, n + |f.calls|);
      Assoc(log, f.calls, AfterFetch(job.info, t, st, claimed, api.replies, n + |f.calls|, now).calls);
    }

    method FillAndReport(job: Caffe2Job, claimed: seq<Pod>, now: Time, ghost t: TemplateValue, ghost st: JobStatus,
                         ghost n: nat)
      returns (err: Option<Error>)
      requires job.info.replicas >= 0 && podControl.api == api
      requires t == job.template.Value() && st == job.Status() && n == |api.log|
      modifies api, job
      ensures
        var p := AfterFetch(job.info, t, st, claimed, api.replies, n, now);
        job.Status() == p.status && err == p.err && api.log == old(api.log) + p.calls
    {
      err := ReconcilePods(job, claimed, now, t, st, n);
      if err != None {
        return;
      }
      ghost var creates := CreatesUsed(SlotsOf(claimed, job.info.replicas as nat), api.replies, n);
      ghost var rec := ReconcileOf(job.info, t, st, claimed, creates, now);
      ghost var before := api.log;
      err := api.Update(job.Status());
      AfterFetchIs(job.info, t, st, claimed, api.replies, n, now, rec);
      ReportedIs(rec, api.replies, n, before, err);
    }

    /** The work-queue entry point, given what the job lister returned. */
    method SyncJob(cached: Result<Caffe2Job, Error>, now: Time) returns (forget: bool, err: Option<Error>)
      requires cached.Ok? ==> cached.value.info.replicas >= 0
      requires podControl.api == api
      modifies api, (if cached.Ok? then {cached.value} else {})
      ensures forget <==> err == None
      ensures cached.Err? ==>
        api.log == old(api.log) && err == if cached.error.IsNotFound() then None else Some(cached.error)
      ensures cached.Ok? && cached.value.info.deleting ==>
        err == None && api.log == old(api.log) && cached.value.Status() == old(cached.value.Status())
      ensures cached.Ok? && !cached.value.info.deleting ==>
        var job := cached.value;
        var p := PassOf(job.info, old(job.template.Value()), old(job.Status()), api.replies, |old(api.log)|, now);
        job.Status() == p.status && err == p.err && api.log == old(api.log) + p.calls
    {
      if cached.Err? {
        if cached.error.IsNotFound() {
          return true, None;
        }
        return false, Some(cached.error);
      }
      err := None;
      if !cached.value.info.deleting {
        err := ReconcileJob(cached.value, now);
      }
      forget := err == None;
    }
  }
}
