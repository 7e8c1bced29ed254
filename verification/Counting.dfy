/** One run of the slot loop of reconcilePods as a function: which pods it creates, where it
    stops, and what it counts; and the status derived from the counts (status.go). */
module Counting {
  import opened Wrappers
  import opened Kube
  import opened Api
  import opened Types
  import opened Conditions
  import opened PodFactory
  import opened Slots

  datatype SlotClass = Empty | Single(phase: Phase) | Several

  function ClassOf(slot: seq<Pod>): SlotClass {
    if |slot| > 1 then Several else if |slot| == 0 then Empty else Single(slot[0].phase)
  }

  /** The pod asked for at slot i; there are no slots beyond replicas. */
  function Maker(job: JobInfo, t: TemplateValue): nat -> NewPod {
    (i: nat) => PodOrNone(job, t, i)
  }

  function PodOrNone(job: JobInfo, t: TemplateValue, i: nat): NewPod {
    if i < job.replicas as int then PodAt(job, t, i) else NewPod(job.namespace, "", map[], map[], [], [], [])
  }

  /** How many of the first n slots are of a class. */
  function Count(slots: seq<seq<Pod>>, n: nat, c: SlotClass): nat
    requires n <= |slots|
  {
    if n == 0 then 0 else Count(slots, n - 1, c) + (if ClassOf(slots[n - 1]) == c then 1 else 0)
  }

  lemma {:induction false} CountAll(slots: seq<seq<Pod>>, n: nat, c: SlotClass)
    requires n <= |slots|
    ensures Count(slots, n, c) <= n
    ensures Count(slots, n, c) == n <==> forall i :: 0 <= i < n ==> ClassOf(slots[i]) == c
    ensures Count(slots, n, c) == 0 <==> forall i :: 0 <= i < n ==> ClassOf(slots[i]) != c
  {
    if n > 0 {
      CountAll(slots, n - 1, c);
    }
  }

  /** The slots of a job, from the claimed pods of a pass. */
  function SlotsOf(claimed: seq<Pod>, replicas: nat): seq<seq<Pod>> {
    seq(replicas, i requires 0 <= i < replicas => Slot(Workers(claimed), i, replicas))
  }

  /** Slot i of a job holds exactly the claimed worker pods whose index label parses to i. */
  lemma SlotsAre(claimed: seq<Pod>, replicas: nat, i: nat, p: Pod)
    requires i < replicas
    ensures |SlotsOf(claimed, replicas)| == replicas
    ensures p in SlotsOf(claimed, replicas)[i] <==>
      && p in claimed && LabelledFor(p, i)
      && "caffe2_replica_type" in p.labels && p.labels["caffe2_replica_type"] == "worker"
  {
    SliceMembers(Workers(claimed), i, replicas, p);
    WorkersAre(claimed, p);
  }

  /** The slot loop so far: counters, calls made, and the error that stopped it. */
  datatype Loop = Loop(active: nat, succeeded: nat, failed: nat, calls: seq<Call>, err: Option<Error>)

  function CreateError(reply: Option<Error>): Option<Error> {
    if reply.Some? && reply.value.IsTimeout() then None else reply
  }

  /** The counter a phase belongs to. */
  datatype Counter = ActiveCounter | SucceededCounter | FailedCounter | NoCounter

  function CounterOf(phase: Phase): Counter {
    match phase
    case Running => ActiveCounter
    case Pending => ActiveCounter
    case Succeeded => SucceededCounter
    case Failed => FailedCounter
    case OtherPhase => NoCounter
  }

  function CountPod(l: Loop, phase: Phase): Loop {
    match CounterOf(phase)
    case ActiveCounter => l.(active := l.active + 1)
    case SucceededCounter => l.(succeeded := l.succeeded + 1)
    case FailedCounter => l.(failed := l.failed + 1)
    case NoCounter => l
  }

  /** x++ on 32 bits. */
  function Incremented(x: int32): int32 {
    if x == 0x7fff_ffff then -0x8000_0000 else x + 1
  }

  lemma IncrementWraps(x: int32)
    ensures Incremented(x) as int == (x as int + 1 + 0x8000_0000) % 0x1_0000_0000 - 0x8000_0000
  {
  }

  function Counted(rs: ReplicaStatus, c: Counter): ReplicaStatus {
    match c
    case ActiveCounter => rs.(active := Incremented(rs.active))
    case SucceededCounter => rs.(succeeded := Incremented(rs.succeeded))
    case FailedCounter => rs.(failed := Incremented(rs.failed))
    case NoCounter => rs
  }

  /** One turn of the loop. */
  function NextSlot(l: Loop, slot: seq<Pod>, create: Call, reply: Option<Error>): Loop {
    if l.err.Some? || |slot| > 1 then l
    else if |slot| == 0 then
      if CreateError(reply).Some? then l.(calls := l.calls + [create], err := CreateError(reply))
      else l.(calls := l.calls + [create], active := l.active + 1)
    else CountPod(l, slot[0].phase)
  }

  /** `make(i)` is the pod asked for at slot i and `creates(i)` the answer. */
  function LoopUpTo(slots: seq<seq<Pod>>, n: nat, make: nat -> NewPod, creates: nat -> Option<Error>): Loop
    requires n <= |slots|
  {
    if n == 0 then Loop(0, 0, 0, [], None)
    else NextSlot(LoopUpTo(slots, n - 1, make, creates), slots[n - 1], CreatePod(make(n - 1)), creates(n - 1))
  }

  function RunLoop(slots: seq<seq<Pod>>, make: nat -> NewPod, creates: nat -> Option<Error>): Loop
  {
    LoopUpTo(slots, |slots|, make, creates)
  }

  // ----- what the loop creates -----

  /** Slot i is reached: no empty slot before it fails to be filled. */
  predicate Reached(slots: seq<seq<Pod>>, i: nat, creates: nat -> Option<Error>)
    requires i <= |slots|
  {
    forall j :: 0 <= j < i && ClassOf(slots[j]) == Empty ==> CreateError(creates(j)) == None
  }

  /** The pods asked for below slot n: one for each empty slot that is reached. */
  function Asked(slots: seq<seq<Pod>>, n: nat, make: nat -> NewPod, creates: nat -> Option<Error>): seq<Call>
    requires n <= |slots|
  {
    if n == 0 then []
    else
      Asked(slots, n - 1, make, creates) +
      (if ClassOf(slots[n - 1]) == Empty && Reached(slots, n - 1, creates) then [CreatePod(make(n - 1))] else [])
  }

  /** The loop creates exactly one pod for each empty slot up to and including the first whose
      creation fails, in slot order, and fails exactly if there is such a slot. */
  lemma {:induction false} LoopCreates(slots: seq<seq<Pod>>, n: nat, make: nat -> NewPod, creates: nat -> Option<Error>)
    requires n <= |slots|
    ensures LoopUpTo(slots, n, make, creates).calls == Asked(slots, n, make, creates)
    ensures LoopUpTo(slots, n, make, creates).err == None <==> Reached(slots, n, creates)
  {
    if n > 0 {
      LoopCreates(slots, n - 1, make, creates);
    }
  }

  /** While it has not failed, the loop's calls number the empty slots it has passed. */
  lemma {:induction false} CallsNumberEmpties(slots: seq<seq<Pod>>, n: nat, make: nat -> NewPod,
                                              creates: nat -> Option<Error>)
    requires n <= |slots|
    requires LoopUpTo(slots, n, make, creates).err == None
    ensures |LoopUpTo(slots, n, make, creates).calls| == Count(slots, n, Empty)
  {
    if n > 0 {
      CallsNumberEmpties(slots, n - 1, make, creates);
    }
  }

  /** After a failure nothing changes any more. */
  lemma {:induction false} StoppedLoop(slots: seq<seq<Pod>>, m: nat, n: nat, make: nat -> NewPod,
                                       creates: nat -> Option<Error>)
    requires m <= n <= |slots|
    requires LoopUpTo(slots, m, make, creates).err.Some?
    ensures LoopUpTo(slots, n, make, creates) == LoopUpTo(slots, m, make, creates)
  {
    if m < n {
      StoppedLoop(slots, m, n - 1, make, creates);
    }
  }

  // ----- what the loop counts -----

  lemma {:induction false} LoopBounded(slots: seq<seq<Pod>>, n: nat, make: nat -> NewPod, creates: nat -> Option<Error>)
    requires n <= |slots|
    ensures var l := LoopUpTo(slots, n, make, creates); l.active + l.succeeded + l.failed <= n
  {
    if n > 0 {
      LoopBounded(slots, n - 1, make, creates);
    }
  }

  /** The slots that count as active among the first n. */
  function ActiveCount(slots: seq<seq<Pod>>, n: nat): nat
    requires n <= |slots|
  {
    Count(slots, n, Empty) + Count(slots, n, Single(Phase.Pending)) + Count(slots, n, Single(Phase.Running))
  }

  lemma {:induction false} LoopCounts(slots: seq<seq<Pod>>, n: nat, make: nat -> NewPod, creates: nat -> Option<Error>)
    requires n <= |slots|
    requires LoopUpTo(slots, n, make, creates).err == None
    ensures
      var l := LoopUpTo(slots, n, make, creates);
      && l.active == ActiveCount(slots, n)
      && l.succeeded == Count(slots, n, Single(Phase.Succeeded))
      && l.failed == Count(slots, n, Single(Phase.Failed))
  {
    if n > 0 {
      LoopCounts(slots, n - 1, make, creates);
    }
  }

  /** A loop that fails stops at the empty slot whose creation failed, having counted those before it. */
  lemma {:induction false} StopsAt(slots: seq<seq<Pod>>, n: nat, make: nat -> NewPod, creates: nat -> Option<Error>)
    returns (i: nat)
    requires n <= |slots|
    requires LoopUpTo(slots, n, make, creates).err != None
    ensures i < n && LoopUpTo(slots, i, make, creates).err == None
    ensures ClassOf(slots[i]) == Empty && LoopUpTo(slots, n, make, creates).err == creates(i)
    ensures
      var before, l := LoopUpTo(slots, i, make, creates), LoopUpTo(slots, n, make, creates);
      (l.active, l.succeeded, l.failed) == (before.active, before.succeeded, before.failed)
  {
    if LoopUpTo(slots, n - 1, make, creates).err == None {
      i := n - 1;
    } else {
      i := StopsAt(slots, n - 1, make, creates);
    }
  }

  /** Every slot is of exactly one class. */
  lemma {:induction false} ClassesCoverSlots(slots: seq<seq<Pod>>, n: nat)
    requires n <= |slots|
    ensures
      Count(slots, n, Empty) + Count(slots, n, Several)
      + Count(slots, n, Single(Phase.Pending)) + Count(slots, n, Single(Phase.Running))
      + Count(slots, n, Single(Phase.Succeeded)) + Count(slots, n, Single(Phase.Failed))
      + Count(slots, n, Single(OtherPhase)) == n
  {
    if n > 0 {
      ClassesCoverSlots(slots, n - 1);
      match ClassOf(slots[n - 1])
      case Empty =>
      case Several =>
      case Single(phase) =>
        assert phase.Pending? || phase.Running? || phase.Succeeded? || phase.Failed? || phase.OtherPhase?;
    }
  }

  /** Counting conservation: a loop without error counts every slot exactly once, except the
      slots with several pods and those whose one pod is in some other phase. */
  lemma LoopConserves(slots: seq<seq<Pod>>, make: nat -> NewPod, creates: nat -> Option<Error>)
    requires RunLoop(slots, make, creates).err == None
    ensures
      var l := RunLoop(slots, make, creates);
      l.active + l.succeeded + l.failed
      + Count(slots, |slots|, Several) + Count(slots, |slots|, Single(OtherPhase)) == |slots|
  {
    LoopCounts(slots, |slots|, make, creates);
    ClassesCoverSlots(slots, |slots|);
  }

  // ----- status.go -----

  const RUNNING_REASON := "Caffe2JobRunning"
  const SUCCEEDED_REASON := "Caffe2JobSucceeded"
  const FAILED_REASON := "Caffe2JobFailed"
  const CREATED_REASON := "Caffe2JobCreated"

  function NewCondition(kind: ConditionType, reason: string, message: string, now: Time): Condition {
    Condition(kind, True, reason, message, now, now)
  }

  function Recorded(st: JobStatus, kind: ConditionType, reason: string, message: string, now: Time): JobStatus {
    st.(conditions := WithCondition(st.conditions, NewCondition(kind, reason, message, now)))
  }

  function RunningMessage(name: string): string { "Caffe2Job " + name + " is running." }
  function SucceededMessage(name: string): string { "Caffe2Job " + name + " is successfully completed." }
  function FailedMessage(name: string): string { "Caffe2Job " + name + " is failed." }
  function CreatedMessage(name: string): string { "Caffe2Job " + name + " is created." }

  function MarkRunning(name: string, st: JobStatus, now: Time): JobStatus {
    Recorded(st, ConditionType.Running, RUNNING_REASON, RunningMessage(name), now)
  }

  function MarkSucceeded(name: string, st: JobStatus, now: Time): JobStatus {
    Recorded(st.(completionTime := Some(now)), ConditionType.Succeeded, SUCCEEDED_REASON, SucceededMessage(name), now)
  }

  function MarkFailed(name: string, st: JobStatus, now: Time): JobStatus {
    Recorded(st, ConditionType.Failed, FAILED_REASON, FailedMessage(name), now)
  }

  function RunningPart(name: string, st: JobStatus, rs: ReplicaStatus, replicas: int32, now: Time): JobStatus {
    var started := if rs.active == replicas then st.(startTime := Some(now)) else st;
    if rs.active > 0 then MarkRunning(name, started, now) else started
  }

  function SucceededPart(name: string, st: JobStatus, rs: ReplicaStatus, replicas: int32, now: Time): JobStatus {
    if replicas as int - rs.succeeded as int == 0 then MarkSucceeded(name, st, now) else st
  }

  function FailedPart(name: string, st: JobStatus, rs: ReplicaStatus, now: Time): JobStatus {
    if rs.failed > 0 then MarkFailed(name, st, now) else st
  }

  /** The status after updateStatus, from the counters it holds. */
  function UpdatedStatus(name: string, st: JobStatus, replicas: int32, now: Time): JobStatus
    requires st.replicaStatuses.Some?
  {
    var rs := st.replicaStatuses.value;
    FailedPart(name, SucceededPart(name, RunningPart(name, st, rs, replicas, now), rs, replicas, now), rs, now)
  }

  // ----- the declarative reading -----

  predicate AllSucceeded(slots: seq<seq<Pod>>) {
    forall i :: 0 <= i < |slots| ==> ClassOf(slots[i]) == Single(Phase.Succeeded)
  }

  predicate SomeFailed(slots: seq<seq<Pod>>) {
    exists i :: 0 <= i < |slots| && ClassOf(slots[i]) == Single(Phase.Failed)
  }

  predicate IsActive(c: SlotClass) {
    c == Empty || c == Single(Phase.Pending) || c == Single(Phase.Running)
  }

  predicate SomeActive(slots: seq<seq<Pod>>) {
    exists i :: 0 <= i < |slots| && IsActive(ClassOf(slots[i]))
  }

  predicate AllActive(slots: seq<seq<Pod>>) {
    forall i :: 0 <= i < |slots| ==> IsActive(ClassOf(slots[i]))
  }

  function Counters(l: Loop): ReplicaStatus
    requires l.active <= 0x7fff_ffff && l.succeeded <= 0x7fff_ffff && l.failed <= 0x7fff_ffff
  {
    ReplicaStatus(l.active as int32, l.succeeded as int32, l.failed as int32)
  }

  /** After an error-free loop the counters decide the branches of updateStatus by the slots alone. */
  lemma BranchesReadTheSlots(slots: seq<seq<Pod>>, make: nat -> NewPod, creates: nat -> Option<Error>)
    requires RunLoop(slots, make, creates).err == None
    ensures
      var l := RunLoop(slots, make, creates);
      && (l.succeeded == |slots| <==> AllSucceeded(slots))
      && (l.failed > 0 <==> SomeFailed(slots))
      && (l.active > 0 <==> SomeActive(slots))
      && (l.active == |slots| <==> AllActive(slots))
  {
    LoopCounts(slots, |slots|, make, creates);
    TerminalCounts(slots);
    CountActive(slots, |slots|);
  }

  lemma TerminalCounts(slots: seq<seq<Pod>>)
    ensures Count(slots, |slots|, Single(Phase.Succeeded)) == |slots| <==> AllSucceeded(slots)
    ensures Count(slots, |slots|, Single(Phase.Failed)) > 0 <==> SomeFailed(slots)
  {
    CountAll(slots, |slots|, Single(Phase.Succeeded));
    CountAll(slots, |slots|, Single(Phase.Failed));
  }

  /** Success goes with neither failure nor activity. */
  lemma VerdictsExclude(slots: seq<seq<Pod>>)
    requires AllSucceeded(slots)
    ensures !SomeFailed(slots) && !SomeActive(slots)
  {
  }

  lemma {:induction false} CountActive(slots: seq<seq<Pod>>, n: nat)
    requires n <= |slots|
    ensures
      var active := ActiveCount(slots, n);
      && active <= n && (active == n <==> forall i :: 0 <= i < n ==> IsActive(ClassOf(slots[i])))
      && (active > 0 <==> exists i :: 0 <= i < n && IsActive(ClassOf(slots[i])))
  {
    if n > 0 {
      CountActive(slots, n - 1);
    }
  }
}
