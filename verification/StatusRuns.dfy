/** What the status says: one pass read against its slots, and the condition list over any
    sequence of the controller's updates. */
module StatusRuns {
  import opened Wrappers
  import opened Kube
  import opened Api
  import opened Types
  import opened Claims
  import opened RefManager
  import opened PodFactory
  import opened Conditions
  import opened Counting
  import opened Reconcile

  // ----- one pass against its slots -----

  /** The conditions after updateStatus, type by type. */
  lemma UpdatedConditions(name: string, st: JobStatus, replicas: int32, now: Time)
    requires st.replicaStatuses.Some?
    ensures
      var rs, after := st.replicaStatuses.value, UpdatedStatus(name, st, replicas, now);
      && (rs.active > 0 ==> Find(after.conditions, ConditionType.Running).Some?)
      && (rs.active <= 0 ==>
          Find(after.conditions, ConditionType.Running) == Find(st.conditions, ConditionType.Running))
      && (rs.succeeded == replicas ==> Find(after.conditions, ConditionType.Succeeded).Some?)
      && (rs.succeeded != replicas ==>
          Find(after.conditions, ConditionType.Succeeded) == Find(st.conditions, ConditionType.Succeeded))
      && (rs.failed > 0 ==> Find(after.conditions, ConditionType.Failed).Some?)
      && (rs.failed <= 0 ==> Find(after.conditions, ConditionType.Failed) == Find(st.conditions, ConditionType.Failed))
      && Find(after.conditions, Created) == Find(st.conditions, Created)
  {
    var rs := st.replicaStatuses.value;
    var started := if rs.active == replicas then st.(startTime := Some(now)) else st;
    var s2 := RunningPart(name, st, rs, replicas, now);
    var s3 := SucceededPart(name, s2, rs, replicas, now);
    FoundAfter(started.conditions, NewCondition(ConditionType.Running, RUNNING_REASON, RunningMessage(name), now));
    FoundAfter(s2.conditions, NewCondition(ConditionType.Succeeded, SUCCEEDED_REASON, SucceededMessage(name), now));
    FoundAfter(s3.conditions, NewCondition(ConditionType.Failed, FAILED_REASON, FailedMessage(name), now));
  }

  lemma FoundAfter(conditions: seq<Condition>, c: Condition)
    ensures Find(WithCondition(conditions, c), c.kind).Some?
    ensures forall kind :: kind != c.kind ==> Find(WithCondition(conditions, c), kind) == Find(conditions, kind)
  {
    FindInWithout(conditions, c.kind, c.kind);
    if WithCondition(conditions, c) != conditions {
      var kept := Without(conditions, c.kind);
      FindAppended(kept, WithCondition(conditions, c)[|kept|], c.kind);
    }
    forall kind | kind != c.kind ensures Find(WithCondition(conditions, c), kind) == Find(conditions, kind) {
      SetConditionElsewhere(conditions, c, kind);
    }
  }

  /** The declarative reading of a pass that fills its slots without error: each branch of updateStatus
      is decided by the slots alone, and a pass never records success together with failure or
      activity. It holds for every replicas, including 0. */
  lemma PassReadsItsSlots(job: JobInfo, t: TemplateValue, st: JobStatus, claimed: seq<Pod>,
                          creates: nat -> Option<Error>, now: Time)
    requires job.replicas >= 0
    requires ReconcileOf(job, t, st, claimed, creates, now).loop.err == None
    ensures
      var slots, after := SlotsOf(claimed, job.replicas as nat), ReconcileOf(job, t, st, claimed, creates, now).status;
      && after.startTime == (if AllActive(slots) then Some(now) else st.startTime)
      && after.completionTime == (if AllSucceeded(slots) then Some(now) else st.completionTime)
      && (if SomeActive(slots) then Find(after.conditions, ConditionType.Running).Some?
          else Find(after.conditions, ConditionType.Running) == Find(st.conditions, ConditionType.Running))
      && (if AllSucceeded(slots) then Find(after.conditions, ConditionType.Succeeded).Some?
          else Find(after.conditions, ConditionType.Succeeded) == Find(st.conditions, ConditionType.Succeeded))
      && (if SomeFailed(slots) then Find(after.conditions, ConditionType.Failed).Some?
          else Find(after.conditions, ConditionType.Failed) == Find(st.conditions, ConditionType.Failed))
      && !(AllSucceeded(slots) && (SomeFailed(slots) || SomeActive(slots)))
  {
    var slots := SlotsOf(claimed, job.replicas as nat);
    var l := RunLoop(slots, Maker(job, t), creates);
    LoopBounded(slots, |slots|, Maker(job, t), creates);
    BranchesReadTheSlots(slots, Maker(job, t), creates);
    if AllSucceeded(slots) {
      VerdictsExclude(slots);
    }
    UpdatedConditions(job.name, st.(replicaStatuses := Some(Counters(l))), job.replicas, now);
  }

  /** The type is found as this true condition with this reason and message, new or settled with what was there. */
  predicate Shows(after: seq<Condition>, before: seq<Condition>, kind: ConditionType, reason: string,
                  message: string, now: Time)
  {
    Find(after, kind) == Some(Settled(Find(before, kind), Condition(kind, True, reason, message, now, now)))
  }

  lemma RecordedShows(st: JobStatus, kind: ConditionType, reason: string, message: string, now: Time)
    ensures Shows(Recorded(st, kind, reason, message, now).conditions, st.conditions, kind, reason, message, now)
    ensures forall other :: other != kind ==>
      Find(Recorded(st, kind, reason, message, now).conditions, other) == Find(st.conditions, other)
  {
    FoundSettled(st.conditions, NewCondition(kind, reason, message, now));
    FoundAfter(st.conditions, NewCondition(kind, reason, message, now));
  }

  lemma UpdateShows(name: string, st: JobStatus, replicas: int32, now: Time)
    requires st.replicaStatuses.Some?
    ensures
      var rs, after := st.replicaStatuses.value, UpdatedStatus(name, st, replicas, now).conditions;
      && (rs.active > 0 ==> Shows(after, st.conditions, ConditionType.Running, "Caffe2JobRunning",
                                  "Caffe2Job " + name + " is running.", now))
      && (rs.succeeded == replicas ==> Shows(after, st.conditions, ConditionType.Succeeded, "Caffe2JobSucceeded",
                                             "Caffe2Job " + name + " is successfully completed.", now))
      && (rs.failed > 0 ==> Shows(after, st.conditions, ConditionType.Failed, "Caffe2JobFailed",
                                  "Caffe2Job " + name + " is failed.", now))
  {
    var rs := st.replicaStatuses.value;
    var started := if rs.active == replicas then st.(startTime := Some(now)) else st;
    var s2 := RunningPart(name, st, rs, replicas, now);
    var done := s2.(completionTime := Some(now));
    var s3 := SucceededPart(name, s2, rs, replicas, now);
    RecordedShows(started, ConditionType.Running, RUNNING_REASON, RunningMessage(name), now);
    RecordedShows(done, ConditionType.Succeeded, SUCCEEDED_REASON, SucceededMessage(name), now);
    RecordedShows(s3, ConditionType.Failed, FAILED_REASON, FailedMessage(name), now);
  }

  /** What an error-free pass records for its slots, and what addCaffe2Job does. */
  lemma PassShows(job: JobInfo, t: TemplateValue, st: JobStatus, claimed: seq<Pod>, creates: nat -> Option<Error>,
                  now: Time)
    requires job.replicas >= 0
    requires ReconcileOf(job, t, st, claimed, creates, now).loop.err == None
    ensures
      var slots := SlotsOf(claimed, job.replicas as nat);
      var after := ReconcileOf(job, t, st, claimed, creates, now).status.conditions;
      && (SomeActive(slots) ==> Shows(after, st.conditions, ConditionType.Running, "Caffe2JobRunning",
                                      "Caffe2Job " + job.name + " is running.", now))
      && (AllSucceeded(slots) ==> Shows(after, st.conditions, ConditionType.Succeeded, "Caffe2JobSucceeded",
                                        "Caffe2Job " + job.name + " is successfully completed.", now))
      && (SomeFailed(slots) ==> Shows(after, st.conditions, ConditionType.Failed, "Caffe2JobFailed",
                                      "Caffe2Job " + job.name + " is failed.", now))
  {
    var slots := SlotsOf(claimed, job.replicas as nat);
    var l := RunLoop(slots, Maker(job, t), creates);
    LoopBounded(slots, |slots|, Maker(job, t), creates);
    BranchesReadTheSlots(slots, Maker(job, t), creates);
    UpdateShows(job.name, st.(replicaStatuses := Some(Counters(l))), job.replicas, now);
  }

  lemma AddShows(name: string, replicas: int32, st: JobStatus, now: Time)
    ensures Shows(ApplyUpdate(name, replicas, st, JobAdded(now)).conditions, st.conditions, Created,
                  "Caffe2JobCreated", "Caffe2Job " + name + " is created.", now)
  {
    RecordedShows(st, Created, CREATED_REASON, CreatedMessage(name), now);
  }

  /** The counters are those of the first n slots. */
  predicate CountsUpTo(rs: ReplicaStatus, slots: seq<seq<Pod>>, n: nat)
    requires n <= |slots|
  {
    && rs.active as int == ActiveCount(slots, n)
    && rs.succeeded as int == Count(slots, n, Single(Phase.Succeeded))
    && rs.failed as int == Count(slots, n, Single(Phase.Failed))
  }

  /** The counters a pass leaves are those of all slots, or of the slots before the first creation that failed,
      whose answer is then its error; in that case nothing else of the status changes. */
  lemma PassCounts(job: JobInfo, t: TemplateValue, st: JobStatus, claimed: seq<Pod>, creates: nat -> Option<Error>,
                   now: Time)
    returns (n: nat)
    requires job.replicas >= 0
    ensures
      var slots, rec := SlotsOf(claimed, job.replicas as nat), ReconcileOf(job, t, st, claimed, creates, now);
      && n <= |slots| && rec.status.replicaStatuses.Some? && CountsUpTo(rec.status.replicaStatuses.value, slots, n)
      && (n == |slots| ==> rec.loop.err == None)
      && (n < |slots| ==>
            && rec.loop.err != None && rec.loop.err == creates(n)
            && |slots[n]| == 0 && Reached(slots, n, creates)
            && rec.status == st.(replicaStatuses := rec.status.replicaStatuses))
  {
    var slots, make := SlotsOf(claimed, job.replicas as nat), Maker(job, t);
    var l := RunLoop(slots, make, creates);
    LoopBounded(slots, |slots|, make, creates);
    if l.err == None {
      n := |slots|;
      UpdateKeepsCounters(job.name, st.(replicaStatuses := Some(Counters(l))), job.replicas, now);
    } else {
      n := StopsAt(slots, |slots|, make, creates);
      LoopCreates(slots, n, make, creates);
    }
    LoopCounts(slots, n, make, creates);
  }

  /** No call of a claim pass or of the slot loop reports a status. */
  lemma {:induction false} ClaimsReportNothing(owner: Owner, pods: seq<Pod>, replies: seq<PodReply>)
    requires |pods| == |replies|
    ensures forall c :: c in ClaimAll(owner, pods, replies).calls ==> c.GetJob? || c.PatchPod?
  {
    if |pods| > 0 {
      ClaimsReportNothing(owner, pods[..|pods| - 1], replies[..|pods| - 1]);
    }
  }

  lemma {:induction false} LoopReportsNothing(slots: seq<seq<Pod>>, n: nat, make: nat -> NewPod,
                                              creates: nat -> Option<Error>)
    requires n <= |slots|
    ensures forall c :: c in LoopUpTo(slots, n, make, creates).calls ==> c.CreatePod?
  {
    if n > 0 {
      LoopReportsNothing(slots, n - 1, make, creates);
    }
  }

  /** The counters of a status account for every slot. */
  predicate Accounts(st: JobStatus, slots: seq<seq<Pod>>) {
    && st.replicaStatuses.Some?
    && var rs := st.replicaStatuses.value;
       rs.active as int + rs.succeeded as int + rs.failed as int
       + Count(slots, |slots|, Several) + Count(slots, |slots|, Single(OtherPhase)) == |slots|
  }

  /** A status is sent by the last call alone; it is the one just derived and accounts for the slots. */
  predicate ReportsSlots(p: PassResult, slots: seq<seq<Pod>>) {
    forall i :: 0 <= i < |p.calls| && p.calls[i].UpdateJob? ==>
      i == |p.calls| - 1 && p.calls[i] == UpdateJob(p.status) && Accounts(p.status, slots)
  }

  /** Whole passes: a status is sent only as the last call of a pass in which listing and claiming went
      well; it is the status just derived, and its counters account for every slot of that pass's pod
      list. By StoppedPassIsSilent one in which a creation failed sends nothing either. */
  lemma StatusSentIsConserved(job: JobInfo, t: TemplateValue, st: JobStatus, r: Replies, n: nat, now: Time)
    requires job.replicas >= 0
    ensures
      var p, f := PassOf(job, t, st, r, n, now), FetchOf(job.AsOwner(), r, n);
      && (f.err != None ==> forall c :: c in p.calls ==> !c.UpdateJob?)
      && (f.err == None ==> ReportsSlots(p, SlotsOf(f.claimed, job.replicas as nat)))
  {
    FetchReportsNothing(job.AsOwner(), r, n);
    PassReports(FetchOf(job.AsOwner(), r, n), job, t, st, r, n, now);
  }

  lemma PassReports(f: Fetched, job: JobInfo, t: TemplateValue, st: JobStatus, r: Replies, n: nat, now: Time)
    requires job.replicas >= 0 && forall c :: c in f.calls ==> !c.UpdateJob?
    ensures
      var p := PassFrom(f, job, t, st, r, n, now);
      && (f.err != None ==> forall c :: c in p.calls ==> !c.UpdateJob?)
      && (f.err == None ==> ReportsSlots(p, SlotsOf(f.claimed, job.replicas as nat)))
  {
    var rest := RestReports(f, job, t, st, r, n, now);
    JoinedReports(f, st, rest, SlotsOf(f.claimed, job.replicas as nat));
  }

  lemma RestReports(f: Fetched, job: JobInfo, t: TemplateValue, st: JobStatus, r: Replies, n: nat, now: Time)
    returns (rest: PassResult)
    requires job.replicas >= 0
    ensures ReportsSlots(rest, SlotsOf(f.claimed, job.replicas as nat))
    ensures PassFrom(f, job, t, st, r, n, now) == Joined(f, st, rest)
  {
    var m := n + |f.calls|;
    rest := AfterFetch(job, t, st, f.claimed, r, m, now);
    PassFromJoins(f, job, t, st, r, n, now, m, rest);
    AfterFetchReports(job, t, st, f.claimed, r, m, now, rest);
  }

  lemma JoinedReports(f: Fetched, st: JobStatus, rest: PassResult, slots: seq<seq<Pod>>)
    requires (forall c :: c in f.calls ==> !c.UpdateJob?) && ReportsSlots(rest, slots)
    ensures f.err != None ==> forall c :: c in Joined(f, st, rest).calls ==> !c.UpdateJob?
    ensures f.err == None ==> ReportsSlots(Joined(f, st, rest), slots)
  {
  }

  lemma FetchReportsNothing(owner: Owner, r: Replies, n: nat)
    ensures forall c :: c in FetchOf(owner, r, n).calls ==> !c.UpdateJob?
  {
    match r.list(n)
    case Err(_) =>
    case Ok(pods) => ClaimsReportNothing(owner, pods, RepliesUsed(owner, None, pods, r, n + 1));
  }

  lemma AfterFetchReports(job: JobInfo, t: TemplateValue, st: JobStatus, claimed: seq<Pod>, r: Replies, n: nat,
                          now: Time, rest: PassResult)
    requires job.replicas >= 0 && rest == AfterFetch(job, t, st, claimed, r, n, now)
    ensures ReportsSlots(rest, SlotsOf(claimed, job.replicas as nat))
  {
    var slots := SlotsOf(claimed, job.replicas as nat);
    var creates, make := CreatesUsed(slots, r, n), Maker(job, t);
    LoopReportsNothing(slots, |slots|, make, creates);
    LoopBounded(slots, |slots|, make, creates);
    var l := RunLoop(slots, make, creates);
    var p := AfterFetch(job, t, st, claimed, r, n, now);
    if l.err == None {
      LoopConserves(slots, make, creates);
      UpdateKeepsCounters(job.name, st.(replicaStatuses := Some(Counters(l))), job.replicas, now);
    }
    assert forall i :: 0 <= i < |l.calls| ==> p.calls[i] == l.calls[i] && l.calls[i].CreatePod?;
  }

  /** A pass in which a creation failed sends nothing. */
  lemma StoppedPassIsSilent(job: JobInfo, t: TemplateValue, st: JobStatus, claimed: seq<Pod>, r: Replies, n: nat,
                            now: Time)
    requires job.replicas >= 0
    requires
      var slots := SlotsOf(claimed, job.replicas as nat);
      RunLoop(slots, Maker(job, t), CreatesUsed(slots, r, n)).err != None
    ensures forall c :: c in AfterFetch(job, t, st, claimed, r, n, now).calls ==> !c.UpdateJob?
  {
    var slots := SlotsOf(claimed, job.replicas as nat);
    LoopReportsNothing(slots, |slots|, Maker(job, t), CreatesUsed(slots, r, n));
  }

  lemma UpdateKeepsCounters(name: string, st: JobStatus, replicas: int32, now: Time)
    requires st.replicaStatuses.Some?
    ensures UpdatedStatus(name, st, replicas, now).replicaStatuses == st.replicaStatuses
  {
  }

  // ----- the condition list over whole runs -----

  /** What the controller ever does to a status. */
  datatype StatusUpdate =
    | JobAdded(now: Time)
    | PassDone(counters: ReplicaStatus, now: Time)
    | PassStopped(counters: ReplicaStatus)

  function ApplyUpdate(name: string, replicas: int32, st: JobStatus, u: StatusUpdate): JobStatus {
    match u
    case JobAdded(now) => Recorded(st, Created, CREATED_REASON, CreatedMessage(name), now)
    case PassDone(rs, now) => UpdatedStatus(name, st.(replicaStatuses := Some(rs)), replicas, now)
    case PassStopped(rs) => st.(replicaStatuses := Some(rs))
  }

  function StatusAfter(name: string, replicas: int32, updates: seq<StatusUpdate>): JobStatus {
    if |updates| == 0 then JobStatus([], None, None, None)
    else ApplyUpdate(name, replicas, StatusAfter(name, replicas, updates[..|updates| - 1]), updates[|updates| - 1])
  }

  /** Every pass is such an update. */
  lemma PassIsUpdate(job: JobInfo, t: TemplateValue, st: JobStatus, claimed: seq<Pod>, creates: nat -> Option<Error>,
                     now: Time)
    returns (u: StatusUpdate)
    requires job.replicas >= 0
    ensures ReconcileOf(job, t, st, claimed, creates, now).status == ApplyUpdate(job.name, job.replicas, st, u)
    ensures u.PassDone? <==> ReconcileOf(job, t, st, claimed, creates, now).loop.err == None
  {
    var slots := SlotsOf(claimed, job.replicas as nat);
    LoopBounded(slots, |slots|, Maker(job, t), creates);
    var l := RunLoop(slots, Maker(job, t), creates);
    u := if l.err == None then PassDone(Counters(l), now) else PassStopped(Counters(l));
  }

  function ReasonFor(kind: ConditionType): string {
    match kind
    case Created => CREATED_REASON
    case Running => RUNNING_REASON
    case Succeeded => SUCCEEDED_REASON
    case Failed => FAILED_REASON
  }

  /** Each type occurs once, true, with its own fixed reason. */
  predicate Orderly(conditions: seq<Condition>) {
    && UniqueTypes(conditions)
    && forall c :: c in conditions ==> c.status == True && c.reason == ReasonFor(c.kind)
  }

  /** On an orderly list, recording a condition again changes nothing, and recording a new one adds
      it at the end. */
  lemma RecordingAppends(conditions: seq<Condition>, c: Condition)
    requires Orderly(conditions) && c.status == True && c.reason == ReasonFor(c.kind)
    ensures WithCondition(conditions, c) == if Find(conditions, c.kind).Some? then conditions else conditions + [c]
    ensures Orderly(WithCondition(conditions, c)) && conditions <= WithCondition(conditions, c)
  {
    FindIs(conditions, c.kind);
    if Find(conditions, c.kind).None? {
      WithoutNone(conditions, c.kind);
      OrderlyAppended(conditions, c);
    }
  }

  lemma OrderlyAppended(conditions: seq<Condition>, c: Condition)
    requires Orderly(conditions) && c.status == True && c.reason == ReasonFor(c.kind)
    requires forall d :: d in conditions ==> d.kind != c.kind
    ensures Orderly(conditions + [c])
  {
    forall i, j | 0 <= i < j < |conditions + [c]| ensures (conditions + [c])[i].kind != (conditions + [c])[j].kind {
      assert conditions[i] in conditions;
    }
  }

  predicate CompletionSound(st: JobStatus) {
    Orderly(st.conditions) && (st.completionTime.Some? <==> Find(st.conditions, ConditionType.Succeeded).Some?)
  }

  predicate Sound(st: JobStatus, replicas: int32) {
    CompletionSound(st) && (replicas > 0 && st.startTime.Some? ==> Find(st.conditions, ConditionType.Running).Some?)
  }

  /** Recording keeps everything found so far, and adds only its own type. */
  lemma RecordedFinds(st: JobStatus, kind: ConditionType, message: string, now: Time)
    requires Orderly(st.conditions)
    ensures
      var after := Recorded(st, kind, ReasonFor(kind), message, now);
      && Orderly(after.conditions) && st.conditions <= after.conditions
      && Find(after.conditions, kind).Some?
      && (forall other :: other != kind ==> Find(after.conditions, other) == Find(st.conditions, other))
      && after.startTime == st.startTime && after.completionTime == st.completionTime
  {
    var c := NewCondition(kind, ReasonFor(kind), message, now);
    RecordingAppends(st.conditions, c);
    FoundAfter(st.conditions, c);
  }

  /** Running is recorded whenever a start time is set for replicas > 0. */
  lemma RunningPartSound(name: string, st: JobStatus, rs: ReplicaStatus, replicas: int32, now: Time)
    requires Sound(st, replicas)
    ensures Sound(RunningPart(name, st, rs, replicas, now), replicas)
    ensures st.conditions <= RunningPart(name, st, rs, replicas, now).conditions
  {
    var started := if rs.active == replicas then st.(startTime := Some(now)) else st;
    RecordedFinds(started, ConditionType.Running, RunningMessage(name), now);
  }

  lemma SucceededPartSound(name: string, st: JobStatus, rs: ReplicaStatus, replicas: int32, now: Time)
    requires Sound(st, replicas)
    ensures Sound(SucceededPart(name, st, rs, replicas, now), replicas)
    ensures st.conditions <= SucceededPart(name, st, rs, replicas, now).conditions
  {
    RecordedFinds(st.(completionTime := Some(now)), ConditionType.Succeeded, SucceededMessage(name), now);
  }

  lemma FailedPartSound(name: string, st: JobStatus, rs: ReplicaStatus, replicas: int32, now: Time)
    requires Sound(st, replicas)
    ensures Sound(FailedPart(name, st, rs, now), replicas)
    ensures st.conditions <= FailedPart(name, st, rs, now).conditions
  {
    RecordedFinds(st, ConditionType.Failed, FailedMessage(name), now);
  }

  lemma UpdatedStatusSound(name: string, replicas: int32, st: JobStatus, now: Time)
    requires st.replicaStatuses.Some? && Sound(st, replicas)
    ensures Sound(UpdatedStatus(name, st, replicas, now), replicas)
    ensures st.conditions <= UpdatedStatus(name, st, replicas, now).conditions
  {
    var rs := st.replicaStatuses.value;
    var s2 := RunningPart(name, st, rs, replicas, now);
    var s3 := SucceededPart(name, s2, rs, replicas, now);
    RunningPartSound(name, st, rs, replicas, now);
    SucceededPartSound(name, s2, rs, replicas, now);
    FailedPartSound(name, s3, rs, replicas, now);
  }

  lemma UpdateKeepsSound(name: string, replicas: int32, st: JobStatus, u: StatusUpdate)
    requires Sound(st, replicas)
    ensures Sound(ApplyUpdate(name, replicas, st, u), replicas)
    ensures st.conditions <= ApplyUpdate(name, replicas, st, u).conditions
  {
    match u
    case JobAdded(now) => RecordedFinds(st, Created, CreatedMessage(name), now);
    case PassStopped(rs) =>
    case PassDone(rs, now) => UpdatedStatusSound(name, replicas, st.(replicaStatuses := Some(rs)), now);
  }

  /** Over every run in which no status is reloaded: condition types stay unique, each condition is true
      with its own reason, CompletionTime is set exactly if Succeeded is recorded, and with replicas > 0 a
      StartTime implies that Running is recorded. */
  lemma {:induction false} StatusStaysSound(name: string, replicas: int32, updates: seq<StatusUpdate>)
    ensures Sound(StatusAfter(name, replicas, updates), replicas)
  {
    if |updates| > 0 {
      var k := |updates| - 1;
      StatusStaysSound(name, replicas, updates[..k]);
      UpdateKeepsSound(name, replicas, StatusAfter(name, replicas, updates[..k]), updates[k]);
    }
  }

  /** Unless a status is reloaded, a condition once recorded is never altered, moved or dropped: each
      earlier list is a prefix of each later one. */
  lemma {:induction false} ConditionsOnlyGrow(name: string, replicas: int32, updates: seq<StatusUpdate>, n: nat)
    requires n <= |updates|
    ensures StatusAfter(name, replicas, updates[..n]).conditions <= StatusAfter(name, replicas, updates).conditions
  {
    if n == |updates| {
      assert updates[..n] == updates;
    } else {
      var k := |updates| - 1;
      assert updates[..k][..n] == updates[..n];
      ConditionsOnlyGrow(name, replicas, updates[..k], n);
      StatusStaysSound(name, replicas, updates[..k]);
      UpdateKeepsSound(name, replicas, StatusAfter(name, replicas, updates[..k]), updates[k]);
    }
  }

  // ----- the times over whole runs -----

  /** The time of the last pass after which all replicas were counted as succeeded. */
  function LastAllSucceeded(replicas: int32, updates: seq<StatusUpdate>): Option<Time> {
    if |updates| == 0 then None
    else
      var u := updates[|updates| - 1];
      if u.PassDone? && u.counters.succeeded == replicas then Some(u.now)
      else LastAllSucceeded(replicas, updates[..|updates| - 1])
  }

  /** The time of the last pass after which all replicas were counted as active. */
  function LastAllActive(replicas: int32, updates: seq<StatusUpdate>): Option<Time> {
    if |updates| == 0 then None
    else
      var u := updates[|updates| - 1];
      if u.PassDone? && u.counters.active == replicas then Some(u.now)
      else LastAllActive(replicas, updates[..|updates| - 1])
  }

  /** Both times are those of the last pass that met their condition: each such pass overwrites them. */
  lemma {:induction false} TimesAreTheLast(name: string, replicas: int32, updates: seq<StatusUpdate>)
    ensures StatusAfter(name, replicas, updates).completionTime == LastAllSucceeded(replicas, updates)
    ensures StatusAfter(name, replicas, updates).startTime == LastAllActive(replicas, updates)
  {
    if |updates| > 0 {
      TimesAreTheLast(name, replicas, updates[..|updates| - 1]);
    }
  }

  /** So neither time is written once: two passes that find all replicas succeeded, or all active. */
  lemma TimesAreOverwritten(name: string, replicas: int32, earlier: Time, later: Time)
    ensures
      var done := ReplicaStatus(0, replicas, 0);
      && StatusAfter(name, replicas, [PassDone(done, earlier)]).completionTime == Some(earlier)
      && StatusAfter(name, replicas, [PassDone(done, earlier), PassDone(done, later)]).completionTime == Some(later)
    ensures
      var busy := ReplicaStatus(replicas, 0, 0);
      && StatusAfter(name, replicas, [PassDone(busy, earlier)]).startTime == Some(earlier)
      && StatusAfter(name, replicas, [PassDone(busy, earlier), PassDone(busy, later)]).startTime == Some(later)
  {
    var done, busy := ReplicaStatus(0, replicas, 0), ReplicaStatus(replicas, 0, 0);
    TimesAreTheLast(name, replicas, [PassDone(done, earlier)]);
    TimesAreTheLast(name, replicas, [PassDone(done, earlier), PassDone(done, later)]);
    TimesAreTheLast(name, replicas, [PassDone(busy, earlier)]);
    TimesAreTheLast(name, replicas, [PassDone(busy, earlier), PassDone(busy, later)]);
  }
}
