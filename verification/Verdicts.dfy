/** Success and failure exclude each other over every run of one job, although its passes work
    from a cache that lags behind the server, creations can go wrong or double, and a status can
    be lost on its way to the server. Assumed of the environment: pods that match the job's selector
    are neither removed nor relabelled, their terminal phases stick, no other controller takes
    them, and the cache only moves forward. All other pods may do anything. */
module Verdicts {
  import opened Wrappers
  import opened Kube
  import opened Types
  import opened Claims
  import opened Api
  import opened RefManager
  import opened PodFactory
  import opened Slots
  import opened Conditions
  import opened Counting
  import opened Reconcile
  import opened StatusRuns

  datatype Job = Job(info: JobInfo, template: TemplateValue)

  /** How a matching pod may change. */
  predicate Moves(owner: Owner, a: Pod, b: Pod) {
    && b.uid == a.uid && b.labels == a.labels && !b.deleting
    && (a.phase == Phase.Succeeded || a.phase == Phase.Failed ==> b.phase == a.phase)
    && (GetControllerOf(a) == None ==> GetControllerOf(b) == None || ControlledBy(b, owner.uid))
    && (ControlledBy(a, owner.uid) ==> ControlledBy(b, owner.uid))
  }

  ghost predicate Forward(owner: Owner, a: map<UID, Pod>, b: map<UID, Pod>) {
    forall uid :: uid in a && Matches(owner.selector, a[uid].labels) ==> uid in b && Moves(owner, a[uid], b[uid])
  }

  ghost predicate NoneDeleting(owner: Owner, pods: map<UID, Pod>) {
    forall uid :: uid in pods ==>
      pods[uid].uid == uid && (Matches(owner.selector, pods[uid].labels) ==> !pods[uid].deleting)
  }

  /** `succeeded` and `failed` remember whether any pass of the run has derived that verdict. */
  datatype World = World(
    server: map<UID, Pod>, cache: map<UID, Pod>,
    status: JobStatus, saved: JobStatus, succeeded: bool, failed: bool)

  datatype Step =
    | ServerMoves(server: map<UID, Pod>)
    | CacheMoves(cache: map<UID, Pod>)
    | PassRuns(list: seq<Pod>, replies: seq<PodReply>, creates: nat -> Option<Error>, now: Time, accepted: bool)
    | StatusReloaded
    | JobSeen(now: Time)

  /** The lister returns each cached pod once, in any order. */
  ghost predicate Enumerates(list: seq<Pod>, cache: map<UID, Pod>) {
    && (forall i :: 0 <= i < |list| ==> list[i].uid in cache && cache[list[i].uid] == list[i])
    && (forall i, j :: 0 <= i < j < |list| ==> list[i].uid != list[j].uid)
    && (forall uid :: uid in cache ==> cache[uid] in list)
  }

  /** No matching pod is removed, so no patch of one is answered 404. */
  predicate NothingIsGone(owner: Owner, list: seq<Pod>, replies: seq<PodReply>)
    requires |list| == |replies|
  {
    forall i :: 0 <= i < |list| && Matches(owner.selector, list[i].labels) ==>
        replies[i].patch != Some(Status(NotFound))
  }

  ghost predicate Enabled(job: Job, w: World, step: Step) {
    match step
    case ServerMoves(server) =>
      Forward(job.info.AsOwner(), w.server, server) && NoneDeleting(job.info.AsOwner(), server)
    case CacheMoves(cache) =>
      && Forward(job.info.AsOwner(), w.cache, cache) && Forward(job.info.AsOwner(), cache, w.server)
      && NoneDeleting(job.info.AsOwner(), cache)
    case PassRuns(list, replies, _, _, _) =>
      Enumerates(list, w.cache) && |replies| == |list| && NothingIsGone(job.info.AsOwner(), list, replies)
    case StatusReloaded => true
    case JobSeen(_) => true
  }

  /** The pods a pass claims, if it gets that far. */
  function ClaimedBy(owner: Owner, list: seq<Pod>, replies: seq<PodReply>): seq<Pod>
    requires |list| == |replies|
  {
    Select(list, ClaimAll(owner, list, replies).outcomes)
  }

  predicate ClaimsWell(owner: Owner, list: seq<Pod>, replies: seq<PodReply>)
    requires |list| == |replies|
  {
    NewAggregate(ErrorsOf(ClaimAll(owner, list, replies).outcomes)) == None
  }

  ghost function Apply(job: Job, w: World, step: Step): World
    requires job.info.replicas >= 0
  {
    if !Enabled(job, w, step) then w else
    match step
    case ServerMoves(server) => w.(server := server)
    case CacheMoves(cache) => w.(cache := cache)
    case PassRuns(list, replies, creates, now, accepted) =>
      if !ClaimsWell(job.info.AsOwner(), list, replies) then w
      else AfterClaims(job, w, ClaimedBy(job.info.AsOwner(), list, replies), creates, now, accepted)
    case StatusReloaded => w.(status := w.saved)
    case JobSeen(now) => w.(status := ApplyUpdate(job.info.name, job.info.replicas, w.status, JobAdded(now)))
  }

  /** The rest of a pass; `accepted` says whether the status reaches the server. */
  function AfterClaims(job: Job, w: World, claimed: seq<Pod>, creates: nat -> Option<Error>, now: Time,
                       accepted: bool): World
    requires job.info.replicas >= 0
  {
    var r := ReconcileOf(job.info, job.template, w.status, claimed, creates, now);
    if r.loop.err != None then w.(status := r.status)
    else
      var slots := SlotsOf(claimed, job.info.replicas as nat);
      w.(status := r.status, saved := if accepted then r.status else w.saved,
         succeeded := w.succeeded || AllSucceeded(slots), failed := w.failed || SomeFailed(slots))
  }

  ghost function WorldAt(job: Job, w0: World, steps: seq<Step>): World
    requires job.info.replicas >= 0
  {
    if |steps| == 0 then w0 else Apply(job, WorldAt(job, w0, steps[..|steps| - 1]), steps[|steps| - 1])
  }

  predicate Initial(w: World) {
    && w.server == map[] && w.cache == map[] && !w.succeeded && !w.failed
    && w.status.conditions == [] && w.saved.conditions == []
  }

  /** A cached pod that every later error-free pass will claim into slot i, in this phase for good. */
  predicate Locked(owner: Owner, replicas: nat, p: Pod, i: nat, phase: Phase) {
    InSlot(p, i, replicas) && p.phase == phase && Decide(owner, p) in {Keep, TryAdopt}
  }

  ghost predicate SomeLocked(owner: Owner, replicas: nat, cache: map<UID, Pod>, i: nat, phase: Phase) {
    exists uid :: uid in cache && Locked(owner, replicas, cache[uid], i, phase)
  }

  ghost predicate AllLocked(owner: Owner, replicas: nat, cache: map<UID, Pod>) {
    forall i: nat :: i < replicas ==> SomeLocked(owner, replicas, cache, i, Phase.Succeeded)
  }

  ghost predicate OneLockedFailed(owner: Owner, replicas: nat, cache: map<UID, Pod>) {
    exists i: nat :: i < replicas && SomeLocked(owner, replicas, cache, i, Phase.Failed)
  }

  /** A lock is kept by the cache. */
  lemma LockStays(owner: Owner, replicas: nat, a: map<UID, Pod>, b: map<UID, Pod>, i: nat, phase: Phase)
    requires Forward(owner, a, b)
    requires phase == Phase.Succeeded || phase == Phase.Failed
    requires SomeLocked(owner, replicas, a, i, phase)
    ensures SomeLocked(owner, replicas, b, i, phase)
  {
    var uid :| uid in a && Locked(owner, replicas, a[uid], i, phase);
    WantedMatches(owner, a[uid]);
    LockMoves(owner, replicas, a[uid], b[uid], i, phase);
  }

  lemma LockMoves(owner: Owner, replicas: nat, a: Pod, b: Pod, i: nat, phase: Phase)
    requires Moves(owner, a, b) && Locked(owner, replicas, a, i, phase)
    requires phase == Phase.Succeeded || phase == Phase.Failed
    ensures Locked(owner, replicas, b, i, phase)
  {
  }

  lemma WantedMatches(owner: Owner, pod: Pod)
    requires Decide(owner, pod) in {Keep, TryAdopt}
    ensures Matches(owner.selector, pod.labels)
  {
  }

  // ----- slots and locks -----

  /** A listed pod that is to be kept or adopted is claimed by every error-free pass. */
  lemma WantedIsClaimed(owner: Owner, list: seq<Pod>, replies: seq<PodReply>, k: nat)
    requires |replies| == |list| && k < |list| && NothingIsGone(owner, list, replies)
    requires ClaimsWell(owner, list, replies)
    requires Decide(owner, list[k]) in {Keep, TryAdopt}
    ensures list[k] in ClaimedBy(owner, list, replies)
  {
    var outcomes := ClaimAll(owner, list, replies).outcomes;
    OutcomesExact(owner, list, replies, k);
    ErrorsOfEmpty(outcomes);
    assert !IsFailure(outcomes[k]);
    ClaimedIsSelected(list, outcomes, k);
  }

  lemma ClaimedIsSelected(list: seq<Pod>, outcomes: seq<Outcome>, k: nat)
    requires |outcomes| == |list| && k < |list| && IsClaimed(outcomes[k])
    ensures list[k] in Select(list, outcomes)
  {
    var at := SelectIsSubsequence(list, outcomes);
    var j :| 0 <= j < |at| && at[j] == k;
    assert Select(list, outcomes)[j] == list[k];
  }

  /** A claimed pod was listed, and was to be kept or adopted. */
  lemma ClaimedIsWanted(owner: Owner, list: seq<Pod>, replies: seq<PodReply>, p: Pod)
    requires |replies| == |list| && p in ClaimedBy(owner, list, replies)
    ensures p in list && Decide(owner, p) in {Keep, TryAdopt}
  {
    var outcomes := ClaimAll(owner, list, replies).outcomes;
    var at := SelectIsSubsequence(list, outcomes);
    var j :| 0 <= j < |at| && Select(list, outcomes)[j] == p;
    OutcomesExact(owner, list, replies, at[j]);
  }

  lemma InSlotsOf(claimed: seq<Pod>, replicas: nat, i: nat, p: Pod)
    requires i < replicas
    ensures p in SlotsOf(claimed, replicas)[i] <==> p in claimed && InSlot(p, i, replicas)
  {
    SlotMembers(Workers(claimed), i, replicas, p);
    WorkersMembers(claimed, p);
  }

  lemma LockedIsInSlot(owner: Owner, replicas: nat, cache: map<UID, Pod>, list: seq<Pod>, replies: seq<PodReply>,
                       uid: UID, i: nat, phase: Phase)
    requires i < replicas
    requires Enumerates(list, cache) && |replies| == |list| && NothingIsGone(owner, list, replies)
    requires ClaimsWell(owner, list, replies)
    requires uid in cache && Locked(owner, replicas, cache[uid], i, phase)
    ensures cache[uid] in SlotsOf(ClaimedBy(owner, list, replies), replicas)[i]
  {
    assert cache[uid] in list;
    var k :| 0 <= k < |list| && list[k] == cache[uid];
    WantedIsClaimed(owner, list, replies, k);
    InSlotsOf(ClaimedBy(owner, list, replies), replicas, i, list[k]);
  }

  lemma InSlotIsLocked(owner: Owner, replicas: nat, cache: map<UID, Pod>, list: seq<Pod>, replies: seq<PodReply>,
                       i: nat, p: Pod)
    requires i < replicas && Enumerates(list, cache) && |replies| == |list|
    requires p in SlotsOf(ClaimedBy(owner, list, replies), replicas)[i]
    ensures SomeLocked(owner, replicas, cache, i, p.phase)
  {
    InSlotsOf(ClaimedBy(owner, list, replies), replicas, i, p);
    ClaimedIsWanted(owner, list, replies, p);
    assert Locked(owner, replicas, cache[p.uid], i, p.phase);
  }

  lemma OnlyMember(slot: seq<Pod>, phase: Phase, p: Pod)
    requires ClassOf(slot) == Single(phase) && p in slot
    ensures p.phase == phase
  {
  }

  /** In an error-free pass, a single pod in a slot locks the slot in that pod's phase, and agrees with
      every earlier lock of the slot. */
  lemma SingleAgreesWithLock(owner: Owner, replicas: nat, cache: map<UID, Pod>, list: seq<Pod>,
                             replies: seq<PodReply>, i: nat, phase: Phase, other: Phase)
    requires i < replicas
    requires Enumerates(list, cache) && |replies| == |list| && NothingIsGone(owner, list, replies)
    requires ClaimsWell(owner, list, replies)
    requires ClassOf(SlotsOf(ClaimedBy(owner, list, replies), replicas)[i]) == Single(phase)
    ensures SomeLocked(owner, replicas, cache, i, phase)
    ensures SomeLocked(owner, replicas, cache, i, other) ==> other == phase
  {
    var slot := SlotsOf(ClaimedBy(owner, list, replies), replicas)[i];
    InSlotIsLocked(owner, replicas, cache, list, replies, i, slot[0]);
    if SomeLocked(owner, replicas, cache, i, other) {
      var uid :| uid in cache && Locked(owner, replicas, cache[uid], i, other);
      LockedIsInSlot(owner, replicas, cache, list, replies, uid, i, other);
      OnlyMember(slot, phase, cache[uid]);
    }
  }

  /** One error-free pass: success locks every slot, failure locks one, and neither can be derived
      once the other has been locked. */
  lemma PassVerdicts(owner: Owner, replicas: nat, cache: map<UID, Pod>, list: seq<Pod>, replies: seq<PodReply>)
    requires Enumerates(list, cache) && |replies| == |list| && NothingIsGone(owner, list, replies)
    requires ClaimsWell(owner, list, replies)
    ensures
      var slots := SlotsOf(ClaimedBy(owner, list, replies), replicas);
      && (AllSucceeded(slots) ==> AllLocked(owner, replicas, cache) && !OneLockedFailed(owner, replicas, cache))
      && (SomeFailed(slots) ==> OneLockedFailed(owner, replicas, cache) && !AllLocked(owner, replicas, cache))
  {
    var slots := SlotsOf(ClaimedBy(owner, list, replies), replicas);
    if AllSucceeded(slots) {
      forall i: nat | i < replicas
        ensures SomeLocked(owner, replicas, cache, i, Phase.Succeeded)
        ensures !SomeLocked(owner, replicas, cache, i, Phase.Failed)
      {
        SingleAgreesWithLock(owner, replicas, cache, list, replies, i, Phase.Succeeded, Phase.Failed);
      }
    }
    if SomeFailed(slots) {
      var i :| 0 <= i < |slots| && ClassOf(slots[i]) == Single(Phase.Failed);
      SingleAgreesWithLock(owner, replicas, cache, list, replies, i, Phase.Failed, Phase.Succeeded);
      assert !SomeLocked(owner, replicas, cache, i, Phase.Succeeded);
    }
  }

  // ----- over runs -----

  ghost predicate Inv(job: Job, w: World)
    requires job.info.replicas >= 0
  {
    && (w.succeeded ==> AllLocked(job.info.AsOwner(), job.info.replicas as nat, w.cache))
    && (w.failed ==> OneLockedFailed(job.info.AsOwner(), job.info.replicas as nat, w.cache))
    && !(w.succeeded && w.failed)
    && RecordsOnly(w.status, w.succeeded, w.failed)
    && RecordsOnly(w.saved, w.succeeded, w.failed)
  }

  /** A status records only verdicts that some pass has derived. */
  predicate RecordsOnly(st: JobStatus, succeeded: bool, failed: bool) {
    && (Find(st.conditions, ConditionType.Succeeded).Some? ==> succeeded)
    && (Find(st.conditions, ConditionType.Failed).Some? ==> failed)
  }

  lemma LocksStay(owner: Owner, replicas: nat, a: map<UID, Pod>, b: map<UID, Pod>)
    requires Forward(owner, a, b)
    ensures AllLocked(owner, replicas, a) ==> AllLocked(owner, replicas, b)
    ensures OneLockedFailed(owner, replicas, a) ==> OneLockedFailed(owner, replicas, b)
  {
    if AllLocked(owner, replicas, a) {
      forall i: nat | i < replicas ensures SomeLocked(owner, replicas, b, i, Phase.Succeeded) {
        LockStays(owner, replicas, a, b, i, Phase.Succeeded);
      }
    }
    if OneLockedFailed(owner, replicas, a) {
      var i: nat :| i < replicas && SomeLocked(owner, replicas, a, i, Phase.Failed);
      LockStays(owner, replicas, a, b, i, Phase.Failed);
    }
  }

  lemma AfterClaimsRecords(job: Job, w: World, claimed: seq<Pod>, creates: nat -> Option<Error>, now: Time,
                           accepted: bool)
    requires job.info.replicas >= 0
    requires RecordsOnly(w.status, w.succeeded, w.failed) && RecordsOnly(w.saved, w.succeeded, w.failed)
    ensures
      var v := AfterClaims(job, w, claimed, creates, now, accepted);
      RecordsOnly(v.status, v.succeeded, v.failed) && RecordsOnly(v.saved, v.succeeded, v.failed)
  {
    if ReconcileOf(job.info, job.template, w.status, claimed, creates, now).loop.err == None {
      PassReadsItsSlots(job.info, job.template, w.status, claimed, creates, now);
    }
  }

  lemma PassKeepsInv(job: Job, w: World, list: seq<Pod>, replies: seq<PodReply>, creates: nat -> Option<Error>,
                     now: Time, accepted: bool)
    requires job.info.replicas >= 0 && Inv(job, w)
    requires Enumerates(list, w.cache) && |replies| == |list|
    requires NothingIsGone(job.info.AsOwner(), list, replies) && ClaimsWell(job.info.AsOwner(), list, replies)
    ensures Inv(job, AfterClaims(job, w, ClaimedBy(job.info.AsOwner(), list, replies), creates, now, accepted))
  {
    PassVerdicts(job.info.AsOwner(), job.info.replicas as nat, w.cache, list, replies);
    AfterClaimsRecords(job, w, ClaimedBy(job.info.AsOwner(), list, replies), creates, now, accepted);
  }

  lemma CacheKeepsInv(job: Job, w: World, cache: map<UID, Pod>)
    requires job.info.replicas >= 0 && Inv(job, w) && Forward(job.info.AsOwner(), w.cache, cache)
    ensures Inv(job, w.(cache := cache))
  {
    LocksStay(job.info.AsOwner(), job.info.replicas as nat, w.cache, cache);
  }

  lemma SeeingKeepsInv(job: Job, w: World, now: Time)
    requires job.info.replicas >= 0 && Inv(job, w)
    ensures Inv(job, w.(status := ApplyUpdate(job.info.name, job.info.replicas, w.status, JobAdded(now))))
  {
    FoundAfter(w.status.conditions, CreatedCondition(job.info.name, now));
  }

  lemma StepKeepsInv(job: Job, w: World, step: Step)
    requires job.info.replicas >= 0 && Inv(job, w)
    ensures Inv(job, Apply(job, w, step))
    ensures w.succeeded ==> Apply(job, w, step).succeeded
    ensures w.failed ==> Apply(job, w, step).failed
  {
    if Enabled(job, w, step) {
      match step
      case ServerMoves(_) =>
      case CacheMoves(cache) => CacheKeepsInv(job, w, cache);
      case StatusReloaded =>
      case JobSeen(now) => SeeingKeepsInv(job, w, now);
      case PassRuns(list, replies, creates, now, accepted) =>
        if ClaimsWell(job.info.AsOwner(), list, replies) {
          PassKeepsInv(job, w, list, replies, creates, now, accepted);
        }
    }
  }

  function CreatedCondition(name: string, now: Time): Condition {
    NewCondition(Created, CREATED_REASON, CreatedMessage(name), now)
  }

  lemma {:induction false} InvHolds(job: Job, w0: World, steps: seq<Step>)
    requires job.info.replicas >= 0 && Initial(w0)
    ensures Inv(job, WorldAt(job, w0, steps))
  {
    if |steps| > 0 {
      InvHolds(job, w0, steps[..|steps| - 1]);
      StepKeepsInv(job, WorldAt(job, w0, steps[..|steps| - 1]), steps[|steps| - 1]);
    }
  }

  lemma {:induction false} VerdictsAreRemembered(job: Job, w0: World, steps: seq<Step>, n: nat)
    requires job.info.replicas >= 0 && Initial(w0) && n <= |steps|
    ensures WorldAt(job, w0, steps[..n]).succeeded ==> WorldAt(job, w0, steps).succeeded
    ensures WorldAt(job, w0, steps[..n]).failed ==> WorldAt(job, w0, steps).failed
  {
    if n == |steps| {
      assert steps[..n] == steps;
    } else {
      var init := steps[..|steps| - 1];
      assert init[..n] == steps[..n];
      VerdictsAreRemembered(job, w0, init, n);
      InvHolds(job, w0, init);
      StepKeepsInv(job, WorldAt(job, w0, init), steps[|steps| - 1]);
    }
  }

  predicate Records(w: World, kind: ConditionType) {
    Find(w.status.conditions, kind).Some? || Find(w.saved.conditions, kind).Some?
  }

  /** If any status of a run, cached or saved, ever records Succeeded, then no status of the run ever
      records Failed, before or after. */
  lemma SucceededAndFailedExclude(job: Job, w0: World, steps: seq<Step>, m: nat, n: nat)
    requires job.info.replicas >= 0 && Initial(w0) && m <= |steps| && n <= |steps|
    ensures Records(WorldAt(job, w0, steps[..m]), ConditionType.Succeeded) ==>
      !Records(WorldAt(job, w0, steps[..n]), ConditionType.Failed)
  {
    InvHolds(job, w0, steps[..m]);
    InvHolds(job, w0, steps[..n]);
    InvHolds(job, w0, steps);
    VerdictsAreRemembered(job, w0, steps, m);
    VerdictsAreRemembered(job, w0, steps, n);
  }

  // ----- the pass of the controller is a step of these runs -----

  /** What a pass leaves of the status, when its fetch came out as f. */
  lemma PassStatusIs(f: Fetched, job: JobInfo, t: TemplateValue, st: JobStatus, r: Replies, n: nat, now: Time,
                     rec: Reconciled)
    requires job.replicas >= 0
    requires rec == ReconcileOf(job, t, st, f.claimed, CreatesAfter(f, job, r, n), now)
    ensures PassFrom(f, job, t, st, r, n, now).status == if f.err != None then st else rec.status
  {
    var m := n + |f.calls|;
    CreatesAfterIs(f, job, r, n, m);
    PassFromJoins(f, job, t, st, r, n, now, m, AfterFetch(job, t, st, f.claimed, r, m, now));
    AfterFetchIs(job, t, st, f.claimed, r, m, now, rec);
  }

  /** A pass of the controller that lists the cache is a step of these runs: the cached status it leaves is
      the status of the step. */
  lemma PassIsStep(job: Job, w: World, r: Replies, n: nat, now: Time, accepted: bool, list: seq<Pod>,
                   replies: seq<PodReply>, f: Fetched)
    requires job.info.replicas >= 0 && r.list(n) == Ok(list) && Enumerates(list, w.cache)
    requires replies == RepliesUsed(job.info.AsOwner(), None, list, r, n + 1)
    requires NothingIsGone(job.info.AsOwner(), list, replies) && f == FetchOf(job.info.AsOwner(), r, n)
    ensures
      var step := PassRuns(list, replies, CreatesAfter(f, job.info, r, n), now, accepted);
      && Enabled(job, w, step)
      && Apply(job, w, step).status == PassOf(job.info, job.template, w.status, r, n, now).status
  {
    FetchIsClaim(job.info.AsOwner(), r, n, list, f);
    var creates := CreatesAfter(f, job.info, r, n);
    var rec := ReconcileOf(job.info, job.template, w.status, f.claimed, creates, now);
    PassStatusIs(f, job.info, job.template, w.status, r, n, now, rec);
    StepStatusIs(job, w, list, replies, creates, now, accepted, rec);
  }

  lemma StepStatusIs(job: Job, w: World, list: seq<Pod>, replies: seq<PodReply>, creates: nat -> Option<Error>,
                     now: Time, accepted: bool, rec: Reconciled)
    requires job.info.replicas >= 0 && |replies| == |list|
    requires
      var claimed := ClaimedBy(job.info.AsOwner(), list, replies);
      rec == ReconcileOf(job.info, job.template, w.status, claimed, creates, now)
    ensures
      var step := PassRuns(list, replies, creates, now, accepted);
      Enabled(job, w, step) ==>
        Apply(job, w, step).status == if ClaimsWell(job.info.AsOwner(), list, replies) then rec.status else w.status
  {
  }

  lemma FetchIsClaim(owner: Owner, r: Replies, n: nat, list: seq<Pod>, f: Fetched)
    requires r.list(n) == Ok(list) && f == FetchOf(owner, r, n)
    ensures f.claimed == ClaimedBy(owner, list, RepliesUsed(owner, None, list, r, n + 1))
    ensures f.err == None <==> ClaimsWell(owner, list, RepliesUsed(owner, None, list, r, n + 1))
  {
  }

  // ----- the statuses of such runs -----

  /** Both statuses are sound, and the cached one extends the saved one. */
  predicate StatusesSound(job: Job, w: World) {
    && Sound(w.status, job.info.replicas) && Sound(w.saved, job.info.replicas)
    && w.saved.conditions <= w.status.conditions
  }

  lemma PassKeepsStatusesSound(job: Job, w: World, claimed: seq<Pod>, creates: nat -> Option<Error>, now: Time,
                               accepted: bool)
    requires job.info.replicas >= 0 && StatusesSound(job, w)
    ensures
      var v := AfterClaims(job, w, claimed, creates, now, accepted);
      StatusesSound(job, v) && w.saved.conditions <= v.saved.conditions && w.status.conditions <= v.status.conditions
  {
    var u := PassIsUpdate(job.info, job.template, w.status, claimed, creates, now);
    UpdateKeepsSound(job.info.name, job.info.replicas, w.status, u);
  }

  lemma StepKeepsStatusesSound(job: Job, w: World, step: Step)
    requires job.info.replicas >= 0 && StatusesSound(job, w)
    ensures StatusesSound(job, Apply(job, w, step))
    ensures w.saved.conditions <= Apply(job, w, step).saved.conditions
    ensures !step.StatusReloaded? ==> w.status.conditions <= Apply(job, w, step).status.conditions
  {
    if Enabled(job, w, step) {
      match step
      case JobSeen(now) => UpdateKeepsSound(job.info.name, job.info.replicas, w.status, JobAdded(now));
      case PassRuns(list, replies, creates, now, accepted) =>
        PassKeepsStatusesSound(job, w, ClaimedBy(job.info.AsOwner(), list, replies), creates, now, accepted);
      case _ =>
    }
  }

  /** Over every run, although a status can be lost and the cached one reloaded: types stay unique, each
      condition is true with its own reason, CompletionTime goes with Succeeded and StartTime with Running,
      in the cached and in the saved status; and the cached conditions extend the saved ones. */
  lemma {:induction false} StatusesStaySound(job: Job, w0: World, steps: seq<Step>)
    requires job.info.replicas >= 0 && StatusesSound(job, w0)
    ensures StatusesSound(job, WorldAt(job, w0, steps))
  {
    if |steps| > 0 {
      StatusesStaySound(job, w0, steps[..|steps| - 1]);
      StepKeepsStatusesSound(job, WorldAt(job, w0, steps[..|steps| - 1]), steps[|steps| - 1]);
    }
  }

  /** What the server has saved is never altered, moved or dropped: each saved list is a prefix of every
      later one. */
  lemma {:induction false} SavedOnlyGrows(job: Job, w0: World, steps: seq<Step>, n: nat)
    requires job.info.replicas >= 0 && StatusesSound(job, w0) && n <= |steps|
    ensures WorldAt(job, w0, steps[..n]).saved.conditions <= WorldAt(job, w0, steps).saved.conditions
  {
    if n == |steps| {
      assert steps[..n] == steps;
    } else {
      var init := steps[..|steps| - 1];
      assert init[..n] == steps[..n];
      SavedOnlyGrows(job, w0, init, n);
      StatusesStaySound(job, w0, init);
      StepKeepsStatusesSound(job, WorldAt(job, w0, init), steps[|steps| - 1]);
    }
  }
}
