/** What one pod-claiming pass decides, as a function of the listed pods and of the
    answers it gets (controller_ref_manager.go), and the exact result of a pass. */
module Claims {
  import opened Wrappers
  import opened Kube
  import opened Api

  /** The cached job on whose behalf a pass runs. */
  datatype Owner = Owner(namespace: string, name: string, uid: UID, deleting: bool, selector: Labels)

  datatype Decision = Ignore | Keep | TryRelease | TryAdopt

  function Decide(owner: Owner, pod: Pod): Decision {
    match GetControllerOf(pod)
    case Some(ref) =>
      if ref.uid != owner.uid then Ignore
      else if Matches(owner.selector, pod.labels) then Keep
      else if owner.deleting then Ignore
      else TryRelease
    case None =>
      if owner.deleting || !Matches(owner.selector, pod.labels) then Ignore
      else if pod.deleting then Ignore
      else TryAdopt
  }

  const GROUP_VERSION := "kubeflow.org/v1alpha1"
  const KIND := "Caffe2Job"

  function OwnerRefFor(name: string, uid: UID): OwnerRef {
    OwnerRef(GROUP_VERSION, KIND, name, uid, Some(true), Some(true))
  }

  function AdoptPatchFor(owner: Owner, pod: Pod): PodPatch {
    AdoptPatch(pod.namespace, pod.name, pod.uid, OwnerRefFor(owner.name, owner.uid))
  }

  function ReleasePatchFor(owner: Owner, pod: Pod): PodPatch {
    ReleasePatch(pod.namespace, pod.name, pod.uid, owner.uid)
  }

  /** The deletion recheck: None means the live job may adopt. */
  function Recheck(owner: Owner, live: Result<LiveJob, Error>): Option<Error> {
    match live
    case Err(e) => Some(RecheckFailed(e))
    case Ok(job) =>
      if job.uid != owner.uid then Some(RecheckFailed(OriginalGone(job.uid, owner.uid)))
      else if job.deleting then Some(JustDeleted(job.uid))
      else None
  }

  datatype Outcome =
    | Ignored
    | Kept
    | Released
    | ReleaseFailed(error: Error)
    | Adopted
    | AdoptGone
    | AdoptFailed(error: Error)

  predicate IsClaimed(o: Outcome) {
    o.Kept? || o.Adopted?
  }

  predicate IsFailure(o: Outcome) {
    o.ReleaseFailed? || o.AdoptFailed?
  }

  /** A release is finished by success, by a missing pod, and by "invalid". */
  function ReleaseOutcome(reply: Option<Error>): Outcome {
    if reply == None || reply.value.IsNotFound() || reply.value.IsInvalid() then Released
    else ReleaseFailed(reply.value)
  }

  function AdoptOutcome(reply: Option<Error>): Outcome {
    if reply == None then Adopted
    else if reply.value.IsNotFound() then AdoptGone
    else AdoptFailed(reply.value)
  }

  /** The answers available while one pod is handled: a live read, then a patch. */
  datatype PodReply = PodReply(live: Result<LiveJob, Error>, patch: Option<Error>)

  /** The remembered recheck: None until it has run. */
  type Remembered = Option<Option<Error>>

  datatype Claim = Claim(memo: Remembered, outcome: Outcome, calls: seq<Call>)

  function ClaimOne(owner: Owner, memo: Remembered, pod: Pod, reply: PodReply): Claim {
    match Decide(owner, pod)
    case Ignore => Claim(memo, Ignored, [])
    case Keep => Claim(memo, Kept, [])
    case TryRelease => Claim(memo, ReleaseOutcome(reply.patch), [PatchPod(ReleasePatchFor(owner, pod))])
    case TryAdopt =>
      var checked := if memo.Some? then memo.value else Recheck(owner, reply.live);
      var read := if memo.Some? then [] else [GetJob(owner.namespace, owner.name)];
      if checked.Some? then Claim(Some(checked), AdoptFailed(CantAdopt(pod.uid, checked.value)), read)
      else Claim(Some(checked), AdoptOutcome(reply.patch), read + [PatchPod(AdoptPatchFor(owner, pod))])
  }

  datatype Claims = Claims(memo: Remembered, outcomes: seq<Outcome>, calls: seq<Call>)

  function ClaimNext(owner: Owner, c: Claims, pod: Pod, reply: PodReply): Claims {
    var one := ClaimOne(owner, c.memo, pod, reply);
    Claims(one.memo, c.outcomes + [one.outcome], c.calls + one.calls)
  }

  /** A list of pods, pod by pod, from what is remembered before. */
  function ClaimFrom(owner: Owner, memo: Remembered, pods: seq<Pod>, replies: seq<PodReply>): (c: Claims)
    requires |pods| == |replies|
    ensures |c.outcomes| == |pods|
  {
    if |pods| == 0 then Claims(memo, [], [])
    else
      var k := |pods| - 1;
      ClaimNext(owner, ClaimFrom(owner, memo, pods[..k], replies[..k]), pods[k], replies[k])
  }

  /** A whole pass. */
  function ClaimAll(owner: Owner, pods: seq<Pod>, replies: seq<PodReply>): (c: Claims)
    requires |pods| == |replies|
    ensures |c.outcomes| == |pods|
  {
    ClaimFrom(owner, None, pods, replies)
  }

  lemma ClaimFromNext(owner: Owner, memo: Remembered, pods: seq<Pod>, pod: Pod, replies: seq<PodReply>, reply: PodReply)
    requires |pods| == |replies|
    ensures ClaimFrom(owner, memo, pods + [pod], replies + [reply])
      == ClaimNext(owner, ClaimFrom(owner, memo, pods, replies), pod, reply)
  {
    assert (pods + [pod])[..|pods|] == pods && (replies + [reply])[..|pods|] == replies;
  }

  /** The pods with a claimed outcome, in list order. */
  function Select(pods: seq<Pod>, outcomes: seq<Outcome>): seq<Pod>
    requires |pods| == |outcomes|
  {
    if |pods| == 0 then []
    else
      var k := |pods| - 1;
      Select(pods[..k], outcomes[..k]) + (if IsClaimed(outcomes[k]) then [pods[k]] else [])
  }

  function ErrorsOf(outcomes: seq<Outcome>): seq<Error> {
    if |outcomes| == 0 then []
    else
      var k := |outcomes| - 1;
      ErrorsOf(outcomes[..k]) + (if IsFailure(outcomes[k]) then [outcomes[k].error] else [])
  }

  function NewAggregate(errors: seq<Error>): Option<Error> {
    if errors == [] then None else Some(Aggregate(errors))
  }

  // ----- what the controller promises of one pod -----

  /** An orphan that matches, where neither it nor the job is being deleted. */
  predicate ToAdopt(owner: Owner, pod: Pod) {
    GetControllerOf(pod) == None && Matches(owner.selector, pod.labels) && !pod.deleting && !owner.deleting
  }

  /** A pod the job controls that does not match any more, while the job is not being deleted. */
  predicate ToRelease(owner: Owner, pod: Pod) {
    ControlledBy(pod, owner.uid) && !Matches(owner.selector, pod.labels) && !owner.deleting
  }

  /** A pod the job controls that matches. */
  predicate ToKeep(owner: Owner, pod: Pod) {
    ControlledBy(pod, owner.uid) && Matches(owner.selector, pod.labels)
  }

  /** The branches decide just so; a pod that another owner controls is left alone. */
  lemma DecideIs(owner: Owner, pod: Pod)
    ensures Decide(owner, pod) == TryAdopt <==> ToAdopt(owner, pod)
    ensures Decide(owner, pod) == TryRelease <==> ToRelease(owner, pod)
    ensures Decide(owner, pod) == Keep <==> ToKeep(owner, pod)
  {
  }

  /** The live job is the owner itself and not being deleted. */
  predicate Alive(owner: Owner, live: Result<LiveJob, Error>) {
    live.Ok? && live.value.uid == owner.uid && !live.value.deleting
  }

  /** The recheck allows adoption exactly if it finds the job alive. */
  lemma RecheckIff(owner: Owner, live: Result<LiveJob, Error>)
    ensures Recheck(owner, live) == None <==> Alive(owner, live)
  {
  }

  // ----- the exact result of a pass -----

  /** The first pod the pass tries to adopt; |pods| if there is none. */
  function FirstAdoption(owner: Owner, pods: seq<Pod>): (f: nat)
    ensures f <= |pods|
    ensures f < |pods| ==> Decide(owner, pods[f]) == TryAdopt
    ensures forall i :: 0 <= i < f ==> Decide(owner, pods[i]) != TryAdopt
  {
    if |pods| == 0 then 0
    else
      var k := |pods| - 1;
      var f := FirstAdoption(owner, pods[..k]);
      if f < k || Decide(owner, pods[k]) == TryAdopt then f else |pods|
  }

  /** The recheck that governs every adoption of the pass: the one live read made at
      the first adoption. */
  function Gate(owner: Owner, pods: seq<Pod>, replies: seq<PodReply>): Option<Error>
    requires |pods| == |replies|
  {
    var f := FirstAdoption(owner, pods);
    if f < |pods| then Recheck(owner, replies[f].live) else None
  }

  /** One pod's outcome, seen on its own. */
  function OutcomeOf(owner: Owner, pod: Pod, gate: Option<Error>, patch: Option<Error>): Outcome {
    match Decide(owner, pod)
    case Ignore => Ignored
    case Keep => Kept
    case TryRelease => ReleaseOutcome(patch)
    case TryAdopt => if gate.Some? then AdoptFailed(CantAdopt(pod.uid, gate.value)) else AdoptOutcome(patch)
  }

  /** The patches a list of pods calls for, in list order. */
  function Sends(owner: Owner, pods: seq<Pod>, gate: Option<Error>): seq<Call> {
    if |pods| == 0 then []
    else
      var k := |pods| - 1;
      Sends(owner, pods[..k], gate) + SendFor(owner, pods[k], gate)
  }

  function SendFor(owner: Owner, pod: Pod, gate: Option<Error>): seq<Call> {
    match Decide(owner, pod)
    case TryRelease => [PatchPod(ReleasePatchFor(owner, pod))]
    case TryAdopt => if gate == None then [PatchPod(AdoptPatchFor(owner, pod))] else []
    case _ => []
  }

  /** Until something is adopted the gate is irrelevant. */
  lemma {:induction false} SendsWithoutAdoption(owner: Owner, pods: seq<Pod>, g: Option<Error>, h: Option<Error>)
    requires FirstAdoption(owner, pods) == |pods|
    ensures Sends(owner, pods, g) == Sends(owner, pods, h)
  {
    if |pods| > 0 {
      SendsWithoutAdoption(owner, pods[..|pods| - 1], g, h);
    }
  }

  /** The recheck runs at the first adoption and is remembered from then on. */
  lemma {:induction false} MemoIsGate(owner: Owner, pods: seq<Pod>, replies: seq<PodReply>)
    requires |pods| == |replies|
    ensures ClaimAll(owner, pods, replies).memo ==
      if FirstAdoption(owner, pods) < |pods| then Some(Gate(owner, pods, replies)) else None
  {
    if |pods| > 0 {
      MemoIsGate(owner, pods[..|pods| - 1], replies[..|pods| - 1]);
    }
  }

  /** The last pod of a list is decided by the recheck that the pods before it left, or by its own. */
  lemma LastOutcome(owner: Owner, memo: Remembered, pod: Pod, reply: PodReply, gate: Option<Error>)
    requires Decide(owner, pod) == TryAdopt ==> gate == if memo.Some? then memo.value else Recheck(owner, reply.live)
    ensures ClaimOne(owner, memo, pod, reply).outcome == OutcomeOf(owner, pod, gate, reply.patch)
  {
  }

  /** A pod added at the end changes no outcome before it. */
  lemma EarlierOutcome(owner: Owner, pods: seq<Pod>, replies: seq<PodReply>, i: nat, patch: Option<Error>)
    requires |pods| == |replies| && i < |pods| - 1
    ensures
      var k := |pods| - 1;
      OutcomeOf(owner, pods[i], Gate(owner, pods[..k], replies[..k]), patch)
      == OutcomeOf(owner, pods[i], Gate(owner, pods, replies), patch)
  {
    var k := |pods| - 1;
    var f := FirstAdoption(owner, pods[..k]);
    if f == k {
      assert pods[..k][i] == pods[i];
    } else {
      assert FirstAdoption(owner, pods) == f;
    }
  }

  /** Every pod is decided once, by its own decision, its own patch answer and the one
      shared recheck, whatever happened to the pods before it. */
  lemma {:induction false} OutcomesExact(owner: Owner, pods: seq<Pod>, replies: seq<PodReply>, i: nat)
    requires |pods| == |replies| && i < |pods|
    ensures ClaimAll(owner, pods, replies).outcomes[i] ==
      OutcomeOf(owner, pods[i], Gate(owner, pods, replies), replies[i].patch)
  {
    var k := |pods| - 1;
    if i < k {
      OutcomesExact(owner, pods[..k], replies[..k], i);
      EarlierOutcome(owner, pods, replies, i, replies[i].patch);
    } else {
      var memo := ClaimAll(owner, pods[..k], replies[..k]).memo;
      MemoIsGate(owner, pods[..k], replies[..k]);
      LastOutcome(owner, memo, pods[k], replies[k], Gate(owner, pods, replies));
    }
  }

  /** With the recheck remembered, or not needed, a pod costs just its own patch. */
  lemma CallsOfOne(owner: Owner, memo: Remembered, pod: Pod, reply: PodReply)
    ensures memo.Some? ==> ClaimOne(owner, memo, pod, reply).calls == SendFor(owner, pod, memo.value)
    ensures memo.None? && Decide(owner, pod) != TryAdopt ==>
      forall g :: ClaimOne(owner, memo, pod, reply).calls == SendFor(owner, pod, g)
    ensures memo.None? && Decide(owner, pod) == TryAdopt ==>
      ClaimOne(owner, memo, pod, reply).calls ==
        [GetJob(owner.namespace, owner.name)] + SendFor(owner, pod, Recheck(owner, reply.live))
  {
  }

  /** The calls a pass makes, given the position of its first adoption and its recheck. */
  function ExpectedCalls(owner: Owner, pods: seq<Pod>, f: nat, gate: Option<Error>): seq<Call>
    requires f <= |pods|
  {
    if f == |pods| then Sends(owner, pods, gate)
    else Sends(owner, pods[..f], gate) + [GetJob(owner.namespace, owner.name)] + Sends(owner, pods[f..], gate)
  }

  lemma ExpectedCallsStep(owner: Owner, pods: seq<Pod>, f: nat, gate: Option<Error>)
    requires f < |pods| - 1
    ensures ExpectedCalls(owner, pods, f, gate) ==
      ExpectedCalls(owner, pods[..|pods| - 1], f, gate) + SendFor(owner, pods[|pods| - 1], gate)
  {
    var init, tail, last := pods[..|pods| - 1], pods[f..], SendFor(owner, pods[|pods| - 1], gate);
    assert pods[..f] == init[..f];
    assert tail[..|tail| - 1] == init[f..];
    var a, b := Sends(owner, init[..f], gate) + [GetJob(owner.namespace, owner.name)], Sends(owner, init[f..], gate);
    assert Sends(owner, tail, gate) == b + last;
    assert a + (b + last) == (a + b) + last;
  }

  lemma ExpectedCallsAtFirst(owner: Owner, pods: seq<Pod>, f: nat, gate: Option<Error>)
    requires f == |pods| - 1
    ensures ExpectedCalls(owner, pods, f, gate) ==
      Sends(owner, pods[..f], gate) + [GetJob(owner.namespace, owner.name)] + SendFor(owner, pods[f], gate)
  {
    assert pods[f..] == [pods[f]];
    assert [pods[f]][..0] == [];
    assert Sends(owner, [pods[f]], gate) == [] + SendFor(owner, pods[f], gate);
  }

  /** One more pod: after the first adoption, at it, and before it. */
  lemma ExpectedCallsNext(owner: Owner, pods: seq<Pod>, replies: seq<PodReply>, memo: Remembered)
    requires |pods| == |replies| > 0
    requires
      var k := |pods| - 1;
      memo == if FirstAdoption(owner, pods[..k]) < k then Some(Gate(owner, pods[..k], replies[..k])) else None
    ensures
      var k := |pods| - 1;
      ExpectedCalls(owner, pods, FirstAdoption(owner, pods), Gate(owner, pods, replies)) ==
        ExpectedCalls(owner, pods[..k], FirstAdoption(owner, pods[..k]), Gate(owner, pods[..k], replies[..k])) +
          ClaimOne(owner, memo, pods[k], replies[k]).calls
  {
    var k := |pods| - 1;
    var gate, f := Gate(owner, pods, replies), FirstAdoption(owner, pods);
    CallsOfOne(owner, memo, pods[k], replies[k]);
    if f < k {
      ExpectedCallsStep(owner, pods, f, gate);
    } else {
      SendsWithoutAdoption(owner, pods[..k], Gate(owner, pods[..k], replies[..k]), gate);
      if f == k {
        ExpectedCallsAtFirst(owner, pods, f, gate);
      }
    }
  }

  /** The calls are exactly the demanded patches in list order, with one live read placed
      directly before the first adoption (and none if nothing is adopted). */
  lemma {:induction false} CallsExact(owner: Owner, pods: seq<Pod>, replies: seq<PodReply>)
    requires |pods| == |replies|
    ensures ClaimAll(owner, pods, replies).calls ==
      ExpectedCalls(owner, pods, FirstAdoption(owner, pods), Gate(owner, pods, replies))
  {
    if |pods| > 0 {
      var k := |pods| - 1;
      CallsExact(owner, pods[..k], replies[..k]);
      MemoIsGate(owner, pods[..k], replies[..k]);
      ExpectedCallsNext(owner, pods, replies, ClaimAll(owner, pods[..k], replies[..k]).memo);
    }
  }

  lemma RememberedOne(owner: Owner, gate: Option<Error>, pod: Pod, reply: PodReply)
    ensures ClaimOne(owner, Some(gate), pod, reply)
      == Claim(Some(gate), OutcomeOf(owner, pod, gate, reply.patch), SendFor(owner, pod, gate))
  {
  }

  lemma {:induction false} RememberedCalls(owner: Owner, gate: Option<Error>, pods: seq<Pod>, replies: seq<PodReply>)
    requires |pods| == |replies|
    ensures ClaimFrom(owner, Some(gate), pods, replies).memo == Some(gate)
    ensures ClaimFrom(owner, Some(gate), pods, replies).calls == Sends(owner, pods, gate)
  {
    if |pods| > 0 {
      var k := |pods| - 1;
      RememberedCalls(owner, gate, pods[..k], replies[..k]);
      RememberedOne(owner, gate, pods[k], replies[k]);
    }
  }

  lemma {:induction false} RememberedOutcome(owner: Owner, gate: Option<Error>, pods: seq<Pod>,
                                             replies: seq<PodReply>, i: nat)
    requires |pods| == |replies| && i < |pods|
    ensures ClaimFrom(owner, Some(gate), pods, replies).outcomes[i]
      == OutcomeOf(owner, pods[i], gate, replies[i].patch)
  {
    var k := |pods| - 1;
    if i < k {
      RememberedOutcome(owner, gate, pods[..k], replies[..k], i);
    } else {
      RememberedCalls(owner, gate, pods[..k], replies[..k]);
      RememberedOne(owner, gate, pods[k], replies[k]);
    }
  }

  /** With a recheck remembered from before, no live read is made and that recheck governs every pod. */
  lemma {:induction false} RememberedPass(owner: Owner, gate: Option<Error>, pods: seq<Pod>, replies: seq<PodReply>)
    requires |pods| == |replies|
    ensures
      var c := ClaimFrom(owner, Some(gate), pods, replies);
      && c.memo == Some(gate) && c.calls == Sends(owner, pods, gate)
      && forall i :: 0 <= i < |pods| ==> c.outcomes[i] == OutcomeOf(owner, pods[i], gate, replies[i].patch)
  {
    RememberedCalls(owner, gate, pods, replies);
    forall i | 0 <= i < |pods|
      ensures ClaimFrom(owner, Some(gate), pods, replies).outcomes[i]
        == OutcomeOf(owner, pods[i], gate, replies[i].patch)
    {
      RememberedOutcome(owner, gate, pods, replies, i);
    }
  }

  // ----- claimed pods and errors -----

  /** `at` gives the increasing positions in the list of the pods picked from it. */
  predicate Picks(pods: seq<Pod>, picked: seq<Pod>, at: seq<nat>) {
    && |at| == |picked|
    && (forall j :: 0 <= j < |at| ==> at[j] < |pods| && picked[j] == pods[at[j]])
    && forall j, k :: 0 <= j < k < |at| ==> at[j] < at[k]
  }

  lemma PicksNext(pods: seq<Pod>, pod: Pod, more: seq<Pod>, picked: seq<Pod>, at: seq<nat>)
    requires Picks(pods, picked, at) && more == pods + [pod]
    ensures Picks(more, picked, at) && Picks(more, picked + [pod], at + [|pods|])
  {
  }

  /** `at` lists every position with a claimed outcome, and no other. */
  predicate CoversClaimed(outcomes: seq<Outcome>, at: seq<nat>) {
    forall p :: 0 <= p < |outcomes| ==> (p in at <==> IsClaimed(outcomes[p]))
  }

  lemma CoversClaimedNext(outcomes: seq<Outcome>, o: Outcome, more: seq<Outcome>, at: seq<nat>)
    requires CoversClaimed(outcomes, at) && more == outcomes + [o] && forall j :: 0 <= j < |at| ==> at[j] < |outcomes|
    ensures CoversClaimed(more, if IsClaimed(o) then at + [|outcomes|] else at)
  {
  }

  /** The claimed list is an order-preserving selection of the listed pods: `at` gives, for each claimed
      pod, its position in the list, and leaves out no position with a claimed outcome. */
  lemma {:induction false} SelectIsSubsequence(pods: seq<Pod>, outcomes: seq<Outcome>) returns (at: seq<nat>)
    requires |pods| == |outcomes|
    ensures Picks(pods, Select(pods, outcomes), at)
    ensures CoversClaimed(outcomes, at)
  {
    if |pods| == 0 {
      at := [];
    } else {
      var k := |pods| - 1;
      var before := SelectIsSubsequence(pods[..k], outcomes[..k]);
      PicksNext(pods[..k], pods[k], pods, Select(pods[..k], outcomes[..k]), before);
      CoversClaimedNext(outcomes[..k], outcomes[k], outcomes, before);
      at := if IsClaimed(outcomes[k]) then before + [k] else before;
    }
  }

  lemma {:induction false} ErrorsOfEmpty(outcomes: seq<Outcome>)
    ensures ErrorsOf(outcomes) == [] <==> forall i :: 0 <= i < |outcomes| ==> !IsFailure(outcomes[i])
  {
    if |outcomes| > 0 {
      var k := |outcomes| - 1;
      ErrorsOfEmpty(outcomes[..k]);
      assert forall i :: 0 <= i < k ==> outcomes[..k][i] == outcomes[i];
    }
  }

  /** What one pod demands of the answers for the pass to succeed. */
  predicate PodSucceeds(owner: Owner, pod: Pod, gate: Option<Error>, patch: Option<Error>) {
    && (ToRelease(owner, pod) ==> patch == None || patch.value.IsNotFound() || patch.value.IsInvalid())
    && (ToAdopt(owner, pod) ==> gate == None && (patch == None || patch.value.IsNotFound()))
  }

  lemma FailureIff(owner: Owner, pod: Pod, gate: Option<Error>, patch: Option<Error>)
    ensures IsFailure(OutcomeOf(owner, pod, gate, patch)) <==> !PodSucceeds(owner, pod, gate, patch)
  {
    DecideIs(owner, pod);
  }

  /** A pass succeeds exactly when no listed pod's own release or adoption failed. A pod's own
      404 never fails it. A 404 (or any other refusal) from the recheck fails it as soon as there is
      one pod to adopt. */
  lemma PassSucceedsIff(owner: Owner, pods: seq<Pod>, replies: seq<PodReply>)
    requires |pods| == |replies|
    ensures NewAggregate(ErrorsOf(ClaimAll(owner, pods, replies).outcomes)) == None <==>
      forall i :: 0 <= i < |pods| ==> PodSucceeds(owner, pods[i], Gate(owner, pods, replies), replies[i].patch)
  {
    var outcomes, gate := ClaimAll(owner, pods, replies).outcomes, Gate(owner, pods, replies);
    ErrorsOfEmpty(outcomes);
    forall i | 0 <= i < |pods|
      ensures IsFailure(outcomes[i]) <==> !PodSucceeds(owner, pods[i], gate, replies[i].patch)
    {
      OutcomesExact(owner, pods, replies, i);
      FailureIff(owner, pods[i], gate, replies[i].patch);
    }
  }

  /** A matching, non-deleting orphan of a vanished job makes the pass fail, and nothing is adopted. */
  lemma VanishedJobFailsThePass(owner: Owner, pods: seq<Pod>, replies: seq<PodReply>, i: nat)
    requires |pods| == |replies| && i < |pods|
    requires !owner.deleting
    requires GetControllerOf(pods[i]) == None && Matches(owner.selector, pods[i].labels) && !pods[i].deleting
    requires forall j :: 0 <= j < |pods| ==> replies[j].live == Err(Status(NotFound))
    ensures NewAggregate(ErrorsOf(ClaimAll(owner, pods, replies).outcomes)) != None
    ensures forall j :: 0 <= j < |pods| ==> !ClaimAll(owner, pods, replies).outcomes[j].Adopted?
  {
    assert Decide(owner, pods[i]) == TryAdopt;
    assert Gate(owner, pods, replies) == Some(RecheckFailed(Status(NotFound)));
    PassSucceedsIff(owner, pods, replies);
    assert !PodSucceeds(owner, pods[i], Gate(owner, pods, replies), replies[i].patch);
    forall j | 0 <= j < |pods| ensures !ClaimAll(owner, pods, replies).outcomes[j].Adopted? {
      OutcomesExact(owner, pods, replies, j);
    }
  }

  // ----- the result read off the listed pods -----

  /** The live read made for the first pod to adopt, if there is one, finds the job alive. */
  predicate MayAdopt(owner: Owner, pods: seq<Pod>, replies: seq<PodReply>)
    requires |pods| == |replies|
  {
    forall f :: 0 <= f < |pods| && ToAdopt(owner, pods[f]) && (forall e :: 0 <= e < f ==> !ToAdopt(owner, pods[e])) ==>
      Alive(owner, replies[f].live)
  }

  lemma GateIff(owner: Owner, pods: seq<Pod>, replies: seq<PodReply>)
    requires |pods| == |replies|
    ensures Gate(owner, pods, replies) == None <==> MayAdopt(owner, pods, replies)
  {
    forall i | 0 <= i < |pods| ensures Decide(owner, pods[i]) == TryAdopt <==> ToAdopt(owner, pods[i]) {
      DecideIs(owner, pods[i]);
    }
    var f := FirstAdoption(owner, pods);
    if f < |pods| {
      RecheckIff(owner, replies[f].live);
    }
  }

  lemma OneClaimedIff(owner: Owner, pod: Pod, gate: Option<Error>, patch: Option<Error>)
    ensures IsClaimed(OutcomeOf(owner, pod, gate, patch)) <==>
      ToKeep(owner, pod) || (ToAdopt(owner, pod) && gate == None && patch == None)
  {
    DecideIs(owner, pod);
  }

  /** A pod is claimed exactly if the job controls it and it matches, or if it is an orphan to adopt, the
      live read allows it and its patch is answered without error. So a pod that another owner controls is
      never claimed, nor one whose adoption is answered 404. `at` gives the claimed positions, in order. */
  lemma ClaimedExactly(owner: Owner, pods: seq<Pod>, replies: seq<PodReply>) returns (at: seq<nat>)
    requires |pods| == |replies|
    ensures Picks(pods, Select(pods, ClaimAll(owner, pods, replies).outcomes), at)
    ensures forall i :: 0 <= i < |pods| ==>
      (i in at <==>
        || (ControlledBy(pods[i], owner.uid) && Matches(owner.selector, pods[i].labels))
        || (ToAdopt(owner, pods[i]) && MayAdopt(owner, pods, replies) && replies[i].patch == None))
  {
    var outcomes := ClaimAll(owner, pods, replies).outcomes;
    at := SelectIsSubsequence(pods, outcomes);
    GateIff(owner, pods, replies);
    forall i | 0 <= i < |pods|
      ensures IsClaimed(outcomes[i]) <==>
        || ToKeep(owner, pods[i])
        || (ToAdopt(owner, pods[i]) && MayAdopt(owner, pods, replies) && replies[i].patch == None)
    {
      OutcomesExact(owner, pods, replies, i);
      OneClaimedIff(owner, pods[i], Gate(owner, pods, replies), replies[i].patch);
    }
  }

  /** The pass asks for this pod to be adopted: with the pod's UID, and the job as its controller. */
  function Adoption(owner: Owner, pod: Pod): Call {
    PatchPod(AdoptPatch(pod.namespace, pod.name, pod.uid,
                        OwnerRef("kubeflow.org/v1alpha1", "Caffe2Job", owner.name, owner.uid, Some(true), Some(true))))
  }

  function Releasing(owner: Owner, pod: Pod): Call {
    PatchPod(ReleasePatch(pod.namespace, pod.name, pod.uid, owner.uid))
  }

  /** The pod calls for this patch; `allowed` says whether the live read allows adoption. */
  predicate Demands(owner: Owner, pod: Pod, allowed: bool, c: Call) {
    || (ToAdopt(owner, pod) && allowed && c == Adoption(owner, pod))
    || (ToRelease(owner, pod) && c == Releasing(owner, pod))
  }

  lemma SendForIs(owner: Owner, pod: Pod, gate: Option<Error>, c: Call)
    ensures c in SendFor(owner, pod, gate) <==> Demands(owner, pod, gate == None, c)
  {
    DecideIs(owner, pod);
  }

  lemma SendsNext(owner: Owner, pods: seq<Pod>, pod: Pod, more: seq<Pod>, gate: Option<Error>)
    requires more == pods + [pod]
    ensures Sends(owner, more, gate) == Sends(owner, pods, gate) + SendFor(owner, pod, gate)
  {
    assert more[..|more| - 1] == pods;
  }

  lemma {:induction false} SendsSplit(owner: Owner, a: seq<Pod>, b: seq<Pod>, gate: Option<Error>)
    ensures Sends(owner, a + b, gate) == Sends(owner, a, gate) + Sends(owner, b, gate)
  {
    if |b| == 0 {
      assert a + b == a;
    } else {
      var init, last := b[..|b| - 1], b[|b| - 1];
      SendsSplit(owner, a, init, gate);
      SendsNext(owner, init, last, b, gate);
      SendsNext(owner, a + init, last, a + b, gate);
      assert a + b == (a + init) + [last];
      Assoc(Sends(owner, a, gate), Sends(owner, init, gate), SendFor(owner, last, gate));
    }
  }

  lemma Assoc<T>(a: seq<T>, b: seq<T>, c: seq<T>)
    ensures (a + b) + c == a + (b + c)
  {
  }

  lemma SendsParts(owner: Owner, pods: seq<Pod>, f: nat, gate: Option<Error>)
    requires f <= |pods|
    ensures Sends(owner, pods, gate) == Sends(owner, pods[..f], gate) + Sends(owner, pods[f..], gate)
  {
    SendsSplit(owner, pods[..f], pods[f..], gate);
    assert pods[..f] + pods[f..] == pods;
  }

  /** Of the calls of a pass those that patch are the demanded ones. */
  lemma ExpectedPatches(owner: Owner, pods: seq<Pod>, f: nat, gate: Option<Error>, c: Call)
    requires f <= |pods| && c.PatchPod?
    ensures c in ExpectedCalls(owner, pods, f, gate) <==> c in Sends(owner, pods, gate)
  {
    if f < |pods| {
      var before, after := Sends(owner, pods[..f], gate), Sends(owner, pods[f..], gate);
      SendsParts(owner, pods, f, gate);
      ReadIsNoPatch(before, GetJob(owner.namespace, owner.name), after, c);
    }
  }

  lemma ReadIsNoPatch(a: seq<Call>, read: Call, b: seq<Call>, c: Call)
    requires read != c
    ensures c in a + [read] + b <==> c in a + b
  {
  }

  /** Some pod of the list sends this call. */
  predicate SentForSome(owner: Owner, pods: seq<Pod>, gate: Option<Error>, c: Call) {
    exists i :: 0 <= i < |pods| && c in SendFor(owner, pods[i], gate)
  }

  lemma SentForNext(owner: Owner, pods: seq<Pod>, pod: Pod, more: seq<Pod>, gate: Option<Error>, c: Call)
    requires more == pods + [pod]
    ensures SentForSome(owner, more, gate, c) <==> SentForSome(owner, pods, gate, c) || c in SendFor(owner, pod, gate)
  {
    if SentForSome(owner, pods, gate, c) {
      var i :| 0 <= i < |pods| && c in SendFor(owner, pods[i], gate);
      assert more[i] == pods[i];
    }
    if c in SendFor(owner, pod, gate) {
      assert more[|pods|] == pod;
    }
  }

  lemma {:induction false} SendsMembers(owner: Owner, pods: seq<Pod>, gate: Option<Error>, c: Call)
    ensures c in Sends(owner, pods, gate) <==> SentForSome(owner, pods, gate, c)
  {
    if |pods| > 0 {
      var k := |pods| - 1;
      SendsMembers(owner, pods[..k], gate, c);
      SentForNext(owner, pods[..k], pods[k], pods, gate, c);
    }
  }

  /** A pass patches exactly the orphans to adopt, if the live read allows it, and the pods to release. */
  lemma PatchesExactly(owner: Owner, pods: seq<Pod>, replies: seq<PodReply>, c: Call)
    requires |pods| == |replies| && c.PatchPod?
    ensures c in ClaimAll(owner, pods, replies).calls <==>
      exists i :: 0 <= i < |pods| && Demands(owner, pods[i], MayAdopt(owner, pods, replies), c)
  {
    var f, gate := FirstAdoption(owner, pods), Gate(owner, pods, replies);
    CallsExact(owner, pods, replies);
    ExpectedPatches(owner, pods, f, gate, c);
    SendsMembers(owner, pods, gate, c);
    GateIff(owner, pods, replies);
    forall i | 0 <= i < |pods|
      ensures c in SendFor(owner, pods[i], gate) <==> Demands(owner, pods[i], MayAdopt(owner, pods, replies), c)
    {
      SendForIs(owner, pods[i], gate, c);
    }
  }

  /** The patch is for this pod, under its UID. */
  predicate IsFor(patch: PodPatch, pod: Pod) {
    patch.namespace == pod.namespace && patch.name == pod.name && patch.podUid == pod.uid
  }

  /** No patch names a pod for which the list shows another controller. */
  lemma OthersAreLeftAlone(owner: Owner, pods: seq<Pod>, replies: seq<PodReply>, patch: PodPatch) returns (i: nat)
    requires |pods| == |replies| && PatchPod(patch) in ClaimAll(owner, pods, replies).calls
    ensures i < |pods| && IsFor(patch, pods[i])
    ensures GetControllerOf(pods[i]) == None || GetControllerOf(pods[i]).value.uid == owner.uid
  {
    PatchesExactly(owner, pods, replies, PatchPod(patch));
    i :| 0 <= i < |pods| && Demands(owner, pods[i], MayAdopt(owner, pods, replies), PatchPod(patch));
  }

  /** `at` gives the increasing positions of the failed outcomes, and their errors. */
  predicate PicksErrors(outcomes: seq<Outcome>, errors: seq<Error>, at: seq<nat>) {
    && |at| == |errors|
    && (forall j :: 0 <= j < |at| ==>
          at[j] < |outcomes| && IsFailure(outcomes[at[j]]) && errors[j] == outcomes[at[j]].error)
    && forall j, k :: 0 <= j < k < |at| ==> at[j] < at[k]
  }

  lemma PicksErrorsNext(outcomes: seq<Outcome>, o: Outcome, more: seq<Outcome>, errors: seq<Error>, at: seq<nat>)
    requires PicksErrors(outcomes, errors, at) && more == outcomes + [o]
    ensures PicksErrors(more, errors, at)
    ensures IsFailure(o) ==> PicksErrors(more, errors + [o.error], at + [|outcomes|])
  {
  }

  predicate CoversFailed(outcomes: seq<Outcome>, at: seq<nat>) {
    forall i :: 0 <= i < |outcomes| && IsFailure(outcomes[i]) ==> i in at
  }

  lemma CoversFailedNext(outcomes: seq<Outcome>, o: Outcome, more: seq<Outcome>, at: seq<nat>)
    requires CoversFailed(outcomes, at) && more == outcomes + [o]
    ensures CoversFailed(more, if IsFailure(o) then at + [|outcomes|] else at)
  {
    var all := at + [|outcomes|];
    assert all[|at|] == |outcomes| && forall i :: i in at ==> i in all;
  }

  /** The errors of a pass are those of its failed pods, in list order, and of no others. */
  lemma {:induction false} ErrorsArePicked(outcomes: seq<Outcome>) returns (at: seq<nat>)
    ensures PicksErrors(outcomes, ErrorsOf(outcomes), at) && CoversFailed(outcomes, at)
  {
    if |outcomes| == 0 {
      at := [];
    } else {
      var k := |outcomes| - 1;
      var before := ErrorsArePicked(outcomes[..k]);
      PicksErrorsNext(outcomes[..k], outcomes[k], outcomes, ErrorsOf(outcomes[..k]), before);
      CoversFailedNext(outcomes[..k], outcomes[k], outcomes, before);
      at := if IsFailure(outcomes[k]) then before + [k] else before;
    }
  }

  /** The error of a pass, if there is one, is the aggregate of just those. */
  lemma PassErrorIs(owner: Owner, pods: seq<Pod>, replies: seq<PodReply>) returns (at: seq<nat>)
    requires |pods| == |replies|
    ensures
      var outcomes := ClaimAll(owner, pods, replies).outcomes;
      var err := NewAggregate(ErrorsOf(outcomes));
      && CoversFailed(outcomes, at) && (err == None <==> at == [])
      && (err != None ==> err.value.Aggregate? && PicksErrors(outcomes, err.value.errors, at))
  {
    at := ErrorsArePicked(ClaimAll(owner, pods, replies).outcomes);
  }

  /** A denied adoption fails with the recheck's error, any other failure is the answer to the pod's patch. */
  lemma FailureIs(owner: Owner, pods: seq<Pod>, replies: seq<PodReply>, i: nat)
    requires |pods| == |replies| && i < |pods| && IsFailure(ClaimAll(owner, pods, replies).outcomes[i])
    ensures
      var error := ClaimAll(owner, pods, replies).outcomes[i].error;
      if ToAdopt(owner, pods[i]) && !MayAdopt(owner, pods, replies)
      then error == CantAdopt(pods[i].uid, Gate(owner, pods, replies).value)
      else replies[i].patch == Some(error)
  {
    OutcomesExact(owner, pods, replies, i);
    DecideIs(owner, pods[i]);
    GateIff(owner, pods, replies);
  }
}
