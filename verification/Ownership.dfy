/** The ownership protocol with any number of passes interleaved: one server, one
    arbitrarily stale list per pass, one atomic API call per step, and pods and jobs that
    others create, change and delete (also under old names) at any time. */
module Ownership {
  import opened Wrappers
  import opened Kube
  import opened Api
  import opened Claims
  import opened Server

  /** A pass in progress: the pods in list[..|claims.outcomes|] have been handled. `live` is the
      answer of the recheck while the pod that caused it is still being handled. */
  datatype Pass = Pass(
    owner: Owner, list: seq<Pod>, claims: Claims,
    replies: seq<PodReply>, live: Option<Result<LiveJob, Error>>)
  {
    function Position(): nat {
      |claims.outcomes|
    }

    predicate Busy() {
      Position() < |list|
    }
  }

  /** The server: its pods and jobs, and every UID ever given out. */
  datatype World = World(pods: map<Key, Pod>, jobs: map<Key, LiveJob>, used: set<UID>)

  datatype State = State(world: World, passes: map<nat, Pass>)

  /** How a patch request can go wrong on the way: refused without effect, or answered
      with an error although it took effect. */
  datatype Fault = Clean | Refused(error: Error) | Lost(error: Error)

  /** What others do to the server. */
  datatype Change =
    | PodCreated(pod: Pod)
    | PodChanged(pod: Pod)
    | PodDeleted(key: Key)
    | JobCreated(job: LiveJob)
    | JobMarked(key: Key)
    | JobDeleted(key: Key)

  datatype Step =
    | Outside(change: Change)
    | PassStarted(id: nat, owner: Owner, list: seq<Pod>)
    | Rechecked(id: nat, readFault: Option<Error>)
    | PodHandled(id: nat, fault: Fault)

  predicate Transient(e: Error) {
    !e.IsNotFound() && !e.IsInvalid()
  }

  predicate Possible(w: World, change: Change) {
    match change
    case PodCreated(pod) => KeyOf(pod) !in w.pods && pod.uid !in w.used && AtMostOneController(pod.ownerRefs)
    case PodChanged(pod) =>
      KeyOf(pod) in w.pods && w.pods[KeyOf(pod)].uid == pod.uid && AtMostOneController(pod.ownerRefs)
    case PodDeleted(key) => key in w.pods
    case JobCreated(job) => (job.namespace, job.name) !in w.jobs && job.uid !in w.used
    case JobMarked(key) => key in w.jobs
    case JobDeleted(key) => key in w.jobs
  }

  function Changed(w: World, change: Change): World
    requires Possible(w, change)
  {
    match change
    case PodCreated(pod) => w.(pods := w.pods[KeyOf(pod) := pod], used := w.used + {pod.uid})
    case PodChanged(pod) => w.(pods := w.pods[KeyOf(pod) := pod])
    case PodDeleted(key) => w.(pods := w.pods - {key})
    case JobCreated(job) => w.(jobs := w.jobs[(job.namespace, job.name) := job], used := w.used + {job.uid})
    case JobMarked(key) => w.(jobs := w.jobs[key := w.jobs[key].(deleting := true)])
    case JobDeleted(key) => w.(jobs := w.jobs - {key})
  }

  predicate Enabled(s: State, step: Step) {
    match step
    case Outside(change) => Possible(s.world, change)
    case PassStarted(id, _, _) => id !in s.passes
    case Rechecked(id, fault) => id in s.passes && MayRecheck(s.passes[id]) && (fault == None || Transient(fault.value))
    case PodHandled(id, fault) =>
      id in s.passes && MayHandle(s.passes[id]) && (fault == Clean || Transient(fault.error))
  }

  /** The current pod is to be adopted and the live job has not been read yet. */
  predicate MayRecheck(pass: Pass) {
    pass.Busy() && Decide(pass.owner, pass.list[pass.Position()]) == TryAdopt && pass.claims.memo == None
  }

  /** The current pod can be finished: nothing is adopted before the live job has been read. */
  predicate MayHandle(pass: Pass) {
    pass.Busy() && (Decide(pass.owner, pass.list[pass.Position()]) == TryAdopt ==> pass.claims.memo.Some?)
  }

  /** The live read behind the recheck. */
  function LiveRead(jobs: map<Key, LiveJob>, owner: Owner, fault: Option<Error>): Result<LiveJob, Error> {
    if fault.Some? then Err(fault.value)
    else if (owner.namespace, owner.name) in jobs then Ok(jobs[(owner.namespace, owner.name)])
    else Err(Status(NotFound))
  }

  function AfterRecheck(pass: Pass, live: Result<LiveJob, Error>): Pass {
    pass.(
      claims := Claims(Some(Recheck(pass.owner, live)), pass.claims.outcomes,
                       pass.claims.calls + [GetJob(pass.owner.namespace, pass.owner.name)]),
      live := Some(live))
  }

  /** The patch a pass sends for its current pod, if any. */
  function PatchToSend(pass: Pass): Option<PodPatch>
    requires pass.Busy()
  {
    var pod := pass.list[pass.Position()];
    match Decide(pass.owner, pod)
    case TryRelease => Some(ReleasePatchFor(pass.owner, pod))
    case TryAdopt => if pass.claims.memo == Some(None) then Some(AdoptPatchFor(pass.owner, pod)) else None
    case _ => None
  }

  function PodsAfter(pods: map<Key, Pod>, patch: PodPatch, fault: Fault): map<Key, Pod> {
    var result := Patched(pods, patch);
    if fault.Refused? || result.Err? then pods else pods[PatchKey(patch) := result.value]
  }

  function ReplyTo(pods: map<Key, Pod>, patch: PodPatch, fault: Fault): Option<Error> {
    if fault != Clean then Some(fault.error)
    else match Patched(pods, patch)
      case Ok(_) => None
      case Err(e) => Some(e)
  }

  function AfterPod(pass: Pass, reply: Option<Error>): Pass
    requires pass.Busy()
  {
    var pod := pass.list[pass.Position()];
    var answers := PodReply(if pass.live.Some? then pass.live.value else Err(Status(OtherReason)), reply);
    pass.(claims := ClaimNext(pass.owner, pass.claims, pod, answers),
          replies := pass.replies + [answers], live := None)
  }

  function Apply(s: State, step: Step): State {
    if !Enabled(s, step) then s else
    match step
    case Outside(change) => s.(world := Changed(s.world, change))
    case PassStarted(id, owner, list) =>
      s.(passes := s.passes[id := Pass(owner, list, Claims(None, [], []), [], None)])
    case Rechecked(id, fault) =>
      s.(passes := s.passes[id := AfterRecheck(s.passes[id], LiveRead(s.world.jobs, s.passes[id].owner, fault))])
    case PodHandled(id, fault) =>
      var pass := s.passes[id];
      match PatchToSend(pass)
      case None => s.(passes := s.passes[id := AfterPod(pass, None)])
      case Some(patch) =>
        State(s.world.(pods := PodsAfter(s.world.pods, patch, fault)),
              s.passes[id := AfterPod(pass, ReplyTo(s.world.pods, patch, fault))])
  }

  /** The state after a sequence of steps. */
  function StateAt(s0: State, steps: seq<Step>): State {
    if |steps| == 0 then s0
    else Apply(StateAt(s0, steps[..|steps| - 1]), steps[|steps| - 1])
  }

  predicate Initial(s: State) {
    PodsInv(s) && s.passes == map[]
  }

  /** Pods sit under their own names, their UIDs are recorded and distinct, and each has at
      most one controller reference. */
  predicate PodsInv(s: State) {
    && (forall key :: key in s.world.pods ==>
          && KeyOf(s.world.pods[key]) == key && s.world.pods[key].uid in s.world.used
          && AtMostOneController(s.world.pods[key].ownerRefs))
    && (forall key, other :: key in s.world.pods && other in s.world.pods && key != other ==>
          s.world.pods[key].uid != s.world.pods[other].uid)
  }

  // ----- what one API call of a pass can do -----

  /** A patch changes at most the pod it names, only if that pod has the UID the patch carries,
      and in that pod only the references of the patching job. */
  lemma PatchEffect(owner: Owner, pod: Pod, patch: PodPatch, pods: map<Key, Pod>)
    requires patch == AdoptPatchFor(owner, pod) || patch == ReleasePatchFor(owner, pod)
    requires Patched(pods, patch).Ok?
    requires AtMostOneController(pods[KeyOf(pod)].ownerRefs)
    ensures KeyOf(pod) in pods && pods[KeyOf(pod)].uid == pod.uid
    ensures
      var before, after := pods[KeyOf(pod)], Patched(pods, patch).value;
      && after == before.(ownerRefs := after.ownerRefs)
      && AtMostOneController(after.ownerRefs)
      && RemoveUid(after.ownerRefs, owner.uid) == RemoveUid(before.ownerRefs, owner.uid)
      && (patch.AdoptPatch? ==> ControlledBy(after, owner.uid))
      && (patch.AdoptPatch? ==> GetControllerOf(before) == None || ControlledBy(before, owner.uid))
      && (patch.ReleasePatch? ==> !HasUid(after.ownerRefs, owner.uid))
  {
    var refs := pods[KeyOf(pod)].ownerRefs;
    if patch.AdoptPatch? {
      var ref := OwnerRefFor(owner.name, owner.uid);
      MergeKeepsOthers(refs, ref);
      var m := MergeLands(refs, ref);
      ControllerInIs(MergeRef(refs, ref), m);
      if ControllerIn(refs).Some? && ControllerIn(refs).value.uid != owner.uid {
        MergeKeepsController(refs, ref);
      }
    } else {
      RemoveKeepsAtMostOne(refs, owner.uid);
      RemoveTwice(refs, owner.uid);
    }
  }

  lemma {:induction false} RemoveTwice(refs: seq<OwnerRef>, uid: UID)
    ensures RemoveUid(RemoveUid(refs, uid), uid) == RemoveUid(refs, uid)
  {
    if |refs| > 0 {
      RemoveTwice(refs[1..], uid);
      var rest := RemoveUid(refs[1..], uid);
      assert refs[0].uid != uid ==> ([refs[0]] + rest)[1..] == rest;
      assert RemoveUid(refs, uid) == if refs[0].uid == uid then rest else [refs[0]] + rest;
    }
  }

  /** What handling one pod does to the server: nothing outside the pod named in the pass's own
      list, nothing to a pod recreated under that name with another UID, and in the pod itself
      nothing but the references of the pass's own job. */
  lemma HandlingEffect(s: State, step: Step, key: Key)
    requires PodsInv(s) && step.PodHandled? && Enabled(s, step)
    ensures Apply(s, step).world.pods.Keys == s.world.pods.Keys
    ensures Apply(s, step).world.jobs == s.world.jobs && Apply(s, step).world.used == s.world.used
    ensures key in s.world.pods && Apply(s, step).world.pods[key] != s.world.pods[key] ==>
      var pass := s.passes[step.id];
      var listed := pass.list[pass.Position()];
      var before, after := s.world.pods[key], Apply(s, step).world.pods[key];
      && key == KeyOf(listed) && before.uid == listed.uid
      && after == before.(ownerRefs := after.ownerRefs)
      && AtMostOneController(after.ownerRefs)
      && RemoveUid(after.ownerRefs, pass.owner.uid) == RemoveUid(before.ownerRefs, pass.owner.uid)
      && (Decide(pass.owner, listed) == TryAdopt ==>
            && ControlledBy(after, pass.owner.uid)
            && (GetControllerOf(before) == None || ControlledBy(before, pass.owner.uid)))
      && (Decide(pass.owner, listed) != TryAdopt ==> !HasUid(after.ownerRefs, pass.owner.uid))
  {
    var pass := s.passes[step.id];
    var listed, patch := pass.list[pass.Position()], PatchToSend(pass);
    if patch.Some? && Patched(s.world.pods, patch.value).Ok? {
      PatchEffect(pass.owner, listed, patch.value, s.world.pods);
    }
  }

  lemma StepKeepsPodsInv(s: State, step: Step)
    requires PodsInv(s)
    ensures PodsInv(Apply(s, step))
  {
    var t := Apply(s, step);
    if Enabled(s, step) && step.PodHandled? {
      forall key | key in t.world.pods
        ensures key in s.world.pods && t.world.pods[key].uid == s.world.pods[key].uid
        ensures KeyOf(t.world.pods[key]) == key && AtMostOneController(t.world.pods[key].ownerRefs)
      {
        HandlingEffect(s, step, key);
      }
      HandlingEffect(s, step, ("", ""));
    }
  }

  /** In every reachable state every pod has at most one controller reference. */
  lemma {:induction false} OwnershipInvariant(s0: State, steps: seq<Step>)
    requires Initial(s0)
    ensures PodsInv(StateAt(s0, steps))
  {
    if |steps| > 0 {
      var init := steps[..|steps| - 1];
      OwnershipInvariant(s0, init);
      StepKeepsPodsInv(StateAt(s0, init), steps[|steps| - 1]);
    }
  }

  // ----- a controller keeps its pod -----

  /** The step comes from neither the job `uid` nor someone who edits or deletes the pod. */
  predicate LeavesAlone(s: State, step: Step, key: Key, uid: UID) {
    && (step.Outside? && step.change.PodChanged? ==> KeyOf(step.change.pod) != key)
    && (step.Outside? && step.change.PodDeleted? ==> step.change.key != key)
    && (step.PodHandled? && step.id in s.passes ==> s.passes[step.id].owner.uid != uid)
  }

  lemma StepKeepsController(s: State, step: Step, key: Key, uid: UID)
    requires PodsInv(s) && key in s.world.pods && ControlledBy(s.world.pods[key], uid)
    requires LeavesAlone(s, step, key, uid)
    ensures key in Apply(s, step).world.pods
    ensures Apply(s, step).world.pods[key].uid == s.world.pods[key].uid
    ensures GetControllerOf(Apply(s, step).world.pods[key]) == GetControllerOf(s.world.pods[key])
  {
    if Enabled(s, step) && step.PodHandled? {
      HandlingEffect(s, step, key);
      var pass := s.passes[step.id];
      var before, after := s.world.pods[key].ownerRefs, Apply(s, step).world.pods[key].ownerRefs;
      if before != after {
        RemoveKeepsController(before, pass.owner.uid);
        RemoveKeepsController(after, pass.owner.uid);
      }
    }
  }

  /** Passes of other jobs, however stale and however interleaved, never displace a pod's
      controller: only the job itself, or an outside edit or deletion of the pod, can. */
  lemma {:induction false} ControllerPersists(s: State, steps: seq<Step>, key: Key, uid: UID)
    requires PodsInv(s) && key in s.world.pods && ControlledBy(s.world.pods[key], uid)
    requires forall n :: 0 <= n < |steps| ==> LeavesAlone(StateAt(s, steps[..n]), steps[n], key, uid)
    ensures key in StateAt(s, steps).world.pods && PodsInv(StateAt(s, steps))
    ensures StateAt(s, steps).world.pods[key].uid == s.world.pods[key].uid
    ensures GetControllerOf(StateAt(s, steps).world.pods[key]) == GetControllerOf(s.world.pods[key])
  {
    if |steps| > 0 {
      var init, last := steps[..|steps| - 1], steps[|steps| - 1];
      forall n | 0 <= n < |init| ensures LeavesAlone(StateAt(s, init[..n]), init[n], key, uid) {
        assert init[..n] == steps[..n];
      }
      ControllerPersists(s, init, key, uid);
      StepKeepsPodsInv(StateAt(s, init), last);
      StepKeepsController(StateAt(s, init), last, key, uid);
    }
  }

  // ----- every adoption follows a live read of its own pass -----

  predicate Happens(s0: State, steps: seq<Step>, n: int) {
    0 <= n < |steps| && Enabled(StateAt(s0, steps[..n]), steps[n])
  }

  /** Step n is the live read of pass id. */
  predicate ReadsJob(s0: State, steps: seq<Step>, id: nat, n: int) {
    Happens(s0, steps, n) && steps[n].Rechecked? && steps[n].id == id
  }

  lemma PrefixAgrees(s0: State, steps: seq<Step>, m: nat, id: nat)
    requires m <= |steps|
    ensures forall n :: 0 <= n < m ==>
      steps[..m][..n] == steps[..n] && Happens(s0, steps[..m], n) == Happens(s0, steps, n)
    ensures forall n :: ReadsJob(s0, steps[..m], id, n) <==> n < m && ReadsJob(s0, steps, id, n)
  {
    forall n | 0 <= n < m ensures steps[..m][..n] == steps[..n] {
    }
  }

  /** Nothing is rechecked for a pass that has not started. */
  lemma {:induction false} NoReadBeforeStart(s0: State, steps: seq<Step>, id: nat)
    requires id !in StateAt(s0, steps).passes
    ensures forall n :: !ReadsJob(s0, steps, id, n)
  {
    if |steps| > 0 {
      var k := |steps| - 1;
      assert id !in StateAt(s0, steps[..k]).passes;
      NoReadBeforeStart(s0, steps[..k], id);
      PrefixAgrees(s0, steps, k, id);
      forall n ensures !ReadsJob(s0, steps, id, n) {
        if n < k { assert ReadsJob(s0, steps[..k], id, n) == ReadsJob(s0, steps, id, n); }
      }
    }
  }

  /** `l` is where pass id started, with the owner and list it still has. */
  predicate StartedAt(s0: State, steps: seq<Step>, id: nat, l: nat)
    requires id in StateAt(s0, steps).passes
  {
    var pass := StateAt(s0, steps).passes[id];
    Happens(s0, steps, l) && steps[l] == PassStarted(id, pass.owner, pass.list)
  }

  /** `m` is the one step where pass id read the live job, and the pass remembers the recheck
      of what that read gave. */
  ghost predicate CheckedAt(s0: State, steps: seq<Step>, id: nat, m: nat)
    requires id in StateAt(s0, steps).passes
  {
    var pass := StateAt(s0, steps).passes[id];
    && ReadsJob(s0, steps, id, m)
    && pass.claims.memo == MemoFrom(StateAt(s0, steps[..m]), pass.owner, steps[m].readFault)
    && forall n :: ReadsJob(s0, steps, id, n) ==> n == m
  }

  function MemoFrom(s: State, owner: Owner, fault: Option<Error>): Remembered {
    Some(Recheck(owner, LiveRead(s.world.jobs, owner, fault)))
  }

  /** What one step leaves of a pass. */
  lemma StepOnPass(s: State, step: Step, id: nat)
    requires id in s.passes
    ensures
      var before, t := s.passes[id], Apply(s, step);
      && id in t.passes
      && t.passes[id].owner == before.owner && t.passes[id].list == before.list
      && (if Enabled(s, step) && step.Rechecked? && step.id == id
          then before.claims.memo == None && t.passes[id].claims.memo == MemoFrom(s, before.owner, step.readFault)
          else t.passes[id].claims.memo == before.claims.memo)
  {
  }

  lemma {:induction false} PassHistory(s0: State, steps: seq<Step>, id: nat) returns (l: nat, m: nat)
    requires Initial(s0) && id in StateAt(s0, steps).passes
    ensures StartedAt(s0, steps, id, l)
    ensures StateAt(s0, steps).passes[id].claims.memo.None? ==> forall n :: !ReadsJob(s0, steps, id, n)
    ensures StateAt(s0, steps).passes[id].claims.memo.Some? ==> l < m && CheckedAt(s0, steps, id, m)
  {
    var k := |steps| - 1;
    var s, last := StateAt(s0, steps[..k]), steps[k];
    PrefixAgrees(s0, steps, k, id);
    if id in s.passes {
      l, m := PassHistory(s0, steps[..k], id);
      StepOnPass(s, last, id);
      if s.passes[id].claims.memo.None? {
        m := k;
      }
      assert forall n :: ReadsJob(s0, steps, id, n) && n != k ==> ReadsJob(s0, steps[..k], id, n);
    } else {
      l, m := k, k;
      NoReadBeforeStart(s0, steps[..k], id);
      assert forall n :: ReadsJob(s0, steps, id, n) && n != k ==> ReadsJob(s0, steps[..k], id, n);
    }
  }

  predicate SendsAdoption(s: State, step: Step) {
    && Enabled(s, step) && step.PodHandled?
    && PatchToSend(s.passes[step.id]).Some? && PatchToSend(s.passes[step.id]).value.AdoptPatch?
  }

  /** The server's job under the owner's name is the owner itself and is not being deleted. */
  predicate AliveAt(s: State, owner: Owner) {
    var key := (owner.namespace, owner.name);
    key in s.world.jobs && s.world.jobs[key].uid == owner.uid && !s.world.jobs[key].deleting
  }

  /** In every run, each adoption patch is preceded, after its pass took its list, by the pass's
      one and only live read, which found the job alive under the same UID. */
  lemma AdoptionIsFresh(s0: State, steps: seq<Step>, n: nat) returns (l: nat, m: nat)
    requires Initial(s0) && n < |steps| && SendsAdoption(StateAt(s0, steps[..n]), steps[n])
    ensures
      var id := steps[n].id;
      var pass := StateAt(s0, steps[..n]).passes[id];
      && l < m < n
      && Happens(s0, steps, l) && steps[l] == PassStarted(id, pass.owner, pass.list)
      && ReadsJob(s0, steps, id, m)
      && AliveAt(StateAt(s0, steps[..m]), pass.owner)
      && forall i :: ReadsJob(s0, steps, id, i) ==> i == m
  {
    var id := steps[n].id;
    l, m := PassHistory(s0, steps[..n], id);
    PrefixAgrees(s0, steps, n, id);
    forall i | ReadsJob(s0, steps, id, i) ensures i == m {
      if i >= n {
        MemoStays(s0, steps, n, i, id);
      } else {
        assert ReadsJob(s0, steps[..n], id, i);
      }
    }
  }

  /** Once a pass remembers its recheck it never changes it, nor reads again. */
  lemma {:induction false} MemoStays(s0: State, steps: seq<Step>, n: nat, i: nat, id: nat)
    requires n <= i <= |steps|
    requires id in StateAt(s0, steps[..n]).passes && StateAt(s0, steps[..n]).passes[id].claims.memo.Some?
    ensures id in StateAt(s0, steps[..i]).passes
    ensures StateAt(s0, steps[..i]).passes[id].claims.memo == StateAt(s0, steps[..n]).passes[id].claims.memo
    ensures !ReadsJob(s0, steps, id, i)
  {
    if n < i {
      MemoStays(s0, steps, n, i - 1, id);
      assert steps[..i][..i - 1] == steps[..i - 1];
      StepOnPass(StateAt(s0, steps[..i - 1]), steps[i - 1], id);
    }
    if i < |steps| {
      StepOnPass(StateAt(s0, steps[..i]), steps[i], id);
    }
  }

  /** If the live read does not find the job alive, the pass never sends an adoption. */
  lemma FailedRecheckBlocksAdoption(s0: State, steps: seq<Step>, id: nat, m: nat, n: nat)
    requires Initial(s0) && n < |steps|
    requires ReadsJob(s0, steps, id, m)
    requires steps[m].readFault.Some? || !AliveAt(StateAt(s0, steps[..m]), StateAt(s0, steps[..m]).passes[id].owner)
    requires steps[n].PodHandled? && steps[n].id == id
    ensures !SendsAdoption(StateAt(s0, steps[..n]), steps[n])
  {
    if SendsAdoption(StateAt(s0, steps[..n]), steps[n]) {
      var l, i := PassHistory(s0, steps[..n], id);
      PrefixAgrees(s0, steps, n, id);
      if n <= m {
        MemoStays(s0, steps, n, m, id);
      } else {
        assert ReadsJob(s0, steps[..n], id, m);
        OwnerStays(s0, steps, m, n, id);
      }
      assert false;
    }
  }

  lemma {:induction false} OwnerStays(s0: State, steps: seq<Step>, m: nat, n: nat, id: nat)
    requires m <= n <= |steps| && id in StateAt(s0, steps[..m]).passes
    ensures id in StateAt(s0, steps[..n]).passes
    ensures StateAt(s0, steps[..n]).passes[id].owner == StateAt(s0, steps[..m]).passes[id].owner
  {
    if m < n {
      OwnerStays(s0, steps, m, n - 1, id);
      assert steps[..n][..n - 1] == steps[..n - 1];
      StepOnPass(StateAt(s0, steps[..n - 1]), steps[n - 1], id);
    }
  }

  // ----- the interleaved pass is the sequential pass -----

  /** A pass has computed ClaimAll of the pods it has handled, with the answers it got; in the
      middle of a pod it has in addition made that pod's live read. */
  predicate PassInv(pass: Pass) {
    && |pass.replies| == pass.Position() <= |pass.list|
    && var done := ClaimAll(pass.owner, pass.list[..pass.Position()], pass.replies);
       if pass.live.None? then pass.claims == done
       else
         && pass.Busy()
         && Decide(pass.owner, pass.list[pass.Position()]) == TryAdopt
         && done.memo == None
         && pass.claims == Claims(Some(Recheck(pass.owner, pass.live.value)), done.outcomes,
                                  done.calls + [GetJob(pass.owner.namespace, pass.owner.name)])
  }

  lemma HandlingKeepsPassInv(pass: Pass, reply: Option<Error>)
    requires PassInv(pass) && pass.Busy()
    requires Decide(pass.owner, pass.list[pass.Position()]) == TryAdopt ==> pass.claims.memo.Some?
    ensures PassInv(AfterPod(pass, reply))
  {
    var k := pass.Position();
    var after := AfterPod(pass, reply);
    assert pass.list[..k + 1][..k] == pass.list[..k];
    assert after.replies[..k] == pass.replies;
    var done := ClaimAll(pass.owner, pass.list[..k], pass.replies);
    assert ClaimAll(pass.owner, pass.list[..k + 1], after.replies)
        == ClaimNext(pass.owner, done, pass.list[k], after.replies[k]);
  }

  /** Whatever is interleaved with it, a pass computes Claims.ClaimAll, so the exact-result
      lemmas of Claims hold for every pass of every run. */
  lemma {:induction false} InterleavedPassIsClaimAll(s0: State, steps: seq<Step>, id: nat)
    requires Initial(s0) && id in StateAt(s0, steps).passes
    ensures PassInv(StateAt(s0, steps).passes[id])
  {
    var init, last := steps[..|steps| - 1], steps[|steps| - 1];
    var s := StateAt(s0, init);
    if id in s.passes {
      InterleavedPassIsClaimAll(s0, init, id);
      if Enabled(s, last) && last.PodHandled? && last.id == id {
        var pass := s.passes[id];
        var patch := PatchToSend(pass);
        HandlingKeepsPassInv(pass, if patch.None? then None else ReplyTo(s.world.pods, patch.value, last.fault));
      }
    }
  }
}
