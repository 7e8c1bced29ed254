/** Claiming reaches a fixed point: after an error-free pass over an up-to-date list, with no
    other writer, a second pass finds nothing left to adopt or release. */
module FixedPoint {
  import opened Wrappers
  import opened Kube
  import opened Claims
  import opened Server
  import opened Ownership

  /** The list holds each pod of the namespace exactly as the server has it, once. */
  ghost predicate Lists(list: seq<Pod>, pods: map<Key, Pod>, namespace: string) {
    && (forall i :: 0 <= i < |list| ==>
          list[i].namespace == namespace && KeyOf(list[i]) in pods && pods[KeyOf(list[i])] == list[i])
    && (forall i, j :: 0 <= i < j < |list| ==> KeyOf(list[i]) != KeyOf(list[j]))
    && (forall key :: key in pods && key.0 == namespace ==> pods[key] in list)
  }

  /** Only pass `id` acts. */
  predicate Alone(steps: seq<Step>, id: nat) {
    forall n :: 0 <= n < |steps| ==> (steps[n].Rechecked? || steps[n].PodHandled?) && steps[n].id == id
  }

  /** What the pass means to make of a pod. */
  function Settled(owner: Owner, pod: Pod): Pod {
    match Decide(owner, pod)
    case TryRelease => pod.(ownerRefs := RemoveUid(pod.ownerRefs, owner.uid))
    case TryAdopt => pod.(ownerRefs := MergeRef(pod.ownerRefs, OwnerRefFor(owner.name, owner.uid)))
    case _ => pod
  }

  /** A settled pod is either claimed without a patch or ignored; it is claimed exactly if the
      first pass claimed it. */
  lemma SettledIsQuiet(owner: Owner, pod: Pod)
    requires AtMostOneController(pod.ownerRefs)
    ensures Decide(owner, Settled(owner, pod)) == Keep <==> Decide(owner, pod) in {Keep, TryAdopt}
    ensures Decide(owner, Settled(owner, pod)) in {Keep, Ignore}
    ensures !owner.deleting && ControlledBy(Settled(owner, pod), owner.uid) ==> Matches(owner.selector, pod.labels)
  {
    if Decide(owner, pod) == TryRelease {
      RemoveKeepsController(pod.ownerRefs, owner.uid);
    } else if Decide(owner, pod) == TryAdopt {
      MergeIntoOrphan(pod.ownerRefs, OwnerRefFor(owner.name, owner.uid));
    }
  }

  /** On an up-to-date pod the server accepts the patch, and makes of the pod what was meant. */
  lemma UpToDatePatch(pass: Pass, pods: map<Key, Pod>)
    requires pass.Busy() && PatchToSend(pass).Some?
    requires
      var pod := pass.list[pass.Position()];
      KeyOf(pod) in pods && pods[KeyOf(pod)] == pod && AtMostOneController(pod.ownerRefs)
    ensures PatchKey(PatchToSend(pass).value) == KeyOf(pass.list[pass.Position()])
    ensures Patched(pods, PatchToSend(pass).value) == Ok(Settled(pass.owner, pass.list[pass.Position()]))
  {
    var pod := pass.list[pass.Position()];
    if Decide(pass.owner, pod) == TryAdopt {
      MergeIntoOrphan(pod.ownerRefs, OwnerRefFor(pass.owner.name, pass.owner.uid));
    }
  }

  /** During a lone pass: handled pods are settled unless their own handling failed, the
      others are still as listed, and no pod comes or goes. */
  ghost predicate Progress(s: State, id: nat, owner: Owner, list: seq<Pod>, keys: set<Key>) {
    id in s.passes && PassProgress(s.passes[id], s.world.pods, owner, list, keys)
  }

  ghost predicate PassProgress(pass: Pass, pods: map<Key, Pod>, owner: Owner, list: seq<Pod>, keys: set<Key>) {
    && pass.owner == owner && pass.list == list && pass.Position() <= |list| && pods.Keys == keys
    && (forall i :: 0 <= i < |list| ==> KeyOf(list[i]) in keys && AtMostOneController(list[i].ownerRefs))
    && (forall i, j :: 0 <= i < j < |list| ==> KeyOf(list[i]) != KeyOf(list[j]))
    && (forall i :: pass.Position() <= i < |list| ==> pods[KeyOf(list[i])] == list[i])
    && (forall i :: 0 <= i < pass.Position() && !IsFailure(pass.claims.outcomes[i]) ==>
          pods[KeyOf(list[i])] == Settled(owner, list[i]))
  }

  lemma HandledOutcome(pass: Pass, pods: map<Key, Pod>, fault: Fault)
    requires MayHandle(pass) && (fault == Clean || Transient(fault.error))
    requires
      var pod := pass.list[pass.Position()];
      KeyOf(pod) in pods && pods[KeyOf(pod)] == pod && AtMostOneController(pod.ownerRefs)
    ensures
      var pod, patch := pass.list[pass.Position()], PatchToSend(pass);
      var after := if patch.None? then pods else PodsAfter(pods, patch.value, fault);
      var reply := if patch.None? then None else ReplyTo(pods, patch.value, fault);
      var outcome := AfterPod(pass, reply).claims.outcomes[pass.Position()];
      && after.Keys == pods.Keys
      && (forall key :: key in pods && key != KeyOf(pod) ==> after[key] == pods[key])
      && (!IsFailure(outcome) ==> after[KeyOf(pod)] == Settled(pass.owner, pod))
      && (!IsFailure(outcome) ==> (IsClaimed(outcome) <==> Decide(pass.owner, pod) in {Keep, TryAdopt}))
  {
    if PatchToSend(pass).Some? {
      UpToDatePatch(pass, pods);
    }
  }

  lemma HandlingKeepsProgress(pass: Pass, pods: map<Key, Pod>, fault: Fault, owner: Owner, list: seq<Pod>,
                              keys: set<Key>)
    requires PassProgress(pass, pods, owner, list, keys)
    requires MayHandle(pass) && (fault == Clean || Transient(fault.error))
    ensures
      var patch := PatchToSend(pass);
      var after := if patch.None? then pods else PodsAfter(pods, patch.value, fault);
      var reply := if patch.None? then None else ReplyTo(pods, patch.value, fault);
      PassProgress(AfterPod(pass, reply), after, owner, list, keys)
  {
    HandledOutcome(pass, pods, fault);
    var patch := PatchToSend(pass);
    var reply := if patch.None? then None else ReplyTo(pods, patch.value, fault);
    assert AfterPod(pass, reply).claims.outcomes[..pass.Position()] == pass.claims.outcomes;
  }

  lemma StepKeepsProgress(s: State, step: Step, id: nat, owner: Owner, list: seq<Pod>, keys: set<Key>)
    requires Progress(s, id, owner, list, keys)
    requires (step.Rechecked? || step.PodHandled?) && step.id == id
    ensures Progress(Apply(s, step), id, owner, list, keys)
  {
    if Enabled(s, step) && step.PodHandled? {
      HandlingKeepsProgress(s.passes[id], s.world.pods, step.fault, owner, list, keys);
    }
  }

  lemma {:induction false} LonePassProgress(s: State, steps: seq<Step>, id: nat, owner: Owner, list: seq<Pod>,
                                            keys: set<Key>)
    requires Progress(s, id, owner, list, keys) && Alone(steps, id)
    ensures Progress(StateAt(s, steps), id, owner, list, keys)
  {
    if |steps| > 0 {
      var k := |steps| - 1;
      LonePassProgress(s, steps[..k], id, owner, list, keys);
      StepKeepsProgress(StateAt(s, steps[..k]), steps[k], id, owner, list, keys);
    }
  }

  /** The whole first pass: started on an up-to-date list, run alone to the end, without errors. */
  ghost predicate CleanPass(s: State, steps: seq<Step>, id: nat, owner: Owner, list: seq<Pod>) {
    && PodsInv(s) && Lists(list, s.world.pods, owner.namespace)
    && Enabled(s, PassStarted(id, owner, list)) && Alone(steps, id)
    && var t := StateAt(Apply(s, PassStarted(id, owner, list)), steps);
       && id in t.passes && t.passes[id].Position() == |list|
       && ErrorsOf(t.passes[id].claims.outcomes) == []
  }

  /** After a clean pass every pod of the namespace is settled. */
  lemma CleanPassSettles(s: State, steps: seq<Step>, id: nat, owner: Owner, list: seq<Pod>)
    requires CleanPass(s, steps, id, owner, list)
    ensures
      var t := StateAt(Apply(s, PassStarted(id, owner, list)), steps);
      && t.world.pods.Keys == s.world.pods.Keys
      && forall key :: key in s.world.pods && key.0 == owner.namespace ==>
           t.world.pods[key] == Settled(owner, s.world.pods[key])
  {
    var s1 := Apply(s, PassStarted(id, owner, list));
    var t := StateAt(s1, steps);
    LonePassProgress(s1, steps, id, owner, list, s.world.pods.Keys);
    ErrorsOfEmpty(t.passes[id].claims.outcomes);
    forall key | key in s.world.pods && key.0 == owner.namespace
      ensures t.world.pods[key] == Settled(owner, s.world.pods[key])
    {
      assert s.world.pods[key] in list;
      var i :| 0 <= i < |list| && list[i] == s.world.pods[key];
      assert KeyOf(list[i]) == key;
    }
  }

  lemma {:induction false} QuietSends(owner: Owner, pods: seq<Pod>, gate: Option<Error>)
    requires forall i :: 0 <= i < |pods| ==> Decide(owner, pods[i]) in {Keep, Ignore}
    ensures Sends(owner, pods, gate) == []
  {
    if |pods| > 0 {
      QuietSends(owner, pods[..|pods| - 1], gate);
    }
  }

  /** A pass over pods that need no patch sends nothing, whatever the answers would be, and
      claims exactly the kept ones. */
  lemma {:induction false} QuietPass(owner: Owner, pods: seq<Pod>, replies: seq<PodReply>)
    requires |pods| == |replies|
    requires forall i :: 0 <= i < |pods| ==> Decide(owner, pods[i]) in {Keep, Ignore}
    ensures
      var c := ClaimAll(owner, pods, replies);
      && c.calls == [] && c.memo == None && ErrorsOf(c.outcomes) == []
      && forall i :: 0 <= i < |pods| ==> c.outcomes[i] == if Decide(owner, pods[i]) == Keep then Kept else Ignored
  {
    var gate := Gate(owner, pods, replies);
    MemoIsGate(owner, pods, replies);
    CallsExact(owner, pods, replies);
    QuietSends(owner, pods, gate);
    var outcomes := ClaimAll(owner, pods, replies).outcomes;
    forall i | 0 <= i < |pods| ensures outcomes[i] == if Decide(owner, pods[i]) == Keep then Kept else Ignored {
      OutcomesExact(owner, pods, replies, i);
    }
    ErrorsOfEmpty(outcomes);
  }

  /** Over settled pods a pass makes no call and claims what the pass before wanted to claim. */
  lemma SecondPass(owner: Owner, before: map<Key, Pod>, after: map<Key, Pod>, again: seq<Pod>, replies: seq<PodReply>)
    requires Lists(again, after, owner.namespace) && |again| == |replies|
    requires forall key :: key in before ==> AtMostOneController(before[key].ownerRefs)
    requires after.Keys == before.Keys
    requires forall key :: key in before && key.0 == owner.namespace ==> after[key] == Settled(owner, before[key])
    ensures
      var second := ClaimAll(owner, again, replies);
      && second.calls == [] && ErrorsOf(second.outcomes) == []
      && forall j :: 0 <= j < |again| ==>
           (IsClaimed(second.outcomes[j]) <==> Decide(owner, before[KeyOf(again[j])]) in {Keep, TryAdopt})
  {
    forall j | 0 <= j < |again|
      ensures Decide(owner, again[j]) in {Keep, Ignore}
      ensures Decide(owner, again[j]) == Keep <==> Decide(owner, before[KeyOf(again[j])]) in {Keep, TryAdopt}
    {
      SettledIsQuiet(owner, before[KeyOf(again[j])]);
    }
    QuietPass(owner, again, replies);
  }

  /** The fixed point. After a clean pass a second pass over any up-to-date list makes no call at all and
      claims the same pods; and unless the job is being deleted, when nothing is released, every pod of the
      namespace that the job controls matches the job's selector. */
  lemma ClaimingReachesFixedPoint(
    s: State, steps: seq<Step>, id: nat, owner: Owner, list: seq<Pod>, again: seq<Pod>, replies: seq<PodReply>)
    requires CleanPass(s, steps, id, owner, list)
    requires Lists(again, StateAt(Apply(s, PassStarted(id, owner, list)), steps).world.pods, owner.namespace)
    requires |again| == |replies|
    ensures
      var t := StateAt(Apply(s, PassStarted(id, owner, list)), steps);
      !owner.deleting ==>
        forall key :: key in t.world.pods && key.0 == owner.namespace ==>
          ControlledBy(t.world.pods[key], owner.uid) ==>
          Matches(owner.selector, t.world.pods[key].labels)
    ensures
      var t := StateAt(Apply(s, PassStarted(id, owner, list)), steps);
      var second := ClaimAll(owner, again, replies);
      && second.calls == [] && ErrorsOf(second.outcomes) == []
      && (forall i, j :: 0 <= i < |list| && 0 <= j < |again| && KeyOf(list[i]) == KeyOf(again[j]) ==>
            (IsClaimed(t.passes[id].claims.outcomes[i]) <==> IsClaimed(second.outcomes[j])))
  {
    var t := StateAt(Apply(s, PassStarted(id, owner, list)), steps);
    CleanPassSettles(s, steps, id, owner, list);
    forall key | key in t.world.pods && key.0 == owner.namespace
      ensures !owner.deleting && ControlledBy(t.world.pods[key], owner.uid) ==>
        Matches(owner.selector, t.world.pods[key].labels)
    {
      SettledIsQuiet(owner, s.world.pods[key]);
    }
    SecondPass(owner, s.world.pods, t.world.pods, again, replies);
    forall i | 0 <= i < |list|
      ensures IsClaimed(t.passes[id].claims.outcomes[i]) <==>
        Decide(owner, s.world.pods[KeyOf(list[i])]) in {Keep, TryAdopt}
    {
      ClaimedInCleanPass(s, steps, id, owner, list, i);
    }
  }

  /** In a clean pass the claimed pods are exactly the kept and the adoptable ones. */
  lemma ClaimedInCleanPass(s: State, steps: seq<Step>, id: nat, owner: Owner, list: seq<Pod>, i: nat)
    requires CleanPass(s, steps, id, owner, list) && i < |list|
    ensures
      var t := StateAt(Apply(s, PassStarted(id, owner, list)), steps);
      IsClaimed(t.passes[id].claims.outcomes[i]) <==> Decide(owner, list[i]) in {Keep, TryAdopt}
  {
    var s1 := Apply(s, PassStarted(id, owner, list));
    var t := StateAt(s1, steps);
    ErrorsOfEmpty(t.passes[id].claims.outcomes);
    LonePassClaims(s1, steps, id, owner, list, s.world.pods.Keys, i);
  }

  lemma {:induction false} LonePassClaims(
    s: State, steps: seq<Step>, id: nat, owner: Owner, list: seq<Pod>, keys: set<Key>, i: nat)
    requires Progress(s, id, owner, list, keys) && Alone(steps, id)
    requires s.passes[id].Position() == 0
    ensures Progress(StateAt(s, steps), id, owner, list, keys)
    ensures
      var pass := StateAt(s, steps).passes[id];
      i < pass.Position() && !IsFailure(pass.claims.outcomes[i]) ==>
        (IsClaimed(pass.claims.outcomes[i]) <==> Decide(owner, list[i]) in {Keep, TryAdopt})
  {
    if |steps| > 0 {
      var k := |steps| - 1;
      var t, step := StateAt(s, steps[..k]), steps[k];
      LonePassClaims(s, steps[..k], id, owner, list, keys, i);
      StepKeepsProgress(t, step, id, owner, list, keys);
      if Enabled(t, step) && step.PodHandled? {
        HandledOutcome(t.passes[id], t.world.pods, step.fault);
      }
    }
  }
}
