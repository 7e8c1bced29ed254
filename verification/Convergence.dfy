/** Filling the slots of one job when nothing is removed and nobody leaves orphans for the job. The server may
    have pods that the next list does not show. Counting these too: exactly when a pass, and when a run, keeps
    one pod per slot; and each round that makes or lists a missing pod leaves fewer empty slots to fill. */
module Convergence {
  import opened Wrappers
  import opened Kube
  import opened Api
  import opened Types
  import opened Claims
  import opened RefManager
  import opened FixedPoint
  import opened PodFactory
  import opened Slots
  import opened Counting
  import opened Reconcile

  /** Every pod is either the job's own or none of its business. */
  predicate Tidy(owner: Owner, pods: set<Pod>) {
    forall p :: p in pods ==> Decide(owner, p) == Keep || Decide(owner, p) == Ignore
  }

  predicate Occupies(owner: Owner, replicas: nat, p: Pod, i: nat) {
    Decide(owner, p) == Keep && InSlot(p, i, replicas)
  }

  predicate Occupied(owner: Owner, replicas: nat, pods: set<Pod>, i: nat) {
    exists p :: p in pods && Occupies(owner, replicas, p, i)
  }

  ghost predicate AtMostOne(owner: Owner, replicas: nat, pods: set<Pod>) {
    forall i, p, q :: p in pods && q in pods ==>
      Occupies(owner, replicas, p, i) && Occupies(owner, replicas, q, i) ==> p == q
  }

  predicate NoRepeats(list: seq<Pod>) {
    forall i, j :: 0 <= i < j < |list| ==> list[i] != list[j]
  }

  /** The lister returns each pod once, in any order. */
  ghost predicate Listing(list: seq<Pod>, pods: set<Pod>) {
    NoRepeats(list) && forall p :: p in list <==> p in pods
  }

  // ----- what a pass sees -----

  lemma {:induction false} SelectedMembers(list: seq<Pod>, outcomes: seq<Outcome>, p: Pod)
    requires |list| == |outcomes|
    ensures p in Select(list, outcomes) <==> exists i :: 0 <= i < |list| && list[i] == p && IsClaimed(outcomes[i])
  {
    var at := SelectIsSubsequence(list, outcomes);
    var selected := Select(list, outcomes);
    if j :| 0 <= j < |selected| && selected[j] == p {
      assert at[j] in at;
    }
    if i :| 0 <= i < |list| && list[i] == p && IsClaimed(outcomes[i]) {
      var j :| 0 <= j < |at| && at[j] == i;
      assert selected[j] == p;
    }
  }

  lemma PicksNoRepeats(list: seq<Pod>, picked: seq<Pod>, at: seq<nat>)
    requires NoRepeats(list) && Picks(list, picked, at)
    ensures NoRepeats(picked)
  {
  }

  lemma {:induction false} WorkersNoRepeats(pods: seq<Pod>)
    requires NoRepeats(pods)
    ensures NoRepeats(Workers(pods))
  {
    if |pods| > 0 {
      var k := |pods| - 1;
      WorkersNoRepeats(pods[..k]);
      WorkersMembers(pods[..k], pods[k]);
    }
  }

  lemma SlotNoRepeats(pods: seq<Pod>, i: nat, replicas: nat)
    requires NoRepeats(pods)
    ensures NoRepeats(Slot(pods, i, replicas))
  {
    var at := SlotIsSubsequence(pods, i, replicas);
    PicksNoRepeats(pods, Slot(pods, i, replicas), at);
  }

  lemma SlotOfClaimed(claimed: seq<Pod>, replicas: nat, i: nat)
    requires i < replicas && NoRepeats(claimed)
    ensures forall p :: p in SlotsOf(claimed, replicas)[i] <==> p in claimed && InSlot(p, i, replicas)
    ensures NoRepeats(SlotsOf(claimed, replicas)[i])
  {
    WorkersNoRepeats(claimed);
    SlotNoRepeats(Workers(claimed), i, replicas);
    forall p ensures p in SlotsOf(claimed, replicas)[i] <==> p in claimed && InSlot(p, i, replicas) {
      SlotMembers(Workers(claimed), i, replicas, p);
      WorkersMembers(claimed, p);
    }
  }

  /** A slot of the kept pods is empty exactly if nothing occupies it. */
  lemma KeptSlot(owner: Owner, replicas: nat, pods: set<Pod>, claimed: seq<Pod>, i: nat)
    requires i < replicas && NoRepeats(claimed)
    requires forall p :: p in claimed <==> p in pods && Decide(owner, p) == Keep
    ensures
      var slot := SlotsOf(claimed, replicas)[i];
      && (ClassOf(slot) == Empty <==> !Occupied(owner, replicas, pods, i))
      && (AtMostOne(owner, replicas, pods) ==> ClassOf(slot) != Several)
  {
    SlotOfClaimed(claimed, replicas, i);
    var slot := SlotsOf(claimed, replicas)[i];
    if |slot| > 0 {
      assert slot[0] in slot;
      assert Occupies(owner, replicas, slot[0], i);
    }
    if |slot| > 1 {
      assert slot[1] in slot;
      assert Occupies(owner, replicas, slot[0], i) && Occupies(owner, replicas, slot[1], i) && slot[0] != slot[1];
    }
  }

  lemma KeptAreSelected(owner: Owner, pods: set<Pod>, list: seq<Pod>, outcomes: seq<Outcome>)
    requires Listing(list, pods) && |list| == |outcomes|
    requires forall i :: 0 <= i < |list| ==> outcomes[i] == if Decide(owner, list[i]) == Keep then Kept else Ignored
    ensures NoRepeats(Select(list, outcomes))
    ensures forall p :: p in Select(list, outcomes) <==> p in pods && Decide(owner, p) == Keep
  {
    forall p ensures p in Select(list, outcomes) <==> p in pods && Decide(owner, p) == Keep {
      SelectedMembers(list, outcomes, p);
    }
    var at := SelectIsSubsequence(list, outcomes);
    PicksNoRepeats(list, Select(list, outcomes), at);
  }

  /** An up-to-date pass of a tidy job sends no patch and sees exactly the occupied slots, never
      more than one pod in a slot if there is never more than one. */
  lemma PassSeesOccupied(owner: Owner, replicas: nat, pods: set<Pod>, list: seq<Pod>, replies: seq<PodReply>, i: nat)
    requires Tidy(owner, pods) && Listing(list, pods) && |replies| == |list| && i < replicas
    ensures
      var c := ClaimAll(owner, list, replies);
      var slot := SlotsOf(Select(list, c.outcomes), replicas)[i];
      && c.calls == [] && ErrorsOf(c.outcomes) == []
      && (ClassOf(slot) == Empty <==> !Occupied(owner, replicas, pods, i))
      && (AtMostOne(owner, replicas, pods) ==> ClassOf(slot) != Several)
  {
    QuietPass(owner, list, replies);
    var outcomes := ClaimAll(owner, list, replies).outcomes;
    KeptAreSelected(owner, pods, list, outcomes);
    KeptSlot(owner, replicas, pods, Select(list, outcomes), i);
  }

  // ----- what a pass leaves -----

  /** What became of a creation request: a pod that the next list shows, a pod that is listed only
      later, or no pod. */
  datatype Effect = Visible | Late | Never

  /** An accepted creation is visible in the next up-to-date list; after an error anything is possible. */
  ghost predicate Honest(creates: nat -> Option<Error>, effects: nat -> Effect) {
    forall i :: creates(i) == None ==> effects(i) == Visible
  }

  /** Slot i is empty, and no empty slot before it failed. */
  predicate Attempted(owner: Owner, replicas: nat, pods: set<Pod>, creates: nat -> Option<Error>, i: nat) {
    && i < replicas && !Occupied(owner, replicas, pods, i)
    && forall j :: 0 <= j < i && !Occupied(owner, replicas, pods, j) ==> CreateError(creates(j)) == None
  }

  /** `made(i)` is the pod that a creation for slot i brings into being. */
  ghost predicate Makes(owner: Owner, replicas: nat, made: nat -> Pod) {
    forall i: nat, j: nat :: i < replicas ==> (Occupies(owner, replicas, made(i), j) <==> j == i)
  }

  /** The pods made by createNewPod, under any names, UIDs and phases, are of this kind. */
  lemma CreatedPodsMake(job: JobInfo, t: TemplateValue, made: nat -> Pod)
    requires job.replicas >= 0
    requires forall i: nat :: i < job.replicas as int ==>
      made(i) == Admit(PodAt(job, t, i), made(i).name, made(i).uid, made(i).phase)
    ensures Makes(job.AsOwner(), job.replicas as nat, made)
  {
    var owner, replicas := job.AsOwner(), job.replicas as nat;
    forall i: nat, j: nat | i < replicas ensures Occupies(owner, replicas, made(i), j) <==> j == i {
      CreatedPodComesBack(job, t, i, made(i).name, made(i).uid, made(i).phase);
    }
  }

  function Brought(owner: Owner, replicas: nat, pods: set<Pod>, creates: nat -> Option<Error>,
                   effects: nat -> Effect, made: nat -> Pod, effect: Effect): set<Pod> {
    set i: nat | i < replicas && Attempted(owner, replicas, pods, creates, i) && effects(i) == effect :: made(i)
  }

  /** The server's pods: those the next list shows, and those no list shows yet. The latter come from
      creations that timed out, or are accepted pods that a stale list leaves out. */
  datatype Cluster = Cluster(pods: set<Pod>, late: set<Pod>)
  {
    function All(): set<Pod> {
      pods + late
    }
  }

  /** What a pass that sees `c.pods` leaves. */
  function AfterPass(owner: Owner, replicas: nat, c: Cluster, creates: nat -> Option<Error>,
                     effects: nat -> Effect, made: nat -> Pod): Cluster {
    Cluster(c.pods + Brought(owner, replicas, c.pods, creates, effects, made, Visible),
            c.late + Brought(owner, replicas, c.pods, creates, effects, made, Late))
  }

  /** A pod after the pass was there before or was made for an attempted slot. */
  lemma FromWhere(owner: Owner, replicas: nat, c: Cluster, creates: nat -> Option<Error>,
                  effects: nat -> Effect, made: nat -> Pod, p: Pod)
    ensures p in AfterPass(owner, replicas, c, creates, effects, made).All() <==>
      || p in c.All()
      || exists i: nat :: i < replicas && p == made(i)
           && Attempted(owner, replicas, c.pods, creates, i) && effects(i) != Never
  {
    var after := AfterPass(owner, replicas, c, creates, effects, made);
    if i: nat :| i < replicas && p == made(i) && Attempted(owner, replicas, c.pods, creates, i) && effects(i) != Never {
      assert effects(i) == Visible || effects(i) == Late;
    }
  }

  /** The slot loop asks for exactly the attempted slots, in order. */
  lemma LoopAsksForAttempted(owner: Owner, replicas: nat, pods: set<Pod>, list: seq<Pod>, replies: seq<PodReply>,
                             make: nat -> NewPod, creates: nat -> Option<Error>)
    requires Tidy(owner, pods) && Listing(list, pods) && |replies| == |list|
    ensures
      var slots := SlotsOf(Select(list, ClaimAll(owner, list, replies).outcomes), replicas);
      && RunLoop(slots, make, creates).calls == Asked(slots, replicas, make, creates)
      && forall i: nat :: i < replicas ==>
           (Attempted(owner, replicas, pods, creates, i) <==> ClassOf(slots[i]) == Empty && Reached(slots, i, creates))
  {
    var slots := SlotsOf(Select(list, ClaimAll(owner, list, replies).outcomes), replicas);
    LoopCreates(slots, replicas, make, creates);
    forall i: nat | i < replicas ensures ClassOf(slots[i]) == Empty <==> !Occupied(owner, replicas, pods, i) {
      PassSeesOccupied(owner, replicas, pods, list, replies, i);
    }
  }

  /** A pass fills exactly the attempted slots whose pod became visible. */
  lemma PassFills(owner: Owner, replicas: nat, c: Cluster, creates: nat -> Option<Error>, effects: nat -> Effect,
                  made: nat -> Pod, i: nat)
    requires Makes(owner, replicas, made) && i < replicas
    ensures Occupied(owner, replicas, AfterPass(owner, replicas, c, creates, effects, made).pods, i) <==>
      Occupied(owner, replicas, c.pods, i)
      || (Attempted(owner, replicas, c.pods, creates, i) && effects(i) == Visible)
  {
    var after := AfterPass(owner, replicas, c, creates, effects, made).pods;
    if Attempted(owner, replicas, c.pods, creates, i) && effects(i) == Visible {
      assert made(i) in after && Occupies(owner, replicas, made(i), i);
    }
    if Occupied(owner, replicas, c.pods, i) {
      var p :| p in c.pods && Occupies(owner, replicas, p, i);
      assert p in after;
    }
  }

  // ----- one pod per slot, in one pass -----

  /** The pass brings no pod into a slot that an unlisted pod waits for. */
  predicate KeepsClear(owner: Owner, replicas: nat, c: Cluster, creates: nat -> Option<Error>, effects: nat -> Effect) {
    forall i: nat :: i < replicas && Attempted(owner, replicas, c.pods, creates, i) && effects(i) != Never ==>
      !Occupied(owner, replicas, c.late, i)
  }

  /** Counting the unlisted pods too, a pass keeps one pod per slot exactly if it keeps clear of them,
      whatever creations fail. */
  lemma LatePodsDecide(owner: Owner, replicas: nat, c: Cluster, creates: nat -> Option<Error>,
                       effects: nat -> Effect, made: nat -> Pod)
    requires Makes(owner, replicas, made) && AtMostOne(owner, replicas, c.All())
    requires forall i: nat :: i < replicas ==> made(i) !in c.late
    ensures AtMostOne(owner, replicas, AfterPass(owner, replicas, c, creates, effects, made).All()) <==>
      KeepsClear(owner, replicas, c, creates, effects)
  {
    var all := AfterPass(owner, replicas, c, creates, effects, made).All();
    if AtMostOne(owner, replicas, all) {
      forall i: nat | i < replicas && Attempted(owner, replicas, c.pods, creates, i) && effects(i) != Never
        ensures !Occupied(owner, replicas, c.late, i)
      {
        FromWhere(owner, replicas, c, creates, effects, made, made(i));
        assert Occupies(owner, replicas, made(i), i);
        assert forall p :: p in c.late ==> p in all;
      }
    } else {
      var i: nat, p, q :| p in all && q in all && p != q
        && Occupies(owner, replicas, p, i) && Occupies(owner, replicas, q, i);
      FromWhere(owner, replicas, c, creates, effects, made, p);
      FromWhere(owner, replicas, c, creates, effects, made, q);
    }
  }

  /** No unlisted pod waits for a slot that the list shows empty. */
  predicate NothingWaits(owner: Owner, replicas: nat, c: Cluster) {
    forall i: nat :: i < replicas && Occupied(owner, replicas, c.late, i) ==> Occupied(owner, replicas, c.pods, i)
  }

  /** Before the pass: it keeps one pod per slot whatever the answers and their effects, exactly if
      nothing waits. Accepted creations alone show the need; for the other direction any answer will do. */
  lemma PassKeepsAtMostOne(owner: Owner, replicas: nat, c: Cluster, made: nat -> Pod)
    requires Makes(owner, replicas, made) && AtMostOne(owner, replicas, c.All())
    requires forall i: nat :: i < replicas ==> made(i) !in c.late
    ensures NothingWaits(owner, replicas, c) <==>
      forall creates, effects :: Honest(creates, effects) ==>
        AtMostOne(owner, replicas, AfterPass(owner, replicas, c, creates, effects, made).All())
    ensures NothingWaits(owner, replicas, c) ==>
      forall creates, effects :: AtMostOne(owner, replicas, AfterPass(owner, replicas, c, creates, effects, made).All())
  {
    forall creates, effects | NothingWaits(owner, replicas, c)
      ensures AtMostOne(owner, replicas, AfterPass(owner, replicas, c, creates, effects, made).All())
    {
      LatePodsDecide(owner, replicas, c, creates, effects, made);
    }
    if !NothingWaits(owner, replicas, c) {
      var creates, effects := WaitingPodIsDoubled(owner, replicas, c, made);
    }
  }

  lemma WaitingPodIsDoubled(owner: Owner, replicas: nat, c: Cluster, made: nat -> Pod)
    returns (creates: nat -> Option<Error>, effects: nat -> Effect)
    requires Makes(owner, replicas, made) && AtMostOne(owner, replicas, c.All())
    requires forall i: nat :: i < replicas ==> made(i) !in c.late
    requires !NothingWaits(owner, replicas, c)
    ensures Honest(creates, effects)
    ensures !AtMostOne(owner, replicas, AfterPass(owner, replicas, c, creates, effects, made).All())
  {
    creates, effects := (i: nat) => None, (i: nat) => Visible;
    var i: nat :| i < replicas && Occupied(owner, replicas, c.late, i) && !Occupied(owner, replicas, c.pods, i);
    assert Attempted(owner, replicas, c.pods, creates, i) && effects(i) == Visible;
    LatePodsDecide(owner, replicas, c, creates, effects, made);
  }

  /** One pod per slot is not kept in general. For a job of one worker, a creation that the controller
      takes for a success but whose pod the next list does not show, then a second pass, give slot 0
      two pods. */
  lemma UnlistedPodDoublesSlot(job: JobInfo, t: TemplateValue, answer: Option<Error>)
    requires job.replicas == 1 && CreateError(answer) == None
    ensures
      var owner := job.AsOwner();
      var first := Admit(PodAt(job, t, 0), "a", "1", Phase.Pending);
      var second := Admit(PodAt(job, t, 0), "b", "2", Phase.Pending);
      var mid := AfterPass(owner, 1, Cluster({}, {}), (i: nat) => answer, (i: nat) => Late, (i: nat) => first);
      && mid.pods == {} && AtMostOne(owner, 1, mid.All()) && !NothingWaits(owner, 1, mid)
      && !AtMostOne(owner, 1, AfterPass(owner, 1, mid, (i: nat) => None, (i: nat) => Visible, (i: nat) => second).All())
  {
    CreatedPodComesBack(job, t, 0, "a", "1", Phase.Pending);
    CreatedPodComesBack(job, t, 0, "b", "2", Phase.Pending);
    TwoInOneSlot(job.AsOwner(), Admit(PodAt(job, t, 0), "a", "1", Phase.Pending),
                 Admit(PodAt(job, t, 0), "b", "2", Phase.Pending), answer);
  }

  lemma TwoInOneSlot(owner: Owner, first: Pod, second: Pod, answer: Option<Error>)
    requires Occupies(owner, 1, first, 0) && Occupies(owner, 1, second, 0) && first != second
    requires CreateError(answer) == None
    ensures
      var mid := AfterPass(owner, 1, Cluster({}, {}), (i: nat) => answer, (i: nat) => Late, (i: nat) => first);
      && mid.pods == {} && AtMostOne(owner, 1, mid.All()) && !NothingWaits(owner, 1, mid)
      && !AtMostOne(owner, 1, AfterPass(owner, 1, mid, (i: nat) => None, (i: nat) => Visible, (i: nat) => second).All())
  {
    var answers, late := (i: nat) => answer, (i: nat) => Late;
    var mid := AfterPass(owner, 1, Cluster({}, {}), answers, late, (i: nat) => first);
    assert Attempted(owner, 1, {}, answers, 0);
    assert mid.late == {first} && mid.pods == {};
    var accepted, visible, made := (i: nat) => None, (i: nat) => Visible, (i: nat) => second;
    var end := AfterPass(owner, 1, mid, accepted, visible, made);
    assert Attempted(owner, 1, mid.pods, accepted, 0) && visible(0) == Visible;
    assert made(0) in end.pods && made(0) == second;
    assert first in end.late;
  }

  /** The timeout outcome: the pod of a timed-out creation comes up late. */
  lemma LateCreationDoublesSlot(job: JobInfo, t: TemplateValue)
    requires job.replicas == 1
    ensures
      var owner := job.AsOwner();
      var first := Admit(PodAt(job, t, 0), "a", "1", Phase.Pending);
      var second := Admit(PodAt(job, t, 0), "b", "2", Phase.Pending);
      var timesOut := (i: nat) => Some(Status(Timeout));
      var mid := AfterPass(owner, 1, Cluster({}, {}), timesOut, (i: nat) => Late, (i: nat) => first);
      !AtMostOne(owner, 1, AfterPass(owner, 1, mid, (i: nat) => None, (i: nat) => Visible, (i: nat) => second).All())
  {
    UnlistedPodDoublesSlot(job, t, Some(Status(Timeout)));
  }

  /** The stale list: an accepted creation that the next pass's list does not show yet. */
  lemma StaleListDoublesSlot(job: JobInfo, t: TemplateValue)
    requires job.replicas == 1
    ensures
      var owner := job.AsOwner();
      var first := Admit(PodAt(job, t, 0), "a", "1", Phase.Pending);
      var second := Admit(PodAt(job, t, 0), "b", "2", Phase.Pending);
      var mid := AfterPass(owner, 1, Cluster({}, {}), (i: nat) => None, (i: nat) => Late, (i: nat) => first);
      !AtMostOne(owner, 1, AfterPass(owner, 1, mid, (i: nat) => None, (i: nat) => Visible, (i: nat) => second).All())
  {
    UnlistedPodDoublesSlot(job, t, None);
  }

  // ----- empty slots decrease -----

  function EmptySlots(owner: Owner, replicas: nat, pods: set<Pod>): set<nat> {
    set i: nat | i < replicas && !Occupied(owner, replicas, pods, i)
  }

  function Below(n: nat): set<nat> {
    if n == 0 then {} else Below(n - 1) + {n - 1}
  }

  lemma {:induction false} BelowIs(n: nat)
    ensures |Below(n)| == n && forall i: nat :: i in Below(n) <==> i < n
  {
    if n > 0 {
      BelowIs(n - 1);
    }
  }

  lemma EmptySlotsBound(owner: Owner, replicas: nat, pods: set<Pod>)
    ensures |EmptySlots(owner, replicas, pods)| <= replicas
  {
    BelowIs(replicas);
    SubsetSize(EmptySlots(owner, replicas, pods), Below(replicas));
  }

  lemma {:induction false} SubsetSize(a: set<nat>, b: set<nat>)
    requires a <= b
    ensures |a| <= |b| && (a != b ==> |a| < |b|)
  {
    if a != {} {
      var x :| x in a;
      SubsetSize(a - {x}, b - {x});
      assert a - {x} == b - {x} ==> a == b;
    }
  }

  lemma MorePodsFewerEmpty(owner: Owner, replicas: nat, pods: set<Pod>, more: set<Pod>)
    requires pods <= more
    ensures EmptySlots(owner, replicas, more) <= EmptySlots(owner, replicas, pods)
  {
    forall i: nat | Occupied(owner, replicas, pods, i) ensures Occupied(owner, replicas, more, i) {
      var p :| p in pods && Occupies(owner, replicas, p, i);
      assert p in more;
    }
  }

  /** The empty slots after a pass are those before it minus the filled ones, so a pass that makes
      anything visible has strictly fewer left. */
  lemma PassShrinksEmptySlots(owner: Owner, replicas: nat, c: Cluster, creates: nat -> Option<Error>,
                              effects: nat -> Effect, made: nat -> Pod)
    requires Makes(owner, replicas, made)
    ensures
      var before := EmptySlots(owner, replicas, c.pods);
      var after := EmptySlots(owner, replicas, AfterPass(owner, replicas, c, creates, effects, made).pods);
      && after == (set i | i in before && !(Attempted(owner, replicas, c.pods, creates, i) && effects(i) == Visible))
      && (after != before ==> |after| < |before|)
  {
    var before := EmptySlots(owner, replicas, c.pods);
    var after := EmptySlots(owner, replicas, AfterPass(owner, replicas, c, creates, effects, made).pods);
    forall i: nat | i < replicas
      ensures i in after <==> i in before && !(Attempted(owner, replicas, c.pods, creates, i) && effects(i) == Visible)
    {
      PassFills(owner, replicas, c, creates, effects, made, i);
    }
    SubsetSize(after, before);
  }

  /** A full job creates nothing; a pass whose creations are all accepted fills the job. */
  lemma FullJobIsStable(owner: Owner, replicas: nat, c: Cluster, creates: nat -> Option<Error>,
                        effects: nat -> Effect, made: nat -> Pod)
    requires Makes(owner, replicas, made)
    ensures EmptySlots(owner, replicas, c.pods) == {} ==>
      && (forall i :: !Attempted(owner, replicas, c.pods, creates, i))
      && AfterPass(owner, replicas, c, creates, effects, made) == c
    ensures Honest(creates, effects) && (forall i :: creates(i) == None) ==>
      EmptySlots(owner, replicas, AfterPass(owner, replicas, c, creates, effects, made).pods) == {}
  {
    assert forall i :: Attempted(owner, replicas, c.pods, creates, i) ==> i in EmptySlots(owner, replicas, c.pods);
    PassShrinksEmptySlots(owner, replicas, c, creates, effects, made);
    if Honest(creates, effects) && (forall i :: creates(i) == None) {
      forall i | i in EmptySlots(owner, replicas, c.pods)
        ensures Attempted(owner, replicas, c.pods, creates, i) && effects(i) == Visible
      {
        assert creates(i) == None;
      }
    }
  }

  // ----- runs -----

  /** One pass; then some unlisted pods get listed, and phases change at will. */
  datatype Round = Round(creates: nat -> Option<Error>, effects: nat -> Effect, made: nat -> Pod,
                         arrivals: set<Pod>, phases: UID -> Phase)

  function Rephase(pods: set<Pod>, phases: UID -> Phase): set<Pod> {
    set p | p in pods :: p.(phase := phases(p.uid))
  }

  function Settle(c: Cluster, arrivals: set<Pod>, phases: UID -> Phase): Cluster {
    Cluster(Rephase(c.pods + c.late * arrivals, phases), Rephase(c.late - arrivals, phases))
  }

  function AfterRound(owner: Owner, replicas: nat, c: Cluster, r: Round): Cluster {
    Settle(AfterPass(owner, replicas, c, r.creates, r.effects, r.made), r.arrivals, r.phases)
  }

  function ClusterAfter(owner: Owner, replicas: nat, c: Cluster, rounds: seq<Round>): Cluster {
    if |rounds| == 0 then c
    else AfterRound(owner, replicas, ClusterAfter(owner, replicas, c, rounds[..|rounds| - 1]), rounds[|rounds| - 1])
  }

  ghost predicate DistinctUids(pods: set<Pod>) {
    forall p, q :: p in pods && q in pods && p.uid == q.uid ==> p == q
  }

  /** The server gives each new pod a new UID. */
  ghost predicate FreshUids(replicas: nat, pods: set<Pod>, made: nat -> Pod) {
    && (forall i: nat, p :: i < replicas && p in pods ==> made(i).uid != p.uid)
    && (forall i: nat, j: nat :: i < replicas && j < replicas && made(i).uid == made(j).uid ==> i == j)
  }

  ghost predicate ProperRound(owner: Owner, replicas: nat, c: Cluster, r: Round) {
    Makes(owner, replicas, r.made) && FreshUids(replicas, c.All(), r.made)
  }

  ghost predicate ProperRun(owner: Owner, replicas: nat, c: Cluster, rounds: seq<Round>) {
    forall n :: 0 <= n < |rounds| ==>
      ProperRound(owner, replicas, ClusterAfter(owner, replicas, c, rounds[..n]), rounds[n])
  }

  lemma ProperPrefix(owner: Owner, replicas: nat, c: Cluster, rounds: seq<Round>)
    requires |rounds| > 0 && ProperRun(owner, replicas, c, rounds)
    ensures
      var k := |rounds| - 1;
      && ProperRun(owner, replicas, c, rounds[..k])
      && ProperRound(owner, replicas, ClusterAfter(owner, replicas, c, rounds[..k]), rounds[k])
  {
    assert forall n :: 0 <= n < |rounds| - 1 ==> rounds[..|rounds| - 1][..n] == rounds[..n];
  }

  lemma SamePlace(owner: Owner, replicas: nat, p: Pod, phase: Phase)
    ensures Decide(owner, p.(phase := phase)) == Decide(owner, p)
    ensures forall i :: Occupies(owner, replicas, p.(phase := phase), i) == Occupies(owner, replicas, p, i)
  {
  }

  /** Phases do not matter for who occupies what. */
  lemma RephaseKeeps(owner: Owner, replicas: nat, pods: set<Pod>, phases: UID -> Phase)
    ensures Tidy(owner, pods) ==> Tidy(owner, Rephase(pods, phases))
    ensures EmptySlots(owner, replicas, Rephase(pods, phases)) == EmptySlots(owner, replicas, pods)
    ensures DistinctUids(pods) ==>
      && DistinctUids(Rephase(pods, phases))
      && (AtMostOne(owner, replicas, Rephase(pods, phases)) <==> AtMostOne(owner, replicas, pods))
  {
    forall p: Pod, phase: Phase
      ensures Decide(owner, p.(phase := phase)) == Decide(owner, p)
      ensures forall i :: Occupies(owner, replicas, p.(phase := phase), i) == Occupies(owner, replicas, p, i)
    {
      SamePlace(owner, replicas, p, phase);
    }
    forall i: nat ensures Occupied(owner, replicas, Rephase(pods, phases), i) == Occupied(owner, replicas, pods, i) {
      if Occupied(owner, replicas, pods, i) {
        var p :| p in pods && Occupies(owner, replicas, p, i);
        assert p.(phase := phases(p.uid)) in Rephase(pods, phases);
      }
    }
    if DistinctUids(pods) && AtMostOne(owner, replicas, Rephase(pods, phases)) {
      forall i, p, q | p in pods && q in pods && Occupies(owner, replicas, p, i) && Occupies(owner, replicas, q, i)
        ensures p == q
      {
        assert p.(phase := phases(p.uid)) in Rephase(pods, phases);
        assert q.(phase := phases(q.uid)) in Rephase(pods, phases);
      }
    }
  }

  lemma SettledAll(c: Cluster, arrivals: set<Pod>, phases: UID -> Phase)
    ensures Settle(c, arrivals, phases).All() == Rephase(c.All(), phases)
  {
  }

  /** A round keeps one pod per slot exactly if there was one before and the pass keeps clear. */
  lemma RoundKeepsOneIff(owner: Owner, replicas: nat, c: Cluster, r: Round)
    requires ProperRound(owner, replicas, c, r) && DistinctUids(c.All())
    ensures DistinctUids(AfterRound(owner, replicas, c, r).All())
    ensures AtMostOne(owner, replicas, AfterRound(owner, replicas, c, r).All()) <==>
      AtMostOne(owner, replicas, c.All()) && KeepsClear(owner, replicas, c, r.creates, r.effects)
  {
    var d := AfterPass(owner, replicas, c, r.creates, r.effects, r.made);
    forall p
      ensures p in d.All() ==> p in c.All() || exists i: nat :: i < replicas && p == r.made(i)
    {
      FromWhere(owner, replicas, c, r.creates, r.effects, r.made, p);
    }
    SettledAll(d, r.arrivals, r.phases);
    RephaseKeeps(owner, replicas, d.All(), r.phases);
    assert AtMostOne(owner, replicas, d.All()) ==> AtMostOne(owner, replicas, c.All());
    if AtMostOne(owner, replicas, c.All()) {
      LatePodsDecide(owner, replicas, c, r.creates, r.effects, r.made);
    }
  }

  /** Over any run, counting listed and unlisted pods: there is at most one pod per slot in the end if
      and only if every pass brought no pod into a slot that an unlisted pod waited for. */
  lemma {:induction false} RunKeepsOneIff(owner: Owner, replicas: nat, c: Cluster, rounds: seq<Round>)
    requires AtMostOne(owner, replicas, c.All()) && DistinctUids(c.All()) && ProperRun(owner, replicas, c, rounds)
    ensures DistinctUids(ClusterAfter(owner, replicas, c, rounds).All())
    ensures AtMostOne(owner, replicas, ClusterAfter(owner, replicas, c, rounds).All()) <==>
      ClearRun(owner, replicas, c, rounds)
  {
    if |rounds| > 0 {
      var k := |rounds| - 1;
      ProperPrefix(owner, replicas, c, rounds);
      RunKeepsOneIff(owner, replicas, c, rounds[..k]);
      RoundKeepsOneIff(owner, replicas, ClusterAfter(owner, replicas, c, rounds[..k]), rounds[k]);
    }
  }

  /** Every pass of the run keeps clear of the pods unlisted at its time. */
  predicate ClearRun(owner: Owner, replicas: nat, c: Cluster, rounds: seq<Round>) {
    |rounds| == 0 ||
    var k := |rounds| - 1;
    && ClearRun(owner, replicas, c, rounds[..k])
    && KeepsClear(owner, replicas, ClusterAfter(owner, replicas, c, rounds[..k]), rounds[k].creates, rounds[k].effects)
  }

  /** If before each pass nothing waits, one pod per slot is kept, whatever the passes do. */
  lemma SafeRunKeepsOne(owner: Owner, replicas: nat, c: Cluster, rounds: seq<Round>)
    requires AtMostOne(owner, replicas, c.All()) && DistinctUids(c.All()) && ProperRun(owner, replicas, c, rounds)
    requires forall n :: 0 <= n < |rounds| ==>
      NothingWaits(owner, replicas, ClusterAfter(owner, replicas, c, rounds[..n]))
    ensures AtMostOne(owner, replicas, ClusterAfter(owner, replicas, c, rounds).All())
  {
    SafeRunIsClear(owner, replicas, c, rounds);
    RunKeepsOneIff(owner, replicas, c, rounds);
  }

  lemma {:induction false} SafeRunIsClear(owner: Owner, replicas: nat, c: Cluster, rounds: seq<Round>)
    requires forall n :: 0 <= n < |rounds| ==>
      NothingWaits(owner, replicas, ClusterAfter(owner, replicas, c, rounds[..n]))
    ensures ClearRun(owner, replicas, c, rounds)
  {
    if |rounds| > 0 {
      var k := |rounds| - 1;
      assert forall n :: 0 <= n < k ==> rounds[..k][..n] == rounds[..n];
      SafeRunIsClear(owner, replicas, c, rounds[..k]);
    }
  }

  /** Where every made pod shows in the next list, no pod is ever unlisted and one per slot is kept. */
  lemma PromptRunKeepsOne(owner: Owner, replicas: nat, c: Cluster, rounds: seq<Round>)
    requires AtMostOne(owner, replicas, c.All()) && DistinctUids(c.All()) && ProperRun(owner, replicas, c, rounds)
    requires c.late == {} && forall n, i :: 0 <= n < |rounds| ==> rounds[n].effects(i) != Late
    ensures ClusterAfter(owner, replicas, c, rounds).late == {}
    ensures AtMostOne(owner, replicas, ClusterAfter(owner, replicas, c, rounds).pods)
  {
    PromptRunIsClear(owner, replicas, c, rounds);
    RunKeepsOneIff(owner, replicas, c, rounds);
    var end := ClusterAfter(owner, replicas, c, rounds);
    assert end.All() == end.pods;
  }

  lemma {:induction false} PromptRunIsClear(owner: Owner, replicas: nat, c: Cluster, rounds: seq<Round>)
    requires c.late == {} && forall n, i :: 0 <= n < |rounds| ==> rounds[n].effects(i) != Late
    ensures ClusterAfter(owner, replicas, c, rounds).late == {} && ClearRun(owner, replicas, c, rounds)
  {
    if |rounds| > 0 {
      var k := |rounds| - 1;
      PromptRunIsClear(owner, replicas, c, rounds[..k]);
      var mid := ClusterAfter(owner, replicas, c, rounds[..k]);
      assert AfterPass(owner, replicas, mid, rounds[k].creates, rounds[k].effects, rounds[k].made).late == {};
    }
  }

  // ----- convergence -----

  /** The round makes some missing pod visible, or lists one, unless none is missing. */
  predicate MakesProgress(owner: Owner, replicas: nat, c: Cluster, r: Round) {
    EmptySlots(owner, replicas, c.pods) == {}
    || exists i :: i in EmptySlots(owner, replicas, c.pods) && Gains(owner, replicas, c, r, i)
  }

  predicate Gains(owner: Owner, replicas: nat, c: Cluster, r: Round, i: nat) {
    || (Attempted(owner, replicas, c.pods, r.creates, i) && r.effects(i) == Visible)
    || Occupied(owner, replicas, AfterPass(owner, replicas, c, r.creates, r.effects, r.made).late * r.arrivals, i)
  }

  /** Empty slots never grow in number, and a round that makes progress leaves fewer. */
  lemma RoundShrinksEmptySlots(owner: Owner, replicas: nat, c: Cluster, r: Round)
    requires Makes(owner, replicas, r.made)
    ensures
      var before := EmptySlots(owner, replicas, c.pods);
      var after := EmptySlots(owner, replicas, AfterRound(owner, replicas, c, r).pods);
      && after <= before
      && (MakesProgress(owner, replicas, c, r) && before != {} ==> |after| < |before|)
  {
    var d := AfterPass(owner, replicas, c, r.creates, r.effects, r.made);
    var listed := d.pods + d.late * r.arrivals;
    var before, after := EmptySlots(owner, replicas, c.pods), EmptySlots(owner, replicas, listed);
    RephaseKeeps(owner, replicas, listed, r.phases);
    MorePodsFewerEmpty(owner, replicas, c.pods, listed);
    MorePodsFewerEmpty(owner, replicas, d.pods, listed);
    MorePodsFewerEmpty(owner, replicas, d.late * r.arrivals, listed);
    if i :| i in before && Gains(owner, replicas, c, r, i) {
      PassFills(owner, replicas, c, r.creates, r.effects, r.made, i);
      assert i !in EmptySlots(owner, replicas, d.pods) || i !in EmptySlots(owner, replicas, d.late * r.arrivals);
      assert i !in after;
    }
    SubsetSize(after, before);
  }

  /** Every round of the run makes progress. */
  predicate ProgressingRun(owner: Owner, replicas: nat, c: Cluster, rounds: seq<Round>) {
    |rounds| == 0 ||
    var k := |rounds| - 1;
    && ProgressingRun(owner, replicas, c, rounds[..k])
    && MakesProgress(owner, replicas, ClusterAfter(owner, replicas, c, rounds[..k]), rounds[k])
  }

  ghost predicate AllMake(owner: Owner, replicas: nat, rounds: seq<Round>) {
    forall n :: 0 <= n < |rounds| ==> Makes(owner, replicas, rounds[n].made)
  }

  /** Convergence: over any run no slot gets empty again, and in a run that makes progress each round leaves
      fewer empty slots until there is none. */
  lemma {:induction false} RoundsConverge(owner: Owner, replicas: nat, c: Cluster, rounds: seq<Round>)
    requires AllMake(owner, replicas, rounds)
    ensures
      var empty := EmptySlots(owner, replicas, ClusterAfter(owner, replicas, c, rounds).pods);
      && empty <= EmptySlots(owner, replicas, c.pods)
      && (ProgressingRun(owner, replicas, c, rounds) ==>
            empty == {} || |empty| + |rounds| <= |EmptySlots(owner, replicas, c.pods)|)
  {
    if |rounds| > 0 {
      var k := |rounds| - 1;
      RoundsConverge(owner, replicas, c, rounds[..k]);
      RoundShrinksEmptySlots(owner, replicas, ClusterAfter(owner, replicas, c, rounds[..k]), rounds[k]);
    }
  }

  /** Over any run every pod stays the job's own or none of its business. */
  lemma {:induction false} RunStaysTidy(owner: Owner, replicas: nat, c: Cluster, rounds: seq<Round>)
    requires Tidy(owner, c.All()) && AllMake(owner, replicas, rounds)
    ensures Tidy(owner, ClusterAfter(owner, replicas, c, rounds).All())
  {
    if |rounds| > 0 {
      var k := |rounds| - 1;
      RunStaysTidy(owner, replicas, c, rounds[..k]);
      RoundKeepsTidy(owner, replicas, ClusterAfter(owner, replicas, c, rounds[..k]), rounds[k]);
    }
  }

  lemma RoundKeepsTidy(owner: Owner, replicas: nat, c: Cluster, r: Round)
    requires Makes(owner, replicas, r.made) && Tidy(owner, c.All())
    ensures Tidy(owner, AfterRound(owner, replicas, c, r).All())
  {
    var d := AfterPass(owner, replicas, c, r.creates, r.effects, r.made);
    forall p | p in d.All() ensures Decide(owner, p) == Keep || Decide(owner, p) == Ignore {
      FromWhere(owner, replicas, c, r.creates, r.effects, r.made, p);
      if p !in c.All() {
        var i: nat :| i < replicas && p == r.made(i);
        assert Occupies(owner, replicas, r.made(i), i);
      }
    }
    SettledAll(d, r.arrivals, r.phases);
    RephaseKeeps(owner, replicas, d.All(), r.phases);
  }

  /** After `replicas` progressing rounds every slot of the job is filled, and each holds exactly one of
      all the pods there are if and only if every pass kept clear of the unlisted ones. */
  lemma JobFillsUp(owner: Owner, replicas: nat, c: Cluster, rounds: seq<Round>)
    requires AtMostOne(owner, replicas, c.All()) && DistinctUids(c.All())
    requires ProperRun(owner, replicas, c, rounds) && ProgressingRun(owner, replicas, c, rounds)
    requires |rounds| >= replicas
    ensures
      var end := ClusterAfter(owner, replicas, c, rounds);
      && (forall i: nat :: i < replicas ==> Occupied(owner, replicas, end.pods, i))
      && (AtMostOne(owner, replicas, end.All()) <==> ClearRun(owner, replicas, c, rounds))
  {
    RunKeepsOneIff(owner, replicas, c, rounds);
    ProgressFills(owner, replicas, c, rounds);
  }

  lemma ProgressFills(owner: Owner, replicas: nat, c: Cluster, rounds: seq<Round>)
    requires ProperRun(owner, replicas, c, rounds) && ProgressingRun(owner, replicas, c, rounds)
    requires |rounds| >= replicas
    ensures
      var end := ClusterAfter(owner, replicas, c, rounds);
      forall i: nat :: i < replicas ==> Occupied(owner, replicas, end.pods, i)
  {
    ProperRunMakes(owner, replicas, c, rounds);
    RoundsConverge(owner, replicas, c, rounds);
    EmptySlotsBound(owner, replicas, c.pods);
    NoneEmpty(owner, replicas, ClusterAfter(owner, replicas, c, rounds).pods);
  }

  lemma NoneEmpty(owner: Owner, replicas: nat, pods: set<Pod>)
    ensures EmptySlots(owner, replicas, pods) == {} <==>
      forall i: nat :: i < replicas ==> Occupied(owner, replicas, pods, i)
    ensures |EmptySlots(owner, replicas, pods)| == 0 ==> EmptySlots(owner, replicas, pods) == {}
  {
    assert forall i: nat :: i < replicas && !Occupied(owner, replicas, pods, i) ==>
      i in EmptySlots(owner, replicas, pods);
  }

  lemma ProperRunMakes(owner: Owner, replicas: nat, c: Cluster, rounds: seq<Round>)
    requires ProperRun(owner, replicas, c, rounds)
    ensures AllMake(owner, replicas, rounds)
  {
    forall n | 0 <= n < |rounds| ensures Makes(owner, replicas, rounds[n].made) {
      assert ProperRound(owner, replicas, ClusterAfter(owner, replicas, c, rounds[..n]), rounds[n]);
    }
  }

  // ----- every run -----

  ghost predicate HonestRun(rounds: seq<Round>) {
    forall n :: 0 <= n < |rounds| ==> Honest(rounds[n].creates, rounds[n].effects)
  }

  /** Before the run: every run of two or more passes in which accepted pods are listed at once keeps one
      pod per slot, if and only if the job is full from the start. In a full job no pass creates anything;
      otherwise two passes, the first timing out with a late pod, are enough to double one. */
  lemma EveryRunKeepsOneIff(job: JobInfo, t: TemplateValue, c: Cluster)
    requires job.replicas >= 0
    requires AtMostOne(job.AsOwner(), job.replicas as nat, c.All()) && DistinctUids(c.All())
    ensures EmptySlots(job.AsOwner(), job.replicas as nat, c.pods) == {} <==>
      forall rounds: seq<Round> ::
        |rounds| >= 2 && HonestRun(rounds) && ProperRun(job.AsOwner(), job.replicas as nat, c, rounds) ==>
        AtMostOne(job.AsOwner(), job.replicas as nat, ClusterAfter(job.AsOwner(), job.replicas as nat, c, rounds).All())
  {
    var owner, replicas := job.AsOwner(), job.replicas as nat;
    if EmptySlots(owner, replicas, c.pods) == {} {
      forall rounds: seq<Round> | ProperRun(owner, replicas, c, rounds)
        ensures AtMostOne(owner, replicas, ClusterAfter(owner, replicas, c, rounds).All())
      {
        ProperRunMakes(owner, replicas, c, rounds);
        FullRunIsClear(owner, replicas, c, rounds);
        RunKeepsOneIff(owner, replicas, c, rounds);
      }
    } else {
      var i: nat :| i in EmptySlots(owner, replicas, c.pods);
      var rounds := DoublingRun(job, t, c, i);
    }
  }

  lemma {:induction false} FullRunIsClear(owner: Owner, replicas: nat, c: Cluster, rounds: seq<Round>)
    requires EmptySlots(owner, replicas, c.pods) == {} && AllMake(owner, replicas, rounds)
    ensures ClearRun(owner, replicas, c, rounds)
  {
    if |rounds| > 0 {
      var k := |rounds| - 1;
      FullRunIsClear(owner, replicas, c, rounds[..k]);
      RoundsConverge(owner, replicas, c, rounds[..k]);
      NoneEmpty(owner, replicas, ClusterAfter(owner, replicas, c, rounds[..k]).pods);
    }
  }

  lemma {:induction false} UidBound(pods: set<Pod>) returns (m: nat)
    ensures forall p :: p in pods ==> |p.uid| <= m
  {
    if pods == {} {
      m := 0;
    } else {
      var p :| p in pods;
      var rest := UidBound(pods - {p});
      m := if |p.uid| > rest then |p.uid| else rest;
      assert forall q :: q in pods ==> q == p || q in pods - {p};
    }
  }

  /** A UID of its own length. */
  function LongUid(n: nat): (uid: UID)
    ensures |uid| == n
  {
    seq(n, _ => 'u')
  }

  /** The server can always make pods of the requests, under new UIDs. */
  lemma FreshPods(job: JobInfo, t: TemplateValue, pods: set<Pod>) returns (made: nat -> Pod)
    requires job.replicas >= 0
    ensures Makes(job.AsOwner(), job.replicas as nat, made) && FreshUids(job.replicas as nat, pods, made)
  {
    var m := UidBound(pods);
    made := (i: nat) => PodUnder(job, t, i, LongUid(m + 1 + i));
    forall i: nat
      ensures |made(i).uid| == m + 1 + i
      ensures i < job.replicas as int ==>
        made(i) == Admit(PodAt(job, t, i), made(i).name, made(i).uid, made(i).phase)
    {
      assert made(i) == PodUnder(job, t, i, LongUid(m + 1 + i));
      if i < job.replicas as int {
        PodUnderIs(job, t, i, LongUid(m + 1 + i));
      }
    }
    CreatedPodsMake(job, t, made);
    LengthsAreFresh(job.replicas as nat, pods, made, m);
  }

  lemma LengthsAreFresh(replicas: nat, pods: set<Pod>, made: nat -> Pod, m: nat)
    requires forall p :: p in pods ==> |p.uid| <= m
    requires forall i: nat :: |made(i).uid| == m + 1 + i
    ensures FreshUids(replicas, pods, made)
  {
  }

  function PodUnder(job: JobInfo, t: TemplateValue, i: nat, uid: UID): (p: Pod)
    ensures p.uid == uid
  {
    if i < job.replicas as int then Admit(PodAt(job, t, i), "", uid, Phase.Pending)
    else Pod("", "", uid, map[], [], false, Phase.Pending)
  }

  lemma PodUnderIs(job: JobInfo, t: TemplateValue, i: nat, uid: UID)
    requires i < job.replicas as int
    ensures
      var p := PodUnder(job, t, i, uid);
      p == Admit(PodAt(job, t, i), p.name, p.uid, p.phase)
  {
  }

  /** Two passes that give an empty slot two pods. */
  lemma DoublingRun(job: JobInfo, t: TemplateValue, c: Cluster, i: nat) returns (rounds: seq<Round>)
    requires job.replicas >= 0 && i in EmptySlots(job.AsOwner(), job.replicas as nat, c.pods)
    requires AtMostOne(job.AsOwner(), job.replicas as nat, c.All()) && DistinctUids(c.All())
    ensures |rounds| == 2 && HonestRun(rounds) && ProperRun(job.AsOwner(), job.replicas as nat, c, rounds)
    ensures !AtMostOne(job.AsOwner(), job.replicas as nat,
                       ClusterAfter(job.AsOwner(), job.replicas as nat, c, rounds).All())
  {
    var owner, replicas := job.AsOwner(), job.replicas as nat;
    var made := FreshPods(job, t, c.All());
    var first := Round((k: nat) => Some(Status(Timeout)), (k: nat) => Late, made, {}, (u: UID) => Phase.Pending);
    var mid := AfterRound(owner, replicas, c, first);
    LateRoundLeavesWaiting(owner, replicas, c, first, i);
    var again := FreshPods(job, t, mid.All());
    var second := Round((k: nat) => None, (k: nat) => Visible, again, {}, (u: UID) => Phase.Pending);
    rounds := [first, second];
    TwoRounds(owner, replicas, c, first, second);
    assert Attempted(owner, replicas, mid.pods, second.creates, i) && second.effects(i) == Visible;
    assert !KeepsClear(owner, replicas, mid, second.creates, second.effects);
    RunKeepsOneIff(owner, replicas, c, rounds);
  }

  /** After a round whose creations all time out and come up late, a pod waits for each empty slot. */
  lemma LateRoundLeavesWaiting(owner: Owner, replicas: nat, c: Cluster, r: Round, i: nat)
    requires i in EmptySlots(owner, replicas, c.pods) && Makes(owner, replicas, r.made) && r.arrivals == {}
    requires forall k :: CreateError(r.creates(k)) == None && r.effects(k) == Late
    ensures
      var mid := AfterRound(owner, replicas, c, r);
      i < replicas && !Occupied(owner, replicas, mid.pods, i) && Occupied(owner, replicas, mid.late, i)
  {
    var d := AfterPass(owner, replicas, c, r.creates, r.effects, r.made);
    assert d.pods == c.pods;
    assert Attempted(owner, replicas, c.pods, r.creates, i) && r.made(i) in d.late;
    assert Occupies(owner, replicas, r.made(i), i);
    RephaseKeeps(owner, replicas, d.pods, r.phases);
    RephaseKeeps(owner, replicas, d.late, r.phases);
    assert d.pods + d.late * r.arrivals == d.pods && d.late - r.arrivals == d.late;
    assert i !in EmptySlots(owner, replicas, d.late);
    assert i !in EmptySlots(owner, replicas, Rephase(d.late, r.phases));
    assert i in EmptySlots(owner, replicas, Rephase(d.pods, r.phases));
  }

  lemma TwoRounds(owner: Owner, replicas: nat, c: Cluster, r: Round, s: Round)
    ensures
      var mid := AfterRound(owner, replicas, c, r);
      && ClusterAfter(owner, replicas, c, [r]) == mid
      && (ProperRun(owner, replicas, c, [r, s]) <==>
            ProperRound(owner, replicas, c, r) && ProperRound(owner, replicas, mid, s))
      && (ClearRun(owner, replicas, c, [r, s]) ==> KeepsClear(owner, replicas, mid, s.creates, s.effects))
  {
    assert [r, s][..0] == [] && [r, s][..1] == [r] && [r][..0] == [];
    assert ClusterAfter(owner, replicas, c, [r])
        == AfterRound(owner, replicas, ClusterAfter(owner, replicas, c, []), r);
  }

  // ----- the pass of the controller is the pass of the runs -----

  lemma {:induction false} AskedMembers(slots: seq<seq<Pod>>, n: nat, make: nat -> NewPod,
                                        creates: nat -> Option<Error>, c: Call)
    requires n <= |slots|
    ensures c in Asked(slots, n, make, creates) <==>
      exists i: nat :: i < n && c == CreatePod(make(i)) && ClassOf(slots[i]) == Empty && Reached(slots, i, creates)
  {
    if n > 0 {
      AskedMembers(slots, n - 1, make, creates, c);
    }
  }

  lemma AskedFor(slots: seq<seq<Pod>>, make: nat -> NewPod, creates: nat -> Option<Error>, i: nat)
    requires i < |slots| && forall k: nat :: k < |slots| && make(k) == make(i) ==> k == i
    ensures CreatePod(make(i)) in Asked(slots, |slots|, make, creates) <==>
      ClassOf(slots[i]) == Empty && Reached(slots, i, creates)
  {
    AskedMembers(slots, |slots|, make, creates, CreatePod(make(i)));
  }

  /** The calls of a pass that lists an up-to-date list: the list, a creation for each attempted slot, and
      the status if every creation went well. */
  lemma QuietFetch(owner: Owner, pods: set<Pod>, list: seq<Pod>, r: Replies, n: nat)
    requires Tidy(owner, pods) && Listing(list, pods) && r.list(n) == Ok(list)
    ensures
      var f := FetchOf(owner, r, n);
      && f.err == None && f.calls == [ListPods(owner.namespace)]
      && f.claimed == Select(list, ClaimAll(owner, list, RepliesUsed(owner, None, list, r, n + 1)).outcomes)
  {
    QuietPass(owner, list, RepliesUsed(owner, None, list, r, n + 1));
  }

  /** After a fetch without error the creations of a pass are those of its slot loop. */
  lemma CreationsAsked(f: Fetched, job: JobInfo, t: TemplateValue, st: JobStatus, r: Replies, n: nat, now: Time,
                       c: Call)
    requires job.replicas >= 0 && c.CreatePod?
    requires f.err == None && f.calls == [ListPods(job.namespace)]
    ensures
      var slots := SlotsOf(f.claimed, job.replicas as nat);
      c in PassFrom(f, job, t, st, r, n, now).calls <==>
        c in RunLoop(slots, Maker(job, t), CreatesAfter(f, job, r, n)).calls
  {
  }

  lemma MakerInjective(job: JobInfo, t: TemplateValue, i: nat)
    requires i < job.replicas as int
    ensures Maker(job, t)(i) == PodAt(job, t, i)
    ensures forall k: nat :: k < job.replicas as int && Maker(job, t)(k) == Maker(job, t)(i) ==> k == i
  {
    CreatedPodComesBack(job, t, i, "", "", Phase.Pending);
    forall k: nat | k < job.replicas as int && Maker(job, t)(k) == Maker(job, t)(i) ensures k == i {
      CreatedPodComesBack(job, t, k, "", "", Phase.Pending);
    }
  }

  /** On an up-to-date list the controller's pass asks for exactly the pods of the attempted slots. */
  lemma PassBrings(job: JobInfo, t: TemplateValue, st: JobStatus, r: Replies, n: nat, now: Time, pods: set<Pod>,
                   list: seq<Pod>, i: nat)
    requires Tidy(job.AsOwner(), pods) && Listing(list, pods) && r.list(n) == Ok(list)
    requires i < job.replicas as int
    ensures CreatePod(PodAt(job, t, i)) in PassOf(job, t, st, r, n, now).calls <==>
      Attempted(job.AsOwner(), job.replicas as nat, pods, CreatesAfter(FetchOf(job.AsOwner(), r, n), job, r, n), i)
  {
    QuietFetch(job.AsOwner(), pods, list, r, n);
    CreationsAsked(FetchOf(job.AsOwner(), r, n), job, t, st, r, n, now, CreatePod(PodAt(job, t, i)));
    MakerInjective(job, t, i);
    var creates := CreatesAfter(FetchOf(job.AsOwner(), r, n), job, r, n);
    var replies := RepliesUsed(job.AsOwner(), None, list, r, n + 1);
    LoopAsksForAttempted(job.AsOwner(), job.replicas as nat, pods, list, replies, Maker(job, t), creates);
    AskedFor(SlotsOf(FetchOf(job.AsOwner(), r, n).claimed, job.replicas as nat), Maker(job, t), creates, i);
  }

  /** A pass of the runs above is a pass of the controller: the pods it adds are those the server makes of
      the creation requests among the pass's calls. */
  lemma RoundIsPass(job: JobInfo, t: TemplateValue, st: JobStatus, r: Replies, n: nat, now: Time, c: Cluster,
                    list: seq<Pod>, effects: nat -> Effect, made: nat -> Pod, p: Pod)
    requires Tidy(job.AsOwner(), c.pods) && Listing(list, c.pods) && r.list(n) == Ok(list) && job.replicas >= 0
    ensures
      var creates := CreatesAfter(FetchOf(job.AsOwner(), r, n), job, r, n);
      var after := AfterPass(job.AsOwner(), job.replicas as nat, c, creates, effects, made);
      p in after.All() <==>
        p in c.All()
        || exists i: nat :: i < job.replicas as int && p == made(i) && effects(i) != Never
             && CreatePod(PodAt(job, t, i)) in PassOf(job, t, st, r, n, now).calls
  {
    var creates := CreatesAfter(FetchOf(job.AsOwner(), r, n), job, r, n);
    FromWhere(job.AsOwner(), job.replicas as nat, c, creates, effects, made, p);
    forall i: nat | i < job.replicas as int
      ensures CreatePod(PodAt(job, t, i)) in PassOf(job, t, st, r, n, now).calls <==>
        Attempted(job.AsOwner(), job.replicas as nat, c.pods, creates, i)
    {
      PassBrings(job, t, st, r, n, now, c.pods, list, i);
    }
  }
}
