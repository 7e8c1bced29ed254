/** What the answers to the calls of a pass decide: whether it succeeds, and with which error it ends. */
module Answers {
  import opened Wrappers
  import opened Kube
  import opened Api
  import opened Types
  import opened Claims
  import opened RefManager
  import opened PodFactory
  import opened Counting
  import opened Reconcile
  import opened StatusRuns

  /** The answer to this call, made when the call log has length k, is one that lets a pass succeed. */
  predicate Fine(owner: Owner, c: Call, r: Replies, k: nat) {
    match c
    case ListPods(_) => r.list(k).Ok?
    case GetJob(_, _) => Alive(owner, r.live(k))
    case PatchPod(AdoptPatch(_, _, _, _)) => r.patch(k) == None || r.patch(k).value.IsNotFound()
    case PatchPod(ReleasePatch(_, _, _, _)) =>
      r.patch(k) == None || r.patch(k).value.IsNotFound() || r.patch(k).value.IsInvalid()
    case CreatePod(_) => r.create(k) == None || r.create(k).value.IsTimeout()
    case UpdateJob(_) => r.update(k) == None
  }

  /** All calls, the first made when the call log has length n. */
  predicate AllFine(owner: Owner, calls: seq<Call>, r: Replies, n: nat) {
    forall k :: 0 <= k < |calls| ==> Fine(owner, calls[k], r, n + k)
  }

  lemma AllFineSplit(owner: Owner, a: seq<Call>, b: seq<Call>, r: Replies, n: nat, m: nat)
    requires m == n + |a|
    ensures AllFine(owner, a + b, r, n) <==> AllFine(owner, a, r, n) && AllFine(owner, b, r, m)
  {
    var both := a + b;
    if AllFine(owner, both, r, n) {
      forall k | 0 <= k < |a| ensures Fine(owner, a[k], r, n + k) {
        assert both[k] == a[k];
      }
      forall k | 0 <= k < |b| ensures Fine(owner, b[k], r, m + k) {
        assert both[|a| + k] == b[k];
      }
    }
  }

  lemma OneFine(owner: Owner, c: Call, r: Replies, n: nat)
    ensures AllFine(owner, [c], r, n) <==> Fine(owner, c, r, n)
  {
    assert [c][0] == c;
  }

  // ----- claiming -----

  /** The recheck has not been denied. */
  predicate Undenied(memo: Remembered) {
    memo != None ==> memo.value == None
  }

  lemma PatchFine(owner: Owner, pod: Pod, r: Replies, n: nat)
    ensures IsFailure(AdoptOutcome(r.patch(n))) <==> !AllFine(owner, [PatchPod(AdoptPatchFor(owner, pod))], r, n)
    ensures IsFailure(ReleaseOutcome(r.patch(n))) <==> !AllFine(owner, [PatchPod(ReleasePatchFor(owner, pod))], r, n)
  {
    OneFine(owner, PatchPod(AdoptPatchFor(owner, pod)), r, n);
    OneFine(owner, PatchPod(ReleasePatchFor(owner, pod)), r, n);
  }

  lemma ReadFine(owner: Owner, r: Replies, n: nat)
    ensures AllFine(owner, [GetJob(owner.namespace, owner.name)], r, n) <==> Recheck(owner, r.live(n)) == None
  {
    OneFine(owner, GetJob(owner.namespace, owner.name), r, n);
    RecheckIff(owner, r.live(n));
  }

  lemma FirstAdoptionFine(owner: Owner, pod: Pod, r: Replies, n: nat, one: Claim)
    requires Decide(owner, pod) == TryAdopt && one == ClaimOne(owner, None, pod, ReplyAt(r, n, owner, None, pod))
    ensures !IsFailure(one.outcome) <==> AllFine(owner, one.calls, r, n)
    ensures !IsFailure(one.outcome) ==> Undenied(one.memo)
  {
    var read, patch := [GetJob(owner.namespace, owner.name)], [PatchPod(AdoptPatchFor(owner, pod))];
    ReadFine(owner, r, n);
    PatchFine(owner, pod, r, n + 1);
    AllFineSplit(owner, read, patch, r, n, n + 1);
  }

  lemma OnePodFine(owner: Owner, memo: Remembered, pod: Pod, r: Replies, n: nat, one: Claim)
    requires Undenied(memo) && one == ClaimOne(owner, memo, pod, ReplyAt(r, n, owner, memo, pod))
    ensures !IsFailure(one.outcome) <==> AllFine(owner, one.calls, r, n)
    ensures !IsFailure(one.outcome) ==> Undenied(one.memo)
  {
    if Decide(owner, pod) == TryAdopt && memo == None {
      FirstAdoptionFine(owner, pod, r, n, one);
    } else {
      PatchFine(owner, pod, r, n);
      assert [] + [PatchPod(AdoptPatchFor(owner, pod))] == [PatchPod(AdoptPatchFor(owner, pod))];
    }
  }

  /** A claim pass is without error, and no recheck of it is denied, exactly if all its answers are fine. */
  predicate ClaimsFine(owner: Owner, c: Claims, r: Replies, n: nat) {
    && (ErrorsOf(c.outcomes) == [] <==> AllFine(owner, c.calls, r, n))
    && (ErrorsOf(c.outcomes) == [] ==> Undenied(c.memo))
  }

  lemma ClaimsFineNext(owner: Owner, c: Claims, pod: Pod, r: Replies, n: nat, m: nat)
    requires ClaimsFine(owner, c, r, n) && m == n + |c.calls|
    ensures ClaimsFine(owner, ClaimNext(owner, c, pod, ReplyAt(r, m, owner, c.memo, pod)), r, n)
  {
    var one := ClaimOne(owner, c.memo, pod, ReplyAt(r, m, owner, c.memo, pod));
    ErrorsNext(c.outcomes, one.outcome);
    AllFineSplit(owner, c.calls, one.calls, r, n, m);
    if ErrorsOf(c.outcomes) == [] {
      OnePodFine(owner, c.memo, pod, r, m, one);
    }
  }

  lemma PassOverFineNext(owner: Owner, pods: seq<Pod>, pod: Pod, more: seq<Pod>, r: Replies, n: nat, c: Claims)
    requires c == PassOver(owner, None, pods, r, n) && ClaimsFine(owner, c, r, n) && more == pods + [pod]
    ensures ClaimsFine(owner, PassOver(owner, None, more, r, n), r, n)
  {
    PassOverNext(owner, None, pods, pod, r, n);
    ClaimsFineNext(owner, c, pod, r, n, n + |c.calls|);
  }

  lemma {:induction false} PassOverFine(owner: Owner, pods: seq<Pod>, r: Replies, n: nat)
    ensures ClaimsFine(owner, PassOver(owner, None, pods, r, n), r, n)
  {
    if |pods| == 0 {
      NothingFine(owner, r, n);
    } else {
      var k := |pods| - 1;
      PassOverFine(owner, pods[..k], r, n);
      PassOverFineNext(owner, pods[..k], pods[k], pods, r, n, PassOver(owner, None, pods[..k], r, n));
    }
  }

  lemma NothingFine(owner: Owner, r: Replies, n: nat)
    ensures ClaimsFine(owner, PassOver(owner, None, [], r, n), r, n)
  {
    assert RepliesUsed(owner, None, [], r, n) == [];
  }

  // ----- filling the slots -----

  function Last(calls: seq<Call>): Call
    requires |calls| > 0
  {
    calls[|calls| - 1]
  }

  function Earlier(calls: seq<Call>): seq<Call>
    requires |calls| > 0
  {
    calls[..|calls| - 1]
  }

  /** The loop has failed exactly if some answer was not fine; that is then the answer to its last call, and
      the first of the kind. */
  predicate CreatesFine(owner: Owner, l: Loop, r: Replies, n: nat) {
    && (l.err == None <==> AllFine(owner, l.calls, r, n))
    && (l.err != None ==> |l.calls| > 0 && FailedCreation(owner, l.err, l.calls, r, n))
  }

  predicate FailedCreation(owner: Owner, err: Option<Error>, calls: seq<Call>, r: Replies, n: nat)
    requires |calls| > 0
  {
    && Last(calls).CreatePod? && AllFine(owner, Earlier(calls), r, n)
    && err != None && err == r.create(n + |calls| - 1) && !err.value.IsTimeout()
  }

  lemma EmptySlotFine(owner: Owner, l: Loop, pod: NewPod, r: Replies, n: nat, m: nat)
    requires CreatesFine(owner, l, r, n) && l.err == None && m == n + |l.calls|
    ensures CreatesFine(owner, NextSlot(l, [], CreatePod(pod), r.create(m)), r, n)
  {
    AllFineSplit(owner, l.calls, [CreatePod(pod)], r, n, m);
    OneFine(owner, CreatePod(pod), r, m);
    assert Earlier(l.calls + [CreatePod(pod)]) == l.calls;
  }

  lemma {:induction false} LoopFine(owner: Owner, slots: seq<seq<Pod>>, k: nat, make: nat -> NewPod, r: Replies, n: nat)
    requires k <= |slots|
    ensures CreatesFine(owner, LoopUpTo(slots, k, make, CreatesUsed(slots, r, n)), r, n)
  {
    if k > 0 {
      var creates := CreatesUsed(slots, r, n);
      var l := LoopUpTo(slots, k - 1, make, creates);
      LoopFine(owner, slots, k - 1, make, r, n);
      if l.err == None && |slots[k - 1]| == 0 {
        CallsNumberEmpties(slots, k - 1, make, creates);
        EmptySlotFine(owner, l, make(k - 1), r, n, n + |l.calls|);
      }
    }
  }

  // ----- the whole pass -----

  predicate NoCreations(calls: seq<Call>) {
    forall c :: c in calls ==> !c.CreatePod? && !c.UpdateJob?
  }

  /** How a pass ends: with its list refused, with claims that failed, with the first creation that failed, or
      with its status sent after all else went well. The error is the answer to the last call, unless claims
      failed. */
  predicate Ends(owner: Owner, p: PassResult, r: Replies, n: nat) {
    && |p.calls| > 0
    && match Last(p.calls)
       case ListPods(_) => |p.calls| == 1 && r.list(n).Err? && p.err == Some(r.list(n).error)
       case GetJob(_, _) => NoCreations(p.calls) && p.err.Some? && p.err.value.Aggregate?
       case PatchPod(_) => NoCreations(p.calls) && p.err.Some? && p.err.value.Aggregate?
       case CreatePod(_) => FailedCreation(owner, p.err, p.calls, r, n)
       case UpdateJob(status) =>
         AllFine(owner, Earlier(p.calls), r, n) && p.err == r.update(n + |p.calls| - 1) && status == p.status
  }

  /** A pass succeeds exactly if every answer is fine. */
  predicate Succeeds(owner: Owner, p: PassResult, r: Replies, n: nat) {
    p.err == None <==> AllFine(owner, p.calls, r, n)
  }

  lemma ReportEnds(owner: Owner, rec: Reconciled, r: Replies, n: nat, m: nat)
    requires CreatesFine(owner, rec.loop, r, n) && m == n + |rec.loop.calls|
    ensures
      var p := Reported(rec, r, n);
      && Succeeds(owner, p, r, n) && Ends(owner, p, r, n)
      && (Last(p.calls).CreatePod? || Last(p.calls).UpdateJob?)
  {
    if rec.loop.err == None {
      AllFineSplit(owner, rec.loop.calls, [UpdateJob(rec.status)], r, n, m);
      OneFine(owner, UpdateJob(rec.status), r, m);
      assert Earlier(rec.loop.calls + [UpdateJob(rec.status)]) == rec.loop.calls;
    }
  }

  lemma RestEnds(job: JobInfo, t: TemplateValue, st: JobStatus, claimed: seq<Pod>, r: Replies, n: nat, now: Time,
                 rest: PassResult)
    requires job.replicas >= 0 && rest == AfterFetch(job, t, st, claimed, r, n, now)
    ensures Succeeds(job.AsOwner(), rest, r, n) && Ends(job.AsOwner(), rest, r, n)
    ensures Last(rest.calls).CreatePod? || Last(rest.calls).UpdateJob?
  {
    var slots := SlotsOf(claimed, job.replicas as nat);
    var rec := ReconcileOf(job, t, st, claimed, CreatesUsed(slots, r, n), now);
    LoopFine(job.AsOwner(), slots, |slots|, Maker(job, t), r, n);
    AfterFetchIs(job, t, st, claimed, r, n, now, rec);
    ReportEnds(job.AsOwner(), rec, r, n, n + |rec.loop.calls|);
  }

  /** A fetch is without error exactly if its answers are fine; else its error is that of the list, or
      tells of all failed claims. */
  predicate FetchEnds(f: Fetched, owner: Owner, st: JobStatus, r: Replies, n: nat) {
    && (f.err == None <==> AllFine(owner, f.calls, r, n))
    && (f.err != None ==> Ends(owner, PassResult(st, f.err, f.calls), r, n))
  }

  lemma ListFine(owner: Owner, c: Call, rest: seq<Call>, r: Replies, n: nat)
    requires c.ListPods?
    ensures AllFine(owner, [c] + rest, r, n) <==> r.list(n).Ok? && AllFine(owner, rest, r, n + 1)
  {
    OneFine(owner, c, r, n);
    AllFineSplit(owner, [c], rest, r, n, n + 1);
  }

  /** Nothing but reads and patches, and at least one of them. */
  predicate OnlyClaims(calls: seq<Call>) {
    |calls| > 0 && forall c :: c in calls ==> c.GetJob? || c.PatchPod?
  }

  lemma EndsInClaims(owner: Owner, st: JobStatus, errors: seq<Error>, c: Call, rest: seq<Call>, r: Replies, n: nat)
    requires c.ListPods? && OnlyClaims(rest)
    ensures Ends(owner, PassResult(st, Some(Aggregate(errors)), [c] + rest), r, n)
  {
    assert Last([c] + rest) == Last(rest) && Last(rest) in rest;
  }

  lemma FetchEndsSo(owner: Owner, r: Replies, n: nat, st: JobStatus)
    ensures FetchEnds(FetchOf(owner, r, n), owner, st, r, n)
  {
    match r.list(n)
    case Err(_) => ListFine(owner, ListPods(owner.namespace), [], r, n);
    case Ok(pods) =>
      var c, list := PassOver(owner, None, pods, r, n + 1), ListPods(owner.namespace);
      FetchIs(owner, r, n, pods);
      PassOverFine(owner, pods, r, n + 1);
      ListFine(owner, list, c.calls, r, n);
      if ErrorsOf(c.outcomes) != [] {
        ClaimsReportNothing(owner, pods, RepliesUsed(owner, None, pods, r, n + 1));
        EndsInClaims(owner, st, ErrorsOf(c.outcomes), list, c.calls, r, n);
      }
  }

  lemma EndsLater(owner: Owner, f: Fetched, st: JobStatus, rest: PassResult, r: Replies, n: nat, m: nat)
    requires f.err == None && m == n + |f.calls| && AllFine(owner, f.calls, r, n)
    requires Ends(owner, rest, r, m) && (Last(rest.calls).CreatePod? || Last(rest.calls).UpdateJob?)
    ensures Ends(owner, Joined(f, st, rest), r, n)
  {
    assert Last(f.calls + rest.calls) == Last(rest.calls);
    assert Earlier(f.calls + rest.calls) == f.calls + Earlier(rest.calls);
    AllFineSplit(owner, f.calls, Earlier(rest.calls), r, n, m);
  }

  lemma JoinedEnds(owner: Owner, f: Fetched, st: JobStatus, rest: PassResult, r: Replies, n: nat, m: nat)
    requires m == n + |f.calls| && FetchEnds(f, owner, st, r, n)
    requires Succeeds(owner, rest, r, m) && Ends(owner, rest, r, m)
    requires Last(rest.calls).CreatePod? || Last(rest.calls).UpdateJob?
    ensures Succeeds(owner, Joined(f, st, rest), r, n) && Ends(owner, Joined(f, st, rest), r, n)
  {
    AllFineSplit(owner, f.calls, rest.calls, r, n, m);
    if f.err == None {
      EndsLater(owner, f, st, rest, r, n, m);
    }
  }

  lemma PassFromEnds(f: Fetched, job: JobInfo, t: TemplateValue, st: JobStatus, r: Replies, n: nat, now: Time,
                     m: nat, rest: PassResult)
    requires job.replicas >= 0 && m == n + |f.calls| && FetchEnds(f, job.AsOwner(), st, r, n)
    requires rest == AfterFetch(job, t, st, f.claimed, r, m, now)
    ensures
      var p := PassFrom(f, job, t, st, r, n, now);
      Succeeds(job.AsOwner(), p, r, n) && Ends(job.AsOwner(), p, r, n)
  {
    PassFromJoins(f, job, t, st, r, n, now, m, rest);
    RestEnds(job, t, st, f.claimed, r, m, now, rest);
    JoinedEnds(job.AsOwner(), f, st, rest, r, n, m);
  }

  /** A pass succeeds exactly if the list comes back, the live read finds the job alive, each patch is
      answered by nothing that fails a pod, each creation is accepted or timed out, and the status it sends
      is accepted. Otherwise its error tells of the failed claims, or is the answer to its last call. */
  lemma PassSucceedsIffAllFine(job: JobInfo, t: TemplateValue, st: JobStatus, r: Replies, n: nat, now: Time)
    requires job.replicas >= 0
    ensures
      var p := PassOf(job, t, st, r, n, now);
      && (p.err == None <==> AllFine(job.AsOwner(), p.calls, r, n))
      && Ends(job.AsOwner(), p, r, n)
  {
    var f := FetchOf(job.AsOwner(), r, n);
    FetchEndsSo(job.AsOwner(), r, n, st);
    var m := n + |f.calls|;
    PassFromEnds(f, job, t, st, r, n, now, m, AfterFetch(job, t, st, f.claimed, r, m, now));
  }

  /** So a pass in which a creation fails is not forgotten: it ends with that error. */
  lemma FailedCreationIsReported(job: JobInfo, t: TemplateValue, st: JobStatus, r: Replies, n: nat, now: Time, i: nat)
    requires job.replicas >= 0
    requires
      var calls := PassOf(job, t, st, r, n, now).calls;
      i < |calls| && calls[i].CreatePod? && r.create(n + i) != None && !r.create(n + i).value.IsTimeout()
    ensures
      var p := PassOf(job, t, st, r, n, now);
      i == |p.calls| - 1 && p.err == r.create(n + i)
  {
    PassSucceedsIffAllFine(job, t, st, r, n, now);
    FailureIsLast(job.AsOwner(), PassOf(job, t, st, r, n, now), r, n, i);
  }

  lemma FailureIsLast(owner: Owner, p: PassResult, r: Replies, n: nat, i: nat)
    requires Ends(owner, p, r, n)
    requires i < |p.calls| && p.calls[i].CreatePod? && !Fine(owner, p.calls[i], r, n + i)
    ensures i == |p.calls| - 1 && p.err == r.create(n + i)
  {
    EarlierFine(owner, p.calls, r, n, i);
  }

  lemma EarlierFine(owner: Owner, calls: seq<Call>, r: Replies, n: nat, i: nat)
    requires i < |calls|
    ensures AllFine(owner, Earlier(calls), r, n) && !Fine(owner, calls[i], r, n + i) ==> i == |calls| - 1
  {
    if i < |calls| - 1 {
      assert Earlier(calls)[i] == calls[i];
    }
  }
}
