/** The pod controller-reference manager (controller_ref_manager.go), proved to compute
    Claims.ClaimAll. */
module RefManager {
  import opened Wrappers
  import opened Kube
  import opened Api
  import opened Claims

  /** The answers available to a pod when the call log has length n. */
  function ReplyAt(r: Replies, n: nat, owner: Owner, memo: Remembered, pod: Pod): PodReply {
    PodReply(r.live(n), r.patch(if Decide(owner, pod) == TryAdopt && memo == None then n + 1 else n))
  }

  /** The answers used by a pass that starts with `start` remembered and a call log of length n. */
  function RepliesUsed(owner: Owner, start: Remembered, pods: seq<Pod>, r: Replies, n: nat): (p: seq<PodReply>)
    ensures |p| == |pods|
  {
    if |pods| == 0 then []
    else
      var k := |pods| - 1;
      var before := RepliesUsed(owner, start, pods[..k], r, n);
      var c := ClaimFrom(owner, start, pods[..k], before);
      before + [ReplyAt(r, n + |c.calls|, owner, c.memo, pods[k])]
  }

  /** That pass over a list of pods. */
  function PassOver(owner: Owner, start: Remembered, pods: seq<Pod>, r: Replies, n: nat): (c: Claims)
    ensures |c.outcomes| == |pods|
  {
    ClaimFrom(owner, start, pods, RepliesUsed(owner, start, pods, r, n))
  }

  function ClaimedIf(one: Claim, pod: Pod): seq<Pod> {
    if IsClaimed(one.outcome) then [pod] else []
  }

  function FailedIf(one: Claim): seq<Error> {
    if IsFailure(one.outcome) then [one.outcome.error] else []
  }

  /** One more pod is claimed with what the pods before it left. */
  lemma PassOverNext(owner: Owner, start: Remembered, pods: seq<Pod>, pod: Pod, r: Replies, n: nat)
    ensures
      var c := PassOver(owner, start, pods, r, n);
      PassOver(owner, start, pods + [pod], r, n)
      == ClaimNext(owner, c, pod, ReplyAt(r, n + |c.calls|, owner, c.memo, pod))
  {
    var used := RepliesUsed(owner, start, pods, r, n);
    var c := ClaimFrom(owner, start, pods, used);
    var reply := ReplyAt(r, n + |c.calls|, owner, c.memo, pod);
    RepliesNext(owner, start, pods, pod, r, n, reply);
    ClaimFromNext(owner, start, pods, pod, used, reply);
  }

  lemma RepliesNext(owner: Owner, start: Remembered, pods: seq<Pod>, pod: Pod, r: Replies, n: nat, reply: PodReply)
    requires
      var c := PassOver(owner, start, pods, r, n);
      reply == ReplyAt(r, n + |c.calls|, owner, c.memo, pod)
    ensures RepliesUsed(owner, start, pods + [pod], r, n) == RepliesUsed(owner, start, pods, r, n) + [reply]
  {
    assert (pods + [pod])[..|pods|] == pods;
  }

  /** The state of a pass that came to c: what it remembers, logs, claims and fails with. */
  predicate PassAt(c: Claims, pods: seq<Pod>, log: seq<Call>,
                   memo: Remembered, calls: seq<Call>, claimed: seq<Pod>, errlist: seq<Error>)
    requires |c.outcomes| == |pods|
  {
    && memo == c.memo && calls == log + c.calls
    && claimed == Select(pods, c.outcomes) && errlist == ErrorsOf(c.outcomes)
  }

  /** Claiming one more pod extends claimed list, errors and log by that pod's part. */
  lemma PassAtNext(c: Claims, owner: Owner, pods: seq<Pod>, pod: Pod, reply: PodReply, log: seq<Call>,
                   memo: Remembered, calls: seq<Call>, claimed: seq<Pod>, errlist: seq<Error>)
    requires |c.outcomes| == |pods| && PassAt(c, pods, log, memo, calls, claimed, errlist)
    ensures
      var one := ClaimOne(owner, memo, pod, reply);
      PassAt(ClaimNext(owner, c, pod, reply), pods + [pod], log,
             one.memo, calls + one.calls, claimed + ClaimedIf(one, pod), errlist + FailedIf(one))
  {
    var one := ClaimOne(owner, memo, pod, reply);
    SelectNext(pods, c.outcomes, pod, one.outcome);
    ErrorsNext(c.outcomes, one.outcome);
    assert (log + c.calls) + one.calls == log + (c.calls + one.calls);
  }

  /** A pass over the first k pods of a list. */
  predicate PassUpTo(owner: Owner, start: Remembered, pods: seq<Pod>, k: nat, r: Replies, log: seq<Call>,
                     memo: Remembered, calls: seq<Call>, claimed: seq<Pod>, errlist: seq<Error>)
    requires k <= |pods|
  {
    PassAt(PassOver(owner, start, pods[..k], r, |log|), pods[..k], log, memo, calls, claimed, errlist)
  }

  lemma PassUpToNext(owner: Owner, start: Remembered, pods: seq<Pod>, k: nat, r: Replies, log: seq<Call>,
                     memo: Remembered, calls: seq<Call>, claimed: seq<Pod>, errlist: seq<Error>, one: Claim)
    requires k < |pods| && PassUpTo(owner, start, pods, k, r, log, memo, calls, claimed, errlist)
    requires one == ClaimOne(owner, memo, pods[k], ReplyAt(r, |calls|, owner, memo, pods[k]))
    ensures PassUpTo(owner, start, pods, k + 1, r, log, one.memo, calls + one.calls,
                     claimed + ClaimedIf(one, pods[k]), errlist + FailedIf(one))
  {
    var c, reply := PassOver(owner, start, pods[..k], r, |log|), ReplyAt(r, |calls|, owner, memo, pods[k]);
    PassAtNext(c, owner, pods[..k], pods[k], reply, log, memo, calls, claimed, errlist);
    PassOverNext(owner, start, pods[..k], pods[k], r, |log|);
    assert pods[..k + 1] == pods[..k] + [pods[k]];
  }

  lemma SelectNext(pods: seq<Pod>, outcomes: seq<Outcome>, pod: Pod, o: Outcome)
    requires |outcomes| == |pods|
    ensures Select(pods + [pod], outcomes + [o]) == Select(pods, outcomes) + (if IsClaimed(o) then [pod] else [])
  {
    assert (pods + [pod])[..|pods|] == pods && (outcomes + [o])[..|pods|] == outcomes;
  }

  lemma ErrorsNext(outcomes: seq<Outcome>, o: Outcome)
    ensures ErrorsOf(outcomes + [o]) == ErrorsOf(outcomes) + (if IsFailure(o) then [o.error] else [])
  {
    assert (outcomes + [o])[..|outcomes|] == outcomes;
  }

  class PodControllerRefManager {
    const owner: Owner
    const api: Client
    var canAdoptOnce: bool
    var canAdoptErr: Option<Error>

    constructor (owner: Owner, api: Client)
      ensures this.owner == owner && this.api == api && Memo() == None
    {
      this.owner := owner;
      this.api := api;
      canAdoptOnce := false;
      canAdoptErr := None;
    }

    ghost function Memo(): Remembered
      reads this
    {
      if canAdoptOnce then Some(canAdoptErr) else None
    }

    /** Reads the live job at most once in the life of the manager. */
    method CanAdopt() returns (err: Option<Error>)
      modifies this, api
      ensures Memo() == Some(err)
      ensures old(canAdoptOnce) ==> err == old(canAdoptErr) && api.log == old(api.log)
      ensures !old(canAdoptOnce) ==>
        && err == Recheck(owner, api.replies.live(|old(api.log)|))
        && api.log == old(api.log) + [GetJob(owner.namespace, owner.name)]
    {
      if !canAdoptOnce {
        canAdoptOnce := true;
        var live := api.Get(owner.namespace, owner.name);
        canAdoptErr := Recheck(owner, live);
      }
      err := canAdoptErr;
    }

    /** Patches the pod unless the recheck, made now or remembered, denies it. */
    method AdoptPod(pod: Pod) returns (err: Option<Error>)
      modifies this, api
      ensures
        var first := old(Memo()) == None;
        var denied := if first then Recheck(owner, api.replies.live(|old(api.log)|)) else old(Memo()).value;
        var read := if first then [GetJob(owner.namespace, owner.name)] else [];
        && Memo() == Some(denied)
        && (if denied != None then err == Some(CantAdopt(pod.uid, denied.value)) && api.log == old(api.log) + read
            else && err == api.replies.patch(|old(api.log)| + |read|)
                 && api.log == old(api.log) + (read + [PatchPod(AdoptPatchFor(owner, pod))]))
    {
      var denied := CanAdopt();
      if denied != None {
        return Some(CantAdopt(pod.uid, denied.value));
      }
      err := api.Patch(AdoptPatchFor(owner, pod));
    }

    /** Answers 404 and 422 count as released. */
    method ReleasePod(pod: Pod) returns (err: Option<Error>)
      modifies api
      ensures api.log == old(api.log) + [PatchPod(ReleasePatchFor(owner, pod))]
      ensures
        var outcome := ReleaseOutcome(api.replies.patch(|old(api.log)|));
        outcome == (if err == None then Released else ReleaseFailed(err.value))
      ensures err != None ==> !err.value.IsNotFound()
    {
      err := api.Patch(ReleasePatchFor(owner, pod));
      if err != None {
        if err.value.IsNotFound() {
          return None;
        }
        if err.value.IsInvalid() {
          return None;
        }
      }
    }

    method ClaimObject(pod: Pod) returns (ok: bool, err: Option<Error>)
      modifies this, api
      ensures
        var one := ClaimOne(owner, old(Memo()), pod, ReplyAt(api.replies, |old(api.log)|, owner, old(Memo()), pod));
        && Memo() == one.memo
        && api.log == old(api.log) + one.calls
        && ok == IsClaimed(one.outcome)
        && err == (if IsFailure(one.outcome) then Some(one.outcome.error) else None)
    {
      var controllerRef := GetControllerOf(pod);
      if controllerRef.Some? {
        if controllerRef.value.uid != owner.uid {
          return false, None;
        }
        if Matches(owner.selector, pod.labels) {
          return true, None;
        }
        if owner.deleting {
          return false, None;
        }
        err := ReleasePod(pod);
        if err != None {
          if err.value.IsNotFound() {
            return false, None;
          }
          return false, err;
        }
        return false, None;
      }
      if owner.deleting || !Matches(owner.selector, pod.labels) {
        return false, None;
      }
      if pod.deleting {
        return false, None;
      }
      err := AdoptPod(pod);
      if err != None {
        if err.value.IsNotFound() {
          return false, None;
        }
        return false, err;
      }
      return true, None;
    }

    /** Claims a list of pods: the claimed pods and the aggregate error are those of PassOver. */
    method ClaimPods(pods: seq<Pod>) returns (claimed: seq<Pod>, err: Option<Error>)
      modifies this, api
      ensures
        var c := PassOver(owner, old(Memo()), pods, api.replies, |old(api.log)|);
        && Memo() == c.memo
        && api.log == old(api.log) + c.calls
        && claimed == Select(pods, c.outcomes)
        && err == NewAggregate(ErrorsOf(c.outcomes))
    {
      claimed := [];
      var errlist: seq<Error> := [];
      ghost var log, start := api.log, Memo();
      for k := 0 to |pods|
        invariant PassUpTo(owner, start, pods, k, api.replies, log, Memo(), api.log, claimed, errlist)
      {
        ghost var one := ClaimOne(owner, Memo(), pods[k], ReplyAt(api.replies, |api.log|, owner, Memo(), pods[k]));
        PassUpToNext(owner, start, pods, k, api.replies, log, Memo(), api.log, claimed, errlist, one);
        var ok, failure := ClaimObject(pods[k]);
        if failure != None {
          errlist := errlist + [failure.value];
        } else if ok {
          claimed := claimed + [pods[k]];
        }
      }
      assert pods[..|pods|] == pods;
      err := NewAggregate(errlist);
    }
  }
}
