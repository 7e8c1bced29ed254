/** What whole passes of a job do not do: create pods after a failed fetch, or reach for another job's pods. */
module Passes {
  import opened Wrappers
  import opened Kube
  import opened Api
  import opened Types
  import opened Naming
  import opened Claims
  import opened RefManager
  import opened PodFactory
  import opened Counting
  import opened Reconcile
  import opened StatusRuns
  import opened Verdicts

  // ----- nothing is created after a failed fetch -----

  /** A pass whose listing or claiming fails creates nothing, sends no status and returns that error. */
  lemma FailedFetchEndsThePass(job: JobInfo, t: TemplateValue, st: JobStatus, r: Replies, n: nat, now: Time)
    requires job.replicas >= 0 && FetchOf(job.AsOwner(), r, n).err != None
    ensures
      var p := PassOf(job, t, st, r, n, now);
      && p.err == FetchOf(job.AsOwner(), r, n).err && p.status == st
      && forall c :: c in p.calls ==> !c.CreatePod? && !c.UpdateJob?
  {
    match r.list(n)
    case Err(_) =>
    case Ok(pods) =>
      ClaimsReportNothing(job.AsOwner(), pods, RepliesUsed(job.AsOwner(), None, pods, r, n + 1));
  }

  /** A matching orphan of a vanished job makes the pass fail and create nothing. */
  lemma VanishedJobCreatesNothing(job: JobInfo, t: TemplateValue, st: JobStatus, r: Replies, n: nat, now: Time,
                                  pods: seq<Pod>, i: nat)
    requires job.replicas >= 0 && !job.deleting && r.list(n) == Ok(pods) && i < |pods|
    requires GetControllerOf(pods[i]) == None && !pods[i].deleting
    requires Matches(job.AsOwner().selector, pods[i].labels)
    requires forall k :: r.live(k) == Err(Status(NotFound))
    ensures
      var p := PassOf(job, t, st, r, n, now);
      p.err != None && p.status == st && forall c :: c in p.calls ==> !c.CreatePod? && !c.UpdateJob?
  {
    var replies := RepliesUsed(job.AsOwner(), None, pods, r, n + 1);
    RepliesVanish(job.AsOwner(), None, pods, r, n + 1);
    VanishedJobFailsThePass(job.AsOwner(), pods, replies, i);
    FailedFetchEndsThePass(job, t, st, r, n, now);
  }

  lemma {:induction false} RepliesVanish(owner: Owner, start: Remembered, pods: seq<Pod>, r: Replies, n: nat)
    requires forall k :: r.live(k) == Err(Status(NotFound))
    ensures forall j :: 0 <= j < |pods| ==> RepliesUsed(owner, start, pods, r, n)[j].live == Err(Status(NotFound))
  {
    if |pods| > 0 {
      RepliesVanish(owner, start, pods[..|pods| - 1], r, n);
    }
  }

  // ----- a pass stays in its namespace -----

  predicate StaysIn(c: Call, namespace: string) {
    match c
    case ListPods(ns) => ns == namespace
    case GetJob(ns, _) => ns == namespace
    case PatchPod(patch) => patch.namespace == namespace
    case CreatePod(pod) => pod.namespace == namespace
    case UpdateJob(_) => true
  }

  predicate AllStayIn(calls: seq<Call>, namespace: string) {
    forall c :: c in calls ==> StaysIn(c, namespace)
  }

  lemma {:induction false} ClaimsStayIn(owner: Owner, pods: seq<Pod>, replies: seq<PodReply>)
    requires |pods| == |replies|
    requires forall i :: 0 <= i < |pods| ==> pods[i].namespace == owner.namespace
    ensures AllStayIn(ClaimAll(owner, pods, replies).calls, owner.namespace)
  {
    if |pods| > 0 {
      ClaimsStayIn(owner, pods[..|pods| - 1], replies[..|pods| - 1]);
    }
  }

  lemma {:induction false} LoopStaysIn(slots: seq<seq<Pod>>, n: nat, make: nat -> NewPod,
                                       creates: nat -> Option<Error>, namespace: string)
    requires n <= |slots| && forall i :: make(i).namespace == namespace
    ensures AllStayIn(LoopUpTo(slots, n, make, creates).calls, namespace)
  {
    if n > 0 {
      LoopStaysIn(slots, n - 1, make, creates, namespace);
    }
  }

  lemma FetchStaysIn(owner: Owner, r: Replies, n: nat)
    requires forall p :: r.list(n).Ok? && p in r.list(n).value ==> p.namespace == owner.namespace
    ensures AllStayIn(FetchOf(owner, r, n).calls, owner.namespace)
  {
    match r.list(n)
    case Err(_) =>
    case Ok(pods) => ClaimsStayIn(owner, pods, RepliesUsed(owner, None, pods, r, n + 1));
  }

  lemma RestStaysIn(job: JobInfo, t: TemplateValue, st: JobStatus, claimed: seq<Pod>, r: Replies, n: nat, now: Time,
                    rest: PassResult)
    requires job.replicas >= 0 && rest == AfterFetch(job, t, st, claimed, r, n, now)
    ensures AllStayIn(rest.calls, job.namespace)
  {
    var slots := SlotsOf(claimed, job.replicas as nat);
    LoopStaysIn(slots, |slots|, Maker(job, t), CreatesUsed(slots, r, n), job.namespace);
  }

  lemma JoinedStaysIn(f: Fetched, st: JobStatus, rest: PassResult, namespace: string)
    requires AllStayIn(f.calls, namespace) && AllStayIn(rest.calls, namespace)
    ensures AllStayIn(Joined(f, st, rest).calls, namespace)
  {
  }

  lemma PassFromStaysIn(f: Fetched, job: JobInfo, t: TemplateValue, st: JobStatus, r: Replies, n: nat, now: Time,
                        m: nat, rest: PassResult)
    requires job.replicas >= 0 && AllStayIn(f.calls, job.namespace) && m == n + |f.calls|
    requires rest == AfterFetch(job, t, st, f.claimed, r, m, now)
    ensures AllStayIn(PassFrom(f, job, t, st, r, n, now).calls, job.namespace)
  {
    PassFromJoins(f, job, t, st, r, n, now, m, rest);
    RestStaysIn(job, t, st, f.claimed, r, m, now, rest);
    JoinedStaysIn(f, st, rest, job.namespace);
  }

  /** A pass that lists its namespace reads, patches and creates there alone. */
  lemma PassStaysInNamespace(job: JobInfo, t: TemplateValue, st: JobStatus, r: Replies, n: nat, now: Time)
    requires job.replicas >= 0
    requires forall p :: r.list(n).Ok? && p in r.list(n).value ==> p.namespace == job.namespace
    ensures AllStayIn(PassOf(job, t, st, r, n, now).calls, job.namespace)
  {
    var f := FetchOf(job.AsOwner(), r, n);
    FetchStaysIn(job.AsOwner(), r, n);
    var m := n + |f.calls|;
    PassFromStaysIn(f, job, t, st, r, n, now, m, AfterFetch(job, t, st, f.claimed, r, m, now));
  }

  /** Two different jobs never want the same listed pod by its labels: either their lists are of different
      namespaces, or their selectors exclude each other. */
  lemma JobsWantNoCommonPod(a: JobInfo, b: JobInfo, pod: Pod)
    requires SlashFree(a.namespace) && SlashFree(a.name) && SlashFree(b.namespace) && SlashFree(b.name)
    requires (a.namespace, a.name) != (b.namespace, b.name)
    ensures !(WantsByLabels(a.AsOwner(), pod) && WantsByLabels(b.AsOwner(), pod))
  {
    if a.namespace == b.namespace {
      JobsInOneNamespaceDoNotCompete(a.runtimeId, a.name, b.runtimeId, b.name, a.namespace);
      assert !(Matches(a.AsOwner().selector, pod.labels) && Matches(b.AsOwner().selector, pod.labels));
    }
  }

  /** The pod is in the job's list, and its labels match. */
  predicate WantsByLabels(owner: Owner, pod: Pod) {
    pod.namespace == owner.namespace && Matches(owner.selector, pod.labels)
  }

  /** A pass claims no other pods. */
  lemma ClaimedIsItsOwn(owner: Owner, pods: seq<Pod>, replies: seq<PodReply>, pod: Pod)
    requires |pods| == |replies| && pod in Select(pods, ClaimAll(owner, pods, replies).outcomes)
    requires forall p :: p in pods ==> p.namespace == owner.namespace
    ensures WantsByLabels(owner, pod)
  {
    ClaimedIsWanted(owner, pods, replies, pod);
    WantedMatches(owner, pod);
  }
}
