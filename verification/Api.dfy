/** The controller's side of the API: every call is logged, and the answers are an
    arbitrary function of the call's position in the log, so a property proved
    against a Client holds for every mix of outcomes. */
module Api {
  import opened Wrappers
  import opened Kube
  import opened Types

  datatype PodPatch =
    | AdoptPatch(namespace: string, name: string, podUid: UID, ref: OwnerRef)
    | ReleasePatch(namespace: string, name: string, podUid: UID, ownerUid: UID)

  datatype Call =
    | ListPods(namespace: string)
    | GetJob(namespace: string, name: string)
    | PatchPod(patch: PodPatch)
    | CreatePod(pod: NewPod)
    | UpdateJob(status: JobStatus)

  datatype Replies = Replies(
    list: nat -> Result<seq<Pod>, Error>,
    live: nat -> Result<LiveJob, Error>,
    patch: nat -> Option<Error>,
    create: nat -> Option<Error>,
    update: nat -> Option<Error>)

  class Client {
    const replies: Replies
    var log: seq<Call>

    constructor (replies: Replies)
      ensures this.replies == replies && log == []
    {
      this.replies := replies;
      log := [];
    }

    method List(namespace: string) returns (pods: Result<seq<Pod>, Error>)
      modifies this
      ensures log == old(log) + [ListPods(namespace)]
      ensures pods == replies.list(|old(log)|)
    {
      pods := replies.list(|log|);
      log := log + [ListPods(namespace)];
    }

    method Get(namespace: string, name: string) returns (job: Result<LiveJob, Error>)
      modifies this
      ensures log == old(log) + [GetJob(namespace, name)]
      ensures job == replies.live(|old(log)|)
    {
      job := replies.live(|log|);
      log := log + [GetJob(namespace, name)];
    }

    method Patch(patch: PodPatch) returns (err: Option<Error>)
      modifies this
      ensures log == old(log) + [PatchPod(patch)]
      ensures err == replies.patch(|old(log)|)
    {
      err := replies.patch(|log|);
      log := log + [PatchPod(patch)];
    }

    method Create(pod: NewPod) returns (err: Option<Error>)
      modifies this
      ensures log == old(log) + [CreatePod(pod)]
      ensures err == replies.create(|old(log)|)
    {
      err := replies.create(|log|);
      log := log + [CreatePod(pod)];
    }

    method Update(status: JobStatus) returns (err: Option<Error>)
      modifies this
      ensures log == old(log) + [UpdateJob(status)]
      ensures err == replies.update(|old(log)|)
    {
      err := replies.update(|log|);
      log := log + [UpdateJob(status)];
    }
  }
}
