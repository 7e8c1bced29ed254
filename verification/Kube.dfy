/** The API objects the controller reads and writes, cut down to the fields it looks at. */
module Kube {
  import opened Wrappers

  type UID = string

  type Labels = map<string, string>

  newtype int32 = x: int | -0x8000_0000 <= x < 0x8000_0000

  /** `controller` and `blockOwnerDeletion` are optional booleans on the wire. */
  datatype OwnerRef = OwnerRef(
    apiVersion: string, kind: string, name: string, uid: UID,
    controller: Option<bool>, blockOwnerDeletion: Option<bool>)
  {
    predicate IsController() {
      controller == Some(true)
    }
  }

  datatype Phase = Pending | Running | Succeeded | Failed | OtherPhase

  datatype Pod = Pod(
    namespace: string, name: string, uid: UID, labels: Labels,
    ownerRefs: seq<OwnerRef>, deleting: bool, phase: Phase)

  /** A Caffe2Job as a live read of the API server returns it. */
  datatype LiveJob = LiveJob(namespace: string, name: string, uid: UID, deleting: bool)

  /** Errors. Only a `Status` carries an API reason; the other constructors are
      wrapped messages, which the reason checks never look inside. */
  datatype Reason = NotFound | Invalid | Timeout | OtherReason
  datatype Error =
    | Status(reason: Reason)
    | CantAdopt(pod: UID, cause: Error)
    | RecheckFailed(cause: Error)
    | OriginalGone(got: UID, wanted: UID)
    | JustDeleted(job: UID)
    | Aggregate(errors: seq<Error>)
    | BadControllerRef
    | NoLabels
    | RetryFailure(n: int)
    | BadRetryCount(n: int)
  {
    predicate IsNotFound() { this == Status(NotFound) }
    predicate IsInvalid() { this == Status(Invalid) }
    predicate IsTimeout() { this == Status(Timeout) }
  }

  /** The first owner reference marked as controller. */
  function ControllerIn(refs: seq<OwnerRef>): Option<OwnerRef> {
    if |refs| == 0 then None
    else if refs[0].IsController() then Some(refs[0])
    else ControllerIn(refs[1..])
  }

  function GetControllerOf(pod: Pod): Option<OwnerRef> {
    ControllerIn(pod.ownerRefs)
  }

  predicate ControlledBy(pod: Pod, uid: UID) {
    GetControllerOf(pod).Some? && GetControllerOf(pod).value.uid == uid
  }

  /** A selector built from exact label matches. */
  predicate Matches(selector: Labels, labels: Labels) {
    forall k :: k in selector ==> k in labels && labels[k] == selector[k]
  }

  /** The API server's rule for owner references. */
  predicate AtMostOneController(refs: seq<OwnerRef>) {
    forall i, j :: 0 <= i < j < |refs| ==> !(refs[i].IsController() && refs[j].IsController())
  }

  /** The controller reference is there exactly when some reference is marked, and
      under the server's rule it is the only marked one. */
  lemma {:induction false} ControllerInIs(refs: seq<OwnerRef>, i: nat)
    requires i < |refs| && refs[i].IsController()
    ensures ControllerIn(refs).Some?
    ensures AtMostOneController(refs) ==> ControllerIn(refs) == Some(refs[i])
  {
    if i > 0 {
      ControllerInIs(refs[1..], i - 1);
    }
  }

  lemma {:induction false} ControllerInFound(refs: seq<OwnerRef>) returns (i: nat)
    requires ControllerIn(refs).Some?
    ensures i < |refs| && refs[i].IsController() && ControllerIn(refs) == Some(refs[i])
    ensures forall j :: 0 <= j < i ==> !refs[j].IsController()
  {
    if refs[0].IsController() {
      i := 0;
    } else {
      var k := ControllerInFound(refs[1..]);
      i := k + 1;
      forall j | 0 <= j < i ensures !refs[j].IsController() {
        if j > 0 { assert refs[j] == refs[1..][j - 1]; }
      }
    }
  }
}
