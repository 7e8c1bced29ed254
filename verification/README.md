# caffe2-operator: the job reconciler, verified

A model in Dafny of the reconciler in `pkg/controller` of caffe2-operator, with proofs. The
reconciler is a small distributed protocol with a state machine on top:

- **Pod ownership** (`Claims`, `RefManager`, `Server`, `Ownership`, `FixedPoint`). A pass lists the pods of
  a namespace, possibly from a stale cache, adopts matching orphans, releases owned pods that no longer
  match, and sends UID-guarded patches to the API server. One remembered live read guards all adoptions
  of a pass.
- **Replica slots** (`PodFactory`, `Slots`, `Counting`, `Convergence`). Claimed worker pods are put into slots by
  a parsed index label; one pod is created for each empty slot, up to the first creation that fails.
- **Whole passes** (`Reconcile`, `Answers`, `Passes`). What a pass of the controller comes to, when it succeeds,
  with which error it ends, and what it does not touch.
- **Status** (`Conditions`, `Counting`, `Reconcile`, `StatusRuns`, `Verdicts`). Slots are counted by phase,
  Running, Succeeded and Failed are derived, and the condition list is kept over runs.
- **Worker identity** (`Strconv`, `Naming`, `PodFactory`, `Slots`). Shard id, shard count, cluster list and task
  index travel through decimal printing and two different integer parsers.

Two side modules stand alone: `RandString`, a bit-packed rejection sampler, and `Retry`, a bounded loop
paced by Go's ticker.

Code that updates state is a class with methods (`PodControllerRefManager`, `PodControl`, `Caffe2Job`,
`Controller`, `Ticker`, `Source`); each method's contract gives its whole new state through a function, and
what the controller promises is proved about those functions. The functions that contracts name are in turn
read by lemmas that do without them: in terms of the listed pods, of calls and their answers, or of literal values. `Api.Client` stands for the API server as
one pass sees it: it logs every call, and its answers are an arbitrary function of the position in the
log, so what is proved of a pass holds for every mix of outcomes. `Ownership` is the other view: one
server, any number of passes on arbitrarily stale lists, one API call per step, and outside changes
(also pods recreated under an old name) at any time. `InterleavedPassIsClaimAll` joins the two views.

Ghost parameters such as `t`, `st`, `n` and `log` of the methods in `Reconcile` are names for parts of the state
before the call, by which a contract can say which function of that state the result is.

What a caller must know:

- The spec is taken as defaulted: a template is there and `replicas >= 0`. `make` in `getPodSlices` needs a
  length that is not negative, and `createNewPod` uses the template without a check.
- The runtime id, the number of replicas and the deletion mark stay fixed along a run.

Where the code and a promise differ, the code is modelled, an input is given, and the exact condition is
proved:

- *At most one pod per index* fails when a pod exists that the next list does not show: after a creation that times
  out, which the controller takes for a success (`LateCreationDoublesSlot`), and after an accepted creation when
  the list is stale (`StaleListDoublesSlot`). `Convergence` counts such unlisted pods. Before a pass,
  `PassKeepsAtMostOne` says that every choice of answers keeps one pod per slot if and only if no unlisted pod
  waits for a slot that the list shows empty. Over a run, `RunKeepsOneIff` says that there is one pod per slot in
  the end if and only if every pass kept clear of the pods unlisted at its time; and before the run,
  `EveryRunKeepsOneIff` says that every run of two or more passes does if and only if the job is full.
- *Jobs do not compete* holds within a namespace. Across namespaces two selectors overlap exactly when the
  dash-joined names and the runtime ids agree (`JobsCompeteIff`, `JobsAcrossNamespacesCanCompete`); then only the
  namespaced list keeps the jobs apart, and it does (`JobsWantNoCommonPod`, `PassStaysInNamespace`).
- The comment of `RandString` promises a DNS-1035 label. A text of one letter is none when the first group is below
  10 (`FirstDigitGivesNoLabel`), and no length gives one when the few draws it takes are zero
  (`ZeroDrawsGiveNoLabel`). The text is a label if and only if its length is 1 to 63 and the n-th acceptable
  group of the draws to come is at least 10 (`RandStringIsLabelIff`).
- The comment of `Retry` says that a call longer than the interval delays the next one. `OnScheduleIff` makes it
  exact: all calls are on schedule if and only if no earlier call took longer than the interval.
- The label parser and the config parser read some digit strings as different numbers, "010" for one. They agree on
  exactly those that fit 32 bits and, with a leading zero, are worth less than 8 (`ParsersAgreeIff`), so on every
  index that the controller prints.
- The cluster list is meant to name the workers. An entry names a pod if and only if the pod bears the general
  name (`ListedIff`). The pods that the controller creates do not: the server makes their names from the job's
  name, which it may cut, and a short suffix, and no such name is in the list (`GeneratedNamesAreNotListed`).
- StartTime and CompletionTime are not written once (`TimesAreOverwritten`). Each is the time of the last pass that
  met its condition (`TimesAreTheLast`).

The sample pod in the repository's README is named `caffe2-worker-${job_id}` and speaks of three variables; the
model follows the code, where the server completes the name and each container gets seven variables.

`dafny verify dfyconfig.toml` checks the whole project.

## Model

| member | source | states |
|---|---|---|
| Claims.MemoIsGate | pkg/controller/controller_ref_manager.go:40-47 | after any pass the remembered recheck is that of the live read made at the first adoption of the list, and there is none if nothing was to be adopted |
| Claims.OutcomesExact | pkg/controller/controller_ref_manager.go:64-117 | every listed pod is decided once, by its own decision, its own patch answer and the one shared recheck, whatever happened to the pods before it |
| Claims.CallsExact | pkg/controller/controller_ref_manager.go:169-204 | the calls of a pass are exactly the demanded patches in list order, with one live read directly before the first adoption, and none if nothing is adopted |
| Claims.SelectIsSubsequence | pkg/controller/controller_ref_manager.go:193-203 | the claimed list is an order-preserving selection of the listed pods that leaves out no claimed one |
| Claims.ErrorsOfEmpty | pkg/controller/controller_ref_manager.go:193-203 | the collected errors are empty exactly if no listed pod failed |
| Claims.PassSucceedsIff | pkg/controller/controller_ref_manager.go:83-116 | a pass has no error if and only if each pod's own release or adoption went well: a pod's 404 is absorbed, a 422 only on release, and a refused recheck fails the pass as soon as there is a pod to adopt |
| Claims.VanishedJobFailsThePass | pkg/controller/controller_ref_manager.go:209-211 | a matching orphan of a job whose live read answers 404 makes the pass fail, and nothing is adopted |
| Claims.RememberedPass | pkg/controller/controller_ref_manager.go:40-47 | over a recheck remembered from before, no live read is made and every pod is decided by its own decision, its own patch answer and that recheck |
| Claims.DecideIs | pkg/controller/controller_ref_manager.go:64-117 | a pod is adopted exactly if it is an orphan that matches and neither it nor the job is being deleted, released exactly if the job controls it, it does not match and the job is not being deleted, kept exactly if the job controls it and it matches; any other pod is left alone |
| Claims.RecheckIff | pkg/controller/controller_ref_manager.go:382-393 | the recheck allows adoption exactly if the live read finds the job under the same UID and not being deleted |
| Claims.ClaimedExactly | pkg/controller/controller_ref_manager.go:64-117 | for any list and answers: a listed pod is claimed if and only if the job controls it and it matches, or it is an orphan to adopt, the live read made for the first such orphan finds the job alive, and its own patch is answered without error |
| Claims.PatchesExactly | pkg/controller/controller_ref_manager.go:169-204 | a pass sends a patch if and only if it adopts an orphan to adopt while the live read allows it, or releases a pod to release; the patch carries the UID of the pod and the name and UID of the job |
| Claims.OthersAreLeftAlone | pkg/controller/controller_ref_manager.go:67-70 | no patch of a pass names a pod for which the list shows another controller |
| Claims.PassErrorIs | pkg/controller/controller_ref_manager.go:193-204 | the error of a pass, if there is one, is the aggregate of the errors of exactly the failed pods, in list order |
| Claims.FailureIs | pkg/controller/controller_ref_manager.go:83-116 | a failed adoption that the recheck denied tells so, with the UID of the pod; any other failure is the answer to the pod's patch |
| RefManager.PodControllerRefManager.CanAdopt | pkg/controller/controller_ref_manager.go:40-47 | the live job is read at most once in the life of the manager; later calls give the remembered answer without a call |
| RefManager.PodControllerRefManager.AdoptPod | pkg/controller/controller_ref_manager.go:208-219 | for any pod: the patch with the pod's UID is sent, after the recheck if it is the first, exactly if the recheck allows it, and the server's answer is returned |
| RefManager.PodControllerRefManager.ReleasePod | pkg/controller/controller_ref_manager.go:223-246 | exactly one patch with the pod's UID is sent; 404 and 422 count as released, other errors are returned |
| RefManager.PodControllerRefManager.ClaimObject | pkg/controller/controller_ref_manager.go:64-117 | memo, calls, result and error are those of one step of the pass function, for which ClaimedExactly and PatchesExactly say, pod by pod, what is claimed and what is sent |
| RefManager.PodControllerRefManager.ClaimPods | pkg/controller/controller_ref_manager.go:169-204 | from whatever is remembered, memo, log, claimed list and aggregate error are those of the whole pass, for every list and every mix of answers |
| RefManager.PassUpToNext | pkg/controller/controller_ref_manager.go:193-203 | one more pod extends the claimed list, the errors and the log of the pass by exactly that pod's part |
| Server.MergeKeepsOthers | pkg/controller/controller_ref_manager.go:208-219 | an adoption patch leaves every reference of other owners as it was |
| Server.MergeKeepsController | pkg/controller/controller_ref_manager.go:212-213 | merging a controller reference into a pod that another owner controls breaks the server's rule, so the server rejects it |
| Server.MergeIntoOrphan | pkg/controller/controller_ref_manager.go:214-218 | a pod without controller can be adopted, and the adopter then is its only controller |
| Server.RemoveKeepsController | pkg/controller/controller_ref_manager.go:223-227 | a release keeps another owner's controller reference, makes no controller of an orphan, and ends one's own control |
| Server.RemoveKeepsAtMostOne | pkg/controller/controller_ref_manager.go:223-227 | a release adds nothing, removes every reference of the releasing job and keeps the server's rule |
| Server.RemoveMembers | pkg/controller/controller_ref_manager.go:223-227 | a release takes away the references of the releasing job and no others |
| Server.PatchedIff | pkg/controller/controller_ref_manager.go:228-242 | a patch is answered 404 exactly if no pod has its name, 422 exactly if the pod's UID is another, a second controller would result, or there is no reference to remove |
| Ownership.PatchEffect | pkg/controller/controller_ref_manager.go:208-246 | an accepted patch hits only a pod with the UID it carries and changes only the patching job's references; an adoption never displaces another controller |
| Ownership.HandlingEffect | pkg/controller/controller_ref_manager.go:64-117 | in any state, handling one pod changes at most the listed pod itself, never a pod recreated under its name with another UID, and in it only the pass's own references |
| Ownership.OwnershipInvariant | pkg/controller/controller_ref_manager.go:64-117 | in every reachable state of any interleaving each pod has at most one controller reference, and pods keep distinct UIDs |
| Ownership.ControllerPersists | pkg/controller/controller_ref_manager.go:64-73 | over any run a pod keeps its controller unless that job itself, or an outside edit or deletion, acts on it |
| Ownership.PassHistory | pkg/controller/controller_pod.go:177-197 | in every run each pass has a start, and its remembered recheck is that of its one live read, made after the start |
| Ownership.AdoptionIsFresh | pkg/controller/controller_ref_manager.go:382-393 | in every run each adoption patch is preceded, after its pass took its list, by that pass's one and only live read, which saw the job under the same UID and not being deleted |
| Ownership.FailedRecheckBlocksAdoption | pkg/controller/controller_ref_manager.go:208-211 | if a pass's live read fails or does not find the job alive, the pass never sends an adoption, before or after |
| Ownership.MemoStays | pkg/controller/controller_ref_manager.go:40-47 | once a pass remembers a recheck it never changes it nor reads again |
| Ownership.InterleavedPassIsClaimAll | pkg/controller/controller_ref_manager.go:169-204 | whatever is interleaved with it, a pass computes the pass function of the pods it has handled and the answers it got |
| FixedPoint.SettledIsQuiet | pkg/controller/controller_ref_manager.go:64-117 | what a pass makes of a pod needs no further patch; it is kept exactly if it was kept or adopted, and if owned it matches the selector |
| FixedPoint.CleanPassSettles | pkg/controller/controller_ref_manager.go:169-204 | after an error-free pass on an up-to-date list with no other writer, for a deleting job too, every pod of the namespace is settled, and none came or went |
| FixedPoint.QuietPass | pkg/controller/controller_ref_manager.go:169-204 | over pods that need no patch a pass makes no call and claims exactly the kept ones |
| FixedPoint.ClaimingReachesFixedPoint | pkg/controller/controller_ref_manager.go:64-117 | after such a pass a second pass over any refreshed list makes no call and claims the same pods; unless the job is being deleted, every owned pod matches the selector |
| Naming.OverlapIff | pkg/controller/controller.go:384-390 | two jobs' selectors share a label map exactly if runtime ids and replaced keys agree |
| Naming.JobsCompeteIff | pkg/controller/controller.go:384-390 | two jobs compete for pods exactly if their runtime ids and their dash-joined namespaces and names agree |
| Naming.JobsInOneNamespaceDoNotCompete | pkg/controller/controller_pod.go:170-179 | differently named jobs of one namespace never select the same pod |
| Naming.JobsAcrossNamespacesCanCompete | pkg/controller/controller.go:384-390 | the replacement is not injective across namespaces: two jobs whose selectors overlap |
| Naming.GenClusterSpec | pkg/controller/config.go:88-109 | the cluster list has one address for every index below replicas, in order, and no other entry |
| Naming.HostsDistinct | pkg/controller/config.go:101-114 | the worker addresses of a job are pairwise distinct |
| Naming.GeneralNameIs | pkg/controller/config.go:111-114 | a general name is the job key with a dash for each slash, the type and the index, in this order, joined by dashes |
| Naming.HostIs | pkg/controller/config.go:101-114 | the address of a worker is namespace, job name, "worker" and index joined by dashes, and port 2222 |
| Strconv.ItoaReadsBack | pkg/controller/controller_pod.go:42 | a printed index is digits without a needless leading zero and reads back as itself |
| Strconv.PrintParse | pkg/controller/config.go:64-67 | decimal printing is undone by the base-10 label parser and by the base-0 32-bit config parser |
| Strconv.AtoiIff | pkg/controller/controller_pod.go:65 | the label parser reads a text exactly if it is one or more decimal digits behind at most one sign whose value fits 64 bits, and reads that value |
| Strconv.ParsersAgreeIff | pkg/controller/config.go:64 | of the digit strings the label parser reads, the config parser reads the same number if and only if it fits 32 bits and, with a leading zero, is less than 8 |
| Strconv.ParsersDisagreeOnLeadingZero | pkg/controller/controller_pod.go:65 | a label that is read as two numbers: "010" is 10 for the slots and 8 for the config |
| PodFactory.PodTemplate.DeepCopy | pkg/controller/controller_pod.go:100 | an equal template none of whose containers is shared with the original or with another |
| PodFactory.CopyEntries | pkg/controller/controller_utils.go:62-82 | label and annotation maps are copied entry by entry; a nil map gives an empty one |
| PodFactory.PodControl.GetPodFromTemplate | pkg/controller/controller_utils.go:139-162 | the pod has the name prefix of its parent, the template's labels, annotations, finalizers and containers, and just the given owner reference |
| PodFactory.NamesGetADash | pkg/controller/controller_utils.go:84-95 | for every valid owner name the prefix is the name with a dash, however long: the check never sees the dash |
| PodFactory.PrefixIff | pkg/controller/controller_utils.go:84-95 | for any name, valid or not, the dash is added exactly if the name with its last character replaced by a letter is a subdomain |
| PodFactory.ValidIff | pkg/controller/controller_utils.go:97-114 | a controller reference is accepted exactly if it names a version and a kind, is marked as controller and blocks the deletion of the owner |
| PodFactory.PodControl.CreatePodsWithControllerRef | pkg/controller/controller_utils.go:120-188 | a malformed reference or an empty label set is refused without a call; otherwise exactly the built pod is created and the answer returned |
| PodFactory.PodControl.GenCaffe2Config | pkg/controller/config.go:62-85 | the config holds the cluster list and the parsed index; it is missing exactly if the index does not parse |
| PodFactory.PodControl.AddLabels | pkg/controller/controller_pod.go:106-108 | the job's labels override the template's, all others stay |
| PodFactory.PodControl.AppendEnv | pkg/controller/controller_pod.go:109-141 | every container's variables are extended at the end, in place |
| PodFactory.PodControl.CreateNewPod | pkg/controller/controller_pod.go:80-157 | exactly one creation, of the pod for the index, is sent and the template is left alone; a timeout counts as success, and an index that does not parse creates nothing; what that pod is, AddedVariables and CreatedPodIs say field by field |
| Slots.FilterPodsForReplicaType | pkg/controller/controller_pod.go:201-222 | the pods of the type, in list order |
| Slots.WorkersAre | pkg/controller/controller_pod.go:201-222 | exactly the listed pods whose type label says worker pass the filter |
| Slots.OfTypeIsSubsequence | pkg/controller/controller_pod.go:201-222 | the filter keeps list order and leaves out no position of the type |
| Slots.GetPodSlices | pkg/controller/controller_pod.go:58-77 | a pod is in slice i if and only if it is listed and its index label is there and parses to i, for every list, so labels missing, malformed or out of range name no slice; each slice is the slot whose order SlotIsSubsequence gives |
| Slots.SliceMembers | pkg/controller/controller_pod.go:60-75 | the same of the slots in which the lemmas speak |
| Slots.SlotMembers | pkg/controller/controller_pod.go:60-75 | a slot holds exactly the listed pods whose label names it |
| Slots.SlotIsSubsequence | pkg/controller/controller_pod.go:58-77 | a slot keeps list order and leaves out no position that belongs there |
| Slots.SlotsPartition | pkg/controller/controller_pod.go:58-77 | the slots together are, as a multiset, exactly the listed pods whose label parses to an index below replicas |
| Slots.SlotsDisjoint | pkg/controller/controller_pod.go:58-77 | no pod is in two slots |
| Slots.ConfigExists | pkg/controller/controller_pod.go:125-127 | the silent early return of createNewPod is never taken from the slot loop |
| Slots.CreatedPodComesBack | pkg/controller/controller_pod.go:94-143 | for every job, slot and template, even one that sets the reserved labels, the pod made for slot i passes the pod control's checks, is claimed with no patch, passes the worker filter and lands in slot i and no other |
| Slots.WorkerIdentityAgrees | pkg/controller/controller_pod.go:109-141 | each container has the template's variables and exactly seven more, which it sees with the values of the job: redis host and port, NFS path, run id; shard id, index label and task index are one number, and the cluster list has NUM_SHARDS hosts, the one at that number being the general name made of the index label |
| Slots.AddedVariables | pkg/controller/controller_pod.go:109-141 | the seven variables by name, value and order, behind those of the template, in every container |
| Slots.CreatedPodIs | pkg/controller/controller_pod.go:94-143 | the five reserved labels override those of the template and all others stay; annotations and finalizers are the template's, and the job is the one owner, marked as controller |
| Slots.SelectorIs | pkg/controller/controller.go:384-390 | the selector of a job is the reserved labels without type and index |
| Slots.WorkersShareOneCluster | pkg/controller/config.go:62-109 | all workers are told one cluster of distinct hosts, and no two the same place in it |
| Slots.ShardIdsAre | pkg/controller/controller_pod.go:119-121 | over all slots the shard ids told to the containers are exactly 0 to replicas - 1, each once |
| Slots.ListedIff | pkg/controller/config.go:101-114 | the cluster list names a pod at its own place if and only if the pod bears the worker's general name |
| Slots.GeneratedNamesAreNotListed | pkg/controller/controller_utils.go:139-152 | no entry of the list names a pod whose name begins with any part of the created pod's prefix, long names cut by the server included, and goes on for fewer than eight characters |
| Counting.LoopCreates | pkg/controller/controller_pod.go:35-49 | the slot loop creates one pod for each empty slot up to and including the first whose creation fails, in order, and fails exactly if there is such a slot |
| Counting.LoopCounts | pkg/controller/status.go:92-106 | after an error-free loop each counter is the number of slots of its kind; filled slots count as active |
| Counting.LoopBounded | pkg/controller/status.go:92-106 | the counters never exceed the slots passed, so they stay within int32 |
| Counting.SlotsAre | pkg/controller/controller_pod.go:32-35 | slot i of a job holds exactly the claimed pods whose type label says worker and whose index label parses to i |
| Counting.StopsAt | pkg/controller/controller_pod.go:40-49 | a loop that fails stops at the empty slot whose creation failed, with that answer as its error and with the counters of the slots before |
| Counting.LoopConserves | pkg/controller/status.go:87-106 | Active + Succeeded + Failed + slots with several pods + single pods in another phase equals replicas |
| Counting.BranchesReadTheSlots | pkg/controller/status.go:40-84 | success is derived iff every slot holds one succeeded pod, failure iff some slot holds one failed pod, activity iff some slot is empty or pending or running |
| Counting.VerdictsExclude | pkg/controller/status.go:40-84 | slots that give success give neither failure nor activity |
| Conditions.SetConditionContract | pkg/controller/controller.go:488-504 | on any list without repeated types: types stay unique, the type has the new status and reason, others keep value and order, and the transition time survives when only the reason changes |
| Conditions.SetConditionPlaces | pkg/controller/controller.go:488-504 | on any list: where status and reason are as before nothing changes; else all conditions of other types stay in order and the new one comes last, field by field as given but for a transition time that survives with the status |
| Conditions.FoundSettled | pkg/controller/controller.go:488-504 | on any list the type is found afterwards as the condition before, the new one, or the new one with the transition time of before |
| Conditions.SetConditionIdempotent | pkg/controller/controller.go:488-504 | setting a condition twice is setting it once, on any list |
| Conditions.SetConditionElsewhere | pkg/controller/controller.go:488-504 | other types are found as before |
| Conditions.GetCondition | pkg/controller/controller.go:475-483 | the first condition of the type, if any |
| Conditions.FindFirst | pkg/controller/controller.go:475-483 | what is found is of the type, and no condition before it is |
| Conditions.FilterOutCondition | pkg/controller/controller.go:512-521 | all conditions of other types, in order |
| Conditions.WithoutIsSubsequence | pkg/controller/controller.go:512-521 | what is kept are, at increasing positions, all conditions of other types |
| Reconcile.Caffe2Job.SetCondition | pkg/controller/controller.go:488-504 | the status object changes in its condition list alone, to the list of which the contract above is proved |
| Reconcile.Caffe2Job.Add | pkg/controller/controller.go:399-400 | a job that is added gets the created condition, and the rest of its status stays |
| Reconcile.Caffe2Job.UpdateReplicaStatuses | pkg/controller/status.go:92-101 | one counter, chosen by the phase, is incremented on 32 bits; another phase changes nothing |
| Reconcile.Caffe2Job.UpdateStatus | pkg/controller/status.go:40-84 | the whole status afterwards, as the function read against the slots by PassReadsItsSlots |
| Reconcile.Controller.GetPodsForJob | pkg/controller/controller_pod.go:162-198 | for any job, deleting or not, lists the whole namespace, then claims; a failed list makes no further call |
| Reconcile.Controller.ReconcileSlot | pkg/controller/controller_pod.go:36-52 | one turn leads from the loop's state before a slot to the state after it, in status, log and error |
| Reconcile.Controller.ReconcileSlots | pkg/controller/controller_pod.go:35-52 | the loop in place ends in the state of the loop function, and stops at the first creation that fails |
| Reconcile.Controller.ReconcilePods | pkg/controller/controller_pod.go:21-55 | status, error and calls are those of filtering, bucketing, filling, counting and deriving; after a failed creation conditions and times are untouched |
| Reconcile.Controller.ReconcileJob | pkg/controller/controller.go:342-382 | a pass is list, claim, fill, send the status, each only if everything before went well; when it succeeds, and how it ends when it does not, PassSucceedsIffAllFine says from its calls and their answers alone |
| Reconcile.Controller.SyncJob | pkg/controller/controller.go:303-326 | a missing job is forgotten, a deleting one is left alone with no call, any other gets a pass; it is forgotten exactly if there was no error |
| StatusRuns.PassReadsItsSlots | pkg/controller/status.go:40-84 | the status after an error-free pass, type by type, is decided by the slots alone, for every replicas, and never records success together with failure or activity |
| StatusRuns.PassShows | pkg/controller/status.go:46-82 | the conditions that an error-free pass records for its slots, with type, status, reason, message and times |
| StatusRuns.AddShows | pkg/controller/controller.go:393-404 | a job that is added shows the created condition with its reason, message and times |
| StatusRuns.PassCounts | pkg/controller/controller_pod.go:32-54 | the counters after a pass are those of all slots or, if a creation failed, of the slots before it; then that answer is the error and nothing else of the status changes |
| StatusRuns.StatusSentIsConserved | pkg/controller/controller.go:365-381 | a status is sent only as the last call of a pass whose listing and claiming went well; it is the one just derived and its counters account for every slot of that pass's pod list |
| StatusRuns.StoppedPassIsSilent | pkg/controller/controller.go:365-381 | a pass in which a creation failed sends no status |
| StatusRuns.PassIsUpdate | pkg/controller/controller_pod.go:32-54 | whatever a pass meets, what it does to the status is one of the updates over which the run lemmas quantify |
| StatusRuns.StatusStaysSound | pkg/controller/status.go:46-82 | over every run without a reload types stay unique, each condition is true with its own reason, CompletionTime is set iff Succeeded is recorded, and with replicas > 0 a StartTime implies Running |
| StatusRuns.ConditionsOnlyGrow | pkg/controller/controller.go:488-521 | over every run without a reload each earlier condition list is a prefix of each later one |
| StatusRuns.TimesAreTheLast | pkg/controller/status.go:46-66 | over every run without a reload CompletionTime is the time of the last pass that counted all replicas as succeeded, and StartTime that of the last that counted all as active |
| StatusRuns.TimesAreOverwritten | pkg/controller/status.go:46-66 | two passes that find all replicas succeeded, or active, leave the time of the second |
| Passes.FailedFetchEndsThePass | pkg/controller/controller.go:345-350 | a pass whose listing or claiming fails creates nothing, sends no status and returns that error |
| Passes.VanishedJobCreatesNothing | pkg/controller/controller.go:345-350 | a matching orphan of a vanished job makes the pass fail, create nothing and send no status |
| Passes.PassStaysInNamespace | pkg/controller/controller_pod.go:179 | a pass that lists its namespace reads, patches and creates there alone |
| Passes.JobsWantNoCommonPod | pkg/controller/controller_pod.go:170-179 | two different jobs, of one namespace or two, never want the same listed pod by its labels |
| Passes.ClaimedIsItsOwn | pkg/controller/controller_ref_manager.go:169-204 | a pass claims only pods of its namespace that match its selector |
| Answers.PassSucceedsIffAllFine | pkg/controller/controller.go:342-382 | for any job, list and answers a pass has no error if and only if the list came back, the live read, if one was made, found the job alive, each patch was accepted or excused, each creation accepted or timed out, and the status sent and accepted; else it ends with the list refused, with failed claims and nothing created, with its first failed creation, or with its refused status, and its error is just that |
| Answers.FailedCreationIsReported | pkg/controller/controller_pod.go:143-156 | a creation of a pass that is answered by an error other than a timeout is its last call, and that answer is its error |
| Answers.PassOverFine | pkg/controller/controller_ref_manager.go:169-204 | claiming is without error if and only if each of its own calls is answered well |
| Answers.LoopFine | pkg/controller/controller_pod.go:35-49 | the slot loop fails if and only if one of its creations is answered by an error other than a timeout; that is its last call and its error |
| Verdicts.LockStays | pkg/controller/controller_pod.go:35-52 | a terminal pod that a cache shows in a slot, and that a pass would claim, is shown there in the same phase by every later cache |
| Verdicts.SingleAgreesWithLock | pkg/controller/controller_pod.go:35-52 | in an error-free pass a single pod in a slot agrees in phase with every pod that the cache of the pass shows in that slot to be claimed |
| Verdicts.PassVerdicts | pkg/controller/status.go:63-82 | a pass that derives success has locked every slot in Succeeded and none in Failed; one that derives failure has a slot locked in Failed and not all in Succeeded |
| Verdicts.InvHolds | pkg/controller/controller.go:342-382 | over every run with lagging caches, doubled pods and lost status updates, the recorded verdicts are locked in the cache and exclude each other |
| Verdicts.PassIsStep | pkg/controller/controller.go:342-382 | a pass of the controller that lists the cache is a step of the runs of this module, with the status it leaves |
| Verdicts.SucceededAndFailedExclude | pkg/controller/status.go:63-82 | if any status of a run, cached or saved, records Succeeded, then no status of the run, before or after, records Failed |
| Verdicts.StatusesStaySound | pkg/controller/controller.go:365-381 | over every run, although a status can be lost and the cached one reloaded, both statuses keep unique types, fixed reasons and times that go with Succeeded and Running, and the cached conditions extend the saved ones |
| Verdicts.SavedOnlyGrows | pkg/controller/controller.go:416-419 | over every such run each saved condition list is a prefix of every later one |
| Convergence.CreatedPodsMake | pkg/controller/controller_pod.go:94-143 | the pods that createNewPod makes, under any names, UIDs and phases, fill their own slot and no other |
| Convergence.PassSeesOccupied | pkg/controller/controller_pod.go:35-38 | on an up-to-date list of a tidy job a pass sends no patch, finds exactly the occupied slots, and never several pods where there is one |
| Convergence.LoopAsksForAttempted | pkg/controller/controller_pod.go:40-46 | the slot loop asks for exactly the empty slots that no failed creation precedes |
| Convergence.PassBrings | pkg/controller/controller_pod.go:40-46 | a whole pass of the controller on an up-to-date list has a creation call for slot i if and only if the slot is empty and no creation before it failed |
| Convergence.RoundIsPass | pkg/controller/controller_pod.go:40-46 | the pods that a pass of the run lemmas adds are exactly those the server makes of the creation calls of the controller's pass |
| Convergence.PassFills | pkg/controller/controller_pod.go:40-46 | a pass fills exactly the attempted slots whose pod became visible |
| Convergence.LatePodsDecide | pkg/controller/controller_pod.go:143-156 | counting unlisted pods too, a pass keeps one pod per slot if and only if it brings no pod into a slot that an unlisted pod waits for |
| Convergence.PassKeepsAtMostOne | pkg/controller/controller_pod.go:35-52 | before a pass: every choice of answers and effects keeps one pod per slot, unlisted pods counted, if and only if no unlisted pod waits for a slot that the list shows empty |
| Convergence.UnlistedPodDoublesSlot | pkg/controller/controller_pod.go:86-93 | a job of one worker, a creation taken for a success whose pod the next list does not show, and one more pass give slot 0 two pods |
| Convergence.LateCreationDoublesSlot | pkg/controller/controller_pod.go:143-156 | the same with a creation that times out and succeeds late |
| Convergence.StaleListDoublesSlot | pkg/controller/controller_pod.go:86-93 | the same with an accepted creation and a stale list |
| Convergence.PassShrinksEmptySlots | pkg/controller/controller_pod.go:35-52 | the empty slots after a pass are those before minus the filled ones, so a pass that makes a pod visible has strictly fewer left |
| Convergence.FullJobIsStable | pkg/controller/controller_pod.go:35-52 | a full job creates nothing; a pass whose creations are all accepted fills the job |
| Convergence.RunKeepsOneIff | pkg/controller/controller_pod.go:35-52 | over any run, with pods that get listed late, there is at most one pod per slot, unlisted ones counted, if and only if every pass brought no pod into a slot that an unlisted pod waited for |
| Convergence.SafeRunKeepsOne | pkg/controller/controller_pod.go:35-52 | a run in which nothing waits before each pass keeps one pod per slot, whatever the answers |
| Convergence.PromptRunKeepsOne | pkg/controller/controller_pod.go:35-52 | a run in which every made pod shows in the next list keeps one pod per slot and never has an unlisted pod |
| Convergence.EveryRunKeepsOneIff | pkg/controller/controller_pod.go:35-52 | before a run: every run of two or more passes in which accepted pods are listed at once keeps one pod per slot, unlisted ones counted, if and only if no slot is empty at the start |
| Convergence.RoundsConverge | pkg/controller/controller_pod.go:35-52 | over any run no slot gets empty again, and each round that makes or lists a missing pod leaves fewer empty slots until there is none |
| Convergence.RunStaysTidy | pkg/controller/controller_pod.go:35-52 | over any run every pod stays the job's own or none of its business |
| Convergence.JobFillsUp | pkg/controller/controller_pod.go:35-52 | after `replicas` such rounds every slot is filled, and holds exactly one of all the pods there are if and only if every pass kept clear of the unlisted ones |
| RandString.GroupsAreDigits | pkg/util/util.go:50-52 | the 6-bit groups of a draw are its base-64 digits: with what is shifted out they give the draw back |
| RandString.GroupIs | pkg/util/util.go:50-71 | group k is the six bits at place k % 10, counted from the lowest, of draw k / 10 |
| RandString.AcceptedInAlphabet | pkg/util/util.go:65-68 | every group that passes the rejection names a letter |
| RandString.LoopFilters | pkg/util/util.go:61-71 | after any number of turns the loop has picked exactly the acceptable ones among that many groups of the stream |
| RandString.AcceptedAre | pkg/util/util.go:65-68 | those are the groups below 36, at increasing positions and with none left out |
| RandString.DrawsAre | pkg/util/util.go:58-63 | k groups take k / 10 draws, rounded up, and one at the least |
| RandString.TurnsFixDraws | pkg/util/util.go:61-71 | the number of turns fixes the number of draws: ten groups each but for the last, and one at the least |
| RandString.Source.RandString | pkg/util/util.go:58-73 | read backwards the text is the first n acceptable groups of the draws to come, no group beyond them is examined, and the draws made are those that many groups need; it ends whenever the stream holds n acceptable groups |
| RandString.TextIsLetters | pkg/util/util.go:47 | every character is the letter of the alphabet that its index names |
| RandString.RandStringIsLabelIff | pkg/util/util.go:54-58 | the text of n letters is a DNS-1035 label if and only if n is 1 to 63 and the n-th acceptable group of the draws to come, known before the call, is at least 10 |
| RandString.ZeroDrawsGiveNoLabel | pkg/util/util.go:54-58 | for every n, if the n / 10 + 1 draws that n groups take are zero, the loop ends with a text that is no label |
| RandString.FirstDigitGivesNoLabel | pkg/util/util.go:54-58 | a text of one letter is no label when the first group is below 10 |
| Retry.Ticker.Receive | pkg/util/retryutil/retry_util.go:59 | a receive from the one-place channel, with ticks dropped while it is full, ends at the moment for which NextCallStart and TicksPast give times and ticks |
| Retry.Retry | pkg/util/retryutil/retry_util.go:41-62 | f is called up to its first success or error and never more than maxRetries times; the retry error is returned iff all maxRetries calls were undecided; a count that is not positive is refused without a call |
| Retry.NextCallStart | pkg/util/retryutil/retry_util.go:45-60 | the next call starts when this one has ended and the first tick not yet past at its start is due, whichever is later: a tick that fell due during the call is not lost |
| Retry.TicksPast | pkg/util/retryutil/retry_util.go:45-60 | the ticks past at the start of a call are those due by then, so of several that fell due during a call only one is kept |
| Retry.CallsFollowTicks | pkg/util/retryutil/retry_util.go:45-60 | call k starts after at least k ticks have fallen due, and before the next one |
| Retry.CallsAreNotEarly | pkg/util/retryutil/retry_util.go:37-40 | call k starts no earlier than k intervals after the ticker starts, however long calls take |
| Retry.OnScheduleIff | pkg/util/retryutil/retry_util.go:37-40 | the first n + 1 calls start exactly on schedule if and only if the first n took no longer than the interval |

## Left out

- The generated clientset, listers, informers, fakes and deep copies; the work queue, leader election, event recorder and logging. What they choose (which job runs next, how stale a list is) is arbitrary in the model.
- `ClaimServices`, `AdoptService`, `ReleaseService` and the service controls: a copy of the pod path, or unused.
- The optional filters of `ClaimPods` and a nil `CanAdoptFunc`: the controller passes no filter and always a function.
- The text of JSON and of strategic merge patches: patches and CAFFE2_CONFIG are structured values, and a printed config is taken as not empty.
- The server side of patches and its owner-reference validation: taken from the comments at controller_ref_manager.go:212 and 233-242; the API server is not part of this model.
- Validity of label values and of names in apimachinery, the selector error path it guards, and the splitting of work-queue keys into namespace and name.
- The server's completion of a pod's name: every cut of the prefix and every suffix are allowed. An owner's name is taken as not empty, since the prefix check of the source panics on one.
- Defaulting and validation of the spec: used only to justify the preconditions; the controller never calls validation.
- `addPod` with `resolveControllerRef`, and the empty `updatePod` and `deletePod`: they only decide which job is queued.
- Expectations: they are commented out in the source (controller_pod.go:86-93).
- Clocks: the time of a pass is one opaque value, although the source reads the clock several times in a pass.
- Pods in another phase and slots with several pods are counted nowhere; LoopConserves names them as the remainder.
- Naming.GenClusterSpec: requires replicas >= 0, because the slot loop before it cannot be reached with a negative number.
- PodFactory.PodControl.GenCaffe2Config: takes the redis port as not negative and the spec as defaulted.
- Strconv: the integer syntax is that of the Go versions the repository builds with (1.8 to 1.10), without underscores and without the 0b and 0o prefixes.
- Verdicts.SucceededAndFailedExclude: assumes that matching pods are neither removed nor relabelled nor taken by another controller, that terminal phases stick and that the cache only moves forward; without this a failed pod could be deleted and replaced.
- Convergence.RunKeepsOneIff: no pod is removed or relabelled and nobody leaves orphans for the job; a list may leave out pods that it has not shown yet, but no others.
- RandString.Source.RandString: the ghost argument `enough` says where the stream has n acceptable groups. By the contract a run that ends has found n of them, so the loop ends exactly for such streams. The shared global source and its data races are not modelled.
- Reconcile.Caffe2Job.Add: addCaffe2Job also applies the defaults to the spec and queues the job; the spec is taken as defaulted and the queue is not part of this model.
- Retry.Retry: the calls of f are given by their outcomes and durations; `tick.Stop` has no effect to state.
