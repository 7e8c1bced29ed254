/** The API server's answer to the two pod patches: both name a pod and carry the UID it
    is expected to have, and both go through the server's owner-reference validation. */
module Server {
  import opened Wrappers
  import opened Kube
  import opened Api

  type Key = (string, string)

  function KeyOf(pod: Pod): Key {
    (pod.namespace, pod.name)
  }

  function PatchKey(patch: PodPatch): Key {
    (patch.namespace, patch.name)
  }

  predicate HasUid(refs: seq<OwnerRef>, uid: UID) {
    exists i :: 0 <= i < |refs| && refs[i].uid == uid
  }

  /** Owner references are merged by UID: the first one with the UID is overwritten,
      otherwise the reference is added at the end. */
  function MergeRef(refs: seq<OwnerRef>, ref: OwnerRef): seq<OwnerRef> {
    if |refs| == 0 then [ref]
    else if refs[0].uid == ref.uid then [ref] + refs[1..]
    else [refs[0]] + MergeRef(refs[1..], ref)
  }

  function RemoveUid(refs: seq<OwnerRef>, uid: UID): seq<OwnerRef> {
    if |refs| == 0 then []
    else (if refs[0].uid == uid then [] else [refs[0]]) + RemoveUid(refs[1..], uid)
  }

  /** The pod after the patch, or the error the server answers. */
  function Patched(pods: map<Key, Pod>, patch: PodPatch): Result<Pod, Error> {
    var key := PatchKey(patch);
    if key !in pods then Err(Status(NotFound))
    else if pods[key].uid != patch.podUid then Err(Status(Invalid))
    else
      var pod := pods[key];
      match patch
      case AdoptPatch(_, _, _, ref) =>
        var refs := MergeRef(pod.ownerRefs, ref);
        if AtMostOneController(refs) then Ok(pod.(ownerRefs := refs)) else Err(Status(Invalid))
      case ReleasePatch(_, _, _, uid) =>
        if pod.ownerRefs == [] then Err(Status(Invalid))
        else Ok(pod.(ownerRefs := RemoveUid(pod.ownerRefs, uid)))
  }

  /** A patch is refused exactly if no pod has its name, if the pod's UID is another, if the merge would bring a
      second controller, or if there is no reference to remove; a pod that is gone is the one answer 404. */
  lemma PatchedIff(pods: map<Key, Pod>, patch: PodPatch)
    ensures
      var key := (patch.namespace, patch.name);
      && (Patched(pods, patch) == Err(Status(NotFound)) <==> key !in pods)
      && (Patched(pods, patch).Ok? <==>
            && key in pods && pods[key].uid == patch.podUid
            && (patch.AdoptPatch? ==> AtMostOneController(MergeRef(pods[key].ownerRefs, patch.ref)))
            && (patch.ReleasePatch? ==> pods[key].ownerRefs != []))
      && (Patched(pods, patch).Err? ==>
            Patched(pods, patch).error.IsNotFound() || Patched(pods, patch).error.IsInvalid())
  {
  }

  /** A removal takes away the references with the UID and no others. */
  lemma {:induction false} RemoveMembers(refs: seq<OwnerRef>, uid: UID, r: OwnerRef)
    ensures r in RemoveUid(refs, uid) <==> r in refs && r.uid != uid
  {
    if |refs| > 0 {
      RemoveMembers(refs[1..], uid, r);
      assert refs == [refs[0]] + refs[1..];
    }
  }

  /** Merging leaves the references of every other owner exactly as they were. */
  lemma {:induction false} MergeKeepsOthers(refs: seq<OwnerRef>, ref: OwnerRef)
    ensures RemoveUid(MergeRef(refs, ref), ref.uid) == RemoveUid(refs, ref.uid)
    ensures ref in MergeRef(refs, ref)
  {
    if |refs| == 0 {
      assert [ref][1..] == [];
      assert RemoveUid([ref][1..], ref.uid) == [];
    } else if refs[0].uid == ref.uid {
      assert MergeRef(refs, ref)[1..] == refs[1..];
    } else {
      MergeKeepsOthers(refs[1..], ref);
      assert MergeRef(refs, ref)[1..] == MergeRef(refs[1..], ref);
    }
  }

  /** A controller reference survives a merge by another owner that the server accepts. */
  lemma {:induction false} MergeKeepsController(refs: seq<OwnerRef>, ref: OwnerRef)
    requires ref.IsController()
    requires ControllerIn(refs).Some? && ControllerIn(refs).value.uid != ref.uid
    ensures !AtMostOneController(MergeRef(refs, ref))
  {
    var i := ControllerInFound(refs);
    var m := MergePlaces(refs, ref, i);
    var merged := MergeRef(refs, ref);
    assert merged[i].IsController() && merged[m].IsController() && i != m;
  }

  /** Where the merged reference lands, and that position i of another owner is untouched. */
  lemma {:induction false} MergePlaces(refs: seq<OwnerRef>, ref: OwnerRef, i: nat) returns (m: nat)
    requires i < |refs| && refs[i].uid != ref.uid
    ensures i < |MergeRef(refs, ref)| && MergeRef(refs, ref)[i] == refs[i]
    ensures m < |MergeRef(refs, ref)| && MergeRef(refs, ref)[m] == ref && m != i
  {
    if refs[0].uid == ref.uid {
      m := 0;
    } else if i == 0 {
      m := MergeLands(refs[1..], ref);
      m := m + 1;
    } else {
      m := MergePlaces(refs[1..], ref, i - 1);
      m := m + 1;
    }
  }

  lemma {:induction false} MergeLands(refs: seq<OwnerRef>, ref: OwnerRef) returns (m: nat)
    ensures m < |MergeRef(refs, ref)| && MergeRef(refs, ref)[m] == ref
  {
    if |refs| == 0 || refs[0].uid == ref.uid {
      m := 0;
    } else {
      m := MergeLands(refs[1..], ref);
      m := m + 1;
    }
  }

  /** An uncontrolled pod can be adopted, and is then controlled by the adopter. */
  lemma {:induction false} MergeIntoOrphan(refs: seq<OwnerRef>, ref: OwnerRef)
    requires ref.IsController() && ControllerIn(refs) == None
    ensures AtMostOneController(MergeRef(refs, ref))
    ensures ControllerIn(MergeRef(refs, ref)) == Some(ref)
  {
    if |refs| == 0 {
    } else if refs[0].uid == ref.uid {
      var merged := MergeRef(refs, ref);
      forall j | 0 < j < |merged| ensures !merged[j].IsController() {
        if merged[j].IsController() { ControllerInIs(refs, j); }
      }
    } else {
      MergeIntoOrphan(refs[1..], ref);
      var merged := MergeRef(refs, ref);
      assert merged[1..] == MergeRef(refs[1..], ref);
      forall i, j | 0 <= i < j < |merged| ensures !(merged[i].IsController() && merged[j].IsController()) {
        if i > 0 {
          assert merged[i] == merged[1..][i - 1] && merged[j] == merged[1..][j - 1];
        }
      }
    }
  }

  /** Removing one owner keeps the server's rule and every other controller. */
  lemma {:induction false} RemoveKeepsController(refs: seq<OwnerRef>, uid: UID)
    ensures ControllerIn(refs).Some? && ControllerIn(refs).value.uid != uid ==>
      ControllerIn(RemoveUid(refs, uid)) == ControllerIn(refs)
    ensures ControllerIn(refs) == None ==> ControllerIn(RemoveUid(refs, uid)) == None
    ensures AtMostOneController(refs) && ControllerIn(refs).Some? && ControllerIn(refs).value.uid == uid ==>
      ControllerIn(RemoveUid(refs, uid)) == None
  {
    if |refs| > 0 {
      RemoveKeepsController(refs[1..], uid);
      var rest := RemoveUid(refs[1..], uid);
      if refs[0].uid == uid {
        assert RemoveUid(refs, uid) == rest;
        if refs[0].IsController() && AtMostOneController(refs) {
          forall i | 0 <= i < |refs| - 1 ensures !refs[1..][i].IsController() {
            assert refs[1..][i] == refs[i + 1];
          }
          if ControllerIn(refs[1..]).Some? {
            var i := ControllerInFound(refs[1..]);
            assert false;
          }
        }
      } else {
        assert RemoveUid(refs, uid) == [refs[0]] + rest;
        assert RemoveUid(refs, uid)[1..] == rest;
      }
    }
  }

  lemma {:induction false} RemoveKeepsAtMostOne(refs: seq<OwnerRef>, uid: UID)
    requires AtMostOneController(refs)
    ensures AtMostOneController(RemoveUid(refs, uid))
    ensures forall r :: r in RemoveUid(refs, uid) ==> r in refs
    ensures !HasUid(RemoveUid(refs, uid), uid)
  {
    if |refs| > 0 {
      RemoveKeepsAtMostOne(refs[1..], uid);
      var rest, removed := RemoveUid(refs[1..], uid), RemoveUid(refs, uid);
      forall r | r in rest ensures r in refs {
        assert r in refs[1..];
      }
      if refs[0].uid != uid && refs[0].IsController() {
        forall j | 0 < j < |removed| ensures !removed[j].IsController() {
          assert removed[j] in refs[1..];
          var i :| 0 <= i < |refs| - 1 && refs[1..][i] == removed[j];
          assert refs[i + 1] == removed[j];
        }
      }
      assert removed == (if refs[0].uid == uid then rest else [refs[0]] + rest);
    }
  }
}
