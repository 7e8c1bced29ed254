/** The condition list of a job (controller.go): lookup, replacement, and what it keeps. */
module Conditions {
  import opened Wrappers
  import opened Types

  /** The first condition of a type. */
  function Find(conditions: seq<Condition>, kind: ConditionType): Option<Condition> {
    if |conditions| == 0 then None
    else
      var k := |conditions| - 1;
      var earlier := Find(conditions[..k], kind);
      if earlier.Some? then earlier
      else if conditions[k].kind == kind then Some(conditions[k])
      else None
  }

  /** All conditions of other types, in order. */
  function Without(conditions: seq<Condition>, kind: ConditionType): seq<Condition> {
    if |conditions| == 0 then []
    else
      var k := |conditions| - 1;
      Without(conditions[..k], kind) + (if conditions[k].kind == kind then [] else [conditions[k]])
  }

  /** The list after a condition is set. */
  function WithCondition(conditions: seq<Condition>, c: Condition): seq<Condition> {
    var current := Find(conditions, c.kind);
    if current.Some? && current.value.status == c.status && current.value.reason == c.reason then conditions
    else if current.Some? && current.value.status == c.status then
      Without(conditions, c.kind) + [c.(lastTransitionTime := current.value.lastTransitionTime)]
    else Without(conditions, c.kind) + [c]
  }

  predicate UniqueTypes(conditions: seq<Condition>) {
    forall i, j :: 0 <= i < j < |conditions| ==> conditions[i].kind != conditions[j].kind
  }

  lemma {:induction false} FindIs(conditions: seq<Condition>, kind: ConditionType)
    ensures Find(conditions, kind).None? <==> forall c :: c in conditions ==> c.kind != kind
    ensures Find(conditions, kind).Some? ==>
      Find(conditions, kind).value in conditions && Find(conditions, kind).value.kind == kind
  {
    if |conditions| > 0 {
      FindIs(conditions[..|conditions| - 1], kind);
      assert conditions == conditions[..|conditions| - 1] + [conditions[|conditions| - 1]];
    }
  }

  /** What is found is the first condition of the type. */
  lemma {:induction false} FindFirst(conditions: seq<Condition>, kind: ConditionType) returns (k: nat)
    requires Find(conditions, kind).Some?
    ensures k < |conditions| && Find(conditions, kind) == Some(conditions[k]) && conditions[k].kind == kind
    ensures forall j :: 0 <= j < k ==> conditions[j].kind != kind
  {
    var init := conditions[..|conditions| - 1];
    if Find(init, kind).Some? {
      k := FindFirst(init, kind);
    } else {
      k := |conditions| - 1;
      FindIs(init, kind);
      assert forall j :: 0 <= j < k ==> conditions[j] in init;
    }
  }

  /** `at` gives increasing positions of conditions of other types. */
  predicate PicksOthers(conditions: seq<Condition>, kind: ConditionType, kept: seq<Condition>, at: seq<nat>) {
    && |at| == |kept|
    && (forall j :: 0 <= j < |at| ==>
          at[j] < |conditions| && kept[j] == conditions[at[j]] && conditions[at[j]].kind != kind)
    && forall i, j :: 0 <= i < j < |at| ==> at[i] < at[j]
  }

  predicate CoversOthers(conditions: seq<Condition>, kind: ConditionType, at: seq<nat>) {
    forall i :: 0 <= i < |conditions| && conditions[i].kind != kind ==> i in at
  }

  lemma PicksOthersNext(conditions: seq<Condition>, kind: ConditionType, kept: seq<Condition>, at: seq<nat>,
                        c: Condition, more: seq<Condition>)
    requires PicksOthers(conditions, kind, kept, at) && more == conditions + [c]
    ensures PicksOthers(more, kind, kept, at)
    ensures c.kind != kind ==> PicksOthers(more, kind, kept + [c], at + [|conditions|])
  {
  }

  lemma CoversOthersNext(conditions: seq<Condition>, kind: ConditionType, at: seq<nat>, c: Condition,
                         more: seq<Condition>)
    requires CoversOthers(conditions, kind, at) && more == conditions + [c]
    ensures CoversOthers(more, kind, if c.kind != kind then at + [|conditions|] else at)
  {
    var all := at + [|conditions|];
    assert all[|at|] == |conditions| && forall i :: i in at ==> i in all;
  }

  /** What is kept are all conditions of other types, in order. */
  lemma {:induction false} WithoutIsSubsequence(conditions: seq<Condition>, kind: ConditionType)
    returns (at: seq<nat>)
    ensures PicksOthers(conditions, kind, Without(conditions, kind), at) && CoversOthers(conditions, kind, at)
  {
    if |conditions| == 0 {
      at := [];
    } else {
      var k := |conditions| - 1;
      var before := WithoutIsSubsequence(conditions[..k], kind);
      PicksOthersNext(conditions[..k], kind, Without(conditions[..k], kind), before, conditions[k], conditions);
      CoversOthersNext(conditions[..k], kind, before, conditions[k], conditions);
      at := if conditions[k].kind != kind then before + [k] else before;
    }
  }

  lemma FindAppended(conditions: seq<Condition>, c: Condition, kind: ConditionType)
    ensures Find(conditions + [c], kind) ==
      if Find(conditions, kind).Some? then Find(conditions, kind) else if c.kind == kind then Some(c) else None
  {
    assert (conditions + [c])[..|conditions|] == conditions;
  }

  lemma {:induction false} FindInPrefix(conditions: seq<Condition>, kind: ConditionType, n: nat)
    requires n <= |conditions| && Find(conditions[..n], kind).Some?
    ensures Find(conditions, kind) == Find(conditions[..n], kind)
  {
    if n == |conditions| {
      assert conditions[..n] == conditions;
    } else {
      var k := |conditions| - 1;
      assert conditions[..k][..n] == conditions[..n];
      FindInPrefix(conditions[..k], kind, n);
    }
  }

  lemma {:induction false} WithoutMembers(conditions: seq<Condition>, kind: ConditionType, c: Condition)
    ensures c in Without(conditions, kind) <==> c in conditions && c.kind != kind
  {
    if |conditions| > 0 {
      var k := |conditions| - 1;
      WithoutMembers(conditions[..k], kind, c);
      assert conditions == conditions[..k] + [conditions[k]];
    }
  }

  lemma {:induction false} WithoutUnique(conditions: seq<Condition>, kind: ConditionType)
    requires UniqueTypes(conditions)
    ensures UniqueTypes(Without(conditions, kind))
  {
    if |conditions| > 0 {
      var k := |conditions| - 1;
      WithoutUnique(conditions[..k], kind);
      var kept := Without(conditions[..k], kind);
      forall i | 0 <= i < |kept| ensures kept[i].kind != conditions[k].kind {
        WithoutMembers(conditions[..k], kind, kept[i]);
      }
    }
  }

  lemma {:induction false} WithoutNone(conditions: seq<Condition>, kind: ConditionType)
    ensures Find(conditions, kind).None? ==> Without(conditions, kind) == conditions
  {
    if |conditions| > 0 {
      WithoutNone(conditions[..|conditions| - 1], kind);
    }
  }

  lemma {:induction false} FindInWithout(conditions: seq<Condition>, a: ConditionType, b: ConditionType)
    ensures Find(Without(conditions, a), b) == if a == b then None else Find(conditions, b)
  {
    if |conditions| > 0 {
      var k := |conditions| - 1;
      FindInWithout(conditions[..k], a, b);
      FindAppended(Without(conditions[..k], a), conditions[k], b);
      assert conditions[k].kind == a ==> Without(conditions, a) == Without(conditions[..k], a);
    }
  }

  lemma WithoutAppended(conditions: seq<Condition>, c: Condition)
    ensures Without(conditions + [c], c.kind) == Without(conditions, c.kind)
  {
    assert (conditions + [c])[..|conditions|] == conditions;
  }

  lemma WithoutTwice(conditions: seq<Condition>, kind: ConditionType)
    ensures Without(Without(conditions, kind), kind) == Without(conditions, kind)
  {
    FindInWithout(conditions, kind, kind);
    WithoutNone(Without(conditions, kind), kind);
  }

  lemma SetKeepsUnique(conditions: seq<Condition>, c: Condition)
    requires UniqueTypes(conditions)
    ensures UniqueTypes(WithCondition(conditions, c))
  {
    var kept := Without(conditions, c.kind);
    WithoutUnique(conditions, c.kind);
    forall i | 0 <= i < |kept| ensures kept[i].kind != c.kind {
      WithoutMembers(conditions, c.kind, kept[i]);
    }
  }

  /** Setting a condition, on any list without repeated types: types stay unique, the type looked
      up afterwards has the new status and reason, every other type keeps its condition and the
      relative order, and a transition time survives when only the reason changes. */
  lemma SetConditionContract(conditions: seq<Condition>, c: Condition)
    requires UniqueTypes(conditions)
    ensures
      var after := WithCondition(conditions, c);
      var before, now := Find(conditions, c.kind), Find(after, c.kind);
      && UniqueTypes(after)
      && now.Some? && now.value.status == c.status && now.value.reason == c.reason
      && Without(after, c.kind) == Without(conditions, c.kind)
      && (before.Some? && before.value.status == c.status ==>
          now.value.lastTransitionTime == before.value.lastTransitionTime)
      && (before.Some? && before.value.status == c.status && before.value.reason == c.reason ==> now == before)
      && (before.None? || before.value.status != c.status ==> now == Some(c))
  {
    SetKeepsUnique(conditions, c);
    FindIs(conditions, c.kind);
    if WithCondition(conditions, c) != conditions {
      var kept := Without(conditions, c.kind);
      var added := WithCondition(conditions, c)[|kept|];
      FindInWithout(conditions, c.kind, c.kind);
      FindAppended(kept, added, c.kind);
      WithoutAppended(kept, added);
      WithoutTwice(conditions, c.kind);
    }
  }

  /** Where status and reason are as before nothing changes at all; else the new condition comes last, after all
      those of other types, as it was given but for a transition time that survives with the status. */
  lemma SetConditionPlaces(conditions: seq<Condition>, c: Condition) returns (at: seq<nat>)
    ensures
      var before, after := Find(conditions, c.kind), WithCondition(conditions, c);
      if before.Some? && before.value.status == c.status && before.value.reason == c.reason then after == conditions
      else
        && |after| > 0
        && PicksOthers(conditions, c.kind, after[..|after| - 1], at) && CoversOthers(conditions, c.kind, at)
        && after[|after| - 1] == Condition(
             c.kind, c.status, c.reason, c.message, c.lastUpdateTime,
             if before.Some? && before.value.status == c.status then before.value.lastTransitionTime
             else c.lastTransitionTime)
  {
    at := WithoutIsSubsequence(conditions, c.kind);
    var after := WithCondition(conditions, c);
    assert after != conditions ==> after[..|after| - 1] == Without(conditions, c.kind);
  }

  /** What a condition is kept as, given the one found before: that one if status and reason are the same, else
      itself, with the transition time of before if only the reason is new. */
  function Settled(before: Option<Condition>, c: Condition): Condition {
    if before.None? || before.value.status != c.status then c
    else if before.value.reason == c.reason then before.value
    else Condition(c.kind, c.status, c.reason, c.message, c.lastUpdateTime, before.value.lastTransitionTime)
  }

  lemma FoundSettled(conditions: seq<Condition>, c: Condition)
    ensures Find(WithCondition(conditions, c), c.kind) == Some(Settled(Find(conditions, c.kind), c))
  {
    var before := Find(conditions, c.kind);
    FindIs(conditions, c.kind);
    FindInWithout(conditions, c.kind, c.kind);
    FindAppended(Without(conditions, c.kind), Settled(before, c), c.kind);
  }

  /** Setting a condition twice is setting it once. */
  lemma SetConditionIdempotent(conditions: seq<Condition>, c: Condition)
    ensures WithCondition(WithCondition(conditions, c), c) == WithCondition(conditions, c)
  {
    var kept := Without(conditions, c.kind);
    FindInWithout(conditions, c.kind, c.kind);
    if WithCondition(conditions, c) != conditions {
      FindAppended(kept, WithCondition(conditions, c)[|kept|], c.kind);
    }
  }

  /** Other types are found as before. */
  lemma SetConditionElsewhere(conditions: seq<Condition>, c: Condition, kind: ConditionType)
    requires kind != c.kind
    ensures Find(WithCondition(conditions, c), kind) == Find(conditions, kind)
  {
    var kept := Without(conditions, c.kind);
    FindInWithout(conditions, c.kind, kind);
    if WithCondition(conditions, c) != conditions {
      FindAppended(kept, WithCondition(conditions, c)[|kept|], kind);
    }
  }

  method GetCondition(conditions: seq<Condition>, kind: ConditionType) returns (found: Option<Condition>)
    ensures found == Find(conditions, kind)
  {
    for i := 0 to |conditions|
      invariant Find(conditions[..i], kind).None?
    {
      assert conditions[..i + 1][..i] == conditions[..i];
      if conditions[i].kind == kind {
        FindInPrefix(conditions, kind, i + 1);
        return Some(conditions[i]);
      }
    }
    assert conditions[..|conditions|] == conditions;
    found := None;
  }

  method FilterOutCondition(conditions: seq<Condition>, kind: ConditionType) returns (kept: seq<Condition>)
    ensures kept == Without(conditions, kind)
  {
    kept := [];
    for i := 0 to |conditions|
      invariant kept == Without(conditions[..i], kind)
    {
      assert conditions[..i + 1][..i] == conditions[..i];
      if conditions[i].kind == kind {
        continue;
      }
      kept := kept + [conditions[i]];
    }
    assert conditions[..|conditions|] == conditions;
  }
}
