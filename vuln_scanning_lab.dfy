/** The lab-progress state of the vulnerability-scanning lab page: the list of step ids
    the user has ticked off, toggled one step at a time by the step's check button. */
module VulnScanningLab {
  import opened Seqs

  /** The ids of the five lab steps the page lists, in order. */
  const LabStepIds: seq<int> := [1, 2, 3, 4, 5]

  /** `completedSteps` starts out empty. */
  const InitialCompleted: seq<int> := []

  /** `prev.filter(id => id !== stepId)`: every occurrence of the id goes, every other id keeps
      its place and its multiplicity. */
  function RemoveAll(completed: seq<int>, stepId: int): (r: seq<int>)
    ensures stepId !in r && IsSubsequence(r, completed)
    ensures forall x :: x != stepId ==> multiset(r)[x] == multiset(completed)[x]
    ensures forall x :: x in r <==> x in completed && x != stepId
  {
    var r := Filter(completed, id => id != stepId);
    FilterIsSubsequence(completed, id => id != stepId);
    assert forall x :: multiset(r)[x] == if x != stepId then multiset(completed)[x] else 0 by {
      forall x ensures multiset(r)[x] == if x != stepId then multiset(completed)[x] else 0 {
        FilterMultiset(completed, id => id != stepId, x);
      }
    }
    r
  }

  /** `toggleStep`: append the id when it is absent, otherwise drop every occurrence of it. */
  function ToggleStep(completed: seq<int>, stepId: int): (r: seq<int>)
    // an absent id goes to the end, everything else stays where it was
    ensures stepId !in completed ==> r == completed + [stepId]
    // a present id disappears entirely; the rest keep their order and multiplicity
    ensures stepId in completed ==>
      stepId !in r && IsSubsequence(r, completed) &&
      forall x :: x != stepId ==> multiset(r)[x] == multiset(completed)[x]
    // membership of stepId flips, membership of every other id is unchanged
    ensures forall x :: x in r <==> (if x == stepId then stepId !in completed else x in completed)
  {
    if stepId in completed then RemoveAll(completed, stepId) else completed + [stepId]
  }

  /** `completedSteps.includes(step.id)`: whether the page shows a step as done. */
  function IsCompleted(completed: seq<int>, stepId: int): (b: bool)
    ensures b <==> exists i :: 0 <= i < |completed| && completed[i] == stepId
    ensures b <==> multiset(completed)[stepId] > 0
  {
    stepId in completed
  }

  /** The check mark of the toggled step flips and no other step's mark changes. */
  lemma ToggleFlipsCompletion(completed: seq<int>, stepId: int, other: int)
    requires other != stepId
    ensures IsCompleted(ToggleStep(completed, stepId), stepId) == !IsCompleted(completed, stepId)
    ensures IsCompleted(ToggleStep(completed, stepId), other) == IsCompleted(completed, other)
  {
  }

  /** Toggling never introduces a duplicate. */
  lemma ToggleKeepsNoDuplicates(completed: seq<int>, stepId: int)
    requires NoDuplicates(completed)
    ensures NoDuplicates(ToggleStep(completed, stepId))
  {
    var r := ToggleStep(completed, stepId);
    if stepId in completed {
      forall x | x in r ensures multiset(r)[x] <= 1 {
        NoDuplicatesOnce(completed, x);
      }
      AtMostOnceNoDuplicates(r);
    }
  }

  /** A sequence in which every member occurs at most once has no duplicates. */
  lemma AtMostOnceNoDuplicates(s: seq<int>)
    requires forall x :: x in s ==> multiset(s)[x] <= 1
    ensures NoDuplicates(s)
  {
    forall i, j | 0 <= i < j < |s| ensures s[i] != s[j] {
      PairCounted(s, i, j);
    }
  }

  /** Two positions holding the same value contribute two to its multiplicity. */
  lemma PairCounted(s: seq<int>, i: nat, j: nat)
    requires i < j < |s|
    ensures multiset(s)[s[i]] >= if s[i] == s[j] then 2 else 1
  {
    assert s == s[..i] + [s[i]] + s[i + 1..j] + [s[j]] + s[j + 1..];
  }

  /** Toggling an absent id twice gives the original list back. */
  lemma {:induction false} ToggleTwiceAbsent(completed: seq<int>, stepId: int)
    requires stepId !in completed
    ensures ToggleStep(ToggleStep(completed, stepId), stepId) == completed
  {
    FilterAppend(completed, stepId, id => id != stepId);
    FilterKeepsAll(completed, id => id != stepId);
  }

  /** Toggling a present id twice in a duplicate-free list restores membership and
      multiplicities, but the id now sits at the end. */
  lemma {:induction false} ToggleTwicePresent(completed: seq<int>, stepId: int)
    requires NoDuplicates(completed) && stepId in completed
    ensures var r := ToggleStep(ToggleStep(completed, stepId), stepId);
      multiset(r) == multiset(completed) && r[|r| - 1] == stepId
  {
    var once := ToggleStep(completed, stepId);
    var r := ToggleStep(once, stepId);
    assert r == once + [stepId];
    NoDuplicatesOnce(completed, stepId);
    forall x ensures multiset(r)[x] == multiset(completed)[x] {
      FilterMultiset(completed, id => id != stepId, x);
    }
    assert multiset(r) == multiset(completed);
  }

  /** The list after toggling the given ids one after another, starting from no completed step. */
  function Replay(ids: seq<int>): seq<int>
  {
    if ids == [] then InitialCompleted else ToggleStep(Replay(ids[..|ids| - 1]), ids[|ids| - 1])
  }

  /** Starting from the empty list, any run of toggles leaves no duplicates. */
  lemma {:induction false} ReplayNoDuplicates(ids: seq<int>)
    ensures NoDuplicates(Replay(ids))
  {
    if ids != [] {
      ReplayNoDuplicates(ids[..|ids| - 1]);
      ToggleKeepsNoDuplicates(Replay(ids[..|ids| - 1]), ids[|ids| - 1]);
    }
  }

  /** A step is completed exactly when it was toggled an odd number of times. */
  lemma {:induction false} ReplayParity(ids: seq<int>, x: int)
    ensures x in Replay(ids) <==> multiset(ids)[x] % 2 == 1
  {
    if ids != [] {
      var prefix, last := ids[..|ids| - 1], ids[|ids| - 1];
      ReplayParity(prefix, x);
      assert ids == prefix + [last];
      assert multiset(ids) == multiset(prefix) + multiset{last};
      ToggleMembership(Replay(prefix), last, x);
    }
  }

  /** The membership clause of ToggleStep, for one id. */
  lemma ToggleMembership(completed: seq<int>, stepId: int, x: int)
    ensures x in ToggleStep(completed, stepId) <==> if x == stepId then stepId !in completed else x in completed
  {
  }

  /** Toggling an id that the replayed list does not hold appends it. */
  lemma ReplayAppendAbsent(ids: seq<int>, x: int)
    requires x !in Replay(ids)
    ensures Replay(ids + [x]) == Replay(ids) + [x]
  {
  }

  /** Checking off the five lab steps in order from the start marks every one of them, and the
      list then holds the ids in that order. */
  lemma CompletingAllSteps()
    ensures Replay(LabStepIds) == LabStepIds
    ensures forall k :: 0 <= k < |LabStepIds| ==> IsCompleted(Replay(LabStepIds), LabStepIds[k])
  {
    ReplayAppendAbsent([], 1);
    assert [] + [1] == [1];
    ReplayAppendAbsent([1], 2);
    assert [1] + [2] == [1, 2];
    ReplayAppendAbsent([1, 2], 3);
    assert [1, 2] + [3] == [1, 2, 3];
    ReplayAppendAbsent([1, 2, 3], 4);
    assert [1, 2, 3] + [4] == [1, 2, 3, 4];
    ReplayAppendAbsent([1, 2, 3, 4], 5);
    assert [1, 2, 3, 4] + [5] == LabStepIds;
  }
}
