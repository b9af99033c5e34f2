/** Choosing the placement policy of a pod. */
module PolicyChoice {
  import opened Prelude
  import opened Labels
  import opened Objects

  /** Policies are looked up in the namespace of the pod. */
  predicate Governs(policy: Policy, pod: Pod) {
    policy.namespace == pod.namespace && Matches(pod.labels, policy.podSelector)
  }

  /** `choice` is a result that the lookup may return for `pod` when these policies exist. */
  predicate IsChoice(policies: seq<Policy>, pod: Pod, choice: Option<Policy>) {
    match choice
    case None => forall p | p in policies :: !Governs(p, pod)
    case Some(best) =>
      && best in policies && Governs(best, pod)
      && forall p | p in policies && Governs(p, pod) :: best.weight <= p.weight
  }

  // The order on policies, as the sort package sees it.

  predicate Less(a: array<Policy>, i: nat, j: nat)
    requires i < a.Length && j < a.Length
    reads a
  {
    a[i].weight > a[j].weight
  }

  /** sort.Reverse exchanges the arguments of Less. */
  predicate ReversedLess(a: array<Policy>, i: nat, j: nat)
    requires i < a.Length && j < a.Length
    reads a
  {
    Less(a, j, i)
  }

  method Swap(a: array<Policy>, i: nat, j: nat)
    requires i < a.Length && j < a.Length
    modifies a
    ensures a[..] == old(a[..][i := a[j]][j := a[i]])
    ensures multiset(a[..]) == old(multiset(a[..]))
  {
    a[i], a[j] := a[j], a[i];
  }

  predicate AscendingWeight(s: seq<Policy>) {
    forall i, j | 0 <= i < j < |s| :: s[i].weight <= s[j].weight
  }

  /** The inner loop of an insertion sort under ReversedLess. */
  method Sink(a: array<Policy>, i: nat)
    requires i < a.Length && AscendingWeight(a[..i])
    modifies a
    ensures AscendingWeight(a[..i + 1])
    ensures multiset(a[..]) == old(multiset(a[..]))
  {
    var j := i;
    while 0 < j && ReversedLess(a, j, j - 1)
      invariant j <= i
      invariant forall x, y | 0 <= x < y <= i && y != j :: a[x].weight <= a[y].weight
      invariant multiset(a[..]) == old(multiset(a[..]))
    {
      Swap(a, j, j - 1);
      j := j - 1;
    }
  }

  /** sort.Sort(sort.Reverse(ByWeight(a))). */
  method SortReversed(a: array<Policy>)
    modifies a
    ensures forall i, j | 0 <= i < j < a.Length :: a[i].weight <= a[j].weight
    ensures multiset(a[..]) == old(multiset(a[..]))
  {
    for i := 0 to a.Length
      invariant AscendingWeight(a[..i])
      invariant multiset(a[..]) == old(multiset(a[..]))
    {
      Sink(a, i);
    }
    assert a[..a.Length] == a[..];
  }

  /** The namespaced lister. */
  function InNamespace(policies: seq<Policy>, namespace: string): (r: seq<Policy>)
    ensures forall p :: p in r <==> p in policies && p.namespace == namespace
  {
    if policies == [] then []
    else
      var rest := InNamespace(policies[1..], namespace);
      if policies[0].namespace == namespace then [policies[0]] + rest else rest
  }

  predicate Increasing(s: seq<nat>) {
    forall i, j | 0 <= i < j < |s| :: s[i] < s[j]
  }

  /** `picks` are the places of the matching policies, in list order. */
  method FilterPlacementPolicyList(policies: seq<Policy>, pod: Pod)
    returns (filtered: seq<Policy>, ghost picks: seq<nat>)
    ensures forall p :: p in filtered <==> p in policies && Matches(pod.labels, p.podSelector)
    ensures Increasing(picks) && |picks| == |filtered|
    ensures forall k | 0 <= k < |picks| :: picks[k] < |policies| && filtered[k] == policies[picks[k]]
    ensures forall i | 0 <= i < |policies| :: i in picks <==> Matches(pod.labels, policies[i].podSelector)
  {
    filtered, picks := [], [];
    for i := 0 to |policies|
      invariant forall p :: p in filtered <==> p in policies[..i] && Matches(pod.labels, p.podSelector)
      invariant Increasing(picks) && |picks| == |filtered|
      invariant forall k | 0 <= k < |picks| :: picks[k] < i && filtered[k] == policies[picks[k]]
      invariant forall j | 0 <= j < i :: j in picks <==> Matches(pod.labels, policies[j].podSelector)
    {
      var matches := HasMatchingLabels(pod.labels, policies[i].podSelector);
      if matches {
        filtered, picks := filtered + [policies[i]], picks + [i];
      }
    }
  }

  /** The first of the sorted policies is one of least weight. */
  lemma SortedFirst(unsorted: seq<Policy>, sorted: seq<Policy>)
    requires multiset(sorted) == multiset(unsorted) && AscendingWeight(sorted) && sorted != []
    ensures sorted[0] in unsorted
    ensures forall p | p in unsorted :: sorted[0].weight <= p.weight
  {
    forall p: Policy
      ensures p in unsorted <==> p in sorted
    {
      assert p in unsorted <==> p in multiset(unsorted);
      assert p in sorted <==> p in multiset(sorted);
    }
    assert sorted[0] in sorted;
  }

  /** The lister's own slice is left as it was: only the freshly filtered slice is sorted. */
  method GetPlacementPolicyForPod(indexer: array<Policy>, pod: Pod) returns (choice: Option<Policy>)
    ensures IsChoice(indexer[..], pod, choice)
    ensures choice.None? <==>
              forall p | p in indexer[..] :: p.namespace != pod.namespace || !Matches(pod.labels, p.podSelector)
    ensures choice.Some? ==>
              && choice.value in indexer[..]
              && choice.value.namespace == pod.namespace && Matches(pod.labels, choice.value.podSelector)
              && forall p | p in indexer[..] && p.namespace == pod.namespace && Matches(pod.labels, p.podSelector) ::
                   choice.value.weight <= p.weight
  {
    var ppList := InNamespace(indexer[..], pod.namespace);
    ghost var picks;
    ppList, picks := FilterPlacementPolicyList(ppList, pod);
    if |ppList| == 0 {
      return None;
    }
    var slice := new Policy[|ppList|](i requires 0 <= i < |ppList| => ppList[i]);
    assert slice[..] == ppList;
    if 1 < |ppList| {
      SortReversed(slice);
    }
    SortedFirst(ppList, slice[..]);
    return Some(slice[0]);
  }

  /** Every pod has a possible result, and all possible results carry the same, least weight. */
  lemma {:induction false} ChoiceExists(policies: seq<Policy>, pod: Pod) returns (choice: Option<Policy>)
    ensures IsChoice(policies, pod, choice)
    ensures forall other | IsChoice(policies, pod, other) ::
              other.Some? == choice.Some? && (other.Some? ==> other.value.weight == choice.value.weight)
  {
    if policies == [] {
      choice := None;
    } else {
      var front, last := policies[..|policies| - 1], policies[|policies| - 1];
      assert policies == front + [last];
      choice := ChoiceExists(front, pod);
      if Governs(last, pod) && (choice.None? || last.weight < choice.value.weight) {
        choice := Some(last);
      }
    }
  }
}
