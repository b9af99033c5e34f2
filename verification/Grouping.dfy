/** Which nodes are in a policy's group, and which pods already count towards it. */
module Grouping {
  import Prelude
  import opened Labels
  import opened Objects

  /** The loop of checkHasLabels in the plugin package; it decides what HasMatchingLabels decides. */
  method CheckHasLabels(l: LabelMap, want: LabelMap) returns (r: bool)
    ensures r == Matches(l, want)
    ensures r <==> && |want| <= |l|
                   && forall k | k in want ::
                        if want[k] == "" then k in l ==> l[k] == "" else k in l && l[k] == want[k]
  {
    if |l| < |want| {
      return false;
    }
    var rest := want.Keys;
    while rest != {}
      invariant rest <= want.Keys
      invariant forall k | k in want && k !in rest :: Get(l, k) == want[k]
      decreases rest
    {
      var k :| k in rest;
      if Get(l, k) != want[k] {
        return false;
      }
      rest := rest - {k};
    }
    return true;
  }

  /** The matching nodes by name; of two nodes with one name the later stays. */
  function NodeGroup(nodes: seq<Node>, want: LabelMap): map<string, Node> {
    if nodes == [] then map[]
    else
      var group := NodeGroup(nodes[..|nodes| - 1], want);
      var last := nodes[|nodes| - 1];
      if Matches(last.labels, want) then group[last.name := last] else group
  }

  method GroupNodesWithLabels(nodes: seq<Node>, want: LabelMap) returns (group: map<string, Node>)
    ensures group == NodeGroup(nodes, want)
  {
    group := map[];
    for i := 0 to |nodes|
      invariant group == NodeGroup(nodes[..i], want)
    {
      assert nodes[..i + 1][..i] == nodes[..i];
      var matches := CheckHasLabels(nodes[i].labels, want);
      if matches {
        group := group[nodes[i].name := nodes[i]];
      }
    }
    assert nodes[..|nodes|] == nodes;
  }

  /** Of the matching nodes with one name, the last one is in the group. */
  lemma {:induction false} LastNodeStays(nodes: seq<Node>, want: LabelMap, i: nat)
    requires i < |nodes| && Matches(nodes[i].labels, want)
    requires forall j | i < j < |nodes| && nodes[j].name == nodes[i].name :: !Matches(nodes[j].labels, want)
    ensures nodes[i].name in NodeGroup(nodes, want) && NodeGroup(nodes, want)[nodes[i].name] == nodes[i]
  {
    if i < |nodes| - 1 {
      LastNodeStays(nodes[..|nodes| - 1], want, i);
    }
  }

  /** The group holds exactly the names of the matching nodes. */
  lemma {:induction false} NodeGroupNames(nodes: seq<Node>, want: LabelMap)
    ensures forall name :: name in NodeGroup(nodes, want) <==>
              exists n :: n in nodes && Matches(n.labels, want) && n.name == name
    ensures forall name | name in NodeGroup(nodes, want) ::
              var n := NodeGroup(nodes, want)[name];
              n in nodes && Matches(n.labels, want) && n.name == name
  {
    if nodes != [] {
      NodeGroupNames(nodes[..|nodes| - 1], want);
      assert nodes == nodes[..|nodes| - 1] + [nodes[|nodes| - 1]];
    }
  }

  predicate UniqueNames(nodes: seq<Node>) {
    forall i, j | 0 <= i < j < |nodes| :: nodes[i].name != nodes[j].name
  }

  /** With unique names, a node is in the group by name exactly when its labels match. */
  lemma NodeInGroupIff(nodes: seq<Node>, want: LabelMap, n: Node)
    requires UniqueNames(nodes) && n in nodes
    ensures n.name in NodeGroup(nodes, want) <==> Matches(n.labels, want)
  {
    NodeGroupNames(nodes, want);
  }

  /** Does `p` count towards the node group, in the cycle of the pod `self`? */
  predicate CountsFor(p: Pod, self: string, group: set<string>) {
    p.uid != self && Placed(p, group)
  }

  /** Is `p` on the node group, or promised to it? */
  predicate Placed(p: Pod, group: set<string>) {
    if p.Bound() then p.nodeName in group else p.Preference() == Prelude.Some(true)
  }

  /** In terms of the pod's fields: the node of a bound pod decides, the annotation of an unbound one. */
  lemma PlacedIff(p: Pod, group: set<string>)
    ensures Placed(p, group) <==>
              if p.nodeName != "" then p.nodeName in group
              else
                && "placement-policy.x-k8s.io/node-preference-matching-labels" in p.annotations
                && p.annotations["placement-policy.x-k8s.io/node-preference-matching-labels"]
                   in ["1", "t", "T", "true", "TRUE", "True"]
  {
    EmptyTextDoesNotParse();
  }

  /** The counted pods, in list order. */
  function CountedPods(pods: seq<Pod>, self: string, group: set<string>): seq<Pod> {
    if pods == [] then []
    else
      var counted := CountedPods(pods[..|pods| - 1], self, group);
      var last := pods[|pods| - 1];
      if CountsFor(last, self, group) then counted + [last] else counted
  }

  method GroupPodsBasedOnNodePreference(pods: seq<Pod>, self: string, group: map<string, Node>)
    returns (counted: seq<Pod>)
    ensures counted == CountedPods(pods, self, group.Keys)
  {
    EmptyTextDoesNotParse();
    counted := [];
    for i := 0 to |pods|
      invariant counted == CountedPods(pods[..i], self, group.Keys)
    {
      assert pods[..i + 1][..i] == pods[..i];
      var p := pods[i];
      if p.uid == self {
        continue;
      }
      if p.nodeName != "" {
        if p.nodeName in group {
          counted := counted + [p];
        }
        continue;
      }
      var ann := Get(p.annotations, PREFERENCE_KEY);
      if ann == "" {
        continue;
      }
      var preferred := ParseBool(ann);
      if preferred.None? {
        continue;
      }
      if preferred.value {
        counted := counted + [p];
      }
    }
    assert pods[..|pods|] == pods;
  }

  /** A pod is grouped as often as it is listed when it counts, and never otherwise. */
  lemma {:induction false} CountedMultiplicity(pods: seq<Pod>, self: string, group: set<string>, p: Pod)
    ensures multiset(CountedPods(pods, self, group))[p]
         == if CountsFor(p, self, group) then multiset(pods)[p] else 0
  {
    if pods != [] {
      CountedMultiplicity(pods[..|pods| - 1], self, group, p);
      assert pods == pods[..|pods| - 1] + [pods[|pods| - 1]];
    }
  }

  /** The number of counted pods does not depend on the order of the pod list. */
  lemma CountIgnoresPodOrder(a: seq<Pod>, b: seq<Pod>, self: string, group: set<string>)
    requires multiset(a) == multiset(b)
    ensures |CountedPods(a, self, group)| == |CountedPods(b, self, group)|
  {
    var x, y := multiset(CountedPods(a, self, group)), multiset(CountedPods(b, self, group));
    forall p: Pod
      ensures x[p] == y[p]
    {
      CountedMultiplicity(a, self, group, p);
      CountedMultiplicity(b, self, group, p);
    }
    assert x == y;
    assert |x| == |CountedPods(a, self, group)| && |y| == |CountedPods(b, self, group)|;
  }

  /** The names in the group do not depend on the order of the node list. */
  lemma GroupIgnoresNodeOrder(a: seq<Node>, b: seq<Node>, want: LabelMap)
    requires multiset(a) == multiset(b)
    ensures NodeGroup(a, want).Keys == NodeGroup(b, want).Keys
  {
    forall n: Node
      ensures n in a <==> n in b
    {
      assert n in a <==> n in multiset(a);
      assert n in b <==> n in multiset(b);
    }
    NodeGroupNames(a, want);
    NodeGroupNames(b, want);
  }

  /** Fewer nodes or a smaller group can only lower the count. */
  lemma {:induction false} CountMonotone(pods: seq<Pod>, self: string, small: set<string>, large: set<string>)
    requires small <= large
    ensures |CountedPods(pods, self, small)| <= |CountedPods(pods, self, large)| <= |pods|
  {
    if pods != [] {
      CountMonotone(pods[..|pods| - 1], self, small, large);
    }
  }

  /** All listed pods are counted exactly when each of them counts. */
  lemma {:induction false} AllCountedIff(pods: seq<Pod>, self: string, group: set<string>)
    ensures |CountedPods(pods, self, group)| <= |pods|
    ensures |CountedPods(pods, self, group)| == |pods| <==> forall p | p in pods :: CountsFor(p, self, group)
  {
    if pods != [] {
      var front, last := pods[..|pods| - 1], pods[|pods| - 1];
      AllCountedIff(front, self, group);
      assert pods == front + [last];
      assert last in pods;
      assert forall p | p in front :: p in pods;
    }
  }

  predicate UniqueUids(pods: seq<Pod>) {
    forall i, j | 0 <= i < j < |pods| :: pods[i].uid != pods[j].uid
  }

  function Uids(pods: seq<Pod>): set<string> {
    set p | p in pods :: p.uid
  }

  lemma {:induction false} UidsSize(pods: seq<Pod>)
    requires UniqueUids(pods)
    ensures |Uids(pods)| == |pods|
  {
    if pods != [] {
      var front, last := pods[..|pods| - 1], pods[|pods| - 1];
      UidsSize(front);
      assert pods == front + [last];
      assert Uids(pods) == Uids(front) + {last.uid};
    }
  }

  /** Grouping keeps the list order, keeps UIDs unique, and keeps just the counted pods. */
  lemma {:induction false} CountedIsSublist(pods: seq<Pod>, self: string, group: set<string>)
    ensures forall p :: p in CountedPods(pods, self, group) <==> p in pods && CountsFor(p, self, group)
    ensures UniqueUids(pods) ==> UniqueUids(CountedPods(pods, self, group))
  {
    if pods != [] {
      var front, last := pods[..|pods| - 1], pods[|pods| - 1];
      CountedIsSublist(front, self, group);
      assert pods == front + [last];
      if UniqueUids(pods) {
        assert UniqueUids(front);
        forall p | p in CountedPods(front, self, group)
          ensures p.uid != last.uid
        {
          assert p in front;
        }
      }
    }
  }

  /** The counted pods stand in the order in which they are listed. */
  lemma {:induction false} CountedKeepsOrder(pods: seq<Pod>, self: string, group: set<string>,
                                             a: nat, b: nat, i: nat, j: nat)
    requires UniqueUids(pods)
    requires a < b < |CountedPods(pods, self, group)| && i < |pods| && j < |pods|
    requires pods[i] == CountedPods(pods, self, group)[a] && pods[j] == CountedPods(pods, self, group)[b]
    ensures i < j
  {
    var front, last := pods[..|pods| - 1], pods[|pods| - 1];
    var counted := CountedPods(front, self, group);
    CountedIsSublist(front, self, group);
    assert counted[a] in front;
    assert i < |front|;
    if b < |counted| {
      assert counted[b] in front;
      CountedKeepsOrder(front, self, group, a, b, i, j);
    }
  }

  /** With unique UIDs, the count is the number of UIDs of listed pods that count. */
  lemma CountIsCardinality(pods: seq<Pod>, self: string, group: set<string>)
    requires UniqueUids(pods)
    ensures |CountedPods(pods, self, group)| == |set p | p in pods && CountsFor(p, self, group) :: p.uid|
  {
    var counted := CountedPods(pods, self, group);
    CountedIsSublist(pods, self, group);
    UidsSize(counted);
    assert Uids(counted) == set p | p in pods && CountsFor(p, self, group) :: p.uid;
  }

  /** A pod that is in its own list is not counted, so the count stays below the length of the list. */
  lemma {:induction false} OwnPodLeavesRoom(pods: seq<Pod>, self: string, group: set<string>)
    requires exists p :: p in pods && p.uid == self
    ensures |CountedPods(pods, self, group)| < |pods|
  {
    var front, last := pods[..|pods| - 1], pods[|pods| - 1];
    assert pods == front + [last];
    if last.uid == self {
      CountMonotone(front, self, group, group);
    } else {
      OwnPodLeavesRoom(front, self, group);
    }
  }
}
