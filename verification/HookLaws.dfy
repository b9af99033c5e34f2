/** What the hooks promise, one cycle at a time. */
module HookLaws {
  import opened Prelude
  import opened Labels
  import opened Objects
  import opened Grouping
  import opened PolicyChoice
  import opened Hooks
  import Q = Quota
  import N = Normalize

  // The pod list and the decision.

  /** The lister keeps exactly the selected pods, and keeps UIDs unique. */
  lemma {:induction false} ListedPods(pods: seq<Pod>, want: LabelMap)
    ensures forall p :: p in PodsWithLabels(pods, want) <==> p in pods && Selects(want, p.labels)
    ensures UniqueUids(pods) ==> UniqueUids(PodsWithLabels(pods, want))
  {
    if pods != [] {
      var front, last := pods[..|pods| - 1], pods[|pods| - 1];
      ListedPods(front, want);
      assert pods == front + [last];
      if UniqueUids(pods) {
        assert UniqueUids(front);
        forall p | p in PodsWithLabels(front, want)
          ensures p.uid != last.uid
        {
          assert p in front;
        }
      }
    }
  }

  lemma ListedAppend(pods: seq<Pod>, last: Pod, want: LabelMap)
    ensures PodsWithLabels(pods + [last], want)
         == PodsWithLabels(pods, want) + if Selects(want, last.labels) then [last] else []
  {
    assert (pods + [last])[..|pods|] == pods;
  }

  lemma CountedAppend(listed: seq<Pod>, last: Pod, self: string, group: set<string>)
    ensures CountedPods(listed + [last], self, group)
         == CountedPods(listed, self, group) + if CountsFor(last, self, group) then [last] else []
  {
    assert (listed + [last])[..|listed|] == listed;
  }

  /** The decision does not depend on the order in which nodes and pods are listed. */
  lemma DecisionIgnoresOrder(policy: Policy, nodes: seq<Node>, nodes': seq<Node>,
                             listed: seq<Pod>, listed': seq<Pod>, self: string)
    requires multiset(nodes) == multiset(nodes') && multiset(listed) == multiset(listed')
    ensures Prefers(policy, nodes, listed, self) == Prefers(policy, nodes', listed', self)
  {
    GroupIgnoresNodeOrder(nodes, nodes', policy.nodeSelector);
    CountIgnoresPodOrder(listed, listed', self, NodeGroup(nodes, policy.nodeSelector).Keys);
    assert |listed| == |multiset(listed)| == |multiset(listed')| == |listed'|;
  }

  /** The decision is not the comparison with the quota exactly when every listed pod counts (so that the pod is not in
      its own list) and the target exceeds the length of the list. */
  lemma DecisionIsQuotaTestIff(policy: Policy, nodes: seq<Node>, listed: seq<Pod>, self: string)
    requires policy.rule.Valid()
    ensures var group := NodeGroup(nodes, policy.nodeSelector).Keys;
            var quotaTest := |CountedPods(listed, self, group)| < Q.QuotaFor(policy.rule, |listed|);
            && Prefers(policy, nodes, listed, self).Some?
            && (Prefers(policy, nodes, listed, self) != Some(quotaTest) <==>
               && (forall p | p in listed :: CountsFor(p, self, group))
               && |listed| < Q.Target(policy.rule, |listed|).value)
  {
    AllCountedIff(listed, self, NodeGroup(nodes, policy.nodeSelector).Keys);
  }

  /** With an empty wanted label value the source gets there: the pod matches the policy, but the lister's selector
      does not list it, so even a cached pod finds an empty list, whose quota is 0, and still prefers the group. */
  lemma EmptyValueEvadesQuota(pod: Pod, policy: Policy, nodes: seq<Node>)
    requires pod.labels == map["app" := "web"] && pod.namespace == policy.namespace
    requires policy.podSelector == map["tier" := ""] && policy.rule == Q.Rule(Q.Must, Q.Count(1))
    ensures var listed := PodsWithLabels([pod], policy.podSelector);
            && Governs(policy, pod) && listed == [] && Q.QuotaFor(policy.rule, |listed|) == 0
            && Prefers(policy, nodes, listed, pod.uid) == Some(true)
  {
    assert |"app"| != |"tier"|;
    assert "tier" in policy.podSelector && "tier" !in pod.labels;
    assert [pod][..0] == [];
  }

  /** For a pod in its own list, the decision is whether the quota leaves room for it. */
  lemma DecisionIsQuotaTest(policy: Policy, nodes: seq<Node>, listed: seq<Pod>, self: string)
    requires policy.rule.Valid()
    requires exists p :: p in listed && p.uid == self
    ensures var counted := |CountedPods(listed, self, NodeGroup(nodes, policy.nodeSelector).Keys)|;
            && counted < |listed|
            && Prefers(policy, nodes, listed, self) == Some(counted < Q.QuotaFor(policy.rule, |listed|))
  {
    OwnPodLeavesRoom(listed, self, NodeGroup(nodes, policy.nodeSelector).Keys);
  }

  /** A cached pod that a policy without empty label values governs is in the list made for it. */
  lemma GovernedPodIsListed(policy: Policy, pods: seq<Pod>, pod: Pod)
    requires pod in pods && Governs(policy, pod) && NoEmptyValue(policy.podSelector)
    ensures pod in PodsWithLabels(pods, policy.podSelector)
  {
    MatchesIsSelection(pod.labels, policy.podSelector);
    ListedPods(pods, policy.podSelector);
  }

  /** The list spans all namespaces while the policy governs one: every listed pod is governed by the policy
      exactly when every listed pod is in the policy's namespace. */
  lemma ListedPodsGovernedIff(policy: Policy, pods: seq<Pod>)
    ensures (forall p | p in PodsWithLabels(pods, policy.podSelector) :: Governs(policy, p))
       <==> (forall p | p in pods && Selects(policy.podSelector, p.labels) :: p.namespace == policy.namespace)
  {
    ListedPods(pods, policy.podSelector);
    forall p | p in pods && Selects(policy.podSelector, p.labels)
      ensures Governs(policy, p) <==> p.namespace == policy.namespace
    {
      SelectedMatches(p.labels, policy.podSelector);
    }
  }

  /** The source gets there too: a pod of another namespace that the policy does not govern can use up its quota. */
  lemma ForeignPodUsesQuota(policy: Policy, pod: Pod, foreign: Pod, nodes: seq<Node>)
    requires policy.rule == Q.Rule(Q.Must, Q.Count(1)) && Governs(policy, pod) && pod.uid != foreign.uid
    requires Selects(policy.podSelector, pod.labels) && foreign.labels == pod.labels
    requires foreign.namespace != policy.namespace && !foreign.Bound() && foreign.Preference() == Some(true)
    ensures var cache := [foreign] + [pod];
            && !Governs(policy, foreign) && foreign in PodsWithLabels(cache, policy.podSelector)
            && Prefers(policy, nodes, PodsWithLabels(cache, policy.podSelector), pod.uid) == Some(false)
            && Prefers(policy, nodes, PodsWithLabels([pod], policy.podSelector), pod.uid) == Some(true)
  {
    var group := NodeGroup(nodes, policy.nodeSelector).Keys;
    ListedAppend([foreign], pod, policy.podSelector);
    ListedAppend([], foreign, policy.podSelector);
    ListedAppend([], pod, policy.podSelector);
    assert [] + [foreign] == [foreign] && [] + [pod] == [pod];
    CountedAppend([foreign], pod, pod.uid, group);
    CountedAppend([], foreign, pod.uid, group);
    CountedAppend([], pod, pod.uid, group);
  }

  // Frames and modes.

  predicate WellBehaved(out: Outcome, policy: Option<Policy>, pod: Pod) {
    && (out.data.Some? <==> out.status.Success? && out.request.Some?)
    && (out.request.None? ==> out.pod == pod)
    && (out.request.Some? ==> policy.Some? && out.request.value == out.pod)
    && (out.request.Some? ==> exists b :: out.pod == Annotated(pod, policy.value, b))
    && (out.status.Error? && out.status.cause != AnnotatePod ==> out.request.None?)
    && (out.status == Error(AnnotatePod) ==> out.request.Some? && out.data.None?)
    && (out.data.Some? ==> policy.Some? && out.data.value == StateData(pod.name, policy.value))
  }

  /** An error before the annotation step leaves pod and state untouched; a failed update writes no state; the only
      change to a pod is its annotation under the chosen policy. */
  lemma HooksFrame(env: Environment, choice: Option<Policy>, nodes: seq<Node>, pod: Pod)
    ensures WellBehaved(PreFilterOutcome(env, choice, pod), choice, pod)
    ensures WellBehaved(PreScoreOutcome(env, choice, nodes, pod), choice, pod)
  {
    if choice.Some? && env.policies.Some? {
      DecideFrames(env, choice.value, nodes, pod);
      if env.nodes.Some? {
        DecideFrames(env, choice.value, env.nodes.value, pod);
      }
    }
  }

  lemma DecideFrames(env: Environment, policy: Policy, nodes: seq<Node>, pod: Pod)
    ensures WellBehaved(DecideAndAnnotate(env, policy, nodes, pod), Some(policy), pod)
  {
    if env.pods.Some? {
      var p := Prefers(policy, nodes, PodsWithLabels(env.pods.value, policy.podSelector), pod.uid);
      if p.Some? {
        assert DecideAndAnnotate(env, policy, nodes, pod).pod == Annotated(pod, policy, p.value);
      }
    }
  }

  /** The policies and pods can be read, and an update is accepted. */
  predicate Unhindered(env: Environment) {
    env.policies.Some? && env.pods.Some? && env.updateSucceeds
  }

  /** In one cycle, each hook with its own lookup and its own reads, both write cycle state. */
  predicate BothAct(env: Environment, env': Environment, c: Option<Policy>, c': Option<Policy>,
                    nodes: seq<Node>, pod: Pod) {
    var pf := PreFilterOutcome(env, c, pod);
    pf.data.Some? && PreScoreOutcome(env', c', nodes, pf.pod).data.Some?
  }

  /** When both hooks act, PreScore's update is the last: of PreFilter's annotations nothing is left, while the cycle
      state keeps the policies of both. */
  lemma LastHookPrevails(env: Environment, env': Environment, c: Option<Policy>, c': Option<Policy>,
                         nodes: seq<Node>, pod: Pod)
    requires BothAct(env, env', c, c', nodes, pod)
    ensures c.Some? && c'.Some? && env'.pods.Some?
    ensures var pf := PreFilterOutcome(env, c, pod);
            var ps := PreScoreOutcome(env', c', nodes, pf.pod);
            var listed := PodsWithLabels(env'.pods.value, c'.value.podSelector);
            && pf.data == Some(StateData(pod.name, c.value)) && ps.data == Some(StateData(pod.name, c'.value))
            && Prefers(c'.value, nodes, listed, pod.uid).Some?
            && ps.request == Some(ps.pod)
            && ps.pod == Annotated(pod, c'.value, Prefers(c'.value, nodes, listed, pod.uid).value)
  {
    DecideFrames(env, c.value, env.nodes.value, pod);
    var b :| PreFilterOutcome(env, c, pod).pod == Annotated(pod, c.value, b);
    forall b': bool
      ensures Annotated(Annotated(pod, c.value, b), c'.value, b') == Annotated(pod, c'.value, b')
    {
      AnnotatedOver(pod, c.value, b, c'.value, b');
    }
  }

  lemma AnnotatedOver(pod: Pod, first: Policy, b: bool, second: Policy, b': bool)
    ensures Annotated(Annotated(pod, first, b), second, b') == Annotated(pod, second, b')
  {
    assert Annotated(Annotated(pod, first, b), second, b').annotations == Annotated(pod, second, b').annotations;
  }

  /** Whatever policy the lookup finds, PreFilter succeeds exactly when each policy that it may find is BestEffort, or
      nodes and pods can be read, its target size is well-formed, and the update is accepted. */
  lemma PreFilterSucceedsIff(env: Environment, pod: Pod)
    requires env.policies.Some?
    ensures (forall c | IsChoice(env.policies.value, pod, c) :: PreFilterOutcome(env, c, pod).status == Success) <==>
              forall p | IsChoice(env.policies.value, pod, Some(p)) ::
                || p.mode == BestEffort
                || (env.nodes.Some? && env.pods.Some? && !p.rule.size.Malformed? && env.updateSucceeds)
  {
    forall p | IsChoice(env.policies.value, pod, Some(p))
      ensures PreFilterOutcome(env, Some(p), pod).status == Success <==>
                || p.mode == BestEffort
                || (env.nodes.Some? && env.pods.Some? && !p.rule.size.Malformed? && env.updateSucceeds)
    {
    }
    forall c | IsChoice(env.policies.value, pod, c)
      ensures c == None || c == Some(c.value)
    {
    }
  }

  /** PreScore needs no node lister, and passes over Strict policies instead. */
  lemma PreScoreSucceedsIff(env: Environment, nodes: seq<Node>, pod: Pod)
    requires env.policies.Some?
    ensures (forall c | IsChoice(env.policies.value, pod, c) :: PreScoreOutcome(env, c, nodes, pod).status == Success)
       <==> forall p | IsChoice(env.policies.value, pod, Some(p)) ::
              p.mode == Strict || (env.pods.Some? && !p.rule.size.Malformed? && env.updateSucceeds)
  {
    forall p | IsChoice(env.policies.value, pod, Some(p))
      ensures PreScoreOutcome(env, Some(p), nodes, pod).status == Success <==>
                p.mode == Strict || (env.pods.Some? && !p.rule.size.Malformed? && env.updateSucceeds)
    {
    }
    forall c | IsChoice(env.policies.value, pod, c)
      ensures c == None || c == Some(c.value)
    {
    }
  }

  /** A policy of well-formed size that the lookup may choose for the pod. */
  ghost predicate MayApply(policies: seq<Policy>, pod: Pod, policy: Policy) {
    policy in policies && policy.rule.Valid() && IsChoice(policies, pod, Some(policy))
  }

  /** Each hook looks the policy up for itself, and of several governing policies of least weight either lookup may
      return any. So with nothing failing the hooks exclude each other exactly when all those policies (of well-formed
      size) that PreFilter may find are BestEffort, or all that PreScore may find are Strict. */
  lemma ModeExclusionIff(env: Environment, env': Environment, nodes: seq<Node>, pod: Pod)
    requires Unhindered(env) && env.nodes.Some? && Unhindered(env')
    ensures (forall c, c' | IsChoice(env.policies.value, pod, c) && IsChoice(env'.policies.value, pod, c') ::
               !BothAct(env, env', c, c', nodes, pod))
       <==> (|| (forall a | MayApply(env.policies.value, pod, a) :: a.mode.BestEffort?)
             || (forall b | MayApply(env'.policies.value, pod, b) :: b.mode.Strict?))
  {
    forall c, c' | IsChoice(env.policies.value, pod, c) && IsChoice(env'.policies.value, pod, c')
      ensures BothAct(env, env', c, c', nodes, pod) <==>
                && c.Some? && c'.Some?
                && MayApply(env.policies.value, pod, c.value) && !c.value.mode.BestEffort?
                && MayApply(env'.policies.value, pod, c'.value) && !c'.value.mode.Strict?
    {
      BothActIff(env, env', c, c', nodes, pod);
    }
    if (exists a :: MayApply(env.policies.value, pod, a) && !a.mode.BestEffort?)
       && exists b :: MayApply(env'.policies.value, pod, b) && !b.mode.Strict? {
      var a :| MayApply(env.policies.value, pod, a) && !a.mode.BestEffort?;
      var b :| MayApply(env'.policies.value, pod, b) && !b.mode.Strict?;
      assert BothAct(env, env', Some(a), Some(b), nodes, pod);
    }
  }

  /** Which lookups and reads let both hooks act. */
  lemma BothActIff(env: Environment, env': Environment, c: Option<Policy>, c': Option<Policy>,
                   nodes: seq<Node>, pod: Pod)
    ensures BothAct(env, env', c, c', nodes, pod) <==>
              && c.Some? && !c.value.mode.BestEffort? && c.value.rule.Valid() && Unhindered(env) && env.nodes.Some?
              && c'.Some? && !c'.value.mode.Strict? && c'.value.rule.Valid() && Unhindered(env')
  {
  }

  /** One Strict and one BestEffort policy of the same weight: both hooks may act, and the pod ends up with the
      annotations of the BestEffort one although Filter has enforced the Strict one. */
  lemma TiedModesBothAct(strict: Policy, best: Policy, pod: Pod, nodes: seq<Node>, feasible: seq<Node>, cache: seq<Pod>)
    requires strict.mode.Strict? && best.mode.BestEffort? && strict.weight == best.weight
    requires strict.rule.Valid() && best.rule.Valid() && Governs(strict, pod) && Governs(best, pod)
    ensures var policies := [strict, best];
            var env := Environment(Some(policies), Some(nodes), Some(cache), true);
            && IsChoice(policies, pod, Some(strict)) && IsChoice(policies, pod, Some(best))
            && BothAct(env, env, Some(strict), Some(best), feasible, pod)
            && var last := PreScoreOutcome(env, Some(best), feasible, PreFilterOutcome(env, Some(strict), pod).pod).pod;
               Get(last.annotations, POLICY_KEY) == best.name
  {
    var env := Environment(Some([strict, best]), Some(nodes), Some(cache), true);
    BothActIff(env, env, Some(strict), Some(best), feasible, pod);
    LastHookPrevails(env, env, Some(strict), Some(best), feasible, pod);
    KeysDiffer();
  }

  /** Found the other way round, neither acts: the pod is not annotated, and Filter and Score treat all nodes alike,
      although both policies ask for a decision. */
  lemma TiedModesNeitherAct(strict: Policy, best: Policy, pod: Pod, nodes: seq<Node>, feasible: seq<Node>,
                            cache: seq<Pod>)
    requires strict.mode.Strict? && best.mode.BestEffort? && strict.weight == best.weight
    requires Governs(strict, pod) && Governs(best, pod)
    ensures var policies := [strict, best];
            var env := Environment(Some(policies), Some(nodes), Some(cache), true);
            var pf := PreFilterOutcome(env, Some(best), pod);
            var ps := PreScoreOutcome(env, Some(strict), feasible, pf.pod);
            && IsChoice(policies, pod, Some(strict)) && IsChoice(policies, pod, Some(best))
            && pf.request == None && ps.request == None && ps.pod == pod
            && (forall n | n in nodes :: FilterStatus(pf.data, pod, Some(n)) == Success)
            && (forall n | n in nodes :: ScoreOf(ps.data, pod, nodes, n.name) == (0, Success))
  {
    var policies := [strict, best];
    assert policies[0] == strict && policies[1] == best;
  }

  // Filter and Score.

  /** Filter rejects a node only for a decision against its side, and fails only without a node or a parseable
      annotation. */
  lemma FilterVerdicts(data: Option<StateData>, pod: Pod, node: Option<Node>)
    ensures var status := FilterStatus(data, pod, node);
            && (status == Error(NodeNotFound) <==> node.None?)
            && (status == Error(ParseAnnotation) <==> node.Some? && data.Some? && pod.Preference().None?)
            && (status == Success <==>
                  && node.Some?
                  && (data.Some? ==> pod.Preference()
                                     == Some(Matches(node.value.labels, data.value.policy.nodeSelector))))
            && (status == Unschedulable <==>
                  && node.Some? && data.Some?
                  && pod.Preference() == Some(!Matches(node.value.labels, data.value.policy.nodeSelector)))
  {
  }

  /** A name is looked up among the nodes, whichever there are. */
  lemma {:induction false} NodeLookups(nodes: seq<Node>, name: string)
    ensures NodeByName(nodes, name).None? <==> forall n | n in nodes :: n.name != name
    ensures NodeByName(nodes, name).Some? ==>
              NodeByName(nodes, name).value in nodes && NodeByName(nodes, name).value.name == name
  {
    if nodes != [] {
      NodeLookups(nodes[1..], name);
      assert nodes == [nodes[0]] + nodes[1..];
    }
  }

  /** Score gives 100 to the nodes on the side of the annotation and 0 to the others; it fails only for an unknown node
      or without a parseable annotation, and never when PreScore has written nothing. */
  lemma ScoreVerdicts(data: Option<StateData>, pod: Pod, snapshot: seq<Node>, name: string)
    requires UniqueNames(snapshot)
    ensures var (score, status) := ScoreOf(data, pod, snapshot, name);
            && (status == Error(NodeLookup) <==> data.Some? && forall n | n in snapshot :: n.name != name)
            && (status == Error(ParseAnnotation) <==>
                  data.Some? && pod.Preference().None? && exists n :: n in snapshot && n.name == name)
            && (status == Success <==>
                  data.Some? ==> pod.Preference().Some? && exists n :: n in snapshot && n.name == name)
            && score == if && status == Success && data.Some?
                           && exists n :: && n in snapshot && n.name == name
                                          && pod.Preference()
                                             == Some(Matches(n.labels, data.value.policy.nodeSelector))
                        then 100 else 0
  {
    NodeLookups(snapshot, name);
    forall n | n in snapshot && n.name == name
      ensures NodeByName(snapshot, name) == Some(n)
    {
      NodeFound(snapshot, n);
    }
  }

  /** After PreFilter has written cycle state, Filter never fails on a node, and passes exactly the nodes whose
      matching equals the decision; without cycle state it passes every node. */
  lemma FilterFollowsDecision(env: Environment, choice: Option<Policy>, pod: Pod, node: Node)
    requires PreFilterOutcome(env, choice, pod).status.Success?
    ensures var out := PreFilterOutcome(env, choice, pod);
            var verdict := FilterStatus(out.data, out.pod, Some(node));
            if out.data.None? then verdict == Success
            else
              && env.nodes.Some? && env.pods.Some? && choice.Some?
              && var policy := choice.value;
                 var prefers := Prefers(policy, env.nodes.value,
                                        PodsWithLabels(env.pods.value, policy.podSelector), pod.uid);
                 && prefers.Some?
                 && verdict == if Matches(node.labels, policy.nodeSelector) == prefers.value then Success
                               else Unschedulable
  {
    if choice.Some? {
      AnnotationRoundTrip(pod, choice.value, true, true);
      AnnotationRoundTrip(pod, choice.value, false, true);
    }
  }

  /** Binding to a node that Filter passed does not change whether the pod counts towards the group. */
  lemma BindingKeepsPlacement(nodes: seq<Node>, policy: Policy, pod: Pod, node: Node)
    requires UniqueNames(nodes) && node in nodes && node.name != "" && !pod.Bound()
    requires pod.Preference().Some?
    requires FilterStatus(Some(StateData(pod.name, policy)), pod, Some(node)) == Success
    ensures var group := NodeGroup(nodes, policy.nodeSelector).Keys;
            Placed(pod.(nodeName := node.name), group) == Placed(pod, group)
  {
    NodeInGroupIff(nodes, policy.nodeSelector, node);
  }

  lemma {:induction false} NodeFound(nodes: seq<Node>, node: Node)
    requires UniqueNames(nodes) && node in nodes
    ensures NodeByName(nodes, node.name) == Some(node)
  {
    if nodes[0] != node {
      assert nodes == [nodes[0]] + nodes[1..];
      assert nodes[0].name != node.name by {
        var i :| 0 <= i < |nodes| && nodes[i] == node;
      }
      forall i, j | 0 <= i < j < |nodes[1..]|
        ensures nodes[1..][i].name != nodes[1..][j].name
      {
        assert nodes[1..][i] == nodes[i + 1] && nodes[1..][j] == nodes[j + 1];
      }
      NodeFound(nodes[1..], node);
    }
  }

  /** For the same policy and annotation, Score gives 100 to the nodes that Filter would pass and 0 to the others. */
  lemma ScoreAgreesWithFilter(data: StateData, pod: Pod, snapshot: seq<Node>, node: Node)
    requires UniqueNames(snapshot) && node in snapshot && pod.Preference().Some?
    ensures ScoreOf(Some(data), pod, snapshot, node.name)
         == (if FilterStatus(Some(data), pod, Some(node)) == Success then 100 else 0, Success)
  {
    NodeFound(snapshot, node);
  }

  /** Normalizing leaves the plugin's scores alone when both 0 and 100 occur, and flattens them to 0 otherwise. */
  lemma NormalizedKinds(s: seq<N.NodeScore>)
    requires forall k | 0 <= k < |s| :: s[k].score == 0 || s[k].score == 100
    ensures (exists i, j | 0 <= i < |s| && 0 <= j < |s| :: s[i].score != s[j].score) ==> N.Normalized(s) == s
    ensures (forall i, j | 0 <= i < |s| && 0 <= j < |s| :: s[i].score == s[j].score)
              ==> forall k | 0 <= k < |s| :: N.Normalized(s)[k] == N.NodeScore(s[k].name, 0)
  {
    if s != [] {
      var lo, hi := N.ExtremesExist(s);
      forall k | 0 <= k < |s|
        ensures N.Normalized(s)[k].name == s[k].name
        ensures N.Normalized(s)[k].score == if s[lo].score == s[hi].score then 0 else s[k].score
      {
        N.NormalizedIsRescaling(s, k, k);
        N.RescaledExactly(s, lo, hi, k);
      }
    }
  }

  // Deciding again.

  /** The cache once the update of `pod` has reached it. */
  function Refreshed(pods: seq<Pod>, pod: Pod): seq<Pod> {
    seq(|pods|, i requires 0 <= i < |pods| => Refresh(pods[i], pod))
  }

  function Refresh(p: Pod, pod: Pod): Pod {
    if p.uid == pod.uid then pod else p
  }

  lemma RefreshedAppend(front: seq<Pod>, last: Pod, pod: Pod)
    ensures Refreshed(front + [last], pod) == Refreshed(front, pod) + [Refresh(last, pod)]
  {
  }

  lemma {:induction false} RefreshKeepsCount(pods: seq<Pod>, want: LabelMap, pod: Pod, group: set<string>)
    requires forall p | p in pods && p.uid == pod.uid :: p.labels == pod.labels
    ensures var before, after := PodsWithLabels(pods, want), PodsWithLabels(Refreshed(pods, pod), want);
            |before| == |after| && CountedPods(before, pod.uid, group) == CountedPods(after, pod.uid, group)
  {
    if pods != [] {
      var front, last := pods[..|pods| - 1], pods[|pods| - 1];
      assert pods == front + [last] && last in pods;
      RefreshKeepsCount(front, want, pod, group);
      RefreshKeepsCountStep(front, last, want, pod, group);
    }
  }

  lemma RefreshKeepsCountStep(front: seq<Pod>, last: Pod, want: LabelMap, pod: Pod, group: set<string>)
    requires last.uid == pod.uid ==> last.labels == pod.labels
    requires var before, after := PodsWithLabels(front, want), PodsWithLabels(Refreshed(front, pod), want);
             |before| == |after| && CountedPods(before, pod.uid, group) == CountedPods(after, pod.uid, group)
    ensures var pods := front + [last];
            var before, after := PodsWithLabels(pods, want), PodsWithLabels(Refreshed(pods, pod), want);
            |before| == |after| && CountedPods(before, pod.uid, group) == CountedPods(after, pod.uid, group)
  {
    RefreshedAppend(front, last, pod);
    ListedAppend(front, last, want);
    ListedAppend(Refreshed(front, pod), Refresh(last, pod), want);
    if Selects(want, last.labels) {
      CountedAppend(PodsWithLabels(front, want), last, pod.uid, group);
      CountedAppend(PodsWithLabels(Refreshed(front, pod), want), Refresh(last, pod), pod.uid, group);
    }
  }

  /** Because a pod is skipped in its own count, deciding again for it on an otherwise unchanged store sends the same
      update again and leaves the store as it is. */
  lemma RedecisionIsIdempotent(env: Environment, choice: Option<Policy>, pod: Pod)
    requires env.pods.Some?
    requires forall p | p in env.pods.value && p.uid == pod.uid :: p.labels == pod.labels
    ensures var out := PreFilterOutcome(env, choice, pod);
            var env' := env.(pods := Some(Refreshed(env.pods.value, out.pod)));
            && PreFilterOutcome(env', choice, out.pod) == out
            && Refreshed(env'.pods.value, out.pod) == env'.pods.value
  {
    var out := PreFilterOutcome(env, choice, pod);
    if out.request.Some? {
      var policy, nodes := choice.value, env.nodes.value;
      DecideFrames(env, policy, nodes, pod);
      var b :| out.pod == Annotated(pod, policy, b);
      RefreshKeepsCount(env.pods.value, policy.podSelector, out.pod, NodeGroup(nodes, policy.nodeSelector).Keys);
      SamePreference(env, Refreshed(env.pods.value, out.pod), policy, nodes, pod);
    } else if choice.Some? && env.policies.Some? && env.nodes.Some? && !choice.value.mode.BestEffort? {
      RefreshKeepsCount(env.pods.value, choice.value.podSelector, pod, {});
    }
  }

  lemma SamePreference(env: Environment, pods: seq<Pod>, policy: Policy, nodes: seq<Node>, pod: Pod)
    requires env.pods.Some?
    requires Prefers(policy, nodes, PodsWithLabels(pods, policy.podSelector), pod.uid)
          == Prefers(policy, nodes, PodsWithLabels(env.pods.value, policy.podSelector), pod.uid)
    ensures var out := DecideAndAnnotate(env, policy, nodes, pod);
            out.request.Some? ==> DecideAndAnnotate(env.(pods := Some(pods)), policy, nodes, out.pod) == out
  {
    AnnotationRoundTrip(pod, policy, true, true);
    AnnotationRoundTrip(pod, policy, false, false);
  }

  predicate SameButPod(out: Outcome, other: Outcome) {
    && other.status == out.status && other.data == out.data && other.request.Some? == out.request.Some?
    && (out.request.Some? ==> other.pod.Preference() == out.pod.Preference() && out.pod.Preference().Some?)
  }

  /** The pod's own old annotations play no part in its decision. */
  lemma DecisionIgnoresOwnAnnotation(env: Environment, choice: Option<Policy>, pod: Pod, annotations: LabelMap)
    ensures SameButPod(PreFilterOutcome(env, choice, pod),
                       PreFilterOutcome(env, choice, pod.(annotations := annotations)))
  {
    if choice.Some? && env.nodes.Some? {
      DecideIgnoresOwnAnnotation(env, choice.value, env.nodes.value, pod, annotations);
    }
  }

  lemma DecideIgnoresOwnAnnotation(env: Environment, policy: Policy, nodes: seq<Node>, pod: Pod, annotations: LabelMap)
    ensures SameButPod(DecideAndAnnotate(env, policy, nodes, pod),
                       DecideAndAnnotate(env, policy, nodes, pod.(annotations := annotations)))
  {
    forall b: bool
      ensures Annotated(pod, policy, b).Preference() == Some(b)
      ensures Annotated(pod.(annotations := annotations), policy, b).Preference() == Some(b)
    {
      AnnotationRoundTrip(pod, policy, b, b);
      AnnotationRoundTrip(pod.(annotations := annotations), policy, b, b);
    }
  }

  // PreScore on a part of the snapshot.

  /** Over fewer nodes the count is at most as large, so a preference can only turn from false to true. */
  lemma FewerNodesCountFewer(policy: Policy, nodes: seq<Node>, snapshot: seq<Node>, listed: seq<Pod>, self: string)
    requires forall n | n in nodes :: n in snapshot
    ensures var small := NodeGroup(nodes, policy.nodeSelector).Keys;
            var large := NodeGroup(snapshot, policy.nodeSelector).Keys;
            && small <= large && |CountedPods(listed, self, small)| <= |CountedPods(listed, self, large)|
    ensures Prefers(policy, snapshot, listed, self) == Some(true) ==> Prefers(policy, nodes, listed, self) == Some(true)
  {
    var small, large := NodeGroup(nodes, policy.nodeSelector).Keys, NodeGroup(snapshot, policy.nodeSelector).Keys;
    NodeGroupNames(nodes, policy.nodeSelector);
    NodeGroupNames(snapshot, policy.nodeSelector);
    assert small <= large;
    CountMonotone(listed, self, small, large);
  }

  /** Under an unset mode both hooks decide. PreScore is handed only some of the nodes and reads the pod cache again,
      which may by then show PreFilter's update; it can turn PreFilter's preference from false to true but never from
      true to false. */
  lemma PreScoreOnlyRaisesPreference(env: Environment, env': Environment, policy: Policy, nodes: seq<Node>, pod: Pod)
    requires policy.mode.OtherMode? && policy.rule.Valid() && Unhindered(env) && env.nodes.Some?
    requires forall n | n in nodes :: n in env.nodes.value
    requires forall p | p in env.pods.value && p.uid == pod.uid :: p.labels == pod.labels
    requires var pf := PreFilterOutcome(env, Some(policy), pod);
             env' == env || env' == env.(pods := Some(Refreshed(env.pods.value, pf.pod)))
    ensures var pf := PreFilterOutcome(env, Some(policy), pod);
            var ps := PreScoreOutcome(env', Some(policy), nodes, pf.pod);
            && pf.pod.Preference().Some? && ps.pod.Preference().Some?
            && (pf.pod.Preference() == Some(true) ==> ps.pod.Preference() == Some(true))
  {
    var pf := PreFilterOutcome(env, Some(policy), pod);
    var listed, listed' := PodsWithLabels(env.pods.value, policy.podSelector),
                           PodsWithLabels(env'.pods.value, policy.podSelector);
    var b, c := Prefers(policy, env.nodes.value, listed, pod.uid).value, Prefers(policy, nodes, listed', pod.uid).value;
    assert b ==> c by {
      RefreshKeepsCount(env.pods.value, policy.podSelector, pf.pod, NodeGroup(nodes, policy.nodeSelector).Keys);
      FewerNodesCountFewer(policy, nodes, env.nodes.value, listed, pod.uid);
      assert Prefers(policy, nodes, listed', pod.uid) == Prefers(policy, nodes, listed, pod.uid);
    }
    AnnotationRoundTrip(pod, policy, b, c);
    AnnotationRoundTrip(pf.pod, policy, c, c);
  }
}
