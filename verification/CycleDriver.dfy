/** A whole cycle on the shared objects: the framework's calls of the plugin's methods, in order. It computes what the
    step system takes a cycle to be. */
module CycleDriver {
  import opened Prelude
  import opened Objects
  import PolicyChoice
  import opened Hooks
  import HookLaws
  import opened Plugin
  import opened Cycles
  import N = Normalize

  /** The plugin's listers hold this cluster, and this is what its next attempt to decide meets. */
  predicate RunsWith(plugin: PlacementPolicyPlugin, cluster: Cluster, attempt: Attempt)
    reads plugin.mgr, plugin.mgr.indexer
  {
    && plugin.mgr.indexer != null && plugin.mgr.indexer[..] == cluster.policies
    && plugin.snapshot == Some(cluster.nodes) && plugin.mgr.podLister == Some(attempt.cache)
    && plugin.mgr.updateSucceeds == attempt.accepted
  }

  method FilterNodes(plugin: PlacementPolicyPlugin, state: CycleState, pod: PodObject, nodes: seq<Node>)
    returns (feasible: seq<Node>)
    ensures feasible == Feasible(nodes, state.Read(PREFILTER_KEY), pod.Value())
    ensures forall n :: n in feasible <==>
              n in nodes && FilterStatus(state.Read(PREFILTER_KEY), pod.Value(), Some(n)) == Success
  {
    feasible := [];
    for i := 0 to |nodes|
      invariant feasible == Feasible(nodes[..i], state.Read(PREFILTER_KEY), pod.Value())
    {
      assert nodes[..i + 1][..i] == nodes[..i];
      var status := plugin.Filter(state, pod, Some(nodes[i]));
      if status == Success {
        feasible := feasible + [nodes[i]];
      }
    }
    assert nodes[..|nodes|] == nodes;
    FeasibleNodes(nodes, state.Read(PREFILTER_KEY), pod.Value());
  }

  method ScoreNodes(plugin: PlacementPolicyPlugin, state: CycleState, pod: PodObject, feasible: seq<Node>)
    returns (failed: bool, scores: array<N.NodeScore>)
    ensures fresh(scores)
    ensures scores[..] == Scores(state.Read(PRESCORE_KEY), pod.Value(), plugin.SnapshotNodes(), feasible)
    ensures failed == ScoringFails(state.Read(PRESCORE_KEY), pod.Value(), plugin.SnapshotNodes(), feasible)
    ensures scores.Length == |feasible|
    ensures forall k | 0 <= k < |feasible| ::
              scores[k] == N.NodeScore(feasible[k].name, ScoreOf(state.Read(PRESCORE_KEY), pod.Value(),
                                                                 plugin.SnapshotNodes(), feasible[k].name).0)
    ensures failed <==> exists n :: n in feasible && ScoreOf(state.Read(PRESCORE_KEY), pod.Value(),
                                                             plugin.SnapshotNodes(), n.name).1 != Success
  {
    failed := false;
    ghost var data, value, nodes := state.Read(PRESCORE_KEY), pod.Value(), plugin.SnapshotNodes();
    ghost var goal := Scores(data, value, nodes, feasible);
    scores := new N.NodeScore[|feasible|](_ => N.NodeScore("", 0));
    for i := 0 to |feasible|
      invariant data == state.Read(PRESCORE_KEY) && value == pod.Value()
      invariant forall k | 0 <= k < i :: scores[k] == goal[k]
      invariant failed <==> exists k | 0 <= k < i :: ScoreOf(data, value, nodes, feasible[k].name).1 != Success
    {
      var score, status := plugin.Score(state, pod, feasible[i].name);
      scores[i] := N.NodeScore(feasible[i].name, score);
      if status != Success {
        failed := true;
      }
    }
    FailsIff(data, value, nodes, feasible);
    assert scores[..] == goal;
  }

  lemma FailsIff(data: Option<StateData>, pod: Pod, snapshot: seq<Node>, feasible: seq<Node>)
    ensures ScoringFails(data, pod, snapshot, feasible) <==>
              exists k | 0 <= k < |feasible| :: ScoreOf(data, pod, snapshot, feasible[k].name).1 != Success
  {
    if ScoringFails(data, pod, snapshot, feasible) {
      var n :| n in feasible && ScoreOf(data, pod, snapshot, n.name).1 != Success;
      var k :| 0 <= k < |feasible| && feasible[k] == n;
    }
  }

  method FilterPhase(plugin: PlacementPolicyPlugin, cluster: Cluster, attempt: Attempt, state: CycleState,
                     pod: PodObject)
    returns (status: Status, feasible: seq<Node>, ghost choice: Option<Policy>)
    requires RunsWith(plugin, cluster, attempt) && state.data == map[]
    modifies state, plugin.mgr`requests, pod, pod.Footprint()
    ensures pod.annotations == old(pod.annotations) || (old(pod.annotations) == null && fresh(pod.annotations))
    ensures PolicyChoice.IsChoice(cluster.policies, old(pod.Value()), choice)
    ensures var pf := PreFilterOutcome(EnvironmentOf(cluster, attempt), choice, old(pod.Value()));
            && status == pf.status && pod.Value() == pf.pod
            && plugin.mgr.requests == Sent(old(plugin.mgr.requests), pf.request)
            && feasible == if status == Success then Feasible(cluster.nodes, pf.data, pf.pod) else []
    ensures state.Read(PRESCORE_KEY) == None
  {
    assert |PREFILTER_KEY| != |PRESCORE_KEY|;
    status, choice := plugin.PreFilter(state, pod);
    feasible := [];
    if status == Success {
      feasible := FilterNodes(plugin, state, pod, cluster.nodes);
    }
  }

  method BestNodes(plugin: PlacementPolicyPlugin, state: CycleState, pod: PodObject, feasible: seq<Node>)
    returns (best: set<string>)
    ensures var data := state.Read(PRESCORE_KEY);
            best == if ScoringFails(data, pod.Value(), plugin.SnapshotNodes(), feasible) then {}
                    else Best(N.Normalized(Scores(data, pod.Value(), plugin.SnapshotNodes(), feasible)))
  {
    var failed, scores := ScoreNodes(plugin, state, pod, feasible);
    if failed {
      return {};
    }
    N.NormalizeScore(scores);
    best := Best(scores[..]);
  }

  method RunScorePhase(plugin: PlacementPolicyPlugin, cluster: Cluster, attempt: Attempt, state: CycleState,
                       pod: PodObject, feasible: seq<Node>)
    returns (permitted: set<string>, ghost choice: Option<Policy>)
    requires RunsWith(plugin, cluster, attempt) && state.Read(PRESCORE_KEY) == None
    modifies state, plugin.mgr`requests, pod, pod.Footprint()
    ensures PolicyChoice.IsChoice(cluster.policies, old(pod.Value()), choice)
    ensures var phase := ScorePhase(cluster, choice, EnvironmentOf(cluster, attempt), feasible, old(pod.Value()));
            && permitted == phase.1 && pod.Value() == phase.0.pod
            && plugin.mgr.requests == Sent(old(plugin.mgr.requests), phase.0.request)
  {
    var status;
    status, choice := plugin.PreScore(state, pod, feasible);
    permitted := {};
    if status == Success {
      permitted := BestNodes(plugin, state, pod, feasible);
    }
  }

  /** The pod lister and the API server move on between the hooks. */
  method MoveOn(plugin: PlacementPolicyPlugin, cluster: Cluster, attempt: Attempt, next: Attempt)
    requires RunsWith(plugin, cluster, attempt)
    modifies plugin.mgr`podLister, plugin.mgr`updateSucceeds
    ensures RunsWith(plugin, cluster, next)
  {
    plugin.mgr.podLister, plugin.mgr.updateSucceeds := Some(next.cache), next.accepted;
  }

  /** For any pod and any policies: the cycle permits the nodes and sends the updates that the model of a cycle says,
      for policies that the two lookups may find, and leaves the pod object as it was last sent. */
  method SchedulingCycle(plugin: PlacementPolicyPlugin, cluster: Cluster, first: Attempt, second: Attempt,
                         pod: PodObject)
    returns (permitted: set<string>, ghost choice: Option<Policy>, ghost choice': Option<Policy>)
    requires RunsWith(plugin, cluster, first)
    modifies plugin.mgr, pod, pod.Footprint()
    ensures PolicyChoice.IsChoice(cluster.policies, old(pod.Value()), choice)
    ensures PolicyChoice.IsChoice(cluster.policies, old(pod.Value()), choice')
    ensures var result := CycleOf(cluster, choice, choice', first, second, old(pod.Value()));
            && permitted == result.permitted
            && plugin.mgr.requests == old(plugin.mgr.requests) + result.requests
            && pod.Value() == PodAfter(old(pod.Value()), result.requests)
  {
    ghost var before, sent := pod.Value(), plugin.mgr.requests;
    choice := PolicyChoice.ChoiceExists(cluster.policies, before);
    choice' := choice;
    if cluster.nodes == [] {
      return {}, choice, choice';
    }
    var state := new CycleState();
    var earlier := |plugin.mgr.requests|;
    var status, feasible;
    status, feasible, choice := FilterPhase(plugin, cluster, first, state, pod);
    if status != Success || |feasible| <= 1 {
      CycleStops(cluster, choice, choice', first, second, before, sent);
      permitted := {};
      if status == Success && |feasible| == 1 {
        permitted := {feasible[0].name};
      }
      return permitted, choice, choice';
    }
    var attempt := first;
    if earlier < |plugin.mgr.requests| {
      attempt := second;
      MoveOn(plugin, cluster, first, second);
    }
    SameLookups(EnvironmentOf(cluster, first), choice, before);
    permitted, choice' := RunScorePhase(plugin, cluster, attempt, state, pod, feasible);
    CycleGoesOn(cluster, choice, choice', first, second, before, feasible, sent);
  }

  /** PreFilter's annotations do not change what policies apply. */
  lemma SameLookups(env: Environment, choice: Option<Policy>, pod: Pod)
    ensures var after := PreFilterOutcome(env, choice, pod).pod;
            forall policies, other :: PolicyChoice.IsChoice(policies, after, other)
                                  <==> PolicyChoice.IsChoice(policies, pod, other)
  {
    HookLaws.HooksFrame(env, choice, [], pod);
    var after := PreFilterOutcome(env, choice, pod).pod;
    assert after.namespace == pod.namespace && after.labels == pod.labels;
    assert forall p :: PolicyChoice.Governs(p, after) <==> PolicyChoice.Governs(p, pod);
  }

  /** A cycle that ends with PreFilter or Filter. */
  lemma CycleStops(cluster: Cluster, choice: Option<Policy>, choice': Option<Policy>, first: Attempt, second: Attempt,
                   pod: Pod, sent: seq<Pod>)
    requires cluster.nodes != []
    requires var pf := PreFilterOutcome(EnvironmentOf(cluster, first), choice, pod);
             pf.status.Success? ==> |Feasible(cluster.nodes, pf.data, pf.pod)| <= 1
    ensures var pf := PreFilterOutcome(EnvironmentOf(cluster, first), choice, pod);
            var feasible := Feasible(cluster.nodes, pf.data, pf.pod);
            var result := CycleOf(cluster, choice, choice', first, second, pod);
            && result.permitted == (if !pf.status.Success? || feasible == [] then {} else {feasible[0].name})
            && Sent(sent, pf.request) == sent + result.requests
            && pf.pod == PodAfter(pod, result.requests)
  {
    HookLaws.HooksFrame(EnvironmentOf(cluster, first), choice, [], pod);
  }

  /** A cycle that gets to the score phase. */
  lemma CycleGoesOn(cluster: Cluster, choice: Option<Policy>, choice': Option<Policy>, first: Attempt, second: Attempt,
                    pod: Pod, feasible: seq<Node>, sent: seq<Pod>)
    requires var pf := PreFilterOutcome(EnvironmentOf(cluster, first), choice, pod);
             pf.status.Success? && feasible == Feasible(cluster.nodes, pf.data, pf.pod) && 2 <= |feasible|
    ensures var pf := PreFilterOutcome(EnvironmentOf(cluster, first), choice, pod);
            var env := EnvironmentOf(cluster, ScoreAttempt(first, second, pf));
            var (ps, permitted) := ScorePhase(cluster, choice', env, feasible, pf.pod);
            var result := CycleOf(cluster, choice, choice', first, second, pod);
            && permitted == result.permitted
            && Sent(Sent(sent, pf.request), ps.request) == sent + result.requests
            && ps.pod == PodAfter(pod, result.requests)
  {
    var pf := PreFilterOutcome(EnvironmentOf(cluster, first), choice, pod);
    var env := EnvironmentOf(cluster, ScoreAttempt(first, second, pf));
    HookLaws.HooksFrame(EnvironmentOf(cluster, first), choice, [], pod);
    HookLaws.HooksFrame(env, choice', feasible, pf.pod);
    SentTwice(sent, pf.request, ScorePhase(cluster, choice', env, feasible, pf.pod).0.request);
  }

  lemma SentTwice(sent: seq<Pod>, first: Option<Pod>, second: Option<Pod>)
    ensures Sent(Sent(sent, first), second) == sent + Sent(Sent([], first), second)
  {
  }
}
