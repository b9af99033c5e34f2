/** An unset enforcement mode: PreFilter and PreScore both decide, Filter enforces the first decision, and the
    annotation keeps the second. */
module UnsetMode {
  import opened Prelude
  import Labels
  import opened Objects
  import Grouping
  import opened Hooks
  import HookLaws
  import opened Cycles
  import Q = Quota
  import N = Normalize

  /** PreScore's decision when Filter has passed no node of the group: only unbound pods with a promise count. */
  function PromisesLeaveRoom(cfg: Config, cache: seq<Pod>, pod: Pod): bool
    requires cfg.policy.rule.Valid()
  {
    var listed := PodsWithLabels(cache, cfg.policy.podSelector);
    |Grouping.CountedPods(listed, pod.uid, {})| < Q.Target(cfg.policy.rule, |listed|).value
  }

  /** PreScore's decision after PreFilter has decided `prefers`: of the group, Filter has passed all or nothing. */
  function SecondDecision(cfg: Config, cache: seq<Pod>, prefers: bool, pod: Pod): bool
    requires cfg.policy.rule.Valid()
  {
    if prefers then Preferred(cfg, cache, pod) else PromisesLeaveRoom(cfg, cache, pod)
  }

  /** What a cycle amounts to: PreFilter's decision says where the pod may go. With several nodes there, PreScore
      decides again: if its update is accepted, its decision is the annotation that stays; if not, PreFilter's
      annotation stays and the pod gets no node. */
  function DoubleCycle(cfg: Config, first: Attempt, second: Attempt, pod: Pod): CycleResult
    requires cfg.policy.rule.Valid()
  {
    var prefers := Preferred(cfg, first.cache, pod);
    var before := Annotated(pod, cfg.policy, prefers);
    var after := Annotated(pod, cfg.policy, SecondDecision(cfg, second.cache, prefers, pod));
    if cfg.nodes == [] then CycleResult([], None, {})
    else if !first.accepted then CycleResult([before], None, {})
    else if |cfg.Side(prefers)| <= 1 then CycleResult([before], Some(before), cfg.Side(prefers))
    else if !second.accepted then CycleResult([before, after], Some(before), {})
    else CycleResult([before, after], Some(after), cfg.Side(prefers))
  }

  lemma UnsetModeCycle(cfg: Config, first: Attempt, second: Attempt, pod: Pod)
    requires cfg.Valid() && cfg.policy.mode.OtherMode?
    ensures HookCycle(cfg, first, second, pod) == DoubleCycle(cfg, first, second, pod)
  {
    if cfg.nodes != [] && first.accepted {
      var pf := PreFilterOutcome(EnvironmentOf(cfg.Alone(), first), Some(cfg.policy), pod);
      DecidedFeasible(cfg, first.cache, pod);
      AcceptedCycle(cfg, first, second, pf, Feasible(cfg.nodes, pf.data, pf.pod), pod);
    } else {
      RefusedCycle(cfg, first, second, pod);
    }
  }

  lemma RefusedCycle(cfg: Config, first: Attempt, second: Attempt, pod: Pod)
    requires cfg.Valid() && cfg.policy.mode.OtherMode? && (cfg.nodes == [] || !first.accepted)
    ensures HookCycle(cfg, first, second, pod) == DoubleCycle(cfg, first, second, pod)
  {
  }

  lemma AcceptedCycle(cfg: Config, first: Attempt, second: Attempt, pf: Outcome, feasible: seq<Node>, pod: Pod)
    requires cfg.Valid() && cfg.policy.mode.OtherMode? && cfg.nodes != [] && first.accepted
    requires var prefers := Preferred(cfg, first.cache, pod);
             pf.pod == Annotated(pod, cfg.policy, prefers) && OnSide(cfg, feasible, prefers)
    requires pf.status == Success && pf.request == Some(pf.pod)
    ensures AfterPreFilter(cfg.Alone(), Some(cfg.policy), first, second, pf, feasible)
         == DoubleCycle(cfg, first, second, pod)
  {
    var prefers := Preferred(cfg, first.cache, pod);
    SideNames(cfg, feasible, prefers);
    if 2 <= |feasible| {
      ScoredCycle(cfg, first, second, pf, feasible, prefers, pod);
    }
  }

  lemma ScoredCycle(cfg: Config, first: Attempt, second: Attempt, pf: Outcome, feasible: seq<Node>, prefers: bool,
                    pod: Pod)
    requires cfg.Valid() && cfg.policy.mode.OtherMode? && first.accepted && 2 <= |feasible|
    requires pf.pod == Annotated(pod, cfg.policy, prefers) && OnSide(cfg, feasible, prefers)
    requires pf.status == Success && pf.request == Some(pf.pod)
    ensures var after := Annotated(pod, cfg.policy, SecondDecision(cfg, second.cache, prefers, pod));
            AfterPreFilter(cfg.Alone(), Some(cfg.policy), first, second, pf, feasible) ==
              if second.accepted then CycleResult([pf.pod, after], Some(after), cfg.Side(prefers))
              else CycleResult([pf.pod, after], Some(pf.pod), {})
  {
    SecondPhase(cfg, second, feasible, prefers, pod);
  }

  lemma SecondPhase(cfg: Config, second: Attempt, feasible: seq<Node>, prefers: bool, pod: Pod)
    requires cfg.Valid() && cfg.policy.mode.OtherMode? && OnSide(cfg, feasible, prefers)
    ensures var before := Annotated(pod, cfg.policy, prefers);
            var after := Annotated(pod, cfg.policy, SecondDecision(cfg, second.cache, prefers, pod));
            var env := EnvironmentOf(cfg.Alone(), second);
            var (ps, permitted) := ScorePhase(cfg.Alone(), Some(cfg.policy), env, feasible, before);
            ps.request == Some(after) && permitted == if second.accepted then cfg.Side(prefers) else {}
  {
    SecondOutcome(cfg, second, feasible, prefers, pod);
    if second.accepted {
      var after := SecondDecision(cfg, second.cache, prefers, pod);
      AnnotationRoundTrip(pod, cfg.policy, after, after);
      SecondScores(cfg, feasible, prefers, Annotated(pod, cfg.policy, after));
    }
  }

  /** On the side of the first decision, the group is whole or empty. */
  lemma GroupOfFeasible(cfg: Config, feasible: seq<Node>, prefers: bool)
    requires OnSide(cfg, feasible, prefers)
    ensures Grouping.NodeGroup(feasible, cfg.policy.nodeSelector).Keys == if prefers then cfg.Group() else {}
  {
    Grouping.NodeGroupNames(feasible, cfg.policy.nodeSelector);
    Grouping.NodeGroupNames(cfg.nodes, cfg.policy.nodeSelector);
  }

  lemma SecondOutcome(cfg: Config, second: Attempt, feasible: seq<Node>, prefers: bool, pod: Pod)
    requires cfg.Valid() && cfg.policy.mode.OtherMode? && OnSide(cfg, feasible, prefers)
    ensures var after := Annotated(pod, cfg.policy, SecondDecision(cfg, second.cache, prefers, pod));
            var before := Annotated(pod, cfg.policy, prefers);
            PreScoreOutcome(EnvironmentOf(cfg.Alone(), second), Some(cfg.policy), feasible, before) ==
              if second.accepted then Outcome(Success, after, Some(after), Some(StateData(pod.name, cfg.policy)))
              else Outcome(Error(AnnotatePod), after, Some(after), None)
  {
    GroupOfFeasible(cfg, feasible, prefers);
    HookLaws.AnnotatedOver(pod, cfg.policy, prefers, cfg.policy, SecondDecision(cfg, second.cache, prefers, pod));
  }

  /** The nodes that passed Filter are all on one side, so normalizing makes their scores equal. */
  lemma SecondScores(cfg: Config, feasible: seq<Node>, prefers: bool, after: Pod)
    requires cfg.Valid() && after.Preference().Some? && OnSide(cfg, feasible, prefers)
    ensures var data := Some(StateData(after.name, cfg.policy));
            && !ScoringFails(data, after, cfg.nodes, feasible)
            && Best(N.Normalized(Scores(data, after, cfg.nodes, feasible))) == cfg.Side(prefers)
  {
    var data, second := StateData(after.name, cfg.policy), after.Preference().value;
    ScoresOfGroups(cfg, data, after, second);
    FlatBest(Some(data), after, cfg.nodes, feasible, if prefers == second then 100 else 0);
    SideNames(cfg, feasible, prefers);
  }

  /** A cycle under the unset mode stores and permits what a Strict one does exactly when its first update is refused,
      or at most one node is on the decided side, or its second update is accepted with the same decision. */
  lemma UnsetCycleIsStrictIff(cfg: Config, first: Attempt, second: Attempt, pod: Pod)
    requires cfg.Valid() && cfg.policy.mode.OtherMode?
    ensures var result, intended := HookCycle(cfg, first, second, pod), IntendedCycle(cfg, first, pod);
            var prefers := Preferred(cfg, first.cache, pod);
            (result.stored == intended.stored && result.permitted == intended.permitted <==>
               || !first.accepted || |cfg.Side(prefers)| <= 1
               || (second.accepted && SecondDecision(cfg, second.cache, prefers, pod) == prefers))
  {
    UnsetModeCycle(cfg, first, second, pod);
    AnnotationRoundTrip(pod, cfg.policy, true, true);
    AnnotationRoundTrip(pod, cfg.policy, false, false);
  }

  /** A cycle that is no Strict one: a pod is bound on the group, which is the quota of a Must count of one, and the
      other pod is kept off the group with an annotation that promises it. */
  lemma PromiseDespiteBoundPod(cfg: Config, placed: Pod, pod: Pod)
    requires cfg.Valid() && cfg.policy.mode.OtherMode? && cfg.policy.rule == Q.Rule(Q.Must, Q.Count(1))
    requires 2 <= |cfg.Side(false)| && placed.nodeName != "" && placed.nodeName in cfg.Group()
    requires placed.uid != pod.uid && placed.labels == pod.labels && Labels.Selects(cfg.policy.podSelector, pod.labels)
    ensures var attempt := Attempt([placed] + [pod], true);
            && !Preferred(cfg, attempt.cache, pod) && PromisesLeaveRoom(cfg, attempt.cache, pod)
            && HookCycle(cfg, attempt, attempt, pod).stored == Some(Annotated(pod, cfg.policy, true))
            && HookCycle(cfg, attempt, attempt, pod).permitted == cfg.Side(false)
            && IntendedCycle(cfg, attempt, pod).stored == Some(Annotated(pod, cfg.policy, false))
  {
    var attempt := Attempt([placed] + [pod], true);
    OneBoundPod(cfg, placed, pod);
    UnsetModeCycle(cfg, attempt, attempt, pod);
  }

  lemma OneBoundPod(cfg: Config, placed: Pod, pod: Pod)
    requires cfg.policy.rule == Q.Rule(Q.Must, Q.Count(1)) && placed.nodeName != "" && placed.nodeName in cfg.Group()
    requires placed.uid != pod.uid && placed.labels == pod.labels && Labels.Selects(cfg.policy.podSelector, pod.labels)
    ensures !Preferred(cfg, [placed] + [pod], pod) && PromisesLeaveRoom(cfg, [placed] + [pod], pod)
  {
    var want := cfg.policy.podSelector;
    HookLaws.ListedAppend([placed], pod, want);
    HookLaws.ListedAppend([], placed, want);
    assert [] + [placed] == [placed];
    forall group: set<string>
      ensures Grouping.CountedPods([placed] + [pod], pod.uid, group)
           == if Grouping.Placed(placed, group) then [placed] else []
    {
      HookLaws.CountedAppend([placed], pod, pod.uid, group);
      HookLaws.CountedAppend([], placed, pod.uid, group);
    }
  }
}
