/** The cluster-wide guarantee: over every run, the local comparison keeps the number of counted pods at the quota. */
module QuotaTheorems {
  import opened Prelude
  import opened Objects
  import opened Grouping
  import opened Hooks
  import HookLaws
  import opened Cycles
  import opened Tallies
  import opened Scheduler
  import Q = Quota

  // What a cycle's cache tells about the store.

  lemma CacheCounts(cfg: Config, s: State, uid: string, cache: seq<Pod>)
    requires uid in Selected(cfg, s.pods) && s.pods[uid].uid == uid && Lists(cache, s.pods[uid])
    ensures var listed := PodsWithLabels(cache, cfg.policy.podSelector);
            var shown := |CountedPods(listed, uid, cfg.Group())|;
            var selected, others := TallyOf(cfg, s.pods).selected, TallyOf(cfg, s.pods - {uid}).counted;
            && (exists p :: p in listed && p.uid == uid)
            && |listed| <= selected + |Surplus(cfg, s, cache)| && selected <= |listed| + |Missing(cfg, s, cache)|
            && others <= shown + |Hidden(cfg, s, uid, cache)|
            && shown <= others + |Phantoms(cfg, s, uid, cache)|
  {
    var listed := PodsWithLabels(cache, cfg.policy.podSelector);
    HookLaws.ListedPods(cache, cfg.policy.podSelector);
    var own :| own in cache && own.uid == uid && own.labels == s.pods[uid].labels;
    assert own in listed;
    UidsSize(listed);
    CoveredSize(Uids(listed), Selected(cfg, s.pods), Surplus(cfg, s, cache));
    CoveredSize(Selected(cfg, s.pods), Uids(listed), Missing(cfg, s, cache));

    CountIsCardinality(listed, uid, cfg.Group());
    WhereSize(cfg, s.pods, uid, CountedTest);
    ShownIsNotSelf(cfg, uid, cache);
    var others := Counted(cfg, s.pods) - {uid};
    CoveredSize(others, Shown(cfg, uid, cache), Hidden(cfg, s, uid, cache));
    CoveredSize(Shown(cfg, uid, cache), others, Phantoms(cfg, s, uid, cache));
  }

  lemma CoveredSize<T>(a: set<T>, b: set<T>, c: set<T>)
    requires a <= b + c
    ensures |a| <= |b| + |c|
  {
    SubsetSize(a, b + c);
    assert |b + c| <= |b| + |c|;
  }

  lemma ShownIsNotSelf(cfg: Config, uid: string, cache: seq<Pod>)
    ensures uid !in Shown(cfg, uid, cache)
  {
  }

  /** A fresh cache gets nothing wrong. */
  lemma FreshShows(cfg: Config, s: State, uid: string, cache: seq<Pod>)
    requires Fresh(cache, s.pods, uid)
    ensures uid in s.pods && s.pods[uid].uid == uid ==> Lists(cache, s.pods[uid])
    ensures Missing(cfg, s, cache) == {} && Surplus(cfg, s, cache) == {}
    ensures Hidden(cfg, s, uid, cache) == {} && Phantoms(cfg, s, uid, cache) == {}
  {
    FreshLists(cfg, s, uid, cache);
    FreshShown(cfg, s, uid, cache);
  }

  lemma FreshLists(cfg: Config, s: State, uid: string, cache: seq<Pod>)
    requires Fresh(cache, s.pods, uid)
    ensures uid in s.pods && s.pods[uid].uid == uid ==> Lists(cache, s.pods[uid])
    ensures ListedUids(cfg, cache) == Selected(cfg, s.pods)
  {
    HookLaws.ListedPods(cache, cfg.policy.podSelector);
    forall u | u in s.pods
      ensures exists p :: p in cache && p.uid == u && p.labels == s.pods[u].labels
    {
      assert u in Uids(cache);
      var p :| p in cache && p.uid == u;
    }
  }

  lemma FreshShown(cfg: Config, s: State, uid: string, cache: seq<Pod>)
    requires Fresh(cache, s.pods, uid)
    ensures Shown(cfg, uid, cache) == Counted(cfg, s.pods) - {uid}
  {
    HookLaws.ListedPods(cache, cfg.policy.podSelector);
    forall u | u in Counted(cfg, s.pods) && u != uid
      ensures u in Shown(cfg, uid, cache)
    {
      assert u in Uids(cache);
      var p :| p in cache && p.uid == u;
      assert p in PodsWithLabels(cache, cfg.policy.podSelector);
    }
  }

  // One step.

  lemma CycleResultFacts(cfg: Config, first: Attempt, second: Attempt, pod: Pod)
    requires cfg.Valid() && cfg.Enforced() && cfg.nodes != []
    ensures var result := HookCycle(cfg, first, second, pod);
            var prefers := Preferred(cfg, first.cache, pod);
            && result.stored == (if first.accepted then Some(Annotated(pod, cfg.policy, prefers)) else None)
            && Annotated(pod, cfg.policy, prefers).Preference() == Some(prefers)
            && (forall n | n in result.permitted :: first.accepted && n != "" && (n in cfg.Group() <==> prefers))
  {
    EnforcedCycle(cfg, first, second, pod);
    var prefers := Preferred(cfg, first.cache, pod);
    AnnotationRoundTrip(pod, cfg.policy, prefers, prefers);
    forall n | n in cfg.nodes
      ensures n.name in cfg.Group() <==> cfg.InGroup(n)
    {
      NodeInGroupIff(cfg.nodes, cfg.policy.nodeSelector, n);
    }
  }

  /** In every mode, a permitted node is a named one, and what is stored is the pod with other annotations. */
  lemma CycleShape(cfg: Config, first: Attempt, second: Attempt, pod: Pod)
    requires cfg.Valid()
    ensures var result := HookCycle(cfg, first, second, pod);
            && (forall n | n in result.permitted :: n != "")
            && (result.stored.Some? ==> result.stored.value == pod.(annotations := result.stored.value.annotations))
  {
    if cfg.nodes != [] {
      var pf := PreFilterOutcome(EnvironmentOf(cfg.Alone(), first), Some(cfg.policy), pod);
      HookLaws.HooksFrame(EnvironmentOf(cfg.Alone(), first), Some(cfg.policy), [], pod);
      FeasibleNodes(cfg.nodes, pf.data, pf.pod);
      ShapeAfterPreFilter(cfg, first, second, pf, Feasible(cfg.nodes, pf.data, pf.pod), pod);
    }
  }

  lemma ShapeAfterPreFilter(cfg: Config, first: Attempt, second: Attempt, pf: Outcome, feasible: seq<Node>, pod: Pod)
    requires cfg.Valid() && forall n | n in feasible :: n in cfg.nodes
    requires pf.pod == pod.(annotations := pf.pod.annotations) && (pf.request.Some? ==> pf.request.value == pf.pod)
    ensures var result := AfterPreFilter(cfg.Alone(), Some(cfg.policy), first, second, pf, feasible);
            && (forall n | n in result.permitted :: n != "")
            && (result.stored.Some? ==> result.stored.value == pod.(annotations := result.stored.value.annotations))
  {
    var env := EnvironmentOf(cfg.Alone(), ScoreAttempt(first, second, pf));
    HookLaws.HooksFrame(env, Some(cfg.policy), feasible, pf.pod);
    if feasible != [] {
      assert feasible[0] in feasible;
      BestAreFeasible(cfg, env, feasible, pf.pod);
    }
  }

  /** In any mode: a cycle writes at most the pod's annotations, and starts at most a binding of the pod. */
  lemma CycleNext(cfg: Config, s: State, e: Event) returns (after: Pod)
    requires cfg.Valid() && Inv(s) && Enabled(cfg, s, e) && e.Cycle?
    ensures var result := HookCycle(cfg, e.first, e.second, s.pods[e.uid]);
            && Next(cfg, s, e) == State(s.pods[e.uid := after], PendingAfter(s.pending, e.uid, result.permitted))
            && (result.stored.Some? ==> after == result.stored.value)
    ensures after == s.pods[e.uid].(annotations := after.annotations)
  {
    var pod := s.pods[e.uid];
    CycleShape(cfg, e.first, e.second, pod);
    var result := HookCycle(cfg, e.first, e.second, pod);
    after := if result.stored.Some? then result.stored.value else pod;
    assert s.pods[e.uid := pod] == s.pods;
  }

  lemma BestAreFeasible(cfg: Config, env: Environment, feasible: seq<Node>, pod: Pod)
    ensures forall name | name in ScorePhase(cfg.Alone(), Some(cfg.policy), env, feasible, pod).1 ::
              exists n :: n in feasible && n.name == name
  {
  }

  /** Every event leaves the other pods and the bindings under way for them alone; and what becomes of its own pod. */
  lemma EventEffect(cfg: Config, s: State, e: Event)
    requires cfg.Valid() && Inv(s) && Enabled(cfg, s, e)
    ensures SameElsewhere(s, Next(cfg, s, e), Subject(e))
    ensures var s', u := Next(cfg, s, e), Subject(e);
            match e
            case Create(pod) => u in s'.pods && s'.pods[u] == pod && u !in s'.pending
            case Cycle(_, _, _) =>
              && u in s'.pods && s'.pods[u] == s.pods[u].(annotations := s'.pods[u].annotations)
              && (u in s'.pending ==> s'.pending[u] != {})
            case Bind(_, node) => u in s'.pods && s'.pods[u] == s.pods[u].(nodeName := node) && u !in s'.pending
            case FailBind(_) => u in s'.pods && s'.pods[u] == s.pods[u] && u !in s'.pending
            case Delete(_) => u !in s'.pods && u !in s'.pending
            case Interfere(pod) =>
              && u in s'.pods && s'.pods[u] == pod
              && (u in s'.pending <==> u in s.pending && !pod.Bound())
              && (u in s'.pending ==> s'.pending[u] == s.pending[u])
  {
    if e.Cycle? {
      var after := CycleNext(cfg, s, e);
      var permitted := HookCycle(cfg, e.first, e.second, s.pods[e.uid]).permitted;
      CycleEffect(s, Next(cfg, s, e), e.uid, after, permitted);
    }
  }

  lemma CycleEffect(s: State, s': State, uid: string, after: Pod, permitted: set<string>)
    requires uid in s.pods && s' == State(s.pods[uid := after], PendingAfter(s.pending, uid, permitted))
    ensures SameElsewhere(s, s', uid) && uid in s'.pods && s'.pods[uid] == after
    ensures uid in s'.pending ==> s'.pending[uid] == permitted != {}
  {
    WriteThenRemove(s.pods, uid, after);
    PendingThenRemove(s.pending, uid, permitted);
  }

  lemma InvStep(cfg: Config, s: State, e: Event)
    requires cfg.Valid() && Inv(s) && Enabled(cfg, s, e)
    ensures Inv(Next(cfg, s, e))
  {
    if e.Cycle? {
      CycleShape(cfg, e.first, e.second, s.pods[e.uid]);
    }
  }

  /** After a cycle the pod is decided, and counted exactly when the cached count was below the quota. */
  lemma CycleTally(cfg: Config, s: State, e: Event)
    requires cfg.Valid() && cfg.Enforced() && Inv(s) && Enabled(cfg, s, e) && e.Cycle? && e.first.accepted
    ensures var t, t' := TallyOf(cfg, s.pods), TallyOf(cfg, Next(cfg, s, e).pods);
            var listed := PodsWithLabels(e.first.cache, cfg.policy.podSelector);
            var shown := |CountedPods(listed, e.uid, cfg.Group())|;
            var rest := TallyOf(cfg, s.pods - {e.uid});
            if e.uid in Selected(cfg, s.pods) then
              && t'.selected == t.selected == rest.selected + 1
              && t'.decided == rest.decided + 1
              && t'.counted == rest.counted + if shown < Q.QuotaFor(cfg.policy.rule, |listed|) then 1 else 0
            else t' == t
  {
    var pod, prefers := s.pods[e.uid], Preferred(cfg, e.first.cache, s.pods[e.uid]);
    var after := Annotated(pod, cfg.policy, prefers);
    CycleResultFacts(cfg, e.first, e.second, pod);
    WriteShares(cfg, s.pods, after);
    if e.uid in Selected(cfg, s.pods) {
      CacheCounts(cfg, s, e.uid, e.first.cache);
      HookLaws.DecisionIsQuotaTest(cfg.policy, cfg.nodes,
                                   PodsWithLabels(e.first.cache, cfg.policy.podSelector), e.uid);
    }
  }

  /** What a write that keeps the labels does to the tally. */
  lemma WriteShares(cfg: Config, pods: Pods, after: Pod)
    requires after.uid in pods && pods[after.uid].labels == after.labels
    ensures var rest, t' := TallyOf(cfg, pods - {after.uid}), TallyOf(cfg, pods[after.uid := after]);
            if Passes(cfg, SelectedTest, after) then
              && t'.selected == TallyOf(cfg, pods).selected == rest.selected + 1
              && t'.decided == rest.decided + (if IsDecided(after) then 1 else 0)
              && t'.counted == rest.counted + (if Placed(after, cfg.Group()) then 1 else 0)
            else t' == TallyOf(cfg, pods)
  {
    WriteThenRemove(pods, after.uid, after);
    TallyAround(cfg, pods, after.uid);
    TallyAround(cfg, pods[after.uid := after], after.uid);
  }

  /** The numbers that a cycle starts from. */
  predicate CycleFigures(cfg: Config, s: State, uid: string, cache: seq<Pod>) {
    var listed := PodsWithLabels(cache, cfg.policy.podSelector);
    Figures(TallyOf(cfg, s.pods), TallyOf(cfg, s.pods - {uid}), |listed|, |CountedPods(listed, uid, cfg.Group())|,
            |Missing(cfg, s, cache)|, |Surplus(cfg, s, cache)|, |Hidden(cfg, s, uid, cache)|,
            |Phantoms(cfg, s, uid, cache)|)
  }

  lemma CycleBounds(cfg: Config, s: State, uid: string, cache: seq<Pod>)
    requires uid in Selected(cfg, s.pods) && s.pods[uid].uid == uid && Lists(cache, s.pods[uid])
    ensures CycleFigures(cfg, s, uid, cache)
  {
    CacheCounts(cfg, s, uid, cache);
    OwnPodLeavesRoom(PodsWithLabels(cache, cfg.policy.podSelector), uid, cfg.Group());
    RestOfTally(cfg, s.pods, uid);
  }

  lemma RestOfTally(cfg: Config, pods: Pods, uid: string)
    requires uid in Selected(cfg, pods)
    ensures var t, rest := TallyOf(cfg, pods), TallyOf(cfg, pods - {uid});
            && rest.Nested() && t.selected == rest.selected + 1
            && 0 <= t.counted - rest.counted <= t.decided - rest.decided <= 1
  {
    TallyNested(cfg, pods - {uid});
    TallyAround(cfg, pods, uid);
  }

  /** With a fresh cache, a pod is sent to the group exactly when the other counted pods leave room in the quota. */
  lemma FreshDecision(cfg: Config, s: State, uid: string, cache: seq<Pod>)
    requires cfg.Valid() && uid in Selected(cfg, s.pods) && s.pods[uid].uid == uid && Fresh(cache, s.pods, uid)
    ensures |PodsWithLabels(cache, cfg.policy.podSelector)| == TallyOf(cfg, s.pods).selected
    ensures Preferred(cfg, cache, s.pods[uid]) <==>
              TallyOf(cfg, s.pods - {uid}).counted < Q.QuotaFor(cfg.policy.rule, TallyOf(cfg, s.pods).selected)
  {
    FreshShows(cfg, s, uid, cache);
    CacheCounts(cfg, s, uid, cache);
    HookLaws.DecisionIsQuotaTest(cfg.policy, cfg.nodes, PodsWithLabels(cache, cfg.policy.podSelector), uid);
  }

  /** Binding a pod to a permitted node moves none of the counts exactly when the pod's annotation promised that side,
      or the policy does not select the pod. */
  lemma BindKeepsTallyIff(cfg: Config, s: State, uid: string, node: string)
    requires Inv(s) && Enabled(cfg, s, Bind(uid, node))
    ensures TallyOf(cfg, Next(cfg, s, Bind(uid, node)).pods) == TallyOf(cfg, s.pods)
       <==> (uid in Selected(cfg, s.pods) ==> s.pods[uid].Preference() == Some(node in cfg.Group()))
  {
    TallyAround(cfg, s.pods, uid);
    WriteShares(cfg, s.pods, s.pods[uid].(nodeName := node));
  }

  // How far a step can move the counts from the quota.

  /** The drift of a step, in the terms of module Tallies. */
  ghost predicate Bounded(cfg: Config, q: nat -> nat, s: State, s': State, stale: int, short: int, disturbed: bool) {
    SmallDrift(q, TallyOf(cfg, s.pods), CrossingsOf(cfg, s), TallyOf(cfg, s'.pods), CrossingsOf(cfg, s'),
               stale, short, disturbed)
  }

  predicate SameElsewhere(s: State, s': State, u: string) {
    s'.pods - {u} == s.pods - {u} && s'.pending - {u} == s.pending - {u}
  }

  function PartOf(cfg: Config, s: State, u: string): Part {
    Part(u in Selected(cfg, s.pods), u in Decided(cfg, s.pods), u in Counted(cfg, s.pods),
         u in CrossedOn(cfg, s), u in CrossedOff(cfg, s))
  }

  lemma PartValid(cfg: Config, s: State, u: string)
    ensures PartOf(cfg, s, u).Valid()
  {
  }

  lemma SameAt(s: State, s': State, u: string, v: string)
    requires SameElsewhere(s, s', u) && v != u
    ensures v in s'.pods <==> v in s.pods
    ensures v in s.pods ==> s'.pods[v] == s.pods[v]
    ensures v in s'.pending <==> v in s.pending
    ensures v in s.pending ==> s'.pending[v] == s.pending[v]
  {
    assert v in s.pods <==> v in s.pods - {u};
    assert v in s'.pods <==> v in s'.pods - {u};
    assert v in s.pending <==> v in s.pending - {u};
    assert v in s'.pending <==> v in s'.pending - {u};
  }

  lemma CrossedElsewhere(cfg: Config, s: State, s': State, u: string)
    requires SameElsewhere(s, s', u)
    ensures CrossedOn(cfg, s') - {u} == CrossedOn(cfg, s) - {u}
    ensures CrossedOff(cfg, s') - {u} == CrossedOff(cfg, s) - {u}
  {
    forall v | v != u
      ensures v in CrossedOn(cfg, s') <==> v in CrossedOn(cfg, s)
      ensures v in CrossedOff(cfg, s') <==> v in CrossedOff(cfg, s)
    {
      SameAt(s, s', u, v);
    }
  }

  function Others(cfg: Config, s: State, u: string): Crossings {
    Crossings(|CrossedOn(cfg, s) - {u}|, |CrossedOff(cfg, s) - {u}|)
  }

  /** The counts of a state are made of the part of one pod and of what the other pods make. */
  lemma StateMadeOf(cfg: Config, s: State, u: string)
    ensures MadeOf(TallyOf(cfg, s.pods), CrossingsOf(cfg, s), TallyOf(cfg, s.pods - {u}), Others(cfg, s, u),
                   PartOf(cfg, s, u))
  {
    TallyAround(cfg, s.pods, u);
    SizeAround(CrossedOn(cfg, s), u);
    SizeAround(CrossedOff(cfg, s), u);
  }

  lemma QuietStep(cfg: Config, q: nat -> nat, s: State, s': State, u: string)
    requires Q.Steady(q) && SameElsewhere(s, s', u) && QuietChange(PartOf(cfg, s, u), PartOf(cfg, s', u))
    ensures Bounded(cfg, q, s, s', 0, 0, false)
  {
    CrossedElsewhere(cfg, s, s', u);
    StateMadeOf(cfg, s, u);
    StateMadeOf(cfg, s', u);
    PartValid(cfg, s, u);
    PartValid(cfg, s', u);
    QuietNumbers(q, TallyOf(cfg, s.pods), CrossingsOf(cfg, s), TallyOf(cfg, s'.pods),
                 CrossingsOf(cfg, s'), TallyOf(cfg, s.pods - {u}), Others(cfg, s, u), PartOf(cfg, s, u),
                 PartOf(cfg, s', u));
  }

  lemma DisturbedStep(cfg: Config, q: nat -> nat, s: State, s': State, u: string)
    requires Q.Steady(q) && SameElsewhere(s, s', u)
    requires PartOf(cfg, s', u).off && PartOf(cfg, s, u).counted ==> PartOf(cfg, s, u).off
    ensures Bounded(cfg, q, s, s', 0, 0, true)
  {
    CrossedElsewhere(cfg, s, s', u);
    StateMadeOf(cfg, s, u);
    StateMadeOf(cfg, s', u);
    PartValid(cfg, s, u);
    PartValid(cfg, s', u);
    DisturbedNumbers(q, TallyOf(cfg, s.pods), CrossingsOf(cfg, s), TallyOf(cfg, s'.pods),
                     CrossingsOf(cfg, s'), TallyOf(cfg, s.pods - {u}), Others(cfg, s, u), PartOf(cfg, s, u),
                     PartOf(cfg, s', u));
  }

  /** What a step may do to the drift, given what it is. */
  ghost predicate StepBoundedBy(cfg: Config, q: nat -> nat, s: State, e: Event)
    requires Enabled(cfg, s, e)
  {
    Bounded(cfg, q, s, Next(cfg, s, e), Staleness(cfg, s, e), Shortness(cfg, s, e), Disturbs(cfg, s, e))
  }

  ghost predicate StepBounded(cfg: Config, s: State, e: Event)
    requires cfg.policy.rule.Valid() && Enabled(cfg, s, e)
  {
    StepBoundedBy(cfg, Q.Curve(cfg.policy.rule), s, e)
  }

  lemma CreateDrift(cfg: Config, s: State, e: Event)
    requires cfg.policy.rule.Valid() && Inv(s) && Enabled(cfg, s, e) && e.Create?
    ensures StepBounded(cfg, s, e)
  {
    Q.CurveIsSteady(cfg.policy.rule);
    WriteThenRemove(s.pods, e.pod.uid, e.pod);
    if Disturbs(cfg, s, e) {
      DisturbedStep(cfg, Q.Curve(cfg.policy.rule), s, Next(cfg, s, e), e.pod.uid);
    } else {
      QuietStep(cfg, Q.Curve(cfg.policy.rule), s, Next(cfg, s, e), e.pod.uid);
    }
  }

  lemma InterfereDrift(cfg: Config, s: State, e: Event)
    requires cfg.policy.rule.Valid() && Inv(s) && Enabled(cfg, s, e) && e.Interfere?
    ensures StepBounded(cfg, s, e)
  {
    Q.CurveIsSteady(cfg.policy.rule);
    WriteThenRemove(s.pods, e.pod.uid, e.pod);
    if Disturbs(cfg, s, e) {
      DisturbedStep(cfg, Q.Curve(cfg.policy.rule), s, Next(cfg, s, e), e.pod.uid);
    } else {
      QuietStep(cfg, Q.Curve(cfg.policy.rule), s, Next(cfg, s, e), e.pod.uid);
    }
  }

  lemma RemoveTwice<K, V>(m: map<K, V>, k: K)
    ensures m - {k} - {k} == m - {k}
  {
  }

  lemma DeleteDrift(cfg: Config, s: State, e: Event)
    requires cfg.policy.rule.Valid() && Inv(s) && Enabled(cfg, s, e) && e.Delete?
    ensures StepBounded(cfg, s, e)
  {
    Q.CurveIsSteady(cfg.policy.rule);
    RemoveTwice(s.pods, e.uid);
    RemoveTwice(s.pending, e.uid);
    if Disturbs(cfg, s, e) {
      DisturbedStep(cfg, Q.Curve(cfg.policy.rule), s, Next(cfg, s, e), e.uid);
    } else {
      QuietStep(cfg, Q.Curve(cfg.policy.rule), s, Next(cfg, s, e), e.uid);
    }
  }

  lemma BindDrift(cfg: Config, s: State, e: Event)
    requires cfg.policy.rule.Valid() && Inv(s) && Enabled(cfg, s, e) && e.Bind?
    ensures StepBounded(cfg, s, e)
  {
    Q.CurveIsSteady(cfg.policy.rule);
    WriteThenRemove(s.pods, e.uid, s.pods[e.uid].(nodeName := e.node));
    RemoveTwice(s.pending, e.uid);
    QuietStep(cfg, Q.Curve(cfg.policy.rule), s, Next(cfg, s, e), e.uid);
  }

  lemma FailBindDrift(cfg: Config, s: State, e: Event)
    requires cfg.policy.rule.Valid() && Inv(s) && Enabled(cfg, s, e) && e.FailBind?
    ensures StepBounded(cfg, s, e)
  {
    Q.CurveIsSteady(cfg.policy.rule);
    RemoveTwice(s.pending, e.uid);
    QuietStep(cfg, Q.Curve(cfg.policy.rule), s, Next(cfg, s, e), e.uid);
  }

  lemma PendingThenRemove(pending: map<string, set<string>>, uid: string, permitted: set<string>)
    ensures PendingAfter(pending, uid, permitted) - {uid} == pending - {uid}
  {
    if permitted == {} {
      RemoveTwice(pending, uid);
    } else {
      WriteThenRemove(pending, uid, permitted);
    }
  }

  /** A cycle leaves no binding under way that contradicts its pod's annotation. */
  lemma CycleKeepsPromise(cfg: Config, s: State, e: Event)
    requires cfg.Valid() && cfg.Enforced() && Inv(s) && Enabled(cfg, s, e) && e.Cycle?
    ensures SameElsewhere(s, Next(cfg, s, e), e.uid) && KeepsPromise(cfg, Next(cfg, s, e), e.uid)
    ensures !e.first.accepted ==> Next(cfg, s, e).pods == s.pods
  {
    var result := HookCycle(cfg, e.first, e.second, s.pods[e.uid]);
    CycleResultFacts(cfg, e.first, e.second, s.pods[e.uid]);
    PendingThenRemove(s.pending, e.uid, result.permitted);
    if result.stored.Some? {
      WriteThenRemove(s.pods, e.uid, result.stored.value);
    }
  }

  lemma PromiseUncrosses(cfg: Config, s: State, s': State, u: string)
    requires SameElsewhere(s, s', u) && KeepsPromise(cfg, s', u)
    ensures u !in CrossedOn(cfg, s') && u !in CrossedOff(cfg, s')
    ensures CrossingsOf(cfg, s').on <= CrossingsOf(cfg, s).on && CrossingsOf(cfg, s').off <= CrossingsOf(cfg, s).off
  {
    CrossedElsewhere(cfg, s, s', u);
    LosesMember(CrossedOn(cfg, s'), CrossedOn(cfg, s), u);
    LosesMember(CrossedOff(cfg, s'), CrossedOff(cfg, s), u);
  }

  lemma LosesMember<T>(a: set<T>, b: set<T>, u: T)
    requires a - {u} == b - {u} && u !in a
    ensures |a| <= |b|
  {
    assert a == a - {u};
    SubsetSize(b - {u}, b);
  }

  /** The pod is decided by comparing what the cache shows with `q`. */
  ghost predicate DecidedBy(cfg: Config, q: nat -> nat, s: State, s': State, uid: string, cache: seq<Pod>) {
    var t, t', rest := TallyOf(cfg, s.pods), TallyOf(cfg, s'.pods), TallyOf(cfg, s.pods - {uid});
    var x, x' := CrossingsOf(cfg, s), CrossingsOf(cfg, s');
    var listed := PodsWithLabels(cache, cfg.policy.podSelector);
    var shown := |CountedPods(listed, uid, cfg.Group())|;
    && t'.selected == t.selected && t'.decided == rest.decided + 1
    && t'.counted == rest.counted + (if shown < q(|listed|) then 1 else 0)
    && x'.on <= x.on && x'.off <= x.off
  }

  lemma MeasuredCycle(cfg: Config, q: nat -> nat, s: State, s': State, uid: string, cache: seq<Pod>)
    requires Q.Steady(q) && CycleFigures(cfg, s, uid, cache) && DecidedBy(cfg, q, s, s', uid, cache)
    ensures Bounded(cfg, q, s, s', |Hidden(cfg, s, uid, cache)| + |Surplus(cfg, s, cache)|,
                    |Missing(cfg, s, cache)| + |Phantoms(cfg, s, uid, cache)|, false)
  {
    var listed := PodsWithLabels(cache, cfg.policy.podSelector);
    CycleNumbers(q, TallyOf(cfg, s.pods), CrossingsOf(cfg, s), TallyOf(cfg, s'.pods),
                 CrossingsOf(cfg, s'), TallyOf(cfg, s.pods - {uid}), |listed|,
                 |CountedPods(listed, uid, cfg.Group())|, |Missing(cfg, s, cache)|, |Surplus(cfg, s, cache)|,
                 |Hidden(cfg, s, uid, cache)|, |Phantoms(cfg, s, uid, cache)|);
  }

  lemma MeasuredStep(cfg: Config, q: nat -> nat, s: State, s': State, e: Event)
    requires e.Cycle? && Q.Steady(q) && CycleFigures(cfg, s, e.uid, e.first.cache)
    requires DecidedBy(cfg, q, s, s', e.uid, e.first.cache)
    ensures Bounded(cfg, q, s, s', Staleness(cfg, s, e), Shortness(cfg, s, e), Disturbs(cfg, s, e))
  {
    MeasuredCycle(cfg, q, s, s', e.uid, e.first.cache);
  }

  lemma SameTally(cfg: Config, s: State, s': State, stale: int, short: int)
    requires cfg.policy.rule.Valid() && TallyOf(cfg, s'.pods) == TallyOf(cfg, s.pods)
    requires var x, x' := CrossingsOf(cfg, s), CrossingsOf(cfg, s'); x'.on <= x.on && x'.off <= x.off
    ensures Bounded(cfg, Q.Curve(cfg.policy.rule), s, s', stale, short, false)
  {
  }

  lemma CycleUncrosses(cfg: Config, s: State, e: Event)
    requires cfg.Valid() && cfg.Enforced() && Inv(s) && Enabled(cfg, s, e) && e.Cycle?
    ensures var x, x' := CrossingsOf(cfg, s), CrossingsOf(cfg, Next(cfg, s, e)); x'.on <= x.on && x'.off <= x.off
    ensures !e.first.accepted ==> Next(cfg, s, e).pods == s.pods
  {
    CycleKeepsPromise(cfg, s, e);
    PromiseUncrosses(cfg, s, Next(cfg, s, e), e.uid);
  }

  lemma SelectedCycleDecided(cfg: Config, s: State, e: Event)
    requires cfg.Valid() && cfg.Enforced() && Inv(s) && Enabled(cfg, s, e) && e.Cycle?
    requires e.first.accepted && e.uid in Selected(cfg, s.pods)
    ensures DecidedBy(cfg, Q.Curve(cfg.policy.rule), s, Next(cfg, s, e), e.uid, e.first.cache)
    ensures CycleFigures(cfg, s, e.uid, e.first.cache)
  {
    CycleUncrosses(cfg, s, e);
    CycleTally(cfg, s, e);
    CycleBounds(cfg, s, e.uid, e.first.cache);
  }

  /** A refused cycle, or one of a pod that the policy does not select. */
  lemma IdleCycleTally(cfg: Config, s: State, e: Event)
    requires cfg.Valid() && cfg.Enforced() && Inv(s) && Enabled(cfg, s, e) && e.Cycle?
    requires e.first.accepted ==> e.uid !in Selected(cfg, s.pods)
    ensures TallyOf(cfg, Next(cfg, s, e).pods) == TallyOf(cfg, s.pods)
  {
    CycleUncrosses(cfg, s, e);
    if e.first.accepted {
      CycleTally(cfg, s, e);
    }
  }

  lemma SelectedCycleDrift(cfg: Config, s: State, e: Event)
    requires cfg.Valid() && cfg.Enforced() && Inv(s) && Enabled(cfg, s, e) && e.Cycle?
    requires e.first.accepted && e.uid in Selected(cfg, s.pods)
    ensures StepBounded(cfg, s, e)
  {
    Q.CurveIsSteady(cfg.policy.rule);
    SelectedCycleDecided(cfg, s, e);
    MeasuredStep(cfg, Q.Curve(cfg.policy.rule), s, Next(cfg, s, e), e);
  }

  lemma IdleCycleDrift(cfg: Config, s: State, e: Event)
    requires cfg.Valid() && cfg.Enforced() && Inv(s) && Enabled(cfg, s, e) && e.Cycle?
    requires e.first.accepted ==> e.uid !in Selected(cfg, s.pods)
    ensures StepBounded(cfg, s, e)
  {
    CycleUncrosses(cfg, s, e);
    IdleCycleTally(cfg, s, e);
    SameTally(cfg, s, Next(cfg, s, e), Staleness(cfg, s, e), Shortness(cfg, s, e));
  }

  lemma CycleDrift(cfg: Config, s: State, e: Event)
    requires cfg.Valid() && cfg.Enforced() && Inv(s) && Enabled(cfg, s, e) && e.Cycle?
    ensures StepBounded(cfg, s, e)
  {
    if e.first.accepted && e.uid in Selected(cfg, s.pods) {
      SelectedCycleDrift(cfg, s, e);
    } else {
      IdleCycleDrift(cfg, s, e);
    }
  }

  /** Only a disturbance raises the drift, and by at most one: bindings and failed bindings never do, not even when a
      foreign write has changed the pod's annotation meanwhile; a cycle raises it at most to what its cache gets
      wrong. */
  lemma StepDrift(cfg: Config, s: State, e: Event)
    requires cfg.Valid() && cfg.Enforced() && Inv(s) && Enabled(cfg, s, e)
    ensures StepBounded(cfg, s, e)
  {
    match e
    case Create(_) => CreateDrift(cfg, s, e);
    case Cycle(_, _, _) => CycleDrift(cfg, s, e);
    case Bind(_, _) => BindDrift(cfg, s, e);
    case FailBind(_) => FailBindDrift(cfg, s, e);
    case Delete(_) => DeleteDrift(cfg, s, e);
    case Interfere(_) => InterfereDrift(cfg, s, e);
  }
}
