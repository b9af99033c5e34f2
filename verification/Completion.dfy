/** Runs exist: every run can be finished, so the quota is met and not just never missed. */
module Completion {
  import Prelude
  import opened Objects
  import Grouping
  import PolicyChoice
  import opened Cycles
  import opened Tallies
  import opened Scheduler
  import QuotaTheorems
  import opened RunTheorems
  import UnsetMode
  import Q = Quota

  lemma FreshAppend(cache: seq<Pod>, pods: Pods, u: string)
    requires u in pods && pods[u].uid == u && Exact(cache, pods - {u})
    ensures Exact(cache + [pods[u]], pods)
  {
    var longer := cache + [pods[u]];
    assert Grouping.Uids(longer) == Grouping.Uids(cache) + {u};
    forall i | 0 <= i < |cache|
      ensures longer[i].uid != u && longer[i].uid in pods && pods[longer[i].uid] == longer[i]
    {
      assert cache[i] in cache;
    }
  }

  /** An exact cache exists for every store. */
  lemma {:induction false} Enumerate(pods: Pods) returns (cache: seq<Pod>)
    requires forall u | u in pods :: pods[u].uid == u
    ensures Exact(cache, pods)
    decreases |pods|
  {
    if |pods| == 0 {
      cache := [];
    } else {
      var u :| u in pods;
      cache := Enumerate(pods - {u});
      FreshAppend(cache, pods, u);
      cache := cache + [pods[u]];
    }
  }

  /** The selected pods still to be bound. */
  function Waiting(cfg: Config, pods: Pods): set<string> {
    Where(cfg, pods, WaitingTest)
  }

  ghost predicate WaitingGoverned(cfg: Config, pods: Pods) {
    forall u | u in Waiting(cfg, pods) :: PolicyChoice.Governs(cfg.policy, pods[u])
  }

  ghost predicate GoodRun(cfg: Config, es: seq<Event>) {
    Legal(cfg, es) && FreshRun(cfg, es)
  }

  lemma Extend(cfg: Config, es: seq<Event>, e: Event)
    requires GoodRun(cfg, es) && Enabled(cfg, Run(cfg, es), e)
    requires ReadsFresh(Run(cfg, es), e)
    ensures GoodRun(cfg, es + [e]) && Run(cfg, es + [e]) == Next(cfg, Run(cfg, es), e)
    ensures Disturbances(cfg, es + [e]) == Disturbances(cfg, es) + (if Disturbs(cfg, Run(cfg, es), e) then 1 else 0)
    ensures Deletions(es + [e]) == Deletions(es) + (if e.Delete? then 1 else 0)
  {
    assert (es + [e])[..|es + [e]| - 1] == es;
  }

  /** A cycle in which both attempts read this cache and every update is accepted. */
  function Accepted(uid: string, cache: seq<Pod>): Event {
    Cycle(uid, Attempt(cache, true), Attempt(cache, true))
  }

  /** In every mode, given nodes of both kinds: an accepted cycle stores some annotation by the policy, and permits the
      side that the decision asks for. */
  lemma CycleSides(cfg: Config, cache: seq<Pod>, pod: Pod) returns (b: bool)
    requires cfg.Valid() && cfg.BothGroups()
    ensures var result := HookCycle(cfg, Attempt(cache, true), Attempt(cache, true), pod);
            && result.permitted == cfg.Side(Preferred(cfg, cache, pod))
            && result.stored == Prelude.Some(Annotated(pod, cfg.policy, b))
    ensures b == (|| Preferred(cfg, cache, pod)
                  || (&& cfg.policy.mode.OtherMode? && 2 <= |cfg.Side(false)|
                      && UnsetMode.PromisesLeaveRoom(cfg, cache, pod)))
  {
    if cfg.policy.mode.OtherMode? {
      UnsetMode.UnsetModeCycle(cfg, Attempt(cache, true), Attempt(cache, true), pod);
    } else {
      EnforcedCycle(cfg, Attempt(cache, true), Attempt(cache, true), pod);
    }
    b := || Preferred(cfg, cache, pod)
         || (cfg.policy.mode.OtherMode? && 2 <= |cfg.Side(false)| && UnsetMode.PromisesLeaveRoom(cfg, cache, pod));
  }

  lemma SidesInhabited(cfg: Config, prefers: bool) returns (node: string)
    requires cfg.Valid() && cfg.BothGroups()
    ensures node in cfg.Side(prefers) && node != "" && (node in cfg.Group() <==> prefers)
  {
    var n :| n in cfg.nodes && cfg.InGroup(n) == prefers;
    node := n.name;
    Grouping.NodeInGroupIff(cfg.nodes, cfg.policy.nodeSelector, n);
  }

  /** An accepted cycle leaves the pod a node when there are nodes of both kinds. */
  lemma CyclePermitsSomeNode(cfg: Config, cache: seq<Pod>, pod: Pod) returns (node: string)
    requires cfg.Valid() && cfg.BothGroups()
    ensures node in HookCycle(cfg, Attempt(cache, true), Attempt(cache, true), pod).permitted
    ensures node != "" && (node in cfg.Group() <==> Preferred(cfg, cache, pod))
  {
    var _ := CycleSides(cfg, cache, pod);
    node := SidesInhabited(cfg, Preferred(cfg, cache, pod));
  }

  /** What an accepted cycle with an exact cache does to the state. */
  lemma CycleStep(cfg: Config, s: State, u: string, cache: seq<Pod>) returns (b: bool)
    requires cfg.Valid() && cfg.BothGroups() && Inv(s) && Exact(cache, s.pods)
    requires u in s.pods && !s.pods[u].Bound() && PolicyChoice.Governs(cfg.policy, s.pods[u])
    ensures Enabled(cfg, s, Accepted(u, cache)) && ReadsFresh(s, Accepted(u, cache))
    ensures var prefers := Preferred(cfg, cache, s.pods[u]);
            && Next(cfg, s, Accepted(u, cache))
            == State(s.pods[u := Annotated(s.pods[u], cfg.policy, b)], s.pending[u := cfg.Side(prefers)])
            && b == (|| prefers
                     || (&& cfg.policy.mode.OtherMode? && 2 <= |cfg.Side(false)|
                         && UnsetMode.PromisesLeaveRoom(cfg, cache, s.pods[u])))
  {
    b := CycleSides(cfg, cache, s.pods[u]);
    var _ := SidesInhabited(cfg, Preferred(cfg, cache, s.pods[u]));
    ExactLists(cache, s.pods, u);
  }

  lemma ExactLists(cache: seq<Pod>, pods: Pods, u: string)
    requires Exact(cache, pods) && u in pods && pods[u].uid == u
    ensures Fresh(cache, pods, u) && Lists(cache, pods[u])
  {
    assert u in Grouping.Uids(cache);
  }

  lemma BindStep(cfg: Config, s: State, pod: Pod, permitted: set<string>, node: string)
    requires node in permitted
    ensures var s' := State(s.pods[pod.uid := pod], s.pending[pod.uid := permitted]);
            && Enabled(cfg, s', Bind(pod.uid, node))
            && Next(cfg, s', Bind(pod.uid, node)).pods == s.pods[pod.uid := pod.(nodeName := node)]
  {
  }

  /** Only annotations and binding change. */
  predicate Rewrites(pods: Pods, after: Pod) {
    && after.uid in pods
    && after == pods[after.uid].(annotations := after.annotations, nodeName := after.nodeName)
  }

  /** From a state of a run: cycle `u` with an exact cache, then bind it. */
  lemma CycleThenBind(cfg: Config, s: State, u: string, cache: seq<Pod>, node: string) returns (bound: Pod)
    requires cfg.Valid() && cfg.BothGroups() && Inv(s) && Exact(cache, s.pods)
    requires u in s.pods && !s.pods[u].Bound() && PolicyChoice.Governs(cfg.policy, s.pods[u])
    requires node in cfg.Side(Preferred(cfg, cache, s.pods[u]))
    ensures Enabled(cfg, s, Accepted(u, cache)) && ReadsFresh(s, Accepted(u, cache))
    ensures var s' := Next(cfg, s, Accepted(u, cache));
            Enabled(cfg, s', Bind(u, node)) && Next(cfg, s', Bind(u, node)).pods == s.pods[u := bound]
    ensures bound.uid == u && bound.nodeName == node && Rewrites(s.pods, bound)
  {
    var b := CycleStep(cfg, s, u, cache);
    var cycled := Annotated(s.pods[u], cfg.policy, b);
    BindStep(cfg, s, cycled, cfg.Side(Preferred(cfg, cache, s.pods[u])), node);
    bound := cycled.(nodeName := node);
  }

  /** One more pod can be cycled and bound, on the side that the quota asks for. */
  lemma BindOne(cfg: Config, es: seq<Event>, u: string) returns (longer: seq<Event>, bound: Pod)
    requires cfg.Valid() && cfg.BothGroups() && GoodRun(cfg, es)
    requires u in Waiting(cfg, Run(cfg, es).pods) && PolicyChoice.Governs(cfg.policy, Run(cfg, es).pods[u])
    ensures GoodRun(cfg, longer) && es <= longer && Disturbances(cfg, longer) == Disturbances(cfg, es)
    ensures Deletions(longer) == Deletions(es)
    ensures bound.uid == u && bound.Bound() && Rewrites(Run(cfg, es).pods, bound)
    ensures bound.nodeName in cfg.Group() <==>
              TallyOf(cfg, Run(cfg, es).pods - {u}).counted < Q.QuotaFor(cfg.policy.rule, Final(cfg, es).selected)
    ensures Run(cfg, longer).pods == Run(cfg, es).pods[u := bound]
  {
    var s := Run(cfg, es);
    RunKeepsInv(cfg, es);
    var cache := Enumerate(s.pods);
    var node := SidesInhabited(cfg, Preferred(cfg, cache, s.pods[u]));
    bound := CycleThenBind(cfg, s, u, cache, node);
    QuotaTheorems.FreshDecision(cfg, s, u, cache);
    longer := ExtendTwice(cfg, es, Accepted(u, cache), Bind(u, node));
  }

  lemma ExtendTwice(cfg: Config, es: seq<Event>, e: Event, e': Event) returns (longer: seq<Event>)
    requires GoodRun(cfg, es) && Enabled(cfg, Run(cfg, es), e) && Enabled(cfg, Next(cfg, Run(cfg, es), e), e')
    requires e.Cycle? && ReadsFresh(Run(cfg, es), e) && e'.Bind?
    ensures GoodRun(cfg, longer) && es <= longer && Run(cfg, longer) == Next(cfg, Next(cfg, Run(cfg, es), e), e')
    ensures Disturbances(cfg, longer) == Disturbances(cfg, es) && Deletions(longer) == Deletions(es)
  {
    Extend(cfg, es, e);
    Extend(cfg, es + [e], e');
    longer := es + [e] + [e'];
  }

  lemma BindingShrinksWaiting(cfg: Config, pods: Pods, bound: Pod)
    requires bound.uid in Waiting(cfg, pods) && bound.Bound() && bound.labels == pods[bound.uid].labels
    ensures var pods' := pods[bound.uid := bound];
            && Selected(cfg, pods') == Selected(cfg, pods)
            && Waiting(cfg, pods') == Waiting(cfg, pods) - {bound.uid}
            && |Waiting(cfg, pods')| < |Waiting(cfg, pods)|
  {
    WriteMoves(cfg, pods, bound, SelectedTest);
    WriteMoves(cfg, pods, bound, WaitingTest);
    SizeAround(Waiting(cfg, pods), bound.uid);
  }

  lemma BindingLeavesGoverned(cfg: Config, pods: Pods, bound: Pod)
    requires bound.Bound() && WaitingGoverned(cfg, pods)
    ensures WaitingGoverned(cfg, pods[bound.uid := bound])
  {
    var pods' := pods[bound.uid := bound];
    forall u | u in Waiting(cfg, pods')
      ensures PolicyChoice.Governs(cfg.policy, pods'[u])
    {
      assert u in Waiting(cfg, pods);
    }
  }

  /** Every run in which the waiting pods are governed by the policy can be extended, without a disturbance, until all
      its selected pods are bound. */
  lemma {:induction false} Finish(cfg: Config, es: seq<Event>) returns (longer: seq<Event>)
    requires cfg.Valid() && cfg.BothGroups() && GoodRun(cfg, es)
    requires WaitingGoverned(cfg, Run(cfg, es).pods)
    ensures GoodRun(cfg, longer) && es <= longer && Disturbances(cfg, longer) == Disturbances(cfg, es)
    ensures Deletions(longer) == Deletions(es)
    ensures Selected(cfg, Run(cfg, longer).pods) == Selected(cfg, Run(cfg, es).pods)
    ensures AllBound(cfg, Run(cfg, longer).pods)
    decreases |Waiting(cfg, Run(cfg, es).pods)|
  {
    var pods := Run(cfg, es).pods;
    if Waiting(cfg, pods) == {} {
      forall u | u in Selected(cfg, pods)
        ensures pods[u].Bound()
      {
        assert u !in Waiting(cfg, pods);
      }
      longer := es;
    } else {
      var u :| u in Waiting(cfg, pods);
      var next, bound := BindOne(cfg, es, u);
      BindingShrinksWaiting(cfg, pods, bound);
      BindingLeavesGoverned(cfg, pods, bound);
      longer := Finish(cfg, next);
    }
  }
}
