/** The quota over whole runs: exactness, drift under disturbances and stale reads, and refinement. */
module RunTheorems {
  import Objects
  import opened Cycles
  import opened Tallies
  import opened Scheduler
  import QuotaTheorems
  import Q = Quota

  ghost predicate Legal(cfg: Config, es: seq<Event>) {
    es == [] || (Legal(cfg, es[..|es| - 1]) && Enabled(cfg, Run(cfg, es[..|es| - 1]), es[|es| - 1]))
  }

  /** In every cycle of the run, the counted pods that the cache hides and the pods that it lists although they are not
      selected are together at most `k`; and the selected pods that it does not list and those that it wrongly shows as
      counted are together at most `h`. */
  ghost predicate StaleAtMost(cfg: Config, es: seq<Event>, k: nat, h: nat) {
    es == [] || (&& StaleAtMost(cfg, es[..|es| - 1], k, h)
                 && Staleness(cfg, Run(cfg, es[..|es| - 1]), es[|es| - 1]) <= k
                 && Shortness(cfg, Run(cfg, es[..|es| - 1]), es[|es| - 1]) <= h)
  }

  /** The cycle reads fresh caches. */
  predicate ReadsFresh(s: State, e: Event) {
    e.Cycle? ==> Fresh(e.first.cache, s.pods, e.uid) && Fresh(e.second.cache, s.pods, e.uid)
  }

  ghost predicate FreshRun(cfg: Config, es: seq<Event>) {
    es == [] || (FreshRun(cfg, es[..|es| - 1]) && ReadsFresh(Run(cfg, es[..|es| - 1]), es[|es| - 1]))
  }

  ghost function Disturbances(cfg: Config, es: seq<Event>): nat {
    if es == [] then 0
    else
      Disturbances(cfg, es[..|es| - 1]) + (if Disturbs(cfg, Run(cfg, es[..|es| - 1]), es[|es| - 1]) then 1 else 0)
  }

  /** The tally at the end of a run. */
  function Final(cfg: Config, es: seq<Event>): Tally {
    TallyOf(cfg, Run(cfg, es).pods)
  }

  lemma {:induction false} RunKeepsInv(cfg: Config, es: seq<Event>)
    requires cfg.Valid() && Legal(cfg, es)
    ensures Inv(Run(cfg, es))
  {
    if es != [] {
      RunKeepsInv(cfg, es[..|es| - 1]);
      QuotaTheorems.InvStep(cfg, Run(cfg, es[..|es| - 1]), es[|es| - 1]);
    }
  }

  predicate Untouched(es: seq<Event>, u: string) {
    forall i | 0 <= i < |es| && es[i].Interfere? :: es[i].pod.uid != u
  }

  /** Whatever else happens and whatever the caches show: as long as nobody else writes to a pod, a binding of it that
      is under way goes to the side that its annotation promises. */
  lemma {:induction false} PromisesAreKept(cfg: Config, es: seq<Event>, u: string)
    requires cfg.Valid() && cfg.Enforced() && Legal(cfg, es) && Untouched(es, u)
    ensures KeepsPromise(cfg, Run(cfg, es), u)
  {
    if es != [] {
      var front, e := es[..|es| - 1], es[|es| - 1];
      assert Untouched(front, u) && (e.Interfere? ==> e.pod.uid != u);
      PromisesAreKept(cfg, front, u);
      RunKeepsInv(cfg, front);
      PromiseStep(cfg, Run(cfg, front), e, u);
    }
  }

  lemma PromiseStep(cfg: Config, s: State, e: Event, u: string)
    requires cfg.Valid() && cfg.Enforced() && Inv(s) && Enabled(cfg, s, e) && KeepsPromise(cfg, s, u)
    requires e.Interfere? ==> e.pod.uid != u
    ensures KeepsPromise(cfg, Next(cfg, s, e), u)
  {
    if e.Cycle? {
      QuotaTheorems.CycleKeepsPromise(cfg, s, e);
      if e.uid != u {
        QuotaTheorems.SameAt(s, Next(cfg, s, e), e.uid, u);
      }
    }
  }

  lemma EmptyCounts(cfg: Config)
    ensures var t := Final(cfg, []); t.selected == 0 && t.decided == 0 && t.counted == 0
    ensures CrossingsOf(cfg, Run(cfg, [])) == Crossings(0, 0)
  {
    assert Selected(cfg, map[]) == {} && Decided(cfg, map[]) == {} && Counted(cfg, map[]) == {};
    assert CrossedOn(cfg, EMPTY) == {} && CrossedOff(cfg, EMPTY) == {};
  }

  /** How far the counts of a state are off, with bindings under way that contradict their annotation taken as done. */
  ghost predicate WithinDrift(cfg: Config, s: State, over: nat, under: nat, disturbances: nat)
    requires cfg.policy.rule.Valid()
  {
    var t, x, q := TallyOf(cfg, s.pods), CrossingsOf(cfg, s), Q.Curve(cfg.policy.rule);
    && t.Over(q) + x.on <= over + disturbances && x.on <= disturbances
    && t.Under(q) + x.off <= under + disturbances && x.off <= disturbances
  }

  /** Over any number of steps, and whatever the caches show: hiding or adding at most `k` pods costs at most `k` pods
      above the quota; lacking or making up at most `h` costs at most `h` below it; and each disturbance costs at most
      one more. */
  lemma {:induction false} StaleRunDrift(cfg: Config, es: seq<Event>, k: nat, h: nat)
    requires cfg.Valid() && cfg.Enforced() && Legal(cfg, es) && StaleAtMost(cfg, es, k, h)
    ensures WithinDrift(cfg, Run(cfg, es), k, h, Disturbances(cfg, es))
  {
    if es == [] {
      EmptyCounts(cfg);
      Q.CurveIsSteady(cfg.policy.rule);
    } else {
      var front := es[..|es| - 1];
      StaleRunDrift(cfg, front, k, h);
      RunKeepsInv(cfg, front);
      QuotaTheorems.StepDrift(cfg, Run(cfg, front), es[|es| - 1]);
    }
  }

  lemma {:induction false} FreshIsNotStale(cfg: Config, es: seq<Event>, k: nat, h: nat)
    requires Legal(cfg, es) && FreshRun(cfg, es)
    ensures StaleAtMost(cfg, es, k, h)
  {
    if es != [] {
      var front, e := es[..|es| - 1], es[|es| - 1];
      FreshIsNotStale(cfg, front, k, h);
      if e.Cycle? {
        QuotaTheorems.FreshShows(cfg, Run(cfg, front), e.uid, e.first.cache);
      }
    }
  }

  /** With fresh reads, overshoot and shortfall are each at most the number of disturbances. */
  lemma FreshRunDrift(cfg: Config, es: seq<Event>)
    requires cfg.Valid() && cfg.Enforced() && Legal(cfg, es) && FreshRun(cfg, es)
    ensures WithinDrift(cfg, Run(cfg, es), 0, 0, Disturbances(cfg, es))
  {
    FreshIsNotStale(cfg, es, 0, 0);
    StaleRunDrift(cfg, es, 0, 0);
  }

  /** The selected pods that are bound to a node of the group. */
  function OnGroup(cfg: Config, pods: Pods): set<string> {
    Where(cfg, pods, GroupedTest)
  }

  ghost predicate AllBound(cfg: Config, pods: Pods) {
    forall u | u in Selected(cfg, pods) :: pods[u].Bound()
  }

  /** Over every interleaving of creations, cycles (retries and failed updates included), bindings and failed
      bindings, the counted pods stay between the quota of the decided and that of all pods; once every pod is bound,
      exactly the quota is on the group. */
  lemma ExactQuota(cfg: Config, es: seq<Event>)
    requires cfg.Valid() && cfg.Enforced() && Legal(cfg, es) && FreshRun(cfg, es) && Disturbances(cfg, es) == 0
    ensures var t := Final(cfg, es);
            Q.QuotaFor(cfg.policy.rule, t.decided) <= t.counted <= Q.QuotaFor(cfg.policy.rule, t.selected)
    ensures var pods := Run(cfg, es).pods;
            AllBound(cfg, pods) ==> |OnGroup(cfg, pods)| == Q.QuotaFor(cfg.policy.rule, |Selected(cfg, pods)|)
  {
    FreshRunDrift(cfg, es);
    var pods := Run(cfg, es).pods;
    if AllBound(cfg, pods) {
      BoundTally(cfg, pods);
    }
  }

  lemma BoundTally(cfg: Config, pods: Pods)
    requires AllBound(cfg, pods)
    ensures |OnGroup(cfg, pods)| == TallyOf(cfg, pods).counted
    ensures |Selected(cfg, pods)| == TallyOf(cfg, pods).selected == TallyOf(cfg, pods).decided
  {
    assert OnGroup(cfg, pods) == Counted(cfg, pods);
    assert Decided(cfg, pods) == Selected(cfg, pods);
  }

  /** Once every pod of an undisturbed run is bound, a percentage from 0 to 100 is met rounded down: by the pods on the
      group under Must, by those off it under MustNot. */
  lemma AssignedShare(cfg: Config, es: seq<Event>)
    requires cfg.Valid() && cfg.Enforced() && Legal(cfg, es) && FreshRun(cfg, es) && Disturbances(cfg, es) == 0
    requires AllBound(cfg, Run(cfg, es).pods)
    requires cfg.policy.rule.size.Percent? && 0 <= cfg.policy.rule.size.p <= 100
    ensures var pods := Run(cfg, es).pods;
            var n, p := |Selected(cfg, pods)|, cfg.policy.rule.size.p;
            var met := Q.Addressed(cfg.policy.rule, n, |OnGroup(cfg, pods)|);
            100 * met <= p * n < 100 * met + 100
  {
    ExactQuota(cfg, es);
    Q.QuotaMeaning(cfg.policy.rule, |Selected(cfg, Run(cfg, es).pods)|);
  }

  // Deletions.

  function Deletions(es: seq<Event>): nat {
    if es == [] then 0 else Deletions(es[..|es| - 1]) + (if es[|es| - 1].Delete? then 1 else 0)
  }

  /** Nothing but the scheduler touches the pods, and pods are created neither bound nor annotated. */
  predicate OrdinaryEvent(e: Event) {
    !e.Interfere? && (e.Create? ==> !IsDecided(e.pod))
  }

  lemma {:induction false} OnlyDeletionsDisturb(cfg: Config, es: seq<Event>)
    requires forall i | 0 <= i < |es| :: OrdinaryEvent(es[i])
    ensures Disturbances(cfg, es) <= Deletions(es)
  {
    if es != [] {
      OnlyDeletionsDisturb(cfg, es[..|es| - 1]);
    }
  }

  /** With deletions, the counted pods leave the quota by at most the number of deletions, on either side. */
  lemma DeletionDrift(cfg: Config, es: seq<Event>)
    requires cfg.Valid() && cfg.Enforced() && Legal(cfg, es) && FreshRun(cfg, es)
    requires forall i | 0 <= i < |es| :: OrdinaryEvent(es[i])
    ensures var t := Final(cfg, es);
            && t.counted <= Q.QuotaFor(cfg.policy.rule, t.selected) + Deletions(es)
            && Q.QuotaFor(cfg.policy.rule, t.decided) <= t.counted + Deletions(es)
  {
    FreshRunDrift(cfg, es);
    OnlyDeletionsDisturb(cfg, es);
  }

  // BestEffort.

  function AsStrict(cfg: Config): Config {
    cfg.(policy := cfg.policy.(mode := Objects.Strict))
  }

  /** With nodes of both kinds and pods bound to best-scored nodes, BestEffort runs are Strict runs: the same events are
      legal, and they lead to the same pods with the same permitted nodes. */
  lemma {:induction false} BestEffortRefinesStrict(cfg: Config, es: seq<Event>)
    requires cfg.Valid() && cfg.policy.mode.BestEffort? && cfg.BothGroups()
    ensures Run(cfg, es) == Run(AsStrict(cfg), es)
    ensures Legal(cfg, es) <==> Legal(AsStrict(cfg), es)
  {
    if es != [] {
      var front, e := es[..|es| - 1], es[|es| - 1];
      BestEffortRefinesStrict(cfg, front);
      var s := Run(cfg, front);
      assert Enabled(cfg, s, e) <==> Enabled(AsStrict(cfg), s, e);
      if e.Cycle? && e.uid in s.pods {
        SameCycle(cfg, e.first, e.second, s.pods[e.uid]);
      }
    }
  }

  lemma SameCycle(cfg: Config, first: Attempt, second: Attempt, pod: Objects.Pod)
    requires cfg.Valid() && cfg.policy.mode.BestEffort? && cfg.BothGroups()
    ensures HookCycle(cfg, first, second, pod) == HookCycle(AsStrict(cfg), first, second, pod)
  {
    BestEffortCycle(cfg, first, second, pod);
    StrictCycle(AsStrict(cfg), first, second, pod);
    SameIntention(cfg, first, pod);
  }

  /** What a cycle should amount to does not depend on the mode. */
  lemma SameIntention(cfg: Config, attempt: Attempt, pod: Objects.Pod)
    requires cfg.Valid()
    ensures IntendedCycle(AsStrict(cfg), attempt, pod) == IntendedCycle(cfg, attempt, pod)
  {
    StrictSides(cfg);
  }

  lemma StrictSides(cfg: Config)
    requires cfg.Valid()
    ensures AsStrict(cfg).Group() == cfg.Group() && AsStrict(cfg).Valid()
    ensures forall b :: AsStrict(cfg).Side(b) == cfg.Side(b)
  {
    assert forall n :: AsStrict(cfg).InGroup(n) == cfg.InGroup(n);
    forall b: bool
      ensures AsStrict(cfg).Side(b) == cfg.Side(b)
    {
    }
  }
}
