/** The drift bounds are reached: there are runs that overshoot, and runs that fall short, by as many pods as were
    deleted, and by as many as the lister failed to show. */
module Sharpness {
  import Prelude
  import Labels
  import opened Objects
  import Grouping
  import Hooks
  import HookLaws
  import opened Cycles
  import opened Tallies
  import opened Scheduler
  import QuotaTheorems
  import opened RunTheorems
  import opened Completion
  import Q = Quota

  /** The i-th new pod of the policy's workload. */
  function NewPod(cfg: Config, i: nat): Pod {
    Pod(seq(i, _ => 'x'), "", cfg.policy.namespace, cfg.policy.podSelector, map[], "")
  }

  /** `n` selected pods that the policy governs and nobody has decided on. */
  ghost predicate NewPods(cfg: Config, pods: Pods, n: nat) {
    && (forall u | u in pods :: |u| < n)
    && Every(cfg, pods, NewTest) && |Selected(cfg, pods)| == n
  }

  lemma NewPodFacts(cfg: Config, i: nat)
    ensures var p := NewPod(cfg, i);
            |p.uid| == i && Passes(cfg, NewTest, p)
  {
    Labels.SelectedMatches(cfg.policy.podSelector, cfg.policy.podSelector);
    EmptyTextDoesNotParse();
  }

  lemma NewPodsGrow(cfg: Config, pods: Pods, p: Pod)
    requires NewPods(cfg, pods, |p.uid|) && Passes(cfg, NewTest, p)
    ensures p.uid !in pods && NewPods(cfg, pods[p.uid := p], |p.uid| + 1)
  {
    SelectedGrow(cfg, pods, p);
  }

  lemma SelectedGrow(cfg: Config, pods: Pods, p: Pod)
    requires p.uid !in pods && Passes(cfg, SelectedTest, p)
    ensures |Selected(cfg, pods[p.uid := p])| == |Selected(cfg, pods)| + 1
  {
    WriteMoves(cfg, pods, p, SelectedTest);
    SizeAround(Selected(cfg, pods[p.uid := p]), p.uid);
    assert Selected(cfg, pods[p.uid := p]) - {p.uid} == Selected(cfg, pods);
  }

  lemma {:induction false} CreateMany(cfg: Config, n: nat) returns (es: seq<Event>)
    ensures GoodRun(cfg, es) && NewPods(cfg, Run(cfg, es).pods, n)
    ensures Disturbances(cfg, es) == 0 && Deletions(es) == 0
  {
    if n == 0 {
      es := [];
      assert Selected(cfg, map[]) == {};
    } else {
      es := CreateMany(cfg, n - 1);
      var p := NewPod(cfg, n - 1);
      NewPodFacts(cfg, n - 1);
      NewPodsGrow(cfg, Run(cfg, es).pods, p);
      Extend(cfg, es, Create(p));
      es := es + [Create(p)];
    }
  }

  lemma NewPodIsOpen(cfg: Config, p: Pod)
    requires Passes(cfg, NewTest, p)
    ensures Passes(cfg, OpenTest, p) && !Grouping.Placed(p, cfg.Group())
  {
  }

  lemma NewPodsTally(cfg: Config, pods: Pods, n: nat)
    requires NewPods(cfg, pods, n)
    ensures TallyOf(cfg, pods) == Tally(n, 0, 0) && Every(cfg, pods, OpenTest)
  {
    forall u | u in pods
      ensures Passes(cfg, OpenTest, pods[u]) && u !in Counted(cfg, pods) && u !in Decided(cfg, pods)
    {
      assert Passes(cfg, NewTest, pods[u]);
      NewPodIsOpen(cfg, pods[u]);
    }
    assert Counted(cfg, pods) == {} && Decided(cfg, pods) == {};
  }

  // Foreign writes.

  lemma PromiseOne(cfg: Config, pods: Pods, u: string)
    requires u in Selected(cfg, pods) && u !in Decided(cfg, pods) && pods[u].uid == u
    ensures var t, t' := TallyOf(cfg, pods), TallyOf(cfg, pods[u := Annotated(pods[u], cfg.policy, true)]);
            t' == Tally(t.selected, t.decided + 1, t.counted + 1)
  {
    AnnotationRoundTrip(pods[u], cfg.policy, true, true);
    TallyAround(cfg, pods, u);
    QuotaTheorems.WriteShares(cfg, pods, Annotated(pods[u], cfg.policy, true));
  }

  /** Someone else promises the group to a pod. */
  lemma InterfereNext(cfg: Config, es: seq<Event>) returns (longer: seq<Event>)
    requires cfg.Valid() && GoodRun(cfg, es) && Final(cfg, es).decided < Final(cfg, es).selected
    ensures GoodRun(cfg, longer)
    ensures Disturbances(cfg, longer) == Disturbances(cfg, es) + 1 && Deletions(longer) == Deletions(es)
    ensures var t := Final(cfg, es); Final(cfg, longer) == Tally(t.selected, t.decided + 1, t.counted + 1)
  {
    var pods := Run(cfg, es).pods;
    RunKeepsInv(cfg, es);
    var u := SomeUndecided(cfg, pods);
    PromiseOne(cfg, pods, u);
    var e := Interfere(Annotated(pods[u], cfg.policy, true));
    Extend(cfg, es, e);
    longer := es + [e];
  }

  lemma {:induction false} InterfereMany(cfg: Config, es: seq<Event>, j: nat) returns (longer: seq<Event>)
    requires cfg.Valid() && GoodRun(cfg, es) && Final(cfg, es).decided + j <= Final(cfg, es).selected
    ensures GoodRun(cfg, longer)
    ensures Disturbances(cfg, longer) == Disturbances(cfg, es) + j && Deletions(longer) == Deletions(es)
    ensures var t := Final(cfg, es); Final(cfg, longer) == Tally(t.selected, t.decided + j, t.counted + j)
    decreases j
  {
    longer := es;
    if j != 0 {
      longer := InterfereNext(cfg, es);
      longer := InterfereMany(cfg, longer, j - 1);
    }
  }

  lemma SomeUndecided(cfg: Config, pods: Pods) returns (u: string)
    requires TallyOf(cfg, pods).decided < TallyOf(cfg, pods).selected
    ensures u in Selected(cfg, pods) && u !in Decided(cfg, pods)
  {
    var decided, all := Decided(cfg, pods), Selected(cfg, pods);
    if all <= decided {
      Prelude.SubsetSize(all, decided);
      assert false;
    }
    u :| u in all && u !in decided;
  }

  /** Under Must with a count of 0, some run with `k` foreign writes and no other disturbance overshoots by `k`. */
  lemma InterferenceBoundIsReached(cfg: Config, k: nat) returns (es: seq<Event>)
    requires cfg.Valid() && cfg.policy.rule == Q.Rule(Q.Must, Q.Count(0))
    ensures Legal(cfg, es) && FreshRun(cfg, es)
    ensures Deletions(es) == 0 && Disturbances(cfg, es) == k
    ensures Final(cfg, es).Over(Q.Curve(cfg.policy.rule)) == k
  {
    es := CreateMany(cfg, k);
    NewPodsTally(cfg, Run(cfg, es).pods, k);
    es := InterfereMany(cfg, es, k);
    CountQuota(0, k);
  }

  // Deletions.

  lemma SomeSelected(cfg: Config, pods: Pods, counted: bool) returns (u: string)
    requires var t := TallyOf(cfg, pods); if counted then 0 < t.counted else t.counted < t.selected
    ensures u in Selected(cfg, pods) && (u in Counted(cfg, pods) <==> counted)
  {
    var inside, all := Counted(cfg, pods), Selected(cfg, pods);
    if counted {
      u :| u in inside;
    } else {
      if all <= inside {
        Prelude.SubsetSize(all, inside);
        assert false;
      }
      u :| u in all && u !in inside;
    }
  }

  lemma DeleteOne(cfg: Config, pods: Pods, u: string)
    requires u in Selected(cfg, pods)
    ensures TallyOf(cfg, pods - {u}).counted == TallyOf(cfg, pods).counted - Bit(u in Counted(cfg, pods))
    ensures TallyOf(cfg, pods - {u}).selected == TallyOf(cfg, pods).selected - 1
  {
    TallyAround(cfg, pods, u);
  }

  lemma DeleteNext(cfg: Config, es: seq<Event>, counted: bool) returns (longer: seq<Event>)
    requires GoodRun(cfg, es)
    requires var t := Final(cfg, es); if counted then 0 < t.counted else t.counted < t.selected
    ensures GoodRun(cfg, longer)
    ensures Disturbances(cfg, longer) == Disturbances(cfg, es) + 1 && Deletions(longer) == Deletions(es) + 1
    ensures Final(cfg, longer).counted == Final(cfg, es).counted - Bit(counted)
    ensures Final(cfg, longer).selected == Final(cfg, es).selected - 1
    ensures AllBound(cfg, Run(cfg, es).pods) ==> AllBound(cfg, Run(cfg, longer).pods)
  {
    var pods := Run(cfg, es).pods;
    var u := SomeSelected(cfg, pods, counted);
    DeleteOne(cfg, pods, u);
    Extend(cfg, es, Delete(u));
    longer := es + [Delete(u)];
    assert Run(cfg, longer).pods == pods - {u};
    WhereSize(cfg, pods, u, SelectedTest);
  }

  /** Delete `j` selected pods that are counted, or that are not. */
  lemma {:induction false} DeleteMany(cfg: Config, es: seq<Event>, counted: bool, j: nat) returns (longer: seq<Event>)
    requires GoodRun(cfg, es)
    requires var t := Final(cfg, es); t.Nested() && if counted then j <= t.counted else t.counted + j <= t.selected
    ensures GoodRun(cfg, longer)
    ensures Disturbances(cfg, longer) == Disturbances(cfg, es) + j && Deletions(longer) == Deletions(es) + j
    ensures Final(cfg, longer).counted == Final(cfg, es).counted - (if counted then j else 0)
    ensures Final(cfg, longer).selected == Final(cfg, es).selected - j
    ensures AllBound(cfg, Run(cfg, es).pods) ==> AllBound(cfg, Run(cfg, longer).pods)
    decreases j
  {
    longer := es;
    if j != 0 {
      longer := DeleteNext(cfg, es, counted);
      TallyNested(cfg, Run(cfg, longer).pods);
      longer := DeleteMany(cfg, longer, counted, j - 1);
    }
  }

  lemma NewPodsGoverned(cfg: Config, pods: Pods, n: nat)
    requires NewPods(cfg, pods, n)
    ensures WaitingGoverned(cfg, pods) && TallyOf(cfg, pods).selected == n
  {
  }

  /** From new pods to all of them bound, with exactly the quota on the group. */
  lemma FillUp(cfg: Config, n: nat) returns (es: seq<Event>)
    requires cfg.Valid() && cfg.Enforced() && cfg.BothGroups()
    ensures GoodRun(cfg, es) && Disturbances(cfg, es) == 0 && Deletions(es) == 0
    ensures AllBound(cfg, Run(cfg, es).pods)
    ensures Final(cfg, es).selected == n && Final(cfg, es).counted == Q.QuotaFor(cfg.policy.rule, n)
  {
    es := CreateMany(cfg, n);
    NewPodsGoverned(cfg, Run(cfg, es).pods, n);
    es := Finish(cfg, es);
    FinishedTally(cfg, es);
  }

  lemma FinishedTally(cfg: Config, es: seq<Event>)
    requires cfg.Valid() && cfg.Enforced() && GoodRun(cfg, es) && Disturbances(cfg, es) == 0
    requires AllBound(cfg, Run(cfg, es).pods)
    ensures Final(cfg, es).counted == Q.QuotaFor(cfg.policy.rule, Final(cfg, es).selected)
  {
    ExactQuota(cfg, es);
    AllBoundTally(cfg, Run(cfg, es).pods);
  }

  lemma AllBoundTally(cfg: Config, pods: Pods)
    requires AllBound(cfg, pods)
    ensures TallyOf(cfg, pods).decided == TallyOf(cfg, pods).selected
  {
    assert Decided(cfg, pods) == Selected(cfg, pods);
  }

  /** Under MustNot with a count of `k`, some run with `k` deletions and no other disturbance overshoots by `k`. */
  lemma DeletionBoundIsReached(cfg: Config, k: nat) returns (es: seq<Event>)
    requires cfg.Valid() && cfg.Enforced() && cfg.BothGroups()
    requires cfg.policy.rule == Q.Rule(Q.MustNot, Q.Count(k))
    ensures Legal(cfg, es) && FreshRun(cfg, es)
    ensures Deletions(es) == k && Disturbances(cfg, es) == k
    ensures Final(cfg, es).Over(Q.Curve(cfg.policy.rule)) == k
  {
    es := FillUp(cfg, 2 * k);
    TallyNested(cfg, Run(cfg, es).pods);
    AllButCount(k, 2 * k);
    es := DeleteMany(cfg, es, false, k);
    CountOvershoot(Final(cfg, es), k);
  }

  lemma AllButCount(k: nat, n: nat)
    ensures Q.QuotaFor(Q.Rule(Q.MustNot, Q.Count(k)), n) == if n < k then 0 else n - k
  {
  }

  lemma CountOvershoot(t: Tally, k: nat)
    requires t.selected == k && t.counted == k
    ensures t.Over(Q.Curve(Q.Rule(Q.MustNot, Q.Count(k)))) == k
  {
  }

  /** Under Must with a count of `k`, some run with `k` deletions and no other disturbance falls short by `k`. */
  lemma DeletionShortfallIsReached(cfg: Config, k: nat) returns (es: seq<Event>)
    requires cfg.Valid() && cfg.Enforced() && cfg.BothGroups()
    requires cfg.policy.rule == Q.Rule(Q.Must, Q.Count(k))
    ensures Legal(cfg, es) && FreshRun(cfg, es)
    ensures Deletions(es) == k && Disturbances(cfg, es) == k
    ensures Final(cfg, es).Under(Q.Curve(cfg.policy.rule)) == k
  {
    es := FillUp(cfg, 2 * k);
    TallyNested(cfg, Run(cfg, es).pods);
    CountQuota(k, 2 * k);
    es := DeleteMany(cfg, es, true, k);
    AllBoundTally(cfg, Run(cfg, es).pods);
    CountShortfall(Final(cfg, es), k);
  }

  lemma CountQuota(k: nat, n: nat)
    ensures Q.QuotaFor(Q.Rule(Q.Must, Q.Count(k)), n) == if n < k then n else k
  {
  }

  lemma CountShortfall(t: Tally, k: nat)
    requires t == Tally(k, k, 0)
    ensures t.Under(Q.Curve(Q.Rule(Q.Must, Q.Count(k)))) == k
  {
    CountQuota(k, k);
  }

  // Stale reads.

  lemma {:induction false} NothingShown(pods: seq<Pod>, self: string, group: set<string>)
    requires forall p | p in pods :: !Grouping.Placed(p, group)
    ensures Grouping.CountedPods(pods, self, group) == []
  {
    if pods != [] {
      NothingShown(pods[..|pods| - 1], self, group);
      assert pods[|pods| - 1] in pods;
    }
  }

  /** No pod in the cache shows as placed. */
  ghost predicate Blind(cfg: Config, cache: seq<Pod>) {
    forall p | p in cache :: !Grouping.Placed(p, cfg.Group())
  }

  lemma BlindCount(cfg: Config, s: State, cache: seq<Pod>, u: string)
    requires u in Selected(cfg, s.pods) && s.pods[u].uid == u && Lists(cache, s.pods[u]) && Blind(cfg, cache)
    ensures var listed := Hooks.PodsWithLabels(cache, cfg.policy.podSelector);
            listed != [] && Grouping.CountedPods(listed, u, cfg.Group()) == []
  {
    var listed := Hooks.PodsWithLabels(cache, cfg.policy.podSelector);
    HookLaws.ListedPods(cache, cfg.policy.podSelector);
    QuotaTheorems.CacheCounts(cfg, s, u, cache);
    NothingShown(listed, u, cfg.Group());
  }

  /** A cycle with a blind cache sends the pod to the group when the target is one pod. */
  lemma BlindCycle(cfg: Config, s: State, cache: seq<Pod>, u: string)
    requires cfg.Valid() && cfg.Enforced() && cfg.policy.rule == Q.Rule(Q.Must, Q.Count(1))
    requires Inv(s) && Enabled(cfg, s, Accepted(u, cache))
    requires u in Selected(cfg, s.pods) && u !in Counted(cfg, s.pods) && Blind(cfg, cache)
    ensures var t, t' := TallyOf(cfg, s.pods), TallyOf(cfg, Next(cfg, s, Accepted(u, cache)).pods);
            t'.counted == t.counted + 1 && t'.selected == t.selected
  {
    var n := |Hooks.PodsWithLabels(cache, cfg.policy.podSelector)|;
    BlindCount(cfg, s, cache, u);
    OneForAny(n);
    QuotaTheorems.CycleTally(cfg, s, Accepted(u, cache));
    TallyAround(cfg, s.pods, u);
  }

  lemma OneForAny(n: nat)
    ensures 0 < n ==> Q.QuotaFor(Q.Rule(Q.Must, Q.Count(1)), n) == 1
  {
  }

  /** The cache shows just the stored pods, with their labels. */
  predicate KnowsLabels(cache: seq<Pod>, pods: Pods) {
    && Grouping.UniqueUids(cache)
    && forall p | p in cache :: p.uid in pods && p.labels == pods[p.uid].labels
  }

  lemma KnownIsListed(cache: seq<Pod>, pods: Pods, u: string)
    requires KnowsLabels(cache, pods) && u in Grouping.Uids(cache) && u in pods && pods[u].uid == u
    ensures Lists(cache, pods[u])
  {
  }

  /** A burst: all pods can be cycled, and the cache still shows them as they were created. */
  ghost predicate Burst(cfg: Config, cache: seq<Pod>, pods: Pods) {
    && Every(cfg, pods, OpenTest) && (forall u | u in pods :: u in Grouping.Uids(cache))
    && KnowsLabels(cache, pods) && Blind(cfg, cache)
  }

  lemma BurstStarts(cfg: Config, pods: Pods, n: nat, cache: seq<Pod>)
    requires NewPods(cfg, pods, n) && Exact(cache, pods)
    ensures Burst(cfg, cache, pods) && TallyOf(cfg, pods).counted == 0 && TallyOf(cfg, pods).selected == n
  {
    NewPodsTally(cfg, pods, n);
    forall p | p in cache
      ensures p.uid in pods && pods[p.uid] == p && !Grouping.Placed(p, cfg.Group())
    {
      NewPodIsOpen(cfg, pods[p.uid]);
    }
  }

  lemma BurstGoesOn(cfg: Config, s: State, cache: seq<Pod>, u: string)
    requires cfg.Valid() && cfg.Enforced() && cfg.nodes != []
    requires Inv(s) && Burst(cfg, cache, s.pods) && u in s.pods
    ensures Enabled(cfg, s, Accepted(u, cache))
    ensures Burst(cfg, cache, Next(cfg, s, Accepted(u, cache)).pods)
  {
    assert Passes(cfg, OpenTest, s.pods[u]);
    KnownIsListed(cache, s.pods, u);
    QuotaTheorems.CycleResultFacts(cfg, Attempt(cache, true), Attempt(cache, true), s.pods[u]);
    BurstWrite(cfg, s.pods, cache, Annotated(s.pods[u], cfg.policy, Preferred(cfg, cache, s.pods[u])));
  }

  lemma BurstWrite(cfg: Config, pods: Pods, cache: seq<Pod>, after: Pod)
    requires Burst(cfg, cache, pods) && after.uid in pods
    requires after == pods[after.uid].(annotations := after.annotations)
    ensures Burst(cfg, cache, pods[after.uid := after])
  {
    assert Passes(cfg, OpenTest, pods[after.uid]);
  }

  /** A cache in a burst hides at most the counted pods, and gets nothing else wrong. */
  lemma BurstStaleness(cfg: Config, s: State, u: string, cache: seq<Pod>)
    requires Burst(cfg, cache, s.pods)
    ensures |Hidden(cfg, s, u, cache)| <= TallyOf(cfg, s.pods).counted
    ensures Missing(cfg, s, cache) == {} && Surplus(cfg, s, cache) == {} && Phantoms(cfg, s, u, cache) == {}
  {
    Prelude.SubsetSize(Hidden(cfg, s, u, cache), Counted(cfg, s.pods));
    HookLaws.ListedPods(cache, cfg.policy.podSelector);
    assert Shown(cfg, u, cache) == {};
    BurstLists(cfg, s.pods, cache);
  }

  lemma BurstLists(cfg: Config, pods: Pods, cache: seq<Pod>)
    requires Burst(cfg, cache, pods)
    ensures ListedUids(cfg, cache) == Selected(cfg, pods) == pods.Keys
  {
    HookLaws.ListedPods(cache, cfg.policy.podSelector);
    forall v | v in pods
      ensures v in ListedUids(cfg, cache) && v in Selected(cfg, pods)
    {
      assert Passes(cfg, OpenTest, pods[v]) && v in Grouping.Uids(cache);
      var p :| p in cache && p.uid == v;
    }
  }

  lemma ExtendStale(cfg: Config, es: seq<Event>, e: Event, k: nat, h: nat)
    requires Legal(cfg, es) && StaleAtMost(cfg, es, k, h) && Enabled(cfg, Run(cfg, es), e)
    requires Staleness(cfg, Run(cfg, es), e) <= k && Shortness(cfg, Run(cfg, es), e) <= h
    ensures Legal(cfg, es + [e]) && StaleAtMost(cfg, es + [e], k, h) && Run(cfg, es + [e]) == Next(cfg, Run(cfg, es), e)
    ensures Disturbances(cfg, es + [e]) == Disturbances(cfg, es) + (if Disturbs(cfg, Run(cfg, es), e) then 1 else 0)
  {
    assert (es + [e])[..|es + [e]| - 1] == es;
  }

  /** One cycle of a burst puts one more pod on the group's account. */
  lemma BurstStep(cfg: Config, s: State, cache: seq<Pod>) returns (e: Event)
    requires cfg.Valid() && cfg.Enforced() && cfg.nodes != [] && cfg.policy.rule == Q.Rule(Q.Must, Q.Count(1))
    requires Inv(s) && Burst(cfg, cache, s.pods)
    requires TallyOf(cfg, s.pods).counted < TallyOf(cfg, s.pods).selected
    ensures Enabled(cfg, s, e) && !Disturbs(cfg, s, e)
    ensures Staleness(cfg, s, e) <= TallyOf(cfg, s.pods).counted && Shortness(cfg, s, e) == 0
    ensures Burst(cfg, cache, Next(cfg, s, e).pods)
    ensures var t, t' := TallyOf(cfg, s.pods), TallyOf(cfg, Next(cfg, s, e).pods);
            t'.counted == t.counted + 1 && t'.selected == t.selected
  {
    var u := SomeSelected(cfg, s.pods, false);
    e := Accepted(u, cache);
    BurstGoesOn(cfg, s, cache, u);
    BlindCycle(cfg, s, cache, u);
    BurstStaleness(cfg, s, u, cache);
  }

  lemma CycleNext(cfg: Config, es: seq<Event>, cache: seq<Pod>, k: nat) returns (longer: seq<Event>)
    requires cfg.Valid() && cfg.Enforced() && cfg.nodes != [] && cfg.policy.rule == Q.Rule(Q.Must, Q.Count(1))
    requires Legal(cfg, es) && StaleAtMost(cfg, es, k, 0) && Burst(cfg, cache, Run(cfg, es).pods)
    requires Final(cfg, es).counted < Final(cfg, es).selected && Final(cfg, es).counted <= k
    ensures Legal(cfg, longer) && StaleAtMost(cfg, longer, k, 0) && Burst(cfg, cache, Run(cfg, longer).pods)
    ensures Disturbances(cfg, longer) == Disturbances(cfg, es)
    ensures Final(cfg, longer).counted == Final(cfg, es).counted + 1
    ensures Final(cfg, longer).selected == Final(cfg, es).selected
  {
    RunKeepsInv(cfg, es);
    var e := BurstStep(cfg, Run(cfg, es), cache);
    ExtendStale(cfg, es, e, k, 0);
    longer := es + [e];
  }

  lemma {:induction false} CycleBlindly(cfg: Config, es: seq<Event>, cache: seq<Pod>, k: nat, j: nat)
    returns (longer: seq<Event>)
    requires cfg.Valid() && cfg.Enforced() && cfg.nodes != [] && cfg.policy.rule == Q.Rule(Q.Must, Q.Count(1))
    requires Legal(cfg, es) && StaleAtMost(cfg, es, k, 0) && Burst(cfg, cache, Run(cfg, es).pods)
    requires Final(cfg, es).counted + j <= Final(cfg, es).selected && Final(cfg, es).counted + j <= k + 1
    ensures Legal(cfg, longer) && StaleAtMost(cfg, longer, k, 0)
    ensures Disturbances(cfg, longer) == Disturbances(cfg, es)
    ensures Final(cfg, longer).counted == Final(cfg, es).counted + j
    ensures Final(cfg, longer).selected == Final(cfg, es).selected
    decreases j
  {
    longer := es;
    if j != 0 {
      longer := CycleNext(cfg, es, cache, k);
      longer := CycleBlindly(cfg, longer, cache, k, j - 1);
    }
  }

  /** Under Must with a count of one, some undisturbed run whose caches hide at most `k` counted pods, and get nothing
      else wrong, overshoots by `k`. */
  lemma StaleBoundIsReached(cfg: Config, k: nat) returns (es: seq<Event>)
    requires cfg.Valid() && cfg.Enforced() && cfg.nodes != [] && cfg.policy.rule == Q.Rule(Q.Must, Q.Count(1))
    ensures Legal(cfg, es) && StaleAtMost(cfg, es, k, 0) && Disturbances(cfg, es) == 0
    ensures Final(cfg, es).Over(Q.Curve(cfg.policy.rule)) == k
  {
    es := CreateMany(cfg, k + 1);
    FreshIsNotStale(cfg, es, k, 0);
    RunKeepsInv(cfg, es);
    var pods := Run(cfg, es).pods;
    var cache := Enumerate(pods);
    BurstStarts(cfg, pods, k + 1, cache);
    es := CycleBlindly(cfg, es, cache, k, k + 1);
    OvershootOfOne(Final(cfg, es), k);
  }

  lemma OvershootOfOne(t: Tally, k: nat)
    requires t.selected == t.counted == k + 1
    ensures t.Over(Q.Curve(Q.Rule(Q.Must, Q.Count(1)))) == k
  {
    OneForAny(k + 1);
  }

  // Missing pods.

  /** A cache that shows only the pod of the cycle lacks all other selected pods, and shows none as counted. */
  lemma LonelyCache(cfg: Config, s: State, u: string)
    requires u in Selected(cfg, s.pods) && s.pods[u].uid == u
    ensures Lists([s.pods[u]], s.pods[u]) && |Hooks.PodsWithLabels([s.pods[u]], cfg.policy.podSelector)| == 1
    ensures |Missing(cfg, s, [s.pods[u]])| == TallyOf(cfg, s.pods).selected - 1 && Surplus(cfg, s, [s.pods[u]]) == {}
    ensures Phantoms(cfg, s, u, [s.pods[u]]) == {}
    ensures |Hidden(cfg, s, u, [s.pods[u]])| <= TallyOf(cfg, s.pods).counted
  {
    LonelyList(cfg, s.pods[u]);
    LonelyMissing(cfg, s, u);
    Prelude.SubsetSize(Hidden(cfg, s, u, [s.pods[u]]), Counted(cfg, s.pods));
  }

  lemma LonelyList(cfg: Config, pod: Pod)
    requires Passes(cfg, SelectedTest, pod)
    ensures Hooks.PodsWithLabels([pod], cfg.policy.podSelector) == [pod] && Shown(cfg, pod.uid, [pod]) == {}
  {
    HookLaws.ListedAppend([], pod, cfg.policy.podSelector);
    assert [] + [pod] == [pod];
  }

  lemma LonelyMissing(cfg: Config, s: State, u: string)
    requires u in Selected(cfg, s.pods) && s.pods[u].uid == u
    ensures |Missing(cfg, s, [s.pods[u]])| == TallyOf(cfg, s.pods).selected - 1 && Surplus(cfg, s, [s.pods[u]]) == {}
  {
    LonelyList(cfg, s.pods[u]);
    assert ListedUids(cfg, [s.pods[u]]) == {u};
    SizeAround(Selected(cfg, s.pods), u);
    assert Missing(cfg, s, [s.pods[u]]) == Selected(cfg, s.pods) - {u};
  }

  /** A pod that is alone in its cache is kept off the group when the target leaves out one pod. */
  lemma LonelyCycle(cfg: Config, s: State, u: string)
    requires cfg.Valid() && cfg.Enforced() && cfg.nodes != []
    requires cfg.policy.rule == Q.Rule(Q.MustNot, Q.Count(1))
    requires Inv(s) && u in Selected(cfg, s.pods) && u !in Decided(cfg, s.pods) && Every(cfg, s.pods, OpenTest)
    ensures Enabled(cfg, s, Accepted(u, [s.pods[u]]))
    ensures var t, t' := TallyOf(cfg, s.pods), TallyOf(cfg, Next(cfg, s, Accepted(u, [s.pods[u]])).pods);
            t'.selected == t.selected && t'.decided == t.decided + 1 && t'.counted == t.counted
  {
    LonelyCache(cfg, s, u);
    QuotaTheorems.CycleTally(cfg, s, Accepted(u, [s.pods[u]]));
    TallyAround(cfg, s.pods, u);
    TallyNested(cfg, s.pods);
    AllButCount(1, 1);
  }

  lemma StaysOpen(cfg: Config, s: State, u: string)
    requires cfg.Valid() && Inv(s) && u in s.pods && Every(cfg, s.pods, OpenTest)
    requires Enabled(cfg, s, Accepted(u, [s.pods[u]]))
    ensures Every(cfg, Next(cfg, s, Accepted(u, [s.pods[u]])).pods, OpenTest)
  {
    var after := QuotaTheorems.CycleNext(cfg, s, Accepted(u, [s.pods[u]]));
    AnnotatedStaysOpen(cfg, s.pods, after);
  }

  lemma AnnotatedStaysOpen(cfg: Config, pods: Pods, after: Pod)
    requires Every(cfg, pods, OpenTest) && after.uid in pods
    requires after == pods[after.uid].(annotations := after.annotations)
    ensures Every(cfg, pods[after.uid := after], OpenTest)
  {
    assert Passes(cfg, OpenTest, pods[after.uid]);
  }

  lemma {:induction false} CycleLonely(cfg: Config, es: seq<Event>, h: nat, j: nat) returns (longer: seq<Event>)
    requires cfg.Valid() && cfg.Enforced() && cfg.nodes != []
    requires cfg.policy.rule == Q.Rule(Q.MustNot, Q.Count(1))
    requires Legal(cfg, es) && StaleAtMost(cfg, es, 0, h) && Every(cfg, Run(cfg, es).pods, OpenTest)
    requires var t := Final(cfg, es); t.selected == h + 1 && t.counted == 0 && t.decided + j == t.selected
    ensures Legal(cfg, longer) && StaleAtMost(cfg, longer, 0, h)
    ensures Disturbances(cfg, longer) == Disturbances(cfg, es)
    ensures var t := Final(cfg, longer); t.selected == t.decided == h + 1 && t.counted == 0
    decreases j
  {
    longer := es;
    if j != 0 {
      var s := Run(cfg, es);
      RunKeepsInv(cfg, es);
      var u := SomeUndecided(cfg, s.pods);
      LonelyCache(cfg, s, u);
      LonelyCycle(cfg, s, u);
      StaysOpen(cfg, s, u);
      ExtendStale(cfg, es, Accepted(u, [s.pods[u]]), 0, h);
      longer := CycleLonely(cfg, es + [Accepted(u, [s.pods[u]])], h, j - 1);
    }
  }

  /** Under MustNot with a count of one, some undisturbed run whose caches hide no counted pod, and lack or wrongly show
      at most `h` pods, falls short by `h`. */
  lemma StaleShortfallIsReached(cfg: Config, h: nat) returns (es: seq<Event>)
    requires cfg.Valid() && cfg.Enforced() && cfg.nodes != []
    requires cfg.policy.rule == Q.Rule(Q.MustNot, Q.Count(1))
    ensures Legal(cfg, es) && StaleAtMost(cfg, es, 0, h) && Disturbances(cfg, es) == 0
    ensures Final(cfg, es).Under(Q.Curve(cfg.policy.rule)) == h
  {
    es := CreateMany(cfg, h + 1);
    FreshIsNotStale(cfg, es, 0, h);
    NewPodsTally(cfg, Run(cfg, es).pods, h + 1);
    es := CycleLonely(cfg, es, h, h + 1);
    LonelyShortfall(Final(cfg, es), h);
  }

  lemma LonelyShortfall(t: Tally, h: nat)
    requires t.decided == h + 1 && t.counted == 0
    ensures t.Under(Q.Curve(Q.Rule(Q.MustNot, Q.Count(1)))) == h
  {
    AllButCount(1, h + 1);
  }
}
