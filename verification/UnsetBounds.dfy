/** What every undisturbed run under an unset enforcement mode keeps: it never overshoots the quota, and until a pod is
    on the node group it is a run of the Strict mode. */
module UnsetBounds {
  import opened Prelude
  import opened Objects
  import opened Grouping
  import Hooks
  import HookLaws
  import opened Cycles
  import opened Tallies
  import opened Scheduler
  import QuotaTheorems
  import opened RunTheorems
  import UnsetMode
  import Completion
  import Q = Quota

  ghost predicate Undisturbed(cfg: Config, es: seq<Event>) {
    Completion.GoodRun(cfg, es) && Disturbances(cfg, es) == 0
  }

  /** A quiet event writes to a selected pod only by creating it undecided, by a cycle, or by a permitted binding. */
  ghost predicate QuietEvent(cfg: Config, s: State, e: Event) {
    Enabled(cfg, s, e) && !Disturbs(cfg, s, e) && ReadsFresh(s, e)
  }

  // What fresh reads show.

  /** The selected pods that count towards this group of nodes; towards the empty one, the mere promises do. */
  function PlacedIn(cfg: Config, pods: Pods, group: set<string>): set<string> {
    set u | u in pods && Passes(cfg, SelectedTest, pods[u]) && Placed(pods[u], group)
  }

  lemma FreshPlaced(cfg: Config, pods: Pods, uid: string, cache: seq<Pod>, group: set<string>)
    requires Fresh(cache, pods, uid)
    ensures var listed := Hooks.PodsWithLabels(cache, cfg.policy.podSelector);
            (set p | p in listed && CountsFor(p, uid, group) :: p.uid) == PlacedIn(cfg, pods, group) - {uid}
  {
    HookLaws.ListedPods(cache, cfg.policy.podSelector);
    forall u | u in PlacedIn(cfg, pods, group) && u != uid
      ensures pods[u] in cache && pods[u].uid == u
    {
      assert u in Uids(cache);
      var p :| p in cache && p.uid == u;
    }
  }

  lemma FreshNumbers(cfg: Config, s: State, uid: string, cache: seq<Pod>, group: set<string>)
    requires Fresh(cache, s.pods, uid)
    ensures var listed := Hooks.PodsWithLabels(cache, cfg.policy.podSelector);
            && |listed| == |Selected(cfg, s.pods)|
            && |CountedPods(listed, uid, group)| == |PlacedIn(cfg, s.pods, group) - {uid}|
  {
    var listed := Hooks.PodsWithLabels(cache, cfg.policy.podSelector);
    HookLaws.ListedPods(cache, cfg.policy.podSelector);
    QuotaTheorems.FreshLists(cfg, s, uid, cache);
    UidsSize(listed);
    CountIsCardinality(listed, uid, group);
    FreshPlaced(cfg, s.pods, uid, cache, group);
  }

  /** Both decisions of a cycle compare with one target: PreFilter's counts the pods on the group and the promises,
      PreScore's off the group only the promises. */
  lemma FreshDecisions(cfg: Config, s: State, uid: string, cache: seq<Pod>)
    requires cfg.Valid() && uid in s.pods && s.pods[uid].uid == uid && Fresh(cache, s.pods, uid)
    ensures var target := Q.Target(cfg.policy.rule, |Selected(cfg, s.pods)|).value;
            && (Preferred(cfg, cache, s.pods[uid]) <==> |PlacedIn(cfg, s.pods, cfg.Group()) - {uid}| < target)
            && (UnsetMode.PromisesLeaveRoom(cfg, cache, s.pods[uid]) <==> |PlacedIn(cfg, s.pods, {}) - {uid}| < target)
  {
    FreshNumbers(cfg, s, uid, cache, cfg.Group());
    FreshNumbers(cfg, s, uid, cache, {});
  }

  /** PreScore decides as PreFilter does on the group, and off the group as long as no pod is bound to the group. */
  lemma SameDecision(cfg: Config, s: State, e: Event)
    requires cfg.Valid() && Inv(s) && Enabled(cfg, s, e) && e.Cycle? && ReadsFresh(s, e)
    requires Preferred(cfg, e.first.cache, s.pods[e.uid]) || OnGroup(cfg, s.pods) == {}
    ensures var prefers := Preferred(cfg, e.first.cache, s.pods[e.uid]);
            UnsetMode.SecondDecision(cfg, e.second.cache, prefers, s.pods[e.uid]) == prefers
  {
    FreshDecisions(cfg, s, e.uid, e.first.cache);
    FreshDecisions(cfg, s, e.uid, e.second.cache);
    if OnGroup(cfg, s.pods) == {} {
      OnlyPromises(cfg, s.pods);
    }
  }

  lemma OnlyPromises(cfg: Config, pods: Pods)
    requires OnGroup(cfg, pods) == {}
    ensures PlacedIn(cfg, pods, {}) == PlacedIn(cfg, pods, cfg.Group())
  {
    forall u | u in pods && Passes(cfg, SelectedTest, pods[u])
      ensures Placed(pods[u], {}) == Placed(pods[u], cfg.Group())
    {
      assert u !in OnGroup(cfg, pods);
    }
  }

  // What a cycle does.

  lemma SideOfGroup(cfg: Config, prefers: bool)
    requires cfg.Valid()
    ensures forall n | n in cfg.Side(prefers) :: n in cfg.Group() <==> prefers
  {
    forall n | n in cfg.nodes
      ensures n.name in cfg.Group() <==> cfg.InGroup(n)
    {
      NodeInGroupIff(cfg.nodes, cfg.policy.nodeSelector, n);
    }
  }

  /** A cycle with fresh reads stores the pod with some annotation, or nothing; if it starts a binding, that goes to the
      side that PreFilter has decided for, and a binding to the group goes with a promise of it. */
  lemma UnsetResult(cfg: Config, s: State, e: Event)
    requires cfg.Valid() && cfg.policy.mode.OtherMode? && Inv(s) && Enabled(cfg, s, e) && e.Cycle? && ReadsFresh(s, e)
    ensures var pod := s.pods[e.uid];
            var result, prefers := HookCycle(cfg, e.first, e.second, pod), Preferred(cfg, e.first.cache, pod);
            && (forall n | n in result.permitted :: n in cfg.Group() <==> prefers)
            && (result.permitted != {} && prefers ==> result.stored == Some(Annotated(pod, cfg.policy, true)))
  {
    var prefers := Preferred(cfg, e.first.cache, s.pods[e.uid]);
    UnsetMode.UnsetModeCycle(cfg, e.first, e.second, s.pods[e.uid]);
    SideOfGroup(cfg, prefers);
    if prefers {
      SameDecision(cfg, s, e);
    }
  }

  lemma UnsetNext(cfg: Config, s: State, e: Event) returns (after: Pod, permitted: set<string>)
    requires cfg.Valid() && cfg.policy.mode.OtherMode? && Inv(s) && Enabled(cfg, s, e) && e.Cycle? && ReadsFresh(s, e)
    ensures Next(cfg, s, e) == State(s.pods[e.uid := after], PendingAfter(s.pending, e.uid, permitted))
    ensures after == s.pods[e.uid].(annotations := after.annotations)
    ensures var prefers := Preferred(cfg, e.first.cache, s.pods[e.uid]);
            && (forall n | n in permitted :: n in cfg.Group() <==> prefers)
            && (permitted != {} && prefers ==> after.Preference() == Some(true))
  {
    UnsetResult(cfg, s, e);
    AnnotationRoundTrip(s.pods[e.uid], cfg.policy, true, true);
    after := QuotaTheorems.CycleNext(cfg, s, e);
    permitted := HookCycle(cfg, e.first, e.second, s.pods[e.uid]).permitted;
  }

  /** Quiet events keep the selected pods, apart from creating undecided ones. */
  lemma SelectedStep(cfg: Config, s: State, e: Event)
    requires cfg.Valid() && Inv(s) && QuietEvent(cfg, s, e)
    ensures Selected(cfg, s.pods) <= Selected(cfg, Next(cfg, s, e).pods)
    ensures |Selected(cfg, s.pods)| <= |Selected(cfg, Next(cfg, s, e).pods)|
  {
    if e.Cycle? {
      var after := QuotaTheorems.CycleNext(cfg, s, e);
      WriteMoves(cfg, s.pods, after, SelectedTest);
    }
    SubsetSize(Selected(cfg, s.pods), Selected(cfg, Next(cfg, s, e).pods));
  }

  // Safety: no overshoot.

  predicate Taking(cfg: Config, s: State, u: string) {
    && u in s.pods && Passes(cfg, SelectedTest, s.pods[u])
    && if s.pods[u].Bound() then s.pods[u].nodeName in cfg.Group()
       else u in s.pending && exists n :: n in s.pending[u] && n in cfg.Group()
  }

  /** The selected pods that are bound to a node of the group, or have a binding to one under way. */
  function Taken(cfg: Config, s: State): set<string> {
    set u | u in s.pods && Taking(cfg, s, u)
  }

  /** They are at most the quota, and all of them count. */
  ghost predicate Safe(cfg: Config, s: State)
    requires cfg.policy.rule.Valid()
  {
    && |Taken(cfg, s)| <= Q.QuotaFor(cfg.policy.rule, |Selected(cfg, s.pods)|)
    && Taken(cfg, s) <= Counted(cfg, s.pods)
  }

  /** Only a cycle adds to them. */
  lemma TakenByOthers(cfg: Config, s: State, e: Event)
    requires cfg.Valid() && Inv(s) && QuietEvent(cfg, s, e) && !e.Cycle? && Taken(cfg, s) <= Counted(cfg, s.pods)
    ensures Taken(cfg, Next(cfg, s, e)) <= Taken(cfg, s)
    ensures Taken(cfg, Next(cfg, s, e)) <= Counted(cfg, Next(cfg, s, e).pods)
  {
    var s' := Next(cfg, s, e);
    forall u | u in Taken(cfg, s')
      ensures u in Taken(cfg, s) && u in Counted(cfg, s'.pods)
    {
      assert Taking(cfg, s', u);
      if e.Bind? && e.uid == u {
        assert Taking(cfg, s, u);
      } else {
        assert Taking(cfg, s, u) && u in Counted(cfg, s.pods);
      }
    }
  }

  lemma TakenByCycle(cfg: Config, s: State, e: Event)
    requires cfg.Valid() && cfg.policy.mode.OtherMode? && Inv(s) && QuietEvent(cfg, s, e) && e.Cycle?
    requires Taken(cfg, s) <= Counted(cfg, s.pods)
    ensures var s' := Next(cfg, s, e);
            && Taken(cfg, s') - {e.uid} <= Taken(cfg, s) - {e.uid}
            && Taken(cfg, s') <= Counted(cfg, s'.pods)
            && (e.uid in Taken(cfg, s') ==>
                  e.uid in Selected(cfg, s.pods) && Preferred(cfg, e.first.cache, s.pods[e.uid]))
  {
    var after, permitted := UnsetNext(cfg, s, e);
    QuotaTheorems.PendingThenRemove(s.pending, e.uid, permitted);
    WriteThenRemove(s.pods, e.uid, after);
    TakenBy(cfg, s, State(s.pods[e.uid := after], PendingAfter(s.pending, e.uid, permitted)), e.uid,
            Preferred(cfg, e.first.cache, s.pods[e.uid]));
  }

  /** A pod whose binding heads for the group only if it is preferred, and then with a promise. */
  lemma TakenBy(cfg: Config, s: State, s': State, uid: string, prefers: bool)
    requires QuotaTheorems.SameElsewhere(s, s', uid) && Taken(cfg, s) <= Counted(cfg, s.pods)
    requires uid in s.pods && uid in s'.pods && !s'.pods[uid].Bound() && s'.pods[uid].labels == s.pods[uid].labels
    requires uid in s'.pending ==>
               (forall n | n in s'.pending[uid] :: n in cfg.Group() <==> prefers)
               && (s'.pending[uid] != {} && prefers ==> s'.pods[uid].Preference() == Some(true))
    ensures Taken(cfg, s') - {uid} <= Taken(cfg, s) - {uid} && Taken(cfg, s') <= Counted(cfg, s'.pods)
    ensures uid in Taken(cfg, s') ==> uid in Selected(cfg, s.pods) && prefers
  {
    forall u | u in Taken(cfg, s')
      ensures u != uid ==> u in Taken(cfg, s)
      ensures u in Counted(cfg, s'.pods)
      ensures u == uid ==> u in Selected(cfg, s.pods) && prefers
    {
      assert Taking(cfg, s', u);
      if u != uid {
        QuotaTheorems.SameAt(s, s', uid, u);
        assert Taking(cfg, s, u) && u in Counted(cfg, s.pods);
      }
    }
  }

  lemma OthersCount(cfg: Config, s: State, uid: string)
    requires Taken(cfg, s) <= Counted(cfg, s.pods)
    ensures |Taken(cfg, s) - {uid}| <= TallyOf(cfg, s.pods - {uid}).counted
  {
    WhereSize(cfg, s.pods, uid, CountedTest);
    SubsetSize(Taken(cfg, s) - {uid}, Counted(cfg, s.pods - {uid}));
  }

  lemma AtMostOneMore<T>(after: set<T>, before: set<T>, u: T)
    requires after - {u} <= before - {u}
    ensures |after| <= |before - {u}| + Bit(u in after) && (u !in after ==> |after| <= |before|)
  {
    SizeAround(after, u);
    SubsetSize(after - {u}, before - {u});
    if u !in after {
      assert after == after - {u};
      SubsetSize(after, before);
    }
  }

  lemma SafeCycle(cfg: Config, s: State, e: Event)
    requires cfg.Valid() && cfg.policy.mode.OtherMode? && Inv(s) && QuietEvent(cfg, s, e) && e.Cycle? && Safe(cfg, s)
    ensures |Taken(cfg, Next(cfg, s, e))| <= Q.QuotaFor(cfg.policy.rule, |Selected(cfg, s.pods)|)
    ensures Taken(cfg, Next(cfg, s, e)) <= Counted(cfg, Next(cfg, s, e).pods)
  {
    TakenByCycle(cfg, s, e);
    AtMostOneMore(Taken(cfg, Next(cfg, s, e)), Taken(cfg, s), e.uid);
    if e.uid in Taken(cfg, Next(cfg, s, e)) {
      QuotaTheorems.FreshDecision(cfg, s, e.uid, e.first.cache);
      OthersCount(cfg, s, e.uid);
    }
  }

  lemma SafeStep(cfg: Config, s: State, e: Event)
    requires cfg.Valid() && cfg.policy.mode.OtherMode? && Inv(s) && QuietEvent(cfg, s, e) && Safe(cfg, s)
    ensures Safe(cfg, Next(cfg, s, e))
  {
    if e.Cycle? {
      SafeCycle(cfg, s, e);
    } else {
      TakenByOthers(cfg, s, e);
      SubsetSize(Taken(cfg, Next(cfg, s, e)), Taken(cfg, s));
    }
    SelectedStep(cfg, s, e);
    Q.QuotaMonotone(cfg.policy.rule, |Selected(cfg, s.pods)|, |Selected(cfg, Next(cfg, s, e).pods)|);
  }

  /** Also when both hooks decide, an undisturbed run never overshoots: the pods on the group and those heading there
      are at most the quota. */
  lemma {:induction false} UnsetNeverOvershoots(cfg: Config, es: seq<Event>)
    requires cfg.Valid() && cfg.policy.mode.OtherMode? && Undisturbed(cfg, es)
    ensures Safe(cfg, Run(cfg, es))
    ensures |OnGroup(cfg, Run(cfg, es).pods)| <= Q.QuotaFor(cfg.policy.rule, |Selected(cfg, Run(cfg, es).pods)|)
  {
    if es == [] {
      assert Taken(cfg, EMPTY) == {} && OnGroup(cfg, EMPTY.pods) == {};
    } else {
      var front := es[..|es| - 1];
      UnsetNeverOvershoots(cfg, front);
      RunKeepsInv(cfg, front);
      SafeStep(cfg, Run(cfg, front), es[|es| - 1]);
      BoundAreTaken(cfg, Run(cfg, es));
    }
  }

  lemma BoundAreTaken(cfg: Config, s: State)
    ensures OnGroup(cfg, s.pods) <= Taken(cfg, s) && |OnGroup(cfg, s.pods)| <= |Taken(cfg, s)|
  {
    forall u | u in OnGroup(cfg, s.pods)
      ensures u in Taken(cfg, s)
    {
      assert Taking(cfg, s, u);
    }
    SubsetSize(OnGroup(cfg, s.pods), Taken(cfg, s));
  }

  // Until a pod is on the group, the run is one of the Strict mode.

  lemma StrictViews(cfg: Config, s: State, e: Event)
    ensures Enabled(AsStrict(cfg), s, e) == Enabled(cfg, s, e)
    ensures Enabled(cfg, s, e) ==> Disturbs(AsStrict(cfg), s, e) == Disturbs(cfg, s, e)
  {
  }

  lemma StrictSets(cfg: Config, pods: Pods)
    ensures Selected(AsStrict(cfg), pods) == Selected(cfg, pods)
    ensures OnGroup(AsStrict(cfg), pods) == OnGroup(cfg, pods)
    ensures AllBound(AsStrict(cfg), pods) == AllBound(cfg, pods)
  {
  }

  /** Some undisturbed run of the Strict mode reaches this state. */
  ghost predicate LikeStrict(cfg: Config, s: State) {
    exists es :: Undisturbed(AsStrict(cfg), es) && Run(AsStrict(cfg), es) == s
  }

  lemma StrictExtension(cfg: Config, s: State, e: Event)
    requires LikeStrict(cfg, s) && QuietEvent(AsStrict(cfg), s, e)
    ensures LikeStrict(cfg, Next(AsStrict(cfg), s, e))
  {
    var es :| Undisturbed(AsStrict(cfg), es) && Run(AsStrict(cfg), es) == s;
    Completion.Extend(AsStrict(cfg), es, e);
    assert Undisturbed(AsStrict(cfg), es + [e]);
  }

  /** A cycle stores what is intended, and permits the same nodes, or none. */
  lemma IntendedOrNone(cfg: Config, s: State, e: Event)
    requires cfg.Valid() && cfg.policy.mode.OtherMode? && Inv(s) && QuietEvent(cfg, s, e) && e.Cycle?
    requires OnGroup(cfg, s.pods) == {} || |cfg.Side(false)| <= 1
    ensures var result := HookCycle(cfg, e.first, e.second, s.pods[e.uid]);
            var intended := IntendedCycle(cfg, e.first, s.pods[e.uid]);
            result.stored == intended.stored && (result.permitted == intended.permitted || result.permitted == {})
  {
    var prefers := Preferred(cfg, e.first.cache, s.pods[e.uid]);
    UnsetMode.UnsetModeCycle(cfg, e.first, e.second, s.pods[e.uid]);
    if 2 <= |cfg.Side(prefers)| {
      SameDecision(cfg, s, e);
    }
  }

  lemma SameOrFailure(s: State, uid: string, result: CycleResult, strict: CycleResult)
    requires result.stored == strict.stored && (result.permitted == strict.permitted || result.permitted == {})
    ensures var s', t := AfterCycle(s, uid, result), AfterCycle(s, uid, strict);
            s' == t || (uid in t.pending && s' == State(t.pods, t.pending - {uid}))
  {
    QuotaTheorems.PendingThenRemove(s.pending, uid, strict.permitted);
  }

  /** A cycle is a Strict one, or a Strict one whose binding fails. */
  lemma StrictCycleOrFailure(cfg: Config, s: State, e: Event)
    requires cfg.Valid() && cfg.policy.mode.OtherMode? && Inv(s) && QuietEvent(cfg, s, e) && e.Cycle?
    requires OnGroup(cfg, s.pods) == {} || |cfg.Side(false)| <= 1
    requires Enabled(AsStrict(cfg), s, e)
    ensures var t := Next(AsStrict(cfg), s, e);
            Next(cfg, s, e) == t || (e.uid in t.pending && Next(cfg, s, e) == State(t.pods, t.pending - {e.uid}))
  {
    var pod := s.pods[e.uid];
    IntendedOrNone(cfg, s, e);
    StrictCycle(AsStrict(cfg), e.first, e.second, pod);
    SameIntention(cfg, e.first, pod);
    SameOrFailure(s, e.uid, HookCycle(cfg, e.first, e.second, pod), HookCycle(AsStrict(cfg), e.first, e.second, pod));
  }

  lemma LikeStrictAfterFailure(cfg: Config, t: State, uid: string)
    requires LikeStrict(cfg, t) && uid in t.pending
    ensures LikeStrict(cfg, State(t.pods, t.pending - {uid}))
  {
    StrictExtension(cfg, t, FailBind(uid));
  }

  lemma LikeStrictStep(cfg: Config, s: State, e: Event)
    requires cfg.Valid() && cfg.policy.mode.OtherMode? && Inv(s) && QuietEvent(cfg, s, e) && LikeStrict(cfg, s)
    requires OnGroup(cfg, s.pods) == {} || |cfg.Side(false)| <= 1
    ensures LikeStrict(cfg, Next(cfg, s, e))
  {
    StrictViews(cfg, s, e);
    StrictExtension(cfg, s, e);
    if e.Cycle? {
      StrictCycleOrFailure(cfg, s, e);
      if e.uid in Next(AsStrict(cfg), s, e).pending {
        LikeStrictAfterFailure(cfg, Next(AsStrict(cfg), s, e), e.uid);
      }
    }
  }

  /** Pods that are on the group stay there. */
  lemma OccupiedStep(cfg: Config, s: State, e: Event)
    requires cfg.Valid() && Inv(s) && QuietEvent(cfg, s, e)
    ensures OnGroup(cfg, s.pods) <= OnGroup(cfg, Next(cfg, s, e).pods)
  {
    if e.Cycle? {
      var after := QuotaTheorems.CycleNext(cfg, s, e);
      UnboundWrite(cfg, s.pods, s.pods[e.uid], after);
    } else {
      OccupiedByOthers(cfg, s, e);
    }
  }

  lemma UnboundWrite(cfg: Config, pods: Pods, before: Pod, after: Pod)
    requires after.uid in pods && pods[after.uid] == before && !before.Bound() && !after.Bound()
    ensures OnGroup(cfg, pods[after.uid := after]) == OnGroup(cfg, pods)
  {
    WriteMoves(cfg, pods, after, GroupedTest);
  }

  lemma OccupiedByOthers(cfg: Config, s: State, e: Event)
    requires Inv(s) && QuietEvent(cfg, s, e) && !e.Cycle?
    ensures OnGroup(cfg, s.pods) <= OnGroup(cfg, Next(cfg, s, e).pods)
  {
    match e
    case Create(pod) => WriteMoves(cfg, s.pods, pod, GroupedTest);
    case Bind(uid, node) => WriteMoves(cfg, s.pods, s.pods[uid].(nodeName := node), GroupedTest);
    case FailBind(uid) =>
    case Delete(uid) =>
    case Interfere(pod) => WriteMoves(cfg, s.pods, pod, GroupedTest);
  }

  lemma {:induction false} StrictUntilOccupied(cfg: Config, es: seq<Event>)
    requires cfg.Valid() && cfg.policy.mode.OtherMode? && Undisturbed(cfg, es)
    ensures LikeStrict(cfg, Run(cfg, es)) || (OnGroup(cfg, Run(cfg, es).pods) != {} && 2 <= |cfg.Side(false)|)
  {
    if es == [] {
      assert Undisturbed(AsStrict(cfg), []) && Run(AsStrict(cfg), []) == EMPTY;
    } else {
      var front, e := es[..|es| - 1], es[|es| - 1];
      StrictUntilOccupied(cfg, front);
      RunKeepsInv(cfg, front);
      var s := Run(cfg, front);
      if LikeStrict(cfg, s) && (OnGroup(cfg, s.pods) == {} || |cfg.Side(false)| <= 1) {
        LikeStrictStep(cfg, s, e);
      } else {
        OccupiedStep(cfg, s, e);
      }
    }
  }

  lemma LikeStrictIsExact(cfg: Config, s: State)
    requires cfg.Valid() && LikeStrict(cfg, s) && AllBound(cfg, s.pods)
    ensures |OnGroup(cfg, s.pods)| == Q.QuotaFor(cfg.policy.rule, |Selected(cfg, s.pods)|)
  {
    var es :| Undisturbed(AsStrict(cfg), es) && Run(AsStrict(cfg), es) == s;
    StrictSides(cfg);
    StrictSets(cfg, s.pods);
    ExactQuota(AsStrict(cfg), es);
  }

  // A quota of all pods.

  predicate KeptOff(cfg: Config, s: State, u: string) {
    && u in s.pods && Passes(cfg, SelectedTest, s.pods[u])
    && if s.pods[u].Bound() then s.pods[u].nodeName !in cfg.Group()
       else u in s.pending && exists n :: n in s.pending[u] && n !in cfg.Group()
  }

  ghost predicate NoneKeptOff(cfg: Config, s: State) {
    forall u | u in s.pods :: !KeptOff(cfg, s, u)
  }

  lemma PrefersAll(cfg: Config, s: State, e: Event)
    requires cfg.Valid() && Inv(s) && QuietEvent(cfg, s, e) && e.Cycle? && e.uid in Selected(cfg, s.pods)
    requires Q.QuotaFor(cfg.policy.rule, |Selected(cfg, s.pods)|) == |Selected(cfg, s.pods)|
    ensures Preferred(cfg, e.first.cache, s.pods[e.uid])
  {
    QuotaTheorems.FreshDecision(cfg, s, e.uid, e.first.cache);
    QuotaTheorems.RestOfTally(cfg, s.pods, e.uid);
  }

  lemma NoneKeptOffStep(cfg: Config, s: State, e: Event)
    requires cfg.Valid() && cfg.policy.mode.OtherMode? && Inv(s) && QuietEvent(cfg, s, e) && NoneKeptOff(cfg, s)
    requires Q.QuotaFor(cfg.policy.rule, |Selected(cfg, s.pods)|) == |Selected(cfg, s.pods)|
    ensures NoneKeptOff(cfg, Next(cfg, s, e))
  {
    var s' := Next(cfg, s, e);
    if e.Cycle? {
      CycleKeepsNoneOff(cfg, s, e);
    } else {
      forall u | u in s'.pods
        ensures !KeptOff(cfg, s', u)
      {
        assert u in s.pods ==> !KeptOff(cfg, s, u);
      }
    }
  }

  lemma CycleKeepsNoneOff(cfg: Config, s: State, e: Event)
    requires cfg.Valid() && cfg.policy.mode.OtherMode? && Inv(s) && QuietEvent(cfg, s, e) && NoneKeptOff(cfg, s)
    requires e.Cycle? && Q.QuotaFor(cfg.policy.rule, |Selected(cfg, s.pods)|) == |Selected(cfg, s.pods)|
    ensures NoneKeptOff(cfg, Next(cfg, s, e))
  {
    var after, permitted := UnsetNext(cfg, s, e);
    var s' := Next(cfg, s, e);
    QuotaTheorems.PendingThenRemove(s.pending, e.uid, permitted);
    WriteThenRemove(s.pods, e.uid, after);
    if e.uid in Selected(cfg, s.pods) {
      PrefersAll(cfg, s, e);
    }
    forall u | u in s'.pods
      ensures !KeptOff(cfg, s', u)
    {
      if u != e.uid {
        QuotaTheorems.SameAt(s, s', e.uid, u);
        assert !KeptOff(cfg, s, u);
      }
    }
  }

  /** As long as the quota is all pods, none is kept off the group. */
  lemma {:induction false} TakesAllRun(cfg: Config, es: seq<Event>)
    requires cfg.Valid() && cfg.policy.mode.OtherMode? && Undisturbed(cfg, es)
    requires var n := |Selected(cfg, Run(cfg, es).pods)|; Q.QuotaFor(cfg.policy.rule, n) == n
    ensures NoneKeptOff(cfg, Run(cfg, es))
  {
    if es != [] {
      var front, e := es[..|es| - 1], es[|es| - 1];
      RunKeepsInv(cfg, front);
      SelectedStep(cfg, Run(cfg, front), e);
      Q.QuotaMonotone(cfg.policy.rule, |Selected(cfg, Run(cfg, front).pods)|, |Selected(cfg, Run(cfg, es).pods)|);
      TakesAllRun(cfg, front);
      NoneKeptOffStep(cfg, Run(cfg, front), e);
    }
  }

  lemma AllTaken(cfg: Config, s: State)
    requires NoneKeptOff(cfg, s) && AllBound(cfg, s.pods)
    ensures OnGroup(cfg, s.pods) == Selected(cfg, s.pods)
  {
    forall u | u in Selected(cfg, s.pods)
      ensures u in OnGroup(cfg, s.pods)
    {
      assert !KeptOff(cfg, s, u);
    }
  }

  /** Once all pods of an undisturbed run are bound: at most the quota is on the group; at least one pod is, unless the
      quota is none; and it is exactly the quota if that is at most one pod or all pods, or if at most one node is off
      the group. */
  lemma UnsetRunBounds(cfg: Config, es: seq<Event>)
    requires cfg.Valid() && cfg.policy.mode.OtherMode? && Undisturbed(cfg, es) && AllBound(cfg, Run(cfg, es).pods)
    ensures var pods := Run(cfg, es).pods;
            var n, on := |Selected(cfg, pods)|, |OnGroup(cfg, pods)|;
            var q := Q.QuotaFor(cfg.policy.rule, n);
            && on <= q && (0 < q ==> 0 < on)
            && (q <= 1 || q == n || |cfg.Side(false)| <= 1 ==> on == q)
  {
    var s := Run(cfg, es);
    UnsetNeverOvershoots(cfg, es);
    StrictUntilOccupied(cfg, es);
    if LikeStrict(cfg, s) {
      LikeStrictIsExact(cfg, s);
    }
    if Q.QuotaFor(cfg.policy.rule, |Selected(cfg, s.pods)|) == |Selected(cfg, s.pods)| {
      TakesAllRun(cfg, es);
      AllTaken(cfg, s);
    }
  }
}
