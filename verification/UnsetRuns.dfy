/** Runs under an unset enforcement mode that miss the quota: how few pods can end up on the node group, and for which
    rules, numbers of pods and clusters the quota is still met. */
module UnsetRuns {
  import opened Prelude
  import opened Objects
  import Grouping
  import PolicyChoice
  import opened Cycles
  import opened Tallies
  import opened Scheduler
  import QuotaTheorems
  import opened RunTheorems
  import UnsetMode
  import opened Completion
  import Sharpness
  import opened UnsetBounds
  import Q = Quota

  /** Does some number of pods have a quota of at least two that leaves a pod out? */
  predicate Sensitive(rule: Q.Rule) {
    match rule.size
    case Count(n) => if rule.action.MustNot? then 1 <= n else 2 <= n
    case Percent(p) => 0 < p < 100
    case Malformed => false
  }

  function Crowd(rule: Q.Rule): nat
    requires Sensitive(rule)
  {
    if rule.size.Percent? then 200 else if rule.action.MustNot? then rule.size.n + 2 else rule.size.n + 1
  }

  lemma CrowdQuota(rule: Q.Rule)
    requires Sensitive(rule)
    ensures 2 <= Q.QuotaFor(rule, Crowd(rule)) < Crowd(rule)
  {
  }

  lemma InsensitiveQuota(rule: Q.Rule, n: nat)
    requires rule.Valid() && !Sensitive(rule)
    ensures Q.QuotaFor(rule, n) <= 1 || Q.QuotaFor(rule, n) == n
  {
    if rule.size.Percent? {
      Q.PercentOutside(rule.size.p, n);
    }
  }

  lemma {:induction false} SensitiveIff(rule: Q.Rule)
    requires rule.Valid()
    ensures Sensitive(rule) <==> exists n: nat :: 2 <= Q.QuotaFor(rule, n) < n
  {
    if Sensitive(rule) {
      CrowdQuota(rule);
    } else {
      forall n: nat
        ensures !(2 <= Q.QuotaFor(rule, n) < n)
      {
        InsensitiveQuota(rule, n);
      }
    }
  }

  /** If the run is undisturbed and all its pods are bound, exactly the quota is on the group. */
  ghost predicate MeetsQuota(cfg: Config, es: seq<Event>)
    requires cfg.policy.rule.Valid()
  {
    var pods := Run(cfg, es).pods;
    Undisturbed(cfg, es) && AllBound(cfg, pods) ==>
      |OnGroup(cfg, pods)| == Q.QuotaFor(cfg.policy.rule, |Selected(cfg, pods)|)
  }

  // A run that leaves but one pod on the group.

  /** All pods are bound or undecided, except the held ones, which are cycled but not yet bound and are promised to the
      group. */
  ghost predicate Shaped(cfg: Config, pods: Pods, held: set<string>) {
    && Every(cfg, pods, GovernedTest)
    && (forall u | u in held :: u in pods && !pods[u].Bound() && pods[u].Preference() == Some(true))
    && (forall u | u in pods && u !in held :: pods[u].Bound() || !IsDecided(pods[u]))
  }

  /** A run that has got to such a stage, with these counts. */
  ghost predicate Stage(cfg: Config, es: seq<Event>, held: set<string>, t: Tally) {
    Undisturbed(cfg, es) && Shaped(cfg, Run(cfg, es).pods, held) && Final(cfg, es) == t
  }

  lemma BoundWrite(cfg: Config, pods: Pods, held: set<string>, after: Pod)
    requires Shaped(cfg, pods, held) && Rewrites(pods, after) && after.Bound()
    ensures Shaped(cfg, pods[after.uid := after], held - {after.uid})
  {
    assert Passes(cfg, GovernedTest, pods[after.uid]);
  }

  lemma HeldWrite(cfg: Config, pods: Pods, held: set<string>, after: Pod)
    requires Shaped(cfg, pods, held) && Rewrites(pods, after) && !after.Bound() && after.Preference() == Some(true)
    ensures Shaped(cfg, pods[after.uid := after], held + {after.uid})
  {
    assert Passes(cfg, GovernedTest, pods[after.uid]);
  }

  lemma WriteTally(cfg: Config, pods: Pods, after: Pod)
    requires Rewrites(pods, after) && Passes(cfg, SelectedTest, after) && IsDecided(after)
    ensures var t, t', p := TallyOf(cfg, pods), TallyOf(cfg, pods[after.uid := after]), pods[after.uid];
            && t'.selected == t.selected
            && t'.decided == t.decided + Bit(!IsDecided(p))
            && t'.counted == t.counted - Bit(Grouping.Placed(p, cfg.Group())) + Bit(Grouping.Placed(after, cfg.Group()))
            && TallyOf(cfg, pods - {after.uid}).counted == t.counted - Bit(Grouping.Placed(p, cfg.Group()))
  {
    TallyAround(cfg, pods, after.uid);
    QuotaTheorems.WriteShares(cfg, pods, after);
  }

  lemma UndecidedFacts(cfg: Config, pods: Pods, held: set<string>, u: string)
    requires Shaped(cfg, pods, held) && u in pods && !IsDecided(pods[u])
    ensures u !in held && u in Waiting(cfg, pods)
    ensures PolicyChoice.Governs(cfg.policy, pods[u]) && !Grouping.Placed(pods[u], cfg.Group())
  {
    assert Passes(cfg, GovernedTest, pods[u]);
  }

  lemma SettledPods(cfg: Config, pods: Pods, held: set<string>, t: Tally, bound: Pod, q: nat)
    requires Shaped(cfg, pods, held) && TallyOf(cfg, pods) == t && Rewrites(pods, bound) && bound.Bound()
    requires !IsDecided(pods[bound.uid])
    requires bound.nodeName in cfg.Group() <==> TallyOf(cfg, pods - {bound.uid}).counted < q
    ensures Shaped(cfg, pods[bound.uid := bound], held)
    ensures TallyOf(cfg, pods[bound.uid := bound]) == Tally(t.selected, t.decided + 1, t.counted + Bit(t.counted < q))
  {
    UndecidedFacts(cfg, pods, held, bound.uid);
    BoundWrite(cfg, pods, held, bound);
    WriteTally(cfg, pods, bound);
    assert held - {bound.uid} == held;
  }

  /** Cycle and bind an undecided pod: it takes a place of the quota if one is left. */
  lemma SettleOne(cfg: Config, es: seq<Event>, held: set<string>, t: Tally, u: string, q: nat)
    returns (longer: seq<Event>)
    requires cfg.Valid() && cfg.BothGroups() && Stage(cfg, es, held, t)
    requires q == Q.QuotaFor(cfg.policy.rule, t.selected)
    requires u in Run(cfg, es).pods && !IsDecided(Run(cfg, es).pods[u])
    ensures Stage(cfg, longer, held, Tally(t.selected, t.decided + 1, t.counted + Bit(t.counted < q)))
    ensures Run(cfg, longer).pods - {u} == Run(cfg, es).pods - {u}
  {
    var pods, bound := Run(cfg, es).pods, Sharpness.NewPod(cfg, 0);
    UndecidedFacts(cfg, pods, held, u);
    longer, bound := BindOne(cfg, es, u);
    SettledPods(cfg, pods, held, t, bound, q);
    WriteThenRemove(pods, u, bound);
  }

  lemma UndecidedBut(cfg: Config, pods: Pods, c: string) returns (u: string)
    requires TallyOf(cfg, pods).decided + 1 < TallyOf(cfg, pods).selected
    ensures u in pods && !IsDecided(pods[u]) && u != c
  {
    var decided, all := Decided(cfg, pods), Selected(cfg, pods);
    if all <= decided + {c} {
      QuotaTheorems.CoveredSize(all, decided, {c});
      assert false;
    }
    u :| u in all && u !in decided + {c};
  }

  /** Is `c` still to be decided at the end of the run? */
  ghost predicate Undecided(cfg: Config, es: seq<Event>, c: string) {
    c in Run(cfg, es).pods && !IsDecided(Run(cfg, es).pods[c])
  }

  /** Settle an undecided pod other than `c`. */
  lemma SettleNext(cfg: Config, es: seq<Event>, held: set<string>, t: Tally, c: string, q: nat)
    returns (longer: seq<Event>)
    requires cfg.Valid() && cfg.BothGroups() && Stage(cfg, es, held, t) && Undecided(cfg, es, c)
    requires q == Q.QuotaFor(cfg.policy.rule, t.selected) && t.decided + 1 < t.selected
    ensures Stage(cfg, longer, held, Tally(t.selected, t.decided + 1, t.counted + Bit(t.counted < q)))
    ensures Undecided(cfg, longer, c)
  {
    var u := UndecidedBut(cfg, Run(cfg, es).pods, c);
    longer := SettleOne(cfg, es, held, t, u, q);
    StillThere(Run(cfg, es).pods, Run(cfg, longer).pods, u, c);
  }

  /** With the quota filled, settle pods off the group until `d` are decided. */
  lemma {:induction false} SettleMany(cfg: Config, es: seq<Event>, held: set<string>, t: Tally, c: string, d: nat)
    returns (longer: seq<Event>)
    requires cfg.Valid() && cfg.BothGroups() && Stage(cfg, es, held, t) && Undecided(cfg, es, c)
    requires Q.QuotaFor(cfg.policy.rule, t.selected) <= t.counted && t.decided <= d < t.selected
    ensures Stage(cfg, longer, held, Tally(t.selected, d, t.counted))
    ensures Undecided(cfg, longer, c)
    decreases d - t.decided
  {
    if t.decided == d {
      longer := es;
    } else {
      longer := SettleNext(cfg, es, held, t, c, Q.QuotaFor(cfg.policy.rule, t.selected));
      longer := SettleMany(cfg, longer, held, Tally(t.selected, t.decided + 1, t.counted), c, d);
    }
  }

  lemma StillThere(pods: Pods, pods': Pods, u: string, c: string)
    requires pods' - {u} == pods - {u} && u != c && c in pods
    ensures c in pods' && pods'[c] == pods[c]
  {
    assert c in pods - {u} && c in pods' - {u};
  }

  lemma TargetReachesQuota(rule: Q.Rule, n: nat)
    requires rule.Valid() && 0 < Q.QuotaFor(rule, n)
    ensures Q.QuotaFor(rule, n) <= Q.Target(rule, n).value
  {
  }

  lemma PromisesAreHeld(cfg: Config, pods: Pods, held: set<string>, u: string)
    requires Shaped(cfg, pods, held)
    ensures PlacedIn(cfg, pods, {}) <= held && |PlacedIn(cfg, pods, {}) - {u}| <= |held - {u}|
  {
    SubsetSize(PlacedIn(cfg, pods, {}) - {u}, held - {u});
  }

  /** As long as fewer other pods are held than the quota, their promises leave room in it. */
  lemma PromisesFit(cfg: Config, s: State, held: set<string>, u: string, cache: seq<Pod>)
    requires cfg.Valid() && u in s.pods && s.pods[u].uid == u && Fresh(cache, s.pods, u) && Shaped(cfg, s.pods, held)
    requires |held - {u}| < Q.QuotaFor(cfg.policy.rule, |Selected(cfg, s.pods)|)
    ensures UnsetMode.PromisesLeaveRoom(cfg, cache, s.pods[u])
  {
    TargetReachesQuota(cfg.policy.rule, |Selected(cfg, s.pods)|);
    PromisesAreHeld(cfg, s.pods, held, u);
    FreshDecisions(cfg, s, u, cache);
  }

  /** The cycle of a pod then: the annotation that stays promises the group, whichever side Filter leaves. */
  lemma HoldCycle(cfg: Config, s: State, held: set<string>, u: string, cache: seq<Pod>, q: nat) returns (after: Pod)
    requires cfg.Valid() && cfg.policy.mode.OtherMode? && cfg.BothGroups() && 2 <= |cfg.Side(false)|
    requires Inv(s) && Exact(cache, s.pods) && Shaped(cfg, s.pods, held) && u in s.pods && !s.pods[u].Bound()
    requires q == Q.QuotaFor(cfg.policy.rule, |Selected(cfg, s.pods)|) && |held - {u}| < q
    ensures Enabled(cfg, s, Accepted(u, cache)) && ReadsFresh(s, Accepted(u, cache))
    ensures Next(cfg, s, Accepted(u, cache)) ==
              State(s.pods[u := after], s.pending[u := cfg.Side(TallyOf(cfg, s.pods - {u}).counted < q)])
    ensures after.uid == u && Rewrites(s.pods, after) && !after.Bound() && after.Preference() == Some(true)
  {
    assert Passes(cfg, GovernedTest, s.pods[u]);
    var b := CycleStep(cfg, s, u, cache);
    QuotaTheorems.FreshDecision(cfg, s, u, cache);
    PromisesFit(cfg, s, held, u, cache);
    AnnotationRoundTrip(s.pods[u], cfg.policy, true, true);
    after := Annotated(s.pods[u], cfg.policy, b);
  }

  /** Cycle a pod and do not bind it yet. */
  lemma HoldOne(cfg: Config, es: seq<Event>, held: set<string>, t: Tally, t': Tally, u: string, q: nat)
    returns (longer: seq<Event>)
    requires cfg.Valid() && cfg.policy.mode.OtherMode? && cfg.BothGroups() && 2 <= |cfg.Side(false)|
    requires Stage(cfg, es, held, t) && q == Q.QuotaFor(cfg.policy.rule, t.selected)
    requires u in Run(cfg, es).pods && !Run(cfg, es).pods[u].Bound() && |held - {u}| < q
    requires t' == Tally(t.selected, t.decided + Bit(u !in held), t.counted + Bit(u !in held))
    ensures Stage(cfg, longer, held + {u}, t')
    ensures Run(cfg, longer).pods - {u} == Run(cfg, es).pods - {u}
    ensures Run(cfg, longer).pending == Run(cfg, es).pending[u := cfg.Side(t'.counted <= q)]
  {
    var s := Run(cfg, es);
    RunKeepsInv(cfg, es);
    var cache := Enumerate(s.pods);
    var after := HoldCycle(cfg, s, held, u, cache, q);
    HeldWrite(cfg, s.pods, held, after);
    HeldTally(cfg, s.pods, held, t, after);
    WriteThenRemove(s.pods, u, after);
    longer := HoldExtend(cfg, es, Accepted(u, cache));
  }

  lemma HoldExtend(cfg: Config, es: seq<Event>, e: Event) returns (longer: seq<Event>)
    requires Undisturbed(cfg, es) && e.Cycle? && Enabled(cfg, Run(cfg, es), e) && ReadsFresh(Run(cfg, es), e)
    ensures Undisturbed(cfg, longer) && Run(cfg, longer) == Next(cfg, Run(cfg, es), e)
  {
    Extend(cfg, es, e);
    longer := es + [e];
  }

  lemma HeldFacts(cfg: Config, pods: Pods, held: set<string>, u: string)
    requires Shaped(cfg, pods, held) && u in pods && !pods[u].Bound()
    ensures Passes(cfg, SelectedTest, pods[u])
    ensures u in held <==> IsDecided(pods[u])
    ensures u in held <==> Grouping.Placed(pods[u], cfg.Group())
  {
    assert Passes(cfg, GovernedTest, pods[u]);
  }

  lemma HeldTally(cfg: Config, pods: Pods, held: set<string>, t: Tally, after: Pod)
    requires Shaped(cfg, pods, held) && TallyOf(cfg, pods) == t && Rewrites(pods, after)
    requires !pods[after.uid].Bound() && !after.Bound() && after.Preference() == Some(true)
    ensures var first := Bit(after.uid !in held);
            && TallyOf(cfg, pods[after.uid := after]) == Tally(t.selected, t.decided + first, t.counted + first)
            && TallyOf(cfg, pods - {after.uid}).counted == t.counted + first - 1
  {
    HeldFacts(cfg, pods, held, after.uid);
    WriteTally(cfg, pods, after);
  }

  lemma WithOneMore(held: set<string>, u: string)
    requires u !in held
    ensures held - {u} == held && |held + {u}| == |held| + 1
  {
  }

  /** Hold an undecided pod other than the held ones. */
  lemma HoldNew(cfg: Config, es: seq<Event>, held: set<string>, t: Tally, u: string, h: nat, q: nat)
    returns (longer: seq<Event>)
    requires cfg.Valid() && cfg.policy.mode.OtherMode? && cfg.BothGroups() && 2 <= |cfg.Side(false)|
    requires Stage(cfg, es, held, t) && u in Run(cfg, es).pods && !IsDecided(Run(cfg, es).pods[u])
    requires q == Q.QuotaFor(cfg.policy.rule, t.selected) && |held| == h < q
    ensures Stage(cfg, longer, held + {u}, Tally(t.selected, t.decided + 1, t.counted + 1)) && |held + {u}| == h + 1
    ensures Run(cfg, longer).pods - {u} == Run(cfg, es).pods - {u}
  {
    UndecidedFacts(cfg, Run(cfg, es).pods, held, u);
    WithOneMore(held, u);
    longer := HoldOne(cfg, es, held, t, Tally(t.selected, t.decided + 1, t.counted + 1), u, q);
  }

  /** Of `n` pods one is bound, on the group, `h` are held, and `c` is undecided. */
  ghost predicate Holding(cfg: Config, es: seq<Event>, held: set<string>, c: string, n: nat, h: nat) {
    Stage(cfg, es, held, Tally(n, h + 1, h + 1)) && Undecided(cfg, es, c) && |held| == h
  }

  /** Hold an undecided pod other than `c`. */
  lemma HoldNext(cfg: Config, es: seq<Event>, held: set<string>, c: string, n: nat, h: nat)
    returns (longer: seq<Event>, held': set<string>)
    requires cfg.Valid() && cfg.policy.mode.OtherMode? && cfg.BothGroups() && 2 <= |cfg.Side(false)|
    requires Holding(cfg, es, held, c, n, h) && h < Q.QuotaFor(cfg.policy.rule, n) && h + 2 < n
    ensures Holding(cfg, longer, held', c, n, h + 1)
  {
    var u := UndecidedBut(cfg, Run(cfg, es).pods, c);
    longer := HoldNew(cfg, es, held, Tally(n, h + 1, h + 1), u, h, Q.QuotaFor(cfg.policy.rule, n));
    held' := held + {u};
    StillThere(Run(cfg, es).pods, Run(cfg, longer).pods, u, c);
  }

  /** Hold pods until `h'` are held. */
  lemma {:induction false} HoldMany(cfg: Config, es: seq<Event>, held: set<string>, c: string, n: nat, h: nat, h': nat)
    returns (longer: seq<Event>, held': set<string>)
    requires cfg.Valid() && cfg.policy.mode.OtherMode? && cfg.BothGroups() && 2 <= |cfg.Side(false)|
    requires Holding(cfg, es, held, c, n, h) && h <= h' <= Q.QuotaFor(cfg.policy.rule, n) && h' + 1 < n
    ensures Holding(cfg, longer, held', c, n, h')
    decreases h' - h
  {
    if h == h' {
      longer, held' := es, held;
    } else {
      longer, held' := HoldNext(cfg, es, held, c, n, h);
      longer, held' := HoldMany(cfg, longer, held', c, n, h + 1, h');
    }
  }

  /** The held pods, but for those with a binding under way to nodes off the group. */
  function Unsent(cfg: Config, pending: map<string, set<string>>, held: set<string>): set<string> {
    set u | u in held && !(u in pending && pending[u] == cfg.Side(false))
  }

  lemma SentOneMore(cfg: Config, pending: map<string, set<string>>, held: set<string>, u: string)
    requires u in Unsent(cfg, pending, held)
    ensures Unsent(cfg, pending[u := cfg.Side(false)], held) < Unsent(cfg, pending, held)
  {
    assert u !in Unsent(cfg, pending[u := cfg.Side(false)], held);
  }

  lemma WithoutOne(held: set<string>, u: string)
    requires u in held
    ensures held + {u} == held && |held - {u}| == |held| - 1
  {
    SizeAround(held, u);
  }

  lemma HoldAgain(cfg: Config, es: seq<Event>, held: set<string>, t: Tally, u: string, q: nat)
    returns (longer: seq<Event>)
    requires cfg.Valid() && cfg.policy.mode.OtherMode? && cfg.BothGroups() && 2 <= |cfg.Side(false)|
    requires Stage(cfg, es, held, t) && u in held
    requires q == |held| == Q.QuotaFor(cfg.policy.rule, t.selected) && q < t.counted
    ensures Stage(cfg, longer, held, t) && Run(cfg, longer).pending == Run(cfg, es).pending[u := cfg.Side(false)]
  {
    WithoutOne(held, u);
    longer := HoldOne(cfg, es, held, t, t, u, q);
  }

  lemma SendOne(cfg: Config, es: seq<Event>, held: set<string>, t: Tally, u: string, q: nat)
    returns (longer: seq<Event>)
    requires cfg.Valid() && cfg.policy.mode.OtherMode? && cfg.BothGroups() && 2 <= |cfg.Side(false)|
    requires Stage(cfg, es, held, t) && u in Unsent(cfg, Run(cfg, es).pending, held)
    requires q == |held| == Q.QuotaFor(cfg.policy.rule, t.selected) && q < t.counted
    ensures Stage(cfg, longer, held, t)
    ensures Unsent(cfg, Run(cfg, longer).pending, held) < Unsent(cfg, Run(cfg, es).pending, held)
  {
    longer := HoldAgain(cfg, es, held, t, u, q);
    SentOneMore(cfg, Run(cfg, es).pending, held, u);
  }

  /** Cycle the held pods again while more pods are counted than the quota: Filter keeps all of them off. */
  lemma {:induction false} SendOff(cfg: Config, es: seq<Event>, held: set<string>, t: Tally, q: nat)
    returns (longer: seq<Event>)
    requires cfg.Valid() && cfg.policy.mode.OtherMode? && cfg.BothGroups() && 2 <= |cfg.Side(false)|
    requires Stage(cfg, es, held, t)
    requires q == |held| == Q.QuotaFor(cfg.policy.rule, t.selected) && q < t.counted
    ensures Stage(cfg, longer, held, t) && Unsent(cfg, Run(cfg, longer).pending, held) == {}
    decreases Unsent(cfg, Run(cfg, es).pending, held)
  {
    if Unsent(cfg, Run(cfg, es).pending, held) == {} {
      longer := es;
    } else {
      var u :| u in Unsent(cfg, Run(cfg, es).pending, held);
      longer := SendOne(cfg, es, held, t, u, q);
      longer := SendOff(cfg, longer, held, t, q);
    }
  }

  /** Bind a held pod that may only go off the group. */
  lemma BindOff(cfg: Config, es: seq<Event>, held: set<string>, t: Tally, u: string) returns (longer: seq<Event>)
    requires cfg.Valid() && cfg.BothGroups() && Stage(cfg, es, held, t) && u in held
    requires Unsent(cfg, Run(cfg, es).pending, held) == {} && 0 < t.counted
    ensures Stage(cfg, longer, held - {u}, Tally(t.selected, t.decided, t.counted - 1))
    ensures Unsent(cfg, Run(cfg, longer).pending, held - {u}) == {}
  {
    var s := Run(cfg, es);
    RunKeepsInv(cfg, es);
    var node := SidesInhabited(cfg, false);
    assert u !in Unsent(cfg, s.pending, held);
    BoundOff(cfg, s.pods, held, t, s.pods[u].(nodeName := node));
    Extend(cfg, es, Bind(u, node));
    longer := es + [Bind(u, node)];
    StillSent(cfg, s.pending, held, u);
  }

  lemma StillSent(cfg: Config, pending: map<string, set<string>>, held: set<string>, u: string)
    requires Unsent(cfg, pending, held) == {}
    ensures Unsent(cfg, pending - {u}, held - {u}) == {}
  {
    forall w | w in held - {u}
      ensures w in pending && pending[w] == cfg.Side(false)
    {
      assert w !in Unsent(cfg, pending, held);
    }
  }

  lemma BoundOff(cfg: Config, pods: Pods, held: set<string>, t: Tally, after: Pod)
    requires Shaped(cfg, pods, held) && TallyOf(cfg, pods) == t && Rewrites(pods, after) && after.uid in held
    requires after.Bound() && after.nodeName !in cfg.Group() && 0 < t.counted
    ensures Shaped(cfg, pods[after.uid := after], held - {after.uid})
    ensures TallyOf(cfg, pods[after.uid := after]) == Tally(t.selected, t.decided, t.counted - 1)
  {
    HeldFacts(cfg, pods, held, after.uid);
    BoundWrite(cfg, pods, held, after);
    WriteTally(cfg, pods, after);
  }

  lemma {:induction false} BindAllOff(cfg: Config, es: seq<Event>, held: set<string>, t: Tally)
    returns (longer: seq<Event>)
    requires cfg.Valid() && cfg.BothGroups() && Stage(cfg, es, held, t)
    requires Unsent(cfg, Run(cfg, es).pending, held) == {} && |held| <= t.counted
    ensures Stage(cfg, longer, {}, Tally(t.selected, t.decided, t.counted - |held|))
    decreases held
  {
    if held == {} {
      longer := es;
    } else {
      var u :| u in held;
      WithoutOne(held, u);
      longer := BindOff(cfg, es, held, t, u);
      longer := BindAllOff(cfg, longer, held - {u}, Tally(t.selected, t.decided, t.counted - 1));
    }
  }

  lemma NewPodsShaped(cfg: Config, pods: Pods, n: nat)
    requires Sharpness.NewPods(cfg, pods, n)
    ensures Shaped(cfg, pods, {})
  {
    forall u | u in pods
      ensures Passes(cfg, GovernedTest, pods[u]) && !IsDecided(pods[u])
    {
      assert Passes(cfg, NewTest, pods[u]);
    }
  }

  lemma FirstStage(cfg: Config, n: nat) returns (es: seq<Event>)
    ensures Stage(cfg, es, {}, Tally(n, 0, 0))
  {
    es := Sharpness.CreateMany(cfg, n);
    NewPodsShaped(cfg, Run(cfg, es).pods, n);
    Sharpness.NewPodsTally(cfg, Run(cfg, es).pods, n);
  }

  /** Bind one pod on the group. */
  lemma FirstOnGroup(cfg: Config, n: nat, q: nat) returns (es: seq<Event>, c: string)
    requires cfg.Valid() && cfg.BothGroups() && 2 <= q == Q.QuotaFor(cfg.policy.rule, n) < n
    ensures Holding(cfg, es, {}, c, n, 0)
  {
    es := FirstStage(cfg, n);
    c := UndecidedBut(cfg, Run(cfg, es).pods, "");
    es := SettleNext(cfg, es, {}, Tally(n, 0, 0), c, q);
  }

  /** Then hold as many more as the quota has room for. */
  lemma UpToTheQuota(cfg: Config, n: nat, q: nat) returns (es: seq<Event>, held: set<string>, c: string)
    requires cfg.Valid() && cfg.policy.mode.OtherMode? && cfg.BothGroups() && 2 <= |cfg.Side(false)|
    requires 2 <= q == Q.QuotaFor(cfg.policy.rule, n) < n
    ensures Holding(cfg, es, held, c, n, q - 1)
  {
    es, c := FirstOnGroup(cfg, n, q);
    es, held := HoldMany(cfg, es, {}, c, n, 0, q - 1);
  }

  /** Then settle the others but one. */
  lemma UpToTheLast(cfg: Config, n: nat, q: nat) returns (es: seq<Event>, held: set<string>, c: string)
    requires cfg.Valid() && cfg.policy.mode.OtherMode? && cfg.BothGroups() && 2 <= |cfg.Side(false)|
    requires 2 <= q == Q.QuotaFor(cfg.policy.rule, n) < n
    ensures Stage(cfg, es, held, Tally(n, n - 1, q)) && |held| == q - 1
    ensures Undecided(cfg, es, c)
  {
    es, held, c := UpToTheQuota(cfg, n, q);
    es := SettleMany(cfg, es, held, Tally(n, q, q), c, n - 1);
  }

  /** Then cycle the last pod: it is kept off, but its annotation promises the group, so that one pod more than the
      quota is counted. */
  lemma OneTooMany(cfg: Config, n: nat, q: nat) returns (es: seq<Event>, held: set<string>)
    requires cfg.Valid() && cfg.policy.mode.OtherMode? && cfg.BothGroups() && 2 <= |cfg.Side(false)|
    requires 2 <= q == Q.QuotaFor(cfg.policy.rule, n) < n
    ensures Stage(cfg, es, held, Tally(n, n, q + 1)) && |held| == q
  {
    var c;
    es, held, c := UpToTheLast(cfg, n, q);
    es := HoldNew(cfg, es, held, Tally(n, n - 1, q), c, q - 1, q);
    held := held + {c};
  }

  lemma NothingHeld(cfg: Config, pods: Pods)
    requires Shaped(cfg, pods, {}) && TallyOf(cfg, pods).decided == TallyOf(cfg, pods).selected
    ensures AllBound(cfg, pods) && OnGroup(cfg, pods) == Counted(cfg, pods)
  {
    SubsetSize(Decided(cfg, pods), Selected(cfg, pods));
    assert Decided(cfg, pods) == Selected(cfg, pods);
    forall u | u in Selected(cfg, pods)
      ensures pods[u].Bound()
    {
      assert u in Decided(cfg, pods);
    }
  }

  /** The fewest pods: given two nodes off the group, some undisturbed run of any number of pods whose quota is at least
      two but not all of them ends with a single one on the group. */
  lemma UnsetFloorIsReached(cfg: Config, n: nat) returns (es: seq<Event>)
    requires cfg.Valid() && cfg.policy.mode.OtherMode? && cfg.BothGroups() && 2 <= |cfg.Side(false)|
    requires 2 <= Q.QuotaFor(cfg.policy.rule, n) < n
    ensures Undisturbed(cfg, es) && AllBound(cfg, Run(cfg, es).pods)
    ensures |Selected(cfg, Run(cfg, es).pods)| == n && |OnGroup(cfg, Run(cfg, es).pods)| == 1
  {
    var q := Q.QuotaFor(cfg.policy.rule, n);
    var held;
    es, held := OneTooMany(cfg, n, q);
    es := SendOff(cfg, es, held, Tally(n, n, q + 1), q);
    es := BindAllOff(cfg, es, held, Tally(n, n, q + 1));
    NothingHeld(cfg, Run(cfg, es).pods);
  }

  lemma SideInhabited(cfg: Config)
    requires cfg.Valid() && cfg.BothGroups()
    ensures |cfg.Side(false)| <= 1 <==> |cfg.Side(false)| == 1
  {
    var node := SidesInhabited(cfg, false);
    SubsetSize({node}, cfg.Side(false));
  }

  lemma MeetsWithinBounds(cfg: Config, es: seq<Event>)
    requires cfg.Valid() && cfg.policy.mode.OtherMode?
    requires var n := |Selected(cfg, Run(cfg, es).pods)|;
             var q := Q.QuotaFor(cfg.policy.rule, n);
             q <= 1 || q == n || |cfg.Side(false)| <= 1
    ensures MeetsQuota(cfg, es)
  {
    if Undisturbed(cfg, es) && AllBound(cfg, Run(cfg, es).pods) {
      UnsetRunBounds(cfg, es);
    }
  }

  /** For `n` selected pods, given nodes of both kinds: the unset mode meets the quota in every undisturbed run that
      ends with them exactly when the quota is at most one pod, or all of them, or there is one node off the group. */
  lemma UnsetQuotaIff(cfg: Config, n: nat)
    requires cfg.Valid() && cfg.policy.mode.OtherMode? && cfg.BothGroups()
    ensures var q := Q.QuotaFor(cfg.policy.rule, n);
            (forall es | |Selected(cfg, Run(cfg, es).pods)| == n :: MeetsQuota(cfg, es)) <==>
              q <= 1 || q == n || |cfg.Side(false)| == 1
  {
    var q := Q.QuotaFor(cfg.policy.rule, n);
    SideInhabited(cfg);
    if q <= 1 || q == n || |cfg.Side(false)| == 1 {
      forall es | |Selected(cfg, Run(cfg, es).pods)| == n
        ensures MeetsQuota(cfg, es)
      {
        MeetsWithinBounds(cfg, es);
      }
    } else {
      var es := UnsetFloorIsReached(cfg, n);
      assert !MeetsQuota(cfg, es);
    }
  }

  /** For any sensitive rule some run misses the quota, given two nodes off the group. */
  lemma SensitiveRunFails(cfg: Config) returns (es: seq<Event>)
    requires cfg.Valid() && cfg.policy.mode.OtherMode? && cfg.BothGroups() && 2 <= |cfg.Side(false)|
    requires Sensitive(cfg.policy.rule)
    ensures Undisturbed(cfg, es) && AllBound(cfg, Run(cfg, es).pods)
    ensures var pods := Run(cfg, es).pods;
            |OnGroup(cfg, pods)| == 1 < Q.QuotaFor(cfg.policy.rule, |Selected(cfg, pods)|)
  {
    CrowdQuota(cfg.policy.rule);
    es := UnsetFloorIsReached(cfg, Crowd(cfg.policy.rule));
  }

  /** With nodes of both kinds, the unset mode meets the quota in every undisturbed run exactly when the rule is not
      sensitive (its size is a count of at most one, zero under MustNot, or a percentage of at most 0 or at least 100),
      or there is just one node off the group. */
  lemma UnsetModeExactIff(cfg: Config)
    requires cfg.Valid() && cfg.policy.mode.OtherMode? && cfg.BothGroups()
    ensures (forall es :: MeetsQuota(cfg, es)) <==> !Sensitive(cfg.policy.rule) || |cfg.Side(false)| == 1
  {
    SideInhabited(cfg);
    if Sensitive(cfg.policy.rule) && |cfg.Side(false)| != 1 {
      var es := SensitiveRunFails(cfg);
      assert !MeetsQuota(cfg, es);
    } else {
      forall es
        ensures MeetsQuota(cfg, es)
      {
        if !Sensitive(cfg.policy.rule) {
          InsensitiveQuota(cfg.policy.rule, |Selected(cfg, Run(cfg, es).pods)|);
        }
        MeetsWithinBounds(cfg, es);
      }
    }
  }
}
