/** One scheduling cycle: the framework calling the plugin's hooks in order, under one policy. The order is that of the
    scheduler's own code: nothing is called when there are no nodes, and a single node that passes Filter is taken
    without PreScore, Score and NormalizeScore. */
module Cycles {
  import opened Prelude
  import Labels
  import opened Objects
  import Grouping
  import PolicyChoice
  import opened Hooks
  import HookLaws
  import N = Normalize

  /** What the listers of policies and nodes hold. */
  datatype Cluster = Cluster(policies: seq<Policy>, nodes: seq<Node>)

  /** The fixed nodes, and the policy in force. */
  datatype Config = Config(nodes: seq<Node>, policy: Policy) {
    ghost predicate Valid() {
      && Grouping.UniqueNames(nodes) && (forall n | n in nodes :: n.name != "")
      && policy.rule.Valid()
    }

    /** The cluster with this policy alone. */
    function Alone(): Cluster {
      Cluster([policy], nodes)
    }

    function Group(): set<string> {
      Grouping.NodeGroup(nodes, policy.nodeSelector).Keys
    }

    predicate InGroup(n: Node) {
      Labels.Matches(n.labels, policy.nodeSelector)
    }

    /** The nodes that a decision asks for. */
    function Side(prefers: bool): set<string> {
      set n | n in nodes && InGroup(n) == prefers :: n.name
    }

    predicate BothGroups() {
      (exists n :: n in nodes && InGroup(n)) && (exists n :: n in nodes && !InGroup(n))
    }

    /** The modes under which the decision is enforced. */
    predicate Enforced() {
      policy.mode.Strict? || (policy.mode.BestEffort? && BothGroups())
    }
  }

  /** What the pod lister holds when a hook decides, and whether the API server accepts the update that it sends. */
  datatype Attempt = Attempt(cache: seq<Pod>, accepted: bool)

  /** The updates a cycle sends, in order; the pod it thereby stores on the API server; and the nodes it lets the pod
      be bound to. */
  datatype CycleResult = CycleResult(requests: seq<Pod>, stored: Option<Pod>, permitted: set<string>)

  /** What the server holds after one more request. */
  function Kept(stored: Option<Pod>, request: Option<Pod>, accepted: bool): Option<Pod> {
    if request.Some? && accepted then request else stored
  }

  /** The framework's pod object after a cycle: every update sends it, and nothing else changes it. */
  function PodAfter(pod: Pod, requests: seq<Pod>): Pod {
    if requests == [] then pod else requests[|requests| - 1]
  }

  function Feasible(nodes: seq<Node>, data: Option<StateData>, pod: Pod): seq<Node> {
    if nodes == [] then []
    else
      var front := Feasible(nodes[..|nodes| - 1], data, pod);
      var last := nodes[|nodes| - 1];
      if FilterStatus(data, pod, Some(last)) == Success then front + [last] else front
  }

  function Scores(data: Option<StateData>, pod: Pod, snapshot: seq<Node>, feasible: seq<Node>): seq<N.NodeScore> {
    seq(|feasible|, i requires 0 <= i < |feasible| =>
      N.NodeScore(feasible[i].name, ScoreOf(data, pod, snapshot, feasible[i].name).0))
  }

  predicate ScoringFails(data: Option<StateData>, pod: Pod, snapshot: seq<Node>, feasible: seq<Node>) {
    exists n :: n in feasible && ScoreOf(data, pod, snapshot, n.name).1 != Success
  }

  /** The names that carry a highest score. */
  function Best(scores: seq<N.NodeScore>): set<string> {
    set i | 0 <= i < |scores| && (forall j | 0 <= j < |scores| :: scores[j].score <= scores[i].score) :: scores[i].name
  }

  /** PreScore on the nodes that passed Filter, Score and NormalizeScore: PreScore's outcome, and the best nodes. */
  function ScorePhase(cluster: Cluster, choice: Option<Policy>, env: Environment, feasible: seq<Node>, pod: Pod)
    : (Outcome, set<string>)
  {
    var ps := PreScoreOutcome(env, choice, feasible, pod);
    (ps, if !ps.status.Success? || ScoringFails(ps.data, ps.pod, cluster.nodes, feasible) then {}
         else Best(N.Normalized(Scores(ps.data, ps.pod, cluster.nodes, feasible))))
  }

  function EnvironmentOf(cluster: Cluster, attempt: Attempt): Environment {
    Environment(Some(cluster.policies), Some(cluster.nodes), Some(attempt.cache), attempt.accepted)
  }

  /** The attempt that PreScore makes: the second of the cycle if PreFilter has made one. */
  function ScoreAttempt(first: Attempt, second: Attempt, pf: Outcome): Attempt {
    if pf.request.Some? then second else first
  }

  /** What follows a PreFilter with this outcome; `choice` is the policy that PreScore finds. */
  function AfterPreFilter(cluster: Cluster, choice: Option<Policy>, first: Attempt, second: Attempt, pf: Outcome,
                          feasible: seq<Node>): CycleResult {
    var sent, stored := Sent([], pf.request), Kept(None, pf.request, first.accepted);
    if !pf.status.Success? || feasible == [] then CycleResult(sent, stored, {})
    else if |feasible| == 1 then CycleResult(sent, stored, {feasible[0].name})
    else
      var attempt := ScoreAttempt(first, second, pf);
      var (ps, permitted) := ScorePhase(cluster, choice, EnvironmentOf(cluster, attempt), feasible, pf.pod);
      CycleResult(Sent(sent, ps.request), Kept(stored, ps.request, attempt.accepted), permitted)
  }

  /** PreFilter, Filter on every node, and the score phase; the pod may be bound to any node with a highest score. Each
      of the two hooks looks the policy up for itself; those that decide do so with the first attempt of the cycle, and
      then with the second. */
  function CycleOf(cluster: Cluster, choice: Option<Policy>, choice': Option<Policy>, first: Attempt, second: Attempt,
                   pod: Pod): CycleResult {
    if cluster.nodes == [] then CycleResult([], None, {})
    else
      var pf := PreFilterOutcome(EnvironmentOf(cluster, first), choice, pod);
      AfterPreFilter(cluster, choice', first, second, pf, Feasible(cluster.nodes, pf.data, pf.pod))
  }

  /** The cycle of a pod that the policy in force governs. */
  function HookCycle(cfg: Config, first: Attempt, second: Attempt, pod: Pod): CycleResult {
    CycleOf(cfg.Alone(), Some(cfg.policy), Some(cfg.policy), first, second, pod)
  }

  /** The decision of a cycle under this cache. */
  function Preferred(cfg: Config, cache: seq<Pod>, pod: Pod): bool
    requires cfg.policy.rule.Valid()
  {
    Prefers(cfg.policy, cfg.nodes, PodsWithLabels(cache, cfg.policy.podSelector), pod.uid).value
  }

  /** What a cycle should amount to: annotate the pod once, with the decision, and permit the group decided for. */
  function IntendedCycle(cfg: Config, attempt: Attempt, pod: Pod): CycleResult
    requires cfg.policy.rule.Valid()
  {
    var prefers := Preferred(cfg, attempt.cache, pod);
    var after := Annotated(pod, cfg.policy, prefers);
    if cfg.nodes == [] then CycleResult([], None, {})
    else if attempt.accepted then CycleResult([after], Some(after), cfg.Side(prefers))
    else CycleResult([after], None, {})
  }

  lemma {:induction false} FeasibleNodes(nodes: seq<Node>, data: Option<StateData>, pod: Pod)
    ensures forall n :: n in Feasible(nodes, data, pod) <==> n in nodes && FilterStatus(data, pod, Some(n)) == Success
  {
    if nodes != [] {
      var front, last := nodes[..|nodes| - 1], nodes[|nodes| - 1];
      FeasibleNodes(front, data, pod);
      forall n: Node
        ensures n in nodes <==> n in front || n == last
      {
        assert nodes == front + [last];
      }
    }
  }

  /** The passing nodes stand in list order. */
  lemma {:induction false} FeasibleKeepsOrder(nodes: seq<Node>, data: Option<StateData>, pod: Pod,
                                              a: nat, b: nat, i: nat, j: nat)
    requires Grouping.UniqueNames(nodes) && a < b < |Feasible(nodes, data, pod)| && i < |nodes| && j < |nodes|
    requires nodes[i] == Feasible(nodes, data, pod)[a] && nodes[j] == Feasible(nodes, data, pod)[b]
    ensures i < j
  {
    var front, last := nodes[..|nodes| - 1], nodes[|nodes| - 1];
    var passing := Feasible(front, data, pod);
    FeasibleNodes(front, data, pod);
    assert passing[a] in front;
    if b < |passing| {
      assert passing[b] in front;
      FeasibleKeepsOrder(front, data, pod, a, b, i, j);
    }
  }

  lemma {:induction false} FeasibleUnique(nodes: seq<Node>, data: Option<StateData>, pod: Pod)
    requires Grouping.UniqueNames(nodes)
    ensures Grouping.UniqueNames(Feasible(nodes, data, pod))
  {
    if nodes != [] {
      var front, last := nodes[..|nodes| - 1], nodes[|nodes| - 1];
      FeasibleUnique(front, data, pod);
      FeasibleNodes(front, data, pod);
      forall n | n in Feasible(front, data, pod)
        ensures n.name != last.name
      {
        assert n in front;
      }
    }
  }

  lemma {:induction false} NamesSize(nodes: seq<Node>)
    requires Grouping.UniqueNames(nodes)
    ensures |set n | n in nodes :: n.name| == |nodes|
  {
    if nodes != [] {
      var front, last := nodes[..|nodes| - 1], nodes[|nodes| - 1];
      NamesSize(front);
      assert nodes == front + [last];
      assert (set n | n in nodes :: n.name) == (set n | n in front :: n.name) + {last.name};
    }
  }

  lemma {:induction false} AllFeasible(nodes: seq<Node>, pod: Pod)
    ensures Feasible(nodes, None, pod) == nodes
  {
    if nodes != [] {
      AllFeasible(nodes[..|nodes| - 1], pod);
      assert nodes == nodes[..|nodes| - 1] + [nodes[|nodes| - 1]];
    }
  }

  lemma FlatScores(s: seq<N.NodeScore>, common: N.Int64)
    requires common == 0 || common == 100
    requires forall k | 0 <= k < |s| :: s[k].score == common
    ensures Best(N.Normalized(s)) == set k | 0 <= k < |s| :: s[k].name
  {
    HookLaws.NormalizedKinds(s);
    var r := N.Normalized(s);
    assert forall k | 0 <= k < |s| :: r[k] == N.NodeScore(s[k].name, 0);
    forall k | 0 <= k < |s|
      ensures s[k].name in Best(r)
    {
      assert r[k].name == s[k].name;
    }
  }

  lemma TwoValuedScores(s: seq<N.NodeScore>, top: nat, bottom: nat)
    requires forall k | 0 <= k < |s| :: s[k].score == 0 || s[k].score == 100
    requires top < |s| && bottom < |s| && s[top].score == 100 && s[bottom].score == 0
    ensures Best(N.Normalized(s)) == set k | 0 <= k < |s| && s[k].score == 100 :: s[k].name
  {
    HookLaws.NormalizedKinds(s);
    assert s[top].score != s[bottom].score;
  }

  lemma DecidedFeasible(cfg: Config, cache: seq<Pod>, pod: Pod)
    requires cfg.Valid() && !cfg.policy.mode.BestEffort?
    ensures var pf := PreFilterOutcome(EnvironmentOf(cfg.Alone(), Attempt(cache, true)), Some(cfg.policy), pod);
            var prefers := Preferred(cfg, cache, pod);
            && pf.status == Success && pf.pod == Annotated(pod, cfg.policy, prefers) && pf.request == Some(pf.pod)
            && OnSide(cfg, Feasible(cfg.nodes, pf.data, pf.pod), prefers)
  {
    var env := EnvironmentOf(cfg.Alone(), Attempt(cache, true));
    var pf := PreFilterOutcome(env, Some(cfg.policy), pod);
    FeasibleNodes(cfg.nodes, pf.data, pf.pod);
    FeasibleUnique(cfg.nodes, pf.data, pf.pod);
    forall n | n in cfg.nodes
      ensures FilterStatus(pf.data, pf.pod, Some(n)) == Success <==> cfg.InGroup(n) == Preferred(cfg, cache, pod)
    {
      HookLaws.FilterFollowsDecision(env, Some(cfg.policy), pod, n);
    }
  }

  /** These are the nodes of one side, each once. */
  ghost predicate OnSide(cfg: Config, feasible: seq<Node>, prefers: bool) {
    && Grouping.UniqueNames(feasible)
    && forall n :: n in feasible <==> n in cfg.nodes && cfg.InGroup(n) == prefers
  }

  lemma SideNames(cfg: Config, feasible: seq<Node>, prefers: bool)
    requires OnSide(cfg, feasible, prefers)
    ensures (set n | n in feasible :: n.name) == cfg.Side(prefers) && |cfg.Side(prefers)| == |feasible|
    ensures |feasible| == 1 ==> cfg.Side(prefers) == {feasible[0].name}
  {
    NamesSize(feasible);
    assert (set n | n in feasible :: n.name) == cfg.Side(prefers);
  }

  lemma StrictAfterPreFilter(cfg: Config, first: Attempt, second: Attempt, pf: Outcome, feasible: seq<Node>,
                             prefers: bool)
    requires cfg.Valid() && cfg.policy.mode.Strict? && first.accepted
    requires pf.status == Success && pf.request == Some(pf.pod) && OnSide(cfg, feasible, prefers)
    ensures AfterPreFilter(cfg.Alone(), Some(cfg.policy), first, second, pf, feasible)
         == CycleResult([pf.pod], Some(pf.pod), cfg.Side(prefers))
  {
    SideNames(cfg, feasible, prefers);
    FlatNames(pf.pod, cfg.nodes, feasible);
  }

  /** Under Strict, scoring does not interfere: the permitted nodes are those that pass Filter. */
  lemma StrictCycle(cfg: Config, first: Attempt, second: Attempt, pod: Pod)
    requires cfg.Valid() && cfg.policy.mode.Strict?
    ensures HookCycle(cfg, first, second, pod) == IntendedCycle(cfg, first, pod)
  {
    if first.accepted {
      var pf := PreFilterOutcome(EnvironmentOf(cfg.Alone(), first), Some(cfg.policy), pod);
      DecidedFeasible(cfg, first.cache, pod);
      StrictAfterPreFilter(cfg, first, second, pf, Feasible(cfg.nodes, pf.data, pf.pod),
                           Preferred(cfg, first.cache, pod));
    }
  }

  /** Without PreScore data every score is 0, so all feasible nodes are best. */
  lemma FlatNames(pod: Pod, snapshot: seq<Node>, feasible: seq<Node>)
    ensures !ScoringFails(None, pod, snapshot, feasible)
    ensures Best(N.Normalized(Scores(None, pod, snapshot, feasible))) == set n | n in feasible :: n.name
  {
    FlatBest(None, pod, snapshot, feasible, 0);
  }

  /** When all feasible nodes have the same score, all of them are best. */
  lemma FlatBest(data: Option<StateData>, pod: Pod, snapshot: seq<Node>, feasible: seq<Node>, common: N.Int64)
    requires common == 0 || common == 100
    requires forall n | n in feasible :: ScoreOf(data, pod, snapshot, n.name) == (common, Success)
    ensures !ScoringFails(data, pod, snapshot, feasible)
    ensures Best(N.Normalized(Scores(data, pod, snapshot, feasible))) == set n | n in feasible :: n.name
  {
    var scores := Scores(data, pod, snapshot, feasible);
    forall k | 0 <= k < |scores|
      ensures scores[k] == N.NodeScore(feasible[k].name, common)
    {
      assert feasible[k] in feasible;
    }
    FlatScores(scores, common);
    ScoredNames(feasible, scores);
  }

  lemma ScoredNames(feasible: seq<Node>, scores: seq<N.NodeScore>)
    requires |scores| == |feasible| && forall k | 0 <= k < |scores| :: scores[k].name == feasible[k].name
    ensures (set k | 0 <= k < |scores| :: scores[k].name) == set n | n in feasible :: n.name
  {
    forall n | n in feasible
      ensures n.name in set k | 0 <= k < |scores| :: scores[k].name
    {
      var k :| 0 <= k < |feasible| && feasible[k] == n;
      assert scores[k].name == n.name;
    }
  }

  lemma BestEffortScores(cfg: Config, cache: seq<Pod>, pod: Pod)
    requires cfg.Valid() && cfg.policy.mode.BestEffort? && cfg.BothGroups()
    ensures var env := EnvironmentOf(cfg.Alone(), Attempt(cache, true));
            var (ps, permitted) := ScorePhase(cfg.Alone(), Some(cfg.policy), env, cfg.nodes, pod);
            var prefers := Preferred(cfg, cache, pod);
            && ps.request == Some(Annotated(pod, cfg.policy, prefers))
            && permitted == cfg.Side(prefers)
  {
    var prefers := Preferred(cfg, cache, pod);
    AnnotationRoundTrip(pod, cfg.policy, prefers, prefers);
    BestNodes(cfg, StateData(pod.name, cfg.policy), Annotated(pod, cfg.policy, prefers), prefers);
  }

  /** When PreFilter finds no policy or a BestEffort one, all nodes pass Filter. */
  lemma PassedOver(cluster: Cluster, choice: Option<Policy>, choice': Option<Policy>, first: Attempt, second: Attempt,
                   pod: Pod)
    requires cluster.nodes != [] && (choice.Some? ==> choice.value.mode == BestEffort)
    ensures CycleOf(cluster, choice, choice', first, second, pod)
         == AfterPreFilter(cluster, choice', first, second, Outcome(Success, pod, None, None), cluster.nodes)
  {
    AllFeasible(cluster.nodes, pod);
  }

  /** A single one is taken as it is. */
  lemma TakenAlone(cluster: Cluster, choice': Option<Policy>, first: Attempt, second: Attempt, pod: Pod)
    requires |cluster.nodes| == 1
    ensures AfterPreFilter(cluster, choice', first, second, Outcome(Success, pod, None, None), cluster.nodes)
         == CycleResult([], None, {cluster.nodes[0].name})
  {
  }

  /** Under BestEffort all nodes pass Filter, so with several of them the score phase is all there is. */
  lemma ScoredOnly(cfg: Config, first: Attempt, second: Attempt, pod: Pod, after: Pod, permitted: set<string>)
    requires cfg.policy.mode.BestEffort? && 2 <= |cfg.nodes|
    requires var env := EnvironmentOf(cfg.Alone(), first);
             var (ps, best) := ScorePhase(cfg.Alone(), Some(cfg.policy), env, cfg.nodes, pod);
             ps.request == Some(after) && best == permitted
    ensures HookCycle(cfg, first, second, pod)
         == CycleResult([after], if first.accepted then Some(after) else None, permitted)
  {
    PassedOver(cfg.Alone(), Some(cfg.policy), Some(cfg.policy), first, second, pod);
  }

  lemma RefusedScores(cfg: Config, cache: seq<Pod>, pod: Pod)
    requires cfg.Valid() && cfg.policy.mode.BestEffort?
    ensures var env := EnvironmentOf(cfg.Alone(), Attempt(cache, false));
            var (ps, permitted) := ScorePhase(cfg.Alone(), Some(cfg.policy), env, cfg.nodes, pod);
            ps.request == Some(Annotated(pod, cfg.policy, Preferred(cfg, cache, pod))) && permitted == {}
  {
  }

  /** Under BestEffort, with nodes of both kinds, the highest normalized scores are on the same nodes. */
  lemma BestEffortCycle(cfg: Config, first: Attempt, second: Attempt, pod: Pod)
    requires cfg.Valid() && cfg.policy.mode.BestEffort? && cfg.BothGroups()
    ensures HookCycle(cfg, first, second, pod) == IntendedCycle(cfg, first, pod)
  {
    TwoNodes(cfg);
    var prefers := Preferred(cfg, first.cache, pod);
    if first.accepted {
      BestEffortScores(cfg, first.cache, pod);
    } else {
      RefusedScores(cfg, first.cache, pod);
    }
    ScoredOnly(cfg, first, second, pod, Annotated(pod, cfg.policy, prefers),
               if first.accepted then cfg.Side(prefers) else {});
  }

  lemma TwoNodes(cfg: Config)
    requires cfg.BothGroups()
    ensures 2 <= |cfg.nodes|
  {
    var i :| 0 <= i < |cfg.nodes| && cfg.InGroup(cfg.nodes[i]);
    var j :| 0 <= j < |cfg.nodes| && !cfg.InGroup(cfg.nodes[j]);
    assert i != j;
  }

  /** Under BestEffort an accepted cycle amounts to what is intended exactly when some node is on the decided side and
      there are other nodes, or there are none at all. Without a node on that side it still permits whatever nodes
      there are; and a single node is taken without asking the plugin, which then annotates nothing. */
  lemma BestEffortIsIntendedIff(cfg: Config, cache: seq<Pod>, second: Attempt, pod: Pod)
    requires cfg.Valid() && cfg.policy.mode.BestEffort?
    ensures var result := HookCycle(cfg, Attempt(cache, true), second, pod);
            var side := cfg.Side(Preferred(cfg, cache, pod));
            && (result == IntendedCycle(cfg, Attempt(cache, true), pod) <==>
                  cfg.nodes == [] || (2 <= |cfg.nodes| && side != {}))
            && (side == {} ==> result.permitted == set n | n in cfg.nodes :: n.name)
            && (|cfg.nodes| == 1 ==> result == CycleResult([], None, {cfg.nodes[0].name}))
  {
    AllFeasible(cfg.nodes, pod);
    if cfg.BothGroups() {
      BestEffortCycle(cfg, Attempt(cache, true), second, pod);
      BothSides(cfg);
      TwoNodes(cfg);
    } else if cfg.nodes != [] {
      OneSided(cfg, cache, second, cfg.InGroup(cfg.nodes[0]), pod);
    }
  }

  lemma BothSides(cfg: Config)
    requires cfg.BothGroups()
    ensures cfg.Side(true) != {} && cfg.Side(false) != {}
  {
    var n :| n in cfg.nodes && cfg.InGroup(n);
    assert n.name in cfg.Side(true);
    var m :| m in cfg.nodes && !cfg.InGroup(m);
    assert m.name in cfg.Side(false);
  }

  /** All nodes on one side: their scores are equal, so all of them are best. */
  lemma OneSided(cfg: Config, cache: seq<Pod>, second: Attempt, side: bool, pod: Pod)
    requires cfg.Valid() && cfg.policy.mode.BestEffort? && cfg.nodes != []
    requires forall n | n in cfg.nodes :: cfg.InGroup(n) == side
    ensures cfg.Side(side) == (set n | n in cfg.nodes :: n.name) && cfg.Side(side) != {} && cfg.Side(!side) == {}
    ensures var after := Annotated(pod, cfg.policy, Preferred(cfg, cache, pod));
            HookCycle(cfg, Attempt(cache, true), second, pod) ==
              if |cfg.nodes| == 1 then CycleResult([], None, {cfg.nodes[0].name})
              else CycleResult([after], Some(after), cfg.Side(side))
  {
    OneSidedNames(cfg, side);
    if |cfg.nodes| == 1 {
      OneNode(cfg, Attempt(cache, true), second, pod);
    } else {
      OneSidedScores(cfg, cache, side, pod);
      ScoredOnly(cfg, Attempt(cache, true), second, pod, Annotated(pod, cfg.policy, Preferred(cfg, cache, pod)),
                 cfg.Side(side));
    }
  }

  lemma OneNode(cfg: Config, first: Attempt, second: Attempt, pod: Pod)
    requires cfg.policy.mode.BestEffort? && |cfg.nodes| == 1
    ensures HookCycle(cfg, first, second, pod) == CycleResult([], None, {cfg.nodes[0].name})
  {
    PassedOver(cfg.Alone(), Some(cfg.policy), Some(cfg.policy), first, second, pod);
    TakenAlone(cfg.Alone(), Some(cfg.policy), first, second, pod);
  }

  lemma OneSidedNames(cfg: Config, side: bool)
    requires cfg.nodes != [] && forall n | n in cfg.nodes :: cfg.InGroup(n) == side
    ensures cfg.Side(side) == (set n | n in cfg.nodes :: n.name) && cfg.Side(side) != {} && cfg.Side(!side) == {}
  {
    assert cfg.nodes[0].name in cfg.Side(side);
  }

  lemma OneSidedScores(cfg: Config, cache: seq<Pod>, side: bool, pod: Pod)
    requires cfg.Valid() && cfg.policy.mode.BestEffort?
    requires forall n | n in cfg.nodes :: cfg.InGroup(n) == side
    ensures var env := EnvironmentOf(cfg.Alone(), Attempt(cache, true));
            var (ps, permitted) := ScorePhase(cfg.Alone(), Some(cfg.policy), env, cfg.nodes, pod);
            && ps.request == Some(Annotated(pod, cfg.policy, Preferred(cfg, cache, pod)))
            && permitted == set n | n in cfg.nodes :: n.name
  {
    var prefers := Preferred(cfg, cache, pod);
    AnnotationRoundTrip(pod, cfg.policy, prefers, prefers);
    OneSidedBest(cfg, StateData(pod.name, cfg.policy), Annotated(pod, cfg.policy, prefers), side, prefers);
  }

  lemma OneSidedBest(cfg: Config, data: StateData, after: Pod, side: bool, prefers: bool)
    requires cfg.Valid() && data.policy == cfg.policy && after.Preference() == Some(prefers)
    requires forall n | n in cfg.nodes :: cfg.InGroup(n) == side
    ensures !ScoringFails(Some(data), after, cfg.nodes, cfg.nodes)
    ensures Best(N.Normalized(Scores(Some(data), after, cfg.nodes, cfg.nodes))) == set n | n in cfg.nodes :: n.name
  {
    ScoresOfGroups(cfg, data, after, prefers);
    FlatBest(Some(data), after, cfg.nodes, cfg.nodes, if side == prefers then 100 else 0);
  }

  lemma ScoresOfGroups(cfg: Config, data: StateData, pod: Pod, prefers: bool)
    requires cfg.Valid() && data.policy == cfg.policy && pod.Preference() == Some(prefers)
    ensures forall n | n in cfg.nodes ::
              ScoreOf(Some(data), pod, cfg.nodes, n.name) == (if cfg.InGroup(n) == prefers then 100 else 0, Success)
  {
    forall n | n in cfg.nodes
      ensures ScoreOf(Some(data), pod, cfg.nodes, n.name) == (if cfg.InGroup(n) == prefers then 100 else 0, Success)
    {
      HookLaws.ScoreAgreesWithFilter(data, pod, cfg.nodes, n);
    }
  }

  lemma BestNodes(cfg: Config, data: StateData, pod: Pod, prefers: bool)
    requires cfg.Valid() && cfg.BothGroups() && data.policy == cfg.policy && pod.Preference() == Some(prefers)
    ensures !ScoringFails(Some(data), pod, cfg.nodes, cfg.nodes)
    ensures Best(N.Normalized(Scores(Some(data), pod, cfg.nodes, cfg.nodes)))
         == cfg.Side(prefers)
  {
    ScoresOfGroups(cfg, data, pod, prefers);
    forall k | 0 <= k < |cfg.nodes|
      ensures ScoreOf(Some(data), pod, cfg.nodes, cfg.nodes[k].name).0
           == if cfg.InGroup(cfg.nodes[k]) == prefers then 100 else 0
    {
      assert cfg.nodes[k] in cfg.nodes;
    }
    GroupScoresBest(cfg, Scores(Some(data), pod, cfg.nodes, cfg.nodes), prefers);
  }

  predicate ScoredByGroup(cfg: Config, scores: seq<N.NodeScore>, prefers: bool) {
    && |scores| == |cfg.nodes|
    && forall k | 0 <= k < |scores| ::
         scores[k] == N.NodeScore(cfg.nodes[k].name, if cfg.InGroup(cfg.nodes[k]) == prefers then 100 else 0)
  }

  lemma GroupScoresBest(cfg: Config, scores: seq<N.NodeScore>, prefers: bool)
    requires cfg.BothGroups() && ScoredByGroup(cfg, scores, prefers)
    ensures Best(N.Normalized(scores)) == cfg.Side(prefers)
  {
    var i :| 0 <= i < |cfg.nodes| && cfg.InGroup(cfg.nodes[i]);
    var j :| 0 <= j < |cfg.nodes| && !cfg.InGroup(cfg.nodes[j]);
    assert scores[i].score == (if prefers then 100 else 0) && scores[j].score == (if prefers then 0 else 100);
    TwoValuedScores(scores, if prefers then i else j, if prefers then j else i);
    HundredNames(cfg, scores, prefers);
  }

  lemma HundredNames(cfg: Config, scores: seq<N.NodeScore>, prefers: bool)
    requires ScoredByGroup(cfg, scores, prefers)
    ensures (set k | 0 <= k < |scores| && scores[k].score == 100 :: scores[k].name)
         == cfg.Side(prefers)
  {
    forall n | n in cfg.nodes && cfg.InGroup(n) == prefers
      ensures n.name in set k | 0 <= k < |scores| && scores[k].score == 100 :: scores[k].name
    {
      var k :| 0 <= k < |cfg.nodes| && cfg.nodes[k] == n;
      assert scores[k].name == n.name;
    }
  }

  // Cycles without a decision.

  /** When PreFilter finds no policy or a BestEffort one, and PreScore finds none or a Strict one, no update is sent and
      every node is permitted. */
  lemma IdleCycle(cluster: Cluster, choice: Option<Policy>, choice': Option<Policy>, first: Attempt, second: Attempt,
                  pod: Pod)
    requires choice.Some? ==> choice.value.mode == BestEffort
    requires choice'.Some? ==> choice'.value.mode == Strict
    ensures CycleOf(cluster, choice, choice', first, second, pod)
         == CycleResult([], None, set n | n in cluster.nodes :: n.name)
  {
    if cluster.nodes != [] {
      PassedOver(cluster, choice, choice', first, second, pod);
      IdleAfterPreFilter(cluster, choice', first, second, pod);
    }
  }

  lemma IdleAfterPreFilter(cluster: Cluster, choice': Option<Policy>, first: Attempt, second: Attempt, pod: Pod)
    requires cluster.nodes != [] && (choice'.Some? ==> choice'.value.mode == Strict)
    ensures AfterPreFilter(cluster, choice', first, second, Outcome(Success, pod, None, None), cluster.nodes)
         == CycleResult([], None, set n | n in cluster.nodes :: n.name)
  {
    if |cluster.nodes| == 1 {
      TakenAlone(cluster, choice', first, second, pod);
      assert cluster.nodes == [cluster.nodes[0]];
    } else {
      IdleScores(cluster, choice', EnvironmentOf(cluster, first), pod);
    }
  }

  lemma IdleScores(cluster: Cluster, choice': Option<Policy>, env: Environment, pod: Pod)
    requires env.policies.Some? && (choice'.Some? ==> choice'.value.mode == Strict)
    ensures ScorePhase(cluster, choice', env, cluster.nodes, pod)
         == (Outcome(Success, pod, None, None), set n | n in cluster.nodes :: n.name)
  {
    FlatNames(pod, cluster.nodes, cluster.nodes);
  }

  /** So it is for a pod that no policy governs. */
  lemma UngovernedCycle(cluster: Cluster, choice: Option<Policy>, choice': Option<Policy>, first: Attempt,
                        second: Attempt, pod: Pod)
    requires forall p | p in cluster.policies ::
               p.namespace != pod.namespace || !Labels.Matches(pod.labels, p.podSelector)
    requires PolicyChoice.IsChoice(cluster.policies, pod, choice)
    requires PolicyChoice.IsChoice(cluster.policies, pod, choice')
    ensures CycleOf(cluster, choice, choice', first, second, pod)
         == CycleResult([], None, set n | n in cluster.nodes :: n.name)
  {
    IdleCycle(cluster, choice, choice', first, second, pod);
  }

  /** With the policy in force alone, the lookup finds it exactly for the pods that it governs. */
  lemma OneLookup(cfg: Config, pod: Pod, choice: Option<Policy>)
    ensures PolicyChoice.IsChoice(cfg.Alone().policies, pod, choice) <==>
              choice == if PolicyChoice.Governs(cfg.policy, pod) then Some(cfg.policy) else None
  {
    assert cfg.policy in [cfg.policy];
  }

  /** A policy with a malformed target size lets no cycle get to a node, save that under BestEffort the only node of a
      cluster is taken without asking; and no update is sent. */
  lemma MalformedCycle(cluster: Cluster, policy: Policy, first: Attempt, second: Attempt, pod: Pod)
    requires policy.rule.size.Malformed?
    ensures CycleOf(cluster, Some(policy), Some(policy), first, second, pod)
         == CycleResult([], None, if policy.mode == BestEffort && |cluster.nodes| == 1 then {cluster.nodes[0].name}
                                  else {})
  {
    if policy.mode == BestEffort && cluster.nodes != [] {
      PassedOver(cluster, Some(policy), Some(policy), first, second, pod);
      if |cluster.nodes| == 1 {
        TakenAlone(cluster, Some(policy), first, second, pod);
      }
    }
  }

  lemma EnforcedCycle(cfg: Config, first: Attempt, second: Attempt, pod: Pod)
    requires cfg.Valid() && cfg.Enforced()
    ensures HookCycle(cfg, first, second, pod) == IntendedCycle(cfg, first, pod)
  {
    if cfg.policy.mode.Strict? {
      StrictCycle(cfg, first, second, pod);
    } else {
      BestEffortCycle(cfg, first, second, pod);
    }
  }
}
