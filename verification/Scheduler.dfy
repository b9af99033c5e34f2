/** The cluster as a step system: pods are created, cycled, bound and deleted in any order, and the plugin's local
    decisions have to add up to the quota. */
module Scheduler {
  import Prelude
  import Labels
  import opened Objects
  import Grouping
  import PolicyChoice
  import Hooks
  import opened Cycles
  import opened Tallies

  /** The stored pods by UID, and for each binding under way the nodes that the pod's last cycle permits. */
  datatype State = State(pods: Pods, pending: map<string, set<string>>)

  const EMPTY := State(map[], map[])

  datatype Event =
    | Create(pod: Pod)
    | Cycle(uid: string, first: Attempt, second: Attempt)  // of two deciding hooks the second makes the second attempt
    | Bind(uid: string, node: string)
    | FailBind(uid: string)
    | Delete(uid: string)
    | Interfere(pod: Pod)  // anyone else rewrites a stored pod; a bound pod is not bound again

  /** The pod lister may hold anything, as long as it shows the pod itself with its labels. */
  predicate Lists(cache: seq<Pod>, pod: Pod) {
    && Grouping.UniqueUids(cache)
    && exists p :: p in cache && p.uid == pod.uid && p.labels == pod.labels
  }

  predicate Exact(cache: seq<Pod>, pods: Pods) {
    && Grouping.UniqueUids(cache)
    && (forall p | p in cache :: p.uid in pods && pods[p.uid] == p)
    && Grouping.Uids(cache) == pods.Keys
  }

  /** The cache is up to date, except perhaps for the own annotations of the pod `uid`, such as an update that the same
      cycle has sent. */
  predicate Fresh(cache: seq<Pod>, pods: Pods, uid: string) {
    && Grouping.UniqueUids(cache)
    && (forall p | p in cache ::
          && p.uid in pods
          && (pods[p.uid] == p || (p.uid == uid && p == pods[uid].(annotations := p.annotations))))
    && Grouping.Uids(cache) == pods.Keys
  }

  predicate Enabled(cfg: Config, s: State, e: Event) {
    match e
    case Create(pod) => pod.uid !in s.pods
    case Cycle(uid, first, second) =>
      && uid in s.pods && !s.pods[uid].Bound() && PolicyChoice.Governs(cfg.policy, s.pods[uid])
      && Lists(first.cache, s.pods[uid]) && Lists(second.cache, s.pods[uid])
      && cfg.nodes != []  // without nodes the scheduler gives up at once
    case Bind(uid, node) => uid in s.pods && uid in s.pending && node in s.pending[uid]
    case FailBind(uid) => uid in s.pending
    case Delete(uid) => uid in s.pods
    case Interfere(pod) => pod.uid in s.pods
  }

  /** A cycle that permits a node starts a binding. */
  function PendingAfter(pending: map<string, set<string>>, uid: string, permitted: set<string>)
    : map<string, set<string>>
  {
    if permitted == {} then pending - {uid} else pending[uid := permitted]
  }

  function AfterCycle(s: State, uid: string, result: CycleResult): State {
    State(if result.stored.None? then s.pods else s.pods[uid := result.stored.value],
          PendingAfter(s.pending, uid, result.permitted))
  }

  function Next(cfg: Config, s: State, e: Event): State
    requires Enabled(cfg, s, e)
  {
    match e
    case Create(pod) => State(s.pods[pod.uid := pod], s.pending - {pod.uid})
    case Cycle(uid, first, second) =>
      AfterCycle(s, uid, HookCycle(cfg, first, second, s.pods[uid]))
    case Bind(uid, node) => State(s.pods[uid := s.pods[uid].(nodeName := node)], s.pending - {uid})
    case FailBind(uid) => State(s.pods, s.pending - {uid})
    case Delete(uid) => State(s.pods - {uid}, s.pending - {uid})
    case Interfere(pod) =>
      State(s.pods[pod.uid := pod], if pod.Bound() then s.pending - {pod.uid} else s.pending)
  }

  /** The pod that an event is about. */
  function Subject(e: Event): string {
    match e
    case Create(pod) => pod.uid
    case Interfere(pod) => pod.uid
    case _ => e.uid
  }

  /** The state after a run from the empty store; an event that is not enabled changes nothing. */
  function Run(cfg: Config, es: seq<Event>): State {
    if es == [] then EMPTY
    else
      var s, e := Run(cfg, es[..|es| - 1]), es[|es| - 1];
      if Enabled(cfg, s, e) then Next(cfg, s, e) else s
  }

  /** The events that the plugin does not answer for. */
  predicate Disturbs(cfg: Config, s: State, e: Event) {
    match e
    case Create(pod) => Labels.Selects(cfg.policy.podSelector, pod.labels) && IsDecided(pod)
    case Delete(uid) => uid in Selected(cfg, s.pods)
    case Interfere(pod) => pod.uid in Selected(cfg, s.pods) || Labels.Selects(cfg.policy.podSelector, pod.labels)
    case _ => false
  }

  // What the cache of a cycle for `uid` gets wrong.

  function ListedUids(cfg: Config, cache: seq<Pod>): set<string> {
    Grouping.Uids(Hooks.PodsWithLabels(cache, cfg.policy.podSelector))
  }

  /** Selected pods that it does not list. */
  function Missing(cfg: Config, s: State, cache: seq<Pod>): set<string> {
    set u | u in s.pods && Passes(cfg, SelectedTest, s.pods[u]) && u !in ListedUids(cfg, cache)
  }

  /** Pods that it lists although they are not selected, or no longer there. */
  function Surplus(cfg: Config, s: State, cache: seq<Pod>): set<string> {
    set u | u in ListedUids(cfg, cache) && u !in Selected(cfg, s.pods)
  }

  /** The pods that the cycle counts. */
  function Shown(cfg: Config, uid: string, cache: seq<Pod>): set<string> {
    set p | p in Hooks.PodsWithLabels(cache, cfg.policy.podSelector) && Grouping.CountsFor(p, uid, cfg.Group()) :: p.uid
  }

  /** Counted pods that it does not show as counted. */
  function Hidden(cfg: Config, s: State, uid: string, cache: seq<Pod>): set<string> {
    set u | u in s.pods && Passes(cfg, CountedTest, s.pods[u]) && u != uid && u !in Shown(cfg, uid, cache)
  }

  /** Pods that it shows as counted although they are not. */
  function Phantoms(cfg: Config, s: State, uid: string, cache: seq<Pod>): set<string> {
    set u | u in Shown(cfg, uid, cache) && u !in Counted(cfg, s.pods)
  }

  /** How far the cache of a cycle can mislead the count upwards of the quota, and downwards. (Where the decision is
      enforced, a cycle makes only one attempt.) */
  function Staleness(cfg: Config, s: State, e: Event): nat {
    if e.Cycle? then |Hidden(cfg, s, e.uid, e.first.cache)| + |Surplus(cfg, s, e.first.cache)| else 0
  }

  function Shortness(cfg: Config, s: State, e: Event): nat {
    if e.Cycle? then |Missing(cfg, s, e.first.cache)| + |Phantoms(cfg, s, e.uid, e.first.cache)| else 0
  }

  // Bindings under way that contradict an annotation, as a foreign write can leave them.

  predicate CrossesOn(cfg: Config, p: Pod, permitted: set<string>) {
    && Passes(cfg, SelectedTest, p) && !p.Bound() && p.Preference() != Prelude.Some(true)
    && exists n :: n in permitted && n in cfg.Group()
  }

  predicate CrossesOff(cfg: Config, p: Pod, permitted: set<string>) {
    && Passes(cfg, SelectedTest, p) && !p.Bound() && p.Preference() != Prelude.Some(false)
    && exists n :: n in permitted && n !in cfg.Group()
  }

  function CrossedOn(cfg: Config, s: State): set<string> {
    set u | u in s.pending && u in s.pods && CrossesOn(cfg, s.pods[u], s.pending[u])
  }

  function CrossedOff(cfg: Config, s: State): set<string> {
    set u | u in s.pending && u in s.pods && CrossesOff(cfg, s.pods[u], s.pending[u])
  }

  function CrossingsOf(cfg: Config, s: State): Crossings {
    Crossings(|CrossedOn(cfg, s)|, |CrossedOff(cfg, s)|)
  }

  /** UIDs are map keys, and bindings under way are those of unbound pods to named nodes. */
  ghost predicate Inv(s: State) {
    && (forall u | u in s.pods :: s.pods[u].uid == u)
    && (forall u | u in s.pending :: u in s.pods && !s.pods[u].Bound())
    && (forall u, n | u in s.pending && n in s.pending[u] :: n != "")
  }

  /** A binding under way for `u` goes to the side that the annotation of `u` promises. */
  predicate KeepsPromise(cfg: Config, s: State, u: string) {
    u in s.pending && u in s.pods ==>
      forall n | n in s.pending[u] :: s.pods[u].Preference() == Prelude.Some(n in cfg.Group())
  }
}
