/** Counting stored pods by tests, and how far one step can move the counts away from a steady quota. */
module Tallies {
  import opened Prelude
  import Labels
  import Objects
  import Grouping
  import PolicyChoice
  import opened Cycles
  import Q = Quota

  type Pods = map<string, Objects.Pod>

  predicate IsDecided(p: Objects.Pod) {
    p.Bound() || p.Preference().Some?
  }

  /** What is asked of pods that the policy selects. */
  datatype Test = SelectedTest | DecidedTest | CountedTest | GroupedTest | WaitingTest
                | GovernedTest | OpenTest | NewTest

  predicate Passes(cfg: Config, test: Test, p: Objects.Pod) {
    Labels.Selects(cfg.policy.podSelector, p.labels) &&
    match test
    case SelectedTest => true
    case DecidedTest => IsDecided(p)
    case CountedTest => Grouping.Placed(p, cfg.Group())
    case GroupedTest => p.Bound() && p.nodeName in cfg.Group()
    case WaitingTest => !p.Bound()
    case GovernedTest => PolicyChoice.Governs(cfg.policy, p)
    case OpenTest => !p.Bound() && PolicyChoice.Governs(cfg.policy, p)
    case NewTest => !IsDecided(p) && PolicyChoice.Governs(cfg.policy, p)
  }

  function Where(cfg: Config, pods: Pods, test: Test): set<string> {
    set u | u in pods && Passes(cfg, test, pods[u])
  }

  ghost predicate Every(cfg: Config, pods: Pods, test: Test) {
    forall u | u in pods :: Passes(cfg, test, pods[u])
  }

  /** The pods that the policy's list holds when the cache is fresh. */
  function Selected(cfg: Config, pods: Pods): set<string> {
    Where(cfg, pods, SelectedTest)
  }

  /** The selected pods that are on the node group, or promised to it. */
  function Counted(cfg: Config, pods: Pods): set<string> {
    Where(cfg, pods, CountedTest)
  }

  function Decided(cfg: Config, pods: Pods): set<string> {
    Where(cfg, pods, DecidedTest)
  }

  datatype Tally = Tally(selected: nat, decided: nat, counted: nat) {
    predicate Nested() {
      counted <= decided <= selected
    }

    /** By how much the counted pods exceed the quota of all selected pods. */
    function Over(q: nat -> nat): nat {
      Max(0, counted - q(selected))
    }

    /** By how much they fall short of the quota of the pods decided so far. */
    function Under(q: nat -> nat): nat {
      Max(0, q(decided) - counted)
    }
  }

  /** The sizes of the three sets. */
  function TallyOf(cfg: Config, pods: Pods): Tally {
    Tally(|Selected(cfg, pods)|, |Decided(cfg, pods)|, |Counted(cfg, pods)|)
  }

  function Bit(b: bool): nat {
    if b then 1 else 0
  }

  lemma SizeAround<T>(s: set<T>, u: T)
    ensures |s| == |s - {u}| + Bit(u in s)
  {
    if u in s {
      assert s == (s - {u}) + {u};
    } else {
      assert s == s - {u};
    }
  }

  function Share(cfg: Config, pods: Pods, u: string, test: Test): nat {
    Bit(u in pods && Passes(cfg, test, pods[u]))
  }

  lemma WhereSize(cfg: Config, pods: Pods, u: string, test: Test)
    ensures Where(cfg, pods - {u}, test) == Where(cfg, pods, test) - {u}
    ensures |Where(cfg, pods, test)| == |Where(cfg, pods - {u}, test)| + Share(cfg, pods, u, test)
  {
    SizeAround(Where(cfg, pods, test), u);
    assert Where(cfg, pods - {u}, test) == Where(cfg, pods, test) - {u};
  }

  lemma WriteMoves(cfg: Config, pods: Pods, p: Objects.Pod, test: Test)
    ensures Where(cfg, pods[p.uid := p], test)
         == Where(cfg, pods, test) - {p.uid} + (if Passes(cfg, test, p) then {p.uid} else {})
  {
  }

  /** The tally is that of the other pods, plus the share of the pod at `u`, if any. */
  lemma TallyAround(cfg: Config, pods: Pods, u: string)
    ensures var t, rest := TallyOf(cfg, pods), TallyOf(cfg, pods - {u});
            && t.selected == rest.selected + Share(cfg, pods, u, SelectedTest)
            && t.decided == rest.decided + Share(cfg, pods, u, DecidedTest)
            && t.counted == rest.counted + Share(cfg, pods, u, CountedTest)
  {
    WhereSize(cfg, pods, u, SelectedTest);
    WhereSize(cfg, pods, u, DecidedTest);
    WhereSize(cfg, pods, u, CountedTest);
  }

  lemma WriteThenRemove<K, V>(m: map<K, V>, k: K, v: V)
    ensures m[k := v] - {k} == m - {k}
  {
  }

  lemma TallyNested(cfg: Config, pods: Pods)
    ensures TallyOf(cfg, pods).Nested()
  {
    SubsetSize(Counted(cfg, pods), Decided(cfg, pods));
    SubsetSize(Decided(cfg, pods), Selected(cfg, pods));
  }

  // Drift.

  /** How many bindings under way would contradict the annotation of their pod: to the group (`on`), off it (`off`). */
  datatype Crossings = Crossings(on: nat, off: nat)

  /** What one step may do: a cycle can push the overshoot up to `stale` and the shortfall up to `short`, and a
      disturbance can raise each of them by one. Bindings that contradict an annotation count as done. */
  ghost predicate SmallDrift(q: nat -> nat, t: Tally, x: Crossings, t': Tally, x': Crossings,
                             stale: int, short: int, disturbed: bool) {
    var slack := if disturbed then 1 else 0;
    && t'.Over(q) + x'.on <= Max(t.Over(q), stale) + x.on + slack
    && t'.Under(q) + x'.off <= Max(t.Under(q), short) + x.off + slack
    && x'.on <= x.on + slack && x'.off <= x.off + slack
  }

  /** The numbers before a cycle of a selected pod: besides it, `rest` is in the store; its cache lists `listed` pods,
      of which `surplus` are not selected while `missing` selected ones are not listed; and of these it shows `shown`
      as counted, hiding `hidden` and making up `phantom`. */
  predicate Figures(t: Tally, rest: Tally, listed: int, shown: int, missing: int, surplus: int, hidden: int,
                    phantom: int) {
    && 0 <= shown && 0 <= missing && 0 <= surplus && 0 <= hidden && 0 <= phantom
    && t.selected == rest.selected + 1 && 0 <= t.counted - rest.counted <= t.decided - rest.decided <= 1
    && rest.Nested() && shown < listed <= t.selected + surplus && t.selected <= listed + missing
    && rest.counted <= shown + hidden && shown <= rest.counted + phantom
  }

  lemma CycleNumbers(q: nat -> nat, t: Tally, x: Crossings, t': Tally, x': Crossings, rest: Tally,
                     listed: int, shown: int, missing: int, surplus: int, hidden: int, phantom: int)
    requires Q.Steady(q) && Figures(t, rest, listed, shown, missing, surplus, hidden, phantom)
    requires t'.selected == t.selected && t'.decided == rest.decided + 1
    requires t'.counted == rest.counted + if shown < q(listed) then 1 else 0
    requires x'.on <= x.on && x'.off <= x.off
    ensures SmallDrift(q, t, x, t', x', hidden + surplus, missing + phantom, false)
  {
    assert Q.RisesGently(q, listed, rest.selected + 1) && Q.RisesGently(q, rest.selected + 1, listed);
    assert Q.RisesGently(q, rest.decided + 1, rest.selected + 1);
    assert Q.RisesGently(q, rest.decided, rest.decided + 1);
  }

  /** One pod's part in the counts: is it selected, decided, counted, and does its binding cross its annotation? */
  datatype Part = Part(selected: bool, decided: bool, counted: bool, on: bool, off: bool) {
    predicate Valid() {
      && (counted ==> decided) && (decided ==> selected)
      && (on ==> selected && !counted) && (off ==> selected && (decided ==> counted))
    }
  }

  /** The counts of a state are those of `rest` and of one part. */
  predicate MadeOf(t: Tally, x: Crossings, rest: Tally, others: Crossings, part: Part) {
    && t.selected == rest.selected + Bit(part.selected)
    && t.decided == rest.decided + Bit(part.decided)
    && t.counted == rest.counted + Bit(part.counted)
    && x.on == others.on + Bit(part.on)
    && x.off == others.off + Bit(part.off)
  }

  /** Parts that change without a disturbance. */
  predicate QuietChange(part: Part, part': Part) {
    && (part.selected ==> part'.selected) && (part.decided ==> part'.decided)
    && (part'.on ==> part.on) && (part'.off ==> part.off)
    && (part'.counted || part'.on ==> part.counted || part.on)
    && (part'.decided && !part'.counted ==> (part.decided && !part.counted) || (part.off && !part'.off))
  }

  lemma QuietNumbers(q: nat -> nat, t: Tally, x: Crossings, t': Tally, x': Crossings,
                     rest: Tally, others: Crossings, part: Part, part': Part)
    requires Q.Steady(q) && part.Valid() && part'.Valid() && QuietChange(part, part')
    requires MadeOf(t, x, rest, others, part) && MadeOf(t', x', rest, others, part')
    ensures SmallDrift(q, t, x, t', x', 0, 0, false)
  {
    assert Q.RisesGently(q, rest.selected, rest.selected + 1);
    assert Q.RisesGently(q, rest.decided, rest.decided + 1);
  }

  /** Any other change costs one, as long as it does not put a binding off the group under way for a counted pod. */
  lemma DisturbedNumbers(q: nat -> nat, t: Tally, x: Crossings, t': Tally, x': Crossings,
                         rest: Tally, others: Crossings, part: Part, part': Part)
    requires Q.Steady(q) && part.Valid() && part'.Valid() && (part'.off && part.counted ==> part.off)
    requires MadeOf(t, x, rest, others, part) && MadeOf(t', x', rest, others, part')
    ensures SmallDrift(q, t, x, t', x', 0, 0, true)
  {
    assert Q.RisesGently(q, rest.selected, rest.selected + 1);
    assert Q.RisesGently(q, rest.decided, rest.decided + 1);
  }
}
