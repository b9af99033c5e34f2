/** Target sizes, and the quota that a placement rule sets for a number of selected pods. */
module Quota {
  import opened Prelude

  /** Any action other than MustNot, the unset one included, is handled as Must. */
  datatype Action = Must | MustNot | OtherAction(text: string)

  /** `Malformed` stands for a missing size or a string that is not an integer followed by '%'. */
  datatype TargetSize = Count(n: int) | Percent(p: int) | Malformed

  datatype Rule = Rule(action: Action, size: TargetSize) {
    predicate Valid() {
      !size.Malformed?
    }
  }

  /** intstr.GetScaledValueFromIntOrPercent, rounding down. */
  function Scaled(size: TargetSize, total: nat): Option<int> {
    match size
    case Count(n) => Some(n)
    case Percent(p) => Some(p * total / 100)
    case Malformed => None
  }

  /** The number that the count of placed pods is compared with. */
  function Target(rule: Rule, total: nat): (r: Option<int>)
    ensures r.Some? <==> rule.Valid()
  {
    match Scaled(rule.size, total)
    case None => None
    case Some(n) => Some(if rule.action.MustNot? then total - n else n)
  }

  /** Before any clamping: a count is taken as it is, a percentage of the pods is rounded down, also when it is negative
      or above 100; under MustNot it is what the target leaves out. */
  lemma TargetMeaning(rule: Rule, total: nat)
    requires !rule.size.Malformed?
    ensures Target(rule, total).Some?
    ensures var target := Target(rule, total).value;
            var addressed := if rule.action == MustNot then total - target else target;
            if rule.size.Count? then addressed == rule.size.n
            else 100 * addressed <= rule.size.p * total < 100 * addressed + 100
  {
  }

  /** The target clamped to what `total` pods can fill. */
  function QuotaFor(rule: Rule, total: nat): (q: nat)
    requires rule.Valid()
    ensures q <= total
  {
    var f := Target(rule, total).value;
    if f < 0 then 0 else if total < f then total else f
  }

  lemma PercentStep(p: int, total: nat)
    requires 0 <= p <= 100
    ensures 0 <= p * total / 100 <= total
    ensures p * total / 100 <= p * (total + 1) / 100 <= p * total / 100 + 1
  {
    assert p * (total + 1) == p * total + p;
    assert 0 <= p * total <= 100 * total;
  }

  lemma PercentOutside(p: int, total: nat)
    ensures p < 0 ==> p * total / 100 <= 0
    ensures 100 < p ==> p * total / 100 >= total
  {
    if p < 0 {
      assert p * total <= 0;
    } else if 100 < p {
      assert p * total >= 100 * total;
    }
  }

  /** One more pod raises the quota by nothing or by one, whatever the rule. */
  lemma QuotaStep(rule: Rule, total: nat)
    requires rule.Valid()
    ensures QuotaFor(rule, total) <= QuotaFor(rule, total + 1) <= QuotaFor(rule, total) + 1
  {
    if rule.size.Percent? {
      var p := rule.size.p;
      if 0 <= p <= 100 {
        PercentStep(p, total);
        PercentStep(p, total + 1);
      } else {
        PercentOutside(p, total);
        PercentOutside(p, total + 1);
      }
    }
  }

  lemma {:induction false} QuotaMonotone(rule: Rule, small: nat, large: nat)
    requires rule.Valid() && small <= large
    ensures QuotaFor(rule, small) <= QuotaFor(rule, large)
    ensures QuotaFor(rule, large) - QuotaFor(rule, small) <= large - small
    decreases large - small
  {
    if small < large {
      QuotaStep(rule, small);
      QuotaMonotone(rule, small + 1, large);
    }
  }

  /** The quota as a function of the number of pods. */
  function Curve(rule: Rule): nat -> nat
    requires rule.Valid()
  {
    (total: nat) => QuotaFor(rule, total)
  }

  predicate RisesGently(q: nat -> nat, m: nat, n: nat) {
    m <= n ==> q(m) <= q(n) <= q(m) + n - m
  }

  /** Rising by at most as much as the argument does. */
  ghost predicate Steady(q: nat -> nat) {
    forall m, n :: RisesGently(q, m, n)
  }

  lemma CurveIsSteady(rule: Rule)
    requires rule.Valid()
    ensures Steady(Curve(rule))
  {
    forall m: nat, n: nat
      ensures RisesGently(Curve(rule), m, n)
    {
      if m <= n {
        QuotaMonotone(rule, m, n);
      }
    }
  }

  /** The pods that the target size speaks of: those on the node group, or under MustNot those off it. */
  function Addressed(rule: Rule, total: nat, onGroup: nat): int {
    if rule.action.MustNot? then total - onGroup else onGroup
  }

  /** A count is met as far as there are pods; a percentage from 0 to 100 is met rounded down; others saturate. */
  lemma QuotaMeaning(rule: Rule, total: nat)
    requires rule.Valid()
    ensures var met := Addressed(rule, total, QuotaFor(rule, total));
            match rule.size
            case Count(n) => met == if n < 0 then 0 else if n > total then total else n
            case Percent(p) =>
              if p < 0 then met == 0
              else if p > 100 then met == total
              else 0 <= met <= total && 100 * met <= p * total < 100 * met + 100
            case Malformed => true
  {
    if rule.size.Percent? {
      PercentOutside(rule.size.p, total);
      if 0 <= rule.size.p <= 100 {
        PercentStep(rule.size.p, total);
      }
    }
  }

  /** MustNot leaves to the node group what Must, or any other action, would have left out of it. */
  lemma MustNotIsComplement(size: TargetSize, other: Action, total: nat)
    requires !size.Malformed? && !other.MustNot?
    ensures QuotaFor(Rule(MustNot, size), total) == total - QuotaFor(Rule(other, size), total)
  {
  }
}
