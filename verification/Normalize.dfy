/** NormalizeScore: rescaling node scores in place, in Go's 64-bit arithmetic. */
module Normalize {
  import Prelude

  const MAX_INT64 := 0x7FFF_FFFF_FFFF_FFFF
  const MIN_INT64 := -0x8000_0000_0000_0000
  const MIN_NODE_SCORE := 0
  const MAX_NODE_SCORE := 100

  type Int64 = x: int | MIN_INT64 <= x <= MAX_INT64

  datatype NodeScore = NodeScore(name: string, score: Int64)

  /** Two's-complement wrap-around. */
  function Wrap(x: int): Int64 {
    (x - MIN_INT64) % 0x1_0000_0000_0000_0000 + MIN_INT64
  }

  function Abs(x: int): int {
    if x < 0 then -x else x
  }

  /** Go's integer division, which truncates toward zero. */
  function Quotient(x: Int64, y: Int64): Int64
    requires y != 0
  {
    var magnitude := Abs(x) / Abs(y);
    Wrap(if (x < 0) == (y < 0) then magnitude else -magnitude)
  }

  function Highest(s: seq<NodeScore>): Int64 {
    if s == [] then -MAX_INT64
    else
      var h, last := Highest(s[..|s| - 1]), s[|s| - 1].score;
      if last > h then last else h
  }

  function Lowest(s: seq<NodeScore>): Int64 {
    if s == [] then MAX_INT64
    else
      var l, last := Lowest(s[..|s| - 1]), s[|s| - 1].score;
      if last < l then last else l
  }

  /** One assignment of the second loop; equal scores leave `oldRange` 0. */
  function Rescaled(x: Int64, lowest: Int64, oldRange: Int64): Int64 {
    if oldRange == 0 then MIN_NODE_SCORE
    else
      var newRange := MAX_NODE_SCORE - MIN_NODE_SCORE;
      Wrap(Quotient(Wrap(Wrap(x - lowest) * newRange), oldRange) + MIN_NODE_SCORE)
  }

  function Normalized(s: seq<NodeScore>): (r: seq<NodeScore>)
    ensures |r| == |s|
  {
    var lowest, oldRange := Lowest(s), Wrap(Highest(s) - Lowest(s));
    seq(|s|, i requires 0 <= i < |s| => s[i].(score := Rescaled(s[i].score, lowest, oldRange)))
  }

  method NormalizeScore(scores: array<NodeScore>)
    modifies scores
    ensures scores[..] == Normalized(old(scores[..]))
  {
    var highest: Int64 := -MAX_INT64;
    var lowest: Int64 := MAX_INT64;
    for i := 0 to scores.Length
      invariant highest == Highest(scores[..i]) && lowest == Lowest(scores[..i])
    {
      assert scores[..i + 1][..i] == scores[..i];
      if scores[i].score > highest {
        highest := scores[i].score;
      }
      if scores[i].score < lowest {
        lowest := scores[i].score;
      }
    }
    assert scores[..scores.Length] == scores[..];
    RescaleAll(scores, lowest, Wrap(highest - lowest));
  }

  /** The second loop of NormalizeScore. */
  method RescaleAll(scores: array<NodeScore>, lowest: Int64, oldRange: Int64)
    modifies scores
    ensures forall k | 0 <= k < scores.Length ::
              scores[k] == old(scores[k]).(score := Rescaled(old(scores[k].score), lowest, oldRange))
  {
    for i := 0 to scores.Length
      invariant forall k | i <= k < scores.Length :: scores[k] == old(scores[k])
      invariant forall k | 0 <= k < i ::
                  scores[k] == old(scores[k]).(score := Rescaled(old(scores[k].score), lowest, oldRange))
    {
      var nodeScore := scores[i];
      scores[i] := scores[i].(score := Rescaled(nodeScore.score, lowest, oldRange));
    }
  }

  // The arithmetic.

  /** The one 64-bit value that is congruent. */
  lemma WrapMeaning(x: int)
    ensures -0x8000_0000_0000_0000 <= Wrap(x) <= 0x7FFF_FFFF_FFFF_FFFF
    ensures (Wrap(x) - x) % 0x1_0000_0000_0000_0000 == 0
  {
  }

  lemma WrapShifted(x: int, k: int)
    ensures Wrap(x + k * 0x1_0000_0000_0000_0000) == Wrap(x)
  {
  }

  lemma SignedProducts(m: int, d: int)
    ensures m * -d == -(m * d) && -m * d == -(m * d) && -m * -d == m * d
  {
  }

  lemma TwiceTheQuotient(m: nat, d: nat, a: nat)
    requires 2 <= d && m * d <= a
    ensures 2 * m <= a
  {
    if 0 < m {
      ProductOrder(2, d, m);
    }
  }

  /** How far the magnitude of a quotient gets. */
  lemma MagnitudeBounds(a: nat, d: nat)
    requires 0 < d
    ensures var m := a / d; 0 <= m <= a && m * d <= a < m * d + d && (2 <= d ==> 2 * m <= a)
  {
    QuotientRange(a, d);
    var m := a / d;
    assert m * d <= a < m * d + d;
    if 2 <= d {
      TwiceTheQuotient(m, d, a);
    }
  }

  lemma QuotientFits(x: Int64, y: Int64)
    requires y != 0 && !(x == MIN_INT64 && y == -1)
    ensures Quotient(x, y) == if (x < 0) == (y < 0) then Abs(x) / Abs(y) else -(Abs(x) / Abs(y))
  {
    MagnitudeBounds(Abs(x), Abs(y));
    WrapId(if (x < 0) == (y < 0) then Abs(x) / Abs(y) else -(Abs(x) / Abs(y)));
  }

  lemma LeastByMinusOne()
    ensures Quotient(MIN_INT64, -1) == MIN_INT64
  {
    QuotientIs(Abs(MIN_INT64), Abs(MIN_INT64), 1);
  }

  /** Truncation toward zero; only the least value divided by -1 does not fit, and wraps. */
  lemma QuotientTruncates(x: Int64, y: Int64)
    requires y != 0
    ensures x == MIN_INT64 && y == -1 ==> Quotient(x, y) == MIN_INT64
    ensures !(x == MIN_INT64 && y == -1) ==>
              var whole := Quotient(x, y) * y;
              && (0 <= x ==> 0 <= whole <= x < whole + Abs(y))
              && (x <= 0 ==> whole - Abs(y) < x <= whole <= 0)
  {
    if x == MIN_INT64 && y == -1 {
      LeastByMinusOne();
    } else {
      QuotientFits(x, y);
      MagnitudeBounds(Abs(x), Abs(y));
      SignedProducts(Abs(x) / Abs(y), Abs(y));
    }
  }

  /** Of the wrapped intermediate results only the product matters. */
  lemma RescaledWraps(x: Int64, lowest: Int64, oldRange: Int64)
    ensures Rescaled(x, lowest, oldRange)
         == if oldRange == 0 then 0 else Quotient(Wrap((x - lowest) * 100), oldRange)
  {
    var k := (Wrap(x - lowest) - (x - lowest)) / 0x1_0000_0000_0000_0000;
    WrapMeaning(x - lowest);
    WrapShifted((x - lowest) * 100, k * 100);
    assert Wrap(x - lowest) * 100 == (x - lowest) * 100 + k * 100 * 0x1_0000_0000_0000_0000;
    if oldRange != 0 {
      WrapId(Quotient(Wrap((x - lowest) * 100), oldRange));
    }
  }

  /** Scores that are all the least value get a range of 1 from the start value of the scan, which changes nothing. */
  lemma LeastScores()
    ensures Rescaled(MIN_INT64, MIN_INT64, Wrap(-MAX_INT64 - MIN_INT64)) == 0
  {
    WrapId(0);
    WrapId(1);
    QuotientIs(0, 0, 1);
  }

  lemma GeneralValue(x: Int64, low: Int64, high: Int64)
    requires low <= x <= high
    ensures var range, scanned := Wrap(high - low), Wrap(Prelude.Max(high, -MAX_INT64) - low);
            Rescaled(x, low, scanned) == if range == 0 then 0 else Quotient(Wrap((x - low) * 100), range)
  {
    if high == MIN_INT64 {
      LeastScores();
      WrapId(0);
    } else {
      RescaledWraps(x, low, Wrap(high - low));
    }
  }

  /** For any scores at all: which quotient of wrapped numbers each score becomes. */
  lemma NormalizedInGeneral(s: seq<NodeScore>, lo: nat, hi: nat, k: nat)
    requires Extremes(s, lo, hi) && k < |s|
    ensures var range := Wrap(s[hi].score - s[lo].score);
            && Normalized(s)[k].name == s[k].name
            && Normalized(s)[k].score
            == if range == 0 then 0 else Quotient(Wrap((s[k].score - s[lo].score) * 100), range)
  {
    var low, high, x := s[lo].score, s[hi].score, s[k].score;
    assert low <= x <= high;
    ScanFindsExtremes(s, lo, hi);
    assert Normalized(s)[k] == s[k].(score := Rescaled(x, low, Wrap(Prelude.Max(high, -MAX_INT64) - low)));
    GeneralValue(x, low, high);
  }

  // What the rescaling means.

  /** `i` holds a least, `j` a greatest score. */
  predicate Extremes(s: seq<NodeScore>, i: nat, j: nat) {
    && i < |s| && j < |s|
    && forall k | 0 <= k < |s| :: s[i].score <= s[k].score <= s[j].score
  }

  lemma {:induction false} ExtremesExist(s: seq<NodeScore>) returns (i: nat, j: nat)
    requires s != []
    ensures Extremes(s, i, j)
  {
    if |s| == 1 {
      i, j := 0, 0;
    } else {
      var front, last := s[..|s| - 1], s[|s| - 1];
      i, j := ExtremesExist(front);
      assert forall k | 0 <= k < |s| - 1 :: s[k] == front[k];
      i, j := if last.score < s[i].score then |s| - 1 else i, if last.score > s[j].score then |s| - 1 else j;
    }
  }

  /** The loop finds the extremes, save that scores that are all MIN_INT64 lie below its start value. */
  lemma {:induction false} ScanFindsExtremes(s: seq<NodeScore>, i: nat, j: nat)
    requires Extremes(s, i, j)
    ensures Lowest(s) == s[i].score
    ensures Highest(s) == Prelude.Max(s[j].score, -MAX_INT64)
  {
    if |s| > 1 {
      var front, last := s[..|s| - 1], s[|s| - 1];
      assert forall k | 0 <= k < |front| :: s[k] == front[k];
      var x, y := ExtremesExist(front);
      ScanFindsExtremes(front, x, y);
      assert s[i].score <= front[x].score && s[j].score >= front[y].score;
      if i < |front| {
        assert front[x].score <= front[i].score;
      }
      if j < |front| {
        assert front[y].score >= front[j].score;
      }
    }
  }

  /** No difference of two scores is larger than `range`. */
  predicate Within(s: seq<NodeScore>, range: int) {
    forall i, j | 0 <= i < |s| && 0 <= j < |s| :: s[i].score - s[j].score <= range
  }

  lemma WrapId(x: int)
    requires MIN_INT64 <= x <= MAX_INT64
    ensures Wrap(x) == x
  {
  }

  lemma ProductOrder(x: int, y: int, d: int)
    requires 0 < d
    ensures x <= y ==> x * d <= y * d
    ensures x < y ==> x * d + d <= y * d
  {
    var gap := y - x;
    assert y * d == x * d + gap * d;
    if 0 <= gap {
      assert 0 <= gap * d;
    }
    if 1 <= gap {
      assert gap * d == (gap - 1) * d + d;
      assert 0 <= (gap - 1) * d;
    }
  }

  lemma QuotientIs(a: int, q: int, d: int)
    requires 0 < d && q * d <= a < q * d + d
    ensures a / d == q
  {
    var p := a / d;
    assert p * d <= a < p * d + d;
    ProductOrder(p, q, d);
    ProductOrder(q, p, d);
  }

  lemma DivMonotone(a: int, b: int, d: int)
    requires a <= b && 0 < d
    ensures a / d <= b / d
  {
    var p, q := a / d, b / d;
    assert p * d <= a && b < q * d + d;
    ProductOrder(q, p, d);
  }

  lemma ScaledBounds(x: int, y: int, range: int)
    requires 0 <= x <= y <= range && 0 < range
    ensures 0 <= x * 100 / range <= y * 100 / range <= 100
    ensures range <= 100 && x < y ==> x * 100 / range < y * 100 / range
    ensures y == range ==> y * 100 / range == 100
    ensures x == 0 ==> x * 100 / range == 0
  {
    QuotientIs(0, 0, range);
    QuotientIs(100 * range, 100, range);
    DivMonotone(0, x * 100, range);
    DivMonotone(x * 100, y * 100, range);
    DivMonotone(y * 100, 100 * range, range);
    if range <= 100 && x < y {
      var q := x * 100 / range;
      assert q * range <= x * 100 < q * range + range;
      assert (q + 1) * range == q * range + range;
      QuotientIs(x * 100 + range, q + 1, range);
      DivMonotone(x * 100 + range, y * 100, range);
    }
  }

  lemma QuotientRange(a: nat, d: nat)
    requires 0 < d
    ensures 0 <= a / d <= a
  {
    var p := a / d;
    assert p * d <= a < p * d + d;
    ProductOrder(0, p, d);
    ProductOrder(p, 0, d);
    ProductOrder(1, d, if 0 < p then p else 1);
  }

  lemma QuotientOfNonnegative(x: Int64, y: Int64)
    requires 0 <= x && 0 < y
    ensures Quotient(x, y) == x / y
  {
    QuotientRange(x, y);
    WrapId(x / y);
  }

  lemma RescaledValue(x: Int64, low: Int64, high: Int64)
    requires low <= x <= high && high - low <= MAX_INT64 / 100
    ensures Rescaled(x, low, Wrap(high - low)) == if high == low then 0 else (x - low) * 100 / (high - low)
  {
    var range, d := high - low, x - low;
    WrapId(range);
    WrapId(d);
    WrapId(d * 100);
    if range != 0 {
      QuotientOfNonnegative(d * 100, range);
      WrapId(d * 100 / range);
    }
  }

  /** With a range of at most MAX_INT64 / 100 nothing overflows: the result is the exact rescaling. */
  lemma RescaledExactly(s: seq<NodeScore>, lo: nat, hi: nat, k: nat)
    requires Extremes(s, lo, hi) && k < |s| && Within(s, MAX_INT64 / 100)
    ensures var range := s[hi].score - s[lo].score;
            Normalized(s)[k].score == if range == 0 then 0 else (s[k].score - s[lo].score) * 100 / range
  {
    ScanFindsExtremes(s, lo, hi);
    RescaledValue(s[k].score, Lowest(s), Highest(s));
    if s[hi].score < -MAX_INT64 {
      QuotientIs(0, 0, 1);
    }
  }

  /** Every result is in [0, 100]; least scores go to 0 and, unless all scores are equal, greatest ones to 100;
      order is kept, strictly when the range is at most 100. */
  lemma NormalizedIsRescaling(s: seq<NodeScore>, i: nat, j: nat)
    requires i < |s| && j < |s| && Within(s, MAX_INT64 / 100)
    ensures Normalized(s)[i].name == s[i].name
    ensures MIN_NODE_SCORE <= Normalized(s)[i].score <= MAX_NODE_SCORE
    ensures (forall k | 0 <= k < |s| :: s[i].score <= s[k].score) ==> Normalized(s)[i].score == MIN_NODE_SCORE
    ensures ((forall k | 0 <= k < |s| :: s[k].score <= s[j].score) && s[i].score < s[j].score)
        ==> Normalized(s)[j].score == MAX_NODE_SCORE
    ensures s[i].score <= s[j].score ==> Normalized(s)[i].score <= Normalized(s)[j].score
    ensures Within(s, 100) && s[i].score < s[j].score ==> Normalized(s)[i].score < Normalized(s)[j].score
  {
    var lo, hi := ExtremesExist(s);
    RescaledExactly(s, lo, hi, i);
    RescaledExactly(s, lo, hi, j);
    var range := s[hi].score - s[lo].score;
    var x, y := s[i].score - s[lo].score, s[j].score - s[lo].score;
    assert 0 <= x <= range && 0 <= y <= range;
    if range != 0 {
      ScaledBounds(x, x, range);
      ScaledBounds(y, y, range);
      if x <= y {
        ScaledBounds(x, y, range);
      }
    }
  }

  lemma EqualScoresVanish(s: seq<NodeScore>, k: nat)
    requires k < |s| && Within(s, 0)
    ensures Normalized(s)[k].score == MIN_NODE_SCORE
  {
    assert forall m | 0 <= m < |s| :: s[k].score - s[m].score <= 0;
    NormalizedIsRescaling(s, k, k);
  }

  lemma NormalizedExtremes(s: seq<NodeScore>, lo: nat, hi: nat)
    requires Extremes(s, lo, hi) && Within(s, MAX_INT64 / 100)
    ensures var r := Normalized(s);
            && Extremes(r, lo, hi) && Within(r, 100) && r[lo].score == 0
            && r[hi].score == if s[lo].score == s[hi].score then 0 else 100
  {
    var r := Normalized(s);
    forall k | 0 <= k < |s|
      ensures r[lo].score <= r[k].score <= r[hi].score && 0 <= r[k].score <= 100
    {
      NormalizedIsRescaling(s, lo, k);
      NormalizedIsRescaling(s, k, hi);
    }
    NormalizedIsRescaling(s, lo, hi);
  }

  /** Normalizing a second time changes nothing. */
  lemma NormalizedIdempotent(s: seq<NodeScore>)
    requires Within(s, MAX_INT64 / 100)
    ensures Normalized(Normalized(s)) == Normalized(s)
  {
    if s != [] {
      var r := Normalized(s);
      var lo, hi := ExtremesExist(s);
      NormalizedExtremes(s, lo, hi);
      forall k | 0 <= k < |s|
        ensures Normalized(r)[k] == r[k]
      {
        RescaledExactly(r, lo, hi, k);
        QuotientIs(r[k].score * 100, r[k].score, 100);
      }
    }
  }

  /** Past that range the greatest score no longer goes to 100, as long as the range itself fits in 64 bits. */
  lemma GreatestReaches100Iff(s: seq<NodeScore>, lo: nat, hi: nat)
    requires Extremes(s, lo, hi) && s[lo].score < s[hi].score && Within(s, MAX_INT64)
    ensures Normalized(s)[hi].score == MAX_NODE_SCORE <==> s[hi].score - s[lo].score <= MAX_INT64 / 100
  {
    ScanFindsExtremes(s, lo, hi);
    TopValue(s[lo].score, s[hi].score);
  }

  lemma TopValue(low: Int64, high: Int64)
    requires 0 < high - low <= MAX_INT64
    ensures Rescaled(high, low, Wrap(high - low)) == MAX_NODE_SCORE <==> high - low <= MAX_INT64 / 100
  {
    var range := high - low;
    WrapId(range);
    if range <= MAX_INT64 / 100 {
      RescaledValue(high, low, high);
      QuotientIs(range * 100, 100, range);
    } else {
      OverflowedQuotient(Wrap(range * 100), range);
      WrapId(Quotient(Wrap(range * 100), range));
    }
  }

  /** A wrapped product is too small, so its quotient falls short of 100. */
  lemma OverflowedQuotient(product: Int64, range: Int64)
    requires 0 < range && product < range * 100
    ensures Quotient(product, range) < 100
  {
    QuotientRange(Abs(product), range);
    if 0 <= product {
      QuotientBelow(product, 100, range);
    }
  }

  lemma QuotientBelow(a: nat, q: nat, d: nat)
    requires 0 < d && a < q * d
    ensures a / d < q
  {
    var p := a / d;
    assert p * d <= a;
    ProductOrder(q, p, d);
  }
}
