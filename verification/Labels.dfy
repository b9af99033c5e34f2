/** Label maps, and the two different ways the scheduler reads them: the plugin's own matching loops
    and the selector that the pod lister applies. */
module Labels {
  import Prelude

  type LabelMap = map<string, string>

  /** Go's `m[k]`: a missing key reads as the empty string. */
  function Get(m: LabelMap, k: string): string {
    if k in m then m[k] else ""
  }

  /** What the matching loops decide. */
  predicate Matches(l: LabelMap, want: LabelMap) {
    && |want| <= |l|
    && forall k | k in want :: Get(l, k) == want[k]
  }

  /** What `labels.Set(want).AsSelector()` decides: every wanted key is present with the wanted value. */
  predicate Selects(want: LabelMap, l: LabelMap) {
    forall k | k in want :: k in l && l[k] == want[k]
  }

  predicate NoEmptyValue(want: LabelMap) {
    forall k | k in want :: want[k] != ""
  }

  /** In terms of the maps alone: a wanted empty value is also met by a missing key, any other has to be there. */
  lemma MatchesIff(l: LabelMap, want: LabelMap)
    ensures Matches(l, want) <==>
              && |want| <= |l|
              && forall k | k in want :: if want[k] == "" then k in l ==> l[k] == "" else k in l && l[k] == want[k]
  {
    forall k | k in want
      ensures Get(l, k) == want[k] <==>
                if want[k] == "" then k in l ==> l[k] == "" else k in l && l[k] == want[k]
    {
    }
  }

  method HasMatchingLabels(l: LabelMap, want: LabelMap) returns (r: bool)
    ensures r == Matches(l, want)
    ensures r <==> && |want| <= |l|
                   && forall k | k in want ::
                        if want[k] == "" then k in l ==> l[k] == "" else k in l && l[k] == want[k]
  {
    if |l| < |want| {
      return false;
    }
    var rest := want.Keys;
    while rest != {}
      invariant rest <= want.Keys
      invariant forall k | k in want && k !in rest :: Get(l, k) == want[k]
      decreases rest
    {
      var k :| k in rest;
      if Get(l, k) != want[k] {
        return false;
      }
      rest := rest - {k};
    }
    return true;
  }

  /** A selected map always matches: the length test of the loops is implied. */
  lemma SelectedMatches(l: LabelMap, want: LabelMap)
    requires Selects(want, l)
    ensures Matches(l, want)
  {
    assert want.Keys <= l.Keys;
    Prelude.SubsetSize(want.Keys, l.Keys);
    assert |want.Keys| == |want| && |l.Keys| == |l|;
  }

  /** Without empty wanted values, the loops compute submap inclusion. */
  lemma MatchesIsSelection(l: LabelMap, want: LabelMap)
    requires NoEmptyValue(want)
    ensures Matches(l, want) <==> Selects(want, l)
  {
    if Selects(want, l) {
      SelectedMatches(l, want);
    }
  }

  lemma FreshKey(keys: set<string>) returns (k: string)
    ensures k !in keys
  {
    var rest: set<string>, n: nat := keys, 0;
    while rest != {}
      invariant rest <= keys
      invariant forall x | x in keys && x !in rest :: |x| < n
      decreases rest
    {
      var x :| x in rest;
      rest, n := rest - {x}, if |x| < n then n else |x| + 1;
    }
    k := seq(n, _ => 'x');
  }

  /** The two readings agree on every label set exactly when no wanted value is empty. */
  lemma ReadingsAgreeIff(want: LabelMap)
    ensures (forall l: LabelMap :: Matches(l, want) == Selects(want, l)) <==> NoEmptyValue(want)
  {
    if NoEmptyValue(want) {
      forall l: LabelMap
        ensures Matches(l, want) == Selects(want, l)
      {
        MatchesIsSelection(l, want);
      }
    } else {
      var k :| k in want && want[k] == "";
      var pad := FreshKey(want.Keys);
      var smaller := want - {k};
      var l := smaller[pad := ""];
      assert want.Keys == smaller.Keys + {k};
      assert l.Keys == smaller.Keys + {pad};
      assert |l.Keys| == |want.Keys|;
      assert |l| == |l.Keys| && |want| == |want.Keys|;
      assert Matches(l, want) && !Selects(want, l);
    }
  }
}
