/**
 * Scoring primitives of the matcher: per-client-type family weights, the weighted
 * Jaccard overlap of tag families, the top shared terms of two texts and the linear
 * blend of the semantic, lexical and taxonomy scores.
 *
 * `BASE_FAMILY_WEIGHTS` and `MATCH_WEIGHTS` are constants of the program whose values
 * are not part of this model; they enter as parameters.
 */
module Matching {
  import opened Wrappers
  import opened Strings
  import Sorting
  import TextProcessing
  import Features

  // ---------------------------------------------------------------------------
  // Family weights
  // ---------------------------------------------------------------------------

  /** One entry of a family-weight dict. */
  datatype Weight = Weight(family: string, value: real)

  /** A family-weight dict in insertion order. */
  type FamilyWeights = seq<Weight>

  function Families(w: FamilyWeights): (r: seq<string>)
    ensures |r| == |w|
  {
    seq(|w|, i requires 0 <= i < |w| => w[i].family)
  }

  /** Dict keys are distinct. */
  predicate DistinctFamilies(w: FamilyWeights) {
    forall i, j :: 0 <= i < j < |w| ==> w[i].family != w[j].family
  }

  predicate HasFamily(w: FamilyWeights, f: string) {
    exists i :: 0 <= i < |w| && w[i].family == f
  }

  /** `sum(weights.values())`. */
  function Sum(w: FamilyWeights): real {
    if w == [] then 0.0 else Sum(w[..|w| - 1]) + w[|w| - 1].value
  }

  predicate AllPositive(w: FamilyWeights) {
    forall i :: 0 <= i < |w| ==> w[i].value > 0.0
  }

  /** `weights[f] += d`. */
  function Bump(w: FamilyWeights, f: string, d: real): (r: FamilyWeights)
    ensures Families(r) == Families(w)
  {
    seq(|w|, i requires 0 <= i < |w| => if w[i].family == f then Weight(f, w[i].value + d) else w[i])
  }

  /** The adjustments of one client-type branch, as (family, delta) entries. */
  function BumpsFor(clientType: string): FamilyWeights {
    if StartsWith(clientType, "HF_") then
      [Weight("INTENT", 0.05), Weight("THEME", 0.05), Weight("PRODUCT", -0.05), Weight("MARKET", -0.05)]
    else if StartsWith(clientType, "ASSET_MANAGER_") then
      [Weight("PRODUCT", 0.05), Weight("RISK", 0.03), Weight("TENOR", 0.02),
       Weight("INTENT", -0.05), Weight("THEME", -0.05)]
    else if clientType == "BANK" then
      [Weight("PRODUCT", 0.05), Weight("MARKET", 0.05), Weight("INTENT", -0.05), Weight("THEME", -0.05)]
    else []
  }

  /** Applies the adjustments in order. */
  function ApplyBumps(w: FamilyWeights, bumps: FamilyWeights): (r: FamilyWeights)
    ensures Families(r) == Families(w)
    decreases |bumps|
  {
    if bumps == [] then w else ApplyBumps(Bump(w, bumps[0].family, bumps[0].value), bumps[1..])
  }

  /** The branch of `client_type` applies only to families the base weights have (else KeyError). */
  predicate BranchFamiliesPresent(clientType: string, base: FamilyWeights) {
    forall i :: 0 <= i < |BumpsFor(clientType)| ==> HasFamily(base, BumpsFor(clientType)[i].family)
  }

  const MinWeight: real := 0.01

  /** `max(value, 0.01)`. */
  function ClampOne(x: Weight): Weight {
    Weight(x.family, if x.value >= MinWeight then x.value else MinWeight)
  }

  /** `weights[key] = max(weights[key], 0.01)` for every key. */
  function Clamped(w: FamilyWeights): (r: FamilyWeights)
    ensures Families(r) == Families(w)
    ensures forall i :: 0 <= i < |r| ==> r[i].value >= MinWeight
  {
    seq(|w|, i requires 0 <= i < |w| => ClampOne(w[i]))
  }

  /** `{k: v / total for k, v in weights.items()}`. */
  function Normalized(w: FamilyWeights): (r: FamilyWeights)
    requires AllPositive(w)
    ensures Families(r) == Families(w)
  {
    if w == [] then []
    else
      SumPositive(w);
      var total := Sum(w);
      seq(|w|, i requires 0 <= i < |w| => Weight(w[i].family, w[i].value / total))
  }

  /** What `adjusted_family_weights(client_type)` returns. */
  function AdjustedWeights(clientType: string, base: FamilyWeights): FamilyWeights {
    Normalized(Clamped(ApplyBumps(base, BumpsFor(clientType))))
  }

  /** `adjusted_family_weights`. */
  method AdjustedFamilyWeights(clientType: string, base: FamilyWeights) returns (r: FamilyWeights)
    requires DistinctFamilies(base)
    requires BranchFamiliesPresent(clientType, base)
    ensures r == AdjustedWeights(clientType, base)
  {
    var weights := base;
    if StartsWith(clientType, "HF_") {
      weights := Bump(weights, "INTENT", 0.05);
      weights := Bump(weights, "THEME", 0.05);
      weights := Bump(weights, "PRODUCT", -0.05);
      weights := Bump(weights, "MARKET", -0.05);
    } else if StartsWith(clientType, "ASSET_MANAGER_") {
      weights := Bump(weights, "PRODUCT", 0.05);
      weights := Bump(weights, "RISK", 0.03);
      weights := Bump(weights, "TENOR", 0.02);
      weights := Bump(weights, "INTENT", -0.05);
      weights := Bump(weights, "THEME", -0.05);
    } else if clientType == "BANK" {
      weights := Bump(weights, "PRODUCT", 0.05);
      weights := Bump(weights, "MARKET", 0.05);
      weights := Bump(weights, "INTENT", -0.05);
      weights := Bump(weights, "THEME", -0.05);
    }
    ApplyBumpsOfBranch(clientType, base);
    weights := ClampWeights(weights);
    r := Normalized(weights);
  }

  /** The clamping loop: each weight below 0.01 is raised to it, in place. */
  method ClampWeights(bumped: FamilyWeights) returns (weights: FamilyWeights)
    ensures weights == Clamped(bumped)
  {
    weights := bumped;
    for i := 0 to |weights|
      invariant |weights| == |bumped|
      invariant forall j :: 0 <= j < i ==> weights[j] == ClampOne(bumped[j])
      invariant forall j :: i <= j < |weights| ==> weights[j] == bumped[j]
    {
      if weights[i].value < MinWeight {
        weights := weights[i := Weight(weights[i].family, MinWeight)];
      }
    }
  }

  /** The branch's adjustments, applied one after the other. */
  lemma ApplyBumpsOfBranch(clientType: string, base: FamilyWeights)
    ensures ApplyBumps(base, BumpsFor(clientType)) ==
      if StartsWith(clientType, "HF_") then
        Bump(Bump(Bump(Bump(base, "INTENT", 0.05), "THEME", 0.05), "PRODUCT", -0.05), "MARKET", -0.05)
      else if StartsWith(clientType, "ASSET_MANAGER_") then
        Bump(Bump(Bump(Bump(Bump(base, "PRODUCT", 0.05), "RISK", 0.03), "TENOR", 0.02), "INTENT", -0.05), "THEME", -0.05)
      else if clientType == "BANK" then
        Bump(Bump(Bump(Bump(base, "PRODUCT", 0.05), "MARKET", 0.05), "INTENT", -0.05), "THEME", -0.05)
      else base
  {
    var bs := BumpsFor(clientType);
    if |bs| >= 4 {
      var w1 := Bump(base, bs[0].family, bs[0].value);
      var w2 := Bump(w1, bs[1].family, bs[1].value);
      var w3 := Bump(w2, bs[2].family, bs[2].value);
      var w4 := Bump(w3, bs[3].family, bs[3].value);
      assert ApplyBumps(base, bs) == ApplyBumps(w1, bs[1..]);
      assert ApplyBumps(w1, bs[1..]) == ApplyBumps(w2, bs[2..]);
      assert ApplyBumps(w2, bs[2..]) == ApplyBumps(w3, bs[3..]);
      assert ApplyBumps(w3, bs[3..]) == ApplyBumps(w4, bs[4..]);
      if |bs| == 5 {
        assert ApplyBumps(w4, bs[4..]) == ApplyBumps(Bump(w4, bs[4].family, bs[4].value), bs[5..]);
      }
    }
  }

  /** The deltas of every branch cancel out. */
  lemma BranchDeltasCancel(clientType: string)
    ensures DeltaSum(BumpsFor(clientType)) == 0.0
  {
    var bs := BumpsFor(clientType);
    if bs != [] {
      assert DeltaSum(bs) == bs[0].value + DeltaSum(bs[1..]);
      assert DeltaSum(bs[1..]) == bs[1].value + DeltaSum(bs[2..]);
      assert DeltaSum(bs[2..]) == bs[2].value + DeltaSum(bs[3..]);
      assert DeltaSum(bs[3..]) == bs[3].value + DeltaSum(bs[4..]);
      if |bs| == 5 {
        assert DeltaSum(bs[4..]) == bs[4].value + DeltaSum(bs[5..]);
      }
    }
  }

  lemma {:induction false} SumPositive(w: FamilyWeights)
    requires AllPositive(w)
    ensures w != [] ==> Sum(w) > 0.0
    ensures Sum(w) >= 0.0
    decreases |w|
  {
    if w != [] {
      SumPositive(w[..|w| - 1]);
    }
  }

  lemma DivAdd(a: real, b: real, t: real)
    requires t > 0.0
    ensures a / t + b / t == (a + b) / t
  {
    assert (a / t) * t == a && (b / t) * t == b && ((a + b) / t) * t == a + b;
    assert (a / t + b / t) * t == a + b;
  }

  /** Dividing every weight by `t` divides the sum by `t`. */
  lemma {:induction false} SumScaled(w: FamilyWeights, t: real)
    requires t > 0.0
    ensures Sum(seq(|w|, i requires 0 <= i < |w| => Weight(w[i].family, w[i].value / t))) == Sum(w) / t
    decreases |w|
  {
    var s := seq(|w|, i requires 0 <= i < |w| => Weight(w[i].family, w[i].value / t));
    if w == [] {
    } else {
      var p := w[..|w| - 1];
      SumScaled(p, t);
      assert s[..|s| - 1] == seq(|p|, i requires 0 <= i < |p| => Weight(p[i].family, p[i].value / t));
      DivAdd(Sum(p), w[|w| - 1].value, t);
    }
  }

  /** Adjusted weights keep the base families, in order. */
  lemma AdjustedFamilies(clientType: string, base: FamilyWeights)
    ensures Families(AdjustedWeights(clientType, base)) == Families(base)
  {
  }

  /** Normalising positive weights keeps them positive and makes them sum to 1. */
  lemma NormalizedSumsToOne(w: FamilyWeights)
    requires AllPositive(w)
    ensures AllPositive(Normalized(w))
    ensures w != [] ==> Sum(Normalized(w)) == 1.0
  {
    if w != [] {
      SumPositive(w);
      var total := Sum(w);
      var r := Normalized(w);
      forall i | 0 <= i < |r| ensures r[i].value > 0.0 {
        assert r[i].value == w[i].value / total;
        assert r[i].value * total == w[i].value;
      }
      SumScaled(w, total);
      Features.SelfRatio(total);
    }
  }

  /** Every adjusted weight is strictly positive, and together they sum to 1. */
  lemma AdjustedNormalized(clientType: string, base: FamilyWeights)
    ensures AllPositive(AdjustedWeights(clientType, base))
    ensures base != [] ==> Sum(AdjustedWeights(clientType, base)) == 1.0
  {
    NormalizedSumsToOne(Clamped(ApplyBumps(base, BumpsFor(clientType))));
  }

  /** Raising the value at one index by `d` raises the sum by `d`. */
  lemma {:induction false} SumUpdate(w: FamilyWeights, k: nat, d: real)
    requires k < |w|
    ensures Sum(w[k := Weight(w[k].family, w[k].value + d)]) == Sum(w) + d
    decreases |w|
  {
    var u := w[k := Weight(w[k].family, w[k].value + d)];
    assert u[..|u| - 1] == if k == |w| - 1 then w[..|w| - 1] else w[..|w| - 1][k := Weight(w[k].family, w[k].value + d)];
    if k < |w| - 1 {
      SumUpdate(w[..|w| - 1], k, d);
    }
  }

  /** With distinct families, `weights[f] += d` raises the total by `d`. */
  lemma BumpSum(w: FamilyWeights, f: string, d: real)
    requires DistinctFamilies(w) && HasFamily(w, f)
    ensures Sum(Bump(w, f, d)) == Sum(w) + d
  {
    var k :| 0 <= k < |w| && w[k].family == f;
    assert Bump(w, f, d) == w[k := Weight(w[k].family, w[k].value + d)];
    SumUpdate(w, k, d);
  }

  /** The sum of the deltas of a list of adjustments. */
  function DeltaSum(bumps: FamilyWeights): real {
    if bumps == [] then 0.0 else bumps[0].value + DeltaSum(bumps[1..])
  }

  lemma {:induction false} ApplyBumpsSum(w: FamilyWeights, bumps: FamilyWeights)
    requires DistinctFamilies(w)
    requires forall i :: 0 <= i < |bumps| ==> HasFamily(w, bumps[i].family)
    ensures Sum(ApplyBumps(w, bumps)) == Sum(w) + DeltaSum(bumps)
    decreases |bumps|
  {
    if bumps != [] {
      var w' := Bump(w, bumps[0].family, bumps[0].value);
      BumpSum(w, bumps[0].family, bumps[0].value);
      assert Families(w') == Families(w);
      forall i, j | 0 <= i < j < |w'| ensures w'[i].family != w'[j].family {
        assert Families(w')[i] == Families(w)[i] && Families(w')[j] == Families(w)[j];
      }
      forall i | 0 <= i < |bumps[1..]| ensures HasFamily(w', bumps[1..][i].family) {
        var f := bumps[1 + i].family;
        assert HasFamily(w, f);
        var k :| 0 <= k < |w| && w[k].family == f;
        assert Families(w')[k] == Families(w)[k];
      }
      ApplyBumpsSum(w', bumps[1..]);
    }
  }

  /** Every branch moves weight between families without changing the total. */
  lemma BranchKeepsTotal(clientType: string, base: FamilyWeights)
    requires DistinctFamilies(base)
    requires BranchFamiliesPresent(clientType, base)
    ensures Sum(ApplyBumps(base, BumpsFor(clientType))) == Sum(base)
  {
    ApplyBumpsSum(base, BumpsFor(clientType));
    BranchDeltasCancel(clientType);
  }

  /**
   * When no adjusted weight falls below 0.01 the clamp does nothing, so each result is
   * the adjusted weight divided by the unchanged base total.
   */
  lemma AdjustedWithoutClamp(clientType: string, base: FamilyWeights)
    requires DistinctFamilies(base)
    requires BranchFamiliesPresent(clientType, base)
    requires base != []
    requires forall i :: 0 <= i < |base| ==> ApplyBumps(base, BumpsFor(clientType))[i].value >= MinWeight
    ensures Sum(base) > 0.0
    ensures forall i :: 0 <= i < |base| ==>
      AdjustedWeights(clientType, base)[i]
        == Weight(base[i].family, ApplyBumps(base, BumpsFor(clientType))[i].value / Sum(base))
  {
    BranchDeltasCancel(clientType);
    BumpsWithoutClamp(base, BumpsFor(clientType));
  }

  /** The same for any adjustments whose deltas cancel out. */
  lemma BumpsWithoutClamp(base: FamilyWeights, bumps: FamilyWeights)
    requires DistinctFamilies(base) && DeltaSum(bumps) == 0.0
    requires forall i :: 0 <= i < |bumps| ==> HasFamily(base, bumps[i].family)
    requires base != []
    requires forall i :: 0 <= i < |base| ==> ApplyBumps(base, bumps)[i].value >= MinWeight
    ensures Sum(base) > 0.0
    ensures forall i :: 0 <= i < |base| ==>
      Normalized(Clamped(ApplyBumps(base, bumps)))[i] == Weight(base[i].family, ApplyBumps(base, bumps)[i].value / Sum(base))
  {
    var b := ApplyBumps(base, bumps);
    assert |b| == |Families(b)| == |Families(base)| == |base|;
    ApplyBumpsSum(base, bumps);
    ClampedUnchanged(b, base);
  }

  lemma ClampedUnchanged(b: FamilyWeights, base: FamilyWeights)
    requires b != [] && Families(b) == Families(base) && Sum(b) == Sum(base)
    requires forall i :: 0 <= i < |b| ==> b[i].value >= MinWeight
    ensures Sum(base) > 0.0
    ensures forall i :: 0 <= i < |base| ==> Normalized(Clamped(b))[i] == Weight(base[i].family, b[i].value / Sum(base))
  {
    assert Clamped(b) == b;
    SumPositive(b);
    forall i | 0 <= i < |base| ensures b[i].family == base[i].family {
      assert Families(b)[i] == Families(base)[i];
    }
  }

  // ---------------------------------------------------------------------------
  // Tags grouped by family
  // ---------------------------------------------------------------------------

  /** A tag row as the repository returns it: its family and its code. */
  datatype TagRow = TagRow(family: string, code: string)

  /** A `defaultdict(set)` from family to tag codes. */
  type FamilyTags = map<string, set<string>>

  /** `family_map.get(family, set())`. */
  function Get(m: FamilyTags, family: string): set<string> {
    if family in m then m[family] else {}
  }

  /** The family map after the rows, in order. */
  function FamilyMapOf(tags: seq<TagRow>): FamilyTags {
    if tags == [] then map[]
    else
      var m := FamilyMapOf(tags[..|tags| - 1]);
      var t := tags[|tags| - 1];
      m[t.family := Get(m, t.family) + {t.code}]
  }

  /** `tags_to_family_map`. */
  method TagsToFamilyMap(tags: seq<TagRow>) returns (familyMap: FamilyTags)
    ensures familyMap == FamilyMapOf(tags)
  {
    familyMap := map[];
    for i := 0 to |tags|
      invariant familyMap == FamilyMapOf(tags[..i])
    {
      ghost var next := tags[..i + 1];
      assert next[..i] == tags[..i] && next[i] == tags[i];
      familyMap := familyMap[tags[i].family := Get(familyMap, tags[i].family) + {tags[i].code}];
    }
    assert tags[..|tags|] == tags;
  }

  /** Adding a row adds its code to its family's set and changes no other family. */
  lemma FamilyMapStep(tags: seq<TagRow>, family: string)
    requires tags != []
    ensures var last := tags[|tags| - 1];
      Get(FamilyMapOf(tags), family)
        == Get(FamilyMapOf(tags[..|tags| - 1]), family) + (if last.family == family then {last.code} else {})
    ensures family in FamilyMapOf(tags) <==> family in FamilyMapOf(tags[..|tags| - 1]) || tags[|tags| - 1].family == family
  {
  }

  /** A family has an entry iff some row has that family. */
  lemma {:induction false} FamilyMapKeys(tags: seq<TagRow>, family: string)
    ensures family in FamilyMapOf(tags) <==> exists i :: 0 <= i < |tags| && tags[i].family == family
    decreases |tags|
  {
    if tags != [] {
      var p := tags[..|tags| - 1];
      FamilyMapKeys(p, family);
      FamilyMapStep(tags, family);
      if family in FamilyMapOf(p) {
        var i :| 0 <= i < |p| && p[i].family == family;
        assert tags[i].family == family;
      }
      if exists i :: 0 <= i < |tags| && tags[i].family == family {
        var i :| 0 <= i < |tags| && tags[i].family == family;
        if i < |p| {
          assert p[i].family == family;
        }
      }
    }
  }

  /** A code is in a family's set iff a row pairs them. */
  lemma {:induction false} FamilyMapCodes(tags: seq<TagRow>, family: string, code: string)
    ensures code in Get(FamilyMapOf(tags), family) <==> TagRow(family, code) in tags
    decreases |tags|
  {
    if tags != [] {
      var p := tags[..|tags| - 1];
      FamilyMapCodes(p, family, code);
      FamilyMapStep(tags, family);
      assert tags == p + [tags[|tags| - 1]];
    }
  }

  // ---------------------------------------------------------------------------
  // Taxonomy overlap
  // ---------------------------------------------------------------------------

  /** `len(q & c) / len(q | c)`, and 0 when both sets are empty. */
  function Jaccard(q: set<string>, c: set<string>): real {
    if q == {} && c == {} then 0.0 else (|q * c| as real) / (|q + c| as real)
  }

  /** What one weighted family adds to the score. */
  function FamilyOverlap(q: FamilyTags, c: FamilyTags, x: Weight): real {
    x.value * Jaccard(Get(q, x.family), Get(c, x.family))
  }

  /** `sum(weight * overlap)` over the weighted families, in order. */
  function OverlapSum(q: FamilyTags, c: FamilyTags, w: FamilyWeights): real {
    if w == [] then 0.0 else OverlapSum(q, c, w[..|w| - 1]) + FamilyOverlap(q, c, w[|w| - 1])
  }

  lemma OverlapSumOfPrefix(q: FamilyTags, c: FamilyTags, w: FamilyWeights, i: nat)
    requires i < |w|
    ensures OverlapSum(q, c, w[..i + 1]) == OverlapSum(q, c, w[..i]) + FamilyOverlap(q, c, w[i])
  {
    var next := w[..i + 1];
    assert next[..i] == w[..i] && next[i] == w[i];
  }

  /** `taxonomy_overlap_score`. */
  method TaxonomyOverlapScore(q: FamilyTags, c: FamilyTags, familyWeights: FamilyWeights) returns (r: real)
    ensures r == Features.Clamp(OverlapSum(q, c, familyWeights), 0.0, 1.0)
  {
    var score := 0.0;
    for i := 0 to |familyWeights|
      invariant score == OverlapSum(q, c, familyWeights[..i])
    {
      OverlapSumOfPrefix(q, c, familyWeights, i);
      var added := FamilyContribution(q, c, familyWeights[i]);
      score := score + added;
    }
    assert familyWeights[..|familyWeights|] == familyWeights;
    r := Features.Clamp(score, 0.0, 1.0);
  }

  /**
   * One pass of the loop in `taxonomy_overlap_score`: a family with no tags
   * on either side is skipped (it adds nothing), any other adds its weight
   * times the Jaccard overlap of the two tag sets.
   */
  method FamilyContribution(q: FamilyTags, c: FamilyTags, x: Weight) returns (added: real)
    ensures added == FamilyOverlap(q, c, x)
  {
    var qSet := Get(q, x.family);
    var cSet := Get(c, x.family);
    if qSet == {} && cSet == {} {
      return 0.0;
    }
    var union := qSet + cSet;
    if union == {} {
      return 0.0;
    }
    var overlap := (|qSet * cSet| as real) / (|union| as real);
    added := x.value * overlap;
  }

  lemma JaccardBounds(q: set<string>, c: set<string>)
    ensures 0.0 <= Jaccard(q, c) <= 1.0
  {
    if q != {} || c != {} {
      assert |q - c| + |c - q| + |q * c| == |q + c|;
      var x :| x in q + c;
      assert |q + c| >= 1 by {
        assert {x} <= q + c;
      }
      Features.RatioInUnit(|q * c| as real, |q + c| as real);
    }
  }

  lemma JaccardSymmetric(q: set<string>, c: set<string>)
    ensures Jaccard(q, c) == Jaccard(c, q)
  {
    assert q * c == c * q && q + c == c + q;
  }

  lemma JaccardSelf(q: set<string>)
    ensures Jaccard(q, q) == if q == {} then 0.0 else 1.0
  {
    if q != {} {
      assert q * q == q && q + q == q;
      var x :| x in q;
      assert |q| >= 1 by {
        assert {x} <= q;
      }
      Features.SelfRatio(|q| as real);
    }
  }

  lemma FamilyOverlapSymmetric(q: FamilyTags, c: FamilyTags, x: Weight)
    ensures FamilyOverlap(q, c, x) == FamilyOverlap(c, q, x)
  {
    JaccardSymmetric(Get(q, x.family), Get(c, x.family));
  }

  lemma FamilyOverlapBounds(q: FamilyTags, c: FamilyTags, x: Weight)
    requires x.value >= 0.0
    ensures 0.0 <= FamilyOverlap(q, c, x) <= x.value
  {
    var j := Jaccard(Get(q, x.family), Get(c, x.family));
    JaccardBounds(Get(q, x.family), Get(c, x.family));
    Features.MulBounds(x.value, j);
    assert FamilyOverlap(q, c, x) == x.value * j;
  }

  lemma FamilyOverlapSelf(q: FamilyTags, x: Weight)
    ensures FamilyOverlap(q, q, x) == if Get(q, x.family) != {} then x.value else 0.0
  {
    JaccardSelf(Get(q, x.family));
  }

  /** The score does not depend on which side is the query. */
  lemma {:induction false} OverlapSymmetric(q: FamilyTags, c: FamilyTags, w: FamilyWeights)
    ensures OverlapSum(q, c, w) == OverlapSum(c, q, w)
    decreases |w|
  {
    if w != [] {
      OverlapSymmetric(q, c, w[..|w| - 1]);
      FamilyOverlapSymmetric(q, c, w[|w| - 1]);
    }
  }

  /** With non-negative weights the unclamped score lies between 0 and the total weight. */
  lemma {:induction false} OverlapBounds(q: FamilyTags, c: FamilyTags, w: FamilyWeights)
    requires forall i :: 0 <= i < |w| ==> w[i].value >= 0.0
    ensures 0.0 <= OverlapSum(q, c, w) <= Sum(w)
    decreases |w|
  {
    if w != [] {
      var p := w[..|w| - 1];
      assert forall i :: 0 <= i < |p| ==> p[i] == w[i];
      OverlapBounds(q, c, p);
      FamilyOverlapBounds(q, c, w[|w| - 1]);
    }
  }

  /**
   * Only the families of the weight map are read: two query maps (and two candidate
   * maps) that agree on those families give the same score.
   */
  lemma {:induction false} OverlapOnlyWeightedFamilies(q: FamilyTags, c: FamilyTags, q': FamilyTags, c': FamilyTags,
                                                        w: FamilyWeights)
    requires forall i :: 0 <= i < |w| ==> Get(q, w[i].family) == Get(q', w[i].family)
    requires forall i :: 0 <= i < |w| ==> Get(c, w[i].family) == Get(c', w[i].family)
    ensures OverlapSum(q, c, w) == OverlapSum(q', c', w)
    decreases |w|
  {
    if w != [] {
      var p := w[..|w| - 1];
      forall i | 0 <= i < |p| ensures Get(q, p[i].family) == Get(q', p[i].family) && Get(c, p[i].family) == Get(c', p[i].family) {
        assert p[i] == w[i];
      }
      OverlapOnlyWeightedFamilies(q, c, q', c', p);
      var x := w[|w| - 1];
      FamilyOverlapCongruent(q, c, q', c', x);
    }
  }

  lemma FamilyOverlapCongruent(q: FamilyTags, c: FamilyTags, q': FamilyTags, c': FamilyTags, x: Weight)
    requires Get(q, x.family) == Get(q', x.family) && Get(c, x.family) == Get(c', x.family)
    ensures FamilyOverlap(q, c, x) == FamilyOverlap(q', c', x)
  {
    var a, b := Get(q, x.family), Get(c, x.family);
    assert FamilyOverlap(q, c, x) == x.value * Jaccard(a, b);
    assert FamilyOverlap(q', c', x) == x.value * Jaccard(a, b);
  }

  /** The total weight of the families whose tag set in `q` is non-empty. */
  function PresentWeight(q: FamilyTags, w: FamilyWeights): real {
    if w == [] then 0.0
    else PresentWeight(q, w[..|w| - 1]) + (if Get(q, w[|w| - 1].family) != {} then w[|w| - 1].value else 0.0)
  }

  /**
   * A map compared with itself scores the weight of its non-empty families: every such
   * family overlaps fully and an empty family contributes nothing.
   */
  lemma {:induction false} OverlapSelf(q: FamilyTags, w: FamilyWeights)
    ensures OverlapSum(q, q, w) == PresentWeight(q, w)
    decreases |w|
  {
    if w != [] {
      OverlapSelf(q, w[..|w| - 1]);
      FamilyOverlapSelf(q, w[|w| - 1]);
    }
  }

  /** With the adjusted weights (positive, summing to 1) the clamp never changes the score. */
  lemma OverlapUnclampedWithAdjustedWeights(q: FamilyTags, c: FamilyTags, clientType: string, base: FamilyWeights)
    requires base != []
    ensures var w := AdjustedWeights(clientType, base);
      Features.Clamp(OverlapSum(q, c, w), 0.0, 1.0) == OverlapSum(q, c, w)
  {
    var w := AdjustedWeights(clientType, base);
    AdjustedNormalized(clientType, base);
    OverlapBounds(q, c, w);
  }

  // ---------------------------------------------------------------------------
  // Top shared terms
  // ---------------------------------------------------------------------------

  /** A shared token and `q_counts[tok] * c_counts[tok]`. */
  datatype Scored = Scored(token: string, score: nat)

  /** The sort key `(-score, token)`. */
  function ScoreOrder(a: Scored, b: Scored): bool {
    a.score > b.score || (a.score == b.score && StrLe(a.token, b.token))
  }

  /** `a` ranks strictly before `b`. */
  predicate RanksBefore(a: Scored, b: Scored) {
    a.score > b.score || (a.score == b.score && StrLt(a.token, b.token))
  }

  lemma ScoreOrderTotal()
    ensures Sorting.TotalPreorder(ScoreOrder)
  {
    forall a: Scored, b: Scored ensures ScoreOrder(a, b) || ScoreOrder(b, a) {
      StrLeTotal(a.token, b.token);
    }
    forall a: Scored, b: Scored, c: Scored | ScoreOrder(a, b) && ScoreOrder(b, c) ensures ScoreOrder(a, c) {
      if a.score == b.score == c.score {
        StrLeTransitive(a.token, b.token, c.token);
      }
    }
  }

  /** The tokens of both texts. */
  function SharedTokens(q: seq<string>, c: seq<string>): set<string> {
    set t | t in q && t in c
  }

  /** `Counter(q)[t] * Counter(c)[t]`. */
  function PairScore(q: seq<string>, c: seq<string>, t: string): nat {
    multiset(q)[t] * multiset(c)[t]
  }

  function ScoredOf(q: seq<string>, c: seq<string>, t: string): Scored {
    Scored(t, PairScore(q, c, t))
  }

  /**
   * `top_matching_terms`: the shared tokens ranked by count product (descending) then
   * token, cut to `k` as `[:k]` does. Stated without fixing the set iteration order,
   * because the ranking is strict and the result is the same whatever that order is.
   */
  method TopMatchingTerms(queryText: string, candidateText: string, k: int) returns (r: seq<string>)
    ensures var q, c := TextProcessing.Tokenize(queryText), TextProcessing.Tokenize(candidateText);
      && |r| == (if q == [] || c == [] then 0 else Sorting.SliceLen(|SharedTokens(q, c)|, k))
      && (forall i :: 0 <= i < |r| ==> r[i] in q && r[i] in c)
      && (forall i, j :: 0 <= i < j < |r| ==> RanksBefore(ScoredOf(q, c, r[i]), ScoredOf(q, c, r[j])))
      && (forall t, i :: t in SharedTokens(q, c) && t !in r && 0 <= i < |r| ==>
            RanksBefore(ScoredOf(q, c, r[i]), ScoredOf(q, c, t)))
  {
    var qTokens := TextProcessing.Tokenize(queryText);
    var cTokens := TextProcessing.Tokenize(candidateText);
    if qTokens == [] || cTokens == [] {
      return [];
    }
    var shared := SharedTokens(qTokens, cTokens);
    var intersection := ScoreSharedTokens(qTokens, cTokens);
    ScoreOrderTotal();
    var sorted := Sorting.SortBy(intersection, ScoreOrder);
    Sorting.SortBySorted(intersection, ScoreOrder);
    RankedMembers(intersection, sorted, qTokens, cTokens, shared);
    RankedStrict(intersection, sorted, qTokens, cTokens);
    var n := Sorting.SliceLen(|sorted|, k);
    r := seq(n, i requires 0 <= i < n => sorted[i].token);
    RankedPrefix(sorted, qTokens, cTokens, shared, n, r);
  }

  /**
   * The loop over the shared tokens of `top_matching_terms`: one scored entry per shared
   * token, in the (unspecified) iteration order of the set.
   */
  method ScoreSharedTokens(qTokens: seq<string>, cTokens: seq<string>) returns (intersection: seq<Scored>)
    ensures forall i :: 0 <= i < |intersection| ==>
      intersection[i].token in SharedTokens(qTokens, cTokens)
      && intersection[i] == ScoredOf(qTokens, cTokens, intersection[i].token)
    ensures forall i, j :: 0 <= i < j < |intersection| ==> intersection[i].token != intersection[j].token
    ensures forall t :: t in SharedTokens(qTokens, cTokens) ==> exists i :: 0 <= i < |intersection| && intersection[i].token == t
    ensures |intersection| == |SharedTokens(qTokens, cTokens)|
  {
    var shared := SharedTokens(qTokens, cTokens);
    intersection := [];
    var rest := shared;
    while rest != {}
      invariant rest <= shared
      invariant ScoredSoFar(qTokens, cTokens, shared, rest, intersection)
      decreases |rest|
    {
      var tok :| tok in rest;
      ScoredStep(qTokens, cTokens, shared, rest, intersection, tok);
      intersection := intersection + [Scored(tok, multiset(qTokens)[tok] * multiset(cTokens)[tok])];
      rest := rest - {tok};
    }
  }

  /** The loop invariant of `ScoreSharedTokens`: one entry per token of `shared` no longer in `rest`. */
  ghost predicate ScoredSoFar(q: seq<string>, c: seq<string>, shared: set<string>, rest: set<string>, xs: seq<Scored>) {
    && (forall i :: 0 <= i < |xs| ==> xs[i].token in shared && xs[i].token !in rest && xs[i] == ScoredOf(q, c, xs[i].token))
    && (forall i, j :: 0 <= i < j < |xs| ==> xs[i].token != xs[j].token)
    && (forall t :: t in shared && t !in rest ==> exists i :: 0 <= i < |xs| && xs[i].token == t)
    && |xs| + |rest| == |shared|
  }

  lemma ScoredStep(q: seq<string>, c: seq<string>, shared: set<string>, rest: set<string>, xs: seq<Scored>, tok: string)
    requires rest <= shared && tok in rest && ScoredSoFar(q, c, shared, rest, xs)
    ensures ScoredSoFar(q, c, shared, rest - {tok}, xs + [Scored(tok, multiset(q)[tok] * multiset(c)[tok])])
  {
    var ys := xs + [Scored(tok, multiset(q)[tok] * multiset(c)[tok])];
    var rest' := rest - {tok};
    assert forall i :: 0 <= i < |xs| ==> ys[i] == xs[i];
    assert ys[|xs|].token == tok;
    forall t | t in shared && t !in rest' ensures exists i :: 0 <= i < |ys| && ys[i].token == t {
      if t == tok {
        assert ys[|xs|].token == t;
      } else {
        assert t in shared && t !in rest;
        var i :| 0 <= i < |xs| && xs[i].token == t;
        assert ys[i] == xs[i];
      }
    }
    assert |rest'| == |rest| - 1;
    assert forall i, j :: 0 <= i < j < |ys| ==> ys[i].token != ys[j].token;
  }

  /** The tokens of a prefix of the strict ranking rank before every shared token left out. */
  lemma RankedPrefix(sorted: seq<Scored>, q: seq<string>, c: seq<string>, shared: set<string>, n: nat, r: seq<string>)
    requires n <= |sorted| && r == seq(n, i requires 0 <= i < n => sorted[i].token)
    requires forall i :: 0 <= i < |sorted| ==> sorted[i].token in shared && sorted[i] == ScoredOf(q, c, sorted[i].token)
    requires forall t :: t in shared ==> exists j :: 0 <= j < |sorted| && sorted[j].token == t
    requires forall i, j :: 0 <= i < j < |sorted| ==> RanksBefore(sorted[i], sorted[j])
    ensures forall i :: 0 <= i < |r| ==> r[i] in shared
    ensures forall i, j :: 0 <= i < j < |r| ==> RanksBefore(ScoredOf(q, c, r[i]), ScoredOf(q, c, r[j]))
    ensures forall t, i :: t in shared && t !in r && 0 <= i < |r| ==> RanksBefore(ScoredOf(q, c, r[i]), ScoredOf(q, c, t))
  {
    assert forall m :: 0 <= m < n ==> r[m] == sorted[m].token && r[m] in r;
    forall t, i | t in shared && t !in r && 0 <= i < |r|
      ensures RanksBefore(ScoredOf(q, c, r[i]), ScoredOf(q, c, t))
    {
      var j :| 0 <= j < |sorted| && sorted[j].token == t;
      assert j >= n;
      assert sorted[i] == ScoredOf(q, c, r[i]);
    }
    forall i, j | 0 <= i < j < |r| ensures RanksBefore(ScoredOf(q, c, r[i]), ScoredOf(q, c, r[j])) {
      assert sorted[i] == ScoredOf(q, c, r[i]) && sorted[j] == ScoredOf(q, c, r[j]);
    }
  }

  /** Sorting keeps exactly the scored shared tokens. */
  lemma RankedMembers(intersection: seq<Scored>, sorted: seq<Scored>, q: seq<string>, c: seq<string>, shared: set<string>)
    requires forall i :: 0 <= i < |intersection| ==>
      intersection[i].token in shared && intersection[i] == ScoredOf(q, c, intersection[i].token)
    requires forall t :: t in shared ==> exists i :: 0 <= i < |intersection| && intersection[i].token == t
    requires multiset(sorted) == multiset(intersection)
    ensures |sorted| == |intersection|
    ensures forall i :: 0 <= i < |sorted| ==> sorted[i].token in shared && sorted[i] == ScoredOf(q, c, sorted[i].token)
    ensures forall t :: t in shared ==> exists j :: 0 <= j < |sorted| && sorted[j].token == t
  {
    assert |sorted| == |multiset(sorted)| == |multiset(intersection)| == |intersection|;
    forall i | 0 <= i < |sorted| ensures sorted[i].token in shared && sorted[i] == ScoredOf(q, c, sorted[i].token) {
      assert sorted[i] in multiset(intersection);
      var m := Sorting.InMultisetIndex(intersection, sorted[i]);
    }
    forall t | t in shared ensures exists j :: 0 <= j < |sorted| && sorted[j].token == t {
      var i :| 0 <= i < |intersection| && intersection[i].token == t;
      assert intersection[i] in multiset(sorted);
      var j := Sorting.InMultisetIndex(sorted, intersection[i]);
    }
  }

  /** Sorted distinct tokens are strictly ranked: ties on the score are broken by distinct tokens. */
  lemma RankedStrict(intersection: seq<Scored>, sorted: seq<Scored>, q: seq<string>, c: seq<string>)
    requires forall i, j :: 0 <= i < j < |intersection| ==> intersection[i].token != intersection[j].token
    requires forall i :: 0 <= i < |sorted| ==> sorted[i] == ScoredOf(q, c, sorted[i].token)
    requires multiset(sorted) == multiset(intersection)
    requires Sorting.SortedBy(sorted, ScoreOrder)
    ensures forall i, j :: 0 <= i < j < |sorted| ==> RanksBefore(sorted[i], sorted[j])
  {
    forall i, j | 0 <= i < j < |sorted| ensures RanksBefore(sorted[i], sorted[j]) {
      if sorted[i].token == sorted[j].token {
        Sorting.CountsTwice(sorted, i, j);
        DistinctOnce(intersection, sorted[i]);
        assert false;
      }
      StrictWhenDistinct(sorted[i], sorted[j]);
    }
  }

  lemma StrictWhenDistinct(a: Scored, b: Scored)
    requires ScoreOrder(a, b) && a.token != b.token
    ensures RanksBefore(a, b)
  {
    if a.score == b.score && StrLe(b.token, a.token) {
      StrLeAntisymmetric(a.token, b.token);
    }
  }

  /** An element of a list whose tokens are distinct occurs at most once. */
  lemma {:induction false} DistinctOnce(s: seq<Scored>, x: Scored)
    requires forall i, j :: 0 <= i < j < |s| ==> s[i].token != s[j].token
    ensures multiset(s)[x] <= 1
    decreases |s|
  {
    if s != [] {
      var p := s[..|s| - 1];
      DistinctOnce(p, x);
      assert s == p + [s[|s| - 1]];
      if s[|s| - 1] == x && x in multiset(p) {
        var i := Sorting.InMultisetIndex(p, x);
        assert false;
      }
    }
  }

  // ---------------------------------------------------------------------------
  // Score blends
  // ---------------------------------------------------------------------------

  /** `MATCH_WEIGHTS`. */
  datatype MatchWeights = MatchWeights(semantic: real, lexical: real, taxonomy: real)

  /** `combine_scores`. */
  function CombineScores(semanticScore: real, lexicalScore: real, taxonomyScore: real, mw: MatchWeights): real {
    mw.semantic * semanticScore + mw.lexical * lexicalScore + mw.taxonomy * taxonomyScore
  }

  /**
   * With non-negative weights that sum to 1, component scores in [0, 1] blend to a score
   * in [0, 1]; a perfect semantic score alone gives the semantic weight.
   */
  lemma CombineScoresBounds(s: real, l: real, t: real, mw: MatchWeights)
    requires mw.semantic >= 0.0 && mw.lexical >= 0.0 && mw.taxonomy >= 0.0
    requires mw.semantic + mw.lexical + mw.taxonomy == 1.0
    requires 0.0 <= s <= 1.0 && 0.0 <= l <= 1.0 && 0.0 <= t <= 1.0
    ensures 0.0 <= CombineScores(s, l, t, mw) <= 1.0
    ensures CombineScores(1.0, 0.0, 0.0, mw) == mw.semantic
  {
    var a := WeightedPart(mw.semantic, s);
    var b := WeightedPart(mw.lexical, l);
    var c := WeightedPart(mw.taxonomy, t);
    assert CombineScores(s, l, t, mw) == a + b + c;
  }

  lemma WeightedPart(x: real, j: real) returns (p: real)
    requires x >= 0.0 && 0.0 <= j <= 1.0
    ensures p == x * j && 0.0 <= p <= x
  {
    Features.MulBounds(x, j);
    p := x * j;
  }

  /** With non-negative weights the blend is non-decreasing in every component. */
  lemma CombineScoresMonotone(s: real, l: real, t: real, s': real, l': real, t': real, mw: MatchWeights)
    requires mw.semantic >= 0.0 && mw.lexical >= 0.0 && mw.taxonomy >= 0.0
    requires s <= s' && l <= l' && t <= t'
    ensures CombineScores(s, l, t, mw) <= CombineScores(s', l', t', mw)
  {
    MulMonotone(mw.semantic, s, s');
    MulMonotone(mw.lexical, l, l');
    MulMonotone(mw.taxonomy, t, t');
  }

  lemma MulMonotone(x: real, a: real, b: real)
    requires x >= 0.0 && a <= b
    ensures x * a <= x * b
  {
    assert x * (b - a) >= 0.0;
  }

  /** `semantic_scores_from_vectors`: one similarity in [0, 1] per candidate, in order. */
  function SemanticScoresFromVectors(query: seq<real>, candidates: seq<seq<real>>, norm: seq<real> -> real): (r: seq<real>)
    requires forall i :: 0 <= i < |candidates| ==> |candidates[i]| == |query|
    ensures |r| == |candidates|
    ensures forall i :: 0 <= i < |r| ==> 0.0 <= r[i] <= 1.0
  {
    seq(|candidates|, i requires 0 <= i < |candidates| => Features.CosineSimilarity(query, candidates[i], norm))
  }
}
