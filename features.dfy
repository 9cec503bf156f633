/**
 * Score features: min-max scaling, the BM25 wrapper (the BM25 ranking itself is an
 * external library and enters as a parameter) and cosine similarity mapped to [0, 1]
 * (vector norms come from the numeric library and enter as a parameter).
 */
module Features {
  import opened Strings
  import TextProcessing

  /** `min(values)`. */
  function Min(s: seq<real>): (m: real)
    requires |s| > 0
    ensures forall i :: 0 <= i < |s| ==> m <= s[i]
    ensures exists i :: 0 <= i < |s| && s[i] == m
  {
    if |s| == 1 then s[0]
    else
      var rest := Min(s[1..]);
      assert forall i :: 1 <= i < |s| ==> s[i] == s[1..][i - 1];
      if s[0] <= rest then s[0] else rest
  }

  /** `max(values)`. */
  function Max(s: seq<real>): (m: real)
    requires |s| > 0
    ensures forall i :: 0 <= i < |s| ==> s[i] <= m
    ensures exists i :: 0 <= i < |s| && s[i] == m
  {
    if |s| == 1 then s[0]
    else
      var rest := Max(s[1..]);
      assert forall i :: 1 <= i < |s| ==> s[i] == s[1..][i - 1];
      if s[0] >= rest then s[0] else rest
  }

  /** The spread below which `min_max_scale` treats all values as equal. */
  const SpreadEpsilon: real := 0.000000001

  /** Where `min_max_scale` puts one value, given the minimum and maximum of all of them. */
  function ScaleValue(x: real, lo: real, hi: real): real {
    if hi - lo < SpreadEpsilon then (if hi <= 0.0 then 0.0 else 1.0)
    else (x - lo) / (hi - lo)
  }

  /** `min_max_scale`. */
  function MinMaxScale(values: seq<real>): (r: seq<real>)
    ensures |r| == |values|
  {
    if values == [] then []
    else seq(|values|, i requires 0 <= i < |values| => ScaleValue(values[i], Min(values), Max(values)))
  }

  lemma RatioInUnit(a: real, b: real)
    requires 0.0 <= a <= b && b > 0.0
    ensures 0.0 <= a / b <= 1.0
  {
    assert a / b * b == a;
  }

  lemma RatioMonotone(a: real, a': real, b: real)
    requires a <= a' && b > 0.0
    ensures a / b <= a' / b
  {
    assert a / b * b == a && a' / b * b == a';
  }

  /** Scaling a non-negative value by a fraction in [0, 1] keeps it between 0 and itself. */
  lemma MulBounds(x: real, j: real)
    requires x >= 0.0 && 0.0 <= j <= 1.0
    ensures 0.0 <= x * j <= x
  {
    assert x * (1.0 - j) >= 0.0;
  }

  lemma UnitRatio(x: real, d: real)
    requires d > 0.0 && -d <= x <= d
    ensures -1.0 <= x / d <= 1.0
  {
    RatioMonotone(x, d, d);
    RatioMonotone(-d, x, d);
  }

  /** Every scaled value lies in [0, 1]. */
  lemma MinMaxScaleBounds(values: seq<real>)
    ensures forall i :: 0 <= i < |values| ==> 0.0 <= MinMaxScale(values)[i] <= 1.0
  {
    if values != [] {
      var lo, hi := Min(values), Max(values);
      if hi - lo >= SpreadEpsilon {
        forall i | 0 <= i < |values| ensures 0.0 <= MinMaxScale(values)[i] <= 1.0 {
          RatioInUnit(values[i] - lo, hi - lo);
        }
      }
    }
  }

  /** When all values are within 1e-9 of each other, the output is all 0 (max <= 0) or all 1. */
  lemma MinMaxScaleFlat(values: seq<real>)
    requires values != [] && Max(values) - Min(values) < SpreadEpsilon
    ensures forall i :: 0 <= i < |values| ==>
      MinMaxScale(values)[i] == if Max(values) <= 0.0 then 0.0 else 1.0
  {
  }

  /** Scaling preserves order: a value no larger than another is not scaled above it. */
  lemma MinMaxScaleMonotone(values: seq<real>, i: nat, j: nat)
    requires i < |values| && j < |values| && values[i] <= values[j]
    ensures MinMaxScale(values)[i] <= MinMaxScale(values)[j]
  {
    var lo, hi := Min(values), Max(values);
    if hi - lo >= SpreadEpsilon {
      RatioMonotone(values[i] - lo, values[j] - lo, hi - lo);
    }
  }

  /** With a spread of at least 1e-9, the minimum scales to 0 and the maximum to 1. */
  lemma MinMaxScaleEndpoints(values: seq<real>, i: nat)
    requires i < |values| && Max(values) - Min(values) >= SpreadEpsilon
    ensures values[i] == Min(values) ==> MinMaxScale(values)[i] == 0.0
    ensures values[i] == Max(values) ==> MinMaxScale(values)[i] == 1.0
  {
    var lo, hi := Min(values), Max(values);
    assert MinMaxScale(values)[i] == ScaleValue(values[i], lo, hi);
    ScaleValueEndpoints(lo, hi);
  }

  lemma ScaleValueEndpoints(lo: real, hi: real)
    requires hi - lo >= SpreadEpsilon
    ensures ScaleValue(lo, lo, hi) == 0.0 && ScaleValue(hi, lo, hi) == 1.0
  {
    SelfRatio(hi - lo);
  }

  lemma SelfRatio(d: real)
    requires d > 0.0
    ensures d / d == 1.0
  {
    assert d / d * d == d;
  }

  /**
   * `bm25_score_documents`: zeros when there are no documents, no document has a token
   * or the query has none; otherwise the min-max scaled BM25 scores. `bm25` stands for
   * `BM25Okapi(tokenized_docs).get_scores(query_tokens)`.
   */
  function Bm25ScoreDocuments(queryText: string, documents: seq<string>,
                              bm25: (seq<seq<string>>, seq<string>) -> seq<real>): (r: seq<real>)
  {
    var tokenizedDocs := seq(|documents|, i requires 0 <= i < |documents| => TextProcessing.Tokenize(documents[i]));
    if tokenizedDocs == [] || forall i :: 0 <= i < |tokenizedDocs| ==> tokenizedDocs[i] == [] then
      seq(|documents|, _ => 0.0)
    else
      var queryTokens := TextProcessing.Tokenize(queryText);
      if queryTokens == [] then seq(|documents|, _ => 0.0)
      else MinMaxScale(bm25(tokenizedDocs, queryTokens))
  }

  /**
   * One score per document when BM25 gives one score per document; every score in [0, 1];
   * all zero when no document has a token or the query has none.
   */
  lemma Bm25ScoreDocumentsProperties(queryText: string, documents: seq<string>,
                                     bm25: (seq<seq<string>>, seq<string>) -> seq<real>)
    ensures var r := Bm25ScoreDocuments(queryText, documents, bm25);
      && ((forall d, q :: |bm25(d, q)| == |d|) ==> |r| == |documents|)
      && (forall i :: 0 <= i < |r| ==> 0.0 <= r[i] <= 1.0)
      && ((|| TextProcessing.Tokenize(queryText) == []
           || forall i :: 0 <= i < |documents| ==> TextProcessing.Tokenize(documents[i]) == [])
          ==> r == seq(|documents|, _ => 0.0))
  {
    var tokenizedDocs := seq(|documents|, i requires 0 <= i < |documents| => TextProcessing.Tokenize(documents[i]));
    var queryTokens := TextProcessing.Tokenize(queryText);
    if !(tokenizedDocs == [] || forall i :: 0 <= i < |tokenizedDocs| ==> tokenizedDocs[i] == []) && queryTokens != [] {
      MinMaxScaleBounds(bm25(tokenizedDocs, queryTokens));
    }
  }

  // ---------------------------------------------------------------------------
  // Cosine similarity
  // ---------------------------------------------------------------------------

  /** `np.dot(a, b)`. */
  function Dot(a: seq<real>, b: seq<real>): real
    requires |a| == |b|
  {
    if a == [] then 0.0 else a[0] * b[0] + Dot(a[1..], b[1..])
  }

  lemma {:induction false} DotSymmetric(a: seq<real>, b: seq<real>)
    requires |a| == |b|
    ensures Dot(a, b) == Dot(b, a)
    decreases |a|
  {
    if a != [] {
      DotSymmetric(a[1..], b[1..]);
    }
  }

  /** The norm product below which `cosine_similarity` returns 0. */
  const NormEpsilon: real := 0.000000000001

  /** `max(lo, min(hi, x))`. */
  function Clamp(x: real, lo: real, hi: real): real {
    if x < lo then lo else if x > hi then hi else x
  }

  /**
   * `cosine_similarity`: the cosine mapped from [-1, 1] to [0, 1] and clamped; 0 when the
   * product of the norms is at most 1e-12. `norm` is `np.linalg.norm`.
   */
  function CosineSimilarity(a: seq<real>, b: seq<real>, norm: seq<real> -> real): (r: real)
    requires |a| == |b|
    ensures 0.0 <= r <= 1.0
    ensures norm(a) * norm(b) <= NormEpsilon ==> r == 0.0
  {
    var denom := norm(a) * norm(b);
    if denom <= NormEpsilon then 0.0
    else
      var cos := Dot(a, b) / denom;
      Clamp((cos + 1.0) / 2.0, 0.0, 1.0)
  }

  /** Swapping the vectors does not change the similarity. */
  lemma CosineSimilaritySymmetric(a: seq<real>, b: seq<real>, norm: seq<real> -> real)
    requires |a| == |b|
    ensures CosineSimilarity(a, b, norm) == CosineSimilarity(b, a, norm)
  {
    DotSymmetric(a, b);
  }

  /**
   * When the norms bound the dot product (Cauchy-Schwarz, which holds for the true norm)
   * the clamp never applies: the result is exactly `(cos + 1) / 2`.
   */
  lemma CosineSimilarityUnclamped(a: seq<real>, b: seq<real>, norm: seq<real> -> real)
    requires |a| == |b|
    requires norm(a) * norm(b) > NormEpsilon
    requires -(norm(a) * norm(b)) <= Dot(a, b) <= norm(a) * norm(b)
    ensures CosineSimilarity(a, b, norm) == (Dot(a, b) / (norm(a) * norm(b)) + 1.0) / 2.0
  {
    UnitRatio(Dot(a, b), norm(a) * norm(b));
  }
}
