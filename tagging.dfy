/**
 * The rule tagger: a term set per tag code (from the taxonomy and the synonym rows),
 * whole-word term matching on the normalised text, and a confidence per matched tag,
 * returned by confidence descending, then tag code ascending.
 */
module Tagging {
  import opened Wrappers
  import opened Strings
  import opened TextProcessing
  import Sorting

  datatype TaxonomyRow = TaxonomyRow(family: string, code: string, tagLabel: string)

  /** An extracted tag and its confidence. */
  datatype Tag = Tag(code: string, confidence: real)

  /** `dict[str, set[str]]`: the terms of each tag code. */
  type TermMap = map<string, set<string>>

  /** `tag_terms.get(code, set())`. */
  function TermsOf(m: TermMap, code: string): set<string> {
    if code in m then m[code] else {}
  }

  /** `code.lower().replace("_", " ")`. */
  function CodeWords(code: string): string {
    seq(|code|, i requires 0 <= i < |code| =>
      if LowerChar(code[i]) == '_' then ' ' else LowerChar(code[i]))
  }

  /** The terms a taxonomy row gives its code: its label, its code as words, its code. */
  function RowTerms(row: TaxonomyRow): set<string> {
    {Strip(Lower(row.tagLabel)), CodeWords(row.code), Lower(row.code)}
  }

  /** `if tag_code:` for `row["tag_code_optional"]`. */
  predicate NamesTag(row: SynonymRow) {
    row.tagCode.Some? && row.tagCode.value != []
  }

  /** The terms a synonym row gives the code it names: its surface and canonical forms. */
  function SynonymTerms(row: SynonymRow): set<string> {
    {Strip(Lower(row.surface)), Strip(Lower(row.canonical))}
  }

  /** `tag_terms[code] |= terms` on a defaultdict. */
  function AddTerms(m: TermMap, code: string, terms: set<string>): TermMap {
    m[code := TermsOf(m, code) + terms]
  }

  /**
   * One loop of `build_tag_term_map`, as a left fold: each row adds `terms(row)` to the
   * set of the code `code(row)` names, and a row naming no code adds nothing.
   */
  function AddRows<R>(m: TermMap, rows: seq<R>, code: R -> Option<string>, terms: R -> set<string>): TermMap {
    if rows == [] then m
    else
      var row := rows[|rows| - 1];
      var prev := AddRows(m, rows[..|rows| - 1], code, terms);
      match code(row)
      case Some(c) => AddTerms(prev, c, terms(row))
      case None => prev
  }

  /** A taxonomy row always names its own code. */
  function TaxonomyCode(row: TaxonomyRow): Option<string> {
    Some(row.code)
  }

  /** A synonym row names its `tag_code_optional` when that is set and non-empty. */
  function SynonymCode(row: SynonymRow): Option<string> {
    if NamesTag(row) then Some(row.tagCode.value) else None
  }

  /** What `build_tag_term_map` returns. */
  function TagTermMapOf(taxonomy: seq<TaxonomyRow>, synonyms: seq<SynonymRow>): TermMap {
    AddRows(AddRows(map[], taxonomy, TaxonomyCode, RowTerms), synonyms, SynonymCode, SynonymTerms)
  }

  /** `build_tag_term_map`. */
  method BuildTagTermMap(taxonomy: seq<TaxonomyRow>, synonyms: seq<SynonymRow>) returns (tagTerms: TermMap)
    ensures tagTerms == TagTermMapOf(taxonomy, synonyms)
  {
    tagTerms := map[];
    var i := 0;
    assert taxonomy[..0] == [];
    while i < |taxonomy|
      invariant 0 <= i <= |taxonomy|
      invariant tagTerms == AddRows(map[], taxonomy[..i], TaxonomyCode, RowTerms)
    {
      var row := taxonomy[i];
      ghost var next := taxonomy[..i + 1];
      assert next[..i] == taxonomy[..i] && next[i] == row;
      tagTerms := AddTerms(tagTerms, row.code, RowTerms(row));
      i := i + 1;
    }
    assert taxonomy[..i] == taxonomy;
    ghost var base := tagTerms;
    var j := 0;
    assert synonyms[..0] == [];
    while j < |synonyms|
      invariant 0 <= j <= |synonyms|
      invariant tagTerms == AddRows(base, synonyms[..j], SynonymCode, SynonymTerms)
    {
      var row := synonyms[j];
      ghost var next := synonyms[..j + 1];
      assert next[..j] == synonyms[..j] && next[j] == row;
      if NamesTag(row) {
        tagTerms := AddTerms(tagTerms, row.tagCode.value, SynonymTerms(row));
      }
      j := j + 1;
    }
    assert synonyms[..j] == synonyms;
  }

  /** After the fold, a code's set holds its earlier terms and the terms of every row naming it. */
  lemma {:induction false} AddRowsMembership<R>(m: TermMap, rows: seq<R>, code: R -> Option<string>,
                                                terms: R -> set<string>, c: string, t: string)
    ensures t in TermsOf(AddRows(m, rows, code, terms), c)
        <==> (t in TermsOf(m, c) || exists i :: 0 <= i < |rows| && code(rows[i]) == Some(c) && t in terms(rows[i]))
    decreases |rows|
  {
    if rows != [] {
      var prev := rows[..|rows| - 1];
      AddRowsMembership(m, prev, code, terms, c, t);
      if exists i :: 0 <= i < |rows| && code(rows[i]) == Some(c) && t in terms(rows[i]) {
        var i :| 0 <= i < |rows| && code(rows[i]) == Some(c) && t in terms(rows[i]);
        if i < |prev| {
          assert prev[i] == rows[i];
        }
      }
      if exists i :: 0 <= i < |prev| && code(prev[i]) == Some(c) && t in terms(prev[i]) {
        var i :| 0 <= i < |prev| && code(prev[i]) == Some(c) && t in terms(prev[i]);
        assert rows[i] == prev[i];
      }
    }
  }

  /**
   * A code's term set holds exactly the lowered label, the lowered code and the code as
   * words of each taxonomy row with that code, and the cleaned surface and canonical forms
   * of each synonym row naming it.
   */
  lemma TagTermMapMembership(taxonomy: seq<TaxonomyRow>, synonyms: seq<SynonymRow>, code: string, t: string)
    ensures t in TermsOf(TagTermMapOf(taxonomy, synonyms), code)
        <==> (|| (exists i :: 0 <= i < |taxonomy| && TaxonomyCode(taxonomy[i]) == Some(code) && t in RowTerms(taxonomy[i]))
              || (exists j :: 0 <= j < |synonyms| && SynonymCode(synonyms[j]) == Some(code)
                               && t in SynonymTerms(synonyms[j])))
  {
    AddRowsMembership(AddRows(map[], taxonomy, TaxonomyCode, RowTerms), synonyms, SynonymCode, SynonymTerms, code, t);
    AddRowsMembership(map[], taxonomy, TaxonomyCode, RowTerms, code, t);
  }

  // ---------------------------------------------------------------------------
  // Matching terms
  // ---------------------------------------------------------------------------

  /** `re.search(rf"(?<!\w){re.escape(term)}(?!\w)", text)` finds a match. */
  predicate Occurs(text: string, term: string) {
    exists i: nat :: i <= |text| && WordMatchAt(text, term, i)
  }

  /** The non-empty terms that occur as whole words in `text`. */
  function MatchingTerms(text: string, terms: set<string>): set<string> {
    set t | t in terms && t != [] && Occurs(text, t)
  }

  /** `len(term.split())`. */
  function WordCount(t: string): nat {
    |Runs(t, NotSpace)|
  }

  /** The largest word count in `ts`, and 1 when `ts` is empty or every count is smaller. */
  ghost function MaxWordCount(ts: set<string>): (n: nat)
    ensures n >= 1
    ensures forall t :: t in ts ==> WordCount(t) <= n
    ensures n == 1 || exists t :: t in ts && WordCount(t) == n
  {
    if ts == {} then 1
    else
      var t :| t in ts;
      var rest := MaxWordCount(ts - {t});
      if WordCount(t) > rest then WordCount(t) else rest
  }

  /** `n` is at least 1, bounds every word count in `ts`, and is 1 or one of those counts. */
  ghost predicate MaxWordCountIs(ts: set<string>, n: nat) {
    && n >= 1
    && (forall t :: t in ts ==> WordCount(t) <= n)
    && (n == 1 || exists t :: t in ts && WordCount(t) == n)
  }

  /** The contract of MaxWordCount determines it. */
  lemma MaxWordCountUnique(ts: set<string>, n: nat)
    requires MaxWordCountIs(ts, n)
    ensures n == MaxWordCount(ts)
  {
  }

  /** Adding a term raises the maximum to its word count when that is larger. */
  lemma MaxWordCountAdd(ts: set<string>, n: nat, t: string)
    requires MaxWordCountIs(ts, n)
    ensures MaxWordCountIs(ts + {t}, if WordCount(t) > n then WordCount(t) else n)
  {
  }

  /** Considering one more term adds it to the matching terms exactly when it matches. */
  lemma MatchingTermsAdd(text: string, seen: set<string>, t: string)
    requires t !in seen
    ensures var before, after := MatchingTerms(text, seen), MatchingTerms(text, seen + {t});
      && after == (if t != [] && Occurs(text, t) then before + {t} else before)
      && |after| == |before| + (if t != [] && Occurs(text, t) then 1 else 0)
  {
    var before, after := MatchingTerms(text, seen), MatchingTerms(text, seen + {t});
    if t != [] && Occurs(text, t) {
      assert after == before + {t};
      assert t !in before;
    } else {
      assert after == before;
    }
  }

  /** One pass of the loop of `_count_term_matches` keeps its count and its maximum right. */
  lemma CountStep(text: string, seen: set<string>, t: string, n: nat)
    requires t !in seen && MaxWordCountIs(MatchingTerms(text, seen), n)
    ensures var hit := t != [] && Occurs(text, t);
      && MaxWordCountIs(MatchingTerms(text, seen + {t}), if hit && WordCount(t) > n then WordCount(t) else n)
      && |MatchingTerms(text, seen + {t})| == |MatchingTerms(text, seen)| + (if hit then 1 else 0)
  {
    MatchingTermsAdd(text, seen, t);
    if t != [] && Occurs(text, t) {
      MaxWordCountAdd(MatchingTerms(text, seen), n, t);
    }
  }

  /** `_count_term_matches`: how many terms match, and the most words in a matching term (at least 1). */
  method CountTermMatches(text: string, terms: set<string>) returns (matchCount: nat, maxTermTokens: nat)
    ensures matchCount == |MatchingTerms(text, terms)|
    ensures maxTermTokens == MaxWordCount(MatchingTerms(text, terms))
  {
    matchCount := 0;
    maxTermTokens := 1;
    var remaining := terms;
    ghost var seen: set<string> := {};
    while remaining != {}
      invariant seen <= terms && remaining == terms - seen
      invariant matchCount == |MatchingTerms(text, seen)|
      invariant MaxWordCountIs(MatchingTerms(text, seen), maxTermTokens)
      decreases |remaining|
    {
      var term :| term in remaining;
      CountStep(text, seen, term, maxTermTokens);
      if term != [] && Occurs(text, term) {
        matchCount := matchCount + 1;
        if WordCount(term) > maxTermTokens {
          maxTermTokens := WordCount(term);
        }
      }
      remaining := remaining - {term};
      seen := seen + {term};
    }
    assert seen == terms;
    MaxWordCountUnique(MatchingTerms(text, terms), maxTermTokens);
  }

  // ---------------------------------------------------------------------------
  // extract_tags
  // ---------------------------------------------------------------------------

  /** `min(1.0, 0.35 + 0.20 * count + 0.05 * (max_term_tokens - 1))`. */
  function Confidence(count: nat, maxTermTokens: nat): (c: real)
    ensures c <= 1.0
    ensures count >= 1 && maxTermTokens >= 1 ==> 0.55 <= c
  {
    var raw := 0.35 + 0.20 * count as real + 0.05 * (maxTermTokens as real - 1.0);
    if raw < 1.0 then raw else 1.0
  }

  /** Confidence grows with the match count and with the longest matching term. */
  lemma ConfidenceMonotone(c1: nat, t1: nat, c2: nat, t2: nat)
    requires c1 <= c2 && t1 <= t2
    ensures Confidence(c1, t1) <= Confidence(c2, t2)
  {
  }

  /** The entry a taxonomy row contributes, if any. */
  ghost function TagFor(text: string, row: TaxonomyRow, tagTerms: TermMap): Option<Tag> {
    if Upper(row.family) == "CLIENT_TYPE" then None
    else
      var matching := MatchingTerms(text, TermsOf(tagTerms, row.code));
      if |matching| <= 0 then None
      else Some(Tag(row.code, Confidence(|matching|, MaxWordCount(matching))))
  }

  /** The `extracted` list before sorting: one entry per contributing row, in row order. */
  ghost function Extracted(text: string, rows: seq<TaxonomyRow>, tagTerms: TermMap): seq<Tag> {
    if rows == [] then []
    else
      var prev := Extracted(text, rows[..|rows| - 1], tagTerms);
      match TagFor(text, rows[|rows| - 1], tagTerms)
      case Some(t) => prev + [t]
      case None => prev
  }

  /** The sort key `(-confidence, code)`. */
  function TagOrder(a: Tag, b: Tag): bool {
    a.confidence > b.confidence || (a.confidence == b.confidence && StrLe(a.code, b.code))
  }

  lemma TagOrderTotal()
    ensures Sorting.TotalPreorder(TagOrder)
  {
    forall a: Tag, b: Tag ensures TagOrder(a, b) || TagOrder(b, a) {
      StrLeTotal(a.code, b.code);
    }
    forall a: Tag, b: Tag, c: Tag | TagOrder(a, b) && TagOrder(b, c) ensures TagOrder(a, c) {
      if a.confidence == b.confidence == c.confidence {
        StrLeTransitive(a.code, b.code, c.code);
      }
    }
  }

  /** What `extract_tags` returns. */
  ghost function ExtractedTags(text: string, taxonomy: seq<TaxonomyRow>, synonyms: seq<SynonymRow>,
                               synonymMap: SynonymMap): seq<Tag>
    requires WellFormed(synonymMap)
  {
    var normalized := Normalized(text, synonymMap);
    if normalized == [] then []
    else Sorting.SortBy(Extracted(normalized, taxonomy, TagTermMapOf(taxonomy, synonyms)), TagOrder)
  }

  /** One more row extends the entries by that row's, if it contributes one. */
  lemma ExtractedPrefix(text: string, rows: seq<TaxonomyRow>, i: int, tagTerms: TermMap)
    requires 0 <= i < |rows|
    ensures Extracted(text, rows[..i + 1], tagTerms)
      == match TagFor(text, rows[i], tagTerms)
         case Some(t) => Extracted(text, rows[..i], tagTerms) + [t]
         case None => Extracted(text, rows[..i], tagTerms)
  {
    assert rows[..i + 1][..i] == rows[..i];
  }

  /** The loop of `extract_tags` over the taxonomy rows, before sorting. */
  method ExtractRows(normalized: string, taxonomy: seq<TaxonomyRow>, tagTerms: TermMap) returns (extracted: seq<Tag>)
    ensures extracted == Extracted(normalized, taxonomy, tagTerms)
  {
    extracted := [];
    var i := 0;
    assert taxonomy[..0] == [];
    while i < |taxonomy|
      invariant 0 <= i <= |taxonomy|
      invariant extracted == Extracted(normalized, taxonomy[..i], tagTerms)
    {
      var row := taxonomy[i];
      ExtractedPrefix(normalized, taxonomy, i, tagTerms);
      if Upper(row.family) != "CLIENT_TYPE" {
        var terms := TermsOf(tagTerms, row.code);
        var count, maxTermTokens := CountTermMatches(normalized, terms);
        if count > 0 {
          extracted := extracted + [Tag(row.code, Confidence(count, maxTermTokens))];
        }
      }
      i := i + 1;
    }
    assert taxonomy[..i] == taxonomy;
  }

  /** `extract_tags`. */
  method ExtractTags(text: string, taxonomy: seq<TaxonomyRow>, synonyms: seq<SynonymRow>,
                     synonymMap: SynonymMap) returns (extracted: seq<Tag>)
    requires WellFormed(synonymMap)
    ensures extracted == ExtractedTags(text, taxonomy, synonyms, synonymMap)
    ensures Normalized(text, synonymMap) == [] ==> extracted == []
  {
    var normalized := NormalizeText(text, synonymMap);
    if normalized == [] {
      return [];
    }
    var tagTerms := BuildTagTermMap(taxonomy, synonyms);
    extracted := ExtractRows(normalized, taxonomy, tagTerms);
    extracted := Sorting.SortBy(extracted, TagOrder);
  }

  /** Every entry comes from a taxonomy row outside CLIENT_TYPE and has confidence in [0.55, 1]. */
  lemma {:induction false} ExtractedFacts(text: string, rows: seq<TaxonomyRow>, tagTerms: TermMap)
    ensures forall t :: t in Extracted(text, rows, tagTerms) ==>
      && 0.55 <= t.confidence <= 1.0
      && exists i :: 0 <= i < |rows| && rows[i].code == t.code && Upper(rows[i].family) != "CLIENT_TYPE"
    ensures |Extracted(text, rows, tagTerms)| <= |rows|
    decreases |rows|
  {
    if rows != [] {
      var prev := rows[..|rows| - 1];
      ExtractedFacts(text, prev, tagTerms);
      forall t | t in Extracted(text, rows, tagTerms)
        ensures exists i :: 0 <= i < |rows| && rows[i].code == t.code && Upper(rows[i].family) != "CLIENT_TYPE"
      {
        if t in Extracted(text, prev, tagTerms) {
          var i :| 0 <= i < |prev| && prev[i].code == t.code && Upper(prev[i].family) != "CLIENT_TYPE";
          assert rows[i] == prev[i];
        } else {
          assert rows[|rows| - 1].code == t.code;
        }
      }
    }
  }

  /**
   * `extract_tags`: the result is ordered by confidence descending, then code ascending;
   * every confidence lies in [0.55, 1]; every code is the code of a taxonomy row whose
   * family is not CLIENT_TYPE; there are no more entries than taxonomy rows.
   */
  lemma ExtractedTagsProperties(text: string, taxonomy: seq<TaxonomyRow>, synonyms: seq<SynonymRow>,
                                synonymMap: SynonymMap)
    requires WellFormed(synonymMap)
    ensures var r := ExtractedTags(text, taxonomy, synonyms, synonymMap);
      && Sorting.SortedBy(r, TagOrder)
      && |r| <= |taxonomy|
      && forall t :: t in r ==>
           && 0.55 <= t.confidence <= 1.0
           && exists i :: 0 <= i < |taxonomy| && taxonomy[i].code == t.code
                          && Upper(taxonomy[i].family) != "CLIENT_TYPE"
  {
    var normalized := Normalized(text, synonymMap);
    if normalized != [] {
      var e := Extracted(normalized, taxonomy, TagTermMapOf(taxonomy, synonyms));
      ExtractedFacts(normalized, taxonomy, TagTermMapOf(taxonomy, synonyms));
      TagOrderTotal();
      Sorting.SortBySorted(e, TagOrder);
      var r := Sorting.SortBy(e, TagOrder);
      forall t | t in r ensures t in e {
        assert t in multiset(r);
      }
    }
  }
}
