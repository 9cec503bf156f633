/**
 * The ranking logic of the categoriser service: the final-score blends, the feature
 * stages of the structured RFQ search, the per-client merge of candidate rows across
 * regions, the merge of observation tags into client tags, the matched-tag explanation,
 * the PM drill-down blend and the sort-and-truncate of every result list.
 *
 * The repository (SQLite), the BM25 library and the embedding model are not part of this
 * model: what they return enters as parameters.
 */
module Service {
  import opened Wrappers
  import opened Strings
  import Sorting
  import TextProcessing
  import Tagging
  import Features
  import Matching
  import Rfq
  import Seqs

  // ---------------------------------------------------------------------------
  // Score blends
  // ---------------------------------------------------------------------------

  /** The four component scores of a client match. */
  datatype Components = Components(structured: real, semantic: real, lexical: real, taxonomy: real)

  predicate InUnit(x: real) {
    0.0 <= x <= 1.0
  }

  predicate ComponentsInUnit(c: Components) {
    InUnit(c.structured) && InUnit(c.semantic) && InUnit(c.lexical) && InUnit(c.taxonomy)
  }

  /** `_weighted_sum`: the idea-to-client final score. */
  function WeightedSum(c: Components): real {
    c.structured * 0.45 + c.semantic * 0.25 + c.lexical * 0.15 + c.taxonomy * 0.15
  }

  /** The weights sum to 1, so components in [0, 1] give a final score in [0, 1]. */
  lemma WeightedSumBounds(c: Components)
    requires ComponentsInUnit(c)
    ensures InUnit(WeightedSum(c))
    ensures WeightedSum(Components(1.0, 1.0, 1.0, 1.0)) == 1.0
  {
    assert WeightedSum(c) <= 0.45 + 0.25 + 0.15 + 0.15;
  }

  /** The final score never falls when a component rises. */
  lemma WeightedSumMonotone(c: Components, c': Components)
    requires c.structured <= c'.structured && c.semantic <= c'.semantic
    requires c.lexical <= c'.lexical && c.taxonomy <= c'.taxonomy
    ensures WeightedSum(c) <= WeightedSum(c')
  {
  }

  /** The client-to-idea final score: 0.45 semantic, 0.35 lexical, 0.20 taxonomy. */
  const JobAWeights: Matching.MatchWeights := Matching.MatchWeights(0.45, 0.35, 0.20)

  function JobAScore(semantic: real, lexical: real, taxonomy: real): real {
    Matching.CombineScores(semantic, lexical, taxonomy, JobAWeights)
  }

  /** Its weights sum to 1 as well: scores in [0, 1] give a final score in [0, 1]. */
  lemma JobAScoreBounds(semantic: real, lexical: real, taxonomy: real)
    requires InUnit(semantic) && InUnit(lexical) && InUnit(taxonomy)
    ensures InUnit(JobAScore(semantic, lexical, taxonomy))
    ensures JobAScore(1.0, 1.0, 1.0) == 1.0
  {
    Matching.CombineScoresBounds(semantic, lexical, taxonomy, JobAWeights);
  }

  // ---------------------------------------------------------------------------
  // Feature stages
  // ---------------------------------------------------------------------------

  /** The feature kinds the RFQ aggregation stores and the structured search asks for. */
  const FeatureKinds: set<string> := {"PAIR_PRODUCT_TENOR", "PAIR_PRODUCT", "PAIR", "PRODUCT", "TENOR"}

  /**
   * `_choose_feature_stages`: the most specific combinations first. Never empty; starts
   * with the pair-product-tenor stage exactly when all three signals are present; has a
   * tenor stage exactly when the tenor is present; falls back to the broad stage exactly
   * when no signal is present.
   */
  function ChooseFeatureStages(pair: string, product: string, tenor: string): (stages: seq<seq<string>>)
    ensures |stages| > 0
    ensures stages[0] == ["PAIR_PRODUCT_TENOR"] <==> pair != "" && product != "" && tenor != ""
    ensures ["TENOR"] in stages <==> tenor != ""
    ensures stages == [["PAIR_PRODUCT", "PAIR", "PRODUCT"]] <==> pair == "" && product == "" && tenor == ""
    ensures forall i, k :: 0 <= i < |stages| && k in stages[i] ==> k in FeatureKinds
  {
    var full := if pair != "" && product != "" && tenor != "" then [["PAIR_PRODUCT_TENOR"]] else [];
    var both := if pair != "" && product != "" then [["PAIR_PRODUCT"]] else [];
    var single :=
      if pair != "" && product != "" then [["PAIR", "PRODUCT"]]
      else if pair != "" then [["PAIR", "PAIR_PRODUCT"]]
      else if product != "" then [["PRODUCT", "PAIR_PRODUCT"]]
      else [];
    var byTenor := if tenor != "" then [["TENOR"]] else [];
    var stages := full + both + single + byTenor;
    if stages == [] then [["PAIR_PRODUCT", "PAIR", "PRODUCT"]] else stages
  }

  // ---------------------------------------------------------------------------
  // Candidate clients
  // ---------------------------------------------------------------------------

  /** An aggregated row of `query_rfq_candidate_entities`; `None` is a SQL NULL. */
  datatype CandidateRow = CandidateRow(
    entityId: int,
    recencySum: Option<real>,
    tradeCountSum: Option<real>,
    score30dSum: Option<real>,
    score90dSum: Option<real>,
    score365dSum: Option<real>)

  /** `float(x or 0.0)`. */
  function OrZero(x: Option<real>): real {
    if x.Some? then x.value else 0.0
  }

  /** `x or None` for a string argument. */
  function NoneIfEmpty(s: string): (r: Option<string>)
    ensures r.None? <==> s == ""
  {
    if s == "" then None else Some(s)
  }

  /** The arguments of one `query_rfq_candidate_entities` call. */
  datatype QueryArgs = QueryArgs(
    entityType: string,
    region: string,
    country: Option<string>,
    featureKinds: seq<string>,
    ccyPair: Option<string>,
    productType: Option<string>,
    tenorBucket: Option<string>,
    limit: int)

  /** What the candidate search holds fixed for one idea: its signals, stages and the repository query. */
  datatype Search = Search(
    signals: Rfq.Signals,
    targetCountry: Option<string>,
    stages: seq<seq<string>>,
    cap: int,
    query: QueryArgs -> seq<CandidateRow>)

  /** The candidate record kept per client. */
  datatype Payload = Payload(
    structuredRaw: real,
    tradeCountSum: real,
    score30dSum: real,
    score90dSum: real,
    score365dSum: real,
    matchedRegion: string,
    strictRegion: bool,
    stage: string)

  /** 1.0 for the first region tried, 0.85 for every fallback region. */
  function RegionPenalty(idx: nat): real {
    if idx == 0 then 1.0 else 0.85
  }

  function PayloadOf(row: CandidateRow, reg: string, idx: nat, stage: seq<string>): Payload {
    Payload(
      (OrZero(row.recencySum) + 0.002 * OrZero(row.tradeCountSum)) * RegionPenalty(idx),
      OrZero(row.tradeCountSum),
      OrZero(row.score30dSum),
      OrZero(row.score90dSum),
      OrZero(row.score365dSum),
      reg,
      idx == 0,
      Join(stage, ","))
  }

  /**
   * The same row found in a fallback region is worth 0.85 of what it is worth in the
   * first region and is not marked strict; so it never displaces the row found there.
   */
  lemma FallbackPenalty(row: CandidateRow, reg: string, reg': string, idx: nat, stage: seq<string>)
    requires idx > 0
    requires OrZero(row.recencySum) >= 0.0 && OrZero(row.tradeCountSum) >= 0.0
    ensures PayloadOf(row, reg', idx, stage).structuredRaw == 0.85 * PayloadOf(row, reg, 0, stage).structuredRaw
    ensures PayloadOf(row, reg', idx, stage).structuredRaw <= PayloadOf(row, reg, 0, stage).structuredRaw
    ensures PayloadOf(row, reg, 0, stage).strictRegion && !PayloadOf(row, reg', idx, stage).strictRegion
  {
  }

  /** One row offered to the merge. */
  datatype Offer = Offer(clientId: int, payload: Payload)

  /** The `candidates` dict: payloads by client, and the clients in insertion order. */
  datatype Candidates = Candidates(payloads: map<int, Payload>, order: seq<int>)

  predicate Distinct<T(==)>(s: seq<T>) {
    forall i, j :: 0 <= i < j < |s| ==> s[i] != s[j]
  }

  /** Keeps the offer when the client is new or the offer is strictly better. */
  function Consider(c: Candidates, o: Offer): Candidates {
    if o.clientId !in c.payloads then
      Candidates(c.payloads[o.clientId := o.payload], c.order + [o.clientId])
    else if o.payload.structuredRaw > c.payloads[o.clientId].structuredRaw then
      Candidates(c.payloads[o.clientId := o.payload], c.order)
    else c
  }

  /** The candidates after the offers, in order; each client is listed once, in first-offer order. */
  function Merged(offers: seq<Offer>): (c: Candidates)
    ensures Distinct(c.order)
    ensures forall id :: id in c.order <==> id in c.payloads
  {
    if offers == [] then Candidates(map[], [])
    else Consider(Merged(offers[..|offers| - 1]), offers[|offers| - 1])
  }

  function QueryFor(s: Search, reg: string, idx: nat, stage: seq<string>): QueryArgs {
    QueryArgs("CLIENT", reg, if idx == 0 then s.targetCountry else None, stage,
              NoneIfEmpty(s.signals.ccyPair), NoneIfEmpty(s.signals.productType),
              NoneIfEmpty(s.signals.tenorBucket), s.cap)
  }

  /** The offers of one stage in one region. */
  function StageOffers(s: Search, reg: string, idx: nat, stage: seq<string>): (r: seq<Offer>)
    ensures |r| == |s.query(QueryFor(s, reg, idx, stage))|
  {
    var rows := s.query(QueryFor(s, reg, idx, stage));
    seq(|rows|, i requires 0 <= i < |rows| => Offer(rows[i].entityId, PayloadOf(rows[i], reg, idx, stage)))
  }

  /** The offers of the given stages, in order, in one region. */
  function RegionOffers(s: Search, reg: string, idx: nat, stages: seq<seq<string>>): seq<Offer> {
    if stages == [] then []
    else RegionOffers(s, reg, idx, stages[..|stages| - 1]) + StageOffers(s, reg, idx, stages[|stages| - 1])
  }

  /** The offers of every stage in each of the regions, the i-th region at index i. */
  function Offers(s: Search, regions: seq<string>): seq<Offer> {
    if regions == [] then []
    else Offers(s, regions[..|regions| - 1]) + RegionOffers(s, regions[|regions| - 1], |regions| - 1, s.stages)
  }

  /** `(region or signals.region or "EUROPE").upper()`; an absent argument is "". */
  function TargetRegion(region: string, signals: Rfq.Signals): string {
    Upper(if region != "" then region else if signals.region != "" then signals.region else "EUROPE")
  }

  function SearchFor(ideaText: string, country: string, cap: int, query: QueryArgs -> seq<CandidateRow>): Search {
    var signals := Rfq.ExtractStructuredSignals(ideaText);
    Search(signals, NoneIfEmpty(Upper(country)),
           ChooseFeatureStages(signals.ccyPair, signals.productType, signals.tenorBucket), cap, query)
  }

  /** How many regions the search tries: one when the first already gives `fallbackMin` clients. */
  function RegionsTried(s: Search, tries: seq<string>, fallbackMin: int): (n: nat)
    ensures n <= |tries|
  {
    if tries == [] then 0
    else if |Merged(Offers(s, tries[..1])).payloads| >= fallbackMin then 1
    else |tries|
  }

  datatype Metadata = Metadata(
    targetRegion: string,
    targetCountry: Option<string>,
    usedRegions: seq<string>,
    fallbackUsed: bool,
    signals: Rfq.Signals)

  /**
   * The merge loop of `_candidate_clients`: every stage of every region tried, in order,
   * offers its rows; a region's rows are penalised unless it is the first; the search
   * stops after the first region when that gives at least `fallbackMin` clients.
   */
  method CandidateClients(ideaText: string, region: string, country: string, cap: int, fallbackMin: int,
                          regions: seq<string>, query: QueryArgs -> seq<CandidateRow>)
    returns (candidates: Candidates, meta: Metadata)
    ensures meta.signals == Rfq.ExtractStructuredSignals(ideaText)
    ensures meta.targetRegion == TargetRegion(region, meta.signals)
    ensures meta.targetCountry == NoneIfEmpty(Upper(country))
    ensures var s := SearchFor(ideaText, country, cap, query);
      var tries := Rfq.RegionFallbacks(meta.targetRegion, regions);
      && meta.usedRegions == tries[..RegionsTried(s, tries, fallbackMin)]
      && candidates == Merged(Offers(s, meta.usedRegions))
    ensures meta.fallbackUsed <==> |meta.usedRegions| > 1
    ensures (candidates, meta) == CandidateSearch(ideaText, region, country, cap, fallbackMin, regions, query)
  {
    var s := SearchFor(ideaText, country, cap, query);
    var targetRegion := TargetRegion(region, s.signals);
    var regionsToTry := Rfq.RegionFallbacks(targetRegion, regions);
    var usedRegions;
    candidates, usedRegions := MergeRegions(s, regionsToTry, fallbackMin);
    meta := Metadata(targetRegion, s.targetCountry, usedRegions, |usedRegions| > 1, s.signals);
    assert meta.signals == s.signals && meta.usedRegions == usedRegions;
  }

  /** The candidates and the metadata of `_candidate_clients`, as one value. */
  function CandidateSearch(ideaText: string, region: string, country: string, cap: int, fallbackMin: int,
                           regions: seq<string>, query: QueryArgs -> seq<CandidateRow>): (Candidates, Metadata)
  {
    var s := SearchFor(ideaText, country, cap, query);
    var targetRegion := TargetRegion(region, s.signals);
    var tries := Rfq.RegionFallbacks(targetRegion, regions);
    var used := tries[..RegionsTried(s, tries, fallbackMin)];
    (Merged(Offers(s, used)), Metadata(targetRegion, s.targetCountry, used, |used| > 1, s.signals))
  }

  /** The loop over the regions to try, with its early stop. */
  method MergeRegions(s: Search, regionsToTry: seq<string>, fallbackMin: int)
    returns (candidates: Candidates, usedRegions: seq<string>)
    ensures usedRegions == regionsToTry[..RegionsTried(s, regionsToTry, fallbackMin)]
    ensures candidates == Merged(Offers(s, usedRegions))
  {
    candidates := Candidates(map[], []);
    usedRegions := [];
    var idx := 0;
    while idx < |regionsToTry|
      invariant 0 <= idx <= |regionsToTry|
      invariant usedRegions == regionsToTry[..idx]
      invariant candidates == Merged(Offers(s, usedRegions))
      invariant idx > 0 ==> |Merged(Offers(s, regionsToTry[..1])).payloads| < fallbackMin
    {
      var reg := regionsToTry[idx];
      candidates := MergeRegion(candidates, Offers(s, usedRegions), s, reg, idx);
      assert (usedRegions + [reg])[..idx] == usedRegions;
      assert regionsToTry[..idx + 1] == regionsToTry[..idx] + [reg];
      usedRegions := usedRegions + [reg];
      idx := idx + 1;
      if idx == 1 && |candidates.payloads| >= fallbackMin {
        break;
      }
    }
  }

  /** One region of the merge loop: every stage, in order. */
  method MergeRegion(c: Candidates, ghost before: seq<Offer>, s: Search, reg: string, idx: nat)
    returns (candidates: Candidates)
    requires c == Merged(before)
    ensures candidates == Merged(before + RegionOffers(s, reg, idx, s.stages))
  {
    candidates := c;
    var k := 0;
    assert before + RegionOffers(s, reg, idx, s.stages[..0]) == before;
    while k < |s.stages|
      invariant 0 <= k <= |s.stages|
      invariant candidates == Merged(before + RegionOffers(s, reg, idx, s.stages[..k]))
    {
      ghost var done := before + RegionOffers(s, reg, idx, s.stages[..k]);
      candidates := MergeStage(candidates, done, s, reg, idx, s.stages[k]);
      RegionOffersStep(s, reg, idx, s.stages, k);
      AppendAssoc(before, RegionOffers(s, reg, idx, s.stages[..k]), StageOffers(s, reg, idx, s.stages[k]));
      k := k + 1;
    }
    assert s.stages[..k] == s.stages;
  }

  lemma RegionOffersStep(s: Search, reg: string, idx: nat, stages: seq<seq<string>>, k: nat)
    requires k < |stages|
    ensures RegionOffers(s, reg, idx, stages[..k + 1])
         == RegionOffers(s, reg, idx, stages[..k]) + StageOffers(s, reg, idx, stages[k])
  {
    assert stages[..k + 1][..k] == stages[..k];
  }

  lemma AppendAssoc<T>(a: seq<T>, b: seq<T>, c: seq<T>)
    ensures a + (b + c) == (a + b) + c
  {
  }

  /** One stage of one region: the rows of the query, in order. */
  method MergeStage(c: Candidates, ghost before: seq<Offer>, s: Search, reg: string, idx: nat, stage: seq<string>)
    returns (candidates: Candidates)
    requires c == Merged(before)
    ensures candidates == Merged(before + StageOffers(s, reg, idx, stage))
  {
    candidates := c;
    var rows := s.query(QueryFor(s, reg, idx, stage));
    ghost var offers := StageOffers(s, reg, idx, stage);
    var j := 0;
    assert before + offers[..0] == before;
    while j < |rows|
      invariant 0 <= j <= |rows|
      invariant candidates == Merged(before + offers[..j])
    {
      var o := Offer(rows[j].entityId, PayloadOf(rows[j], reg, idx, stage));
      assert o == offers[j];
      MergedPrefix(before, offers, j);
      candidates := Consider(candidates, o);
      j := j + 1;
    }
    assert offers[..j] == offers;
  }

  lemma MergedPrefix(before: seq<Offer>, offers: seq<Offer>, j: nat)
    requires j < |offers|
    ensures Merged(before + offers[..j + 1]) == Consider(Merged(before + offers[..j]), offers[j])
  {
    var next := before + offers[..j + 1];
    assert next[..|next| - 1] == before + offers[..j] && next[|next| - 1] == offers[j];
  }

  /** Every client offered has an entry, and no other client does. */
  lemma {:induction false} MergedKeys(offers: seq<Offer>, id: int)
    ensures id in Merged(offers).payloads <==> exists k :: 0 <= k < |offers| && offers[k].clientId == id
    decreases |offers|
  {
    if offers != [] {
      var prev := offers[..|offers| - 1];
      MergedKeys(prev, id);
      if id in Merged(prev).payloads {
        var k :| 0 <= k < |prev| && prev[k].clientId == id;
        assert offers[k].clientId == id;
      }
      if exists k :: 0 <= k < |offers| && offers[k].clientId == id {
        var k :| 0 <= k < |offers| && offers[k].clientId == id;
        if k < |prev| {
          assert prev[k].clientId == id;
        }
      }
    }
  }

  /**
   * The payload kept for a client is the offer at position `k`: no offer for that client
   * has a greater `structuredRaw`, and every earlier one has a smaller one, so on a tie
   * the earliest offer stays.
   */
  lemma {:induction false} MergedBest(offers: seq<Offer>, id: int) returns (k: nat)
    requires id in Merged(offers).payloads
    ensures k < |offers| && offers[k] == Offer(id, Merged(offers).payloads[id])
    ensures forall j :: 0 <= j < |offers| && offers[j].clientId == id ==>
      offers[j].payload.structuredRaw <= Merged(offers).payloads[id].structuredRaw
    ensures forall j :: 0 <= j < k && offers[j].clientId == id ==>
      offers[j].payload.structuredRaw < Merged(offers).payloads[id].structuredRaw
    decreases |offers|
  {
    var last := |offers| - 1;
    var prev := offers[..last];
    var m := Merged(prev);
    var o := offers[last];
    assert forall j :: 0 <= j < last ==> offers[j] == prev[j];
    assert Merged(offers) == Consider(m, o);
    var best := Merged(offers).payloads[id];
    forall j | 0 <= j < |offers| && offers[j].clientId == id
      ensures offers[j].payload.structuredRaw <= best.structuredRaw
    {
      MergedMax(offers, id, j);
    }
    if id !in m.payloads {
      MergedKeys(prev, id);
      assert o.clientId == id && best == o.payload;
      k := last;
    } else {
      var p := m.payloads[id];
      var k' := MergedBest(prev, id);
      if o.clientId == id && o.payload.structuredRaw > p.structuredRaw {
        assert best == o.payload;
        k := last;
      } else {
        assert best == p;
        k := k';
      }
    }
  }

  /** No offer for a client beats the payload kept for it. */
  lemma {:induction false} MergedMax(offers: seq<Offer>, id: int, j: nat)
    requires j < |offers| && offers[j].clientId == id
    ensures id in Merged(offers).payloads
    ensures offers[j].payload.structuredRaw <= Merged(offers).payloads[id].structuredRaw
    decreases |offers|
  {
    var last := |offers| - 1;
    var prev := offers[..last];
    var m := Merged(prev);
    var o := offers[last];
    assert Merged(offers) == Consider(m, o);
    if j < last {
      assert prev[j] == offers[j];
      MergedMax(prev, id, j);
    }
  }

  // ---------------------------------------------------------------------------
  // Client tags from observation tags
  // ---------------------------------------------------------------------------

  /** `merged.get(code, 0.0)`. */
  function GetOrZero(m: map<string, real>, code: string): real {
    if code in m then m[code] else 0.0
  }

  function MaxOf(a: real, b: real): real {
    if a >= b then a else b
  }

  /** The merged confidences after the tag rows, in order. */
  function MergedTags(rows: seq<Tagging.Tag>): map<string, real> {
    if rows == [] then map[]
    else
      var m := MergedTags(rows[..|rows| - 1]);
      var t := rows[|rows| - 1];
      m[t.code := MaxOf(GetOrZero(m, t.code), t.confidence * 0.9)]
  }

  /** The tag rows of all observations, one observation after the other. */
  function Flatten(obsTags: seq<seq<Tagging.Tag>>): seq<Tagging.Tag> {
    if obsTags == [] then [] else Flatten(obsTags[..|obsTags| - 1]) + obsTags[|obsTags| - 1]
  }

  /**
   * The merge of `refresh_client_tags_from_observations`: `obsTags` holds the tag rows of
   * each of the client's observations, as the repository lists them.
   */
  method MergeObservationTags(obsTags: seq<seq<Tagging.Tag>>) returns (merged: map<string, real>)
    ensures merged == MergedTags(Flatten(obsTags))
  {
    merged := map[];
    for i := 0 to |obsTags|
      invariant merged == MergedTags(Flatten(obsTags[..i]))
    {
      var tags := obsTags[i];
      ghost var done := Flatten(obsTags[..i]);
      assert obsTags[..i + 1][..i] == obsTags[..i];
      assert Flatten(obsTags[..i + 1]) == done + tags;
      assert done + tags[..0] == done;
      for j := 0 to |tags|
        invariant merged == MergedTags(done + tags[..j])
      {
        var tag := tags[j];
        ghost var next := done + tags[..j + 1];
        assert next[..|next| - 1] == done + tags[..j] && next[|next| - 1] == tag;
        merged := merged[tag.code := MaxOf(GetOrZero(merged, tag.code), tag.confidence * 0.9)];
      }
      assert tags[..|tags|] == tags;
    }
    assert obsTags[..|obsTags|] == obsTags;
  }

  /**
   * A code gets a merged confidence iff some row has it; that confidence is the largest
   * of 0.9 times the row confidences of the code, or 0 when all of those are negative.
   */
  lemma {:induction false} MergedTagsMax(rows: seq<Tagging.Tag>, code: string)
    ensures code in MergedTags(rows) <==> exists i :: 0 <= i < |rows| && rows[i].code == code
    ensures code in MergedTags(rows) ==>
      && 0.0 <= MergedTags(rows)[code]
      && (forall i :: 0 <= i < |rows| && rows[i].code == code ==> rows[i].confidence * 0.9 <= MergedTags(rows)[code])
      && (|| MergedTags(rows)[code] == 0.0
          || exists i :: 0 <= i < |rows| && rows[i].code == code && MergedTags(rows)[code] == rows[i].confidence * 0.9)
    decreases |rows|
  {
    if rows != [] {
      var last := |rows| - 1;
      var prev := rows[..last];
      MergedTagsMax(prev, code);
      assert forall i :: 0 <= i < last ==> rows[i] == prev[i];
      if code in MergedTags(prev) && rows[last].code != code {
        var v := MergedTags(rows)[code];
        if v != 0.0 {
          var i :| 0 <= i < |prev| && prev[i].code == code && v == prev[i].confidence * 0.9;
          assert rows[i].code == code && v == rows[i].confidence * 0.9;
        }
      }
      if code in MergedTags(prev) && rows[last].code == code {
        var v := MergedTags(rows)[code];
        if v != 0.0 && v != rows[last].confidence * 0.9 {
          var i :| 0 <= i < |prev| && prev[i].code == code && v == prev[i].confidence * 0.9;
          assert rows[i].code == code && v == rows[i].confidence * 0.9;
        }
      }
    }
  }

  // ---------------------------------------------------------------------------
  // Matched tags of the explanation
  // ---------------------------------------------------------------------------

  lemma StrLeTotalPreorder()
    ensures Sorting.TotalPreorder(StrLe)
  {
    forall a, b ensures StrLe(a, b) || StrLe(b, a) {
      StrLeTotal(a, b);
    }
    forall a, b, c | StrLe(a, b) && StrLe(b, c) ensures StrLe(a, c) {
      StrLeTransitive(a, b, c);
    }
  }

  /** `sorted(set(...))`: the strings in ascending order, each once. */
  method SortedStrings(found: set<string>) returns (r: seq<string>)
    ensures forall i, j :: 0 <= i < j < |r| ==> StrLt(r[i], r[j])
    ensures forall t :: t in r <==> t in found
  {
    var items: seq<string> := [];
    var rest := found;
    while rest != {}
      invariant rest <= found
      invariant multiset(items) == multiset(found - rest)
      decreases |rest|
    {
      var t :| t in rest;
      assert found - (rest - {t}) == (found - rest) + {t};
      items := items + [t];
      rest := rest - {t};
    }
    assert found - rest == found;
    StrLeTotalPreorder();
    r := Sorting.SortBy(items, StrLe);
    Sorting.SortBySorted(items, StrLe);
    forall i, j | 0 <= i < j < |r| ensures StrLt(r[i], r[j]) {
      if r[i] == r[j] {
        Sorting.CountsTwice(r, i, j);
        assert false;
      }
    }
    forall t ensures t in r <==> t in found {
      assert t in r <==> t in multiset(r);
    }
  }

  /** The codes a query family set and the candidate's set of the same family share. */
  predicate SharedInFamily(query: Matching.FamilyTags, candidate: Matching.FamilyTags, t: string) {
    exists f :: f in query && t in query[f] && t in Matching.Get(candidate, f)
  }

  /**
   * The `matched_tags` of `_extract_explanation` (and of the client-to-idea explanation):
   * the codes shared within a family, ascending and without repeats.
   */
  method MatchedTags(query: Matching.FamilyTags, candidate: Matching.FamilyTags) returns (matched: seq<string>)
    ensures forall i, j :: 0 <= i < j < |matched| ==> StrLt(matched[i], matched[j])
    ensures forall t :: t in matched <==> SharedInFamily(query, candidate, t)
  {
    var found: set<string> := {};
    var families := query.Keys;
    while families != {}
      invariant families <= query.Keys
      invariant forall t :: t in found <==>
        exists f :: f in query && f !in families && t in query[f] && t in Matching.Get(candidate, f)
      decreases |families|
    {
      var f :| f in families;
      found := found + (query[f] * Matching.Get(candidate, f));
      families := families - {f};
    }
    matched := SortedStrings(found);
  }

  // ---------------------------------------------------------------------------
  // Ranked results
  // ---------------------------------------------------------------------------

  /** One row of a match run; `structuredScore` is absent in client-to-idea runs. */
  datatype MatchResult = MatchResult(
    targetId: int,
    targetName: string,
    semanticScore: real,
    lexicalScore: real,
    taxonomyScore: real,
    structuredScore: Option<real>,
    finalScore: real)

  /** `key=lambda x: x["final_score"], reverse=True`: a higher final score goes first. */
  predicate FinalFirst(a: MatchResult, b: MatchResult) {
    a.finalScore >= b.finalScore
  }

  lemma FinalFirstTotal()
    ensures Sorting.TotalPreorder(FinalFirst)
  {
  }

  /** `results.sort(key=final_score, reverse=True)` then `results[:top_n]`. */
  function RankResults(results: seq<MatchResult>, topN: int): seq<MatchResult> {
    Sorting.TopBy(results, FinalFirst, topN)
  }

  /**
   * At most `top_n` rows (exactly `min(top_n, len)` for a non-negative `top_n`), by final
   * score descending, taken from the input; no row left out scores above a row kept; rows
   * with equal final scores keep their input order.
   */
  lemma RankResultsProperties(results: seq<MatchResult>, topN: int)
    ensures var r := RankResults(results, topN);
      && |r| == Sorting.SliceLen(|results|, topN)
      && (topN >= 0 ==> |r| == if topN <= |results| then topN else |results|)
      && (forall i, j :: 0 <= i < j < |r| ==> r[j].finalScore <= r[i].finalScore)
      && multiset(r) <= multiset(results)
      && (forall x, y :: x in multiset(r) && y in multiset(results) - multiset(r) ==> y.finalScore <= x.finalScore)
      && (forall key :: Sorting.TieClass(r, FinalFirst, key) <= Sorting.TieClass(results, FinalFirst, key))
  {
    FinalFirstTotal();
    Sorting.TopByProperties(results, FinalFirst, topN);
    var r := RankResults(results, topN);
    forall i, j | 0 <= i < j < |r| ensures r[j].finalScore <= r[i].finalScore {
      assert FinalFirst(r[i], r[j]);
    }
    forall x, y | x in multiset(r) && y in multiset(results) - multiset(r) ensures y.finalScore <= x.finalScore {
      assert FinalFirst(x, y);
    }
  }

  /**
   * The BM25 scorer and the two embedding similarities, each giving one raw score per
   * document: `semanticRaw` is the cosine used for clients and ideas, `pmSemanticRaw` the
   * dot product over the query norm that the PM drill-down uses.
   */
  datatype Scorers = Scorers(
    bm25: (seq<seq<string>>, seq<string>) -> seq<real>,
    semanticRaw: (string, seq<string>) -> seq<real>,
    pmSemanticRaw: (string, seq<string>) -> seq<real>)

  ghost predicate ScoresEachDocument(sc: Scorers) {
    && (forall d, q :: |sc.bm25(d, q)| == |d|)
    && (forall q, d :: |sc.semanticRaw(q, d)| == |d|)
    && (forall q, d :: |sc.pmSemanticRaw(q, d)| == |d|)
  }

  /** The lexical and semantic scores of the documents against a query, each in [0, 1]. */
  function LexicalScores(query: string, docs: seq<string>, sc: Scorers): (r: seq<real>)
    requires ScoresEachDocument(sc)
    ensures |r| == |docs| && forall i :: 0 <= i < |r| ==> InUnit(r[i])
  {
    Features.Bm25ScoreDocumentsProperties(query, docs, sc.bm25);
    Features.Bm25ScoreDocuments(query, docs, sc.bm25)
  }

  function SemanticScores(query: string, docs: seq<string>, sc: Scorers): (r: seq<real>)
    requires ScoresEachDocument(sc)
    ensures |r| == |docs| && forall i :: 0 <= i < |r| ==> InUnit(r[i])
  {
    Features.MinMaxScaleBounds(sc.semanticRaw(query, docs));
    Features.MinMaxScale(sc.semanticRaw(query, docs))
  }

  function PmSemanticScores(query: string, docs: seq<string>, sc: Scorers): (r: seq<real>)
    requires ScoresEachDocument(sc)
    ensures |r| == |docs| && forall i :: 0 <= i < |r| ==> InUnit(r[i])
  {
    Features.MinMaxScaleBounds(sc.pmSemanticRaw(query, docs));
    Features.MinMaxScale(sc.pmSemanticRaw(query, docs))
  }

  function Scaled(raw: seq<real>): (r: seq<real>)
    ensures |r| == |raw| && forall i :: 0 <= i < |r| ==> InUnit(r[i])
  {
    Features.MinMaxScaleBounds(raw);
    Features.MinMaxScale(raw)
  }

  // ---------------------------------------------------------------------------
  // Idea to clients
  // ---------------------------------------------------------------------------

  /** A candidate client's profile: its type, profile text and tags. */
  datatype ClientProfile = ClientProfile(
    clientId: int,
    clientName: string,
    clientType: string,
    text: string,
    tags: seq<Matching.TagRow>)

  /** `taxonomy_overlap_score` with the family weights of the candidate's client type. */
  function TaxonomyScore(query: Matching.FamilyTags, candidate: Matching.FamilyTags, clientType: string,
                         base: Matching.FamilyWeights): (r: real)
    ensures InUnit(r)
  {
    Features.Clamp(Matching.OverlapSum(query, candidate, Matching.AdjustedWeights(clientType, base)), 0.0, 1.0)
  }

  /** The result row of one candidate client. */
  function ClientMatchOf(p: ClientProfile, c: Components): MatchResult {
    MatchResult(p.clientId, p.clientName, c.semantic, c.lexical, c.taxonomy, Some(c.structured), WeightedSum(c))
  }

  /** The structured score's raw input: the merged candidate payload of each profile. */
  function StructuredRaws(candidates: Candidates, profiles: seq<ClientProfile>): seq<real>
    requires forall i :: 0 <= i < |profiles| ==> profiles[i].clientId in candidates.payloads
  {
    seq(|profiles|, i requires 0 <= i < |profiles| => candidates.payloads[profiles[i].clientId].structuredRaw)
  }

  function ProfileTexts(profiles: seq<ClientProfile>): seq<string> {
    seq(|profiles|, i requires 0 <= i < |profiles| => profiles[i].text)
  }

  /** The unsorted result rows of `match_clients_for_idea`, one per profile, in order. */
  function ClientMatches(ideaText: string, ideaFamily: Matching.FamilyTags, candidates: Candidates,
                         profiles: seq<ClientProfile>, sc: Scorers, base: Matching.FamilyWeights): (r: seq<MatchResult>)
    requires ScoresEachDocument(sc)
    requires forall i :: 0 <= i < |profiles| ==> profiles[i].clientId in candidates.payloads
    ensures |r| == |profiles|
  {
    var docs := ProfileTexts(profiles);
    var lexical := LexicalScores(ideaText, docs, sc);
    var semantic := SemanticScores(ideaText, docs, sc);
    var structured := Scaled(StructuredRaws(candidates, profiles));
    RowsOf(ideaFamily, profiles, base, structured, semantic, lexical)
  }

  /** The result rows of the profiles, given each profile's structured, semantic and lexical score. */
  function RowsOf(ideaFamily: Matching.FamilyTags, profiles: seq<ClientProfile>, base: Matching.FamilyWeights,
                  structured: seq<real>, semantic: seq<real>, lexical: seq<real>): (r: seq<MatchResult>)
    requires |structured| == |semantic| == |lexical| == |profiles|
    ensures |r| == |profiles|
  {
    seq(|profiles|, i requires 0 <= i < |profiles| =>
      ClientMatchOf(profiles[i], Components(structured[i], semantic[i], lexical[i],
        TaxonomyScore(ideaFamily, Matching.FamilyMapOf(profiles[i].tags), profiles[i].clientType, base))))
  }

  /** Every component and every final score of an idea-to-client run lies in [0, 1]. */
  lemma ClientMatchesBounds(ideaText: string, ideaFamily: Matching.FamilyTags, candidates: Candidates,
                            profiles: seq<ClientProfile>, sc: Scorers, base: Matching.FamilyWeights)
    requires ScoresEachDocument(sc)
    requires forall i :: 0 <= i < |profiles| ==> profiles[i].clientId in candidates.payloads
    ensures forall i :: 0 <= i < |profiles| ==>
      var m := ClientMatches(ideaText, ideaFamily, candidates, profiles, sc, base)[i];
      && InUnit(m.finalScore) && InUnit(m.semanticScore) && InUnit(m.lexicalScore) && InUnit(m.taxonomyScore)
      && m.structuredScore.Some? && InUnit(m.structuredScore.value)
  {
    var docs := ProfileTexts(profiles);
    var lexical := LexicalScores(ideaText, docs, sc);
    var semantic := SemanticScores(ideaText, docs, sc);
    var structured := Scaled(StructuredRaws(candidates, profiles));
    var r := ClientMatches(ideaText, ideaFamily, candidates, profiles, sc, base);
    forall i | 0 <= i < |profiles|
      ensures && InUnit(r[i].finalScore) && InUnit(r[i].semanticScore) && InUnit(r[i].lexicalScore)
              && InUnit(r[i].taxonomyScore) && r[i].structuredScore.Some? && InUnit(r[i].structuredScore.value)
    {
      var c := Components(structured[i], semantic[i], lexical[i],
        TaxonomyScore(ideaFamily, Matching.FamilyMapOf(profiles[i].tags), profiles[i].clientType, base));
      assert r[i] == ClientMatchOf(profiles[i], c);
      WeightedSumBounds(c);
    }
  }

  // ---------------------------------------------------------------------------
  // Client to ideas
  // ---------------------------------------------------------------------------

  /** An idea with its tags (`_idea_tags`, as the repository holds them). */
  datatype Idea = Idea(ideaId: int, ideaTitle: string, ideaText: string, tags: seq<Matching.TagRow>)

  /** The unsorted result rows of `match_ideas_for_client`, one per idea, in order. */
  function IdeaMatches(profile: ClientProfile, ideas: seq<Idea>, ideaDocs: seq<string>, sc: Scorers,
                       base: Matching.FamilyWeights): (r: seq<MatchResult>)
    requires ScoresEachDocument(sc)
    requires |ideaDocs| == |ideas|
    ensures |r| == |ideas|
  {
    var lexical := LexicalScores(profile.text, ideaDocs, sc);
    var semantic := SemanticScores(profile.text, ideaDocs, sc);
    IdeaRowsOf(profile, ideas, base, semantic, lexical)
  }

  /** The result rows of the ideas, given each idea's semantic and lexical score. */
  function IdeaRowsOf(profile: ClientProfile, ideas: seq<Idea>, base: Matching.FamilyWeights,
                      semantic: seq<real>, lexical: seq<real>): (r: seq<MatchResult>)
    requires |semantic| == |lexical| == |ideas|
    ensures |r| == |ideas|
  {
    seq(|ideas|, i requires 0 <= i < |ideas| =>
      IdeaMatchOf(ideas[i], semantic[i], lexical[i],
        TaxonomyScore(Matching.FamilyMapOf(profile.tags), Matching.FamilyMapOf(ideas[i].tags), profile.clientType, base)))
  }

  function IdeaMatchOf(idea: Idea, semantic: real, lexical: real, taxonomy: real): MatchResult {
    MatchResult(idea.ideaId, idea.ideaTitle, semantic, lexical, taxonomy, None, JobAScore(semantic, lexical, taxonomy))
  }

  /** Every final score of a client-to-idea run lies in [0, 1]. */
  lemma IdeaMatchesBounds(profile: ClientProfile, ideas: seq<Idea>, ideaDocs: seq<string>, sc: Scorers,
                          base: Matching.FamilyWeights)
    requires ScoresEachDocument(sc)
    requires |ideaDocs| == |ideas|
    ensures forall i :: 0 <= i < |ideas| ==> InUnit(IdeaMatches(profile, ideas, ideaDocs, sc, base)[i].finalScore)
  {
    var lexical := LexicalScores(profile.text, ideaDocs, sc);
    var semantic := SemanticScores(profile.text, ideaDocs, sc);
    var clientFamily := Matching.FamilyMapOf(profile.tags);
    var r := IdeaMatches(profile, ideas, ideaDocs, sc, base);
    forall i | 0 <= i < |ideas| ensures InUnit(r[i].finalScore) {
      var taxonomy := TaxonomyScore(clientFamily, Matching.FamilyMapOf(ideas[i].tags), profile.clientType, base);
      assert r[i] == IdeaMatchOf(ideas[i], semantic[i], lexical[i], taxonomy);
      JobAScoreBounds(semantic[i], lexical[i], taxonomy);
    }
  }

  /** The scoring loop and the sort-and-truncate of `match_clients_for_idea`. */
  method ScoreCandidates(ideaText: string, ideaFamily: Matching.FamilyTags, candidates: Candidates,
                         profiles: seq<ClientProfile>, sc: Scorers, base: Matching.FamilyWeights, topN: int)
    returns (results: seq<MatchResult>)
    requires ScoresEachDocument(sc)
    requires forall i :: 0 <= i < |profiles| ==> profiles[i].clientId in candidates.payloads
    requires Matching.DistinctFamilies(base)
    requires forall i :: 0 <= i < |profiles| ==> Matching.BranchFamiliesPresent(profiles[i].clientType, base)
    ensures results == RankResults(ClientMatches(ideaText, ideaFamily, candidates, profiles, sc, base), topN)
  {
    if profiles == [] {
      return [];
    }
    var docs := ProfileTexts(profiles);
    var lexical := LexicalScores(ideaText, docs, sc);
    var semantic := SemanticScores(ideaText, docs, sc);
    var structured := Scaled(StructuredRaws(candidates, profiles));
    var rows := ScoreRows(ideaFamily, profiles, base, structured, semantic, lexical);
    results := RankResults(rows, topN);
  }

  /** The scoring loop of `match_clients_for_idea`: one row per profile, in order. */
  method ScoreRows(ideaFamily: Matching.FamilyTags, profiles: seq<ClientProfile>, base: Matching.FamilyWeights,
                   structured: seq<real>, semantic: seq<real>, lexical: seq<real>)
    returns (rows: seq<MatchResult>)
    requires |structured| == |semantic| == |lexical| == |profiles|
    requires Matching.DistinctFamilies(base)
    requires forall i :: 0 <= i < |profiles| ==> Matching.BranchFamiliesPresent(profiles[i].clientType, base)
    ensures rows == RowsOf(ideaFamily, profiles, base, structured, semantic, lexical)
  {
    ghost var expected := RowsOf(ideaFamily, profiles, base, structured, semantic, lexical);
    rows := [];
    for i := 0 to |profiles|
      invariant rows == expected[..i]
    {
      var row := ScoreCandidate(ideaFamily, profiles[i], base, structured[i], semantic[i], lexical[i]);
      assert expected[i] == row;
      Seqs.PrefixNext(expected, i);
      rows := rows + [row];
    }
    assert expected[..|profiles|] == expected;
  }

  /** One pass of the scoring loop of `match_clients_for_idea`: the row of one candidate client. */
  method ScoreCandidate(ideaFamily: Matching.FamilyTags, profile: ClientProfile, base: Matching.FamilyWeights,
                        structured: real, semantic: real, lexical: real)
    returns (row: MatchResult)
    requires Matching.DistinctFamilies(base) && Matching.BranchFamiliesPresent(profile.clientType, base)
    ensures row == ClientMatchOf(profile, Components(structured, semantic, lexical,
      TaxonomyScore(ideaFamily, Matching.FamilyMapOf(profile.tags), profile.clientType, base)))
  {
    var familyWeights := Matching.AdjustedFamilyWeights(profile.clientType, base);
    var candidateFamily := Matching.TagsToFamilyMap(profile.tags);
    var taxonomy := Matching.TaxonomyOverlapScore(ideaFamily, candidateFamily, familyWeights);
    row := ClientMatchOf(profile, Components(structured, semantic, lexical, taxonomy));
  }

  // ---------------------------------------------------------------------------
  // PM drill-down
  // ---------------------------------------------------------------------------

  /** An RFQ feature row of a PM; `None` is a SQL NULL. */
  datatype FeatureRow = FeatureRow(
    region: string,
    country: Option<string>,
    ccyPair: Option<string>,
    productType: Option<string>,
    tenorBucket: Option<string>,
    tradeCount: Option<real>,
    recencyScore: Option<real>)

  /** `str(x or "")`. */
  function OrEmpty(s: Option<string>): string {
    if s.Some? then s.value else ""
  }

  /** What the PM features are filtered by: the target region and country and the idea's signals. */
  datatype PmFilter = PmFilter(targetRegion: string, targetCountry: Option<string>, signals: Rfq.Signals)

  /** A field passes when the idea has no such signal, or the field is blank or equal to it. */
  predicate Admits(wanted: string, value: Option<string>) {
    wanted == "" || OrEmpty(value) == "" || OrEmpty(value) == wanted
  }

  /** The feature survives every `continue` of the feature loop. */
  predicate FeatureMatches(f: FeatureRow, flt: PmFilter) {
    && f.region == flt.targetRegion
    && (flt.targetCountry.None? || OrEmpty(f.country) == flt.targetCountry.value)
    && Admits(flt.signals.ccyPair, f.ccyPair)
    && Admits(flt.signals.productType, f.productType)
    && Admits(flt.signals.tenorBucket, f.tenorBucket)
  }

  function TradeSum(feats: seq<FeatureRow>, flt: PmFilter): real {
    if feats == [] then 0.0
    else
      var f := feats[|feats| - 1];
      TradeSum(feats[..|feats| - 1], flt) + (if FeatureMatches(f, flt) then OrZero(f.tradeCount) else 0.0)
  }

  function RecencySum(feats: seq<FeatureRow>, flt: PmFilter): real {
    if feats == [] then 0.0
    else
      var f := feats[|feats| - 1];
      RecencySum(feats[..|feats| - 1], flt) + (if FeatureMatches(f, flt) then OrZero(f.recencyScore) else 0.0)
  }

  /** The feature loop of `rank_pms_for_clients`: trade counts and recency scores of the matching features. */
  method FeatureSums(feats: seq<FeatureRow>, flt: PmFilter) returns (tradeSum: real, recencySum: real)
    ensures tradeSum == TradeSum(feats, flt) && recencySum == RecencySum(feats, flt)
  {
    tradeSum, recencySum := 0.0, 0.0;
    for i := 0 to |feats|
      invariant tradeSum == TradeSum(feats[..i], flt) && recencySum == RecencySum(feats[..i], flt)
    {
      var feat := feats[i];
      assert feats[..i + 1][..i] == feats[..i] && feats[..i + 1][i] == feat;
      if feat.region != flt.targetRegion {
        continue;
      }
      if flt.targetCountry.Some? && OrEmpty(feat.country) != flt.targetCountry.value {
        continue;
      }
      if flt.signals.ccyPair != "" && OrEmpty(feat.ccyPair) !in {"", flt.signals.ccyPair} {
        continue;
      }
      if flt.signals.productType != "" && OrEmpty(feat.productType) !in {"", flt.signals.productType} {
        continue;
      }
      if flt.signals.tenorBucket != "" && OrEmpty(feat.tenorBucket) !in {"", flt.signals.tenorBucket} {
        continue;
      }
      tradeSum := tradeSum + OrZero(feat.tradeCount);
      recencySum := recencySum + OrZero(feat.recencyScore);
    }
    assert feats[..|feats|] == feats;
  }

  /** `wide` asks for no more than `narrow`: same region, and each other condition absent or the same. */
  predicate Looser(wide: PmFilter, narrow: PmFilter) {
    && wide.targetRegion == narrow.targetRegion
    && (wide.targetCountry.None? || wide.targetCountry == narrow.targetCountry)
    && (wide.signals.ccyPair == "" || wide.signals.ccyPair == narrow.signals.ccyPair)
    && (wide.signals.productType == "" || wide.signals.productType == narrow.signals.productType)
    && (wide.signals.tenorBucket == "" || wide.signals.tenorBucket == narrow.signals.tenorBucket)
  }

  predicate NonNegativeCounts(feats: seq<FeatureRow>) {
    forall i :: 0 <= i < |feats| ==> OrZero(feats[i].tradeCount) >= 0.0 && OrZero(feats[i].recencyScore) >= 0.0
  }

  /**
   * Dropping a signal or the country never loses a feature: with non-negative counts, the
   * looser filter's sums are at least the stricter one's. Blank feature fields match any signal.
   */
  lemma {:induction false} LooserSumsMore(feats: seq<FeatureRow>, wide: PmFilter, narrow: PmFilter)
    requires Looser(wide, narrow)
    requires NonNegativeCounts(feats)
    ensures TradeSum(feats, narrow) <= TradeSum(feats, wide)
    ensures RecencySum(feats, narrow) <= RecencySum(feats, wide)
    decreases |feats|
  {
    if feats != [] {
      var prev := feats[..|feats| - 1];
      assert forall i :: 0 <= i < |prev| ==> prev[i] == feats[i];
      LooserSumsMore(prev, wide, narrow);
      var f := feats[|feats| - 1];
      assert FeatureMatches(f, narrow) ==> FeatureMatches(f, wide);
    }
  }

  /** `0.5 * structured + 0.3 * semantic + 0.2 * lexical`. */
  function PmBase(structured: real, semantic: real, lexical: real): real {
    0.5 * structured + 0.3 * semantic + 0.2 * lexical
  }

  /** `min(0.7, trade_sum / 100.0)`: how much the PM's own evidence counts. */
  function Alpha(tradeSum: real): real {
    if 0.7 <= tradeSum / 100.0 then 0.7 else tradeSum / 100.0
  }

  /** `alpha * pm_base + (1 - alpha) * client_score`. */
  function Blend(alpha: real, pmBase: real, clientScore: real): real {
    alpha * pmBase + (1.0 - alpha) * clientScore
  }

  /** The PM base score of components in [0, 1] lies in [0, 1]. */
  lemma PmBaseBounds(structured: real, semantic: real, lexical: real)
    requires InUnit(structured) && InUnit(semantic) && InUnit(lexical)
    ensures InUnit(PmBase(structured, semantic, lexical))
    ensures PmBase(1.0, 1.0, 1.0) == 1.0
  {
  }

  /**
   * For a non-negative trade sum alpha lies in [0, 0.7], is 0 without trades, reaches 0.7
   * from 70 trades on, and never falls as trades grow.
   */
  lemma AlphaBounds(tradeSum: real, more: real)
    requires 0.0 <= tradeSum <= more
    ensures 0.0 <= Alpha(tradeSum) <= 0.7
    ensures tradeSum == 0.0 ==> Alpha(tradeSum) == 0.0
    ensures tradeSum >= 70.0 ==> Alpha(tradeSum) == 0.7
    ensures Alpha(tradeSum) <= Alpha(more)
  {
  }

  lemma BlendShift(alpha: real, pmBase: real, clientScore: real)
    ensures Blend(alpha, pmBase, clientScore) == clientScore + alpha * (pmBase - clientScore)
  {
    assert (1.0 - alpha) * clientScore == clientScore - alpha * clientScore;
    assert alpha * (pmBase - clientScore) == alpha * pmBase - alpha * clientScore;
  }

  /**
   * With alpha in [0, 1] the PM score lies between the PM base score and the client's
   * score, and equals the client's score when alpha is 0.
   */
  lemma BlendBetween(alpha: real, pmBase: real, clientScore: real)
    requires 0.0 <= alpha <= 1.0
    ensures pmBase <= clientScore ==> pmBase <= Blend(alpha, pmBase, clientScore) <= clientScore
    ensures clientScore <= pmBase ==> clientScore <= Blend(alpha, pmBase, clientScore) <= pmBase
    ensures alpha == 0.0 ==> Blend(alpha, pmBase, clientScore) == clientScore
  {
    BlendShift(alpha, pmBase, clientScore);
    var diff := pmBase - clientScore;
    ShiftBounds(alpha, diff);
    assert Blend(alpha, pmBase, clientScore) == clientScore + alpha * diff;
  }

  /** A fraction in [0, 1] of a difference lies between 0 and that difference. */
  lemma ShiftBounds(alpha: real, diff: real)
    requires 0.0 <= alpha <= 1.0
    ensures diff <= 0.0 ==> diff <= alpha * diff <= 0.0
    ensures diff >= 0.0 ==> 0.0 <= alpha * diff <= diff
  {
    if diff <= 0.0 {
      Features.MulBounds(-diff, alpha);
      assert alpha * diff == -(-diff * alpha);
    } else {
      Features.MulBounds(diff, alpha);
    }
  }

  /** A fraction of at most 0.7 leaves the client's score at least 30% of the blend. */
  lemma BlendFloor(alpha: real, pmBase: real, clientScore: real)
    requires 0.0 <= alpha <= 0.7 && InUnit(pmBase) && InUnit(clientScore)
    ensures 0.3 * clientScore <= Blend(alpha, pmBase, clientScore) <= 0.3 * clientScore + 0.7
    ensures InUnit(Blend(alpha, pmBase, clientScore))
  {
    BlendShift(alpha, pmBase, clientScore);
    var scaled, own := alpha * pmBase, alpha * clientScore;
    assert alpha * (pmBase - clientScore) == scaled - own;
    ProductBounds(alpha, pmBase, clientScore);
  }

  /** The two products inside the blend, bounded linearly. */
  lemma ProductBounds(alpha: real, pmBase: real, clientScore: real)
    requires 0.0 <= alpha <= 0.7 && InUnit(pmBase) && InUnit(clientScore)
    ensures 0.0 <= alpha * pmBase <= alpha
    ensures 0.7 * clientScore - 0.7 + alpha <= alpha * clientScore <= 0.7 * clientScore
  {
    var spare := 0.7 - alpha;
    Features.MulBounds(alpha, pmBase);
    Features.MulBounds(clientScore, spare);
    Features.MulBounds(1.0 - clientScore, spare);
    assert clientScore * spare == 0.7 * clientScore - alpha * clientScore;
    assert (1.0 - clientScore) * spare == spare - 0.7 * clientScore + alpha * clientScore;
  }

  // ---------------------------------------------------------------------------
  // PM ranking
  // ---------------------------------------------------------------------------

  /** An active PM of a client. */
  datatype Pm = Pm(pmId: int, pmName: string)

  /** One row of a client's PM drill-down. */
  datatype PmResult = PmResult(pmId: int, pmName: string, pmScore: real, alpha: real, tradeSum: real, recencySum: real)

  /**
   * What the repository holds for the drill-down: a client's active PMs, a PM's RFQ
   * feature rows, and a PM's profile text (`_pm_profile_text`).
   */
  datatype PmSources = PmSources(
    activePms: int -> seq<Pm>,
    features: int -> seq<FeatureRow>,
    profileText: int -> string)

  /** The filter of `rank_pms_for_clients`: target region and country as for the candidate search. */
  function PmFilterFor(ideaText: string, region: string, country: string): (flt: PmFilter)
    ensures flt.signals == Rfq.ExtractStructuredSignals(ideaText)
    ensures flt.targetRegion == TargetRegion(region, flt.signals)
    ensures flt.targetCountry.None? <==> Upper(country) == ""
  {
    var signals := Rfq.ExtractStructuredSignals(ideaText);
    PmFilter(TargetRegion(region, signals), NoneIfEmpty(Upper(country)), signals)
  }

  /** `recency_sum + 0.002 * trade_sum`. */
  function StructuredRawOf(tradeSum: real, recencySum: real): real {
    recencySum + 0.002 * tradeSum
  }

  function PmDocs(pms: seq<Pm>, src: PmSources): seq<string> {
    seq(|pms|, i requires 0 <= i < |pms| => src.profileText(pms[i].pmId))
  }

  /** The structured raw score of each PM, from the features that pass the filter. */
  function PmRaws(pms: seq<Pm>, src: PmSources, flt: PmFilter): (r: seq<real>)
    ensures |r| == |pms|
  {
    seq(|pms|, i requires 0 <= i < |pms| =>
      StructuredRawOf(TradeSum(src.features(pms[i].pmId), flt), RecencySum(src.features(pms[i].pmId), flt)))
  }

  /** The drill-down row of one PM from its three scaled scores, its trade and recency sums and the client's score. */
  function PmResultOf(pm: Pm, structured: real, semantic: real, lexical: real,
                      tradeSum: real, recencySum: real, clientScore: real): PmResult {
    var alpha := Alpha(tradeSum);
    PmResult(pm.pmId, pm.pmName, Blend(alpha, PmBase(structured, semantic, lexical), clientScore),
             alpha, tradeSum, recencySum)
  }

  /** The rows of the PMs, given each PM's structured, semantic and lexical score. */
  function PmRows(pms: seq<Pm>, src: PmSources, flt: PmFilter, clientScore: real,
                  structured: seq<real>, semantic: seq<real>, lexical: seq<real>): (r: seq<PmResult>)
    requires |structured| == |semantic| == |lexical| == |pms|
    ensures |r| == |pms|
  {
    seq(|pms|, i requires 0 <= i < |pms| =>
      PmResultOf(pms[i], structured[i], semantic[i], lexical[i],
        TradeSum(src.features(pms[i].pmId), flt), RecencySum(src.features(pms[i].pmId), flt), clientScore))
  }

  /** The unsorted drill-down rows of a client's PMs, in PM order. */
  function PmResults(ideaText: string, clientScore: real, pms: seq<Pm>, src: PmSources, flt: PmFilter,
                     sc: Scorers): (r: seq<PmResult>)
    requires ScoresEachDocument(sc)
    ensures |r| == |pms|
  {
    var docs := PmDocs(pms, src);
    var lexical := LexicalScores(ideaText, docs, sc);
    var semantic := PmSemanticScores(ideaText, docs, sc);
    var structured := Scaled(PmRaws(pms, src, flt));
    PmRows(pms, src, flt, clientScore, structured, semantic, lexical)
  }

  predicate PmFirst(a: PmResult, b: PmResult) {
    a.pmScore >= b.pmScore
  }

  lemma PmFirstTotal()
    ensures Sorting.TotalPreorder(PmFirst)
  {
  }

  /** One client's drill-down: its PMs' rows sorted by PM score descending and cut to the cap. */
  function PmRanking(ideaText: string, clientScore: real, pms: seq<Pm>, src: PmSources, flt: PmFilter,
                     sc: Scorers, cap: int): seq<PmResult>
    requires ScoresEachDocument(sc)
  {
    Sorting.TopBy(PmResults(ideaText, clientScore, pms, src, flt, sc), PmFirst, cap)
  }

  predicate FeatureCountsNonNegative(pms: seq<Pm>, src: PmSources) {
    forall i :: 0 <= i < |pms| ==> NonNegativeCounts(src.features(pms[i].pmId))
  }

  lemma {:induction false} SumsNonNegative(feats: seq<FeatureRow>, flt: PmFilter)
    requires NonNegativeCounts(feats)
    ensures TradeSum(feats, flt) >= 0.0 && RecencySum(feats, flt) >= 0.0
    decreases |feats|
  {
    if feats != [] {
      var prev := feats[..|feats| - 1];
      assert forall i :: 0 <= i < |prev| ==> prev[i] == feats[i];
      SumsNonNegative(prev, flt);
    }
  }

  /** What every drill-down row promises when the client's score is in [0, 1] and counts are non-negative. */
  predicate PmRowSound(r: PmResult, clientScore: real) {
    && 0.0 <= r.alpha <= 0.7
    && InUnit(r.pmScore)
    && 0.3 * clientScore <= r.pmScore <= 0.3 * clientScore + 0.7
    && (r.tradeSum == 0.0 ==> r.pmScore == clientScore)
    && (r.tradeSum >= 70.0 ==> r.alpha == 0.7)
  }

  /**
   * Every PM row: alpha in [0, 0.7] (0.7 from 70 trades on), the score in [0, 1] and
   * never below 30% of the client's score, and exactly the client's score without trades.
   */
  lemma PmResultsSound(ideaText: string, clientScore: real, pms: seq<Pm>, src: PmSources, flt: PmFilter, sc: Scorers)
    requires ScoresEachDocument(sc)
    requires InUnit(clientScore) && FeatureCountsNonNegative(pms, src)
    ensures forall i :: 0 <= i < |pms| ==> PmRowSound(PmResults(ideaText, clientScore, pms, src, flt, sc)[i], clientScore)
  {
    var docs := PmDocs(pms, src);
    var lexical := LexicalScores(ideaText, docs, sc);
    var semantic := PmSemanticScores(ideaText, docs, sc);
    var structured := Scaled(PmRaws(pms, src, flt));
    var r := PmRows(pms, src, flt, clientScore, structured, semantic, lexical);
    assert r == PmResults(ideaText, clientScore, pms, src, flt, sc);
    forall i | 0 <= i < |pms| ensures PmRowSound(r[i], clientScore) {
      var feats := src.features(pms[i].pmId);
      SumsNonNegative(feats, flt);
      var tradeSum := TradeSum(feats, flt);
      AlphaBounds(tradeSum, tradeSum);
      PmBaseBounds(structured[i], semantic[i], lexical[i]);
      BlendFloor(Alpha(tradeSum), PmBase(structured[i], semantic[i], lexical[i]), clientScore);
    }
  }

  /**
   * A client's drill-down: `min(cap, #PMs)` rows for a non-negative cap, by PM score
   * descending, taken from the PMs' rows, no PM left out scoring above one kept, and each
   * row sound as above.
   */
  lemma PmRankingProperties(ideaText: string, clientScore: real, pms: seq<Pm>, src: PmSources, flt: PmFilter,
                            sc: Scorers, cap: int)
    requires ScoresEachDocument(sc)
    ensures var all := PmResults(ideaText, clientScore, pms, src, flt, sc);
      var r := PmRanking(ideaText, clientScore, pms, src, flt, sc, cap);
      && |r| == Sorting.SliceLen(|pms|, cap)
      && (pms == [] ==> r == [])
      && (forall i, j :: 0 <= i < j < |r| ==> r[j].pmScore <= r[i].pmScore)
      && multiset(r) <= multiset(all)
      && (forall x, y :: x in multiset(r) && y in multiset(all) - multiset(r) ==> y.pmScore <= x.pmScore)
      && (InUnit(clientScore) && FeatureCountsNonNegative(pms, src) ==>
            forall i :: 0 <= i < |r| ==> PmRowSound(r[i], clientScore))
  {
    var all := PmResults(ideaText, clientScore, pms, src, flt, sc);
    var r := PmRanking(ideaText, clientScore, pms, src, flt, sc, cap);
    PmFirstTotal();
    Sorting.TopByProperties(all, PmFirst, cap);
    forall i, j | 0 <= i < j < |r| ensures r[j].pmScore <= r[i].pmScore {
      assert PmFirst(r[i], r[j]);
    }
    forall x, y | x in multiset(r) && y in multiset(all) - multiset(r) ensures y.pmScore <= x.pmScore {
      assert PmFirst(x, y);
    }
    if InUnit(clientScore) && FeatureCountsNonNegative(pms, src) {
      PmResultsSound(ideaText, clientScore, pms, src, flt, sc);
      forall i | 0 <= i < |r| ensures PmRowSound(r[i], clientScore) {
        assert r[i] in multiset(all);
        var k := Sorting.InMultisetIndex(all, r[i]);
      }
    }
  }

  /**
   * The map built by assigning, row by row, each row's value to its client: a later row
   * for the same client replaces an earlier one.
   */
  function ByClient<V>(rows: seq<MatchResult>, value: MatchResult --> V): map<int, V>
    requires forall row :: value.requires(row)
  {
    if rows == [] then map[]
    else ByClient(rows[..|rows| - 1], value)[rows[|rows| - 1].targetId := value(rows[|rows| - 1])]
  }

  lemma ByClientPrefix<V>(rows: seq<MatchResult>, value: MatchResult --> V, i: nat)
    requires forall row :: value.requires(row)
    requires i < |rows|
    ensures ByClient(rows[..i + 1], value) == ByClient(rows[..i], value)[rows[i].targetId := value(rows[i])]
  {
    assert rows[..i + 1][..i] == rows[..i];
  }

  /** A client is in the map exactly when one of the rows is that client's. */
  lemma {:induction false} ByClientKeys<V>(rows: seq<MatchResult>, value: MatchResult --> V, id: int)
    requires forall row :: value.requires(row)
    ensures id in ByClient(rows, value) <==> exists i :: 0 <= i < |rows| && rows[i].targetId == id
    decreases |rows|
  {
    if rows != [] {
      var prev := rows[..|rows| - 1];
      var last := |rows| - 1;
      ByClientKeys(prev, value, id);
      if id in ByClient(prev, value) {
        var i :| 0 <= i < |prev| && prev[i].targetId == id;
        assert rows[i].targetId == id;
      } else if id != rows[last].targetId {
        forall i | 0 <= i < |rows| ensures rows[i].targetId != id {
          if i < last {
            assert prev[i] == rows[i];
          }
        }
      }
    }
  }

  /** A client's value is the value of its last row. */
  lemma {:induction false} ByClientLast<V>(rows: seq<MatchResult>, value: MatchResult --> V, id: int) returns (k: nat)
    requires forall row :: value.requires(row)
    requires id in ByClient(rows, value)
    ensures k < |rows| && rows[k].targetId == id
    ensures forall j :: k < j < |rows| ==> rows[j].targetId != id
    ensures ByClient(rows, value)[id] == value(rows[k])
    decreases |rows|
  {
    var prev := rows[..|rows| - 1];
    var last := |rows| - 1;
    if rows[last].targetId == id {
      k := last;
    } else {
      k := ByClientLast(prev, value, id);
      assert rows[k] == prev[k];
      forall j | k < j < |rows| ensures rows[j].targetId != id {
        if j < last {
          assert rows[j] == prev[j];
        }
      }
    }
  }

  /** A client row's drill-down: the ranking of that client's active PMs against the row's final score. */
  function Drilldown(ideaText: string, src: PmSources, flt: PmFilter, sc: Scorers, cap: int)
    : MatchResult --> seq<PmResult>
  {
    (row: MatchResult) requires ScoresEachDocument(sc) =>
      PmRanking(ideaText, row.finalScore, src.activePms(row.targetId), src, flt, sc, cap)
  }

  /** `ranked` after the loop over the given client rows. */
  function Rankings(ideaText: string, rows: seq<MatchResult>, src: PmSources, flt: PmFilter, sc: Scorers,
                    cap: int): map<int, seq<PmResult>>
    requires ScoresEachDocument(sc)
  {
    ByClient(rows, Drilldown(ideaText, src, flt, sc, cap))
  }

  /**
   * A client has a drill-down exactly when one of the rows is that client's, and it is the
   * ranking of that client's PMs against the final score of the client's last row.
   */
  lemma RankingsLookup(ideaText: string, rows: seq<MatchResult>, src: PmSources, flt: PmFilter,
                       sc: Scorers, cap: int, id: int) returns (k: nat)
    requires ScoresEachDocument(sc)
    ensures id in Rankings(ideaText, rows, src, flt, sc, cap) <==> exists i :: 0 <= i < |rows| && rows[i].targetId == id
    ensures id in Rankings(ideaText, rows, src, flt, sc, cap) ==>
      && k < |rows| && rows[k].targetId == id
      && (forall j :: k < j < |rows| ==> rows[j].targetId != id)
      && Rankings(ideaText, rows, src, flt, sc, cap)[id]
           == PmRanking(ideaText, rows[k].finalScore, src.activePms(id), src, flt, sc, cap)
  {
    var drill := Drilldown(ideaText, src, flt, sc, cap);
    ByClientKeys(rows, drill, id);
    k := 0;
    if id in Rankings(ideaText, rows, src, flt, sc, cap) {
      k := ByClientLast(rows, drill, id);
    }
  }

  /** The feature loop over a client's PMs: each PM's trade and recency sums, keyed by PM id (`pm_meta`). */
  method PmMeta(pms: seq<Pm>, src: PmSources, flt: PmFilter) returns (raws: seq<real>, meta: map<int, (real, real)>)
    ensures raws == PmRaws(pms, src, flt)
    ensures forall i :: 0 <= i < |pms| ==> pms[i].pmId in meta
    ensures forall id :: id in meta ==> meta[id] == (TradeSum(src.features(id), flt), RecencySum(src.features(id), flt))
  {
    raws, meta := [], map[];
    for i := 0 to |pms|
      invariant raws == PmRaws(pms[..i], src, flt)
      invariant forall j :: 0 <= j < i ==> pms[j].pmId in meta
      invariant forall id :: id in meta ==> meta[id] == (TradeSum(src.features(id), flt), RecencySum(src.features(id), flt))
    {
      var pmId := pms[i].pmId;
      var tradeSum, recencySum := FeatureSums(src.features(pmId), flt);
      raws := raws + [StructuredRawOf(tradeSum, recencySum)];
      meta := meta[pmId := (tradeSum, recencySum)];
      assert pms[..i + 1][..i] == pms[..i];
    }
    assert pms[..|pms|] == pms;
  }

  /** The result loop over a client's PMs (`pm_results`), in PM order. */
  method PmResultRows(pms: seq<Pm>, src: PmSources, flt: PmFilter, clientScore: real, meta: map<int, (real, real)>,
                      structured: seq<real>, semantic: seq<real>, lexical: seq<real>)
    returns (rows: seq<PmResult>)
    requires |structured| == |semantic| == |lexical| == |pms|
    requires forall i :: 0 <= i < |pms| ==> pms[i].pmId in meta
    requires forall id :: id in meta ==> meta[id] == (TradeSum(src.features(id), flt), RecencySum(src.features(id), flt))
    ensures rows == PmRows(pms, src, flt, clientScore, structured, semantic, lexical)
  {
    ghost var expected := PmRows(pms, src, flt, clientScore, structured, semantic, lexical);
    rows := [];
    for i := 0 to |pms|
      invariant rows == expected[..i]
    {
      var pm := pms[i];
      var (tradeSum, recencySum) := meta[pm.pmId];
      rows := rows + [PmResultOf(pm, structured[i], semantic[i], lexical[i], tradeSum, recencySum, clientScore)];
      Seqs.PrefixNext(expected, i);
    }
    assert expected[..|pms|] == expected;
  }

  /** The body of the client loop of `rank_pms_for_clients`: one client's drill-down. */
  method RankClientPms(ideaText: string, clientScore: real, pms: seq<Pm>, src: PmSources, flt: PmFilter,
                       sc: Scorers, cap: int) returns (ranked: seq<PmResult>)
    requires ScoresEachDocument(sc)
    ensures ranked == PmRanking(ideaText, clientScore, pms, src, flt, sc, cap)
  {
    if pms == [] {
      return [];
    }
    var docs := PmDocs(pms, src);
    var lexical := LexicalScores(ideaText, docs, sc);
    var semantic := PmSemanticScores(ideaText, docs, sc);
    var raws, meta := PmMeta(pms, src, flt);
    var structured := Scaled(raws);
    var rows := PmResultRows(pms, src, flt, clientScore, meta, structured, semantic, lexical);
    ranked := Sorting.TopBy(rows, PmFirst, cap);
  }

  /** `rank_pms_for_clients`: the drill-down of each of the first ten client rows. */
  method RankPmsForClients(ideaText: string, clientResults: seq<MatchResult>, region: string, country: string,
                           src: PmSources, sc: Scorers, cap: int) returns (ranked: map<int, seq<PmResult>>)
    requires ScoresEachDocument(sc)
    ensures ranked == Rankings(ideaText, clientResults[..Sorting.SliceLen(|clientResults|, 10)], src,
                               PmFilterFor(ideaText, region, country), sc, cap)
  {
    var flt := PmFilterFor(ideaText, region, country);
    var rows := clientResults[..Sorting.SliceLen(|clientResults|, 10)];
    ghost var drill := Drilldown(ideaText, src, flt, sc, cap);
    ranked := map[];
    for i := 0 to |rows|
      invariant ranked == ByClient(rows[..i], drill)
    {
      var row := rows[i];
      var pmResults := RankClientPms(ideaText, row.finalScore, src.activePms(row.targetId), src, flt, sc, cap);
      assert pmResults == drill(row);
      ByClientPrefix(rows, drill, i);
      ranked := ranked[row.targetId := pmResults];
    }
    assert rows[..|rows|] == rows;
  }

  // ---------------------------------------------------------------------------
  // The service object
  // ---------------------------------------------------------------------------

  /** `match_ideas_for_client` raises for an unknown client. */
  datatype MatchError = ClientNotFound(clientId: int)

  /** `[self.normalize_text(i["idea_text"]) for i in ideas]`. */
  function IdeaDocs(ideas: seq<Idea>, m: TextProcessing.SynonymMap): (r: seq<string>)
    requires TextProcessing.WellFormed(m)
    ensures |r| == |ideas|
  {
    seq(|ideas|, i requires 0 <= i < |ideas| => TextProcessing.Normalized(ideas[i].ideaText, m))
  }

  /** `_build_profiles_for_client_ids` returns only clients it was asked for, each with a type whose weight branch applies. */
  ghost predicate ProfilesFit(profilesFor: seq<int> -> seq<ClientProfile>, base: Matching.FamilyWeights) {
    forall ids, i :: 0 <= i < |profilesFor(ids)| ==>
      && profilesFor(ids)[i].clientId in ids
      && Matching.BranchFamiliesPresent(profilesFor(ids)[i].clientType, base)
  }

  /** `pm_rankings.get(id, [])` for each result row. */
  function AttachedDrilldowns(ranked: map<int, seq<PmResult>>, results: seq<MatchResult>): (r: seq<seq<PmResult>>)
    ensures |r| == |results|
  {
    seq(|results|, i requires 0 <= i < |results| =>
      if results[i].targetId in ranked then ranked[results[i].targetId] else [])
  }

  /**
   * Only the first ten result rows are drilled into: a row with a non-empty drill-down
   * shares its client with one of the first ten rows.
   */
  lemma DrilldownsFirstTen(ideaText: string, results: seq<MatchResult>, region: string, country: string,
                           src: PmSources, sc: Scorers, cap: int, i: nat)
    requires ScoresEachDocument(sc)
    requires i < |results|
    ensures var first := results[..Sorting.SliceLen(|results|, 10)];
      var ranked := Rankings(ideaText, first, src, PmFilterFor(ideaText, region, country), sc, cap);
      AttachedDrilldowns(ranked, results)[i] != [] ==>
        exists j :: 0 <= j < 10 && j < |results| && results[j].targetId == results[i].targetId
  {
    var first := results[..Sorting.SliceLen(|results|, 10)];
    var flt := PmFilterFor(ideaText, region, country);
    ByClientKeys(first, Drilldown(ideaText, src, flt, sc, cap), results[i].targetId);
    if exists j :: 0 <= j < |first| && first[j].targetId == results[i].targetId {
      var j :| 0 <= j < |first| && first[j].targetId == results[i].targetId;
      assert results[j] == first[j];
    }
  }

  /**
   * The service (`ClientCategorizerService`): the taxonomy and synonym rows it holds and the
   * synonym map built from them; the repository's other contents enter its methods as values.
   */
  class ClientCategorizer {
    var taxonomyRows: seq<Tagging.TaxonomyRow>
    var synonymRows: seq<TextProcessing.SynonymRow>
    var synonymMap: TextProcessing.SynonymMap

    /** The synonym map is the one built from the synonym rows. */
    ghost predicate Valid()
      reads this
    {
      && synonymMap == TextProcessing.SynonymMapOf(synonymRows)
      && TextProcessing.WellFormed(synonymMap)
    }

    constructor(taxonomy: seq<Tagging.TaxonomyRow>, synonyms: seq<TextProcessing.SynonymRow>)
      ensures Valid() && taxonomyRows == taxonomy && synonymRows == synonyms
    {
      taxonomyRows := taxonomy;
      synonymRows := synonyms;
      synonymMap := TextProcessing.SynonymMapOf(synonyms);
      new;
      RefreshResources(taxonomy, synonyms);
    }

    /** `refresh_resources`: reload both row lists and rebuild the synonym map. */
    method RefreshResources(taxonomy: seq<Tagging.TaxonomyRow>, synonyms: seq<TextProcessing.SynonymRow>)
      modifies this
      ensures Valid() && taxonomyRows == taxonomy && synonymRows == synonyms
    {
      taxonomyRows := taxonomy;
      synonymRows := synonyms;
      synonymMap := TextProcessing.BuildSynonymMap(synonyms);
      TextProcessing.SynonymMapWellFormed(synonyms);
    }

    /** `normalize_text` with the service's synonym map. */
    method NormalizeText(text: string) returns (r: string)
      requires Valid()
      ensures r == TextProcessing.Normalized(text, synonymMap)
    {
      r := TextProcessing.NormalizeText(text, synonymMap);
    }

    /** `infer_tags`: the rule tagger over the service's taxonomy and synonyms. */
    method InferTags(text: string) returns (tags: seq<Tagging.Tag>)
      requires Valid()
      ensures tags == Tagging.ExtractedTags(text, taxonomyRows, synonymRows, synonymMap)
    {
      tags := Tagging.ExtractTags(text, taxonomyRows, synonymRows, synonymMap);
    }

    /**
     * `match_ideas_for_client`: an error for an unknown client, otherwise every idea scored
     * against the client's profile, sorted by final score and cut to `top_n`.
     */
    method MatchIdeasForClient(clientId: int, profile: Option<ClientProfile>, ideas: seq<Idea>, sc: Scorers,
                               base: Matching.FamilyWeights, topN: int)
      returns (r: Result<seq<MatchResult>, MatchError>)
      requires Valid() && ScoresEachDocument(sc) && Matching.DistinctFamilies(base)
      requires profile.Some? ==> Matching.BranchFamiliesPresent(profile.value.clientType, base)
      ensures profile.None? ==> r == Err(ClientNotFound(clientId))
      ensures profile.Some? ==>
        r == Ok(RankResults(IdeaMatches(profile.value, ideas, IdeaDocs(ideas, synonymMap), sc, base), topN))
    {
      if profile.None? {
        return Err(ClientNotFound(clientId));
      }
      var p := profile.value;
      var ideaDocs := IdeaDocs(ideas, synonymMap);
      var lexical := LexicalScores(p.text, ideaDocs, sc);
      var semantic := SemanticScores(p.text, ideaDocs, sc);
      var rows := IdeaRows(p, ideas, base, semantic, lexical);
      return Ok(RankResults(rows, topN));
    }

    /**
     * `match_clients_for_idea`: the candidate search on the normalised idea, the candidates'
     * profiles scored and ranked, and, when asked for and there are results, each result
     * row's PM drill-down.
     */
    method MatchClientsForIdea(ideaText: string, ideaTags: string -> seq<Matching.TagRow>, topN: int,
                               region: string, country: string, cap: int, fallbackMin: int,
                               regions: seq<string>, query: QueryArgs -> seq<CandidateRow>,
                               profilesFor: seq<int> -> seq<ClientProfile>, sc: Scorers,
                               base: Matching.FamilyWeights, src: PmSources, pmCap: int, includePm: bool)
      returns (results: seq<MatchResult>, drilldowns: Option<seq<seq<PmResult>>>, meta: Metadata)
      requires Valid() && ScoresEachDocument(sc) && Matching.DistinctFamilies(base)
      requires ProfilesFit(profilesFor, base)
      ensures var normalized := TextProcessing.Normalized(ideaText, synonymMap);
        var (candidates, m) := CandidateSearch(normalized, region, country, cap, fallbackMin, regions, query);
        var profiles := profilesFor(candidates.order);
        && meta == m
        && (forall i :: 0 <= i < |profiles| ==> profiles[i].clientId in candidates.payloads)
        && results == RankResults(ClientMatches(normalized, Matching.FamilyMapOf(ideaTags(normalized)), candidates,
                                                profiles, sc, base), topN)
        && (profiles == [] ==> results == [])
        && drilldowns == if includePm && results != [] then
             Some(AttachedDrilldowns(RankingsOf(normalized, results, region, country, src, sc, pmCap), results))
           else None
    {
      var normalized := NormalizeText(ideaText);
      var ideaFamily := Matching.TagsToFamilyMap(ideaTags(normalized));
      var candidates;
      candidates, meta := CandidateClients(normalized, region, country, cap, fallbackMin, regions, query);
      var profiles := profilesFor(candidates.order);
      drilldowns := None;
      if profiles == [] {
        results := [];
        return;
      }
      results := ScoreCandidates(normalized, ideaFamily, candidates, profiles, sc, base, topN);
      if includePm && results != [] {
        var ranked := RankPmsForClients(normalized, results, region, country, src, sc, pmCap);
        drilldowns := Some(AttachedDrilldowns(ranked, results));
      }
    }
  }

  /** The drill-downs `rank_pms_for_clients` computes for the given result rows. */
  function RankingsOf(ideaText: string, results: seq<MatchResult>, region: string, country: string,
                      src: PmSources, sc: Scorers, cap: int): map<int, seq<PmResult>>
    requires ScoresEachDocument(sc)
  {
    Rankings(ideaText, results[..Sorting.SliceLen(|results|, 10)], src, PmFilterFor(ideaText, region, country), sc, cap)
  }

  /** The scoring loop of `match_ideas_for_client`, one row per idea in order. */
  method IdeaRows(p: ClientProfile, ideas: seq<Idea>, base: Matching.FamilyWeights,
                  semantic: seq<real>, lexical: seq<real>) returns (rows: seq<MatchResult>)
    requires |semantic| == |lexical| == |ideas|
    requires Matching.DistinctFamilies(base) && Matching.BranchFamiliesPresent(p.clientType, base)
    ensures rows == IdeaRowsOf(p, ideas, base, semantic, lexical)
  {
    ghost var expected := IdeaRowsOf(p, ideas, base, semantic, lexical);
    var familyWeights := Matching.AdjustedFamilyWeights(p.clientType, base);
    var clientFamily := Matching.TagsToFamilyMap(p.tags);
    rows := [];
    for i := 0 to |ideas|
      invariant rows == expected[..i]
    {
      var ideaFamily := Matching.TagsToFamilyMap(ideas[i].tags);
      var taxonomy := Matching.TaxonomyOverlapScore(clientFamily, ideaFamily, familyWeights);
      assert expected[i] == IdeaMatchOf(ideas[i], semantic[i], lexical[i], taxonomy);
      rows := rows + [IdeaMatchOf(ideas[i], semantic[i], lexical[i], taxonomy)];
      Seqs.PrefixNext(expected, i);
    }
    assert expected[..|ideas|] == expected;
  }
}
