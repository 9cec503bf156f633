/**
 * The PM sheet loader: each row names a client and one of its portfolio managers, a
 * free-text preference (style, example trade, tags) and optionally the pair, product,
 * tenor and region of a trade. The loader resolves the client, finds or creates the PM,
 * records the preference once as a `PREFERENCE_NOTE`, and folds the trade into the PM's
 * feature buckets with the same decay weights as the RFQ loader but without a notional.
 *
 * The row getter, the feature keys, the bucket fold and the decay weights are the RFQ
 * loader's (the two scripts carry identical copies of them). The repository enters as
 * lookups fixed for the run, plus what the run itself adds; `math.exp` and
 * `date.today()` are parameters.
 */
module IngestPm {
  import opened Wrappers
  import opened Strings
  import Calendar
  import Rfq
  import Seqs
  import IngestRfq

  type CsvRow = IngestRfq.CsvRow
  type Aggs = IngestRfq.Aggs

  // ---------------------------------------------------------------------------
  // One row
  // ---------------------------------------------------------------------------

  /**
   * The fields the loop reads from a PM row; the preference is `semantic_text`, built from
   * the Style, Example trade and Tags cells.
   */
  datatype PmRow = PmRow(clientName: string, pmName: string, preference: string,
                         obsDate: Option<Calendar.Date>, ccyPair: string, productType: string,
                         tenorBucket: string, region: string, country: string,
                         tradeDate: Option<Calendar.Date>)

  /** Parsed dates are real calendar dates. */
  predicate DatesValid(r: PmRow) {
    && (r.obsDate.Some? ==> Calendar.Valid(r.obsDate.value))
    && (r.tradeDate.Some? ==> Calendar.Valid(r.tradeDate.value))
  }

  /** The getter calls of one row, with the RFQ normalisers applied to the trade fields. */
  function ParsePmRow(row: CsvRow, regions: seq<string>): (r: PmRow)
    ensures DatesValid(r) && Strip(r.preference) == r.preference
  {
    var get := IngestRfq.RowGetter(row);
    PmRow(IngestRfq.GetField(get, ["Client", "Client Name"]),
          IngestRfq.GetField(get, ["Portfolio Manager", "PM"]),
          SemanticText([IngestRfq.GetField(get, ["Style"]),
                        IngestRfq.GetField(get, ["Example trade", "Example Trade"]),
                        IngestRfq.GetField(get, ["Tags"])]),
          Rfq.ParseTradeDate(IngestRfq.GetField(get, ["date", "obs_date"])),
          Rfq.NormalizeCcyPair(IngestRfq.GetField(get, ["CcyPair", "ccy_pair"])),
          Rfq.NormalizeProductType(IngestRfq.GetField(get, ["productType", "product_type"])),
          Rfq.NormalizeTenorBucket(IngestRfq.GetField(get, ["tenor_bucket", "tenor"])),
          Rfq.NormalizeRegion(IngestRfq.GetField(get, ["Client Region", "region"]), regions),
          Rfq.NormalizeCountry(IngestRfq.GetField(get, ["clientregion", "country"])),
          Rfq.ParseTradeDate(IngestRfq.GetField(get, ["date"])))
  }

  /** Reading one row, for the regions the run recognises. */
  function RowParser(regions: seq<string>): CsvRow -> PmRow {
    row => ParsePmRow(row, regions)
  }

  predicate AllDatesValid(rows: seq<PmRow>) {
    forall i :: 0 <= i < |rows| ==> DatesValid(rows[i])
  }

  /** Every preference has nothing left to strip. */
  predicate PreferencesStripped(rows: seq<PmRow>) {
    forall i :: 0 <= i < |rows| ==> Strip(rows[i].preference) == rows[i].preference
  }

  /** The fields of every row of the sheet, in order. */
  function ParsePmRows(rows: seq<CsvRow>, regions: seq<string>): (r: seq<PmRow>)
    ensures |r| == |rows| && AllDatesValid(r) && PreferencesStripped(r)
  {
    Seqs.Map(rows, RowParser(regions))
  }

  // ---------------------------------------------------------------------------
  // Preference text
  // ---------------------------------------------------------------------------

  /** `semantic_text`: the non-blank values (Style, Example trade, Tags) joined with " | ". */
  function SemanticText(values: seq<string>): (t: string)
    ensures Strip(t) == t
  {
    StripIdempotent(Join(NonBlankStripped(values), " | "));
    Strip(Join(NonBlankStripped(values), " | "))
  }

  /**
   * The preference text is blank exactly when every value is; otherwise it is the join of
   * the non-blank ones, which the final strip leaves alone.
   */
  lemma SemanticTextShape(values: seq<string>)
    ensures SemanticText(values) == "" <==> forall k :: 0 <= k < |values| ==> Strip(values[k]) == ""
    ensures SemanticText(values) != "" ==> SemanticText(values) == Join(NonBlankStripped(values), " | ")
  {
    var parts := NonBlankStripped(values);
    NonBlankStrippedEmpty(values);
    if parts != [] {
      JoinStripped(parts, " | ");
    } else {
      assert Join(parts, " | ") == "";
    }
  }

  // ---------------------------------------------------------------------------
  // What the run reads and keeps
  // ---------------------------------------------------------------------------

  /** The observation type of a preference. */
  const PreferenceNote: string := "PREFERENCE_NOTE"

  /** A `PREFERENCE_NOTE` the run adds: the PM, the text and the ISO date. */
  datatype Note = Note(pmId: int, text: string, isoDate: string)

  /**
   * What the loader takes from the repository and the clock: today's date, `math.exp`,
   * `REGIONS`, the client resolver, the PM lookup and the stored observations of each PM
   * (as (type, stripped text, ISO date)) as they stand when the run starts, and the id the
   * repository hands to the next PM it creates.
   */
  datatype PmEnv = PmEnv(today: Calendar.Date, exp: real -> real, regions: seq<string>,
                         resolveClient: string -> Option<int>, existingPm: (int, string) -> Option<int>,
                         storedObservations: int -> set<(string, string, string)>, firstPmId: int)

  predicate EnvValid(env: PmEnv) {
    Calendar.Valid(env.today)
  }

  /** The counters and collections of one run. */
  datatype PmRun = PmRun(
    rowsRead: nat, rowsValid: nat, rowsSkipped: nat, pmsCreated: nat, pmsUpdated: nat, notesCreated: nat,
    nextPmId: int,
    createdPms: map<(int, string), int>,
    unresolved: set<string>,
    notes: seq<Note>,
    snippets: IngestRfq.Ordered<int, seq<string>>,
    aggs: Aggs)

  /** Nothing counted or collected yet. */
  function Start(env: PmEnv): PmRun {
    PmRun(0, 0, 0, 0, 0, 0, env.firstPmId, map[], {}, [], IngestRfq.Ordered([], map[]), IngestRfq.Ordered([], map[]))
  }

  /** `get_pm_by_client_name`: a PM this run created under the client and name, else the repository's. */
  function FindPm(run: PmRun, clientId: int, pmName: string, env: PmEnv): Option<int> {
    if (clientId, pmName) in run.createdPms then Some(run.createdPms[(clientId, pmName)])
    else env.existingPm(clientId, pmName)
  }

  /** Whether the PM already has this note, stored before the run or added by it. */
  predicate Noted(run: PmRun, n: Note, env: PmEnv) {
    (PreferenceNote, n.text, n.isoDate) in env.storedObservations(n.pmId) || n in run.notes
  }

  /** A PM id and the run after resolving it. */
  datatype Resolved = Resolved(id: int, run: PmRun)

  // ---------------------------------------------------------------------------
  // One row of the loop
  // ---------------------------------------------------------------------------

  /** The skip rule before resolution: a row without a client or a PM name. */
  predicate Unnamed(r: PmRow) {
    r.clientName == "" || r.pmName == ""
  }

  /** A row is skipped when it lacks a name or its client does not resolve. */
  predicate SkipsRow(r: PmRow, env: PmEnv) {
    Unnamed(r) || env.resolveClient(r.clientName).None?
  }

  /** The row counted as read and valid, and its PM found (counted as updated) or created. */
  function ResolvePm(run: PmRun, clientId: int, pmName: string, env: PmEnv): Resolved {
    var counted := run.(rowsRead := run.rowsRead + 1, rowsValid := run.rowsValid + 1);
    match FindPm(run, clientId, pmName, env)
    case Some(id) => Resolved(id, counted.(pmsUpdated := run.pmsUpdated + 1))
    case None =>
      var id := run.nextPmId;
      Resolved(id, counted.(nextPmId := id + 1, pmsCreated := run.pmsCreated + 1,
                            createdPms := run.createdPms[(clientId, pmName) := id]))
  }

  /** The date a note is filed under: the row's date, else today. */
  function NoteDate(r: PmRow, today: Calendar.Date): Calendar.Date {
    if r.obsDate.Some? then r.obsDate.value else today
  }

  /** The list of snippets of a PM so far. */
  function SnippetsOf(snippets: IngestRfq.Ordered<int, seq<string>>, pmId: int): seq<string> {
    if pmId in snippets.values then snippets.values[pmId] else []
  }

  /** A non-blank preference is added as a note unless the PM has it, and is kept as a snippet either way. */
  function NoteStep(p: Resolved, r: PmRow, env: PmEnv): PmRun
    requires EnvValid(env) && DatesValid(r)
  {
    var text := r.preference;
    if text == "" then p.run
    else
      var n := Note(p.id, text, Calendar.IsoFormat(NoteDate(r, env.today)));
      var run := if Noted(p.run, n, env) then p.run
                 else p.run.(notes := p.run.notes + [n], notesCreated := p.run.notesCreated + 1);
      run.(snippets := IngestRfq.Put(run.snippets, p.id, SnippetsOf(run.snippets, p.id) + [text]))
  }

  /** What the row adds to each of its buckets: no notional, its date (else today) and its age. */
  function TradeOf(r: PmRow, today: Calendar.Date): IngestRfq.Trade
    requires DatesValid(r) && Calendar.Valid(today)
  {
    var d := if r.tradeDate.Some? then r.tradeDate.value else today;
    IngestRfq.Trade(0.0, Calendar.IsoFormat(d), Calendar.DaysOld(today, d))
  }

  /** The PM's buckets for the row: none when the row has no region. */
  function PmKeys(r: PmRow, pmId: int): (keys: seq<IngestRfq.AggKey>)
    ensures r.region == "" ==> keys == []
  {
    if r.region == "" then []
    else IngestRfq.EntityKeys(IngestRfq.Pm, pmId, r.region, r.country,
                              IngestRfq.BuildFeatureKeys(r.ccyPair, r.productType, r.tenorBucket))
  }

  /** The buckets after the row's trade. */
  function BucketStep(pmId: int, run: PmRun, r: PmRow, env: PmEnv): PmRun
    requires EnvValid(env) && DatesValid(r)
  {
    run.(aggs := IngestRfq.BumpAll(run.aggs, PmKeys(r, pmId), TradeOf(r, env.today), env.exp))
  }

  /** The run after a resolved row: its note and snippet, then its buckets. */
  function ValidStep(p: Resolved, r: PmRow, env: PmEnv): PmRun
    requires EnvValid(env) && DatesValid(r)
  {
    BucketStep(p.id, NoteStep(p, r, env), r, env)
  }

  /** One row of the loop, once its fields are read. */
  function Step(run: PmRun, r: PmRow, env: PmEnv): PmRun
    requires EnvValid(env) && DatesValid(r)
  {
    if Unnamed(r) then run.(rowsRead := run.rowsRead + 1, rowsSkipped := run.rowsSkipped + 1)
    else match env.resolveClient(r.clientName)
      case None => run.(rowsRead := run.rowsRead + 1, rowsSkipped := run.rowsSkipped + 1,
                        unresolved := run.unresolved + {r.clientName})
      case Some(clientId) => ValidStep(ResolvePm(run, clientId, r.pmName, env), r, env)
  }

  /** The run after a sequence of rows. */
  function Ingested(run: PmRun, rows: seq<PmRow>, env: PmEnv): PmRun
    requires EnvValid(env) && AllDatesValid(rows)
    decreases |rows|
  {
    if rows == [] then run else Step(Ingested(run, rows[..|rows| - 1], env), rows[|rows| - 1], env)
  }

  /** One row of the loop, with the bucket loop spelled out. */
  method IngestRow(run: PmRun, r: PmRow, env: PmEnv) returns (next: PmRun)
    requires EnvValid(env) && DatesValid(r)
    ensures next == Step(run, r, env)
  {
    if r.clientName == "" || r.pmName == "" {
      return run.(rowsRead := run.rowsRead + 1, rowsSkipped := run.rowsSkipped + 1);
    }
    var client := env.resolveClient(r.clientName);
    if client.None? {
      return run.(rowsRead := run.rowsRead + 1, rowsSkipped := run.rowsSkipped + 1,
                  unresolved := run.unresolved + {r.clientName});
    }
    var p := ResolvePm(run, client.value, r.pmName, env);
    next := NoteStep(p, r, env);
    var aggs := IngestRfq.BumpBuckets(next.aggs, PmKeys(r, p.id), TradeOf(r, env.today), env.exp);
    next := next.(aggs := aggs);
  }

  // ---------------------------------------------------------------------------
  // What a run keeps true
  // ---------------------------------------------------------------------------

  /** Counters agree with each other and with the notes; notes are new and distinct. */
  predicate Counted(run: PmRun, env: PmEnv) {
    && run.rowsRead == run.rowsValid + run.rowsSkipped
    && run.rowsValid == run.pmsCreated + run.pmsUpdated
    && run.notesCreated == |run.notes|
    && run.nextPmId == env.firstPmId + run.pmsCreated
    && (forall i, j :: 0 <= i < j < |run.notes| ==> run.notes[i] != run.notes[j])
    && (forall i :: 0 <= i < |run.notes| ==>
          (PreferenceNote, run.notes[i].text, run.notes[i].isoDate) !in env.storedObservations(run.notes[i].pmId))
  }

  /** Every snippet list is non-empty and holds non-blank stripped texts. */
  ghost predicate SnippetsValid(snippets: IngestRfq.Ordered<int, seq<string>>) {
    && IngestRfq.OrderedValid(snippets)
    && (forall id :: id in snippets.values ==> snippets.values[id] != [])
    && (forall id, k :: id in snippets.values && 0 <= k < |snippets.values[id]| ==>
          snippets.values[id][k] != "" && Strip(snippets.values[id][k]) == snippets.values[id][k])
  }

  /** Every bucket is a PM's, has a region, and has no notional. */
  ghost predicate BucketsValid(aggs: Aggs) {
    && IngestRfq.OrderedValid(aggs)
    && (forall k :: k in aggs.values ==>
          k.entityType == IngestRfq.Pm && k.region != "" && aggs.values[k].hitNotionalSumM == 0.0)
  }

  ghost predicate Consistent(run: PmRun, env: PmEnv) {
    Counted(run, env) && SnippetsValid(run.snippets) && BucketsValid(run.aggs)
  }

  /** Resolving a PM counts the row as valid and once as created or updated. */
  lemma ResolvePmCounted(run: PmRun, clientId: int, pmName: string, env: PmEnv)
    requires Counted(run, env)
    ensures var p := ResolvePm(run, clientId, pmName, env);
      && p.run.rowsValid == run.rowsValid + 1
      && p.run.rowsRead == run.rowsRead + 1
      && p.run.rowsSkipped == run.rowsSkipped
      && p.run.notes == run.notes && p.run.snippets == run.snippets && p.run.aggs == run.aggs
      && (p.run.pmsCreated == run.pmsCreated + 1 <==> FindPm(run, clientId, pmName, env).None?)
      && Counted(p.run, env)
      && FindPm(p.run, clientId, pmName, env) == Some(p.id)
  {
  }

  /**
   * A note is added exactly when the preference is not blank and the PM does not have it
   * yet; the added note is new to the repository and to the run, so the notes stay distinct.
   */
  lemma NoteStepNotes(p: Resolved, r: PmRow, env: PmEnv)
    requires EnvValid(env) && DatesValid(r) && Counted(p.run, env)
    ensures var after := NoteStep(p, r, env);
      var n := Note(p.id, r.preference, Calendar.IsoFormat(NoteDate(r, env.today)));
      && (after.notes == p.run.notes + [n] <==> r.preference != "" && !Noted(p.run, n, env))
      && (after.notes != p.run.notes + [n] ==> after.notes == p.run.notes)
      && Counted(after, env)
  {
    var n := Note(p.id, r.preference, Calendar.IsoFormat(NoteDate(r, env.today)));
    var after := NoteStep(p, r, env);
    if r.preference != "" && !Noted(p.run, n, env) {
      assert after.notes == p.run.notes + [n];
      assert forall i :: 0 <= i < |p.run.notes| ==> p.run.notes[i] != n;
    } else {
      assert after.notes == p.run.notes;
      assert |after.notes| != |p.run.notes + [n]|;
    }
  }

  /** A note step keeps each snippet list non-empty and its texts non-blank and stripped. */
  lemma NoteStepSnippets(p: Resolved, r: PmRow, env: PmEnv)
    requires EnvValid(env) && DatesValid(r) && Strip(r.preference) == r.preference
    requires SnippetsValid(p.run.snippets)
    ensures SnippetsValid(NoteStep(p, r, env).snippets)
    ensures NoteStep(p, r, env).aggs == p.run.aggs
  {
    var text := r.preference;
    if text != "" {
      var s := NoteStep(p, r, env).snippets;
      assert s == IngestRfq.Put(p.run.snippets, p.id, SnippetsOf(p.run.snippets, p.id) + [text]);
      IngestRfq.PutValid(p.run.snippets, p.id, SnippetsOf(p.run.snippets, p.id) + [text]);
      forall id, k | id in s.values && 0 <= k < |s.values[id]|
        ensures s.values[id][k] != "" && Strip(s.values[id][k]) == s.values[id][k]
      {
        if id == p.id && k == |s.values[id]| - 1 {
          assert s.values[id][k] == text;
        } else if id == p.id {
          assert s.values[id][k] == p.run.snippets.values[id][k];
        }
      }
    }
  }

  /** A bucket step keeps every bucket a PM's, with a region and no notional. */
  lemma BucketStepValid(pmId: int, run: PmRun, r: PmRow, env: PmEnv)
    requires EnvValid(env) && DatesValid(r) && BucketsValid(run.aggs)
    ensures BucketsValid(BucketStep(pmId, run, r, env).aggs)
  {
    var keys := PmKeys(r, pmId);
    var t := TradeOf(r, env.today);
    IngestRfq.BumpAllOrder(run.aggs, keys, t, env.exp);
    if r.region != "" {
      IngestRfq.EntityKeysDistinct(IngestRfq.Pm, pmId, r.region, r.country, r.ccyPair, r.productType, r.tenorBucket);
    }
    var after := IngestRfq.BumpAll(run.aggs, keys, t, env.exp);
    forall k | k in after.values
      ensures k.entityType == IngestRfq.Pm && k.region != "" && after.values[k].hitNotionalSumM == 0.0
    {
      IngestRfq.BumpAllAt(run.aggs, keys, t, env.exp, k);
    }
  }

  /** One row keeps the run consistent, counts it as read, and as valid or skipped by the skip rules. */
  lemma StepConsistent(run: PmRun, r: PmRow, env: PmEnv)
    requires EnvValid(env) && DatesValid(r) && Strip(r.preference) == r.preference && Consistent(run, env)
    ensures var after := Step(run, r, env);
      && Consistent(after, env)
      && after.rowsRead == run.rowsRead + 1
      && after.rowsSkipped == run.rowsSkipped + (if SkipsRow(r, env) then 1 else 0)
      && (after.unresolved == if !Unnamed(r) && env.resolveClient(r.clientName).None?
                              then run.unresolved + {r.clientName} else run.unresolved)
  {
    if !SkipsRow(r, env) {
      var p := ResolvePm(run, env.resolveClient(r.clientName).value, r.pmName, env);
      ResolvePmCounted(run, env.resolveClient(r.clientName).value, r.pmName, env);
      ValidStepConsistent(p, r, env);
    }
  }

  /** The note, snippet and bucket updates of a resolved row keep the run consistent and its counters as they are. */
  lemma ValidStepConsistent(p: Resolved, r: PmRow, env: PmEnv)
    requires EnvValid(env) && DatesValid(r) && Strip(r.preference) == r.preference && Consistent(p.run, env)
    ensures var after := ValidStep(p, r, env);
      && Consistent(after, env)
      && after.rowsRead == p.run.rowsRead && after.rowsValid == p.run.rowsValid
      && after.rowsSkipped == p.run.rowsSkipped && after.unresolved == p.run.unresolved
  {
    NoteStepNotes(p, r, env);
    NoteStepSnippets(p, r, env);
    BucketStepValid(p.id, NoteStep(p, r, env), r, env);
  }

  /** The skipped rows of a sequence: those without names or whose client does not resolve. */
  function SkippedRows(rows: seq<PmRow>, env: PmEnv): nat
    decreases |rows|
  {
    if rows == [] then 0
    else
      var r := rows[|rows| - 1];
      SkippedRows(rows[..|rows| - 1], env) + if SkipsRow(r, env) then 1 else 0
  }

  /**
   * A whole sheet keeps the run consistent: every row is read, and counted as skipped
   * exactly when it lacks a name or its client does not resolve, and as valid otherwise.
   */
  lemma {:induction false} IngestedConsistent(run: PmRun, rows: seq<PmRow>, env: PmEnv)
    requires EnvValid(env) && AllDatesValid(rows) && PreferencesStripped(rows) && Consistent(run, env)
    ensures var after := Ingested(run, rows, env);
      && Consistent(after, env)
      && after.rowsRead == run.rowsRead + |rows|
      && after.rowsSkipped == run.rowsSkipped + SkippedRows(rows, env)
      && after.rowsValid == run.rowsValid + (|rows| - SkippedRows(rows, env))
    decreases |rows|
  {
    if rows != [] {
      var init := rows[..|rows| - 1];
      IngestedConsistent(run, init, env);
      StepConsistent(Ingested(run, init, env), rows[|rows| - 1], env);
    }
  }

  // ---------------------------------------------------------------------------
  // Buckets of one row
  // ---------------------------------------------------------------------------

  /** The buckets a row adds its trade to: none for a skipped row or a row without region. */
  function Touched(run: PmRun, r: PmRow, env: PmEnv): (keys: seq<IngestRfq.AggKey>)
    ensures Unnamed(r) || r.region == "" ==> keys == []
  {
    if Unnamed(r) then []
    else match env.resolveClient(r.clientName)
      case None => []
      case Some(clientId) => PmKeys(r, ResolvePm(run, clientId, r.pmName, env).id)
  }

  /**
   * A row adds its trade, without notional, once to each bucket it touches, creates the
   * missing ones, and leaves every other bucket as it was.
   */
  lemma StepAt(run: PmRun, r: PmRow, env: PmEnv, k: IngestRfq.AggKey)
    requires EnvValid(env) && DatesValid(r)
    ensures var after := Step(run, r, env).aggs;
      var touched := Touched(run, r, env);
      && (k in after.values <==> k in run.aggs.values || k in touched)
      && IngestRfq.Prior(after, k) == if k in touched
           then IngestRfq.Bump(IngestRfq.Prior(run.aggs, k), TradeOf(r, env.today), env.exp)
           else IngestRfq.Prior(run.aggs, k)
  {
    if !Unnamed(r) && env.resolveClient(r.clientName).Some? {
      var p := ResolvePm(run, env.resolveClient(r.clientName).value, r.pmName, env);
      var noted := NoteStep(p, r, env);
      assert noted.aggs == run.aggs;
      if r.region != "" {
        IngestRfq.EntityKeysDistinct(IngestRfq.Pm, p.id, r.region, r.country, r.ccyPair, r.productType, r.tenorBucket);
      }
      IngestRfq.BumpAllAt(run.aggs, PmKeys(r, p.id), TradeOf(r, env.today), env.exp, k);
    }
  }

  // ---------------------------------------------------------------------------
  // After the loop
  // ---------------------------------------------------------------------------

  /** How many snippets a profile uses. */
  const SnippetLimit: nat := 50

  /** The profile text of a PM: its first 50 snippets joined with " | ", or `PM <id>` when that is blank. */
  function ProfileText(pmId: int, snippets: seq<string>): string {
    var used := if |snippets| <= SnippetLimit then snippets else snippets[..SnippetLimit];
    var joined := Strip(Join(used, " | "));
    if joined != "" then joined else "PM " + Calendar.IntToString(pmId)
  }

  /**
   * A PM with snippets gets the join of its first 50 of them; the `PM <id>` fallback is
   * reached only without snippets.
   */
  lemma ProfileTextShape(pmId: int, snippets: seq<string>)
    requires forall k :: 0 <= k < |snippets| ==> snippets[k] != "" && Strip(snippets[k]) == snippets[k]
    ensures snippets != [] ==> ProfileText(pmId, snippets) == Join(snippets[..if |snippets| <= 50 then |snippets| else 50], " | ")
    ensures snippets == [] ==> ProfileText(pmId, snippets) == "PM " + Calendar.IntToString(pmId)
  {
    if snippets != [] {
      var used := snippets[..if |snippets| <= 50 then |snippets| else 50];
      assert used == if |snippets| <= SnippetLimit then snippets else snippets[..SnippetLimit];
      JoinStripped(used, " | ");
    }
  }

  /** One `upsert_entity_profile_cache("PM", id, text)` per PM with snippets, in first-seen order. */
  function Profiles(snippets: IngestRfq.Ordered<int, seq<string>>): (r: seq<(int, string)>)
    requires IngestRfq.OrderedValid(snippets)
    ensures |r| == |snippets.keys|
  {
    seq(|snippets.keys|, i requires 0 <= i < |snippets.keys| =>
      (snippets.keys[i], ProfileText(snippets.keys[i], snippets.values[snippets.keys[i]])))
  }

  /** The profile texts, one PM at a time. */
  method BuildProfiles(snippets: IngestRfq.Ordered<int, seq<string>>) returns (r: seq<(int, string)>)
    requires IngestRfq.OrderedValid(snippets)
    ensures r == Profiles(snippets)
  {
    r := [];
    var i := 0;
    while i < |snippets.keys|
      invariant 0 <= i <= |snippets.keys|
      invariant r == Profiles(snippets)[..i]
    {
      var id := snippets.keys[i];
      r := r + [(id, ProfileText(id, snippets.values[id]))];
      i := i + 1;
    }
  }

  /** The feature rows, one bucket at a time. */
  method CollectFeatures(aggs: Aggs) returns (rows: seq<(IngestRfq.AggKey, IngestRfq.Agg)>)
    requires IngestRfq.OrderedValid(aggs)
    ensures rows == IngestRfq.FeatureRows(aggs)
  {
    rows := [];
    var i := 0;
    while i < |aggs.keys|
      invariant 0 <= i <= |aggs.keys|
      invariant rows == IngestRfq.FeatureRows(aggs)[..i]
    {
      var k := aggs.keys[i];
      rows := rows + [(k, aggs.values[k])];
      i := i + 1;
    }
  }

  /** The stats the loader returns, with what it writes: feature rows, notes and profile texts. */
  datatype PmReport = PmReport(
    rowsRead: nat, rowsValid: nat, rowsSkipped: nat, pmsCreated: nat, pmsUpdated: nat,
    notesCreated: nat, featuresUpserted: nat, unresolvedClients: nat,
    features: seq<(IngestRfq.AggKey, IngestRfq.Agg)>, notes: seq<Note>, profiles: seq<(int, string)>)

  function ReportOf(run: PmRun): PmReport
    requires IngestRfq.OrderedValid(run.aggs) && IngestRfq.OrderedValid(run.snippets)
  {
    var features := IngestRfq.FeatureRows(run.aggs);
    PmReport(run.rowsRead, run.rowsValid, run.rowsSkipped, run.pmsCreated, run.pmsUpdated, run.notesCreated,
             |features|, |run.unresolved|, features, run.notes, Profiles(run.snippets))
  }

  /** The row loop of `ingest_pm_csv` over rows whose fields are read. */
  method IngestRows(rows: seq<PmRow>, env: PmEnv) returns (run: PmRun)
    requires EnvValid(env) && AllDatesValid(rows)
    ensures run == Ingested(Start(env), rows, env)
  {
    run := Start(env);
    var i := 0;
    while i < |rows|
      invariant 0 <= i <= |rows|
      invariant run == Ingested(Start(env), rows[..i], env)
    {
      assert rows[..i + 1][..i] == rows[..i];
      run := IngestRow(run, rows[i], env);
      i := i + 1;
    }
    assert rows[..|rows|] == rows;
  }

  /** A run from empty counters and collections stays consistent over a whole sheet. */
  lemma SheetConsistent(rows: seq<PmRow>, env: PmEnv)
    requires EnvValid(env) && AllDatesValid(rows) && PreferencesStripped(rows)
    ensures Consistent(Ingested(Start(env), rows, env), env)
  {
    assert Consistent(Start(env), env);
    IngestedConsistent(Start(env), rows, env);
  }

  /** The writes after the row loop: feature rows and profile texts. */
  method Finish(run: PmRun, env: PmEnv) returns (report: PmReport)
    requires Consistent(run, env)
    ensures report == ReportOf(run)
  {
    var features := CollectFeatures(run.aggs);
    var profiles := BuildProfiles(run.snippets);
    report := PmReport(run.rowsRead, run.rowsValid, run.rowsSkipped, run.pmsCreated, run.pmsUpdated,
                       run.notesCreated, |features|, |run.unresolved|, features, run.notes, profiles);
  }

  /**
   * `ingest_pm_csv`: a sheet without a header row is refused before any row is read;
   * otherwise the report of the run over all of its rows.
   */
  method IngestPmCsv(header: Option<seq<string>>, rows: seq<CsvRow>, env: PmEnv)
    returns (result: Result<PmReport, IngestRfq.HeaderError>)
    requires EnvValid(env)
    ensures header.None? || header == Some([]) ==> result == Err(IngestRfq.NoHeader)
    ensures header.Some? && header.value != [] ==>
      var run := Ingested(Start(env), ParsePmRows(rows, env.regions), env);
      Consistent(run, env) && result == Ok(ReportOf(run))
  {
    if header.None? || header.value == [] {
      return Err(IngestRfq.NoHeader);
    }
    var parsed := Seqs.MapEach(rows, RowParser(env.regions));
    var run := IngestRows(parsed, env);
    SheetConsistent(parsed, env);
    var report := Finish(run, env);
    result := Ok(report);
  }
}
