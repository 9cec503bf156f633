/**
 * The RFQ export loader: the case- and space-insensitive row getter, the header check, the
 * decay weights, the feature-key expansion, the per-bucket aggregate fold with its skip rule
 * and client and PM resolution, and the profile text built from an entity's buckets.
 *
 * The repository enters as lookups that are fixed for the run and as the next ids it hands
 * out; `math.exp` and `date.today()` are parameters.
 */
module IngestRfq {
  import opened Wrappers
  import opened Strings
  import Sorting
  import Calendar
  import Rfq
  import Profiles
  import Features
  import Seqs

  // ---------------------------------------------------------------------------
  // Row access
  // ---------------------------------------------------------------------------

  /** `_normalize_key`. */
  function NormalizeKey(value: string): string {
    Lower(Strip(value))
  }

  /** A CSV row as the reader yields it: (header, cell) pairs in column order; a missing cell is "". */
  type CsvRow = seq<(string, string)>

  /** A dict built from (key, value) pairs in order: a later pair overrides an earlier one. */
  function DictOf(pairs: seq<(string, string)>): map<string, string>
    decreases |pairs|
  {
    if pairs == [] then map[]
    else DictOf(pairs[..|pairs| - 1])[pairs[|pairs| - 1].0 := pairs[|pairs| - 1].1]
  }

  /** The keys of the dict are the keys of the pairs, and each maps to its last pair's value. */
  lemma {:induction false} DictOfLastWins(pairs: seq<(string, string)>, i: nat)
    requires i < |pairs|
    requires forall j :: i < j < |pairs| ==> pairs[j].0 != pairs[i].0
    ensures pairs[i].0 in DictOf(pairs) && DictOf(pairs)[pairs[i].0] == pairs[i].1
    decreases |pairs|
  {
    if i < |pairs| - 1 {
      var init := pairs[..|pairs| - 1];
      assert init[i] == pairs[i];
      assert forall j :: i < j < |init| ==> init[j] == pairs[j];
      DictOfLastWins(init, i);
    }
  }

  /** A key is in the dict only when some pair has it. */
  lemma {:induction false} DictOfKeys(pairs: seq<(string, string)>, k: string)
    ensures k in DictOf(pairs) ==> exists i :: 0 <= i < |pairs| && pairs[i].0 == k
    decreases |pairs|
  {
    if pairs != [] && k != pairs[|pairs| - 1].0 {
      var init := pairs[..|pairs| - 1];
      DictOfKeys(init, k);
      if k in DictOf(init) {
        var i :| 0 <= i < |init| && init[i].0 == k;
        assert pairs[i] == init[i];
      }
    }
  }

  /** The row with each header normalised. */
  function NormalizedRow(row: CsvRow): (r: seq<(string, string)>)
    ensures |r| == |row|
  {
    seq(|row|, i requires 0 <= i < |row| => (NormalizeKey(row[i].0), row[i].1))
  }

  /** `{_normalize_key(k): (v or "") for k, v in row.items()}`. */
  function Keyed(row: CsvRow): map<string, string> {
    DictOf(NormalizedRow(row))
  }

  /** `keyed.get(_normalize_key(name), "").strip()`. */
  function Value(keyed: map<string, string>, name: string): string {
    var k := NormalizeKey(name);
    Strip(if k in keyed then keyed[k] else "")
  }

  /** `_build_row_getter(row)`: the stripped cell under a name, matched up to case and surrounding space. */
  function RowGetter(row: CsvRow): string -> string {
    name => Value(Keyed(row), name)
  }

  /** `get_field(*names)`: the first non-blank value among the names, "" when all are blank. */
  function GetField(value: string -> string, names: seq<string>): string
    decreases |names|
  {
    if names == [] then ""
    else if value(names[0]) != "" then value(names[0])
    else GetField(value, names[1..])
  }

  /**
   * The getter returns the value of the first name whose cell is not blank, and "" exactly
   * when every one of them is blank.
   */
  lemma {:induction false} GetFieldFirst(value: string -> string, names: seq<string>)
    ensures var r := GetField(value, names);
      && (r == "" <==> forall i :: 0 <= i < |names| ==> value(names[i]) == "")
      && (r != "" ==> exists i :: 0 <= i < |names| && r == value(names[i])
                        && forall j :: 0 <= j < i ==> value(names[j]) == "")
    decreases |names|
  {
    if names != [] && value(names[0]) == "" {
      var rest := names[1..];
      GetFieldFirst(value, rest);
      assert forall i :: 1 <= i < |names| ==> names[i] == rest[i - 1];
      var r := GetField(value, names);
      if r != "" {
        var i :| 0 <= i < |rest| && r == value(rest[i])
                 && forall j :: 0 <= j < i ==> value(rest[j]) == "";
        assert names[i + 1] == rest[i];
      }
    }
  }

  // ---------------------------------------------------------------------------
  // Header check
  // ---------------------------------------------------------------------------

  /** `REQUIRED_COLUMNS`. */
  const RequiredColumns: seq<string> := ["aspen_l2_client_name", "CcyPair", "Client Region", "productType", "date"]

  /** Why a file is refused before any row is read. */
  datatype HeaderError = NoHeader | MissingColumns(missing: seq<string>)

  /** The required columns, in order, whose normalised name is not among the present ones. */
  function MissingColumnsOf(required: seq<string>, present: set<string>): (r: seq<string>)
    ensures forall c :: c in r <==> c in required && NormalizeKey(c) !in present
    ensures |r| <= |required|
  {
    if required == [] then []
    else
      var head := if NormalizeKey(required[0]) in present then [] else [required[0]];
      head + MissingColumnsOf(required[1..], present)
  }

  /** The normalised names of the header's columns. */
  function Present(fieldnames: seq<string>): set<string> {
    set c | c in fieldnames :: NormalizeKey(c)
  }

  /** `_ensure_headers`. */
  function EnsureHeaders(fieldnames: Option<seq<string>>): Result<(), HeaderError> {
    if fieldnames.None? || fieldnames.value == [] then Err(NoHeader)
    else
      var missing := MissingColumnsOf(RequiredColumns, Present(fieldnames.value));
      if missing != [] then Err(MissingColumns(missing)) else Ok(())
  }

  /**
   * The header is refused for want of a header exactly when there is none; otherwise it is
   * accepted exactly when every required column is among its columns up to case and
   * surrounding space, and the error lists the required columns that are not.
   */
  lemma EnsureHeadersIff(fieldnames: Option<seq<string>>)
    ensures EnsureHeaders(fieldnames) == Err(NoHeader) <==> fieldnames.None? || fieldnames.value == []
    ensures fieldnames.Some? && fieldnames.value != [] ==>
      && (EnsureHeaders(fieldnames).Ok? <==>
            forall c :: c in RequiredColumns ==> NormalizeKey(c) in Present(fieldnames.value))
      && (EnsureHeaders(fieldnames).Err? ==>
            forall c :: c in EnsureHeaders(fieldnames).error.missing <==>
              c in RequiredColumns && NormalizeKey(c) !in Present(fieldnames.value))
  {
    if fieldnames.Some? && fieldnames.value != [] {
      var missing := MissingColumnsOf(RequiredColumns, Present(fieldnames.value));
      if missing != [] {
        assert missing[0] in missing;
      }
    }
  }

  // ---------------------------------------------------------------------------
  // Decay
  // ---------------------------------------------------------------------------

  /** `_decay`: `exp(-max(0, days_old) / window)`. */
  function Decay(daysOld: int, window: real, exp: real -> real): real
    requires window > 0.0
  {
    var d := if daysOld > 0 then daysOld else 0;
    exp(-(d as real) / window)
  }

  lemma NegativeRatio(d: real, window: real)
    requires d >= 0.0 && window > 0.0
    ensures -d / window <= 0.0
    ensures d == 0.0 ==> -d / window == 0.0
  {
    assert (-d / window) * window == -d;
  }

  /** A decay weight lies in (0, 1] and is 1 for a trade dated today or later. */
  lemma DecayBounds(daysOld: int, window: real, exp: real -> real)
    requires window > 0.0 && Profiles.ExpBounded(exp)
    ensures 0.0 < Decay(daysOld, window, exp) <= 1.0
    ensures daysOld <= 0 ==> Decay(daysOld, window, exp) == 1.0
  {
    var d := if daysOld > 0 then daysOld else 0;
    NegativeRatio(d as real, window);
  }

  /** An older trade weighs no more than a newer one. */
  lemma DecayMonotone(newer: int, older: int, window: real, exp: real -> real)
    requires newer <= older && window > 0.0 && Profiles.ExpMonotone(exp)
    ensures Decay(older, window, exp) <= Decay(newer, window, exp)
  {
    var dn := if newer > 0 then newer else 0;
    var dOld := if older > 0 then older else 0;
    NegativeRatio(dn as real, window);
    NegativeRatio(dOld as real, window);
    Features.RatioMonotone(-(dOld as real), -(dn as real), window);
  }

  // ---------------------------------------------------------------------------
  // Feature keys
  // ---------------------------------------------------------------------------

  /** The kinds of feature bucket, in the order they are produced. */
  datatype FeatureKind = PairProductTenor | PairProduct | Pair | Product | Tenor {
    /** The kind as it is stored. */
    function Name(): string {
      match this
      case PairProductTenor => "PAIR_PRODUCT_TENOR"
      case PairProduct => "PAIR_PRODUCT"
      case Pair => "PAIR"
      case Product => "PRODUCT"
      case Tenor => "TENOR"
    }

    /** The position of the kind in the production order. */
    function Rank(): nat {
      match this
      case PairProductTenor => 0
      case PairProduct => 1
      case Pair => 2
      case Product => 3
      case Tenor => 4
    }

    /** Whether every component the kind is keyed on is present. */
    predicate Applies(pair: string, product: string, tenor: string) {
      match this
      case PairProductTenor => pair != "" && product != "" && tenor != ""
      case PairProduct => pair != "" && product != ""
      case Pair => pair != ""
      case Product => product != ""
      case Tenor => tenor != ""
    }
  }

  /** A feature bucket: its kind and the pair, product and tenor it is keyed on (None when unused). */
  datatype FeatureKey = FeatureKey(kind: FeatureKind, pair: Option<string>, product: Option<string>, tenor: Option<string>)

  /** The bucket of a kind: the components the kind uses, the others None. */
  function KeyOfKind(kind: FeatureKind, pair: string, product: string, tenor: string): FeatureKey {
    match kind
    case PairProductTenor => FeatureKey(kind, Some(pair), Some(product), Some(tenor))
    case PairProduct => FeatureKey(kind, Some(pair), Some(product), None)
    case Pair => FeatureKey(kind, Some(pair), None, None)
    case Product => FeatureKey(kind, None, Some(product), None)
    case Tenor => FeatureKey(kind, None, None, Some(tenor))
  }

  /** `_build_feature_keys`. */
  function BuildFeatureKeys(ccyPair: string, productType: string, tenorBucket: string): seq<FeatureKey> {
    var full := if ccyPair != "" && productType != "" && tenorBucket != ""
      then [FeatureKey(PairProductTenor, Some(ccyPair), Some(productType), Some(tenorBucket))] else [];
    var pairProduct := if ccyPair != "" && productType != ""
      then [FeatureKey(PairProduct, Some(ccyPair), Some(productType), None)] else [];
    var pair := if ccyPair != "" then [FeatureKey(Pair, Some(ccyPair), None, None)] else [];
    var product := if productType != "" then [FeatureKey(Product, None, Some(productType), None)] else [];
    var tenor := if tenorBucket != "" then [FeatureKey(Tenor, None, None, Some(tenorBucket))] else [];
    full + pairProduct + pair + product + tenor
  }

  /**
   * One bucket per kind whose components are all present, in production order, each
   * carrying exactly the components its kind uses and None for the others.
   */
  lemma FeatureKeysShape(ccyPair: string, productType: string, tenorBucket: string)
    ensures var keys := BuildFeatureKeys(ccyPair, productType, tenorBucket);
      && (forall i :: 0 <= i < |keys| ==>
            keys[i].kind.Applies(ccyPair, productType, tenorBucket)
            && keys[i] == KeyOfKind(keys[i].kind, ccyPair, productType, tenorBucket))
      && (forall i, j :: 0 <= i < j < |keys| ==> keys[i].kind.Rank() < keys[j].kind.Rank())
      && (forall k: FeatureKind :: k.Applies(ccyPair, productType, tenorBucket) ==>
            exists i :: 0 <= i < |keys| && keys[i].kind == k)
  {
    var p, d, t := ccyPair, productType, tenorBucket;
    var keys := BuildFeatureKeys(p, d, t);
    var full := KeyOfKind(PairProductTenor, p, d, t);
    var pd := KeyOfKind(PairProduct, p, d, t);
    var pp := KeyOfKind(Pair, p, d, t);
    var dd := KeyOfKind(Product, p, d, t);
    var tt := KeyOfKind(Tenor, p, d, t);
    if p != "" && d != "" && t != "" {
      assert keys == [full, pd, pp, dd, tt];
      assert keys[0].kind == PairProductTenor && keys[1].kind == PairProduct && keys[2].kind == Pair;
      assert keys[3].kind == Product && keys[4].kind == Tenor;
    } else if p != "" && d != "" {
      assert keys == [pd, pp, dd];
      assert keys[0].kind == PairProduct && keys[1].kind == Pair && keys[2].kind == Product;
    } else if p != "" && t != "" {
      assert keys == [pp, tt];
      assert keys[0].kind == Pair && keys[1].kind == Tenor;
    } else if p != "" {
      assert keys == [pp];
      assert keys[0].kind == Pair;
    } else if d != "" && t != "" {
      assert keys == [dd, tt];
      assert keys[0].kind == Product && keys[1].kind == Tenor;
    } else if d != "" {
      assert keys == [dd];
      assert keys[0].kind == Product;
    } else if t != "" {
      assert keys == [tt];
      assert keys[0].kind == Tenor;
    } else {
      assert keys == [];
    }
  }

  /** Different positions hold different buckets. */
  lemma FeatureKeysDistinct(ccyPair: string, productType: string, tenorBucket: string)
    ensures var keys := BuildFeatureKeys(ccyPair, productType, tenorBucket);
      forall i, j :: 0 <= i < j < |keys| ==> keys[i] != keys[j]
  {
    FeatureKeysShape(ccyPair, productType, tenorBucket);
  }

  // ---------------------------------------------------------------------------
  // Aggregates
  // ---------------------------------------------------------------------------

  /** `Agg`: the running totals of one bucket. */
  datatype Agg = Agg(tradeCount: nat, hitNotionalSumM: real, lastTradeDate: string,
                     score30d: real, score90d: real, score365d: real, recencyScore: real)

  /** `Agg()`. */
  const EmptyAgg: Agg := Agg(0, 0.0, "", 0.0, 0.0, 0.0, 0.0)

  /** What one valid row adds to a bucket: its notional, its ISO date and its age in days. */
  datatype Trade = Trade(notionalM: real, isoDate: string, daysOld: int)

  /** The later of the stored last trade date and a new one; an empty stored date always yields. */
  function LaterDate(last: string, iso: string): string {
    if last == "" || StrLt(last, iso) then iso else last
  }

  /** The update one trade makes to a bucket. */
  function Bump(a: Agg, t: Trade, exp: real -> real): Agg {
    Agg(a.tradeCount + 1,
        a.hitNotionalSumM + t.notionalM,
        LaterDate(a.lastTradeDate, t.isoDate),
        a.score30d + Decay(t.daysOld, 30.0, exp),
        a.score90d + Decay(t.daysOld, 90.0, exp),
        a.score365d + Decay(t.daysOld, 365.0, exp),
        a.recencyScore + Decay(t.daysOld, 180.0, exp))
  }

  /** A bucket after a run of trades, starting empty. */
  function AggOf(trades: seq<Trade>, exp: real -> real): Agg
    decreases |trades|
  {
    if trades == [] then EmptyAgg
    else Bump(AggOf(trades[..|trades| - 1], exp), trades[|trades| - 1], exp)
  }

  function NotionalSum(trades: seq<Trade>): real
    decreases |trades|
  {
    if trades == [] then 0.0 else NotionalSum(trades[..|trades| - 1]) + trades[|trades| - 1].notionalM
  }

  /** A bucket counts its trades, sums their notionals, and has a recency score between 0 and its count. */
  lemma {:induction false} AggOfTotals(trades: seq<Trade>, exp: real -> real)
    requires Profiles.ExpBounded(exp)
    ensures var a := AggOf(trades, exp);
      && a.tradeCount == |trades|
      && a.hitNotionalSumM == NotionalSum(trades)
      && 0.0 <= a.recencyScore <= |trades| as real
      && (trades != [] ==> a.recencyScore > 0.0)
    decreases |trades|
  {
    if trades != [] {
      AggOfTotals(trades[..|trades| - 1], exp);
      DecayBounds(trades[|trades| - 1].daysOld, 180.0, exp);
    }
  }

  /** A bucket's last trade date is the greatest ISO date among its trades, and "" only when it has none. */
  lemma AggOfLastDate(trades: seq<Trade>, exp: real -> real)
    requires forall i :: 0 <= i < |trades| ==> trades[i].isoDate != ""
    ensures var last := AggOf(trades, exp).lastTradeDate;
      && (last == "" <==> trades == [])
      && (forall i :: 0 <= i < |trades| ==> StrLe(trades[i].isoDate, last))
      && (trades != [] ==> exists i :: 0 <= i < |trades| && last == trades[i].isoDate)
  {
    AggOfLastDateIs(trades, exp);
    LastDateBounds(trades);
  }

  /** The later of the trades' dates, folded in order as the bucket folds them. */
  function LastDate(trades: seq<Trade>): string {
    if trades == [] then "" else LaterDate(LastDate(trades[..|trades| - 1]), trades[|trades| - 1].isoDate)
  }

  lemma {:induction false} AggOfLastDateIs(trades: seq<Trade>, exp: real -> real)
    ensures AggOf(trades, exp).lastTradeDate == LastDate(trades)
    decreases |trades|
  {
    if trades != [] {
      AggOfLastDateIs(trades[..|trades| - 1], exp);
    }
  }

  lemma {:induction false} LastDateBounds(trades: seq<Trade>)
    requires forall i :: 0 <= i < |trades| ==> trades[i].isoDate != ""
    ensures var last := LastDate(trades);
      && (last == "" <==> trades == [])
      && (forall i :: 0 <= i < |trades| ==> StrLe(trades[i].isoDate, last))
      && (trades != [] ==> exists i :: 0 <= i < |trades| && last == trades[i].isoDate)
    decreases |trades|
  {
    if trades != [] {
      var init := trades[..|trades| - 1];
      var t := trades[|trades| - 1];
      assert forall i :: 0 <= i < |init| ==> init[i] == trades[i];
      LastDateBounds(init);
      var last := LastDate(init);
      StrLeReflexive(t.isoDate);
      if last == "" || StrLt(last, t.isoDate) {
        forall i | 0 <= i < |trades| ensures StrLe(trades[i].isoDate, t.isoDate) {
          if i < |init| { StrLeTransitive(trades[i].isoDate, last, t.isoDate); }
        }
      } else {
        StrLeTotal(last, t.isoDate);
        var i :| 0 <= i < |init| && last == init[i].isoDate;
        assert trades[i].isoDate == last;
      }
    }
  }

  // ---------------------------------------------------------------------------
  // Insertion-ordered dictionaries
  // ---------------------------------------------------------------------------

  /** A Python dict: its keys in insertion order and the values they map to. */
  datatype Ordered<K, V> = Ordered(keys: seq<K>, values: map<K, V>)

  /** The keys are distinct and are exactly the keys of the map. */
  ghost predicate OrderedValid<K(!new), V>(o: Ordered<K, V>) {
    && (forall i, j :: 0 <= i < j < |o.keys| ==> o.keys[i] != o.keys[j])
    && (forall k :: k in o.values <==> k in o.keys)
  }

  /** `d[k] = v`: a new key goes to the end; an existing one keeps its place. */
  function Put<K(!new), V>(o: Ordered<K, V>, k: K, v: V): (r: Ordered<K, V>)
    ensures r.values == o.values[k := v]
    ensures o.keys <= r.keys
    ensures k !in o.values ==> r.keys == o.keys + [k]
  {
    Ordered(if k in o.values then o.keys else o.keys + [k], o.values[k := v])
  }

  /** Setting a key keeps the keys distinct and in step with the map. */
  lemma PutValid<K(!new), V>(o: Ordered<K, V>, k: K, v: V)
    requires OrderedValid(o)
    ensures OrderedValid(Put(o, k, v))
  {
  }

  // ---------------------------------------------------------------------------
  // Buckets of one run
  // ---------------------------------------------------------------------------

  /** The two kinds of entity a bucket belongs to, stored as "CLIENT" and "PM". */
  datatype EntityType = Client | Pm

  /** The key of `aggs`: entity, region, country and feature. */
  datatype AggKey = AggKey(entityType: EntityType, entityId: int, region: string, country: string, feature: FeatureKey)

  type Aggs = Ordered<AggKey, Agg>

  /** `aggs.get(key)`, with a missing bucket read as `Agg()`. */
  function Prior(aggs: Aggs, k: AggKey): Agg {
    if k in aggs.values then aggs.values[k] else EmptyAgg
  }

  /** The keys one entity's trade lands on. */
  function EntityKeys(entityType: EntityType, entityId: int, region: string, country: string,
                      features: seq<FeatureKey>): (r: seq<AggKey>)
    ensures |r| == |features|
    ensures forall i :: 0 <= i < |r| ==> r[i].entityType == entityType && r[i].entityId == entityId
  {
    seq(|features|, i requires 0 <= i < |features| => AggKey(entityType, entityId, region, country, features[i]))
  }

  /** The buckets after one trade has been added to each of `keys`, in order. */
  function BumpAll(aggs: Aggs, keys: seq<AggKey>, t: Trade, exp: real -> real): Aggs
    decreases |keys|
  {
    if keys == [] then aggs
    else
      var k := keys[|keys| - 1];
      var before := BumpAll(aggs, keys[..|keys| - 1], t, exp);
      Put(before, k, Bump(Prior(before, k), t, exp))
  }

  /**
   * Adding a trade to distinct buckets bumps each of them once, creates the ones that were
   * missing, and leaves every other bucket as it was.
   */
  lemma {:induction false} BumpAllAt(aggs: Aggs, keys: seq<AggKey>, t: Trade, exp: real -> real, k: AggKey)
    requires forall i, j :: 0 <= i < j < |keys| ==> keys[i] != keys[j]
    ensures var r := BumpAll(aggs, keys, t, exp);
      && (k in r.values <==> k in aggs.values || k in keys)
      && (k in keys ==> r.values[k] == Bump(Prior(aggs, k), t, exp))
      && (k !in keys ==> Prior(r, k) == Prior(aggs, k))
    decreases |keys|
  {
    if keys != [] {
      var init := keys[..|keys| - 1];
      BumpAllAt(aggs, init, t, exp, k);
      if k == keys[|keys| - 1] {
        assert k !in init;
      } else {
        assert k in keys <==> k in init;
      }
    }
  }

  /** Existing buckets keep their place; new ones are appended; the order stays duplicate-free. */
  lemma {:induction false} BumpAllOrder(aggs: Aggs, keys: seq<AggKey>, t: Trade, exp: real -> real)
    ensures aggs.keys <= BumpAll(aggs, keys, t, exp).keys
    ensures OrderedValid(aggs) ==> OrderedValid(BumpAll(aggs, keys, t, exp))
    decreases |keys|
  {
    if keys != [] {
      var init := keys[..|keys| - 1];
      BumpAllOrder(aggs, init, t, exp);
      var before := BumpAll(aggs, init, t, exp);
      var k := keys[|keys| - 1];
      if OrderedValid(aggs) {
        PutValid(before, k, Bump(Prior(before, k), t, exp));
      }
    }
  }

  /** The buckets after adding a trade, one key at a time. */
  method BumpBuckets(aggs: Aggs, keys: seq<AggKey>, t: Trade, exp: real -> real) returns (r: Aggs)
    ensures r == BumpAll(aggs, keys, t, exp)
  {
    r := aggs;
    var i := 0;
    while i < |keys|
      invariant 0 <= i <= |keys|
      invariant r == BumpAll(aggs, keys[..i], t, exp)
    {
      var k := keys[i];
      var agg := if k in r.values then r.values[k] else EmptyAgg;
      r := Put(r, k, Bump(agg, t, exp));
      assert keys[..i + 1][..i] == keys[..i];
      i := i + 1;
    }
    assert keys[..|keys|] == keys;
  }

  /**
   * Two bucket loops over disjoint key lists, each without repeats: every key in either list
   * gets the trade once, every other key is left as it was.
   */
  lemma BumpBothAt(aggs: Aggs, first: seq<AggKey>, second: seq<AggKey>, t: Trade, exp: real -> real, k: AggKey)
    requires forall i, j :: 0 <= i < j < |first| ==> first[i] != first[j]
    requires forall i, j :: 0 <= i < j < |second| ==> second[i] != second[j]
    requires forall i, j :: 0 <= i < |first| && 0 <= j < |second| ==> first[i] != second[j]
    ensures var r := BumpAll(BumpAll(aggs, first, t, exp), second, t, exp);
      && (k in r.values <==> k in aggs.values || k in first + second)
      && Prior(r, k) == if k in first + second then Bump(Prior(aggs, k), t, exp) else Prior(aggs, k)
  {
    var mid := BumpAll(aggs, first, t, exp);
    BumpAllAt(aggs, first, t, exp, k);
    BumpAllAt(mid, second, t, exp, k);
    assert k in first + second <==> k in first || k in second;
  }

  /** A row's buckets for one entity are distinct. */
  lemma EntityKeysDistinct(entityType: EntityType, entityId: int, region: string, country: string,
                           ccyPair: string, productType: string, tenorBucket: string)
    ensures var keys := EntityKeys(entityType, entityId, region, country, BuildFeatureKeys(ccyPair, productType, tenorBucket));
      forall i, j :: 0 <= i < j < |keys| ==> keys[i] != keys[j]
  {
    FeatureKeysShape(ccyPair, productType, tenorBucket);
  }

  // ---------------------------------------------------------------------------
  // One row of the loop
  // ---------------------------------------------------------------------------

  /** The fields of an RFQ row after the getter and the normalisers. */
  datatype RfqRow = RfqRow(clientName: string, ccyPair: string, region: string, country: string,
                           productType: string, tenorBucket: string, sector: string, pmName: string,
                           tradeDate: Option<Calendar.Date>, notionalM: real)

  /** The fields the loop reads from a row. */
  function ParseRow(row: CsvRow, regions: seq<string>): (r: RfqRow)
    ensures r.tradeDate.Some? ==> Calendar.Valid(r.tradeDate.value)
  {
    var get := RowGetter(row);
    RfqRow(GetField(get, ["aspen_l2_client_name"]),
           Rfq.NormalizeCcyPair(GetField(get, ["CcyPair"])),
           Rfq.NormalizeRegion(GetField(get, ["Client Region"]), regions),
           Rfq.NormalizeCountry(GetField(get, ["clientregion"])),
           Rfq.NormalizeProductType(GetField(get, ["productType"])),
           Rfq.NormalizeTenorBucket(GetField(get, ["tenor_bucket"])),
           GetField(get, ["Client Sector"]),
           GetField(get, ["portfolioManager", "Portfolio Manager", "portfolio manager", "PM"]),
           Rfq.ParseTradeDate(GetField(get, ["date"])),
           Rfq.ParseHitNotionalM(GetField(get, ["Hit Notional"])))
  }

  /** The skip rule: a row without client, pair, product, region or readable date is not aggregated. */
  predicate Skipped(r: RfqRow) {
    r.clientName == "" || r.ccyPair == "" || r.productType == "" || r.region == "" || r.tradeDate.None?
  }

  /**
   * What the loader takes from the repository and the clock: today's date, `math.exp`,
   * `REGIONS`, `CLIENT_TYPES`, the client and PM lookups as they stand when the run starts,
   * and the ids the repository hands out next.
   */
  datatype RfqEnv = RfqEnv(today: Calendar.Date, exp: real -> real, regions: seq<string>, clientTypes: seq<string>,
                           existingClient: string -> Option<int>, existingPm: (int, string) -> Option<int>,
                           firstClientId: int, firstPmId: int)

  predicate EnvValid(env: RfqEnv) {
    Calendar.Valid(env.today) && |env.clientTypes| > 0
  }

  /**
   * A client the run creates: its id, its name and the sector of the row that created it,
   * from which its client type is inferred.
   */
  datatype NewClient = NewClient(clientId: int, clientName: string, sector: string)

  /** The client type a created client is stored with. */
  function NewClientType(c: NewClient, clientTypes: seq<string>): string
    requires |clientTypes| > 0
  {
    Rfq.InferClientTypeFromSector(c.sector, clientTypes)
  }

  /** The counters and caches of one run. */
  datatype RfqRun = RfqRun(
    rowsRead: nat, rowsValid: nat, rowsSkipped: nat, clientsCreated: nat, pmsCreated: nat,
    nextClientId: int, nextPmId: int,
    clientIds: Ordered<string, int>,
    pmIds: map<(int, string), int>,
    pmNames: Ordered<int, string>,
    newClients: seq<NewClient>,
    aggs: Aggs)

  /** Nothing counted or cached yet. */
  function Start(env: RfqEnv): RfqRun {
    RfqRun(0, 0, 0, 0, 0, env.firstClientId, env.firstPmId,
           Ordered([], map[]), map[], Ordered([], map[]), [], Ordered([], map[]))
  }

  /** An entity id and the run after resolving it. */
  datatype Resolved = Resolved(id: int, run: RfqRun)

  /** The client of a name: the run's cache, else the repository (and the cache), else a new client. */
  function ResolveClient(run: RfqRun, name: string, sector: string, env: RfqEnv): Resolved
  {
    if name in run.clientIds.values then Resolved(run.clientIds.values[name], run)
    else match env.existingClient(name)
      case Some(id) => Resolved(id, run.(clientIds := Put(run.clientIds, name, id)))
      case None =>
        var id := run.nextClientId;
        var created := NewClient(id, name, sector);
        Resolved(id, run.(nextClientId := id + 1, clientsCreated := run.clientsCreated + 1,
                          clientIds := Put(run.clientIds, name, id), newClients := run.newClients + [created]))
  }

  /** The PM of a name under a client: the run's cache by lower-cased name, else the repository, else a new PM. */
  function ResolvePm(run: RfqRun, clientId: int, pmName: string, env: RfqEnv): Resolved {
    var key := (clientId, Lower(pmName));
    if key in run.pmIds then Resolved(run.pmIds[key], run)
    else match env.existingPm(clientId, pmName)
      case Some(id) => Resolved(id, run.(pmIds := run.pmIds[key := id], pmNames := Put(run.pmNames, id, pmName)))
      case None =>
        var id := run.nextPmId;
        Resolved(id, run.(nextPmId := id + 1, pmsCreated := run.pmsCreated + 1,
                          pmIds := run.pmIds[key := id], pmNames := Put(run.pmNames, id, pmName)))
  }

  /** What a valid row adds to each of its buckets. */
  function TradeOf(r: RfqRow, today: Calendar.Date): Trade
    requires r.tradeDate.Some? && Calendar.Valid(r.tradeDate.value) && Calendar.Valid(today)
  {
    var d := r.tradeDate.value;
    Trade(r.notionalM, Calendar.IsoFormat(d), Calendar.DaysOld(today, d))
  }

  /** The row counted as valid and its client resolved. */
  function Counted(run: RfqRun, r: RfqRow, env: RfqEnv): Resolved
  {
    ResolveClient(run.(rowsRead := run.rowsRead + 1, rowsValid := run.rowsValid + 1), r.clientName, r.sector, env)
  }

  /** The buckets of a valid row's client. */
  function ClientKeys(r: RfqRow, clientId: int): seq<AggKey> {
    EntityKeys(Client, clientId, r.region, r.country, BuildFeatureKeys(r.ccyPair, r.productType, r.tenorBucket))
  }

  /** The buckets of a valid row's PM. */
  function PmKeys(r: RfqRow, pmId: int): seq<AggKey> {
    EntityKeys(Pm, pmId, r.region, r.country, BuildFeatureKeys(r.ccyPair, r.productType, r.tenorBucket))
  }

  /** A row's dates are real calendar dates. */
  predicate DateValid(r: RfqRow) {
    r.tradeDate.Some? ==> Calendar.Valid(r.tradeDate.value)
  }

  /** One row of the loop, once its fields are read. */
  function Step(run: RfqRun, r: RfqRow, env: RfqEnv): RfqRun
    requires EnvValid(env) && DateValid(r)
  {
    if Skipped(r) then run.(rowsRead := run.rowsRead + 1, rowsSkipped := run.rowsSkipped + 1)
    else PmStep(ClientStep(run, r, env), r, env)
  }

  /** A valid row is counted, its client resolved and the client's buckets given the trade. */
  function ClientStep(run: RfqRun, r: RfqRow, env: RfqEnv): Resolved
    requires EnvValid(env) && DateValid(r) && !Skipped(r)
  {
    var c := Counted(run, r, env);
    Resolved(c.id, c.run.(aggs := BumpAll(c.run.aggs, ClientKeys(r, c.id), TradeOf(r, env.today), env.exp)))
  }

  /** Then, when the row names a PM, the PM is resolved under the client and its buckets given the trade. */
  function PmStep(client: Resolved, r: RfqRow, env: RfqEnv): RfqRun
    requires EnvValid(env) && DateValid(r) && !Skipped(r)
  {
    if r.pmName == "" then client.run
    else
      var p := ResolvePm(client.run, client.id, r.pmName, env);
      p.run.(aggs := BumpAll(p.run.aggs, PmKeys(r, p.id), TradeOf(r, env.today), env.exp))
  }

  predicate DatesValid(rows: seq<RfqRow>) {
    forall i :: 0 <= i < |rows| ==> DateValid(rows[i])
  }

  /** Reading the fields of one row, for the regions the run recognises. */
  function RowParser(regions: seq<string>): CsvRow -> RfqRow {
    row => ParseRow(row, regions)
  }

  /** The fields of every row of the file, in file order. */
  function ParseRows(rows: seq<CsvRow>, regions: seq<string>): (r: seq<RfqRow>)
    ensures |r| == |rows| && DatesValid(r)
  {
    Seqs.Map(rows, RowParser(regions))
  }

  /** The run after a sequence of rows. */
  function Ingested(run: RfqRun, rows: seq<RfqRow>, env: RfqEnv): RfqRun
    requires EnvValid(env) && DatesValid(rows)
    decreases |rows|
  {
    if rows == [] then run else Step(Ingested(run, rows[..|rows| - 1], env), rows[|rows| - 1], env)
  }

  /** One row of the loop once its fields are read, with the bucket loops spelled out. */
  method IngestRow(run: RfqRun, r: RfqRow, env: RfqEnv) returns (next: RfqRun)
    requires EnvValid(env) && DateValid(r)
    ensures next == Step(run, r, env)
  {
    if Skipped(r) {
      return run.(rowsRead := run.rowsRead + 1, rowsSkipped := run.rowsSkipped + 1);
    }
    var client := Counted(run, r, env);
    var t := TradeOf(r, env.today);
    var aggs := BumpBuckets(client.run.aggs, ClientKeys(r, client.id), t, env.exp);
    next := client.run.(aggs := aggs);
    assert Resolved(client.id, next) == ClientStep(run, r, env);
    if r.pmName != "" {
      var pm := ResolvePm(next, client.id, r.pmName, env);
      aggs := BumpBuckets(pm.run.aggs, PmKeys(r, pm.id), t, env.exp);
      next := pm.run.(aggs := aggs);
    }
  }

  // ---------------------------------------------------------------------------
  // What a run keeps true
  // ---------------------------------------------------------------------------

  /**
   * The counters and caches agree: each row read is valid or skipped, created clients and
   * PMs take consecutive ids from the first ones handed out, each created client stays
   * cached under its own name, and the ordered dictionaries are well formed.
   */
  ghost predicate Consistent(run: RfqRun, env: RfqEnv) {
    && run.rowsRead == run.rowsValid + run.rowsSkipped
    && run.clientsCreated == |run.newClients|
    && run.nextClientId == env.firstClientId + run.clientsCreated
    && run.nextPmId == env.firstPmId + run.pmsCreated
    && (forall i :: 0 <= i < |run.newClients| ==>
          && run.newClients[i].clientId == env.firstClientId + i
          && run.newClients[i].clientName in run.clientIds.values
          && run.clientIds.values[run.newClients[i].clientName] == env.firstClientId + i)
    && OrderedValid(run.clientIds) && OrderedValid(run.pmNames) && OrderedValid(run.aggs)
  }

  /** A resolved client is cached under its name, and the run stays consistent. */
  lemma ResolveClientConsistent(run: RfqRun, name: string, sector: string, env: RfqEnv)
    requires Consistent(run, env)
    ensures var c := ResolveClient(run, name, sector, env);
      && Consistent(c.run, env)
      && name in c.run.clientIds.values && c.run.clientIds.values[name] == c.id
  {
    var c := ResolveClient(run, name, sector, env);
    if name !in run.clientIds.values {
      PutValid(run.clientIds, name, c.id);
      if env.existingClient(name).None? {
        var created := c.run.newClients;
        assert created == run.newClients + [created[|created| - 1]];
        forall i | 0 <= i < |created|
          ensures created[i].clientName in c.run.clientIds.values
          ensures c.run.clientIds.values[created[i].clientName] == env.firstClientId + i
        {
          if i < |run.newClients| {
            assert created[i] == run.newClients[i];
          }
        }
      }
    }
  }

  /** A name already resolved resolves to the same client and changes nothing: one client per name and run. */
  lemma ResolveClientCached(run: RfqRun, name: string, sector: string, sector': string, env: RfqEnv)
    ensures var c := ResolveClient(run, name, sector, env);
      ResolveClient(c.run, name, sector', env) == Resolved(c.id, c.run)
  {
  }

  /** A resolved PM is cached under its client and lower-cased name, and the run stays consistent. */
  lemma ResolvePmConsistent(run: RfqRun, clientId: int, pmName: string, env: RfqEnv)
    requires Consistent(run, env)
    ensures var p := ResolvePm(run, clientId, pmName, env);
      && Consistent(p.run, env)
      && p.run.pmIds[(clientId, Lower(pmName))] == p.id
  {
    var key := (clientId, Lower(pmName));
    var p := ResolvePm(run, clientId, pmName, env);
    if key !in run.pmIds {
      PutValid(run.pmNames, p.id, pmName);
    }
  }

  /** Spellings of a PM name that differ only in case resolve to the same PM and change nothing. */
  lemma ResolvePmCached(run: RfqRun, clientId: int, pmName: string, pmName': string, env: RfqEnv)
    requires Lower(pmName) == Lower(pmName')
    ensures var p := ResolvePm(run, clientId, pmName, env);
      ResolvePm(p.run, clientId, pmName', env) == Resolved(p.id, p.run)
  {
  }

  /** The client half of a valid row keeps the run consistent and counts the row as read and valid. */
  lemma ClientStepConsistent(run: RfqRun, r: RfqRow, env: RfqEnv)
    requires EnvValid(env) && DateValid(r) && !Skipped(r) && Consistent(run, env)
    ensures var after := ClientStep(run, r, env).run;
      && Consistent(after, env)
      && after.rowsRead == run.rowsRead + 1 && after.rowsValid == run.rowsValid + 1
      && after.rowsSkipped == run.rowsSkipped
  {
    CountedConsistent(run, r, env);
    var c := Counted(run, r, env);
    var aggs := BumpAll(c.run.aggs, ClientKeys(r, c.id), TradeOf(r, env.today), env.exp);
    BumpAllOrder(c.run.aggs, ClientKeys(r, c.id), TradeOf(r, env.today), env.exp);
    WithAggsConsistent(c.run, aggs, env);
  }

  /** Counting a valid row and resolving its client keeps the run consistent. */
  lemma CountedConsistent(run: RfqRun, r: RfqRow, env: RfqEnv)
    requires Consistent(run, env)
    ensures var after := Counted(run, r, env).run;
      && Consistent(after, env)
      && after.rowsRead == run.rowsRead + 1 && after.rowsValid == run.rowsValid + 1
      && after.rowsSkipped == run.rowsSkipped
  {
    var counted := run.(rowsRead := run.rowsRead + 1, rowsValid := run.rowsValid + 1);
    assert Consistent(counted, env);
    ResolveClientConsistent(counted, r.clientName, r.sector, env);
    var c := ResolveClient(counted, r.clientName, r.sector, env);
    assert c.run.rowsRead == counted.rowsRead && c.run.rowsValid == counted.rowsValid
      && c.run.rowsSkipped == counted.rowsSkipped;
  }

  /** Replacing the buckets with well-formed ones keeps the run consistent. */
  lemma WithAggsConsistent(run: RfqRun, aggs: Aggs, env: RfqEnv)
    requires Consistent(run, env) && OrderedValid(aggs)
    ensures Consistent(run.(aggs := aggs), env)
  {
  }

  /** The PM half of a valid row keeps the run consistent and leaves the row counters alone. */
  lemma PmStepConsistent(client: Resolved, r: RfqRow, env: RfqEnv)
    requires EnvValid(env) && DateValid(r) && !Skipped(r) && Consistent(client.run, env)
    ensures var after := PmStep(client, r, env);
      && Consistent(after, env)
      && after.rowsRead == client.run.rowsRead && after.rowsValid == client.run.rowsValid
      && after.rowsSkipped == client.run.rowsSkipped
  {
    if r.pmName != "" {
      ResolvePmConsistent(client.run, client.id, r.pmName, env);
      var p := ResolvePm(client.run, client.id, r.pmName, env);
      BumpAllOrder(p.run.aggs, PmKeys(r, p.id), TradeOf(r, env.today), env.exp);
      WithAggsConsistent(p.run, BumpAll(p.run.aggs, PmKeys(r, p.id), TradeOf(r, env.today), env.exp), env);
    }
  }

  /** One row keeps the run consistent, adds one to the rows read, and one to the valid or to the skipped rows. */
  lemma StepConsistent(run: RfqRun, r: RfqRow, env: RfqEnv)
    requires EnvValid(env) && DateValid(r) && Consistent(run, env)
    ensures var after := Step(run, r, env);
      && Consistent(after, env)
      && after.rowsRead == run.rowsRead + 1
      && after.rowsValid == run.rowsValid + (if Skipped(r) then 0 else 1)
      && after.rowsSkipped == run.rowsSkipped + (if Skipped(r) then 1 else 0)
  {
    if !Skipped(r) {
      ClientStepConsistent(run, r, env);
      PmStepConsistent(ClientStep(run, r, env), r, env);
    }
  }

  /** Rows whose fields pass the skip rule. */
  function ValidRows(rows: seq<RfqRow>): (n: nat)
    ensures n <= |rows|
    decreases |rows|
  {
    if rows == [] then 0
    else ValidRows(rows[..|rows| - 1]) + (if Skipped(rows[|rows| - 1]) then 0 else 1)
  }

  /**
   * A sequence of rows keeps the run consistent, and the counters tell its rows apart: every
   * row is read, and it is valid or skipped by the skip rule.
   */
  lemma {:induction false} IngestedConsistent(run: RfqRun, rows: seq<RfqRow>, env: RfqEnv)
    requires EnvValid(env) && DatesValid(rows) && Consistent(run, env)
    ensures var after := Ingested(run, rows, env);
      && Consistent(after, env)
      && after.rowsRead == run.rowsRead + |rows|
      && after.rowsValid == run.rowsValid + ValidRows(rows)
      && after.rowsSkipped == run.rowsSkipped + (|rows| - ValidRows(rows))
    decreases |rows|
  {
    if rows != [] {
      var init := rows[..|rows| - 1];
      IngestedConsistent(run, init, env);
      StepConsistent(Ingested(run, init, env), rows[|rows| - 1], env);
    }
  }

  /** The buckets a row adds its trade to: its client's, then its PM's when it names one. */
  function Touched(run: RfqRun, r: RfqRow, env: RfqEnv): (keys: seq<AggKey>)
    ensures Skipped(r) ==> keys == []
  {
    if Skipped(r) then []
    else
      var c := Counted(run, r, env);
      ClientKeys(r, c.id) + (if r.pmName == "" then [] else PmKeys(r, ResolvePm(c.run, c.id, r.pmName, env).id))
  }

  /** A row's buckets are distinct: the client's and the PM's differ in entity type. */
  lemma TouchedDistinct(run: RfqRun, r: RfqRow, env: RfqEnv)
    ensures var keys := Touched(run, r, env);
      forall i, j :: 0 <= i < j < |keys| ==> keys[i] != keys[j]
  {
    if !Skipped(r) {
      var c := Counted(run, r, env);
      EntityKeysDistinct(Client, c.id, r.region, r.country, r.ccyPair, r.productType, r.tenorBucket);
      if r.pmName != "" {
        var p := ResolvePm(c.run, c.id, r.pmName, env);
        EntityKeysDistinct(Pm, p.id, r.region, r.country, r.ccyPair, r.productType, r.tenorBucket);
      }
    }
  }

  /** One row adds its trade once to each bucket it touches and leaves every other bucket as it was. */
  lemma StepAt(run: RfqRun, r: RfqRow, env: RfqEnv, k: AggKey)
    requires EnvValid(env) && DateValid(r)
    ensures var after := Step(run, r, env);
      && (k in after.aggs.values <==> k in run.aggs.values || k in Touched(run, r, env))
      && Prior(after.aggs, k) == if k in Touched(run, r, env) then Bump(Prior(run.aggs, k), TradeOf(r, env.today), env.exp)
                                  else Prior(run.aggs, k)
  {
    if !Skipped(r) {
      var c := Counted(run, r, env);
      var t := TradeOf(r, env.today);
      var clientKeys := ClientKeys(r, c.id);
      EntityKeysDistinct(Client, c.id, r.region, r.country, r.ccyPair, r.productType, r.tenorBucket);
      assert c.run.aggs == run.aggs;
      var afterClient := c.run.(aggs := BumpAll(c.run.aggs, clientKeys, t, env.exp));
      if r.pmName == "" {
        BumpAllAt(run.aggs, clientKeys, t, env.exp, k);
      } else {
        var p := ResolvePm(afterClient, c.id, r.pmName, env);
        assert p.id == ResolvePm(c.run, c.id, r.pmName, env).id;
        assert p.run.aggs == afterClient.aggs;
        var pmKeys := PmKeys(r, p.id);
        EntityKeysDistinct(Pm, p.id, r.region, r.country, r.ccyPair, r.productType, r.tenorBucket);
        forall i, j | 0 <= i < |clientKeys| && 0 <= j < |pmKeys| ensures clientKeys[i] != pmKeys[j] {
          assert clientKeys[i].entityType == Client && pmKeys[j].entityType == Pm;
        }
        BumpBothAt(run.aggs, clientKeys, pmKeys, t, env.exp, k);
      }
    }
  }

  /** The trade one row adds to one bucket, if it touches it. */
  function TradeAt(run: RfqRun, r: RfqRow, env: RfqEnv, k: AggKey): (trades: seq<Trade>)
    requires EnvValid(env) && DateValid(r)
    ensures |trades| <= 1
    ensures forall i :: 0 <= i < |trades| ==> |trades[i].isoDate| == 10
  {
    if k in Touched(run, r, env) then [TradeOf(r, env.today)] else []
  }

  /** The trades a sequence of rows adds to one bucket, in row order. */
  function TradesAt(run: RfqRun, rows: seq<RfqRow>, env: RfqEnv, k: AggKey): (trades: seq<Trade>)
    requires EnvValid(env) && DatesValid(rows)
    ensures forall i :: 0 <= i < |trades| ==> |trades[i].isoDate| == 10
    decreases |rows|
  {
    if rows == [] then []
    else
      var init := rows[..|rows| - 1];
      var r := rows[|rows| - 1];
      TradesAt(run, init, env, k) + TradeAt(Ingested(run, init, env), r, env, k)
  }

  /**
   * Starting from a bucket the run has not seen, the bucket after a sequence of rows is
   * exactly the aggregate of the trades those rows add to it, and it exists once one has.
   */
  lemma {:induction false} IngestedAt(run: RfqRun, rows: seq<RfqRow>, env: RfqEnv, k: AggKey)
    requires EnvValid(env) && DatesValid(rows) && k !in run.aggs.values
    ensures var after := Ingested(run, rows, env);
      && Prior(after.aggs, k) == AggOf(TradesAt(run, rows, env, k), env.exp)
      && (k in after.aggs.values <==> TradesAt(run, rows, env, k) != [])
    decreases |rows|
  {
    if rows != [] {
      var init := rows[..|rows| - 1];
      var before := Ingested(run, init, env);
      var r := rows[|rows| - 1];
      IngestedAt(run, init, env, k);
      StepAt(before, r, env, k);
      var ts := TradesAt(run, init, env, k);
      if k in Touched(before, r, env) {
        var t := TradeOf(r, env.today);
        assert TradesAt(run, rows, env, k) == ts + [t];
        assert (ts + [t])[..|ts|] == ts;
      } else {
        assert TradesAt(run, rows, env, k) == ts;
      }
    }
  }

  // ---------------------------------------------------------------------------
  // Profile buckets and profile texts
  // ---------------------------------------------------------------------------

  /** One bucket as a profile text reads it: its feature and its aggregate. */
  datatype Bucket = Bucket(feature: FeatureKey, agg: Agg)

  function Lookup<O>(m: map<O, seq<Bucket>>, o: O): seq<Bucket> {
    if o in m then m[o] else []
  }

  /**
   * `profile_buckets`: each bucket, in the order of the run's dictionary, appended to the
   * list of its owner, for an owner function `owner` on bucket keys.
   */
  function FileBuckets<O>(keys: seq<AggKey>, values: map<AggKey, Agg>, owner: AggKey -> O): map<O, seq<Bucket>>
    requires forall i :: 0 <= i < |keys| ==> keys[i] in values
    decreases |keys|
  {
    if keys == [] then map[]
    else
      var k := keys[|keys| - 1];
      var m := FileBuckets(keys[..|keys| - 1], values, owner);
      m[owner(k) := Lookup(m, owner(k)) + [Bucket(k.feature, values[k])]]
  }

  /** The buckets of the keys an owner owns, in key order: the reference for `FileBuckets`. */
  function Owned<O(==)>(keys: seq<AggKey>, values: map<AggKey, Agg>, owner: AggKey -> O, o: O): (r: seq<Bucket>)
    requires forall i :: 0 <= i < |keys| ==> keys[i] in values
    ensures |r| <= |keys|
    decreases |keys|
  {
    if keys == [] then []
    else
      var k := keys[|keys| - 1];
      Owned(keys[..|keys| - 1], values, owner, o) + (if owner(k) == o then [Bucket(k.feature, values[k])] else [])
  }

  /** Filing the buckets one by one leaves each owner with exactly the buckets it owns, in key order. */
  lemma {:induction false} FileBucketsOwned<O>(keys: seq<AggKey>, values: map<AggKey, Agg>, owner: AggKey -> O, o: O)
    requires forall i :: 0 <= i < |keys| ==> keys[i] in values
    ensures Lookup(FileBuckets(keys, values, owner), o) == Owned(keys, values, owner, o)
    decreases |keys|
  {
    if keys != [] {
      FileBucketsOwned(keys[..|keys| - 1], values, owner, o);
    }
  }

  /** An owner's buckets are those of the keys it owns: one per key, with the key's feature and aggregate. */
  lemma {:induction false} OwnedMembers<O>(keys: seq<AggKey>, values: map<AggKey, Agg>, owner: AggKey -> O, o: O, b: Bucket)
    requires forall i :: 0 <= i < |keys| ==> keys[i] in values
    ensures b in Owned(keys, values, owner, o) <==>
            exists i :: 0 <= i < |keys| && owner(keys[i]) == o && b == Bucket(keys[i].feature, values[keys[i]])
    decreases |keys|
  {
    if keys != [] {
      var init := keys[..|keys| - 1];
      OwnedMembers(init, values, owner, o, b);
      if b in Owned(init, values, owner, o) {
        var i :| 0 <= i < |init| && owner(init[i]) == o && b == Bucket(init[i].feature, values[init[i]]);
        assert keys[i] == init[i];
      }
      if exists i :: 0 <= i < |keys| && owner(keys[i]) == o && b == Bucket(keys[i].feature, values[keys[i]]) {
        var i :| 0 <= i < |keys| && owner(keys[i]) == o && b == Bucket(keys[i].feature, values[keys[i]]);
        if i < |init| {
          assert init[i] == keys[i];
        }
      }
    }
  }

  /** The owner `profile_buckets` files a bucket under: its bare entity id. */
  function IdOwner(k: AggKey): int { k.entityId }

  /** The owner a bucket evidently belongs to: its entity type and id. */
  function EntityOwner(k: AggKey): (EntityType, int) { (k.entityType, k.entityId) }

  /**
   * The buckets the source reads a client's or PM's profile from: everything filed under
   * the id, whichever entity type the bucket belongs to.
   */
  function ProfileBucketsAsWritten(aggs: Aggs, entityType: EntityType, entityId: int): seq<Bucket>
    requires OrderedValid(aggs)
  {
    Lookup(FileBuckets(aggs.keys, aggs.values, IdOwner), entityId)
  }

  /** The buckets of one client or one PM: those filed under its entity type and id. */
  function ProfileBuckets(aggs: Aggs, entityType: EntityType, entityId: int): seq<Bucket>
    requires OrderedValid(aggs)
  {
    Lookup(FileBuckets(aggs.keys, aggs.values, EntityOwner), (entityType, entityId))
  }

  /** An entity's profile buckets are exactly those of its own keys. */
  lemma ProfileBucketsOwn(aggs: Aggs, entityType: EntityType, entityId: int, b: Bucket)
    requires OrderedValid(aggs)
    ensures b in ProfileBuckets(aggs, entityType, entityId) <==>
            exists i :: 0 <= i < |aggs.keys| && aggs.keys[i].entityType == entityType && aggs.keys[i].entityId == entityId
                        && b == Bucket(aggs.keys[i].feature, aggs.values[aggs.keys[i]])
  {
    FileBucketsOwned(aggs.keys, aggs.values, EntityOwner, (entityType, entityId));
    OwnedMembers(aggs.keys, aggs.values, EntityOwner, (entityType, entityId), b);
  }

  /**
   * As written, a client's profile also reads the buckets of the PM that has the same
   * numeric id, and a PM's those of the client: whatever a PM key with the id holds shows
   * up in the client's list.
   */
  lemma ProfileBucketsAsWrittenMixes(aggs: Aggs, entityId: int, i: nat)
    requires OrderedValid(aggs)
    requires i < |aggs.keys| && aggs.keys[i].entityType == Pm && aggs.keys[i].entityId == entityId
    ensures Bucket(aggs.keys[i].feature, aggs.values[aggs.keys[i]]) in ProfileBucketsAsWritten(aggs, Client, entityId)
  {
    var b := Bucket(aggs.keys[i].feature, aggs.values[aggs.keys[i]]);
    FileBucketsOwned(aggs.keys, aggs.values, IdOwner, entityId);
    OwnedMembers(aggs.keys, aggs.values, IdOwner, entityId, b);
  }

  /** Client 1 and PM 1 trading the same pair: as written the client's profile reads both buckets. */
  lemma ProfileBucketsShared(f: FeatureKey, a: Agg, b: Agg)
    ensures var clientKey := AggKey(Client, 1, "EMEA", "", f);
      var pmKey := AggKey(Pm, 1, "EMEA", "", f);
      var aggs := Ordered([clientKey, pmKey], map[clientKey := a, pmKey := b]);
      && OrderedValid(aggs)
      && ProfileBucketsAsWritten(aggs, Client, 1) == [Bucket(f, a), Bucket(f, b)]
      && ProfileBuckets(aggs, Client, 1) == [Bucket(f, a)]
  {
    var clientKey := AggKey(Client, 1, "EMEA", "", f);
    var pmKey := AggKey(Pm, 1, "EMEA", "", f);
    var keys := [clientKey, pmKey];
    var values := map[clientKey := a, pmKey := b];
    assert keys[..1] == [clientKey] && [clientKey][..0] == [];
    assert FileBuckets([], values, IdOwner) == map[];
    assert Lookup(FileBuckets([clientKey], values, IdOwner), 1) == [Bucket(f, a)];
    assert FileBuckets([], values, EntityOwner) == map[];
    var once := FileBuckets([clientKey], values, EntityOwner);
    assert Lookup(once, (Client, 1)) == [Bucket(f, a)];
    assert (Pm, 1) !in once;
  }

  /** `(recency_score, trade_count)` in descending order: whether `a` may come before `b`. */
  predicate RecencyFirst(a: Bucket, b: Bucket) {
    || a.agg.recencyScore > b.agg.recencyScore
    || (a.agg.recencyScore == b.agg.recencyScore && a.agg.tradeCount >= b.agg.tradeCount)
  }

  lemma RecencyFirstTotal()
    ensures Sorting.TotalPreorder(RecencyFirst)
  {
  }

  /** The 20 buckets a profile text reads: by recency, then trade count, descending, ties in list order. */
  function TopBuckets(buckets: seq<Bucket>): seq<Bucket> {
    Sorting.TopBy(buckets, RecencyFirst, 20)
  }

  /**
   * At most 20 buckets, taken from the list, none less recent than one left out, and the
   * first 20 whenever the list is longer.
   */
  lemma TopBucketsProperties(buckets: seq<Bucket>)
    ensures var top := TopBuckets(buckets);
      && |top| == (if |buckets| <= 20 then |buckets| else 20)
      && multiset(top) <= multiset(buckets)
      && (forall i, j :: 0 <= i < j < |top| ==> RecencyFirst(top[i], top[j]))
      && (forall x, y :: x in multiset(top) && y in multiset(buckets) - multiset(top) ==>
            y.agg.recencyScore <= x.agg.recencyScore)
  {
    RecencyFirstTotal();
    Sorting.TopByProperties(buckets, RecencyFirst, 20);
    var top := TopBuckets(buckets);
    forall x: Bucket, y: Bucket | x in multiset(top) && y in multiset(buckets) - multiset(top)
      ensures y.agg.recencyScore <= x.agg.recencyScore
    {
      assert RecencyFirst(x, y);
    }
  }

  /** The words of a feature's phrase: its pair, product and tenor, each where set. */
  function PhraseWords(f: FeatureKey): seq<string> {
    (if f.pair.Some? && f.pair.value != "" then [f.pair.value] else [])
    + (if f.product.Some? && f.product.value != "" then [f.product.value] else [])
    + (if f.tenor.Some? && f.tenor.value != "" then [f.tenor.value] else [])
  }

  /** `max(1, min(4, int(round(recency_score))))`: the score rounded, clamped to between 1 and 4. */
  function ScoreRepeat(recency: real): (n: nat)
    ensures 1 <= n <= 4
    ensures recency < 1.5 ==> n == 1
    ensures recency > 3.5 ==> n == 4
    ensures 1.5 <= recency <= 3.5 ==> recency - 0.5 <= n as real <= recency + 0.5
  {
    var r := Profiles.RoundHalfEven(recency);
    if r < 1 then 1 else if r > 4 then 4 else r
  }

  /** The phrase of a feature as it appears in a profile text. */
  function Phrase(f: FeatureKey): string {
    Join(PhraseWords(f), " ")
  }

  /** What one bucket adds to a profile text: its phrase, one to four times; nothing when it has no phrase. */
  function BucketParts(b: Bucket): (r: seq<string>)
    ensures PhraseWords(b.feature) == [] <==> r == []
    ensures |r| <= 4
    ensures forall i :: 0 <= i < |r| ==> r[i] == Phrase(b.feature)
  {
    if PhraseWords(b.feature) == [] then [] else Repeat(Phrase(b.feature), ScoreRepeat(b.agg.recencyScore))
  }

  /** The parts of a list of buckets, in list order. */
  function Parts(buckets: seq<Bucket>): seq<string>
    decreases |buckets|
  {
    if buckets == [] then []
    else Parts(buckets[..|buckets| - 1]) + BucketParts(buckets[|buckets| - 1])
  }

  /** Each bucket gives at most four parts, and there are none exactly when no bucket has a phrase. */
  lemma {:induction false} PartsCount(buckets: seq<Bucket>)
    ensures |Parts(buckets)| <= 4 * |buckets|
    ensures Parts(buckets) == [] <==> forall j :: 0 <= j < |buckets| ==> PhraseWords(buckets[j].feature) == []
    decreases |buckets|
  {
    if buckets != [] {
      var init := buckets[..|buckets| - 1];
      var last := buckets[|buckets| - 1];
      PartsCount(init);
      assert Parts(buckets) == Parts(init) + BucketParts(last);
      if Parts(buckets) == [] {
        forall j | 0 <= j < |buckets| ensures PhraseWords(buckets[j].feature) == [] {
          if j < |init| {
            assert buckets[j] == init[j];
          }
        }
      } else if Parts(init) == [] {
        assert PhraseWords(buckets[|buckets| - 1].feature) != [];
      } else {
        var j :| 0 <= j < |init| && PhraseWords(init[j].feature) != [];
        assert buckets[j] == init[j];
      }
    }
  }

  /** Every part is the phrase of a bucket of the list. */
  lemma {:induction false} PartsFrom(buckets: seq<Bucket>, i: nat)
    requires i < |Parts(buckets)|
    ensures exists j :: 0 <= j < |buckets| && Parts(buckets)[i] == Phrase(buckets[j].feature)
    decreases |buckets|
  {
    var init := buckets[..|buckets| - 1];
    var last := buckets[|buckets| - 1];
    var before := Parts(init);
    assert Parts(buckets) == before + BucketParts(last);
    if i < |before| {
      PartsFrom(init, i);
      var j :| 0 <= j < |init| && before[i] == Phrase(init[j].feature);
      assert buckets[j] == init[j];
    } else {
      assert Parts(buckets)[i] == Phrase(buckets[|buckets| - 1].feature);
    }
  }

  /** `_build_profile_text`: the name, then the parts of the top buckets, joined by " | ". */
  function ProfileText(name: string, buckets: seq<Bucket>): string {
    Join([name] + Parts(TopBuckets(buckets)), " | ")
  }

  /**
   * A profile text starts with the entity's name, and is the bare name exactly when none of
   * the top buckets has a phrase.
   */
  lemma ProfileTextShape(name: string, buckets: seq<Bucket>)
    ensures StartsWith(ProfileText(name, buckets), name)
    ensures var top := TopBuckets(buckets);
      ProfileText(name, buckets) == name <==> forall j :: 0 <= j < |top| ==> PhraseWords(top[j].feature) == []
  {
    var top := TopBuckets(buckets);
    var parts := [name] + Parts(top);
    PartsCount(top);
    if |parts| > 1 {
      assert ProfileText(name, buckets) == name + " | " + Join(parts[1..], " | ");
      assert |ProfileText(name, buckets)| > |name|;
    }
  }

  /** The loop of `_build_profile_text`: each bucket's parts, appended in order. */
  method CollectParts(top: seq<Bucket>) returns (parts: seq<string>)
    ensures parts == Parts(top)
  {
    parts := [];
    var i := 0;
    while i < |top|
      invariant 0 <= i <= |top|
      invariant parts == Parts(top[..i])
    {
      parts := parts + BucketParts(top[i]);
      assert top[..i + 1][..i] == top[..i];
      i := i + 1;
    }
    assert top[..|top|] == top;
  }

  /** `_build_profile_text`: the top buckets' parts after the name, joined. */
  method BuildProfileText(name: string, buckets: seq<Bucket>) returns (text: string)
    ensures text == ProfileText(name, buckets)
  {
    var parts := CollectParts(TopBuckets(buckets));
    text := Join([name] + parts, " | ");
  }


  // ---------------------------------------------------------------------------
  // After the loop: feature rows, profile texts and the report
  // ---------------------------------------------------------------------------

  /** The rows handed to `upsert_rfq_features_bulk`: each bucket with its aggregate, in dictionary order. */
  function FeatureRows(aggs: Aggs): (r: seq<(AggKey, Agg)>)
    requires OrderedValid(aggs)
    ensures |r| == |aggs.keys|
  {
    seq(|aggs.keys|, i requires 0 <= i < |aggs.keys| => (aggs.keys[i], aggs.values[aggs.keys[i]]))
  }

  /**
   * The loop over the buckets after the rows: it collects the feature rows and files each
   * bucket under its owner (its entity type and id, as corrected).
   */
  method CollectBuckets(aggs: Aggs) returns (rows: seq<(AggKey, Agg)>, byEntity: map<(EntityType, int), seq<Bucket>>)
    requires OrderedValid(aggs)
    ensures rows == FeatureRows(aggs)
    ensures byEntity == FileBuckets(aggs.keys, aggs.values, EntityOwner)
  {
    rows := [];
    byEntity := map[];
    var i := 0;
    while i < |aggs.keys|
      invariant 0 <= i <= |aggs.keys|
      invariant rows == FeatureRows(aggs)[..i]
      invariant byEntity == FileBuckets(aggs.keys[..i], aggs.values, EntityOwner)
    {
      var k := aggs.keys[i];
      var agg := aggs.values[k];
      FeatureRowsNext(aggs, i);
      rows := rows + [(k, agg)];
      var owner := (k.entityType, k.entityId);
      var filed := if owner in byEntity then byEntity[owner] else [];
      FileBucketsNext(aggs, i);
      assert owner == EntityOwner(k) && filed == Lookup(byEntity, owner);
      byEntity := byEntity[owner := filed + [Bucket(k.feature, agg)]];
      i := i + 1;
    }
    assert aggs.keys[..|aggs.keys|] == aggs.keys;
  }

  lemma FeatureRowsNext(aggs: Aggs, i: nat)
    requires OrderedValid(aggs) && i < |aggs.keys|
    ensures FeatureRows(aggs)[..i + 1] == FeatureRows(aggs)[..i] + [(aggs.keys[i], aggs.values[aggs.keys[i]])]
  {
  }

  /** Filing the key at index `i` extends the map filed from the keys before it. */
  lemma FileBucketsNext(aggs: Aggs, i: nat)
    requires OrderedValid(aggs) && i < |aggs.keys|
    ensures var k := aggs.keys[i];
      var m := FileBuckets(aggs.keys[..i], aggs.values, EntityOwner);
      FileBuckets(aggs.keys[..i + 1], aggs.values, EntityOwner)
        == m[EntityOwner(k) := Lookup(m, EntityOwner(k)) + [Bucket(k.feature, aggs.values[k])]]
  {
    assert aggs.keys[..i + 1][..i] == aggs.keys[..i];
  }

  /** One row of `upsert_entity_profile_cache`. */
  datatype ProfileRow = ProfileRow(entityType: EntityType, entityId: int, text: string)

  /** The clients in the order the run first met them: `client_id_cache.items()`. */
  function ClientEntries(clientIds: Ordered<string, int>): (r: seq<(int, string)>)
    requires OrderedValid(clientIds)
    ensures |r| == |clientIds.keys|
  {
    seq(|clientIds.keys|, i requires 0 <= i < |clientIds.keys| => (clientIds.values[clientIds.keys[i]], clientIds.keys[i]))
  }

  /** The PMs in the order the run first met them: `pm_profile_names.items()`. */
  function PmEntries(pmNames: Ordered<int, string>): (r: seq<(int, string)>)
    requires OrderedValid(pmNames)
    ensures |r| == |pmNames.keys|
  {
    seq(|pmNames.keys|, i requires 0 <= i < |pmNames.keys| => (pmNames.keys[i], pmNames.values[pmNames.keys[i]]))
  }

  /** The profile rows of some entities of one type, each from the buckets filed under it. */
  function ProfileRows(entityType: EntityType, entries: seq<(int, string)>, byEntity: map<(EntityType, int), seq<Bucket>>): (r: seq<ProfileRow>)
    ensures |r| == |entries|
    ensures forall i :: 0 <= i < |r| ==> r[i].entityType == entityType && r[i].entityId == entries[i].0
  {
    seq(|entries|, i requires 0 <= i < |entries| =>
      ProfileRow(entityType, entries[i].0, ProfileText(entries[i].1, Lookup(byEntity, (entityType, entries[i].0)))))
  }

  /** Every profile text starts with its entity's name. */
  lemma ProfileRowsNamed(entityType: EntityType, entries: seq<(int, string)>, byEntity: map<(EntityType, int), seq<Bucket>>, i: nat)
    requires i < |entries|
    ensures StartsWith(ProfileRows(entityType, entries, byEntity)[i].text, entries[i].1)
  {
    ProfileTextShape(entries[i].1, Lookup(byEntity, (entityType, entries[i].0)));
  }

  /** The loops over the cached clients and PMs, building each profile text. */
  method BuildProfiles(entityType: EntityType, entries: seq<(int, string)>, byEntity: map<(EntityType, int), seq<Bucket>>)
    returns (rows: seq<ProfileRow>)
    ensures rows == ProfileRows(entityType, entries, byEntity)
  {
    rows := [];
    var i := 0;
    while i < |entries|
      invariant 0 <= i <= |entries|
      invariant rows == ProfileRows(entityType, entries, byEntity)[..i]
    {
      var (id, name) := entries[i];
      var text := BuildProfileText(name, if (entityType, id) in byEntity then byEntity[(entityType, id)] else []);
      rows := rows + [ProfileRow(entityType, id, text)];
      i := i + 1;
    }
  }

  /** The clients the run created, each with the type inferred from its sector. */
  function CreatedClients(newClients: seq<NewClient>, clientTypes: seq<string>): (r: seq<(int, string, string)>)
    requires |clientTypes| > 0
    ensures |r| == |newClients|
  {
    seq(|newClients|, i requires 0 <= i < |newClients| =>
      (newClients[i].clientId, newClients[i].clientName, NewClientType(newClients[i], clientTypes)))
  }

  /** What a successful run writes and returns. */
  datatype RfqReport = RfqReport(
    rowsRead: nat, rowsValid: nat, rowsSkipped: nat, clientsCreated: nat, pmsCreated: nat, featuresUpserted: nat,
    features: seq<(AggKey, Agg)>, createdClients: seq<(int, string, string)>, profiles: seq<ProfileRow>)

  /**
   * The report of a finished run. Its profiles read the buckets filed by entity type and id; the
   * program files them by bare id, which `ProfileBucketsAsWritten` models.
   */
  function ReportOf(run: RfqRun, env: RfqEnv): RfqReport
    requires EnvValid(env) && Consistent(run, env)
  {
    var byEntity := FileBuckets(run.aggs.keys, run.aggs.values, EntityOwner);
    var features := FeatureRows(run.aggs);
    RfqReport(run.rowsRead, run.rowsValid, run.rowsSkipped, run.clientsCreated, run.pmsCreated, |features|,
              features, CreatedClients(run.newClients, env.clientTypes),
              ProfileRows(Client, ClientEntries(run.clientIds), byEntity) + ProfileRows(Pm, PmEntries(run.pmNames), byEntity))
  }

  /** A run that starts from empty counters and caches keeps them consistent over a whole file. */
  lemma FileConsistent(rows: seq<RfqRow>, env: RfqEnv)
    requires EnvValid(env) && DatesValid(rows)
    ensures Consistent(Ingested(Start(env), rows, env), env)
  {
    assert Consistent(Start(env), env);
    IngestedConsistent(Start(env), rows, env);
  }

  /** The row loop of `ingest_rfq_csv` over rows whose fields are read. */
  method IngestRows(rows: seq<RfqRow>, env: RfqEnv) returns (run: RfqRun)
    requires EnvValid(env) && DatesValid(rows)
    ensures run == Ingested(Start(env), rows, env)
  {
    run := Start(env);
    var i := 0;
    while i < |rows|
      invariant 0 <= i <= |rows|
      invariant run == Ingested(Start(env), rows[..i], env)
    {
      assert rows[..i + 1][..i] == rows[..i];
      run := IngestRow(run, rows[i], env);
      i := i + 1;
    }
    assert rows[..|rows|] == rows;
  }

  /** The writes after the row loop: the feature rows, the profile texts and the counters. */
  method Finish(run: RfqRun, env: RfqEnv) returns (report: RfqReport)
    requires EnvValid(env) && Consistent(run, env)
    ensures report == ReportOf(run, env)
  {
    var features, byEntity := CollectBuckets(run.aggs);
    var clientProfiles := BuildProfiles(Client, ClientEntries(run.clientIds), byEntity);
    var pmProfiles := BuildProfiles(Pm, PmEntries(run.pmNames), byEntity);
    report := RfqReport(run.rowsRead, run.rowsValid, run.rowsSkipped, run.clientsCreated, run.pmsCreated, |features|,
                        features, CreatedClients(run.newClients, env.clientTypes), clientProfiles + pmProfiles);
  }

  /**
   * `ingest_rfq_csv`: refuse a file whose header is missing or lacks a required column;
   * otherwise run every row through the loop, then write the buckets and profile texts.
   */
  method IngestRfqCsv(header: Option<seq<string>>, rows: seq<CsvRow>, env: RfqEnv) returns (result: Result<RfqReport, HeaderError>)
    requires EnvValid(env)
    ensures EnsureHeaders(header).Err? ==> result == Err(EnsureHeaders(header).error)
    ensures EnsureHeaders(header).Ok? ==>
      var run := Ingested(Start(env), ParseRows(rows, env.regions), env);
      Consistent(run, env) && result == Ok(ReportOf(run, env))
  {
    var checked := EnsureHeaders(header);
    if checked.Err? {
      return Err(checked.error);
    }
    var parsed := Seqs.MapEach(rows, RowParser(env.regions));
    var run := IngestRows(parsed, env);
    FileConsistent(parsed, env);
    var report := Finish(run, env);
    result := Ok(report);
  }
}
