/**
 * RFQ field handling: the normalisers for currency pair, product, tenor bucket, region and
 * country; the region fallback order; the sector to client-type rule; trade date and
 * notional parsing; and the structured signals read from free text.
 *
 * `REGIONS` and `CLIENT_TYPES` live in `core/constants.py`, which is not part of this model:
 * they enter as parameters.
 */
module Rfq {
  import opened Wrappers
  import opened Strings
  import Calendar
  import TextProcessing

  /** `PRODUCT_TYPES`. */
  const ProductTypes: set<string> := {
    "EUR", "KNO", "NDO", "EKIKO", "EKI", "DIG", "FWDACC", "NT", "VKO", "RKO", "TPF", "PTPF",
    "DOT", "OT", "VOLSWAP", "WRKI", "RKI", "MBAR", "DKO", "STRUCTSWP", "CORRSWP", "EKO",
    "MDIG", "DKI", "DIGRKO", "WRKO", "WKNO", "DCD", "DNT", "AVGSTRIKE", "KNI", "GENACCRUAL",
    "WDIGKNO", "COMMODITYFORWARD", "KIKO", "DIGKNO", "RFADER", "FWDSTRUCT", "WDIGRKO", "FVA",
    "BOWO", "COMMODITYSWAP", "KOFVA", "WDKO", "VARSWAP", "DIGDKO", "AVGRATE", "COMMODITYFUTURE",
    "FXFUTOPT", "WDIGDKO", "WKNI", "WDKI", "AMER", "BASKET", "COMPOUND", "RTIMER",
    "AVGRATE_FWD", "WDNT"
  }

  /** `REGION_MAP`. */
  const RegionMap: map<string, string> := map[
    "EUROPE" := "EUROPE",
    "APAC" := "APAC",
    "AMERICA" := "AMERICA",
    "AMERICAS" := "AMERICA",
    "CEEMA" := "CEEMEA",
    "CEEMEA" := "CEEMEA"
  ]

  /** The keys of `REGION_MAP` in insertion order, the order the signal extractor scans them in. */
  const RegionKeys: seq<string> := ["EUROPE", "APAC", "AMERICA", "AMERICAS", "CEEMA", "CEEMEA"]

  /** The values of `REGION_MAP`. */
  const CanonicalRegions: set<string> := {"EUROPE", "APAC", "AMERICA", "CEEMEA"}

  /** `TENOR_BUCKET_MAP`. */
  const TenorBucketMap: map<string, string> := map[
    "<1W" := "<1W",
    "1W" := "1W",
    "2W-1M" := "2W-1M",
    "1M-3M" := "1M-3M",
    "3M-6M" := "3M-6M",
    "6M-1Y" := "6M-1Y",
    ">1Y" := ">1Y"
  ]

  /** The key order lists every key once, and every value is canonical. */
  lemma RegionMapShape()
    ensures forall k :: k in RegionMap <==> k in RegionKeys
    ensures forall k :: k in RegionMap ==> RegionMap[k] in CanonicalRegions
    ensures forall c :: c in CanonicalRegions ==> c in RegionMap && RegionMap[c] == c
  {
  }

  /** A string that `strip().upper()` leaves unchanged. */
  predicate Canonical(s: string) {
    Upper(Strip(s)) == s
  }

  lemma StripUpperCanonical(s: string)
    ensures Canonical(Upper(Strip(s)))
  {
    UpperOfStripIsStripped(s);
    UpperIdempotent(Strip(s));
  }

  // ---------------------------------------------------------------------------
  // Normalisers
  // ---------------------------------------------------------------------------

  /**
   * `normalize_region`: the `REGION_MAP` value of the trimmed upper-cased input, else that
   * input if it is one of `regions`, else "".
   */
  function NormalizeRegion(value: string, regions: seq<string>): (r: string)
    ensures r == "" || r in CanonicalRegions || r in regions
  {
    var region := Upper(Strip(value));
    if region in RegionMap then RegionMapShape(); RegionMap[region]
    else if region in regions then region
    else ""
  }

  /** The alias `CEEMA` is `CEEMEA`, whatever the case and padding. */
  lemma NormalizeRegionCeema(value: string, regions: seq<string>)
    requires Upper(Strip(value)) == "CEEMA"
    ensures NormalizeRegion(value, regions) == "CEEMEA"
  {
    assert RegionMap["CEEMA"] == "CEEMEA";
  }

  /** The alias `AMERICAS` is `AMERICA`, whatever the case and padding. */
  lemma NormalizeRegionAmericas(value: string, regions: seq<string>)
    requires Upper(Strip(value)) == "AMERICAS"
    ensures NormalizeRegion(value, regions) == "AMERICA"
  {
    assert RegionMap["AMERICAS"] == "AMERICA";
  }

  /** A word of upper-case letters is canonical. */
  lemma UpperWordCanonical(s: string)
    requires s != [] && forall i :: 0 <= i < |s| ==> IsUpperLetter(s[i])
    ensures Canonical(s)
  {
    assert IsUpperLetter(s[0]) && IsUpperLetter(s[|s| - 1]);
    StripUnchanged(s);
    assert Upper(s) == s;
  }

  lemma CanonicalRegionsCanonical(c: string)
    requires c in CanonicalRegions
    ensures Canonical(c)
  {
    if c == "EUROPE" {
      UpperWordCanonical("EUROPE");
    } else if c == "APAC" {
      UpperWordCanonical("APAC");
    } else if c == "AMERICA" {
      UpperWordCanonical("AMERICA");
    } else {
      UpperWordCanonical("CEEMEA");
    }
  }

  /** A normalised region is left unchanged by `strip().upper()`. */
  lemma NormalizeRegionCanonical(value: string, regions: seq<string>)
    ensures Canonical(NormalizeRegion(value, regions))
  {
    var r := NormalizeRegion(value, regions);
    if r in CanonicalRegions {
      CanonicalRegionsCanonical(r);
    } else if r == "" {
      assert Upper(Strip("")) == "";
    } else {
      var region := Upper(Strip(value));
      RegionMapShape();
      assert region !in RegionMap;
      assert r == region;
      StripUpperCanonical(value);
    }
  }

  /** Normalising a normalised region changes nothing. */
  lemma NormalizeRegionIdempotent(value: string, regions: seq<string>)
    ensures NormalizeRegion(NormalizeRegion(value, regions), regions) == NormalizeRegion(value, regions)
  {
    var r := NormalizeRegion(value, regions);
    NormalizeRegionCanonical(value, regions);
    assert Upper(Strip(r)) == r;
    var region := Upper(Strip(value));
    if region in RegionMap {
      RegionMapFixed(region);
      assert r == RegionMap[region];
    } else if region in regions {
      assert r == region;
    } else {
      assert r == "";
      assert "" !in RegionMap;
    }
  }

  /** Every value of `REGION_MAP` maps to itself. */
  lemma RegionMapFixed(k: string)
    requires k in RegionMap
    ensures RegionMap[k] in RegionMap && RegionMap[RegionMap[k]] == RegionMap[k]
  {
    RegionMapShape();
  }

  /** `normalize_country`. */
  function NormalizeCountry(value: string): (r: string)
    ensures Canonical(r)
  {
    StripUpperCanonical(value);
    Upper(Strip(value))
  }

  /** `normalize_ccy_pair`: the letters of the upper-cased input, cut to six; "" when fewer. */
  function NormalizeCcyPair(value: string): (r: string)
    ensures r == "" || (|r| == 6 && forall i :: 0 <= i < 6 ==> IsUpperLetter(r[i]))
    ensures r == "" <==> |Keep(value, IsLetter)| < 6
    ensures r != "" ==> r == Upper(Keep(value, IsLetter)[..6])
  {
    var raw := Keep(Upper(value), IsLetter);
    KeepLettersUpper(value);
    if |raw| >= 6 then
      UpperPrefix(Keep(value, IsLetter), 6);
      assert forall i :: 0 <= i < 6 ==> raw[i] in Upper(value);
      raw[..6]
    else ""
  }

  /** A normalised pair is its own normalisation. */
  lemma NormalizeCcyPairIdempotent(value: string)
    ensures NormalizeCcyPair(NormalizeCcyPair(value)) == NormalizeCcyPair(value)
  {
    var r := NormalizeCcyPair(value);
    KeepAll(r, IsLetter);
    if r != "" {
      assert Upper(r) == r;
      assert r[..6] == r;
    }
  }

  /** `normalize_product_type`: the upper-cased input without characters outside `[A-Za-z0-9_]`. */
  function NormalizeProductType(value: string): (r: string)
    ensures forall i :: 0 <= i < |r| ==> IsUpperLetter(r[i]) || IsDigit(r[i]) || r[i] == '_'
  {
    var token := Keep(Upper(value), IsWordChar);
    assert forall i :: 0 <= i < |token| ==> token[i] in Upper(value);
    token
  }

  /** A normalised product type is its own normalisation. */
  lemma NormalizeProductTypeIdempotent(value: string)
    ensures NormalizeProductType(NormalizeProductType(value)) == NormalizeProductType(value)
  {
    var r := NormalizeProductType(value);
    assert Upper(r) == r;
    KeepAll(r, IsWordChar);
  }

  /** `normalize_tenor_bucket`: since `TENOR_BUCKET_MAP` maps each key to itself, the trimmed upper-cased input. */
  function NormalizeTenorBucket(value: string): (r: string)
    ensures r == Upper(Strip(value))
  {
    var token := Upper(Strip(value));
    if token in TenorBucketMap then TenorBucketMapIdentity(token); TenorBucketMap[token] else token
  }

  lemma TenorBucketMapIdentity(k: string)
    requires k in TenorBucketMap
    ensures TenorBucketMap[k] == k
  {
  }

  // ---------------------------------------------------------------------------
  // Parsing
  // ---------------------------------------------------------------------------

  /** The formats `parse_trade_date` tries, in order. */
  const TradeDateFormats: seq<Calendar.DateFormat> := [
    Calendar.DateFormat(Calendar.MonthDayYear, '/'),
    Calendar.DateFormat(Calendar.MonthDayYear, '-'),
    Calendar.DateFormat(Calendar.YearMonthDay, '-'),
    Calendar.DateFormat(Calendar.DayMonthYear, '/'),
    Calendar.DateFormat(Calendar.DayMonthYear, '-')
  ]

  /** The date read by the first format that accepts `text`. */
  function FirstParse(text: string, formats: seq<Calendar.DateFormat>): (r: Option<Calendar.Date>)
    ensures r.Some? ==> Calendar.Valid(r.value)
    ensures r.None? <==> forall k :: 0 <= k < |formats| ==> Calendar.Strptime(text, formats[k]).None?
    ensures r.Some? ==>
      exists k :: 0 <= k < |formats| && Calendar.Strptime(text, formats[k]) == r
        && forall j :: 0 <= j < k ==> Calendar.Strptime(text, formats[j]).None?
  {
    if formats == [] then None
    else match Calendar.Strptime(text, formats[0])
      case Some(d) => Some(d)
      case None =>
        var r := FirstParse(text, formats[1..]);
        assert forall k :: 1 <= k < |formats| ==> formats[k] == formats[1..][k - 1];
        if r.Some? then
          var k :| 0 <= k < |formats[1..]| && Calendar.Strptime(text, formats[1..][k]) == r
            && forall j :: 0 <= j < k ==> Calendar.Strptime(text, formats[1..][j]).None?;
          assert Calendar.Strptime(text, formats[k + 1]) == r;
          r
        else r
  }

  /** `parse_trade_date`: None for blank input, else the first of the five formats that reads it. */
  function ParseTradeDate(value: string): (r: Option<Calendar.Date>)
    ensures r.Some? ==> Calendar.Valid(r.value)
    ensures Strip(value) == "" ==> r.None?
  {
    var text := Strip(value);
    if text == "" then None else FirstParse(text, TradeDateFormats)
  }

  /** A date printed as `%m/%d/%Y` is read back by the first format. */
  lemma ParseTradeDateUs(d: Calendar.Date)
    requires Calendar.Valid(d)
    ensures ParseTradeDate(Calendar.Strftime(d, TradeDateFormats[0])) == Some(d)
  {
    var s := Calendar.Strftime(d, TradeDateFormats[0]);
    Calendar.StrftimeRoundTrip(d, TradeDateFormats[0]);
    assert IsDigit(s[0]) && IsDigit(s[|s| - 1]);
    StripUnchanged(s);
  }

  /** Skipping a format that rejects the text. */
  lemma FirstParseSkip(text: string, formats: seq<Calendar.DateFormat>)
    requires formats != [] && Calendar.Strptime(text, formats[0]).None?
    ensures FirstParse(text, formats) == FirstParse(text, formats[1..])
  {
  }

  /** An ISO date is read back: both month-first formats reject it. */
  lemma ParseTradeDateIso(d: Calendar.Date)
    requires Calendar.Valid(d)
    ensures ParseTradeDate(Calendar.IsoFormat(d)) == Some(d)
  {
    var s := Calendar.IsoFormat(d);
    IsoIsStripped(d);
    IsoRejectedBySlash(d);
    IsoRejectedByMonthFirst(d);
    Calendar.IsoRoundTrip(d);
    FirstParseSkip(s, TradeDateFormats);
    FirstParseSkip(s, TradeDateFormats[1..]);
    assert TradeDateFormats[2..][0] == Calendar.DateFormat(Calendar.YearMonthDay, '-');
  }

  lemma IsoIsStripped(d: Calendar.Date)
    requires Calendar.Valid(d)
    ensures Strip(Calendar.IsoFormat(d)) == Calendar.IsoFormat(d)
  {
    var s := Calendar.IsoFormat(d);
    var y, m, dd := Calendar.Digits(d.year, 4), Calendar.Digits(d.month, 2), Calendar.Digits(d.day, 2);
    assert s == y + "-" + m + "-" + dd;
    assert s[0] == y[0] && s[|s| - 1] == dd[1];
    StripUnchanged(s);
  }

  lemma IsoRejectedBySlash(d: Calendar.Date)
    requires Calendar.Valid(d)
    ensures Calendar.Strptime(Calendar.IsoFormat(d), TradeDateFormats[0]).None?
  {
    var s := Calendar.IsoFormat(d);
    var y, m, dd := Calendar.Digits(d.year, 4), Calendar.Digits(d.month, 2), Calendar.Digits(d.day, 2);
    assert s == y + "-" + m + "-" + dd;
    assert forall i :: 0 <= i < |s| ==> s[i] != '/';
    SplitNoSep(s, '/');
  }

  lemma IsoRejectedByMonthFirst(d: Calendar.Date)
    requires Calendar.Valid(d)
    ensures Calendar.Strptime(Calendar.IsoFormat(d), TradeDateFormats[1]).None?
  {
    Calendar.IsoFields(d);
  }

  /** A day-first date whose day exceeds 12 has a month field `%m` rejects. */
  lemma DayFirstRejectedByMonthFirst(d: Calendar.Date)
    requires Calendar.Valid(d) && d.day > 12
    ensures Calendar.Strptime(Calendar.Strftime(d, TradeDateFormats[3]), TradeDateFormats[0]).None?
  {
    var s := Calendar.Strftime(d, TradeDateFormats[3]);
    var y, m, dd := Calendar.Digits(d.year, 4), Calendar.Digits(d.month, 2), Calendar.Digits(d.day, 2);
    assert s == dd + ['/'] + m + ['/'] + y;
    Calendar.SplitThree(dd, m, y, '/');
    Calendar.DayFieldOf(d);
    assert !Calendar.MonthField(dd);
  }

  /** A day-first date written with slashes has no dash, so neither dash format reads it. */
  lemma DayFirstRejectedByDash(d: Calendar.Date)
    requires Calendar.Valid(d)
    ensures var s := Calendar.Strftime(d, TradeDateFormats[3]);
      Calendar.Strptime(s, TradeDateFormats[1]).None? && Calendar.Strptime(s, TradeDateFormats[2]).None?
  {
    var s := Calendar.Strftime(d, TradeDateFormats[3]);
    var y, m, dd := Calendar.Digits(d.year, 4), Calendar.Digits(d.month, 2), Calendar.Digits(d.day, 2);
    assert s == dd + ['/'] + m + ['/'] + y;
    assert forall i :: 0 <= i < |s| ==> s[i] != '-';
    SplitNoSep(s, '-');
  }

  /** A day-first date whose day exceeds 12 is not mistaken for month-first, and is read back. */
  lemma ParseTradeDateDayFirst(d: Calendar.Date)
    requires Calendar.Valid(d) && d.day > 12
    ensures ParseTradeDate(Calendar.Strftime(d, TradeDateFormats[3])) == Some(d)
  {
    var s := Calendar.Strftime(d, TradeDateFormats[3]);
    assert IsDigit(s[0]) && IsDigit(s[|s| - 1]);
    StripUnchanged(s);
    DayFirstRejectedByMonthFirst(d);
    DayFirstRejectedByDash(d);
    Calendar.StrftimeRoundTrip(d, TradeDateFormats[3]);
    FirstParseSkip(s, TradeDateFormats);
    FirstParseSkip(s, TradeDateFormats[1..]);
    FirstParseSkip(s, TradeDateFormats[2..]);
    assert TradeDateFormats[3..][0] == TradeDateFormats[3];
  }

  /** `float(text)` for plain decimals: optional sign, digits, optional fraction; surrounding whitespace allowed. */
  function ParseDecimal(text: string): (r: Option<real>)
  {
    var t := Strip(text);
    var negative := |t| > 0 && t[0] == '-';
    var body := if |t| > 0 && (t[0] == '-' || t[0] == '+') then t[1..] else t;
    match UnsignedDecimal(body)
    case None => None
    case Some(v) => Some(if negative then -v else v)
  }

  /** Digits, optionally a point and more digits, not both parts empty. */
  function UnsignedDecimal(body: string): Option<real> {
    var parts := SplitOn(body, '.');
    if |parts| > 2 then None
    else
      var whole := parts[0];
      var frac := if |parts| == 2 then parts[1] else "";
      if !AllDigits(whole) || !AllDigits(frac) || (whole == "" && frac == "") then None
      else Some(DecimalValue(whole, frac))
  }

  /** The value of `whole.frac`. */
  function DecimalValue(whole: string, frac: string): real
    requires AllDigits(whole) && AllDigits(frac)
  {
    Calendar.DigitsValue(whole) as real + Calendar.DigitsValue(frac) as real / Calendar.Pow10(|frac|) as real
  }

  /** A string of digits reads as its integer value. */
  lemma ParseDecimalDigits(s: string)
    requires s != [] && AllDigits(s)
    ensures ParseDecimal(s) == Some(Calendar.DigitsValue(s) as real)
  {
    assert IsDigit(s[0]) && IsDigit(s[|s| - 1]);
    StripUnchanged(s);
    assert s[0] != '-' && s[0] != '+';
    assert forall i :: 0 <= i < |s| ==> s[i] != '.';
    SplitNoSep(s, '.');
    DecimalValueWhole(s);
    assert UnsignedDecimal(s) == Some(Calendar.DigitsValue(s) as real);
  }

  /** Without a fraction, the value is the whole part's. */
  lemma DecimalValueWhole(whole: string)
    requires AllDigits(whole)
    ensures DecimalValue(whole, "") == Calendar.DigitsValue(whole) as real
  {
    var zero, one := Calendar.DigitsValue(""), Calendar.Pow10(0);
    assert zero == 0 && one == 1;
    assert zero as real / one as real == 0.0;
  }

  predicate NotComma(c: char) { c != ',' }

  /** The text `parse_hit_notional_m` works on: trimmed, upper-cased, without commas. */
  function NotionalText(value: string): string {
    Keep(Upper(Strip(value)), NotComma)
  }

  /** The text without one trailing `M`. */
  function DropM(text: string): (r: string)
    ensures EndsWith(text, "M") ==> r + "M" == text
    ensures !EndsWith(text, "M") ==> r == text
  {
    if EndsWith(text, "M") then text[..|text| - 1] else text
  }

  /** `parse_hit_notional_m`: commas and one trailing `M` removed; 0.0 for blank or unreadable input. */
  function ParseHitNotionalM(value: string): (r: real)
    ensures Strip(value) == "" ==> r == 0.0
  {
    var text := NotionalText(value);
    if text == "" then 0.0
    else match ParseDecimal(DropM(text))
      case Some(x) => x
      case None => 0.0
  }

  /** A whole number of millions reads as that number. */
  lemma ParseHitNotionalDigits(s: string)
    requires s != [] && AllDigits(s)
    ensures ParseHitNotionalM(s) == Calendar.DigitsValue(s) as real
  {
    PlainNotional(s);
    DigitsKeepTheirEnd(s);
    ParseDecimalDigits(s);
  }

  /** A whole number of millions followed by `M` reads as that number. */
  lemma ParseHitNotionalDigitsM(s: string)
    requires s != [] && AllDigits(s)
    ensures ParseHitNotionalM(s + "M") == Calendar.DigitsValue(s) as real
  {
    var sm := s + "M";
    PlainNotional(sm);
    DropTrailingM(s);
    ParseDecimalDigits(s);
  }

  lemma DigitsKeepTheirEnd(s: string)
    requires s != [] && AllDigits(s)
    ensures DropM(s) == s
  {
    assert s[|s| - 1..][0] == s[|s| - 1];
  }

  lemma DropTrailingM(s: string)
    ensures DropM(s + "M") == s
  {
    var sm := s + "M";
    assert sm[|sm| - 1..] == "M";
    assert sm[..|sm| - 1] == s;
  }

  /** Text without spaces, commas or lower-case letters reaches the number parser unchanged. */
  lemma PlainNotional(s: string)
    requires s != [] && forall i :: 0 <= i < |s| ==> IsDigit(s[i]) || s[i] == 'M'
    ensures NotionalText(s) == s
  {
    StripUnchanged(s);
    assert Upper(s) == s;
    KeepAll(s, NotComma);
  }

  // ---------------------------------------------------------------------------
  // Client type and region fallbacks
  // ---------------------------------------------------------------------------

  /**
   * `infer_client_type_from_sector`: HF, then REAL MONEY, then BANK or PB, then CORPORATE,
   * then INTERNAL are looked for in that order; otherwise `CLIENT_TYPES[0]`.
   */
  function InferClientTypeFromSector(sector: string, clientTypes: seq<string>): (r: string)
    requires |clientTypes| > 0
    ensures r in {"HF_MACRO", "ASSET_MANAGER_LONG_ONLY", "BANK", "CORPORATE_TREASURY", clientTypes[0]}
    ensures Contains(Upper(Strip(sector)), "HF") ==> r == "HF_MACRO"
  {
    var token := Upper(Strip(sector));
    if Contains(token, "HF") then "HF_MACRO"
    else if Contains(token, "REAL MONEY") then "ASSET_MANAGER_LONG_ONLY"
    else if Contains(token, "BANK") || Contains(token, "PB") then "BANK"
    else if Contains(token, "CORPORATE") then "CORPORATE_TREASURY"
    else if Contains(token, "INTERNAL") then "BANK"
    else clientTypes[0]
  }

  /** A sector naming both a hedge fund and real money counts as a hedge fund. */
  lemma SectorHedgeFundFirst(sector: string, clientTypes: seq<string>)
    requires |clientTypes| > 0
    requires StartsWith(Upper(Strip(sector)), "HF")
    ensures InferClientTypeFromSector(sector, clientTypes) == "HF_MACRO"
  {
    ContainsAt(Upper(Strip(sector)), "HF", 0);
  }

  /** A sector of digits mentions none of the keywords and gets the first client type. */
  lemma SectorDefault(sector: string, clientTypes: seq<string>)
    requires |clientTypes| > 0
    requires sector != [] && AllDigits(sector)
    ensures InferClientTypeFromSector(sector, clientTypes) == clientTypes[0]
  {
    StripUnchanged(sector);
    assert Upper(sector) == sector;
    NoLetterContains(sector, "HF");
    NoLetterContains(sector, "REAL MONEY");
    NoLetterContains(sector, "BANK");
    NoLetterContains(sector, "PB");
    NoLetterContains(sector, "CORPORATE");
    NoLetterContains(sector, "INTERNAL");
  }

  lemma NoLetterContains(s: string, sub: string)
    requires forall i :: 0 <= i < |s| ==> IsDigit(s[i])
    requires |sub| > 0 && IsUpperLetter(sub[0])
    ensures !Contains(s, sub)
  {
    forall i | 0 <= i <= |s| - |sub| ensures !OccursAt(s, sub, i) {
      assert s[i..i + |sub|][0] == s[i];
    }
  }

  /** `[x for x in s if x != y]`. */
  function Without(s: seq<string>, y: string): (r: seq<string>)
    ensures forall x :: x in r <==> x in s && x != y
    ensures |r| <= |s|
  {
    if s == [] then []
    else (if s[0] != y then [s[0]] else []) + Without(s[1..], y)
  }

  /** Filtering distributes over concatenation, so the kept items stay in their order. */
  lemma {:induction false} WithoutAppend(a: seq<string>, b: seq<string>, y: string)
    ensures Without(a + b, y) == Without(a, y) + Without(b, y)
    decreases |a|
  {
    if a == [] {
      assert a + b == b;
    } else {
      WithoutAppend(a[1..], b, y);
      assert (a + b)[0] == a[0];
      assert (a + b)[1..] == a[1..] + b;
      var head := if a[0] != y then [a[0]] else [];
      assert Without(a + b, y) == head + Without((a + b)[1..], y);
      assert Without(a + b, y) == head + (Without(a[1..], y) + Without(b, y));
      assert Without(a, y) == head + Without(a[1..], y);
    }
  }

  /** Nothing is removed when `y` does not occur. */
  lemma {:induction false} WithoutAbsent(s: seq<string>, y: string)
    requires y !in s
    ensures Without(s, y) == s
    decreases |s|
  {
    if s != [] {
      WithoutAbsent(s[1..], y);
      assert [s[0]] + s[1..] == s;
    }
  }

  /**
   * `region_fallbacks`: the normalised region first, then every other region of `regions`
   * in order; all of `regions` when the input names no region.
   */
  function RegionFallbacks(region: string, regions: seq<string>): (r: seq<string>)
    ensures NormalizeRegion(region, regions) == "" ==> r == regions
    ensures NormalizeRegion(region, regions) != "" ==>
      && |r| >= 1 && r[0] == NormalizeRegion(region, regions)
      && (forall i :: 1 <= i < |r| ==> r[i] != r[0])
      && (forall x :: x in r <==> x == r[0] || x in regions)
  {
    var target := NormalizeRegion(region, regions);
    if target == "" then regions
    else
      var w := Without(regions, target);
      var r := [target] + w;
      assert forall i :: 1 <= i < |r| ==> r[i] == w[i - 1] && w[i - 1] in w;
      r
  }

  /** Regions the input does not name keep their order behind the named one. */
  lemma RegionFallbacksOrder(region: string, before: seq<string>, after: seq<string>)
    requires NormalizeRegion(region, before + after) !in before
    requires NormalizeRegion(region, before + after) != ""
    ensures RegionFallbacks(region, before + after)[1..]
      == before + Without(after, NormalizeRegion(region, before + after))
  {
    var t := NormalizeRegion(region, before + after);
    WithoutAppend(before, after, t);
    WithoutAbsent(before, t);
  }

  // ---------------------------------------------------------------------------
  // Structured signals from free text
  // ---------------------------------------------------------------------------

  /** The signals `extract_structured_signals_from_text` returns; "" for an absent field. */
  datatype Signals = Signals(ccyPair: string, productType: string, tenorBucket: string, region: string)

  /** `\b([A-Z]{6})\b` matches at index `i`. */
  predicate PairAt(raw: string, i: nat) {
    && i + 6 <= |raw|
    && (forall k :: i <= k < i + 6 ==> IsUpperLetter(raw[k]))
    && TextProcessing.WordMatchAt(raw, raw[i..i + 6], i)
  }

  /** `re.search` for the pair pattern from index `i`: the leftmost match. */
  function FindPair(raw: string, i: nat): (r: Option<nat>)
    requires i <= |raw|
    ensures r.Some? ==>
      i <= r.value && PairAt(raw, r.value) && forall j :: i <= j < r.value ==> !PairAt(raw, j)
    ensures r.None? ==> forall j :: i <= j <= |raw| ==> !PairAt(raw, j)
    decreases |raw| - i
  {
    if PairAt(raw, i) then Some(i)
    else if i == |raw| then None
    else FindPair(raw, i + 1)
  }

  /** `re.search(rf"\b{w}\b", raw)` for a word `w` of word characters. */
  predicate HasWord(raw: string, w: string) {
    exists i: nat :: i <= |raw| && TextProcessing.WordMatchAt(raw, w, i)
  }

  /** The candidates of `re.findall(r"\b[A-Z0-9_]{3,20}\b", raw)` on upper-cased text: the word runs of 3 to 20 characters. */
  function ProductCandidates(runs: seq<string>): (r: seq<string>)
    ensures forall k :: 0 <= k < |r| ==> 3 <= |r[k]| <= 20 && r[k] in runs
  {
    if runs == [] then []
    else (if 3 <= |runs[0]| <= 20 then [runs[0]] else []) + ProductCandidates(runs[1..])
  }

  /** The first token that is a product type. */
  function FirstProduct(tokens: seq<string>): (r: Option<string>)
    ensures r.None? <==> forall k :: 0 <= k < |tokens| ==> tokens[k] !in ProductTypes
    ensures r.Some? ==>
      exists k :: 0 <= k < |tokens| && tokens[k] == r.value && r.value in ProductTypes
        && forall j :: 0 <= j < k ==> tokens[j] !in ProductTypes
  {
    if tokens == [] then None
    else if tokens[0] in ProductTypes then Some(tokens[0])
    else
      var r := FirstProduct(tokens[1..]);
      assert forall k :: 1 <= k < |tokens| ==> tokens[k] == tokens[1..][k - 1];
      if r.Some? then
        var k :| 0 <= k < |tokens[1..]| && tokens[1..][k] == r.value && r.value in ProductTypes
          && forall j :: 0 <= j < k ==> tokens[1..][j] !in ProductTypes;
        assert tokens[k + 1] == r.value;
        r
      else r
  }

  /** The tenor bucket by precedence: 1W, then 1M or 2W, then 3M or 2M, then 6M, 9M, 12M or 1Y. */
  function TenorOf(raw: string): (r: string)
    ensures r in {"", "1W", "2W-1M", "1M-3M", "6M-1Y"}
    ensures r == "1W" <==> HasWord(raw, "1W")
    ensures r == "" <==>
      && !HasWord(raw, "1W") && !HasWord(raw, "1M") && !HasWord(raw, "2W")
      && !HasWord(raw, "3M") && !HasWord(raw, "2M") && !HasWord(raw, "6M") && !HasWord(raw, "9M")
      && !HasWord(raw, "12M") && !HasWord(raw, "1Y")
  {
    if HasWord(raw, "1W") then "1W"
    else if HasWord(raw, "1M") || HasWord(raw, "2W") then "2W-1M"
    else if HasWord(raw, "3M") || HasWord(raw, "2M") then "1M-3M"
    else if HasWord(raw, "6M") || HasWord(raw, "9M") || HasWord(raw, "12M") || HasWord(raw, "1Y") then "6M-1Y"
    else ""
  }

  /** The first of `keys` that occurs anywhere in `raw`. */
  function FirstContained(raw: string, keys: seq<string>): (r: Option<string>)
    ensures r.None? <==> forall k :: 0 <= k < |keys| ==> !Contains(raw, keys[k])
    ensures r.Some? ==>
      exists k :: 0 <= k < |keys| && keys[k] == r.value && Contains(raw, r.value)
        && forall j :: 0 <= j < k ==> !Contains(raw, keys[j])
  {
    if keys == [] then None
    else if Contains(raw, keys[0]) then Some(keys[0])
    else
      var r := FirstContained(raw, keys[1..]);
      assert forall k :: 1 <= k < |keys| ==> keys[k] == keys[1..][k - 1];
      if r.Some? then
        var k :| 0 <= k < |keys[1..]| && keys[1..][k] == r.value && Contains(raw, r.value)
          && forall j :: 0 <= j < k ==> !Contains(raw, keys[1..][j]);
        assert keys[k + 1] == r.value;
        r
      else r
  }

  /** The region named in free text: the value of the first `REGION_MAP` key that occurs in it. */
  function RegionIn(raw: string): (r: string)
    ensures r == "" || r in CanonicalRegions
  {
    RegionMapShape();
    match FirstContained(raw, RegionKeys)
    case Some(k) => RegionMap[k]
    case None => ""
  }

  /** `extract_structured_signals_from_text`. */
  function ExtractStructuredSignals(text: string): (s: Signals)
  {
    var raw := Upper(text);
    var pair := match FindPair(raw, 0)
      case Some(i) => NormalizeCcyPair(raw[i..i + 6])
      case None => "";
    var product := match FirstProduct(ProductCandidates(Runs(raw, IsWordChar)))
      case Some(p) => p
      case None => "";
    Signals(pair, product, TenorOf(raw), RegionIn(raw))
  }

  /** Six upper-case letters are their own normalised pair. */
  lemma NormalizeCcyPairOfLetters(w: string)
    requires |w| == 6 && forall i :: 0 <= i < 6 ==> IsUpperLetter(w[i])
    ensures NormalizeCcyPair(w) == w
  {
    KeepAll(w, IsLetter);
    assert Upper(w) == w;
    assert w[..6] == w;
  }

  /** The pair is the leftmost stand-alone run of six letters, or "" when there is none. */
  lemma ExtractedPair(text: string)
    ensures var sig, raw := ExtractStructuredSignals(text), Upper(text);
      && (sig.ccyPair == "" <==> forall i: nat :: i <= |raw| ==> !PairAt(raw, i))
      && (sig.ccyPair != "" ==>
            exists i: nat :: PairAt(raw, i) && raw[i..i + 6] == sig.ccyPair
              && forall j: nat :: j < i ==> !PairAt(raw, j))
  {
    var raw := Upper(text);
    var pair := FindPair(raw, 0);
    if pair.Some? {
      NormalizeCcyPairOfLetters(raw[pair.value..pair.value + 6]);
    }
  }

  /**
   * The product is a product type of 3 to 20 characters, so the two-letter types `NT` and
   * `OT` are never reported; the tenor and region are canonical values or "".
   */
  lemma ExtractedOtherFields(text: string)
    ensures var sig := ExtractStructuredSignals(text);
      && (sig.productType == "" || (sig.productType in ProductTypes && 3 <= |sig.productType| <= 20))
      && sig.productType != "NT" && sig.productType != "OT"
      && sig.tenorBucket in {"", "1W", "2W-1M", "1M-3M", "6M-1Y"}
      && (sig.region == "" || sig.region in CanonicalRegions)
  {
    var candidates := ProductCandidates(Runs(Upper(text), IsWordChar));
    var product := FirstProduct(candidates);
    if product.Some? {
      var k :| 0 <= k < |candidates| && candidates[k] == product.value;
      assert 3 <= |product.value| <= 20;
    }
  }
}
