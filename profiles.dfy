/**
 * Profile text weighting: each observation's weight is its signal-type weight times its
 * recency times its clamped source confidence, and the profile text repeats each
 * observation's normalised text about three times its weight.
 *
 * `SIGNAL_WEIGHTS`, `RECENCY_HALFLIFE_DAYS`, `date.today()` and `math.exp` enter as the
 * fields of a `ProfileEnv`.
 */
module Profiles {
  import opened Wrappers
  import opened Strings
  import Calendar
  import Features
  import Seqs

  /** The constants and outside functions the weighting reads. */
  datatype ProfileEnv = ProfileEnv(
    signalWeights: map<string, real>,
    halfLifeDays: real,
    today: Calendar.Date,
    exp: real -> real)

  predicate ValidEnv(env: ProfileEnv) {
    Calendar.Valid(env.today)
  }

  /** `math.exp` on the non-positive reals: 1 at 0 and within (0, 1] below it. */
  ghost predicate ExpBounded(exp: real -> real) {
    && exp(0.0) == 1.0
    && (forall x :: x <= 0.0 ==> 0.0 < exp(x) <= 1.0)
  }

  /** `math.exp` is increasing on the non-positive reals. */
  ghost predicate ExpMonotone(exp: real -> real) {
    forall x, y :: x <= y <= 0.0 ==> exp(x) <= exp(y)
  }

  /** The ISO format `%Y-%m-%d`. */
  const IsoDate: Calendar.DateFormat := Calendar.DateFormat(Calendar.YearMonthDay, '-')

  /** `_parse_obs_date`: the ISO date, or today when it does not parse. */
  function ParseObsDate(s: string, today: Calendar.Date): (d: Calendar.Date)
    requires Calendar.Valid(today)
    ensures Calendar.Valid(d)
    ensures Calendar.Strptime(s, IsoDate).None? ==> d == today
  {
    match Calendar.Strptime(s, IsoDate)
    case Some(d) => d
    case None => today
  }

  /** A date written in ISO form is read back. */
  lemma ParseObsDateIso(d: Calendar.Date, today: Calendar.Date)
    requires Calendar.Valid(d) && Calendar.Valid(today)
    ensures ParseObsDate(Calendar.IsoFormat(d), today) == d
  {
    Calendar.IsoRoundTrip(d);
  }

  /** The recency of an observation dated `d`: `exp(-days_old / half_life)`, or 1 without a positive half-life. */
  function RecencyAt(d: Calendar.Date, env: ProfileEnv): real
    requires ValidEnv(env) && Calendar.Valid(d)
  {
    var daysOld := Calendar.DaysOld(env.today, d);
    if env.halfLifeDays <= 0.0 then 1.0
    else env.exp(-(daysOld as real) / env.halfLifeDays)
  }

  /** `recency_weight`. */
  function RecencyWeight(obsDate: string, env: ProfileEnv): real
    requires ValidEnv(env)
  {
    RecencyAt(ParseObsDate(obsDate, env.today), env)
  }

  lemma NegRatio(n: real, h: real)
    requires n >= 0.0 && h > 0.0
    ensures -n / h <= 0.0
  {
    Features.RatioInUnit(0.0, h);
    Features.RatioMonotone(-n, 0.0, h);
  }

  /** Recency lies in (0, 1], and is 1 without a positive half-life or for today's and future dates. */
  lemma RecencyBounds(d: Calendar.Date, env: ProfileEnv)
    requires ValidEnv(env) && ExpBounded(env.exp) && Calendar.Valid(d)
    ensures 0.0 < RecencyAt(d, env) <= 1.0
    ensures env.halfLifeDays <= 0.0 ==> RecencyAt(d, env) == 1.0
    ensures Calendar.Ordinal(d) >= Calendar.Ordinal(env.today) ==> RecencyAt(d, env) == 1.0
  {
    if env.halfLifeDays > 0.0 {
      var h := env.halfLifeDays;
      var a := Calendar.DaysOld(env.today, d) as real;
      NegRatio(a, h);
      if Calendar.Ordinal(d) >= Calendar.Ordinal(env.today) {
        assert a == 0.0;
        assert -a / h == 0.0;
      }
    }
  }

  /** An older observation never weighs more than a newer one. */
  lemma RecencyMonotone(older: Calendar.Date, newer: Calendar.Date, env: ProfileEnv)
    requires ValidEnv(env) && ExpMonotone(env.exp)
    requires Calendar.Valid(older) && Calendar.Valid(newer)
    requires Calendar.Ordinal(older) <= Calendar.Ordinal(newer)
    ensures RecencyAt(older, env) <= RecencyAt(newer, env)
  {
    if env.halfLifeDays > 0.0 {
      var h := env.halfLifeDays;
      var a := Calendar.DaysOld(env.today, older) as real;
      var b := Calendar.DaysOld(env.today, newer) as real;
      assert b <= a;
      NegRatio(b, h);
      Features.RatioMonotone(-a, -b, h);
    }
  }

  /** A date that does not parse counts as today, so its recency is 1. */
  lemma RecencyWeightUnparsed(obsDate: string, env: ProfileEnv)
    requires ValidEnv(env) && ExpBounded(env.exp)
    requires Calendar.Strptime(obsDate, IsoDate).None?
    ensures RecencyWeight(obsDate, env) == 1.0
  {
    RecencyBounds(env.today, env);
  }

  /** `recency_weight` lies in (0, 1]. */
  lemma RecencyWeightBounds(obsDate: string, env: ProfileEnv)
    requires ValidEnv(env) && ExpBounded(env.exp)
    ensures 0.0 < RecencyWeight(obsDate, env) <= 1.0
  {
    RecencyBounds(ParseObsDate(obsDate, env.today), env);
  }

  /** The base weight of an observation type: `SIGNAL_WEIGHTS.get(obs_type, 0.6)`. */
  function BaseWeight(obsType: string, signalWeights: map<string, real>): real {
    if obsType in signalWeights then signalWeights[obsType] else 0.6
  }

  /** `observation_weight`. */
  function ObservationWeight(obsType: string, obsDate: string, sourceConfidence: real, env: ProfileEnv): real
    requires ValidEnv(env)
  {
    Weigh(BaseWeight(obsType, env.signalWeights), RecencyWeight(obsDate, env), sourceConfidence)
  }

  /** The base weight scaled by the recency and by the confidence clamped to [0, 1]. */
  function Weigh(base: real, recency: real, confidence: real): real {
    base * recency * Features.Clamp(confidence, 0.0, 1.0)
  }

  /** An observation weighs between 0 and its base weight. */
  lemma ObservationWeightBounds(obsType: string, obsDate: string, sourceConfidence: real, env: ProfileEnv)
    requires ValidEnv(env) && ExpBounded(env.exp)
    requires BaseWeight(obsType, env.signalWeights) >= 0.0
    ensures 0.0 <= ObservationWeight(obsType, obsDate, sourceConfidence, env) <= BaseWeight(obsType, env.signalWeights)
  {
    RecencyWeightBounds(obsDate, env);
    WeighBounds(BaseWeight(obsType, env.signalWeights), RecencyWeight(obsDate, env), sourceConfidence);
  }

  lemma WeighBounds(base: real, recency: real, confidence: real)
    requires base >= 0.0 && 0.0 <= recency <= 1.0
    ensures 0.0 <= Weigh(base, recency, confidence) <= base
  {
    Features.MulBounds(base, recency);
    var p := base * recency;
    if confidence < 0.0 {
      assert Weigh(base, recency, confidence) == p * 0.0;
    } else if confidence > 1.0 {
      assert Weigh(base, recency, confidence) == p * 1.0;
    } else {
      Features.MulBounds(p, confidence);
      assert Weigh(base, recency, confidence) == p * confidence;
    }
  }

  /**
   * A confidence outside [0, 1] counts as the nearest end: none gives weight 0, more than
   * full gives the weight of full confidence.
   */
  lemma ObservationWeightConfidence(obsType: string, obsDate: string, sourceConfidence: real, env: ProfileEnv)
    requires ValidEnv(env)
    ensures sourceConfidence <= 0.0 ==> ObservationWeight(obsType, obsDate, sourceConfidence, env) == 0.0
    ensures sourceConfidence >= 1.0 ==>
      ObservationWeight(obsType, obsDate, sourceConfidence, env) == ObservationWeight(obsType, obsDate, 1.0, env)
  {
    WeighClamps(BaseWeight(obsType, env.signalWeights), RecencyWeight(obsDate, env), sourceConfidence);
  }

  lemma WeighClamps(base: real, recency: real, confidence: real)
    ensures confidence <= 0.0 ==> Weigh(base, recency, confidence) == 0.0
    ensures confidence >= 1.0 ==> Weigh(base, recency, confidence) == Weigh(base, recency, 1.0)
  {
    if confidence <= 0.0 {
      assert Features.Clamp(confidence, 0.0, 1.0) == 0.0;
    } else if confidence >= 1.0 {
      assert Features.Clamp(confidence, 0.0, 1.0) == 1.0;
    }
  }

  // ---------------------------------------------------------------------------
  // Rounding
  // ---------------------------------------------------------------------------

  /** Python's `round(x)` on a real: to the nearest integer, ties to the even one. */
  function RoundHalfEven(x: real): (n: int)
    ensures x - 0.5 <= n as real <= x + 0.5
  {
    var f := x.Floor;
    var frac := x - f as real;
    if frac < 0.5 then f
    else if frac > 0.5 then f + 1
    else if f % 2 == 0 then f else f + 1
  }

  /** A tie rounds to an even integer. */
  lemma RoundHalfEvenTies(x: real)
    requires x - x.Floor as real == 0.5
    ensures RoundHalfEven(x) % 2 == 0
  {
  }

  /** `max(1, int(round(w * 3)))`: how often an observation's text is repeated. */
  function Repeats(w: real): (n: nat)
    ensures n >= 1
    ensures w * 3.0 >= 1.5 ==> w * 3.0 - 0.5 <= n as real <= w * 3.0 + 0.5
  {
    var r := RoundHalfEven(w * 3.0);
    if r >= 1 then r else 1
  }

  // ---------------------------------------------------------------------------
  // weighted_text_from_observations
  // ---------------------------------------------------------------------------

  /** An observation row. */
  datatype Observation = Observation(obsType: string, obsText: string, obsDate: string, sourceConfidence: real)

  /** The chunks one observation adds: none for an empty normalised text. */
  function Contribution(o: Observation, env: ProfileEnv, normalizer: string -> string): seq<string>
    requires ValidEnv(env)
  {
    var normalized := normalizer(o.obsText);
    if normalized == [] then []
    else Repeat(normalized, Repeats(ObservationWeight(o.obsType, o.obsDate, o.sourceConfidence, env)))
  }

  /** An observation adds nothing exactly when its normalised text is empty, and otherwise only that text. */
  lemma ContributionShape(o: Observation, env: ProfileEnv, normalizer: string -> string)
    requires ValidEnv(env)
    ensures normalizer(o.obsText) == [] <==> Contribution(o, env, normalizer) == []
    ensures forall k :: 0 <= k < |Contribution(o, env, normalizer)| ==>
      Contribution(o, env, normalizer)[k] == normalizer(o.obsText)
  {
  }

  /** `contribution` of each observation under a fixed environment and normaliser. */
  function ContributionOf(env: ProfileEnv, normalizer: string -> string): Observation --> seq<string> {
    (o: Observation) requires ValidEnv(env) => Contribution(o, env, normalizer)
  }

  /** The chunks of all observations, in order. */
  function Chunks(obs: seq<Observation>, env: ProfileEnv, normalizer: string -> string): seq<string>
    requires ValidEnv(env)
  {
    Seqs.FlatMap(obs, ContributionOf(env, normalizer))
  }

  /** What `weighted_text_from_observations` returns. */
  function WeightedText(obs: seq<Observation>, env: ProfileEnv, normalizer: string -> string): string
    requires ValidEnv(env)
  {
    Strip(Join(Chunks(obs, env, normalizer), " "))
  }

  /** `weighted_text_from_observations`. */
  method WeightedTextFromObservations(obs: seq<Observation>, env: ProfileEnv, normalizer: string -> string)
    returns (r: string)
    requires ValidEnv(env)
    ensures r == WeightedText(obs, env, normalizer)
  {
    var chunks: seq<string> := [];
    for i := 0 to |obs|
      invariant chunks == Chunks(obs[..i], env, normalizer)
    {
      Seqs.FlatMapPrefix(obs, ContributionOf(env, normalizer), i);
      var normalized := normalizer(obs[i].obsText);
      if normalized == [] {
        continue;
      }
      var w := ObservationWeight(obs[i].obsType, obs[i].obsDate, obs[i].sourceConfidence, env);
      var repeats := Repeats(w);
      chunks := chunks + Repeat(normalized, repeats);
    }
    assert obs[..|obs|] == obs;
    r := Strip(Join(chunks, " "));
  }

  /** The chunks of two lists of observations are the chunks of the first, then those of the second. */
  lemma ChunksAppend(a: seq<Observation>, b: seq<Observation>, env: ProfileEnv,
                       normalizer: string -> string)
    requires ValidEnv(env)
    ensures Chunks(a + b, env, normalizer) == Chunks(a, env, normalizer) + Chunks(b, env, normalizer)
  {
    Seqs.FlatMapAppend(a, b, ContributionOf(env, normalizer));
  }

  /**
   * The chunks of one observation are what it adds: its normalised text at least once when
   * that is non-empty.
   */
  lemma ChunksOfOne(o: Observation, env: ProfileEnv, normalizer: string -> string)
    requires ValidEnv(env)
    ensures Chunks([o], env, normalizer) == Contribution(o, env, normalizer)
    ensures normalizer(o.obsText) != [] ==> |Chunks([o], env, normalizer)| >= 1
  {
    ContributionShape(o, env, normalizer);
    Seqs.FlatMapOne(o, ContributionOf(env, normalizer));
  }

  /** No observations give the empty profile text. */
  lemma WeightedTextOfNone(env: ProfileEnv, normalizer: string -> string)
    requires ValidEnv(env)
    ensures WeightedText([], env, normalizer) == []
  {
    assert Chunks([], env, normalizer) == [];
  }

  /** Every chunk is the non-empty normalised text of some observation. */
  lemma {:induction false} ChunksFromObservations(obs: seq<Observation>, env: ProfileEnv, normalizer: string -> string)
    requires ValidEnv(env)
    ensures forall k :: 0 <= k < |Chunks(obs, env, normalizer)| ==>
      Chunks(obs, env, normalizer)[k] != []
      && exists i :: 0 <= i < |obs| && Chunks(obs, env, normalizer)[k] == normalizer(obs[i].obsText)
    decreases |obs|
  {
    if obs != [] {
      var p := obs[..|obs| - 1];
      ChunksFromObservations(p, env, normalizer);
      var cs := Chunks(obs, env, normalizer);
      var cp := Chunks(p, env, normalizer);
      ContributionShape(obs[|obs| - 1], env, normalizer);
      forall k | 0 <= k < |cs|
        ensures cs[k] != [] && exists i :: 0 <= i < |obs| && cs[k] == normalizer(obs[i].obsText)
      {
        if k < |cp| {
          var i :| 0 <= i < |p| && cp[k] == normalizer(p[i].obsText);
          assert obs[i] == p[i];
        } else {
          assert cs[k] == normalizer(obs[|obs| - 1].obsText);
        }
      }
    }
  }

  /** A join of non-empty parts starts with the first part's first character and ends with the last part's last. */
  lemma {:induction false} JoinEnds(parts: seq<string>, sep: string)
    requires |parts| > 0 && forall k :: 0 <= k < |parts| ==> parts[k] != []
    ensures |Join(parts, sep)| > 0
    ensures Join(parts, sep)[0] == parts[0][0]
    ensures Join(parts, sep)[|Join(parts, sep)| - 1] == parts[|parts| - 1][|parts[|parts| - 1]| - 1]
    decreases |parts|
  {
    if |parts| > 1 {
      JoinEnds(parts[1..], sep);
    }
  }

  /**
   * When the normaliser never returns text with whitespace at either end (as
   * `normalize_text` does not), the final `strip()` changes nothing.
   */
  lemma WeightedTextNeedsNoStrip(obs: seq<Observation>, env: ProfileEnv, normalizer: string -> string)
    requires ValidEnv(env)
    requires forall i :: 0 <= i < |obs| ==> var n := normalizer(obs[i].obsText);
      n == [] || (!IsSpace(n[0]) && !IsSpace(n[|n| - 1]))
    ensures WeightedText(obs, env, normalizer) == Join(Chunks(obs, env, normalizer), " ")
  {
    var cs := Chunks(obs, env, normalizer);
    ChunksFromObservations(obs, env, normalizer);
    if cs != [] {
      JoinEnds(cs, " ");
      var i :| 0 <= i < |obs| && cs[0] == normalizer(obs[i].obsText);
      var j :| 0 <= j < |obs| && cs[|cs| - 1] == normalizer(obs[j].obsText);
    }
    StripUnchanged(Join(cs, " "));
  }
}
