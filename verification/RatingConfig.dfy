/** rating_config: its validation, and the two lookups of a tier's base rating that the
    incremental path and the rebuild use independently of each other. */
module RatingConfig {
  import opened Glicko
  import opened Options

  datatype AbsentPolicy = SkipGame | SkipPlayer | Count

  datatype PlaceholderPolicy = RateAsUnknown | SkipUnknown

  datatype TierInit = TierInit(cls: string, rating: real)

  /** A class band; a missing end is unbounded. */
  datatype Band = Band(lo: Option<real>, hi: Option<real>)

  datatype Config = Config(
    params: Params,
    phaseWeights: map<string, real>,
    ingestLockedOnly: bool,
    autoReconcile: bool,
    absentPolicy: Option<AbsentPolicy>,            // None: a value that is no known policy
    placeholderPolicy: Option<PlaceholderPolicy>,
    decayThresholdDays: int,
    decayPerWeek: real,
    seasonStart: Option<int>,            // day number; None: blank
    sessionTierInit: map<string, TierInit>,
    classBands: map<string, Band>)

  const TIERS: set<string> := {"D", "D+", "C", "C+", "B", "B+", "A", "A+"}

  predicate ValidTier(tier: string) { tier in TIERS }

  predicate ValidParams(p: Params) {
    && p.ratingMin <= p.initialRating <= p.ratingMax
    && p.rdMin <= p.initialRD <= p.rdMax
    && 1.0 <= p.rdMin <= p.rdMax
    && 0.0 <= p.rdGrowthPerDay
    && p.ratingMin < p.ratingMax
    && 0.0 < p.maxDelta
    && 0.0 <= p.movmScale <= p.movmCap
  }

  predicate ValidInit(tier: string, init: TierInit) {
    ValidTier(tier) && ValidTier(init.cls) && init.rating > 0.0
  }

  predicate ValidBand(tier: string, band: Band) {
    ValidTier(tier) && (band.lo.Some? && band.hi.Some? ==> band.lo.value < band.hi.value)
  }

  /** What an accepted configuration satisfies. */
  predicate Valid(c: Config) {
    && ValidParams(c.params)
    && c.phaseWeights != map[]
    && (forall phase <- c.phaseWeights :: c.phaseWeights[phase] > 0.0)
    && c.absentPolicy.Some? && c.placeholderPolicy.Some?
    && c.decayThresholdDays > 0 && c.decayPerWeek > 0.0 && c.seasonStart.Some?
    && |c.sessionTierInit| == 8
    && (forall tier <- c.sessionTierInit :: ValidInit(tier, c.sessionTierInit[tier]))
    && |c.classBands| == 8
    && (forall tier <- c.classBands :: ValidBand(tier, c.classBands[tier]))
  }

  /** Validate: checks in the program's order, each map walked in whatever order it yields. */
  method Validate(c: Config) returns (ok: bool)
    ensures ok <==> Valid(c)
  {
    var p := c.params;
    if !(p.initialRating >= p.ratingMin && p.initialRating <= p.ratingMax) { return false; }
    if !(p.initialRD >= p.rdMin && p.initialRD <= p.rdMax) { return false; }
    if p.rdMin < 1.0 || p.rdMax < p.rdMin { return false; }
    if p.rdGrowthPerDay < 0.0 { return false; }
    if p.ratingMin >= p.ratingMax { return false; }
    if p.maxDelta <= 0.0 { return false; }
    if p.movmCap < p.movmScale || p.movmScale < 0.0 { return false; }
    if |c.phaseWeights| == 0 { return false; }
    var phases := c.phaseWeights.Keys;
    while phases != {}
      invariant phases <= c.phaseWeights.Keys
      invariant forall phase <- c.phaseWeights.Keys - phases :: c.phaseWeights[phase] > 0.0
    {
      var phase :| phase in phases;
      if c.phaseWeights[phase] <= 0.0 { return false; }
      phases := phases - {phase};
    }
    if c.absentPolicy.None? || c.placeholderPolicy.None? { return false; }
    if c.decayThresholdDays <= 0 || c.decayPerWeek <= 0.0 { return false; }
    if c.seasonStart.None? { return false; }
    if |c.sessionTierInit| != 8 { return false; }
    var inits := c.sessionTierInit.Keys;
    while inits != {}
      invariant inits <= c.sessionTierInit.Keys
      invariant forall tier <- c.sessionTierInit.Keys - inits :: ValidInit(tier, c.sessionTierInit[tier])
    {
      var tier :| tier in inits;
      var init := c.sessionTierInit[tier];
      if !ValidTier(tier) || !ValidTier(init.cls) || init.rating <= 0.0 { return false; }
      inits := inits - {tier};
    }
    if |c.classBands| != 8 { return false; }
    var bands := c.classBands.Keys;
    while bands != {}
      invariant bands <= c.classBands.Keys
      invariant forall tier <- c.classBands.Keys - bands :: ValidBand(tier, c.classBands[tier])
    {
      var tier :| tier in bands;
      var band := c.classBands[tier];
      if !ValidTier(tier) { return false; }
      if band.lo.Some? && band.hi.Some? && band.lo.value >= band.hi.value { return false; }
      bands := bands - {tier};
    }
    return true;
  }

  /** FormingForTier: the base used when a player is first rated. */
  function FormingForTier(c: Config, tier: string): Option<real> {
    if tier in c.sessionTierInit then Some(c.sessionTierInit[tier].rating) else None
  }

  /** MidRatingForTier: the base used by the rebuild, with its fallback to the class band. */
  function MidRatingForTier(c: Config, tier: string): Option<real> {
    if tier in c.sessionTierInit then Some(c.sessionTierInit[tier].rating)
    else if tier !in c.classBands then None
    else
      var band := c.classBands[tier];
      if band.lo.Some? && band.hi.Some? then Some(Round((band.lo.value + band.hi.value) / 2.0) as real)
      else if band.lo.Some? then Some(band.lo.value + 50.0)
      else if band.hi.Some? then Some(band.hi.value - 50.0)
      else None
  }

  /** Eight valid keys are all eight tiers. */
  lemma TierTablesAreComplete(c: Config)
    requires Valid(c)
    ensures c.sessionTierInit.Keys == TIERS && c.classBands.Keys == TIERS
  {
    assert |TIERS| == 8;
    SubsetOfSameSize(c.sessionTierInit.Keys, TIERS);
    SubsetOfSameSize(c.classBands.Keys, TIERS);
  }

  lemma SubsetOfSameSize<T>(a: set<T>, b: set<T>)
    requires a <= b && |a| == |b|
    ensures a == b
  {
    assert |b - a| == |b| - |a|;
  }

  /** The two base-rating lookups agree on every tier string, valid or not: under a valid
      configuration the band fallback of MidRatingForTier is never taken. */
  lemma BaseRatingsAgree(c: Config, tier: string)
    requires Valid(c)
    ensures FormingForTier(c, tier) == MidRatingForTier(c, tier)
    ensures FormingForTier(c, tier).Some? <==> ValidTier(tier)
  {
    TierTablesAreComplete(c);
  }
}
