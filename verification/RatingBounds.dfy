/** What the arithmetic guarantees carry over to every run of the rating transactions. */
module RatingBounds {
  import opened Glicko
  import opened GlickoLaws
  import opened RatingConfig
  import opened RatingMatch
  import opened RatingFold
  import opened RatingLog
  import opened RatingRuns
  import opened RatingHistory

  /** The environment of the program: Glicko arithmetic over the configured parameters. */
  ghost predicate GlickoEnv(env: Env, m: Maths) {
    && Lawful(m) && env.arith == GlickoCalc(m, env.cfg.params)
    && Valid(env.cfg) && !env.cfg.autoReconcile && GoodParams(env.cfg.params)
    && BasesInRange(env.cfg)
  }

  /** Validate does not compare tier ratings with the rating range: that they lie in it is a
      property of the configured values. */
  ghost predicate BasesInRange(cfg: Config) {
    && InRange(cfg.params, State(cfg.params.initialRating, cfg.params.initialRD))
    && (forall tier <- cfg.sessionTierInit :: InRange(cfg.params, State(cfg.sessionTierInit[tier].rating, cfg.params.initialRD)))
  }

  lemma GlickoEnvIsSound(env: Env, m: Maths)
    requires GlickoEnv(env, m)
    ensures Sound(env)
  {
    GlickoIsOrderBlind(m, env.cfg.params);
  }

  ghost predicate RowInRange(p: Params, row: Row) {
    && InRange(p, State(row.rating, row.rd))
    && row.rating <= row.peak <= p.ratingMax
    && row.wins + row.losses <= row.games
  }

  lemma BaseRowInRange(env: Env, id: Id)
    requires BasesInRange(env.cfg)
    ensures RowInRange(env.cfg.params, FormingRow(env, id)) && FormingRow(env, id).games == 0
  {}

  lemma PlayedRowInRange(m: Maths, p: Params, row: Row, opps: seq<State>, out: real, t: Terms)
    requires GoodParams(p) && RowInRange(p, row)
    ensures RowInRange(p, Played(GlickoCalc(m, p), row, opps, out, t))
  {
    UpdateStaysInRange(m, p, Grown(GlickoCalc(m, p), row, t.date), opps, out, t.movm, t.weight);
  }

  lemma {:induction false} ReplayInRange(env: Env, m: Maths, log: seq<Entry>, id: Id)
    requires GlickoEnv(env, m)
    ensures RowInRange(env.cfg.params, Get(Base(env), Replay(env.arith, Base(env), log), id))
  {
    if |log| == 0 {
      BaseRowInRange(env, id);
    } else {
      var front, last := log[..|log| - 1], log[|log| - 1];
      var rows := Replay(env.arith, Base(env), front);
      ReplayInRange(env, m, front, id);
      if TwoSided(last) {
        GetOfStep(env.arith, Base(env), rows, last, id);
        StepRowInRange(env, m, rows, last, id);
      }
    }
  }

  lemma StepRowInRange(env: Env, m: Maths, rows: map<Id, Row>, en: Entry, id: Id)
    requires GlickoEnv(env, m) && RowInRange(env.cfg.params, Get(Base(env), rows, id))
    ensures RowInRange(env.cfg.params, StepRow(env.arith, Base(env), rows, en, id))
  {
    var row, p, out := Get(Base(env), rows, id), env.cfg.params, OutcomeA(en.ev.scoreA, en.ev.scoreB);
    var t := TermsOf(env.arith, en.ev);
    PlayedRowInRange(m, p, row, Facing(Base(env), rows, en.sideB), out, t);
    PlayedRowInRange(m, p, row, Facing(Base(env), rows, en.sideA), 1.0 - out, t);
  }

  ghost predicate DeltaRowInRange(p: Params, d: Delta) {
    DeltaInRange(p, d.delta) && p.ratingMin <= d.newRating <= p.ratingMax && OnGrid(d.newRating)
  }

  lemma StepDeltaInRange(env: Env, m: Maths, rows: map<Id, Row>, en: Entry, id: Id)
    requires GlickoEnv(env, m)
    ensures DeltaRowInRange(env.cfg.params, StepDelta(env.arith, Base(env), rows, en, id))
  {
    var row, out, t := Get(Base(env), rows, id), OutcomeA(en.ev.scoreA, en.ev.scoreB), TermsOf(env.arith, en.ev);
    var st, p := Grown(env.arith, row, t.date), env.cfg.params;
    UpdateStaysInRange(m, p, st, Facing(Base(env), rows, en.sideB), out, t.movm, t.weight);
    UpdateStaysInRange(m, p, st, Facing(Base(env), rows, en.sideA), 1.0 - out, t.movm, t.weight);
  }

  lemma {:induction false} ReplayDeltasInRange(env: Env, m: Maths, log: seq<Entry>, k: (Key, Id))
    requires GlickoEnv(env, m) && k in ReplayDeltas(env.arith, Base(env), log)
    ensures DeltaRowInRange(env.cfg.params, ReplayDeltas(env.arith, Base(env), log)[k])
  {
    var front, last := log[..|log| - 1], log[|log| - 1];
    var rows := Replay(env.arith, Base(env), front);
    if k in StepDeltas(env.arith, Base(env), rows, last) {
      StepDeltaInRange(env, m, rows, last, k.1);
    } else {
      ReplayDeltasInRange(env, m, front, k);
    }
  }

  /** Through every run every rating lies in its range and on the 0.01 grid, every deviation too,
      the peak bounds the rating, and no game moved anybody by more than the cap. */
  lemma RunsStayInRange(env: Env, m: Maths, ops: seq<Op>)
    requires GlickoEnv(env, m) && AdmissibleOps(env, ops)
    ensures forall id <- Run(env, ops).players :: RowInRange(env.cfg.params, Run(env, ops).players[id])
    ensures forall k <- Run(env, ops).deltas :: DeltaRowInRange(env.cfg.params, Run(env, ops).deltas[k])
  {
    GlickoEnvIsSound(env, m);
    RunsAreConsistent(env, ops);
    var db := Run(env, ops);
    forall id | id in db.players ensures RowInRange(env.cfg.params, db.players[id]) {
      ReplayInRange(env, m, StoredLog(db), id);
    }
    forall k | k in db.deltas ensures DeltaRowInRange(env.cfg.params, db.deltas[k]) {
      ReplayDeltasInRange(env, m, StoredLog(db), k);
    }
  }

  // ---------------------------------------------------------------- counters

  function Games(log: seq<Entry>, id: Id): nat {
    if |log| == 0 then 0
    else
      var en := log[|log| - 1];
      Games(log[..|log| - 1], id) + (if TwoSided(en) && id in en.sideA + en.sideB then 1 else 0)
  }

  function Wins(log: seq<Entry>, id: Id): nat {
    if |log| == 0 then 0
    else
      var en := log[|log| - 1];
      Wins(log[..|log| - 1], id)
      + (if TwoSided(en) && ((id in en.sideA && en.ev.scoreA > en.ev.scoreB)
                          || (id !in en.sideA && id in en.sideB && en.ev.scoreA < en.ev.scoreB)) then 1 else 0)
  }

  function Losses(log: seq<Entry>, id: Id): nat {
    if |log| == 0 then 0
    else
      var en := log[|log| - 1];
      Losses(log[..|log| - 1], id)
      + (if TwoSided(en) && ((id in en.sideA && en.ev.scoreA < en.ev.scoreB)
                          || (id !in en.sideA && id in en.sideB && en.ev.scoreA > en.ev.scoreB)) then 1 else 0)
  }

  /** games_played, wins and losses count the log: every logged game once, whatever was reverted or
      rebuilt on the way. */
  lemma {:induction false} CountersCountTheLog(env: Env, log: seq<Entry>, id: Id)
    ensures var row := Get(Base(env), Replay(env.arith, Base(env), log), id);
            row.games == Games(log, id) && row.wins == Wins(log, id) && row.losses == Losses(log, id)
  {
    if |log| > 0 {
      var front, last := log[..|log| - 1], log[|log| - 1];
      CountersCountTheLog(env, front, id);
      if TwoSided(last) { GetOfStep(env.arith, Base(env), Replay(env.arith, Base(env), front), last, id); }
    }
  }

  lemma RunsCountTheLog(env: Env, ops: seq<Op>, id: Id)
    requires Sound(env) && AdmissibleOps(env, ops) && id in Run(env, ops).players
    ensures Run(env, ops).players[id].games == Games(StoredLog(Run(env, ops)), id)
    ensures Run(env, ops).players[id].wins == Wins(StoredLog(Run(env, ops)), id)
    ensures Run(env, ops).players[id].losses == Losses(StoredLog(Run(env, ops)), id)
  {
    RunsAreConsistent(env, ops);
    CountersCountTheLog(env, StoredLog(Run(env, ops)), id);
  }

  // ---------------------------------------------------------------- every update is a real one

  lemma {:induction false} GateIsPart(env: Env, date: int, ids: seq<Id>)
    ensures |Gate(env, date, ids)| <= |ids|
  {
    if |ids| > 0 { GateIsPart(env, date, ids[..|ids| - 1]); }
  }

  /** No update call of an ingest has an empty list of opponents, so the division by a zero d^2
      is never reached, whatever the rows hold. */
  lemma IngestAlwaysFacesSomebody(env: Env, m: Maths, rows: map<Id, Row>, game: RawMatch, u: Upd)
    requires Lawful(m) && HasBothSides(env, game) && u in MatchUpdates(env, rows, game)
    ensures u.opps != [] && forall r: real :: DSq(m, Sum(DTerm(m, r), u.opps)) > 0.0
  {
    GateIsPart(env, game.date, Fielded(env, game, A));
    GateIsPart(env, game.date, Fielded(env, game, B));
    assert u.opps == Opponents(env, rows, game, A) || u.opps == Opponents(env, rows, game, B);
    FacingSomebodyMatters(m, u.opps);
  }

  /** Nor has an update call of a rebuild. */
  lemma ReplayAlwaysFacesSomebody(base: Id -> Row, m: Maths, rows: map<Id, Row>, en: Entry)
    requires Lawful(m) && TwoSided(en)
    ensures forall r: real :: DSq(m, Sum(DTerm(m, r), Facing(base, rows, en.sideA))) > 0.0
    ensures forall r: real :: DSq(m, Sum(DTerm(m, r), Facing(base, rows, en.sideB))) > 0.0
  {
    FacingSomebodyMatters(m, Facing(base, rows, en.sideA));
    FacingSomebodyMatters(m, Facing(base, rows, en.sideB));
  }

  lemma FacingSomebodyMatters(m: Maths, opps: seq<State>)
    requires Lawful(m) && opps != []
    ensures forall r: real :: DSq(m, Sum(DTerm(m, r), opps)) > 0.0
  {
    forall r: real ensures DSq(m, Sum(DTerm(m, r), opps)) > 0.0 {
      SumSigns(m, r, opps);
      PrecisionForm(m, 1.0, Sum(DTerm(m, r), opps));
    }
  }

  /** A game of a run takes no player's deviation above what idle growth, rounded, had made it. */
  lemma PlayingTightensDeviations(env: Env, m: Maths, rows: map<Id, Row>, en: Entry, id: Id)
    requires GlickoEnv(env, m) && TwoSided(en) && id in en.sideA + en.sideB
    requires RowInRange(env.cfg.params, Get(Base(env), rows, id))
    ensures StepRow(env.arith, Base(env), rows, en, id).rd <= Round2(Grown(env.arith, Get(Base(env), rows, id), en.ev.date).rd)
  {
    var row, p, out := Get(Base(env), rows, id), env.cfg.params, OutcomeA(en.ev.scoreA, en.ev.scoreB);
    var t := TermsOf(env.arith, en.ev);
    var st := Grown(env.arith, row, t.date);
    GrownInRange(m, p, row, t.date);
    PlayingNeverAddsUncertainty(m, p, st, Facing(Base(env), rows, en.sideB), out, t.movm, t.weight);
    PlayingNeverAddsUncertainty(m, p, st, Facing(Base(env), rows, en.sideA), 1.0 - out, t.movm, t.weight);
  }

  lemma GrownInRange(m: Maths, p: Params, row: Row, date: int)
    requires Lawful(m) && GoodParams(p) && RowInRange(p, row)
    ensures p.rdMin <= Grown(GlickoCalc(m, p), row, date).rd <= p.rdMax
  {
    if row.last.Some? { GrowthStaysInRange(m, p, row.rd, date - row.last.value); }
  }
}
