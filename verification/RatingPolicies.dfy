/** placeholder_policy is validated, and then never looked at: no transaction, and so no history,
    depends on it. */
module RatingPolicies {
  import opened Options
  import opened RatingConfig
  import opened RatingMatch
  import opened RatingFold
  import opened RatingLog
  import opened RatingHistory

  /** The same program under another policy. */
  function Under(env: Env, policy: Option<PlaceholderPolicy>): Env {
    env.(cfg := env.cfg.(placeholderPolicy := policy))
  }

  // ---------------------------------------------------------------- base rows that agree everywhere

  ghost predicate SameRows(b1: Id -> Row, b2: Id -> Row) { forall id: Id :: b1(id) == b2(id) }

  lemma SameStates(b1: Id -> Row, b2: Id -> Row, rows: map<Id, Row>, ids: seq<Id>)
    requires SameRows(b1, b2)
    ensures States(b1, rows, ids) == States(b2, rows, ids)
  {
  }

  lemma {:induction false} SameUpdates(c: Calc, b1: Id -> Row, b2: Id -> Row, rows: map<Id, Row>, key: Key, us: seq<Upd>, t: Terms)
    requires SameRows(b1, b2)
    ensures ApplyAll(c, b1, rows, us, t) == ApplyAll(c, b2, rows, us, t)
    ensures DeltasAll(c, b1, rows, key, us, t) == DeltasAll(c, b2, rows, key, us, t)
  {
    if |us| > 0 { SameUpdates(c, b1, b2, rows, key, us[..|us| - 1], t); }
  }

  lemma SameStepRow(c: Calc, b1: Id -> Row, b2: Id -> Row, rows: map<Id, Row>, en: Entry, id: Id)
    requires SameRows(b1, b2)
    ensures StepRow(c, b1, rows, en, id) == StepRow(c, b2, rows, en, id)
    ensures StepDelta(c, b1, rows, en, id) == StepDelta(c, b2, rows, en, id)
  {
    SameStates(b1, b2, rows, SortedIds(en.sideA));
    SameStates(b1, b2, rows, SortedIds(en.sideB));
    assert Get(b1, rows, id) == Get(b2, rows, id);
  }

  lemma SameStep(c: Calc, b1: Id -> Row, b2: Id -> Row, rows: map<Id, Row>, en: Entry)
    requires SameRows(b1, b2)
    ensures Step(c, b1, rows, en) == Step(c, b2, rows, en)
    ensures StepDeltas(c, b1, rows, en) == StepDeltas(c, b2, rows, en)
  {
    forall id: Id { SameStepRow(c, b1, b2, rows, en, id); }
  }

  lemma {:induction false} SameReplay(c: Calc, b1: Id -> Row, b2: Id -> Row, log: seq<Entry>)
    requires SameRows(b1, b2)
    ensures Replay(c, b1, log) == Replay(c, b2, log)
    ensures ReplayDeltas(c, b1, log) == ReplayDeltas(c, b2, log)
  {
    if |log| > 0 {
      SameReplay(c, b1, b2, log[..|log| - 1]);
      SameStep(c, b1, b2, Replay(c, b1, log[..|log| - 1]), log[|log| - 1]);
    }
  }

  lemma SameFilled(b1: Id -> Row, b2: Id -> Row, rows: map<Id, Row>, ids: set<Id>)
    requires SameRows(b1, b2)
    ensures Filled(b1, rows, ids) == Filled(b2, rows, ids)
  {
  }

  lemma SameBases(env: Env, policy: Option<PlaceholderPolicy>, rated: set<Id>)
    ensures SameRows(Base(env), Base(Under(env, policy)))
    ensures SameRows(RebuildBase(env, rated), RebuildBase(Under(env, policy), rated))
  {
    forall id: Id
      ensures FormingRow(env, id) == FormingRow(Under(env, policy), id) && MidRow(env, id) == MidRow(Under(env, policy), id)
    {
    }
  }

  // ---------------------------------------------------------------- choosing the matches

  lemma {:induction false} SamePlayable(cfg: Config, policy: Option<PlaceholderPolicy>, ms: seq<RawMatch>)
    ensures var other := cfg.(placeholderPolicy := policy);
      Playable(cfg, ms) == Playable(other, ms) && Unplayable(cfg, ms) == Unplayable(other, ms)
  {
    if |ms| > 0 { SamePlayable(cfg, policy, ms[..|ms| - 1]); }
  }

  lemma {:induction false} SameResolved(env: Env, policy: Option<PlaceholderPolicy>, ps: seq<RawPlayer>)
    ensures ResolveAll(env, ps) == ResolveAll(Under(env, policy), ps)
  {
    if |ps| > 0 { SameResolved(env, policy, ps[..|ps| - 1]); }
  }

  lemma {:induction false} SameGate(env: Env, policy: Option<PlaceholderPolicy>, date: int, ids: seq<Id>)
    ensures Gate(env, date, ids) == Gate(Under(env, policy), date, ids)
  {
    if |ids| > 0 { SameGate(env, policy, date, ids[..|ids| - 1]); }
  }

  lemma SameSides(env: Env, policy: Option<PlaceholderPolicy>, m: RawMatch, team: Team)
    ensures Fielded(env, m, team) == Fielded(Under(env, policy), m, team)
    ensures Eligible(env, m, team) == Eligible(Under(env, policy), m, team)
  {
    SameResolved(env, policy, TeamPlayers(env, m, team));
    SameGate(env, policy, m.date, Fielded(env, m, team));
  }

  lemma {:induction false} SameCounts(env: Env, policy: Option<PlaceholderPolicy>, ms: seq<RawMatch>)
    ensures Processed(env, ms) == Processed(Under(env, policy), ms)
    ensures Unrated(env, ms) == Unrated(Under(env, policy), ms)
  {
    if |ms| > 0 {
      SameCounts(env, policy, ms[..|ms| - 1]);
      SameSides(env, policy, ms[|ms| - 1], A);
      SameSides(env, policy, ms[|ms| - 1], B);
    }
  }

  lemma SameNames(env: Env, policy: Option<PlaceholderPolicy>, ms: seq<RawMatch>)
    ensures Named(env, ms) == Named(Under(env, policy), ms)
    ensures RatedNames(env, ms) == RatedNames(Under(env, policy), ms)
  {
    forall p ensures Resolve(env, p) == Resolve(Under(env, policy), p) {}
  }

  // ---------------------------------------------------------------- recording

  lemma SameOpponentsSeen(env: Env, policy: Option<PlaceholderPolicy>, rows: map<Id, Row>, m: RawMatch, team: Team)
    ensures Opponents(env, rows, m, team) == Opponents(Under(env, policy), rows, m, team)
  {
    SameSides(env, policy, m, team);
    SameBases(env, policy, {});
    SameStates(Base(env), Base(Under(env, policy)), rows, Fielded(env, m, team));
  }

  lemma SameMatchUpdates(env: Env, policy: Option<PlaceholderPolicy>, rows: map<Id, Row>, m: RawMatch)
    ensures MatchUpdates(env, rows, m) == MatchUpdates(Under(env, policy), rows, m)
    ensures HasBothSides(env, m) == HasBothSides(Under(env, policy), m)
  {
    SameSides(env, policy, m, A);
    SameSides(env, policy, m, B);
    SameOpponentsSeen(env, policy, rows, m, A);
    SameOpponentsSeen(env, policy, rows, m, B);
  }

  lemma SameRecorded(env: Env, policy: Option<PlaceholderPolicy>, src: Source, db: DB, m: RawMatch)
    ensures Recorded(env, src, db, m) == Recorded(Under(env, policy), src, db, m)
  {
    var ev := EventOf(env, src, m);
    assert ev == EventOf(Under(env, policy), src, m);
    SameMatchUpdates(env, policy, db.players, m);
    SameBases(env, policy, {});
    SameUpdates(env.arith, Base(env), Base(Under(env, policy)), db.players, ev.key, MatchUpdates(env, db.players, m), TermsOf(env.arith, ev));
  }

  lemma {:induction false} SameRecordedAll(env: Env, policy: Option<PlaceholderPolicy>, src: Source, db: DB, ms: seq<RawMatch>)
    ensures RecordedAll(env, src, db, ms) == RecordedAll(Under(env, policy), src, db, ms)
  {
    if |ms| > 0 {
      SameRecordedAll(env, policy, src, db, ms[..|ms| - 1]);
      SameRecorded(env, policy, src, RecordedAll(env, src, db, ms[..|ms| - 1]), ms[|ms| - 1]);
    }
  }

  lemma SameCommitted(env: Env, policy: Option<PlaceholderPolicy>, db: DB, src: Source, batch: seq<RawMatch>)
    ensures Committed(env, db, src, batch) == Committed(Under(env, policy), db, src, batch)
  {
    SameNames(env, policy, batch);
    SameBases(env, policy, {});
    SameFilled(Base(env), Base(Under(env, policy)), db.players, Named(env, batch));
    SameRecordedAll(env, policy, src, db.(players := Filled(Base(env), db.players, Named(env, batch))), batch);
    SameCounts(env, policy, batch);
  }

  // ---------------------------------------------------------------- the transactions

  lemma SameIngest(env: Env, policy: Option<PlaceholderPolicy>, db: DB, src: Source)
    ensures Ingested(env, db, src) == Ingested(Under(env, policy), db, src)
  {
    var cut := if KnownFingerprint(db, src.sourceId).Some? then WithoutEvents(db, src.sourceId) else db;
    var batch := Batch(env.cfg, cut, src);
    SamePlayable(env.cfg, policy, src.matches);
    SameCommitted(env, policy, cut, src, batch);
    SameCounts(env, policy, batch);
    SameNames(env, policy, batch);
  }

  lemma SameRebuild(env: Env, policy: Option<PlaceholderPolicy>, db: DB)
    ensures Rebuilt(env, db) == Rebuilt(Under(env, policy), db)
  {
    var log := Entries(InOrderOfPlay(db.events), db.deltas);
    var b1, b2 := RebuildBase(env, db.players.Keys), RebuildBase(Under(env, policy), db.players.Keys);
    SameBases(env, policy, db.players.Keys);
    SameReplay(env.arith, b1, b2, log);
    SameFilled(b1, b2, Replay(env.arith, b1, log), db.players.Keys);
  }

  lemma SameRevert(env: Env, policy: Option<PlaceholderPolicy>, db: DB, s: string)
    ensures Reverted(env, db, s) == Reverted(Under(env, policy), db, s)
  {
    RevertedIsTheRebuiltCut(env, db, s);
    RevertedIsTheRebuiltCut(Under(env, policy), db, s);
    SameRebuild(env, policy, Cut(db, s));
  }

  /** Whatever placeholder_policy says, every ingest answers the same, and every history leaves
      the same tables. */
  lemma {:induction false} PlaceholderPolicyIsIgnored(env: Env, policy: Option<PlaceholderPolicy>, ops: seq<Op>)
    ensures Run(env, ops) == Run(Under(env, policy), ops)
    ensures forall src :: Ingested(env, Run(env, ops), src) == Ingested(Under(env, policy), Run(env, ops), src)
  {
    if |ops| > 0 {
      var db := Run(env, ops[..|ops| - 1]);
      PlaceholderPolicyIsIgnored(env, policy, ops[..|ops| - 1]);
      match ops[|ops| - 1]
      case Ingest(src) => SameIngest(env, policy, db, src);
      case Revert(sourceId) => SameRevert(env, policy, db, sourceId);
      case Purge(session) => SameRebuild(env, policy, PurgeCut(db, session));
      case Rebuild => SameRebuild(env, policy, db);
      case Finalize(id, kind, finalized) =>
    }
    forall src ensures Ingested(env, Run(env, ops), src) == Ingested(Under(env, policy), Run(env, ops), src) {
      SameIngest(env, policy, Run(env, ops), src);
    }
  }
}
