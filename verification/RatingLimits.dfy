/** Why the agreement of ingest and rebuild is stated with auto_reconcile off: what a reconciling
    ingest leaves behind, and exactly when. */
module RatingLimits {
  import opened Options
  import opened RatingConfig
  import opened RatingMatch
  import opened RatingFold
  import opened RatingLog
  import opened RatingRuns
  import opened RatingIngest
  import opened RatingHistory
  import opened RatingBounds

  // ---------------------------------------------------------------- reconciling

  function GamesOf(env: Env, db: DB, id: Id): nat { Get(Base(env), db.players, id).games }

  lemma GamesSnoc(log: seq<Entry>, en: Entry, id: Id)
    ensures Games(log + [en], id) == Games(log, id) + if TwoSided(en) && id in en.sideA + en.sideB then 1 else 0
  {
    assert (log + [en])[..|log|] == log;
  }

  lemma {:induction false} GamesAdd(a: seq<Entry>, b: seq<Entry>, id: Id)
    ensures Games(a + b, id) == Games(a, id) + Games(b, id)
  {
    if |b| == 0 {
      assert a + b == a;
    } else {
      GamesAdd(a, b[..|b| - 1], id);
      assert (a + b)[..|a + b| - 1] == a + b[..|b| - 1];
    }
  }

  lemma RecordedCounts(env: Env, src: Source, db: DB, m: RawMatch, id: Id)
    requires OrderBlind(env.arith) && Shape(db) && Ready(env, src, db, m) && HasBothSides(env, m)
    ensures var out := Recorded(env, src, db, m);
      && Shape(out) && StoredLog(out) == StoredLog(db) + [EntryFor(env, src, m)] && out.players.Keys == db.players.Keys
      && GamesOf(env, out, id) == GamesOf(env, db, id) + Games([EntryFor(env, src, m)], id)
  {
    var en := EntryFor(env, src, m);
    RecordedIsAStep(env, src, db, m);
    EntryForIsProper(env, src, m);
    SidesHaveRows(env, src, db, m);
    SteppedKeepsShape(env.arith, Base(env), db, en);
    SteppedCounts(env, db, en, id);
  }

  lemma SteppedCounts(env: Env, db: DB, en: Entry, id: Id)
    requires TwoSided(en)
    ensures GamesOf(env, Stepped(env.arith, Base(env), db, en), id) == GamesOf(env, db, id) + Games([en], id)
  {
    GetOfStep(env.arith, Base(env), db.players, en, id);
    GamesSnoc([], en, id);
    assert [] + [en] == [en];
  }

  /** Whatever the tables held, a batch adds its own games to the log and to the counters. */
  lemma {:induction false} RecordedAllCounts(env: Env, src: Source, db: DB, ms: seq<RawMatch>, id: Id)
    requires OrderBlind(env.arith) && Shape(db) && ReadyBatch(env, src, db, ms)
    ensures var out := RecordedAll(env, src, db, ms);
      && Shape(out) && StoredLog(out) == StoredLog(db) + EntriesFor(env, src, ms) && out.players.Keys == db.players.Keys
      && GamesOf(env, out, id) == GamesOf(env, db, id) + Games(EntriesFor(env, src, ms), id)
  {
    if |ms| > 0 {
      var front, last := ms[..|ms| - 1], ms[|ms| - 1];
      ReadyPrefix(env, src, db, ms);
      RecordedAllCounts(env, src, db, front, id);
      var now := RecordedAll(env, src, db, front);
      StillReady(env, src, db, front, last, now);
      RecordedAllUnfolds(env, src, db, ms);
      EntriesForOneMore(env, src, front, last);
      if HasBothSides(env, last) {
        RecordedCounts(env, src, now, last, id);
        LogsAssociate(StoredLog(db), EntriesFor(env, src, front), [EntryFor(env, src, last)]);
        GamesAdd(EntriesFor(env, src, front), [EntryFor(env, src, last)], id);
      }
    } else {
      LogsAssociate(StoredLog(db), [], []);
    }
  }

  /** The transaction reaches the deletion and commits a batch. */
  ghost predicate Reconciles(env: Env, db: DB, src: Source) {
    var cut := WithoutEvents(db, src.sourceId);
    && env.cfg.autoReconcile && (env.cfg.ingestLockedOnly ==> src.final)
    && KnownFingerprint(db, src.sourceId).Some? && KnownFingerprint(db, src.sourceId) != Some(SourceFingerprint(src.matches))
    && Playable(env.cfg, src.matches) != [] && !TooLate(env.cfg, cut, src) && Batch(env.cfg, cut, src) != []
  }

  lemma ReconcileCommits(env: Env, db: DB, src: Source)
    requires Reconciles(env, db, src)
    ensures var cut := WithoutEvents(db, src.sourceId);
      Ingested(env, db, src).0 == Committed(env, cut, src, Batch(env.cfg, cut, src))
  {
  }

  /** Reconciling keeps the counters of the deleted games and adds the new ones on top. */
  lemma ReconcileCounts(env: Env, db: DB, src: Source, id: Id)
    requires OrderBlind(env.arith) && Shape(db) && Admissible(env, src) && Reconciles(env, db, src)
    ensures var out, cut := Ingested(env, db, src).0, WithoutEvents(db, src.sourceId);
      var added := EntriesFor(env, src, Batch(env.cfg, cut, src));
      && GamesOf(env, out, id) == GamesOf(env, db, id) + Games(added, id)
      && StoredLog(out) == OtherEntries(StoredLog(db), src.sourceId) + added
  {
    var cut := WithoutEvents(db, src.sourceId);
    var batch := Batch(env.cfg, cut, src);
    var filled := cut.(players := Filled(Base(env), cut.players, Named(env, batch)));
    CutKeepsShape(db, src.sourceId);
    CutLog(db, src.sourceId);
    BatchIsReady(env, cut, src);
    FilledShape(env, cut, Named(env, batch));
    RecordedAllCounts(env, src, filled, batch, id);
    CommittedOnlyAddsASource(env, cut, src, batch);
    ReconcileCommits(env, db, src);
  }

  lemma FilledShape(env: Env, db: DB, ids: set<Id>)
    requires Shape(db)
    ensures Shape(db.(players := Filled(Base(env), db.players, ids)))
    ensures StoredLog(db.(players := Filled(Base(env), db.players, ids))) == StoredLog(db)
  {
    var out := db.(players := Filled(Base(env), db.players, ids));
    assert out.players.Keys == db.players.Keys + ids;
  }

  lemma {:induction false} RemovedGames(log: seq<Entry>, s: string, id: Id)
    ensures Games(OtherEntries(log, s), id) <= Games(log, id)
    ensures (exists en <- log :: en.ev.sourceId == s && TwoSided(en) && id in en.sideA + en.sideB)
            ==> Games(OtherEntries(log, s), id) < Games(log, id)
  {
    if |log| > 0 {
      var front, last := log[..|log| - 1], log[|log| - 1];
      assert log == front + [last];
      RemovedGames(front, s, id);
      GamesSnoc(OtherEntries(front, s), last, id);
    }
  }

  /** A source with logged events has a player whose games go with them. */
  lemma SomebodyPlayed(db: DB, s: string) returns (id: Id)
    requires Shape(db) && Others(db.events, s) != db.events
    ensures Games(OtherEntries(StoredLog(db), s), id) < Games(StoredLog(db), id)
  {
    NothingToRemove(db.events, s);
    var e :| e in db.events && e.sourceId == s;
    var i :| 0 <= i < |db.events| && db.events[i] == e;
    var en := StoredLog(db)[i];
    assert en in StoredLog(db) && TwoSided(en);
    id :| id in en.sideA;
    RemovedGames(StoredLog(db), s, id);
  }

  lemma ConsistentCounts(env: Env, db: DB, id: Id)
    requires Consistent(env, db)
    ensures GamesOf(env, db, id) == Games(StoredLog(db), id)
  {
    CountersCountTheLog(env, StoredLog(db), id);
  }

  lemma CountersDisagree(env: Env, db: DB, src: Source, id: Id)
    requires OrderBlind(env.arith) && Consistent(env, db) && Admissible(env, src) && Reconciles(env, db, src)
    requires Games(OtherEntries(StoredLog(db), src.sourceId), id) < Games(StoredLog(db), id)
    ensures GamesOf(env, Ingested(env, db, src).0, id) > Games(StoredLog(Ingested(env, db, src).0), id)
  {
    ReconcileCounts(env, db, src, id);
    ConsistentCounts(env, db, id);
    GamesAdd(OtherEntries(StoredLog(db), src.sourceId),
             EntriesFor(env, src, Batch(env.cfg, WithoutEvents(db, src.sourceId), src)), id);
  }

  lemma ReconciledShape(env: Env, db: DB, src: Source)
    requires OrderBlind(env.arith) && Shape(db) && Admissible(env, src) && Reconciles(env, db, src)
    ensures Shape(Ingested(env, db, src).0)
  {
    var cut := WithoutEvents(db, src.sourceId);
    var batch := Batch(env.cfg, cut, src);
    var filled := cut.(players := Filled(Base(env), cut.players, Named(env, batch)));
    CutKeepsShape(db, src.sourceId);
    BatchIsReady(env, cut, src);
    FilledShape(env, cut, Named(env, batch));
    RecordedAllCounts(env, src, filled, batch, 0);
    CommittedOnlyAddsASource(env, cut, src, batch);
    ReconcileCommits(env, db, src);
  }

  /** A reconciling ingest leaves the tables in agreement with the log, and what a rebuild would
      compute, exactly when the source had no logged event: otherwise the deleted games stay in
      the counters of their players. */
  lemma ReconcileAgreesOnlyOnNothing(env: Env, db: DB, src: Source)
    requires Valid(env.cfg) && OrderBlind(env.arith)
    requires Consistent(env, db) && Admissible(env, src) && Reconciles(env, db, src)
    ensures var out := Ingested(env, db, src).0;
      && (Consistent(env, out) <==> Others(db.events, src.sourceId) == db.events)
      && (Rebuilt(env, out) == out <==> Others(db.events, src.sourceId) == db.events)
  {
    var s, out := src.sourceId, Ingested(env, db, src).0;
    ReconcileCommits(env, db, src);
    ReconciledShape(env, db, src);
    RebuildMaterialises(env, out);
    if Others(db.events, s) == db.events {
      NothingCut(db, s);
      CommittedKeepsConsistent(env, db, src);
      RebuildIsIdentity(env, out);
    } else {
      var id := SomebodyPlayed(db, s);
      CountersDisagree(env, db, src, id);
      if Consistent(env, out) { ConsistentCounts(env, out, id); }
    }
  }

  lemma NothingCut(db: DB, s: string)
    requires Others(db.events, s) == db.events
    ensures WithoutEvents(db, s) == db
  {
    NothingToRemove(db.events, s);
  }
}
