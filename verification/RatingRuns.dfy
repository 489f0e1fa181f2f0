/** Runs of rating transactions: the tables written incrementally are, after every run, exactly
    what a rebuild computes from the log. */
module RatingRuns {
  import opened RatingConfig
  import opened RatingMatch
  import opened RatingFold
  import opened RatingLog
  import opened RatingRebuild
  import opened Sorting

  /** A validated configuration with auto_reconcile off, and arithmetic blind to opponent order. */
  ghost predicate Sound(env: Env) {
    Valid(env.cfg) && !env.cfg.autoReconcile && OrderBlind(env.arith)
  }

  /** Everybody a rated side faces is himself rated: no placeholder and no gated player. This is
      what the log can reproduce; without it an ingest sees opponents the deltas do not record. */
  predicate Replayable(env: Env, m: RawMatch) {
    HasBothSides(env, m) ==>
      && Placeholders(m, A) == 0 && Placeholders(m, B) == 0
      && Eligible(env, m, A) == Fielded(env, m, A) && Eligible(env, m, B) == Fielded(env, m, B)
  }

  /** No player twice in a game. */
  predicate DistinctPlayers(env: Env, m: RawMatch) {
    Distinct(Fielded(env, m, A) + Fielded(env, m, B))
  }

  /** What the extractors deliver for one source: its own matches, all on its day, under distinct
      game orders. */
  ghost predicate Extracted(src: Source) {
    && (forall m <- src.matches :: m.sourceId == src.sourceId)
    && (forall m, m' :: m in src.matches && m' in src.matches ==> m.date == m'.date)
    && DistinctOrders(src.matches)
  }

  ghost predicate Admissible(env: Env, src: Source) {
    Extracted(src) && forall m <- src.matches :: Replayable(env, m) && DistinctPlayers(env, m)
  }

  // ---------------------------------------------------------------- the run invariant

  /** Every delta belongs to a logged event and a rated player. */
  ghost predicate DeltasRefer(db: DB) {
    forall k <- db.deltas :: k.0 in Keys(db.events) && k.1 in db.players
  }

  ghost predicate AllTwoSided(log: seq<Entry>) {
    forall en <- log :: TwoSided(en)
  }

  ghost predicate KeysNameSources(events: seq<Event>) {
    forall e <- events :: e.key.sourceId == e.sourceId
  }

  function StoredLog(db: DB): seq<Entry> { Entries(db.events, db.deltas) }

  ghost predicate Shape(db: DB) {
    && StrictlyInOrder(db.events, EventBefore) && UniqueEvents(db.events) && KeysNameSources(db.events)
    && DeltasRefer(db) && AllTwoSided(StoredLog(db))
  }

  /** The materialised tables are the replay of the log from the base rows. */
  ghost predicate Materialised(env: Env, db: DB) {
    && db.players == Filled(Base(env), Replay(env.arith, Base(env), StoredLog(db)), db.players.Keys)
    && db.deltas == ReplayDeltas(env.arith, Base(env), StoredLog(db))
  }

  ghost predicate Consistent(env: Env, db: DB) { Shape(db) && Materialised(env, db) }

  const EMPTY := DB([], map[], map[], map[])

  lemma EmptyIsConsistent(env: Env)
    ensures Consistent(env, EMPTY)
  {}

  lemma OrderedEventsAreInOrderOfPlay(events: seq<Event>)
    requires StrictlyInOrder(events, EventBefore)
    ensures InOrderOfPlay(events) == events
  {
    EventOrderIsStrictWeak();
    forall i, j | 0 <= i < j < |events| ensures !EventBefore(events[j], events[i]) {
      assert EventBefore(events[i], events[j]);
    }
    SortOfOrdered(events, EventBefore);
  }

  lemma StoredLogIsTheLog(db: DB)
    requires Shape(db)
    ensures LogOf(db) == StoredLog(db)
    ensures PlayersWithin(StoredLog(db), db.players.Keys)
    ensures UniqueKeys(StoredLog(db)) && DisjointSides(StoredLog(db))
  {
    OrderedEventsAreInOrderOfPlay(db.events);
    LogHasUniqueKeys(db);
    LogPlayersAreRated(db);
  }

  lemma BasesAgree(env: Env, rated: set<Id>)
    requires Valid(env.cfg)
    ensures SameBase(RebuildBase(env, rated), Base(env), rated)
  {
    forall id | id in rated ensures RebuildBase(env, rated)(id) == Base(env)(id) {
      BaseRatingsAgree(env.cfg, TierOf(env, id));
    }
  }

  /** A rebuild of a well-shaped log materialises it, whatever the tables held. */
  lemma RebuildMaterialises(env: Env, db: DB)
    requires Valid(env.cfg) && Shape(db)
    ensures Consistent(env, Rebuilt(env, db))
    ensures StoredLog(Rebuilt(env, db)) == StoredLog(db)
    ensures Rebuilt(env, db).players == Filled(Base(env), Replay(env.arith, Base(env), StoredLog(db)), db.players.Keys)
    ensures Rebuilt(env, db).deltas == ReplayDeltas(env.arith, Base(env), StoredLog(db))
  {
    RebuiltTables(env, db);
    RebuiltStoredLog(env, db);
    RebuiltShape(env, db);
  }

  lemma RebuiltTables(env: Env, db: DB)
    requires Valid(env.cfg) && Shape(db)
    ensures Rebuilt(env, db).players == Filled(Base(env), Replay(env.arith, Base(env), StoredLog(db)), db.players.Keys)
    ensures Rebuilt(env, db).players.Keys == db.players.Keys
    ensures Rebuilt(env, db).deltas == ReplayDeltas(env.arith, Base(env), StoredLog(db))
  {
    var rated, log := db.players.Keys, StoredLog(db);
    StoredLogIsTheLog(db);
    BasesAgree(env, rated);
    ReplayUsesOwnBase(env.arith, RebuildBase(env, rated), Base(env), log, rated);
    FilledAgrees(RebuildBase(env, rated), Base(env), Replay(env.arith, Base(env), log), rated);
  }

  lemma RebuiltStoredLog(env: Env, db: DB)
    requires Valid(env.cfg) && Shape(db)
    ensures StoredLog(Rebuilt(env, db)) == StoredLog(db)
  {
    StoredLogIsTheLog(db);
    RebuiltLog(env, db);
    OrderedEventsAreInOrderOfPlay(db.events);
    var log := StoredLog(db);
    forall i | 0 <= i < |log| ensures KeptAll(log)[i] == log[i] {
      assert log[i] in log;
    }
  }

  lemma RebuiltShape(env: Env, db: DB)
    requires Valid(env.cfg) && Shape(db)
    ensures Shape(Rebuilt(env, db))
  {
    RebuiltTables(env, db);
    RebuiltStoredLog(env, db);
    StoredLogIsTheLog(db);
    forall k | k in Rebuilt(env, db).deltas ensures k.0 in Keys(db.events) && k.1 in db.players {
      ReplayedDeltaIsLogged(env, db, k);
    }
  }

  lemma ReplayedDeltaIsLogged(env: Env, db: DB, k: (Key, Id))
    requires PlayersWithin(StoredLog(db), db.players.Keys)
    requires k in ReplayDeltas(env.arith, Base(env), StoredLog(db))
    ensures k.0 in Keys(db.events) && k.1 in db.players
  {
    var i := DeltaHasEntry(env.arith, Base(env), StoredLog(db), k);
    assert StoredLog(db)[i] in StoredLog(db) && db.events[i] in db.events;
  }

  lemma FilledAgrees(b1: Id -> Row, b2: Id -> Row, rows: map<Id, Row>, ids: set<Id>)
    requires SameBase(b1, b2, ids) && rows.Keys <= ids
    ensures Filled(b1, rows, ids) == Filled(b2, rows, ids)
  {}

  lemma {:induction false} DeltaHasEntry(c: Calc, base: Id -> Row, log: seq<Entry>, k: (Key, Id)) returns (i: nat)
    requires k in ReplayDeltas(c, base, log)
    ensures i < |log| && log[i].ev.key == k.0 && k.1 in log[i].sideA + log[i].sideB
  {
    var front, last := log[..|log| - 1], log[|log| - 1];
    if k in StepDeltas(c, base, Replay(c, base, front), last) {
      i := |log| - 1;
    } else {
      i := DeltaHasEntry(c, base, front, k);
    }
  }

  /** On consistent tables a rebuild is the identity. */
  lemma RebuildIsIdentity(env: Env, db: DB)
    requires Valid(env.cfg) && Consistent(env, db)
    ensures Rebuilt(env, db) == db
  {
    RebuildMaterialises(env, db);
  }

  // ---------------------------------------------------------------- recording one match

  /** The match is new to the log, comes after all of it, and its players have rows. */
  ghost predicate Ready(env: Env, src: Source, db: DB, m: RawMatch) {
    && m.sourceId == src.sourceId && MatchKey(m) !in Keys(db.events)
    && (forall e <- db.events :: EventBefore(e, EventOf(env, src, m)))
    && Replayable(env, m) && DistinctPlayers(env, m)
    && (forall id <- Fielded(env, m, A) + Fielded(env, m, B) :: id in db.players)
  }

  function IdSet(ids: seq<Id>): set<Id> { set id <- ids }

  /** The entry a recorded match becomes in the log. */
  function EntryFor(env: Env, src: Source, m: RawMatch): Entry {
    Entry(EventOf(env, src, m), IdSet(Eligible(env, m, A)), IdSet(Eligible(env, m, B)))
  }

  lemma EntryForIsProper(env: Env, src: Source, m: RawMatch)
    requires HasBothSides(env, m) && Replayable(env, m) && DistinctPlayers(env, m)
    ensures var en := EntryFor(env, src, m);
            && TwoSided(en) && en.sideA !! en.sideB
            && Enumerates(Eligible(env, m, A), en.sideA) && Enumerates(Eligible(env, m, B), en.sideB)
  {
    var a, b := Eligible(env, m, A), Eligible(env, m, B);
    assert a[0] in IdSet(a) && b[0] in IdSet(b);
    DistinctHalves(a, b);
  }

  /** A list without repetition, cut in two. */
  lemma DistinctHalves(a: seq<Id>, b: seq<Id>)
    requires Distinct(a + b)
    ensures Enumerates(a, IdSet(a)) && Enumerates(b, IdSet(b)) && IdSet(a) !! IdSet(b)
  {
    forall i | 0 <= i < |a| ensures (a + b)[i] == a[i] {}
    forall j | 0 <= j < |b| ensures (a + b)[|a| + j] == b[j] {}
    forall i, j | 0 <= i < |a| && 0 <= j < |b| ensures a[i] != b[j] {
      assert (a + b)[i] == a[i] && (a + b)[|a| + j] == b[j];
    }
  }

  /** Recording a replayable match is one step of the replay. */
  lemma RecordedIsAStep(env: Env, src: Source, db: DB, m: RawMatch)
    requires OrderBlind(env.arith) && HasBothSides(env, m) && Replayable(env, m) && DistinctPlayers(env, m)
    ensures var en := EntryFor(env, src, m);
            Recorded(env, src, db, m) == Stepped(env.arith, Base(env), db, en)
  {
    var en := EntryFor(env, src, m);
    EntryForIsProper(env, src, m);
    var a, b := Eligible(env, m, A), Eligible(env, m, B);
    assert Opponents(env, db.players, m, A) == States(Base(env), db.players, a);
    assert Opponents(env, db.players, m, B) == States(Base(env), db.players, b);
    UpdatesPlayTheStep(env.arith, Base(env), db.players, en, a, b,
                       Opponents(env, db.players, m, B), Opponents(env, db.players, m, A));
  }

  lemma StepDeltasNameTheSides(c: Calc, base: Id -> Row, rows: map<Id, Row>, en: Entry)
    requires TwoSided(en) && en.sideA !! en.sideB
    ensures EntryOf(StepDeltas(c, base, rows, en), en.ev) == en
    ensures forall k <- StepDeltas(c, base, rows, en) :: k.0 == en.ev.key && k.1 in en.sideA + en.sideB
  {
    var ds := StepDeltas(c, base, rows, en);
    forall id: Id
      ensures id in Side(ds, en.ev.key, A) <==> id in en.sideA
      ensures id in Side(ds, en.ev.key, B) <==> id in en.sideB
    {
      if id in en.sideA + en.sideB { assert (en.ev.key, id) in ds; }
    }
  }

  lemma EntryOfSum(d1: map<(Key, Id), Delta>, d2: map<(Key, Id), Delta>, ev: Event)
    ensures (forall k <- d2 :: k.0 != ev.key) ==> EntryOf(d1 + d2, ev) == EntryOf(d1, ev)
    ensures (forall k <- d1 :: k.0 != ev.key) ==> EntryOf(d1 + d2, ev) == EntryOf(d2, ev)
  {
    if forall k <- d2 :: k.0 != ev.key {
      assert Side(d1 + d2, ev.key, A) == Side(d1, ev.key, A);
      assert Side(d1 + d2, ev.key, B) == Side(d1, ev.key, B);
    }
    if forall k <- d1 :: k.0 != ev.key {
      assert Side(d1 + d2, ev.key, A) == Side(d2, ev.key, A);
      assert Side(d1 + d2, ev.key, B) == Side(d2, ev.key, B);
    }
  }

  /** The log after a recorded match: one entry more. */
  lemma LogGrows(db: DB, out: DB, en: Entry, ds: map<(Key, Id), Delta>)
    requires Shape(db) && en.ev.key !in Keys(db.events)
    requires out.events == db.events + [en.ev] && out.deltas == db.deltas + ds
    requires EntryOf(ds, en.ev) == en && forall k <- ds :: k.0 == en.ev.key
    ensures StoredLog(out) == StoredLog(db) + [en]
  {
    forall i | 0 <= i < |db.events| ensures EntryOf(out.deltas, db.events[i]) == EntryOf(db.deltas, db.events[i]) {
      assert db.events[i].key in Keys(db.events);
      EntryOfSum(db.deltas, ds, db.events[i]);
    }
    EntryOfSum(db.deltas, ds, en.ev);
  }

  /** db after one step of the replay. */
  function Stepped(c: Calc, base: Id -> Row, db: DB, en: Entry): DB {
    db.(events := db.events + [en.ev],
        deltas := db.deltas + StepDeltas(c, base, db.players, en),
        players := Step(c, base, db.players, en))
  }

  lemma SteppedKeepsShape(c: Calc, base: Id -> Row, db: DB, en: Entry)
    requires Shape(db) && TwoSided(en) && en.sideA !! en.sideB && en.sideA + en.sideB <= db.players.Keys
    requires en.ev.key !in Keys(db.events) && en.ev.key.sourceId == en.ev.sourceId
    requires forall e <- db.events :: EventBefore(e, en.ev)
    ensures Shape(Stepped(c, base, db, en))
    ensures StoredLog(Stepped(c, base, db, en)) == StoredLog(db) + [en]
    ensures Stepped(c, base, db, en).players.Keys == db.players.Keys
  {
    var out, ds := Stepped(c, base, db, en), StepDeltas(c, base, db.players, en);
    StepDeltasNameTheSides(c, base, db.players, en);
    LogGrows(db, out, en, ds);
    EventsGrow(db.events, en.ev);
    assert out.players.Keys == db.players.Keys;
    DeltasStillRefer(db, out, en, ds);
    StillTwoSided(StoredLog(db), en);
  }

  lemma StillTwoSided(log: seq<Entry>, en: Entry)
    requires AllTwoSided(log) && TwoSided(en)
    ensures AllTwoSided(log + [en])
  {
  }

  lemma ReplaySnoc(c: Calc, base: Id -> Row, log: seq<Entry>, en: Entry)
    ensures Replay(c, base, log + [en]) == Step(c, base, Replay(c, base, log), en)
    ensures ReplayDeltas(c, base, log + [en]) == ReplayDeltas(c, base, log) + StepDeltas(c, base, Replay(c, base, log), en)
  {
    assert (log + [en])[..|log|] == log;
  }

  /** A materialised log stays so under a step. */
  lemma SteppedIsMaterialised(env: Env, db: DB, en: Entry)
    requires Materialised(env, db)
    requires var out := Stepped(env.arith, Base(env), db, en);
             StoredLog(out) == StoredLog(db) + [en] && out.players.Keys == db.players.Keys
    ensures Materialised(env, Stepped(env.arith, Base(env), db, en))
  {
    ReplaySnoc(env.arith, Base(env), StoredLog(db), en);
    StepOfFilled(env.arith, Base(env), Replay(env.arith, Base(env), StoredLog(db)), en, db.players.Keys);
  }

  lemma SidesHaveRows(env: Env, src: Source, db: DB, m: RawMatch)
    requires Ready(env, src, db, m) && HasBothSides(env, m)
    ensures EntryFor(env, src, m).sideA + EntryFor(env, src, m).sideB <= db.players.Keys
  {
    forall id | id in EntryFor(env, src, m).sideA + EntryFor(env, src, m).sideB ensures id in db.players {
      assert id in Fielded(env, m, A) + Fielded(env, m, B);
    }
  }

  lemma EventsGrow(events: seq<Event>, ev: Event)
    requires StrictlyInOrder(events, EventBefore) && UniqueEvents(events) && KeysNameSources(events)
    requires ev.key !in Keys(events) && ev.key.sourceId == ev.sourceId
    requires forall e <- events :: EventBefore(e, ev)
    ensures StrictlyInOrder(events + [ev], EventBefore) && UniqueEvents(events + [ev]) && KeysNameSources(events + [ev])
  {
    assert forall i :: 0 <= i < |events| ==> events[i] in events && events[i].key in Keys(events);
  }

  lemma DeltasStillRefer(db: DB, out: DB, en: Entry, ds: map<(Key, Id), Delta>)
    requires DeltasRefer(db) && out.events == db.events + [en.ev] && out.deltas == db.deltas + ds
    requires forall k <- ds :: k.0 == en.ev.key && k.1 in out.players
    requires db.players.Keys <= out.players.Keys
    ensures DeltasRefer(out)
  {
    assert en.ev in out.events;
    forall k | k in out.deltas ensures k.0 in Keys(out.events) && k.1 in out.players {
      if k !in ds {
        assert k in db.deltas;
        var e :| e in db.events && e.key == k.0;
        assert e in out.events;
      }
    }
  }

  /** One more match keeps the tables materialised. */
  lemma RecordedKeepsConsistent(env: Env, src: Source, db: DB, m: RawMatch)
    requires OrderBlind(env.arith) && Consistent(env, db) && Ready(env, src, db, m)
    ensures Consistent(env, Recorded(env, src, db, m))
    ensures Recorded(env, src, db, m).players.Keys == db.players.Keys
    ensures StoredLog(Recorded(env, src, db, m)) == StoredLog(db) + if HasBothSides(env, m) then [EntryFor(env, src, m)] else []
  {
    if HasBothSides(env, m) {
      var en := EntryFor(env, src, m);
      RecordedIsAStep(env, src, db, m);
      EntryForIsProper(env, src, m);
      SidesHaveRows(env, src, db, m);
      SteppedKeepsShape(env.arith, Base(env), db, en);
      SteppedIsMaterialised(env, db, en);
    }
  }
}
