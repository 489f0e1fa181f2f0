/** Runs that the hypotheses of the agreement rule out, with the default parameters: a placeholder
    among the opponents, a gated opponent, and a reconciling ingest. Each leaves tables that a
    rebuild changes. */
module RatingWitnesses {
  import opened Glicko
  import opened GlickoExample
  import opened Options
  import opened RatingConfig
  import opened RatingMatch
  import opened RatingFold
  import opened RatingLog
  import opened RatingRuns
  import opened RatingIngest
  import opened RatingHistory
  import opened RatingErase
  import opened RatingLimits
  import opened RatingOpponents
  import opened Sorting

  // ---------------------------------------------------------------- one game into empty tables

  /** A source with one match, which the gates of an ingest let through. */
  predicate Single(env: Env, src: Source, m: RawMatch) {
    && src.matches == [m] && m.sourceId == src.sourceId
    && IsPlayable(env.cfg, m) && (env.cfg.ingestLockedOnly ==> src.final)
    && HasBothSides(env, m) && DistinctPlayers(env, m)
  }

  lemma SingleIsSorted(m: RawMatch)
    ensures SortMatchesByOrder([m]) == [m]
  {
    OrdersAreStrictWeak();
    SortOfOrdered([m], MatchBefore);
  }

  lemma SingleIsFresh(m: RawMatch, logged: set<Key>)
    requires MatchKey(m) !in logged
    ensures Fresh([m], logged) == [m]
  {
    assert [m][..0] == [] && KeysOf([]) == {};
    assert Fresh([m][..0], logged) == [];
  }

  lemma SingleBatch(env: Env, db: DB, src: Source, m: RawMatch)
    requires Single(env, src, m) && MatchKey(m) !in Keys(db.events)
    ensures Playable(env.cfg, src.matches) == [m] && Batch(env.cfg, db, src) == [m]
  {
    assert [m][..0] == [];
    assert Playable(env.cfg, [m][..0]) == [];
    SingleIsSorted(m);
    SingleIsFresh(m, Keys(db.events));
  }

  function FirstTables(env: Env, src: Source, m: RawMatch): DB { Committed(env, EMPTY, src, [m]) }

  lemma RunOne(env: Env, src: Source)
    ensures Run(env, [Ingest(src)]) == Ingested(env, EMPTY, src).0
  {
    assert [Ingest(src)][..0] == [] && Run(env, []) == EMPTY;
  }

  lemma RunTwo(env: Env, src: Source, again: Source, first: DB)
    requires first == Run(env, [Ingest(src)])
    ensures Run(env, [Ingest(src), Ingest(again)]) == Ingested(env, first, again).0
  {
    assert [Ingest(src), Ingest(again)][..1] == [Ingest(src)];
  }

  lemma NeverTooLateForNothing(cfg: Config, db: DB, src: Source)
    requires db.events == []
    ensures !TooLate(cfg, db, src)
  {
    assert InOrderOfPlay([]) == [];
  }

  lemma NewSourceCommits(env: Env, db: DB, src: Source, batch: seq<RawMatch>)
    requires (env.cfg.ingestLockedOnly ==> src.final) && KnownFingerprint(db, src.sourceId).None?
    requires Playable(env.cfg, src.matches) != [] && !TooLate(env.cfg, db, src)
    requires batch == Batch(env.cfg, db, src) && batch != []
    ensures Ingested(env, db, src).0 == Committed(env, db, src, batch)
  {
  }

  lemma IngestIntoNothing(env: Env, db: DB, src: Source, m: RawMatch)
    requires Single(env, src, m) && db.events == [] && KnownFingerprint(db, src.sourceId).None?
    ensures Ingested(env, db, src).0 == Committed(env, db, src, [m])
  {
    SingleBatch(env, db, src, m);
    NeverTooLateForNothing(env.cfg, db, src);
    NewSourceCommits(env, db, src, [m]);
  }

  lemma FirstIngest(env: Env, src: Source, m: RawMatch)
    requires Single(env, src, m)
    ensures Run(env, [Ingest(src)]) == FirstTables(env, src, m)
  {
    IngestIntoNothing(env, EMPTY, src, m);
    RunOne(env, src);
  }

  /** The rows the game starts from. */
  function FirstRows(env: Env, m: RawMatch): map<Id, Row> { Filled(Base(env), map[], Named(env, [m])) }

  lemma RecordedSingle(env: Env, src: Source, m: RawMatch, db: DB)
    ensures RecordedAll(env, src, db, [m]) == Recorded(env, src, db, m)
  {
    RecordedAllUnfolds(env, src, db, [m]);
    assert [m][..0] == [];
    assert RecordedAll(env, src, db, []) == db;
  }

  lemma RecordedFirst(env: Env, src: Source, m: RawMatch, db: DB)
    requires db.events == [] && db.deltas == map[] && HasBothSides(env, m)
    ensures var out, ev := Recorded(env, src, db, m), EventOf(env, src, m);
      var us, t := MatchUpdates(env, db.players, m), TermsOf(env.arith, ev);
      && out.events == [ev]
      && out.deltas == DeltasAll(env.arith, Base(env), db.players, ev.key, us, t)
      && out.players == ApplyAll(env.arith, Base(env), db.players, us, t)
  {
    NothingAdded(DeltasAll(env.arith, Base(env), db.players, EventOf(env, src, m).key, MatchUpdates(env, db.players, m),
                           TermsOf(env.arith, EventOf(env, src, m))));
  }

  lemma NothingAdded(ds: map<(Key, Id), Delta>)
    ensures map[] + ds == ds
  {
  }

  lemma FirstTablesAre(env: Env, src: Source, m: RawMatch)
    requires Single(env, src, m)
    ensures var out, ev := FirstTables(env, src, m), EventOf(env, src, m);
      var us, t := MatchUpdates(env, FirstRows(env, m), m), TermsOf(env.arith, ev);
      && out.events == [ev]
      && out.deltas == DeltasAll(env.arith, Base(env), FirstRows(env, m), ev.key, us, t)
      && out.players == ApplyAll(env.arith, Base(env), FirstRows(env, m), us, t)
  {
    RecordedSingle(env, src, m, EMPTY.(players := FirstRows(env, m)));
    RecordedFirst(env, src, m, EMPTY.(players := FirstRows(env, m)));
    CommittedOnlyAddsASource(env, EMPTY, src, [m]);
  }

  lemma FirstSides(env: Env, m: RawMatch)
    requires DistinctPlayers(env, m)
    ensures Distinct(Eligible(env, m, A)) && Distinct(Eligible(env, m, B))
    ensures forall id :: !(id in Eligible(env, m, A) && id in Eligible(env, m, B))
  {
    EligibleAreListed(env, m, A);
    EligibleAreListed(env, m, B);
    GateSize(env, m.date, Fielded(env, m, A));
    GateSize(env, m.date, Fielded(env, m, B));
    DistinctHalves(Fielded(env, m, A), Fielded(env, m, B));
    forall id ensures !(id in Eligible(env, m, A) && id in Eligible(env, m, B)) {
      assert id in Eligible(env, m, A) ==> id in IdSet(Fielded(env, m, A));
      assert id in Eligible(env, m, B) ==> id in IdSet(Fielded(env, m, B));
    }
  }

  /** What one player finds in the tables afterwards. */
  lemma FirstEntries(env: Env, src: Source, m: RawMatch, id: Id)
    requires Single(env, src, m)
    ensures var out, ev := FirstTables(env, src, m), EventOf(env, src, m);
      && (id in out.players <==> id in FirstRows(env, m) || id in Eligible(env, m, A) || id in Eligible(env, m, B))
      && ((ev.key, id) in out.deltas <==> id in Eligible(env, m, A) || id in Eligible(env, m, B))
      && ((ev.key, id) in out.deltas ==> out.deltas[(ev.key, id)].team == if id in Eligible(env, m, A) then A else B)
      && (id in Eligible(env, m, A) ==>
            out.players[id] == Played(env.arith, Get(Base(env), FirstRows(env, m), id), Opponents(env, FirstRows(env, m), m, B),
                                      OutcomeA(m.scoreA, m.scoreB), TermsOf(env.arith, ev)))
  {
    var ev, rows := EventOf(env, src, m), FirstRows(env, m);
    FirstTablesAre(env, src, m);
    FirstSides(env, m);
    FindInUpdates(Eligible(env, m, A), Eligible(env, m, B), OutcomeA(m.scoreA, m.scoreB),
                  Opponents(env, rows, m, B), Opponents(env, rows, m, A), id);
    ApplyAllIsSimultaneous(env.arith, Base(env), rows, ev.key, MatchUpdates(env, rows, m), TermsOf(env.arith, ev), id);
  }

  lemma FirstSide(env: Env, src: Source, m: RawMatch, team: Team)
    requires Single(env, src, m)
    ensures Side(FirstTables(env, src, m).deltas, EventOf(env, src, m).key, team) == IdSet(Eligible(env, m, team))
  {
    var key, ds := EventOf(env, src, m).key, FirstTables(env, src, m).deltas;
    FirstSides(env, m);
    forall id: Id ensures id in Side(ds, key, team) <==> id in IdSet(Eligible(env, m, team)) {
      FirstEntries(env, src, m, id);
      SideMember(ds, key, team, id);
    }
  }

  lemma FirstDeltas(env: Env, src: Source, m: RawMatch)
    requires Single(env, src, m)
    ensures forall k <- FirstTables(env, src, m).deltas :: k.0 == EventOf(env, src, m).key && k.1 in FirstTables(env, src, m).players
  {
    var key, ds := EventOf(env, src, m).key, FirstTables(env, src, m).deltas;
    FirstTablesAre(env, src, m);
    DeltasAllHaveTheKey(env.arith, Base(env), FirstRows(env, m), key, MatchUpdates(env, FirstRows(env, m), m),
                        TermsOf(env.arith, EventOf(env, src, m)));
    forall k | k in ds ensures k.1 in FirstTables(env, src, m).players {
      FirstEntries(env, src, m, k.1);
      assert k == (key, k.1);
    }
  }

  lemma SideMember(ds: map<(Key, Id), Delta>, key: Key, team: Team, id: Id)
    ensures id in Side(ds, key, team) <==> (key, id) in ds && ds[(key, id)].team == team
  {
  }

  lemma FirstLog(env: Env, src: Source, m: RawMatch)
    requires Single(env, src, m)
    ensures StoredLog(FirstTables(env, src, m)) == [EntryFor(env, src, m)]
    ensures Shape(FirstTables(env, src, m))
  {
    FirstSide(env, src, m, A);
    FirstSide(env, src, m, B);
    FirstDeltas(env, src, m);
    FirstEvents(env, src, m);
    SingleShape(FirstTables(env, src, m), EntryFor(env, src, m));
  }

  lemma FirstEvents(env: Env, src: Source, m: RawMatch)
    requires Single(env, src, m)
    ensures FirstTables(env, src, m).events == [EventOf(env, src, m)]
    ensures EventOf(env, src, m).key.sourceId == EventOf(env, src, m).sourceId
    ensures TwoSided(EntryFor(env, src, m))
  {
    FirstTablesAre(env, src, m);
    assert Eligible(env, m, A)[0] in IdSet(Eligible(env, m, A)) && Eligible(env, m, B)[0] in IdSet(Eligible(env, m, B));
  }

  lemma SingleShape(db: DB, en: Entry)
    requires db.events == [en.ev] && EntryOf(db.deltas, en.ev) == en && TwoSided(en) && en.ev.key.sourceId == en.ev.sourceId
    requires forall k <- db.deltas :: k.0 == en.ev.key && k.1 in db.players
    ensures StoredLog(db) == [en] && Shape(db)
  {
    assert en.ev in db.events;
  }

  lemma FirstStates(env: Env, m: RawMatch, team: Team)
    ensures Opponents(env, FirstRows(env, m), m, team) == Opponents(env, map[], m, team)
  {
    FilledIsTransparent(Base(env), map[], Named(env, [m]));
    StatesRespectGets(Base(env), map[], FirstRows(env, m), Fielded(env, m, team));
  }

  /** A player of side A after his first game: by the ingest, and by the rebuild. */
  lemma FirstGameTwice(env: Env, src: Source, m: RawMatch, id: Id)
    requires Valid(env.cfg) && Single(env, src, m) && id in Eligible(env, m, A)
    ensures var out, t := FirstTables(env, src, m), TermsOf(env.arith, EventOf(env, src, m));
      var row, outcome := FormingRow(env, id), OutcomeA(m.scoreA, m.scoreB);
      && id in out.players && id in Rebuilt(env, out).players
      && out.players[id] == Played(env.arith, row, Opponents(env, map[], m, B), outcome, t)
      && Rebuilt(env, out).players[id]
           == Played(env.arith, row, Facing(Base(env), map[], IdSet(Eligible(env, m, B))), outcome, t)
  {
    var out, en := FirstTables(env, src, m), EntryFor(env, src, m);
    FirstEntries(env, src, m, id);
    FirstStates(env, m, B);
    FirstLog(env, src, m);
    RebuiltTables(env, out);
    assert [en][..0] == [];
    assert Replay(env.arith, Base(env), [en]) == Step(env.arith, Base(env), map[], en);
    assert id in en.sideA && Eligible(env, m, B)[0] in en.sideB;
    GetOfStep(env.arith, Base(env), map[], en, id);
  }

  // ---------------------------------------------------------------- a reconciling ingest

  /** The same source with the first score of its match corrected. */
  function Corrected(src: Source, m: RawMatch, score: int): Source { src.(matches := [m.(scoreA := score)]) }

  lemma FirstIsRemembered(env: Env, src: Source, m: RawMatch)
    requires Single(env, src, m)
    ensures KnownFingerprint(FirstTables(env, src, m), src.sourceId) == Some(SourceFingerprint([m]))
  {
    assert [m][..0] == [] && Processed(env, [m][..0]) == 0;
    assert Processed(env, [m]) == 1;
  }

  lemma FingerprintOfOne(m: RawMatch)
    ensures SourceFingerprint([m]) == [CanonicalOf(m)]
  {
    assert Canonicals([m]) == [CanonicalOf(m)];
    OrdersAreStrictWeak();
    SortOfOrdered([CanonicalOf(m)], CanonicalBefore);
  }

  lemma NothingLeft(env: Env, src: Source, m: RawMatch)
    requires Single(env, src, m)
    ensures WithoutEvents(FirstTables(env, src, m), src.sourceId).events == []
    ensures Others(FirstTables(env, src, m).events, src.sourceId) != FirstTables(env, src, m).events
  {
    FirstEvents(env, src, m);
    var ev := EventOf(env, src, m);
    assert [ev][..0] == [] && Others([ev][..0], src.sourceId) == [];
  }

  lemma CorrectedIsSingle(env: Env, src: Source, m: RawMatch, score: int)
    requires Single(env, src, m) && Replayable(env, m)
    ensures Single(env, Corrected(src, m, score), m.(scoreA := score))
    ensures Admissible(env, src) && Admissible(env, Corrected(src, m, score))
  {
  }

  lemma CorrectionReconciles(env: Env, src: Source, m: RawMatch, score: int)
    requires Single(env, src, m) && Replayable(env, m) && score != m.scoreA && env.cfg.autoReconcile
    ensures Reconciles(env, FirstTables(env, src, m), Corrected(src, m, score))
  {
    var again, cut := Corrected(src, m, score), WithoutEvents(FirstTables(env, src, m), src.sourceId);
    CorrectedIsSingle(env, src, m, score);
    FirstIsRemembered(env, src, m);
    FingerprintOfOne(m);
    FingerprintOfOne(m.(scoreA := score));
    NothingLeft(env, src, m);
    NeverTooLateForNothing(env.cfg, cut, again);
    SingleBatch(env, cut, again, m.(scoreA := score));
  }

  /** With auto_reconcile on, correcting the score of an ingested game and ingesting it again
      leaves tables that a rebuild changes. */
  lemma CorrectionBreaksAgreement(env: Env, src: Source, m: RawMatch, score: int)
    requires Valid(env.cfg) && env.cfg.autoReconcile && OrderBlind(env.arith)
    requires Single(env, src, m) && Replayable(env, m) && score != m.scoreA
    ensures var db := Run(env, [Ingest(src), Ingest(Corrected(src, m, score))]); Rebuilt(env, db) != db
  {
    var again, first := Corrected(src, m, score), FirstTables(env, src, m);
    FirstIngest(env, src, m);
    FirstIsConsistent(env, src, m);
    CorrectedIsSingle(env, src, m, score);
    CorrectionReconciles(env, src, m, score);
    NothingLeft(env, src, m);
    RunTwo(env, src, again, first);
    ReconcileAgreesOnlyOnNothing(env, first, again);
  }

  lemma FirstIsConsistent(env: Env, src: Source, m: RawMatch)
    requires OrderBlind(env.arith) && Single(env, src, m) && Replayable(env, m)
    ensures Consistent(env, FirstTables(env, src, m))
  {
    CorrectedIsSingle(env, src, m, 0);
    EmptyIsConsistent(env);
    SingleBatch(env, EMPTY, src, m);
    NeverTooLateForNothing(env.cfg, EMPTY, src);
    CommittedKeepsConsistent(env, EMPTY, src);
  }

  // ---------------------------------------------------------------- a source that keeps another out

  lemma OnlyItsOwnRow(env: Env, src: Source, m: RawMatch, other: string)
    requires Single(env, src, m) && other != src.sourceId
    ensures KnownFingerprint(FirstTables(env, src, m), other).None?
  {
    CommittedTouchesOneSource(env, EMPTY, src, [m], other);
  }

  lemma SingleIsPlayable(env: Env, src: Source, m: RawMatch)
    requires Single(env, src, m)
    ensures Playable(env.cfg, src.matches) == [m]
  {
    assert [m][..0] == [] && Playable(env.cfg, [m][..0]) == [];
  }

  lemma EarlierIsTooLate(cfg: Config, db: DB, src: Source, n: RawMatch, newest: Event)
    requires Playable(cfg, src.matches) == [n] && db.events == [newest] && n.date < newest.date
    ensures TooLate(cfg, db, src)
  {
    SingleIsSorted(n);
    OrderedEventsAreInOrderOfPlay([newest]);
  }

  lemma RefusedAsTooLate(env: Env, db: DB, src: Source)
    requires Proceeds(env, db, src) && Playable(env.cfg, src.matches) != [] && TooLate(env.cfg, db, src)
    ensures Ingested(env, db, src) == (db, OutOfOrder)
  {
  }

  lemma ProcessedAlone(env: Env, src: Source, m: RawMatch)
    requires !env.cfg.autoReconcile && Single(env, src, m)
    ensures Processes(env, EMPTY, src)
  {
    SingleBatch(env, EMPTY, src, m);
    NeverTooLateForNothing(env.cfg, EMPTY, src);
    IngestReplies(env, EMPTY, src);
    OneProcessed(env, m);
  }

  lemma OneProcessed(env: Env, m: RawMatch)
    requires HasBothSides(env, m)
    ensures Processed(env, [m]) == 1
  {
    assert [m][..0] == [] && Processed(env, [m][..0]) == 0;
  }

  lemma NeverOfTwo(src: Source, other: Source)
    requires other.sourceId != src.sourceId
    ensures Never([Ingest(src)], src.sourceId) == []
    ensures Never([Ingest(src), Ingest(other)], src.sourceId) == [Ingest(other)]
  {
    NeverSnoc([], Ingest(src), src.sourceId);
    NeverSnoc([Ingest(src)], Ingest(other), src.sourceId);
    assert [] + [Ingest(src)] == [Ingest(src)] && [Ingest(src)] + [Ingest(other)] == [Ingest(src), Ingest(other)];
  }

  lemma SecondIsRefused(env: Env, src: Source, m: RawMatch, late: Source, n: RawMatch)
    requires Single(env, src, m) && Single(env, late, n) && late.sourceId != src.sourceId && n.date < m.date
    ensures Ingested(env, FirstTables(env, src, m), late) == (FirstTables(env, src, m), OutOfOrder)
  {
    FirstEvents(env, src, m);
    OnlyItsOwnRow(env, src, m, late.sourceId);
    SingleIsPlayable(env, late, n);
    EarlierIsTooLate(env.cfg, FirstTables(env, src, m), late, n, EventOf(env, src, m));
    RefusedAsTooLate(env, FirstTables(env, src, m), late);
  }

  lemma SecondIsKeptOut(env: Env, src: Source, m: RawMatch, late: Source, n: RawMatch)
    requires !env.cfg.autoReconcile && Single(env, src, m) && Single(env, late, n)
    requires late.sourceId != src.sourceId && n.date < m.date
    ensures KeptOut(env, [Ingest(src)], Ingest(late), src.sourceId)
  {
    FirstIngest(env, src, m);
    SecondIsRefused(env, src, m, late, n);
    NeverOfTwo(src, late);
    ProcessedAlone(env, late, n);
  }

  /** A source is ingested; another, of an earlier day, is then refused as out of order. Reverting
      the first does not bring the second in: without the first it would have been processed. */
  lemma EarlierSourceIsKeptOut(env: Env, src: Source, m: RawMatch, late: Source, n: RawMatch)
    requires Sound(env) && Single(env, src, m) && Single(env, late, n) && Replayable(env, m) && Replayable(env, n)
    requires late.sourceId != src.sourceId && n.date < m.date
    ensures Ingested(env, Run(env, [Ingest(src)]), late) == (Run(env, [Ingest(src)]), OutOfOrder)
    ensures KeptOut(env, [Ingest(src)], Ingest(late), src.sourceId)
    ensures Reverted(env, Run(env, [Ingest(src), Ingest(late)]), src.sourceId).events != Run(env, [Ingest(late)]).events
  {
    FirstIngest(env, src, m);
    SecondIsRefused(env, src, m, late, n);
    SecondIsKeptOut(env, src, m, late, n);
    RevertLeavesItOut(env, src, m, late);
  }

  lemma RevertLeavesItOut(env: Env, src: Source, m: RawMatch, late: Source)
    requires Sound(env) && Single(env, src, m) && Replayable(env, m) && late.sourceId != src.sourceId
    requires KeptOut(env, [Ingest(src)], Ingest(late), src.sourceId)
    ensures Reverted(env, Run(env, [Ingest(src), Ingest(late)]), src.sourceId).events != Run(env, [Ingest(late)]).events
  {
    OneRevertErases(env, src, m);
    NeverOfTwo(src, late);
    TwoOps(Ingest(src), Ingest(late));
    KeptOutParts(env, [Ingest(src)], Ingest(late), src.sourceId);
  }

  lemma TwoOps(a: Op, b: Op)
    ensures [a] + [b] == [a, b]
  {
  }

  lemma OneRevertErases(env: Env, src: Source, m: RawMatch)
    requires Sound(env) && Single(env, src, m) && Replayable(env, m)
    ensures RevertErases(env, [Ingest(src)], src.sourceId)
  {
    CorrectedIsSingle(env, src, m, 0);
    assert [Ingest(src)][..0] == [] && KeepsNoneOut(env, [], src.sourceId);
    assert !KeptOut(env, [], Ingest(src), src.sourceId);
    RevertErasesTheSource(env, [Ingest(src)], src.sourceId);
  }

  // ---------------------------------------------------------------- an opponent the log leaves out

  /** The program's arithmetic under the default parameters; nobody has a tier. */
  ghost predicate Newcomers(env: Env, m: Maths) {
    && Numeral(m) && env.arith == GlickoCalc(m, DEFAULTS)
    && Valid(env.cfg) && env.cfg.params == DEFAULTS && env.tiers == map[]
  }

  lemma NewcomersStart(env: Env, m: Maths, rows: map<Id, Row>, ids: seq<Id>)
    requires Newcomers(env, m) && rows == map[]
    ensures States(Base(env), rows, ids) == seq(|ids|, _ => NEWCOMER)
  {
    forall i | 0 <= i < |ids| ensures StateOf(Base(env), rows, ids[i]) == NEWCOMER {
      assert FormingRow(env, ids[i]) == NewRow(env.cfg, 1250.0);
    }
  }

  lemma FacingOne(env: Env, m: Maths, ids: seq<Id>)
    requires Newcomers(env, m) && |ids| == 1
    ensures Facing(Base(env), map[], IdSet(ids)) == [NEWCOMER]
  {
    SortedIdsEnumerate(IdSet(ids));
    EnumerationsAreAsLong(SortedIds(IdSet(ids)), ids);
    NewcomersStart(env, m, map[], SortedIds(IdSet(ids)));
  }

  lemma FacingTwo(env: Env, m: Maths, game: RawMatch)
    requires Newcomers(env, m) && |Fielded(env, game, B)| + Placeholders(game, B) == 2
    ensures Opponents(env, map[], game, B) == [NEWCOMER, NEWCOMER]
  {
    NewcomersStart(env, m, map[], Fielded(env, game, B));
  }

  lemma FirstDeviation(env: Env, m: Maths, id: Id, opps: seq<State>, out: real, t: Terms)
    requires Newcomers(env, m)
    ensures Played(env.arith, FormingRow(env, id), opps, out, t).rd
         == Update(m, DEFAULTS, NEWCOMER, opps, out, t.movm, t.weight).0.rd
  {
    assert FormingRow(env, id) == NewRow(env.cfg, 1250.0);
  }

  /** At most 185 as stored, at least 190 as rebuilt. */
  predicate DeviationDiffers(env: Env, db: DB, id: Id) {
    && id in db.players && id in Rebuilt(env, db).players
    && db.players[id].rd <= 185.0 && 190.0 <= Rebuilt(env, db).players[id].rd
  }

  /** Two opponents at the ingest of whom one is logged: the deviation of a newcomer on the other
      side is below 185 as ingested and above 190 as rebuilt. */
  lemma LoggedAsOne(env: Env, m: Maths, src: Source, game: RawMatch, id: Id)
    requires Newcomers(env, m) && Single(env, src, game) && id in Eligible(env, game, A)
    requires |Eligible(env, game, B)| == 1 && |Fielded(env, game, B)| + Placeholders(game, B) == 2
    ensures DeviationDiffers(env, Run(env, [Ingest(src)]), id)
  {
    var t, out := TermsOf(env.arith, EventOf(env, src, game)), OutcomeA(game.scoreA, game.scoreB);
    FirstIngest(env, src, game);
    FirstGameTwice(env, src, game, id);
    FacingOne(env, m, Eligible(env, game, B));
    FacingTwo(env, m, game);
    FirstDeviation(env, m, id, [NEWCOMER], out, t);
    FirstDeviation(env, m, id, [NEWCOMER, NEWCOMER], out, t);
    OneOrTwoNewcomers(m, out, t.movm, t.weight);
  }

  /** A doubles game of three rated newcomers, in this order, and a fourth who is a placeholder, or
      known but not registered by the day of the game. */
  predicate ThreeAndAGhost(env: Env, game: RawMatch, x: Id, y: Id, z: Id) {
    && |game.players| == 4
    && var (a, b, c, d) := (game.players[0], game.players[1], game.players[2], game.players[3]);
    && a.team == b.team == A && c.team == d.team == B && !a.absent && !b.absent && !c.absent && !d.absent
    && Resolve(env, a) == Some(x) && Resolve(env, b) == Some(y) && Resolve(env, c) == Some(z)
    && x != y && x != z && y != z
    && Registered(env, game.date, x) && Registered(env, game.date, y) && Registered(env, game.date, z)
    && (d.placeholder || (Resolve(env, d).Some? && !Registered(env, game.date, Resolve(env, d).value)))
  }

  function Chosen(keep: RawPlayer -> bool, p: RawPlayer): seq<RawPlayer> { if keep(p) then [p] else [] }

  lemma SelectSnoc(front: seq<RawPlayer>, p: RawPlayer, keep: RawPlayer -> bool)
    ensures Select(front + [p], keep) == Select(front, keep) + Chosen(keep, p)
  {
    assert (front + [p])[..|front|] == front;
  }

  lemma SelectFour(a: RawPlayer, b: RawPlayer, c: RawPlayer, d: RawPlayer, keep: RawPlayer -> bool)
    ensures Select([a, b, c, d], keep) == Chosen(keep, a) + Chosen(keep, b) + Chosen(keep, c) + Chosen(keep, d)
  {
    assert Select([], keep) == [];
    SelectSnoc([], a, keep);
    SelectSnoc([a], b, keep);
    SelectSnoc([a, b], c, keep);
    SelectSnoc([a, b, c], d, keep);
    assert [] + [a] == [a] && [a] + [b] == [a, b] && [a, b] + [c] == [a, b, c] && [a, b, c] + [d] == [a, b, c, d];
  }

  lemma ResolveOne(env: Env, p: RawPlayer)
    requires Resolve(env, p).Some?
    ensures ResolveAll(env, [p]) == [Resolve(env, p).value]
  {
    assert [p][..0] == [] && ResolveAll(env, []) == [];
  }

  lemma ResolveTwo(env: Env, p: RawPlayer, q: RawPlayer)
    requires Resolve(env, p).Some? && Resolve(env, q).Some?
    ensures ResolveAll(env, [p, q]) == [Resolve(env, p).value, Resolve(env, q).value]
  {
    ResolveOne(env, p);
    assert [p, q][..1] == [p];
  }

  lemma GateTwo(env: Env, date: int, x: Id, y: Id)
    ensures Gate(env, date, [x]) == if Registered(env, date, x) then [x] else []
    ensures Gate(env, date, [x, y])
         == (if Registered(env, date, x) then [x] else []) + if Registered(env, date, y) then [y] else []
  {
    assert [x][..0] == [] && Gate(env, date, []) == [];
    assert [x, y][..1] == [x];
  }

  lemma SidesOfTheGame(env: Env, game: RawMatch, x: Id, y: Id, z: Id)
    requires ThreeAndAGhost(env, game, x, y, z)
    ensures var ps := game.players;
      && TeamPlayers(env, game, A) == [ps[0], ps[1]]
      && TeamPlayers(env, game, B) == (if ps[3].placeholder then [ps[2]] else [ps[2], ps[3]])
      && Placeholders(game, B) == if ps[3].placeholder then 1 else 0
  {
    var ps := game.players;
    assert ps == [ps[0], ps[1], ps[2], ps[3]];
    forall keep: RawPlayer -> bool {
      SelectFour(ps[0], ps[1], ps[2], ps[3], keep);
    }
  }

  lemma WhoIsFielded(env: Env, game: RawMatch, x: Id, y: Id, z: Id)
    requires ThreeAndAGhost(env, game, x, y, z)
    ensures Fielded(env, game, A) == [x, y]
    ensures var d := game.players[3]; Fielded(env, game, B) == if d.placeholder then [z] else [z, Resolve(env, d).value]
  {
    var ps := game.players;
    SidesOfTheGame(env, game, x, y, z);
    ResolveTwo(env, ps[0], ps[1]);
    ResolveOne(env, ps[2]);
    if !ps[3].placeholder { ResolveTwo(env, ps[2], ps[3]); }
  }

  lemma WhoIsEligible(env: Env, game: RawMatch, x: Id, y: Id, z: Id)
    requires ThreeAndAGhost(env, game, x, y, z)
    ensures Eligible(env, game, A) == [x, y] && Eligible(env, game, B) == [z]
    ensures |Fielded(env, game, B)| + Placeholders(game, B) == 2
  {
    WhoIsFielded(env, game, x, y, z);
    SidesOfTheGame(env, game, x, y, z);
    GateTwo(env, game.date, x, y);
    var d := game.players[3];
    GateTwo(env, game.date, z, if d.placeholder then z else Resolve(env, d).value);
  }

  lemma NobodyPlaysTwice(env: Env, game: RawMatch, x: Id, y: Id, z: Id)
    requires ThreeAndAGhost(env, game, x, y, z)
    ensures DistinctPlayers(env, game)
  {
    WhoIsFielded(env, game, x, y, z);
    var d := game.players[3];
    if d.placeholder {
      assert [x, y] + [z] == [x, y, z];
    } else {
      assert [x, y] + [z, Resolve(env, d).value] == [x, y, z, Resolve(env, d).value];
    }
  }

  /** A game with a placeholder, or with a gated player, on the other side, ingested alone into
      empty tables: a rebuild changes the deviations of both its opponents, and is not the
      identity. */
  lemma UnloggedOpponentBreaksAgreement(env: Env, m: Maths, src: Source, game: RawMatch, x: Id, y: Id, z: Id)
    requires Newcomers(env, m) && ThreeAndAGhost(env, game, x, y, z)
    requires src.matches == [game] && game.sourceId == src.sourceId
    requires IsPlayable(env.cfg, game) && (env.cfg.ingestLockedOnly ==> src.final)
    ensures var db := Run(env, [Ingest(src)]);
      Rebuilt(env, db) != db && DeviationDiffers(env, db, x) && DeviationDiffers(env, db, y)
  {
    WhoIsEligible(env, game, x, y, z);
    NobodyPlaysTwice(env, game, x, y, z);
    assert Eligible(env, game, A)[0] == x && Eligible(env, game, A)[1] == y;
    LoggedAsOne(env, m, src, game, x);
    LoggedAsOne(env, m, src, game, y);
  }
}
