/** Ingesting an extracted source keeps the tables consistent and appends its entries to the log. */
module RatingIngest {
  import opened Options
  import opened RatingConfig
  import opened RatingMatch
  import opened RatingFold
  import opened RatingLog
  import opened RatingRebuild
  import opened RatingRuns
  import opened Sorting
  import Text

  // ---------------------------------------------------------------- a batch of matches

  /** The entries a batch adds to the log. */
  function EntriesFor(env: Env, src: Source, ms: seq<RawMatch>): seq<Entry> {
    if |ms| == 0 then []
    else
      var front, last := EntriesFor(env, src, ms[..|ms| - 1]), ms[|ms| - 1];
      if HasBothSides(env, last) then front + [EntryFor(env, src, last)] else front
  }

  lemma {:induction false} EntriesForComeFrom(env: Env, src: Source, ms: seq<RawMatch>, en: Entry)
    requires en in EntriesFor(env, src, ms)
    ensures exists m <- ms :: en == EntryFor(env, src, m)
  {
    if |ms| > 0 {
      var front, last := ms[..|ms| - 1], ms[|ms| - 1];
      assert last in ms;
      if en != EntryFor(env, src, last) {
        EntriesForComeFrom(env, src, front, en);
        var m :| m in front && en == EntryFor(env, src, m);
        assert m in ms;
      }
    }
  }

  lemma {:induction false} ProcessedCountsEntries(env: Env, src: Source, ms: seq<RawMatch>)
    ensures Processed(env, ms) == |EntriesFor(env, src, ms)|
  {
    if |ms| > 0 { ProcessedCountsEntries(env, src, ms[..|ms| - 1]); }
  }

  /** Strictly later in the log, under another key. */
  predicate Follows(env: Env, src: Source, m: RawMatch, later: RawMatch) {
    MatchKey(m) != MatchKey(later) && EventBefore(EventOf(env, src, m), EventOf(env, src, later))
  }

  ghost predicate ReadyBatch(env: Env, src: Source, db: DB, ms: seq<RawMatch>) {
    && (forall m <- ms :: Ready(env, src, db, m))
    && (forall i, j :: 0 <= i < j < |ms| ==> Follows(env, src, ms[i], ms[j]))
  }

  lemma ReadyPrefix(env: Env, src: Source, db: DB, ms: seq<RawMatch>)
    requires |ms| > 0 && ReadyBatch(env, src, db, ms)
    ensures ReadyBatch(env, src, db, ms[..|ms| - 1])
    ensures ms == ms[..|ms| - 1] + [ms[|ms| - 1]]
  {
    forall m | m in ms[..|ms| - 1] ensures Ready(env, src, db, m) {
      assert m in ms;
    }
  }

  lemma {:induction false} RecordedAllKeepsSources(env: Env, src: Source, db: DB, ms: seq<RawMatch>)
    ensures RecordedAll(env, src, db, ms).sources == db.sources
  {
    if |ms| > 0 { RecordedAllKeepsSources(env, src, db, ms[..|ms| - 1]); }
  }

  lemma {:induction false} RecordedAllKeepsConsistent(env: Env, src: Source, db: DB, ms: seq<RawMatch>)
    requires OrderBlind(env.arith) && Consistent(env, db) && ReadyBatch(env, src, db, ms)
    ensures Consistent(env, RecordedAll(env, src, db, ms))
    ensures RecordedAll(env, src, db, ms).players.Keys == db.players.Keys
    ensures StoredLog(RecordedAll(env, src, db, ms)) == StoredLog(db) + EntriesFor(env, src, ms)
  {
    if |ms| > 0 {
      var front, last := ms[..|ms| - 1], ms[|ms| - 1];
      ReadyPrefix(env, src, db, ms);
      RecordedAllKeepsConsistent(env, src, db, front);
      StillReady(env, src, db, front, last, RecordedAll(env, src, db, front));
      RecordedKeepsConsistent(env, src, RecordedAll(env, src, db, front), last);
      EntriesForOneMore(env, src, front, last);
      RecordedAllUnfolds(env, src, db, ms);
      LogsAssociate(StoredLog(db), EntriesFor(env, src, front), if HasBothSides(env, last) then [EntryFor(env, src, last)] else []);
    } else {
      LogsAssociate(StoredLog(db), [], []);
    }
  }

  lemma LogsAssociate(a: seq<Entry>, b: seq<Entry>, c: seq<Entry>)
    ensures a + b + c == a + (b + c) && a + [] == a
  {}

  lemma RecordedAllUnfolds(env: Env, src: Source, db: DB, ms: seq<RawMatch>)
    requires |ms| > 0
    ensures RecordedAll(env, src, db, ms) == Recorded(env, src, RecordedAll(env, src, db, ms[..|ms| - 1]), ms[|ms| - 1])
  {}

  lemma EntriesForOneMore(env: Env, src: Source, front: seq<RawMatch>, last: RawMatch)
    ensures EntriesFor(env, src, front + [last])
         == EntriesFor(env, src, front) + (if HasBothSides(env, last) then [EntryFor(env, src, last)] else [])
  {
    assert (front + [last])[..|front|] == front;
  }

  /** A logged event was there before or comes from the matches recorded since. */
  lemma EventOrigin(env: Env, src: Source, db: DB, front: seq<RawMatch>, now: DB, e: Event)
    requires StoredLog(now) == StoredLog(db) + EntriesFor(env, src, front) && e in now.events
    ensures e in db.events || exists m <- front :: e == EventOf(env, src, m)
  {
    var i :| 0 <= i < |now.events| && now.events[i] == e;
    EventAt(db, now, EntriesFor(env, src, front), i);
    if i >= |db.events| {
      var en := EntriesFor(env, src, front)[i - |db.events|];
      EntriesForComeFrom(env, src, front, en);
      var m :| m in front && en == EntryFor(env, src, m);
      assert e == EventOf(env, src, m);
    }
  }

  lemma EventAt(db: DB, now: DB, added: seq<Entry>, i: nat)
    requires StoredLog(now) == StoredLog(db) + added && i < |now.events|
    ensures |now.events| == |db.events| + |added|
    ensures now.events[i] == if i < |db.events| then db.events[i] else added[i - |db.events|].ev
  {
    assert StoredLog(now)[i].ev == now.events[i];
    assert i < |db.events| ==> StoredLog(db)[i].ev == db.events[i];
  }

  lemma StillReady(env: Env, src: Source, db: DB, front: seq<RawMatch>, last: RawMatch, now: DB)
    requires ReadyBatch(env, src, db, front + [last])
    requires now.players.Keys == db.players.Keys && StoredLog(now) == StoredLog(db) + EntriesFor(env, src, front)
    ensures Ready(env, src, now, last)
  {
    var all := front + [last];
    assert all[|front|] == last && last in all;
    assert Ready(env, src, db, last);
    forall e | e in now.events ensures e.key != MatchKey(last) && EventBefore(e, EventOf(env, src, last)) {
      EventOrigin(env, src, db, front, now, e);
      if e in db.events {
        assert e.key in Keys(db.events);
      } else {
        var m :| m in front && e == EventOf(env, src, m);
        var j :| 0 <= j < |front| && front[j] == m;
        assert Follows(env, src, all[j], all[|front|]);
      }
    }
  }

  // ---------------------------------------------------------------- the reply

  lemma {:induction false} PlayableOrSkipped(cfg: Config, ms: seq<RawMatch>)
    ensures |Playable(cfg, ms)| + |Unplayable(cfg, ms)| == |ms|
  {
    if |ms| > 0 { PlayableOrSkipped(cfg, ms[..|ms| - 1]); }
  }

  lemma {:induction false} FreshOrStale(ms: seq<RawMatch>, logged: set<Key>)
    ensures |Fresh(ms, logged)| + |Stale(ms, logged)| == |ms|
  {
    if |ms| > 0 { FreshOrStale(ms[..|ms| - 1], logged); }
  }

  lemma {:induction false} RatedOrPassedOver(env: Env, ms: seq<RawMatch>)
    ensures Processed(env, ms) + |Unrated(env, ms)| == |ms|
  {
    if |ms| > 0 { RatedOrPassedOver(env, ms[..|ms| - 1]); }
  }

  /** An answered ingest accounts for every match of the source: it is processed or listed as
      skipped, once. Only a source found unchanged is answered without a list. */
  lemma ReplyAccountsForEveryMatch(env: Env, db: DB, src: Source)
    requires Ingested(env, db, src).1.Done?
    requires KnownFingerprint(db, src.sourceId) != Some(SourceFingerprint(src.matches))
    ensures var reply := Ingested(env, db, src).1; reply.processed + |reply.skipped| == |src.matches|
  {
    var cut := if KnownFingerprint(db, src.sourceId).Some? then WithoutEvents(db, src.sourceId) else db;
    var playable := Playable(env.cfg, src.matches);
    PlayableOrSkipped(env.cfg, src.matches);
    OrdersAreStrictWeak();
    SortSorts(playable, MatchBefore);
    FreshOrStale(SortMatchesByOrder(playable), Keys(cut.events));
    RatedOrPassedOver(env, Batch(env.cfg, cut, src));
  }

  /** A batch appends its events, one for every match processed. */
  lemma {:induction false} RecordedAllGrows(env: Env, src: Source, db: DB, ms: seq<RawMatch>)
    ensures db.events <= RecordedAll(env, src, db, ms).events
    ensures |RecordedAll(env, src, db, ms).events| == |db.events| + Processed(env, ms)
  {
    if |ms| > 0 { RecordedAllGrows(env, src, db, ms[..|ms| - 1]); }
  }

  /** The reply's count is the growth of the log: whatever the tables hold, an ingest only appends,
      as many events as it reports processed, and none if it refuses. */
  lemma ProcessedIsTheGrowth(env: Env, db: DB, src: Source)
    requires !env.cfg.autoReconcile
    ensures var (out, reply) := Ingested(env, db, src);
      db.events <= out.events && |out.events| == |db.events| + if reply.Done? then reply.processed else 0
  {
    IngestCases(env, db, src);
    IngestReplies(env, db, src);
    if Commits(env, db, src) {
      var batch := Batch(env.cfg, db, src);
      RecordedAllGrows(env, src, db.(players := Filled(Base(env), db.players, Named(env, batch))), batch);
      CommittedOnlyAddsASource(env, db, src, batch);
    }
  }

  lemma IngestReplies(env: Env, db: DB, src: Source)
    requires !env.cfg.autoReconcile
    ensures var reply := Ingested(env, db, src).1;
      reply.Done? ==> reply.processed == if Commits(env, db, src) then Processed(env, Batch(env.cfg, db, src)) else 0
    ensures Commits(env, db, src) ==> Ingested(env, db, src).1.Done?
  {
  }

  // ---------------------------------------------------------------- choosing the batch

  lemma {:induction false} PlayableIsPart(cfg: Config, ms: seq<RawMatch>)
    ensures forall m <- Playable(cfg, ms) :: m in ms
    ensures DistinctOrders(ms) ==> DistinctOrders(Playable(cfg, ms))
  {
    if |ms| > 0 {
      PlayableIsPart(cfg, ms[..|ms| - 1]);
      assert ms == ms[..|ms| - 1] + [ms[|ms| - 1]];
      if DistinctOrders(ms) {
        assert DistinctOrders(ms[..|ms| - 1]);
        assert forall m <- ms[..|ms| - 1] :: m.gameOrder != ms[|ms| - 1].gameOrder;
      }
    }
  }

  lemma {:induction false} FreshIsPart(ms: seq<RawMatch>, logged: set<Key>)
    ensures forall m <- Fresh(ms, logged) :: m in ms && MatchKey(m) !in logged
  {
    if |ms| > 0 {
      FreshIsPart(ms[..|ms| - 1], logged);
      assert forall m <- ms[..|ms| - 1] :: m in ms;
    }
  }

  lemma {:induction false} FreshHasDistinctKeys(ms: seq<RawMatch>, logged: set<Key>)
    ensures forall i, j :: 0 <= i < j < |Fresh(ms, logged)| ==> MatchKey(Fresh(ms, logged)[i]) != MatchKey(Fresh(ms, logged)[j])
  {
    if |ms| > 0 {
      var front := ms[..|ms| - 1];
      FreshHasDistinctKeys(front, logged);
      FreshIsPart(front, logged);
      var f := Fresh(front, logged);
      assert forall i :: 0 <= i < |f| ==> f[i] in front && MatchKey(f[i]) in KeysOf(front);
    }
  }

  lemma {:induction false} FreshStaysInOrder(ms: seq<RawMatch>, logged: set<Key>)
    requires StrictlyInOrder(ms, MatchBefore)
    ensures StrictlyInOrder(Fresh(ms, logged), MatchBefore)
  {
    if |ms| > 0 {
      var front, last := ms[..|ms| - 1], ms[|ms| - 1];
      assert forall i :: 0 <= i < |front| ==> front[i] == ms[i];
      FreshStaysInOrder(front, logged);
      FreshIsPart(front, logged);
      var f := Fresh(front, logged);
      forall i | 0 <= i < |f| ensures MatchBefore(f[i], last) {
        assert f[i] in front;
      }
    }
  }

  lemma SortedPlayable(cfg: Config, ms: seq<RawMatch>)
    requires DistinctOrders(ms)
    ensures StrictlyInOrder(SortMatchesByOrder(Playable(cfg, ms)), MatchBefore)
    ensures forall m <- SortMatchesByOrder(Playable(cfg, ms)) :: m in ms
    ensures |SortMatchesByOrder(Playable(cfg, ms))| == |Playable(cfg, ms)|
  {
    var p := Playable(cfg, ms);
    OrdersAreStrictWeak();
    PlayableIsPart(cfg, ms);
    DistinctOrdersDoNotTie(p);
    SortIsStrict(p, MatchBefore);
    SortSorts(p, MatchBefore);
    forall m | m in SortMatchesByOrder(p) ensures m in ms {
      assert m in multiset(SortMatchesByOrder(p));
      assert m in multiset(p);
    }
  }

  lemma {:induction false} ResolveAllMembers(env: Env, ps: seq<RawPlayer>, id: Id)
    requires id in ResolveAll(env, ps)
    ensures exists p <- ps :: Resolve(env, p) == Some(id)
  {
    if |ps| > 0 {
      var last := ps[|ps| - 1];
      assert last in ps;
      if Resolve(env, last) != Some(id) {
        ResolveAllMembers(env, ps[..|ps| - 1], id);
        var p :| p in ps[..|ps| - 1] && Resolve(env, p) == Some(id);
        assert p in ps;
      }
    }
  }

  lemma FieldedAreNamed(env: Env, ms: seq<RawMatch>, m: RawMatch, team: Team)
    requires m in ms
    ensures forall id <- Fielded(env, m, team) :: id in Named(env, ms)
  {
    forall id | id in Fielded(env, m, team) ensures id in Named(env, ms) {
      ResolveAllMembers(env, TeamPlayers(env, m, team), id);
      SelectMembers(m.players, Real(team));
      SelectMembers(m.players, Present(team));
    }
  }

  /** Everything logged so far comes before a batch that passes the order guard. */
  lemma GuardOrdersTheLog(env: Env, db: DB, src: Source, m: RawMatch)
    requires Shape(db) && Extracted(src) && m in src.matches
    requires Playable(env.cfg, src.matches) != [] && !TooLate(env.cfg, db, src)
    ensures forall e <- db.events :: EventBefore(e, EventOf(env, src, m))
  {
    OrderedEventsAreInOrderOfPlay(db.events);
    SortedPlayable(env.cfg, src.matches);
    var playable := SortMatchesByOrder(Playable(env.cfg, src.matches));
    assert playable[0] in playable;
    forall e | e in db.events ensures EventBefore(e, EventOf(env, src, m)) {
      var newest := db.events[|db.events| - 1];
      var i :| 0 <= i < |db.events| && db.events[i] == e;
      assert i < |db.events| - 1 ==> EventBefore(e, newest);
      assert playable[0].date == m.date;
      GuardMeansBefore(newest, EventOf(env, src, m));
      if i < |db.events| - 1 { EventOrderIsStrictWeak(); }
    }
  }

  lemma GuardMeansBefore(newest: Event, ev: Event)
    requires Chronological(ev.date, ev.createdAt, ev.sourceId, newest)
    ensures EventBefore(newest, ev)
  {
    Text.LessIsTotal(newest.sourceId, ev.sourceId);
  }

  lemma BatchIsReady(env: Env, db: DB, src: Source)
    requires Shape(db) && Admissible(env, src)
    requires Playable(env.cfg, src.matches) != [] && !TooLate(env.cfg, db, src)
    ensures var batch := Batch(env.cfg, db, src);
            ReadyBatch(env, src, db.(players := Filled(Base(env), db.players, Named(env, batch))), batch)
  {
    var playable := SortMatchesByOrder(Playable(env.cfg, src.matches));
    var batch := Batch(env.cfg, db, src);
    var filled := db.(players := Filled(Base(env), db.players, Named(env, batch)));
    SortedPlayable(env.cfg, src.matches);
    FreshIsPart(playable, Keys(db.events));
    FreshHasDistinctKeys(playable, Keys(db.events));
    FreshStaysInOrder(playable, Keys(db.events));
    forall m | m in batch ensures Ready(env, src, filled, m) {
      assert m in playable && m in src.matches;
      GuardOrdersTheLog(env, db, src, m);
      FieldedAreNamed(env, batch, m, A);
      FieldedAreNamed(env, batch, m, B);
    }
    forall i, j | 0 <= i < j < |batch| ensures Follows(env, src, batch[i], batch[j]) {
      assert batch[i] in playable && batch[j] in playable;
      assert MatchBefore(batch[i], batch[j]);
    }
  }

  lemma FillingTwice(base: Id -> Row, rows: map<Id, Row>, a: set<Id>, b: set<Id>)
    ensures Filled(base, Filled(base, rows, a), b) == Filled(base, rows, a + b)
  {}

  lemma FillingKeepsConsistent(env: Env, db: DB, ids: set<Id>)
    requires Consistent(env, db)
    ensures Consistent(env, db.(players := Filled(Base(env), db.players, ids)))
    ensures StoredLog(db.(players := Filled(Base(env), db.players, ids))) == StoredLog(db)
  {
    FillingTwice(Base(env), Replay(env.arith, Base(env), StoredLog(db)), db.players.Keys, ids);
    var out := db.(players := Filled(Base(env), db.players, ids));
    assert out.players.Keys == db.players.Keys + ids;
    assert DeltasRefer(out);
  }

  lemma CommittedOnlyAddsASource(env: Env, db: DB, src: Source, batch: seq<RawMatch>)
    ensures var filled := db.(players := Filled(Base(env), db.players, Named(env, batch)));
            Committed(env, db, src, batch)
              == RecordedAll(env, src, filled, batch).(sources := Committed(env, db, src, batch).sources)
  {}

  /** A committed batch keeps the tables consistent and appends exactly its own entries. */
  lemma CommittedKeepsConsistent(env: Env, db: DB, src: Source)
    requires OrderBlind(env.arith) && Consistent(env, db) && Admissible(env, src)
    requires Playable(env.cfg, src.matches) != [] && !TooLate(env.cfg, db, src)
    ensures Consistent(env, Committed(env, db, src, Batch(env.cfg, db, src)))
    ensures Committed(env, db, src, Batch(env.cfg, db, src)).players.Keys
         == db.players.Keys + Named(env, Batch(env.cfg, db, src))
    ensures StoredLog(Committed(env, db, src, Batch(env.cfg, db, src)))
         == StoredLog(db) + EntriesFor(env, src, Batch(env.cfg, db, src))
  {
    var batch := Batch(env.cfg, db, src);
    var filled := db.(players := Filled(Base(env), db.players, Named(env, batch)));
    FillingKeepsConsistent(env, db, Named(env, batch));
    BatchIsReady(env, db, src);
    RecordedAllKeepsConsistent(env, src, filled, batch);
    CommittedOnlyAddsASource(env, db, src, batch);
    SourcesDoNotMatter(env, RecordedAll(env, src, filled, batch), Committed(env, db, src, batch).sources);
  }

  lemma SourcesDoNotMatter(env: Env, db: DB, sources: map<string, SourceRow>)
    ensures Consistent(env, db) ==> Consistent(env, db.(sources := sources))
    ensures StoredLog(db.(sources := sources)) == StoredLog(db)
  {}

  // ---------------------------------------------------------------- what an ingest does

  /** The source is final where that is asked for, and not ingested yet. */
  predicate Proceeds(env: Env, db: DB, src: Source) {
    (env.cfg.ingestLockedOnly ==> src.final) && KnownFingerprint(db, src.sourceId).None?
  }

  predicate Commits(env: Env, db: DB, src: Source) {
    && Proceeds(env, db, src) && Playable(env.cfg, src.matches) != []
    && !TooLate(env.cfg, db, src) && Batch(env.cfg, db, src) != []
  }

  function MarkedSources(env: Env, db: DB, src: Source): map<string, SourceRow> {
    if Proceeds(env, db, src) && Playable(env.cfg, src.matches) == [] && src.final && src.sourceId !in db.sources
    then db.sources[src.sourceId := SourceRow(src.kind, None, true)] else db.sources
  }

  /** An ingest commits its batch or touches at most its own source row. */
  lemma IngestCases(env: Env, db: DB, src: Source)
    requires !env.cfg.autoReconcile
    ensures Commits(env, db, src) ==> Ingested(env, db, src).0 == Committed(env, db, src, Batch(env.cfg, db, src))
    ensures !Commits(env, db, src) ==> Ingested(env, db, src).0 == db.(sources := MarkedSources(env, db, src))
    ensures Proceeds(env, db, src) && Playable(env.cfg, src.matches) != [] && TooLate(env.cfg, db, src)
         <==> Ingested(env, db, src).1 == OutOfOrder
  {}

  /** An ingest keeps the tables consistent, whatever it answers. */
  lemma IngestKeepsConsistent(env: Env, db: DB, src: Source)
    requires Sound(env) && Consistent(env, db) && Admissible(env, src)
    ensures Consistent(env, Ingested(env, db, src).0)
  {
    var out := Ingested(env, db, src).0;
    SourcesDoNotMatter(env, db, out.sources);
    if Playable(env.cfg, src.matches) != [] && !TooLate(env.cfg, db, src) {
      CommittedKeepsConsistent(env, db, src);
    }
  }
}
