/** Reverting a source undoes it: the tables agree with those of the history in which it never was
    ingested, exactly as long as it keeps no other source out. */
module RatingErase {
  import opened Options
  import opened RatingMatch
  import opened RatingFold
  import opened RatingLog
  import opened RatingRebuild
  import opened RatingRuns
  import opened RatingIngest
  import opened RatingHistory
  import Text

  predicate Concerns(op: Op, s: string) {
    match op
    case Ingest(src) => src.sourceId == s
    case Revert(sourceId) => sourceId == s
    case Purge(session) => session == s
    case _ => false
  }

  /** The history in which the source is never ingested, reverted or purged. */
  function Never(ops: seq<Op>, s: string): seq<Op> {
    if |ops| == 0 then []
    else
      var before, last := ops[..|ops| - 1], ops[|ops| - 1];
      if Concerns(last, s) then Never(before, s) else Never(before, s) + [last]
  }

  /** An ingest of another source, refused because the log already holds something later. */
  predicate Refuses(env: Env, db: DB, op: Op, s: string) {
    op.Ingest? && op.src.sourceId != s && Ingested(env, db, op.src).1 == OutOfOrder
  }

  predicate Processes(env: Env, db: DB, src: Source) {
    Ingested(env, db, src).1.Done? && Ingested(env, db, src).1.processed > 0
  }

  /** Refused after this history, but processed after the one without s. */
  predicate KeptOut(env: Env, before: seq<Op>, op: Op, s: string) {
    Refuses(env, Run(env, before), op, s) && Processes(env, Run(env, Never(before, s)), op.src)
  }

  /** The source keeps no other out, at any point of the history. */
  predicate KeepsNoneOut(env: Env, ops: seq<Op>, s: string) {
    |ops| > 0 ==>
      KeepsNoneOut(env, ops[..|ops| - 1], s) && !KeptOut(env, ops[..|ops| - 1], ops[|ops| - 1], s)
  }

  predicate NothingRefused(env: Env, ops: seq<Op>, s: string) {
    |ops| > 0 ==>
      NothingRefused(env, ops[..|ops| - 1], s) && !Refuses(env, Run(env, ops[..|ops| - 1]), ops[|ops| - 1], s)
  }

  ghost predicate SameOtherSources(d: map<string, SourceRow>, d': map<string, SourceRow>, s: string) {
    forall id :: id != s ==> (id in d <==> id in d') && (id in d ==> d[id] == d'[id])
  }

  /** d' is d without what the source did to the log. */
  ghost predicate Without(d: DB, d': DB, s: string) {
    StoredLog(d') == OtherEntries(StoredLog(d), s) && SameOtherSources(d.sources, d'.sources, s)
  }

  // ---------------------------------------------------------------- sublogs

  lemma {:induction false} OtherEntriesOfConcat(a: seq<Entry>, b: seq<Entry>, s: string)
    ensures OtherEntries(a + b, s) == OtherEntries(a, s) + OtherEntries(b, s)
  {
    if |b| == 0 {
      assert a + b == a;
    } else {
      assert (a + b)[..|a + b| - 1] == a + b[..|b| - 1];
      OtherEntriesOfConcat(a, b[..|b| - 1], s);
    }
  }

  lemma {:induction false} OtherEntriesCommute(log: seq<Entry>, s: string, t: string)
    ensures OtherEntries(OtherEntries(log, s), t) == OtherEntries(OtherEntries(log, t), s)
  {
    if |log| > 0 {
      OtherEntriesCommute(log[..|log| - 1], s, t);
    }
  }

  lemma EntriesForNameTheSource(env: Env, src: Source, ms: seq<RawMatch>)
    ensures forall en <- EntriesFor(env, src, ms) :: en.ev.sourceId == src.sourceId
  {
    forall en | en in EntriesFor(env, src, ms) ensures en.ev.sourceId == src.sourceId {
      EntriesForComeFrom(env, src, ms, en);
    }
  }

  lemma {:induction false} AllRemoved(log: seq<Entry>, s: string)
    requires forall en <- log :: en.ev.sourceId == s
    ensures OtherEntries(log, s) == []
  {
    if |log| > 0 {
      assert log[|log| - 1] in log;
      AllRemoved(log[..|log| - 1], s);
    }
  }

  lemma EventsOfLog(db: DB)
    ensures forall e :: e in db.events <==> exists en <- StoredLog(db) :: en.ev == e
  {
    forall e | e in db.events ensures exists en <- StoredLog(db) :: en.ev == e {
      var i :| 0 <= i < |db.events| && db.events[i] == e;
      assert StoredLog(db)[i].ev == e && StoredLog(db)[i] in StoredLog(db);
    }
  }

  /** Apart from the source, both logs hold the same events. */
  lemma SameOtherEvents(d: DB, d': DB, s: string)
    requires Without(d, d', s)
    ensures forall e :: e in d'.events <==> e in d.events && e.sourceId != s
  {
    EventsOfLog(d);
    EventsOfLog(d');
    OtherEntriesArePart(StoredLog(d), s);
    forall e ensures e in d'.events <==> e in d.events && e.sourceId != s {
      if e in d.events && e.sourceId != s {
        var en :| en in StoredLog(d) && en.ev == e;
        assert en in StoredLog(d');
      }
      if e in d'.events {
        var en :| en in StoredLog(d') && en.ev == e;
        assert en in StoredLog(d);
      }
    }
  }

  // ---------------------------------------------------------------- the same batch

  lemma {:induction false} FreshAgrees(ms: seq<RawMatch>, l1: set<Key>, l2: set<Key>)
    requires forall m <- ms :: MatchKey(m) in l1 <==> MatchKey(m) in l2
    ensures Fresh(ms, l1) == Fresh(ms, l2)
  {
    if |ms| > 0 {
      assert ms[|ms| - 1] in ms && forall m <- ms[..|ms| - 1] :: m in ms;
      FreshAgrees(ms[..|ms| - 1], l1, l2);
    }
  }

  lemma BatchAgrees(env: Env, d: DB, d': DB, src: Source, s: string)
    requires Shape(d) && Shape(d') && Without(d, d', s) && src.sourceId != s && Extracted(src)
    ensures Batch(env.cfg, d, src) == Batch(env.cfg, d', src)
  {
    SameOtherEvents(d, d', s);
    SortedPlayable(env.cfg, src.matches);
    var playable := SortMatchesByOrder(Playable(env.cfg, src.matches));
    forall m | m in playable ensures MatchKey(m) in Keys(d.events) <==> MatchKey(m) in Keys(d'.events) {
      assert m in src.matches;
      if MatchKey(m) in Keys(d.events) {
        var e :| e in d.events && e.key == MatchKey(m);
        assert e.sourceId == src.sourceId && e in d'.events;
      }
    }
    FreshAgrees(playable, Keys(d.events), Keys(d'.events));
  }

  /** Fewer events in the log never make a batch come too late. */
  lemma GuardStillPasses(env: Env, d: DB, d': DB, src: Source, s: string)
    requires Shape(d) && Shape(d') && Without(d, d', s) && Extracted(src)
    requires Playable(env.cfg, src.matches) != [] && !TooLate(env.cfg, d, src)
    ensures !TooLate(env.cfg, d', src)
  {
    if d'.events != [] {
      SameOtherEvents(d, d', s);
      OrderedEventsAreInOrderOfPlay(d.events);
      OrderedEventsAreInOrderOfPlay(d'.events);
      SortedPlayable(env.cfg, src.matches);
      var playable := SortMatchesByOrder(Playable(env.cfg, src.matches));
      var newest, newest' := d.events[|d.events| - 1], d'.events[|d'.events| - 1];
      assert newest' in d'.events && newest' in d.events;
      var i :| 0 <= i < |d.events| && d.events[i] == newest';
      if i < |d.events| - 1 {
        assert EventBefore(newest', newest);
        EarlierNewest(newest', newest, playable[0].date, src.createdAt, src.sourceId);
      }
    }
  }

  lemma EarlierNewest(earlier: Event, newest: Event, date: int, createdAt: int, sourceId: string)
    requires EventBefore(earlier, newest) && Chronological(date, createdAt, sourceId, newest)
    ensures Chronological(date, createdAt, sourceId, earlier)
  {
    Text.LessIsTotal(sourceId, newest.sourceId);
    Text.LessIsTotal(sourceId, earlier.sourceId);
    if Text.Less(newest.sourceId, sourceId) && Text.Less(earlier.sourceId, newest.sourceId) {
      Text.LessIsTransitive(earlier.sourceId, newest.sourceId, sourceId);
    }
    if Text.Less(earlier.sourceId, sourceId) && Text.Less(sourceId, earlier.sourceId) {
      Text.LessIsTransitive(earlier.sourceId, sourceId, earlier.sourceId);
      Text.LessIsIrreflexive(earlier.sourceId);
    }
    Text.LessIsIrreflexive(sourceId);
  }

  // ---------------------------------------------------------------- one operation on both sides

  lemma CommittedStaysWithout(env: Env, d: DB, d': DB, src: Source, s: string)
    requires Sound(env) && Consistent(env, d) && Consistent(env, d') && Without(d, d', s)
    requires Admissible(env, src) && src.sourceId != s
    requires Playable(env.cfg, src.matches) != [] && !TooLate(env.cfg, d, src)
    ensures Without(Committed(env, d, src, Batch(env.cfg, d, src)), Committed(env, d', src, Batch(env.cfg, d', src)), s)
  {
    GuardStillPasses(env, d, d', src, s);
    BatchAgrees(env, d, d', src, s);
    CommittedKeepsConsistent(env, d, src);
    CommittedKeepsConsistent(env, d', src);
    var batch := Batch(env.cfg, d, src);
    EntriesForNameTheSource(env, src, batch);
    AddedStaysWithout(d, d', Committed(env, d, src, batch), Committed(env, d', src, batch), EntriesFor(env, src, batch), s);
    SameSourcesCommitted(env, d, d', src, batch, s);
  }

  /** The same entries, of another source, added to both logs. */
  lemma AddedStaysWithout(d: DB, d': DB, out: DB, out': DB, added: seq<Entry>, s: string)
    requires Without(d, d', s) && forall en <- added :: en.ev.sourceId != s
    requires StoredLog(out) == StoredLog(d) + added && StoredLog(out') == StoredLog(d') + added
    ensures StoredLog(out') == OtherEntries(StoredLog(out), s)
  {
    OtherEntriesOfConcat(StoredLog(d), added, s);
    NoEntryToRemove(added, s);
  }

  lemma SameSourcesCommitted(env: Env, d: DB, d': DB, src: Source, batch: seq<RawMatch>, s: string)
    requires SameOtherSources(d.sources, d'.sources, s) && src.sourceId != s
    ensures SameOtherSources(Committed(env, d, src, batch).sources, Committed(env, d', src, batch).sources, s)
  {
    CommittedSources(env, d, src, batch);
    CommittedSources(env, d', src, batch);
  }

  lemma CommittedSources(env: Env, db: DB, src: Source, batch: seq<RawMatch>)
    ensures Committed(env, db, src, batch).sources
         == if Processed(env, batch) > 0 then db.sources[src.sourceId := IngestedRow(db, src)] else db.sources
  {
    RecordedAllKeepsSources(env, src, db.(players := Filled(Base(env), db.players, Named(env, batch))), batch);
  }

  lemma SourcesStayWithout(d: DB, d': DB, sources: map<string, SourceRow>, sources': map<string, SourceRow>, s: string)
    requires Without(d, d', s) && SameOtherSources(sources, sources', s)
    ensures Without(d.(sources := sources), d'.(sources := sources'), s)
  {
    assert StoredLog(d.(sources := sources)) == StoredLog(d);
    assert StoredLog(d'.(sources := sources')) == StoredLog(d');
  }

  lemma SameDecision(env: Env, d: DB, d': DB, src: Source, s: string)
    requires Shape(d) && Shape(d') && Without(d, d', s) && Extracted(src) && src.sourceId != s
    requires Proceeds(env, d, src) && Playable(env.cfg, src.matches) != [] ==> !TooLate(env.cfg, d, src)
    ensures Commits(env, d, src) <==> Commits(env, d', src)
    ensures SameOtherSources(MarkedSources(env, d, src), MarkedSources(env, d', src), s)
  {
    BatchAgrees(env, d, d', src, s);
    assert Proceeds(env, d, src) <==> Proceeds(env, d', src);
    if Proceeds(env, d, src) && Playable(env.cfg, src.matches) != [] {
      GuardStillPasses(env, d, d', src, s);
    }
  }

  lemma IngestStaysWithout(env: Env, d: DB, d': DB, src: Source, s: string)
    requires Sound(env) && Consistent(env, d) && Consistent(env, d') && Without(d, d', s)
    requires Admissible(env, src) && src.sourceId != s && Ingested(env, d, src).1 != OutOfOrder
    ensures Without(Ingested(env, d, src).0, Ingested(env, d', src).0, s)
  {
    IngestCases(env, d, src);
    IngestCases(env, d', src);
    SameDecision(env, d, d', src, s);
    if Commits(env, d, src) {
      CommittedStaysWithout(env, d, d', src, s);
    } else {
      SourcesStayWithout(d, d', MarkedSources(env, d, src), MarkedSources(env, d', src), s);
    }
  }

  function ForgottenSources(db: DB, id: string): map<string, SourceRow> {
    if (exists e <- db.events :: e.sourceId == id) && id in db.sources then db.sources[id := db.sources[id].(fingerprint := None)]
    else db.sources
  }

  lemma RevertedSources(env: Env, db: DB, id: string)
    ensures Reverted(env, db, id).sources == ForgottenSources(db, id)
  {
    NothingToRemove(db.events, id);
  }

  /** out is db after a revert of id, as far as the log, the rated players and the sources go. */
  ghost predicate IsRevertOf(out: DB, db: DB, id: string) {
    && StoredLog(out) == OtherEntries(StoredLog(db), id) && out.players.Keys == db.players.Keys
    && out.sources == ForgottenSources(db, id)
  }

  lemma RevertedIsRevert(env: Env, db: DB, id: string)
    requires Sound(env) && Consistent(env, db)
    ensures IsRevertOf(Reverted(env, db, id), db, id)
  {
    RevertReplaysTheRest(env, db, id);
    RevertedSources(env, db, id);
  }

  lemma RevertStaysWithout(d: DB, d': DB, r: DB, r': DB, id: string, s: string)
    requires Without(d, d', s) && id != s && IsRevertOf(r, d, id) && IsRevertOf(r', d', id)
    ensures Without(r, r', s)
  {
    OtherEntriesCommute(StoredLog(d), s, id);
    SameOtherEvents(d, d', s);
    assert (exists e <- d.events :: e.sourceId == id) <==> (exists e <- d'.events :: e.sourceId == id);
  }

  lemma OwnRevertStaysWithout(d: DB, d': DB, r: DB, s: string)
    requires Without(d, d', s) && IsRevertOf(r, d, s)
    ensures Without(r, d', s)
  {
    OtherEntriesArePart(StoredLog(d), s);
    NoEntryToRemove(OtherEntries(StoredLog(d), s), s);
  }

  /** out is db after a purge of id. */
  ghost predicate IsPurgeOf(out: DB, db: DB, id: string) {
    && StoredLog(out) == OtherEntries(StoredLog(db), id) && out.players.Keys == db.players.Keys
    && out.sources == db.sources - {id}
  }

  lemma PurgeStaysWithout(d: DB, d': DB, r: DB, r': DB, id: string, s: string)
    requires Without(d, d', s) && id != s && IsPurgeOf(r, d, id) && IsPurgeOf(r', d', id)
    ensures Without(r, r', s)
  {
    OtherEntriesCommute(StoredLog(d), s, id);
  }

  lemma OwnPurgeStaysWithout(d: DB, d': DB, r: DB, s: string)
    requires Without(d, d', s) && IsPurgeOf(r, d, s)
    ensures Without(r, d', s)
  {
    OtherEntriesArePart(StoredLog(d), s);
    NoEntryToRemove(OtherEntries(StoredLog(d), s), s);
  }

  /** What is done to the source itself is confined to it. */
  lemma OwnStepStaysWithout(env: Env, d: DB, d': DB, op: Op, s: string)
    requires Sound(env) && Consistent(env, d) && Without(d, d', s) && (op.Ingest? ==> Admissible(env, op.src))
    requires Concerns(op, s)
    ensures Without(Apply(env, d, op), d', s)
  {
    match op
    case Ingest(src) =>
      OwnIngestStaysWithout(env, d, d', src, s);
    case Revert(id) =>
      RevertedIsRevert(env, d, s);
      OwnRevertStaysWithout(d, d', Reverted(env, d, s), s);
    case Purge(id) =>
      PurgeReplaysTheRest(env, d, s);
      OwnPurgeStaysWithout(d, d', Purged(env, d, s), s);
  }

  lemma OwnIngestStaysWithout(env: Env, d: DB, d': DB, src: Source, s: string)
    requires Sound(env) && Consistent(env, d) && Without(d, d', s) && Admissible(env, src) && src.sourceId == s
    ensures Without(Ingested(env, d, src).0, d', s)
  {
    IngestCases(env, d, src);
    if Commits(env, d, src) {
      OwnBatchStaysWithout(env, d, d', src, s);
    } else {
      SourcesStayWithout(d, d', Ingested(env, d, src).0.sources, d'.sources, s);
    }
  }

  lemma OwnBatchStaysWithout(env: Env, d: DB, d': DB, src: Source, s: string)
    requires Sound(env) && Consistent(env, d) && Without(d, d', s) && Admissible(env, src) && src.sourceId == s
    requires Playable(env.cfg, src.matches) != [] && !TooLate(env.cfg, d, src)
    ensures Without(Committed(env, d, src, Batch(env.cfg, d, src)), d', s)
  {
    var batch := Batch(env.cfg, d, src);
    CommittedKeepsConsistent(env, d, src);
    OtherEntriesOfConcat(StoredLog(d), EntriesFor(env, src, batch), s);
    EntriesForNameTheSource(env, src, batch);
    AllRemoved(EntriesFor(env, src, batch), s);
    CommittedSources(env, d, src, batch);
  }

  /** A batch of which no match is processed writes no log and no source row. */
  lemma NothingProcessed(env: Env, db: DB, src: Source, batch: seq<RawMatch>)
    requires Sound(env) && Consistent(env, db) && Admissible(env, src)
    requires Playable(env.cfg, src.matches) != [] && !TooLate(env.cfg, db, src)
    requires batch == Batch(env.cfg, db, src) && Processed(env, batch) == 0
    ensures StoredLog(Committed(env, db, src, batch)) == StoredLog(db) && Committed(env, db, src, batch).sources == db.sources
  {
    CommittedKeepsConsistent(env, db, src);
    CommittedSources(env, db, src, batch);
    ProcessedCountsEntries(env, src, batch);
  }

  /** Nor does an ingest that processes nothing, if it has something to play. */
  lemma IdleIngest(env: Env, db: DB, src: Source)
    requires Sound(env) && Consistent(env, db) && Admissible(env, src)
    requires Playable(env.cfg, src.matches) != [] && !Processes(env, db, src)
    ensures StoredLog(Ingested(env, db, src).0) == StoredLog(db) && Ingested(env, db, src).0.sources == db.sources
  {
    IngestCases(env, db, src);
    IngestReplies(env, db, src);
    if Commits(env, db, src) {
      NothingProcessed(env, db, src, Batch(env.cfg, db, src));
    } else {
      SourcesDoNotMatter(env, db, MarkedSources(env, db, src));
    }
  }

  /** Refused here and not processed there: neither log changes. */
  lemma RefusedStaysWithout(env: Env, d: DB, d': DB, op: Op, s: string)
    requires Sound(env) && Consistent(env, d') && Without(d, d', s) && op.Ingest? && Admissible(env, op.src)
    requires Refuses(env, d, op, s) && !Processes(env, d', op.src)
    ensures Without(Apply(env, d, op), Apply(env, d', op), s)
  {
    RefusedChangesNothing(env, d, op, s);
    RefusedIsPlayable(env, d, op.src);
    IdleIngest(env, d', op.src);
  }

  lemma RefusedIsPlayable(env: Env, db: DB, src: Source)
    requires Ingested(env, db, src).1 == OutOfOrder
    ensures Playable(env.cfg, src.matches) != []
  {
  }

  lemma RefusedChangesNothing(env: Env, db: DB, op: Op, s: string)
    requires !env.cfg.autoReconcile && Refuses(env, db, op, s)
    ensures Apply(env, db, op) == db
  {
  }

  lemma KeptRevert(env: Env, d: DB, d': DB, id: string, s: string)
    requires Sound(env) && Consistent(env, d) && Consistent(env, d') && Without(d, d', s) && id != s
    ensures Without(Reverted(env, d, id), Reverted(env, d', id), s)
  {
    RevertedIsRevert(env, d, id);
    RevertedIsRevert(env, d', id);
    RevertStaysWithout(d, d', Reverted(env, d, id), Reverted(env, d', id), id, s);
  }

  lemma KeptPurge(env: Env, d: DB, d': DB, id: string, s: string)
    requires Sound(env) && Consistent(env, d) && Consistent(env, d') && Without(d, d', s) && id != s
    ensures Without(Purged(env, d, id), Purged(env, d', id), s)
  {
    PurgeReplaysTheRest(env, d, id);
    PurgeReplaysTheRest(env, d', id);
    PurgeStaysWithout(d, d', Purged(env, d, id), Purged(env, d', id), id, s);
  }

  lemma KeptStaysWithout(env: Env, d: DB, d': DB, op: Op, s: string)
    requires Sound(env) && Consistent(env, d) && Consistent(env, d') && Without(d, d', s)
    requires (op.Ingest? ==> Admissible(env, op.src)) && !Concerns(op, s)
    requires Refuses(env, d, op, s) ==> !Processes(env, d', op.src)
    ensures Without(Apply(env, d, op), Apply(env, d', op), s)
  {
    match op
    case Ingest(src) =>
      if Refuses(env, d, op, s) { RefusedStaysWithout(env, d, d', op, s); } else { IngestStaysWithout(env, d, d', src, s); }
    case Revert(id) => KeptRevert(env, d, d', id, s);
    case Purge(id) => KeptPurge(env, d, d', id, s);
    case Rebuild =>
      RebuildIsIdentity(env, d);
      RebuildIsIdentity(env, d');
    case Finalize(id, kind, finalized) =>
      SourcesStayWithout(d, d', Finalized(d, id, kind, finalized).sources, Finalized(d', id, kind, finalized).sources, s);
  }

  lemma NeverSnoc(before: seq<Op>, op: Op, s: string)
    ensures Never(before + [op], s) == Never(before, s) + if Concerns(op, s) then [] else [op]
  {
    assert (before + [op])[..|before|] == before;
  }

  lemma {:induction false} KeepsNoneOutPrefix(env: Env, ops: seq<Op>, i: nat, s: string)
    requires KeepsNoneOut(env, ops, s) && i <= |ops|
    ensures KeepsNoneOut(env, ops[..i], s)
    decreases |ops|
  {
    if i < |ops| {
      KeepsNoneOutPrefix(env, ops[..|ops| - 1], i, s);
      assert ops[..|ops| - 1][..i] == ops[..i];
    } else {
      assert ops[..i] == ops;
    }
  }

  /** With and without the source, the tables are consistent and differ by what it did. */
  ghost predicate Correspond(env: Env, ops: seq<Op>, s: string) {
    var d, d' := Run(env, ops), Run(env, Never(ops, s));
    Consistent(env, d) && Consistent(env, d') && Without(d, d', s)
  }

  lemma NothingCorresponds(env: Env, s: string)
    ensures Correspond(env, [], s)
  {
    EmptyIsConsistent(env);
  }

  /** One operation more on both sides. */
  lemma StepCorresponds(env: Env, before: seq<Op>, op: Op, s: string)
    requires Sound(env) && (op.Ingest? ==> Admissible(env, op.src)) && !KeptOut(env, before, op, s)
    requires Correspond(env, before, s)
    ensures Correspond(env, before + [op], s)
  {
    var d, d' := Run(env, before), Run(env, Never(before, s));
    NeverSnoc(before, op, s);
    RunOneMore(env, before, op);
    ApplyKeepsConsistent(env, d, op);
    if Concerns(op, s) {
      OwnStepStaysWithout(env, d, d', op, s);
    } else {
      RunOneMore(env, Never(before, s), op);
      ApplyKeepsConsistent(env, d', op);
      KeptStaysWithout(env, d, d', op, s);
    }
  }

  /** Run in step, a history and the one without the source have logs that differ by exactly the
      source, as long as it keeps no other out. */
  lemma {:induction false} HistoriesCorrespond(env: Env, ops: seq<Op>, s: string)
    requires Sound(env) && AdmissibleOps(env, ops) && KeepsNoneOut(env, ops, s)
    ensures Correspond(env, ops, s)
  {
    if |ops| == 0 {
      NothingCorresponds(env, s);
    } else {
      var before, last := ops[..|ops| - 1], ops[|ops| - 1];
      assert ops == before + [last];
      AdmissibleParts(env, before, last);
      HistoriesCorrespond(env, before, s);
      StepCorresponds(env, before, last, s);
    }
  }

  lemma AdmissibleParts(env: Env, before: seq<Op>, op: Op)
    requires AdmissibleOps(env, before + [op])
    ensures AdmissibleOps(env, before) && (op.Ingest? ==> Admissible(env, op.src))
  {
    assert op in before + [op] && forall o <- before :: o in before + [op];
  }

  // ---------------------------------------------------------------- reverting

  /** The same events and deltas, and the same row for every player rated in both; who is rated in
      one only sits there at the base rating of his tier, without a game. */
  ghost predicate SameRatings(env: Env, d: DB, d': DB) {
    && d.events == d'.events && d.deltas == d'.deltas
    && (forall id <- d.players :: if id in d'.players then d.players[id] == d'.players[id] else d.players[id] == FormingRow(env, id))
    && (forall id <- d'.players :: id !in d.players ==> d'.players[id] == FormingRow(env, id))
  }

  /** Reverting a source, wherever it stands in the log, leaves exactly the ratings of the history
      in which it was never ingested, if it kept no other source out. If none was refused, nobody
      is rated there who is not rated here. */
  lemma RevertErasesTheSource(env: Env, ops: seq<Op>, s: string)
    requires Sound(env) && AdmissibleOps(env, ops) && KeepsNoneOut(env, ops, s)
    ensures SameRatings(env, Reverted(env, Run(env, ops), s), Run(env, Never(ops, s)))
    ensures NothingRefused(env, ops, s) ==> Run(env, Never(ops, s)).players.Keys <= Reverted(env, Run(env, ops), s).players.Keys
  {
    HistoriesCorrespond(env, ops, s);
    RevertReplaysTheRest(env, Run(env, ops), s);
    SameLogSameRatings(env, Reverted(env, Run(env, ops), s), Run(env, Never(ops, s)));
    if NothingRefused(env, ops, s) { RatedStayWithin(env, ops, s); }
  }

  /** A source kept out is in the other history from then on. */
  lemma KeptOutParts(env: Env, before: seq<Op>, op: Op, s: string)
    requires Sound(env) && KeptOut(env, before, op, s)
    requires Reverted(env, Run(env, before), s).events == Run(env, Never(before, s)).events
    ensures Reverted(env, Run(env, before + [op]), s).events != Run(env, Never(before + [op], s)).events
  {
    var d' := Run(env, Never(before, s));
    NeverSnoc(before, op, s);
    RunOneMore(env, before, op);
    RunOneMore(env, Never(before, s), op);
    RefusedChangesNothing(env, Run(env, before), op, s);
    ProcessedIsTheGrowth(env, d', op.src);
  }

  /** At a refusal the two histories part if and only if the refused source is processed by the one
      without s. */
  lemma PartsAtTheRefusal(env: Env, before: seq<Op>, op: Op, s: string)
    requires Sound(env) && AdmissibleOps(env, before + [op]) && KeepsNoneOut(env, before, s)
    requires Refuses(env, Run(env, before), op, s)
    ensures SameRatings(env, Reverted(env, Run(env, before + [op]), s), Run(env, Never(before + [op], s)))
       <==> !Processes(env, Run(env, Never(before, s)), op.src)
  {
    AdmissibleParts(env, before, op);
    HistoriesCorrespond(env, before, s);
    RevertErasesTheSource(env, before, s);
    if Processes(env, Run(env, Never(before, s)), op.src) {
      KeptOutParts(env, before, op, s);
    } else {
      StepCorresponds(env, before, op, s);
      RevertReplaysTheRest(env, Run(env, before + [op]), s);
      SameLogSameRatings(env, Reverted(env, Run(env, before + [op]), s), Run(env, Never(before + [op], s)));
    }
  }

  ghost predicate RevertErases(env: Env, ops: seq<Op>, s: string) {
    SameRatings(env, Reverted(env, Run(env, ops), s), Run(env, Never(ops, s)))
  }

  /** At every point of a run a revert of the source would erase it, if and only if it never kept
      another source out. */
  lemma RevertErasesIff(env: Env, ops: seq<Op>, s: string)
    requires Sound(env) && AdmissibleOps(env, ops)
    ensures (forall i :: 0 <= i <= |ops| ==> RevertErases(env, ops[..i], s)) <==> KeepsNoneOut(env, ops, s)
  {
    if KeepsNoneOut(env, ops, s) {
      forall i | 0 <= i <= |ops| ensures RevertErases(env, ops[..i], s) { ErasedAt(env, ops, i, s); }
    } else {
      var i := NotErasedAt(env, ops, s);
    }
  }

  lemma ErasedAt(env: Env, ops: seq<Op>, i: nat, s: string)
    requires Sound(env) && AdmissibleOps(env, ops) && KeepsNoneOut(env, ops, s) && i <= |ops|
    ensures RevertErases(env, ops[..i], s)
  {
    assert forall op <- ops[..i] :: op in ops;
    KeepsNoneOutPrefix(env, ops, i, s);
    RevertErasesTheSource(env, ops[..i], s);
  }

  lemma {:induction false} SomebodyKeptOut(env: Env, ops: seq<Op>, s: string) returns (i: nat)
    requires !KeepsNoneOut(env, ops, s)
    ensures i < |ops| && KeptOut(env, ops[..i], ops[i], s)
  {
    var n := |ops| - 1;
    if KeptOut(env, ops[..n], ops[n], s) {
      i := n;
    } else {
      i := SomebodyKeptOut(env, ops[..n], s);
      assert ops[..n][..i] == ops[..i];
    }
  }

  lemma NotErasedAt(env: Env, ops: seq<Op>, s: string) returns (i: nat)
    requires Sound(env) && !KeepsNoneOut(env, ops, s)
    ensures i < |ops| && !(RevertErases(env, ops[..i], s) && RevertErases(env, ops[..i + 1], s))
  {
    i := SomebodyKeptOut(env, ops, s);
    OneMoreOp(ops, i);
    NotErasedAfter(env, ops[..i], ops[i], ops[..i + 1], s);
  }

  lemma OneMoreOp(ops: seq<Op>, i: nat)
    requires i < |ops|
    ensures ops[..i + 1] == ops[..i] + [ops[i]]
  {
  }

  lemma NotErasedAfter(env: Env, before: seq<Op>, op: Op, after: seq<Op>, s: string)
    requires Sound(env) && KeptOut(env, before, op, s) && after == before + [op]
    ensures !(RevertErases(env, before, s) && RevertErases(env, after, s))
  {
    if RevertErases(env, before, s) { KeptOutParts(env, before, op, s); }
  }

  // ---------------------------------------------------------------- the history that was accepted

  /** Without the ingests of other sources that were refused. */
  function Accepted(env: Env, ops: seq<Op>, s: string): seq<Op> {
    if |ops| == 0 then []
    else
      var before, last := ops[..|ops| - 1], ops[|ops| - 1];
      if Refuses(env, Run(env, before), last, s) then Accepted(env, before, s) else Accepted(env, before, s) + [last]
  }

  lemma {:induction false} AcceptedIsTheSame(env: Env, ops: seq<Op>, s: string)
    requires !env.cfg.autoReconcile
    ensures Run(env, Accepted(env, ops, s)) == Run(env, ops) && NothingRefused(env, Accepted(env, ops, s), s)
    ensures forall op <- Accepted(env, ops, s) :: op in ops
  {
    if |ops| > 0 {
      var before, last := ops[..|ops| - 1], ops[|ops| - 1];
      assert ops == before + [last];
      AcceptedIsTheSame(env, before, s);
      RunOneMore(env, before, last);
      if Refuses(env, Run(env, before), last, s) {
        RefusedChangesNothing(env, Run(env, before), last, s);
      } else {
        RunOneMore(env, Accepted(env, before, s), last);
        NothingRefusedSnoc(env, Accepted(env, before, s), last, s);
      }
    }
  }

  lemma NothingRefusedSnoc(env: Env, before: seq<Op>, op: Op, s: string)
    requires NothingRefused(env, before, s) && !Refuses(env, Run(env, before), op, s)
    ensures NothingRefused(env, before + [op], s)
  {
    assert (before + [op])[..|before|] == before;
  }

  /** Whatever was refused, a revert leaves the ratings of the history without the source and
      without the refused ingests. */
  lemma RevertErasesFromTheAccepted(env: Env, ops: seq<Op>, s: string)
    requires Sound(env) && AdmissibleOps(env, ops)
    ensures var reverted, never := Reverted(env, Run(env, ops), s), Run(env, Never(Accepted(env, ops, s), s));
      SameRatings(env, reverted, never) && never.players.Keys <= reverted.players.Keys
  {
    AcceptedIsTheSame(env, ops, s);
    NothingRefusedKeepsNoneOut(env, Accepted(env, ops, s), s);
    RevertErasesTheSource(env, Accepted(env, ops, s), s);
  }

  /** The administrator's delete of a session leaves exactly what its revert leaves, without the
      row of the source. */
  lemma PurgeIsTheRevertWithoutTheRow(env: Env, ops: seq<Op>, s: string)
    requires Sound(env) && AdmissibleOps(env, ops)
    ensures var db := Run(env, ops); Purged(env, db, s) == Reverted(env, db, s).(sources := db.sources - {s})
  {
    var db := Run(env, ops);
    RunsAreConsistent(env, ops);
    RevertReplaysTheRest(env, db, s);
    PurgeReplaysTheRest(env, db, s);
    var purged, reverted := Purged(env, db, s), Reverted(env, db, s);
    SameLogSameRatings(env, purged, reverted);
  }

  lemma SameLogSameEvents(d: DB, d': DB)
    requires StoredLog(d) == StoredLog(d')
    ensures d.events == d'.events
  {
    forall i | 0 <= i < |d.events| ensures d.events[i] == d'.events[i] {
      assert StoredLog(d)[i].ev == StoredLog(d')[i].ev;
    }
  }

  lemma SameLogSameRatings(env: Env, d: DB, d': DB)
    requires Consistent(env, d) && Consistent(env, d') && StoredLog(d) == StoredLog(d')
    ensures SameRatings(env, d, d')
  {
    SameLogSameEvents(d, d');
    StoredLogIsTheLog(d);
    StoredLogIsTheLog(d');
    ReplayUsesOwnBase(env.arith, Base(env), Base(env), StoredLog(d), d.players.Keys);
    ReplayUsesOwnBase(env.arith, Base(env), Base(env), StoredLog(d), d'.players.Keys);
  }

  // ---------------------------------------------------------------- who is rated

  lemma StepKeepsRated(env: Env, d: DB, op: Op)
    requires Sound(env) && Consistent(env, d) && (op.Ingest? ==> Admissible(env, op.src))
    ensures d.players.Keys <= Apply(env, d, op).players.Keys
    ensures !op.Ingest? ==> Apply(env, d, op).players.Keys == d.players.Keys
  {
    match op
    case Ingest(src) =>
      IngestCases(env, d, src);
      if Commits(env, d, src) { CommittedKeepsConsistent(env, d, src); }
    case Revert(id) => RevertReplaysTheRest(env, d, id);
    case Purge(id) => PurgeReplaysTheRest(env, d, id);
    case Rebuild => RebuildIsIdentity(env, d);
    case Finalize(id, kind, finalized) =>
  }

  lemma IngestRatesTheSame(env: Env, d: DB, d': DB, src: Source, s: string)
    requires Sound(env) && Consistent(env, d) && Consistent(env, d') && Without(d, d', s) && d'.players.Keys <= d.players.Keys
    requires Admissible(env, src) && src.sourceId != s && Ingested(env, d, src).1 != OutOfOrder
    ensures Ingested(env, d', src).0.players.Keys <= Ingested(env, d, src).0.players.Keys
  {
    IngestCases(env, d, src);
    IngestCases(env, d', src);
    SameDecision(env, d, d', src, s);
    if Commits(env, d, src) {
      BatchAgrees(env, d, d', src, s);
      CommittedKeepsConsistent(env, d, src);
      CommittedKeepsConsistent(env, d', src);
    }
  }

  lemma {:induction false} NothingRefusedKeepsNoneOut(env: Env, ops: seq<Op>, s: string)
    requires NothingRefused(env, ops, s)
    ensures KeepsNoneOut(env, ops, s)
  {
    if |ops| > 0 { NothingRefusedKeepsNoneOut(env, ops[..|ops| - 1], s); }
  }

  lemma {:induction false} RatedStayWithin(env: Env, ops: seq<Op>, s: string)
    requires Sound(env) && AdmissibleOps(env, ops) && NothingRefused(env, ops, s)
    ensures Run(env, Never(ops, s)).players.Keys <= Run(env, ops).players.Keys
  {
    if |ops| > 0 {
      var before, last := ops[..|ops| - 1], ops[|ops| - 1];
      assert ops == before + [last];
      AdmissibleParts(env, before, last);
      RatedStayWithin(env, before, s);
      NothingRefusedKeepsNoneOut(env, before, s);
      HistoriesCorrespond(env, before, s);
      RatedStayWithinStep(env, before, last, s);
    }
  }

  lemma RatedStayWithinStep(env: Env, before: seq<Op>, op: Op, s: string)
    requires Sound(env) && (op.Ingest? ==> Admissible(env, op.src)) && !Refuses(env, Run(env, before), op, s)
    requires Correspond(env, before, s)
    requires Run(env, Never(before, s)).players.Keys <= Run(env, before).players.Keys
    ensures Run(env, Never(before + [op], s)).players.Keys <= Run(env, before + [op]).players.Keys
  {
    var d, d' := Run(env, before), Run(env, Never(before, s));
    NeverSnoc(before, op, s);
    RunOneMore(env, before, op);
    StepKeepsRated(env, d, op);
    if !Concerns(op, s) {
      RunOneMore(env, Never(before, s), op);
      StepKeepsRated(env, d', op);
      if op.Ingest? { IngestRatesTheSame(env, d, d', op.src, s); }
    }
  }
}
