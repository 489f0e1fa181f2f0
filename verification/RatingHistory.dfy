/** Whole histories of ingests, reverts, purges, rebuilds and finalizations. */
module RatingHistory {
  import opened Options
  import opened RatingConfig
  import opened RatingMatch
  import opened RatingFold
  import opened RatingLog
  import opened RatingRebuild
  import opened RatingRuns
  import opened RatingIngest
  import opened Sorting

  datatype Op =
    | Ingest(src: Source)
    | Revert(sourceId: string)
    | Purge(session: string)
    | Rebuild
    | Finalize(id: string, kind: string, finalized: bool)

  function Apply(env: Env, db: DB, op: Op): DB {
    match op
    case Ingest(src) => Ingested(env, db, src).0
    case Revert(sourceId) => Reverted(env, db, sourceId)
    case Purge(session) => Purged(env, db, session)
    case Rebuild => Rebuilt(env, db)
    case Finalize(id, kind, finalized) => Finalized(db, id, kind, finalized)
  }

  function Run(env: Env, ops: seq<Op>): DB {
    if |ops| == 0 then EMPTY else Apply(env, Run(env, ops[..|ops| - 1]), ops[|ops| - 1])
  }

  ghost predicate AdmissibleOps(env: Env, ops: seq<Op>) {
    forall op <- ops :: op.Ingest? ==> Admissible(env, op.src)
  }

  // ---------------------------------------------------------------- removing a source

  function OtherEntries(log: seq<Entry>, sourceId: string): seq<Entry> {
    if |log| == 0 then []
    else
      var front := OtherEntries(log[..|log| - 1], sourceId);
      if log[|log| - 1].ev.sourceId == sourceId then front else front + [log[|log| - 1]]
  }

  lemma {:induction false} OthersArePart(events: seq<Event>, s: string)
    ensures forall e :: e in Others(events, s) <==> e in events && e.sourceId != s
  {
    if |events| > 0 {
      OthersArePart(events[..|events| - 1], s);
      assert events == events[..|events| - 1] + [events[|events| - 1]];
    }
  }

  lemma {:induction false} OthersKeepOrder(events: seq<Event>, s: string)
    requires StrictlyInOrder(events, EventBefore) && UniqueEvents(events)
    ensures StrictlyInOrder(Others(events, s), EventBefore) && UniqueEvents(Others(events, s))
  {
    if |events| > 0 {
      var front, last := events[..|events| - 1], events[|events| - 1];
      OthersKeepOrder(front, s);
      OthersArePart(front, s);
      var o := Others(front, s);
      forall i | 0 <= i < |o| ensures EventBefore(o[i], last) && o[i].key != last.key {
        assert o[i] in front;
        var j :| 0 <= j < |front| && front[j] == o[i];
        assert events[j] == o[i];
      }
    }
  }

  lemma {:induction false} OthersOfLog(events: seq<Event>, d1: map<(Key, Id), Delta>, d2: map<(Key, Id), Delta>, s: string)
    requires forall e <- events :: e.sourceId != s ==> EntryOf(d1, e) == EntryOf(d2, e)
    ensures Entries(Others(events, s), d2) == OtherEntries(Entries(events, d1), s)
  {
    if |events| > 0 {
      var front, last := events[..|events| - 1], events[|events| - 1];
      assert last in events && forall e <- front :: e in events;
      OthersOfLog(front, d1, d2, s);
      assert Entries(events, d1)[..|events| - 1] == Entries(front, d1);
    }
  }

  lemma EntriesSurviveTheCut(db: DB, s: string, e: Event)
    requires KeysNameSources(db.events) && e in db.events && e.sourceId != s
    ensures EntryOf(db.deltas, e) == EntryOf(WithoutEvents(db, s).deltas, e)
  {
    var cut := WithoutEvents(db, s).deltas;
    assert forall k <- db.deltas :: k.0 == e.key ==> k in cut;
    assert Side(db.deltas, e.key, A) == Side(cut, e.key, A);
    assert Side(db.deltas, e.key, B) == Side(cut, e.key, B);
  }

  lemma CutLog(db: DB, s: string)
    requires KeysNameSources(db.events)
    ensures StoredLog(WithoutEvents(db, s)) == OtherEntries(StoredLog(db), s)
  {
    forall e | e in db.events && e.sourceId != s
      ensures EntryOf(db.deltas, e) == EntryOf(WithoutEvents(db, s).deltas, e)
    {
      EntriesSurviveTheCut(db, s, e);
    }
    OthersOfLog(db.events, db.deltas, WithoutEvents(db, s).deltas, s);
  }

  lemma {:induction false} OtherEntriesArePart(log: seq<Entry>, s: string)
    ensures forall en :: en in OtherEntries(log, s) <==> en in log && en.ev.sourceId != s
  {
    if |log| > 0 {
      OtherEntriesArePart(log[..|log| - 1], s);
      assert log == log[..|log| - 1] + [log[|log| - 1]];
    }
  }

  lemma CutKeepsShape(db: DB, s: string)
    requires Shape(db)
    ensures Shape(WithoutEvents(db, s))
  {
    var cut := WithoutEvents(db, s);
    OthersArePart(db.events, s);
    OthersKeepOrder(db.events, s);
    CutLog(db, s);
    OtherEntriesArePart(StoredLog(db), s);
    forall k | k in cut.deltas ensures k.0 in Keys(cut.events) {
      var e :| e in db.events && e.key == k.0;
      assert e in cut.events;
    }
  }

  lemma {:induction false} NothingToRemove(events: seq<Event>, s: string)
    ensures Others(events, s) == events <==> forall e <- events :: e.sourceId != s
    ensures |Others(events, s)| <= |events|
  {
    if |events| > 0 {
      var front := events[..|events| - 1];
      NothingToRemove(front, s);
      assert events == front + [events[|events| - 1]];
      OthersArePart(events, s);
    }
  }

  lemma {:induction false} NoEntryToRemove(log: seq<Entry>, s: string)
    requires forall en <- log :: en.ev.sourceId != s
    ensures OtherEntries(log, s) == log
  {
    if |log| > 0 {
      assert log == log[..|log| - 1] + [log[|log| - 1]];
      NoEntryToRemove(log[..|log| - 1], s);
    }
  }

  lemma NothingLoggedToRemove(db: DB, s: string)
    requires Others(db.events, s) == db.events
    ensures OtherEntries(StoredLog(db), s) == StoredLog(db)
  {
    NothingToRemove(db.events, s);
    forall en | en in StoredLog(db) ensures en.ev.sourceId != s {
      assert en.ev in db.events;
    }
    NoEntryToRemove(StoredLog(db), s);
  }

  /** The tables between the delete and the rebuild of a revert. */
  function Cut(db: DB, s: string): DB {
    WithoutEvents(db, s).(sources :=
      if s in db.sources then db.sources[s := db.sources[s].(fingerprint := None)] else db.sources)
  }

  lemma CutIsShaped(db: DB, s: string)
    requires Shape(db)
    ensures Shape(Cut(db, s)) && StoredLog(Cut(db, s)) == OtherEntries(StoredLog(db), s)
  {
    CutKeepsShape(db, s);
    CutLog(db, s);
    assert StoredLog(Cut(db, s)) == StoredLog(WithoutEvents(db, s));
  }

  lemma RevertedIsTheRebuiltCut(env: Env, db: DB, s: string)
    ensures Reverted(env, db, s) == if Others(db.events, s) == db.events then db else Rebuilt(env, Cut(db, s))
  {}

  /** A revert leaves the replay of the log without the source, for everybody rated so far. */
  lemma RevertReplaysTheRest(env: Env, db: DB, s: string)
    requires Valid(env.cfg) && Consistent(env, db)
    ensures Consistent(env, Reverted(env, db, s))
    ensures StoredLog(Reverted(env, db, s)) == OtherEntries(StoredLog(db), s)
    ensures Reverted(env, db, s).players.Keys == db.players.Keys
  {
    RevertedIsTheRebuiltCut(env, db, s);
    if Others(db.events, s) == db.events {
      NothingLoggedToRemove(db, s);
    } else {
      CutIsShaped(db, s);
      RebuildMaterialises(env, Cut(db, s));
      RebuiltTables(env, Cut(db, s));
    }
  }

  /** The tables between the two transactions of a purge. */
  function PurgeCut(db: DB, s: string): DB { WithoutEvents(db, s).(sources := db.sources - {s}) }

  lemma PurgeCutIsShaped(db: DB, s: string)
    requires Shape(db)
    ensures Shape(PurgeCut(db, s)) && StoredLog(PurgeCut(db, s)) == OtherEntries(StoredLog(db), s)
  {
    CutKeepsShape(db, s);
    CutLog(db, s);
    assert StoredLog(PurgeCut(db, s)) == StoredLog(WithoutEvents(db, s));
  }

  lemma PurgedIsTheRebuiltCut(env: Env, db: DB, s: string)
    ensures Purged(env, db, s) == Rebuilt(env, PurgeCut(db, s))
  {}

  /** A purge leaves the replay of the rest, and nothing of the source. */
  lemma PurgeReplaysTheRest(env: Env, db: DB, s: string)
    requires Valid(env.cfg) && Consistent(env, db)
    ensures Consistent(env, Purged(env, db, s))
    ensures StoredLog(Purged(env, db, s)) == OtherEntries(StoredLog(db), s)
    ensures Purged(env, db, s).players.Keys == db.players.Keys
    ensures Purged(env, db, s).sources == db.sources - {s}
  {
    PurgeCutIsShaped(db, s);
    PurgedIsTheRebuiltCut(env, db, s);
    RebuildMaterialises(env, PurgeCut(db, s));
    RebuiltTables(env, PurgeCut(db, s));
  }

  // ---------------------------------------------------------------- agreement

  lemma ApplyKeepsConsistent(env: Env, db: DB, op: Op)
    requires Sound(env) && Consistent(env, db) && (op.Ingest? ==> Admissible(env, op.src))
    ensures Consistent(env, Apply(env, db, op))
  {
    match op
    case Ingest(src) => IngestKeepsConsistent(env, db, src);
    case Revert(sourceId) => RevertReplaysTheRest(env, db, sourceId);
    case Purge(session) => PurgeReplaysTheRest(env, db, session);
    case Rebuild => RebuildIsIdentity(env, db);
    case Finalize(id, kind, finalized) => SourcesDoNotMatter(env, db, Finalized(db, id, kind, finalized).sources);
  }

  /** After every run the event log is strictly ordered with unique keys, and ratings, counters
      and deltas are the replay of that log. */
  lemma {:induction false} RunsAreConsistent(env: Env, ops: seq<Op>)
    requires Sound(env) && AdmissibleOps(env, ops)
    ensures Consistent(env, Run(env, ops))
  {
    if |ops| > 0 {
      assert ops[|ops| - 1] in ops && forall op <- ops[..|ops| - 1] :: op in ops;
      RunsAreConsistent(env, ops[..|ops| - 1]);
      ApplyKeepsConsistent(env, Run(env, ops[..|ops| - 1]), ops[|ops| - 1]);
    } else {
      EmptyIsConsistent(env);
    }
  }

  /** The incremental tables are what a full rebuild computes: after every run, rebuilding
      changes no rating, no counter and no delta. */
  lemma IncrementalEqualsRebuilt(env: Env, ops: seq<Op>)
    requires Sound(env) && AdmissibleOps(env, ops)
    ensures Rebuilt(env, Run(env, ops)) == Run(env, ops)
  {
    RunsAreConsistent(env, ops);
    RebuildIsIdentity(env, Run(env, ops));
  }

  // ---------------------------------------------------------------- a source that was processed

  predicate Forgets(op: Op, s: string) {
    match op
    case Revert(sourceId) => sourceId == s
    case Purge(session) => session == s
    case _ => false
  }

  /** A source that was processed has its fingerprint stored. */
  lemma ProcessedIsRemembered(env: Env, db: DB, src: Source)
    requires Ingested(env, db, src).1.Done? && Ingested(env, db, src).1.processed > 0
    ensures KnownFingerprint(Ingested(env, db, src).0, src.sourceId) == Some(SourceFingerprint(src.matches))
  {
  }

  lemma CommittedTouchesOneSource(env: Env, db: DB, src: Source, batch: seq<RawMatch>, s: string)
    requires s != src.sourceId
    ensures KnownFingerprint(Committed(env, db, src, batch), s) == KnownFingerprint(db, s)
  {
    RecordedAllKeepsSources(env, src, db.(players := Filled(Base(env), db.players, Named(env, batch))), batch);
  }

  /** An ingest from cut commits a batch, touches its own row at most, or does nothing. */
  lemma IngestOutcomes(env: Env, db: DB, cut: DB, src: Source, reconcile: bool)
    ensures var out := IngestedFrom(env, db, cut, src, reconcile).0;
      out == db || out == cut || out == Committed(env, cut, src, Batch(env.cfg, cut, src))
      || out == cut.(sources := cut.sources[src.sourceId := SourceRow(src.kind, None, true)])
  {
  }

  lemma IngestTouchesOneSource(env: Env, db: DB, src: Source, s: string)
    requires s != src.sourceId
    ensures KnownFingerprint(Ingested(env, db, src).0, s) == KnownFingerprint(db, s)
  {
    var reconcile := KnownFingerprint(db, src.sourceId).Some?;
    var cut := if reconcile then WithoutEvents(db, src.sourceId) else db;
    IngestOutcomes(env, db, cut, src, reconcile);
    CommittedTouchesOneSource(env, cut, src, Batch(env.cfg, cut, src), s);
  }

  /** A known source is not ingested again: the tables stay as they are. */
  lemma KnownSourceIsSealed(env: Env, db: DB, again: Source)
    requires !env.cfg.autoReconcile && KnownFingerprint(db, again.sourceId).Some?
    ensures Ingested(env, db, again) ==
      (db, if env.cfg.ingestLockedOnly && !again.final then NotFinal
           else if KnownFingerprint(db, again.sourceId) == Some(SourceFingerprint(again.matches)) then Done(0, [], 0, false)
           else SourceChanged)
  {
  }

  /** Only its own revert or purge makes the tables forget a fingerprint. */
  lemma ApplyRemembers(env: Env, db: DB, op: Op, s: string)
    requires !env.cfg.autoReconcile && KnownFingerprint(db, s).Some? && !Forgets(op, s)
    ensures KnownFingerprint(Apply(env, db, op), s) == KnownFingerprint(db, s)
  {
    match op
    case Ingest(src) => if src.sourceId == s { KnownSourceIsSealed(env, db, src); } else { IngestTouchesOneSource(env, db, src, s); }
    case Revert(sourceId) =>
    case Purge(session) =>
    case Rebuild =>
    case Finalize(id, kind, finalized) =>
  }

  /** The tables after more operations. */
  function Continued(env: Env, db: DB, ops: seq<Op>): DB {
    if |ops| == 0 then db else Apply(env, Continued(env, db, ops[..|ops| - 1]), ops[|ops| - 1])
  }

  lemma {:induction false} RunContinues(env: Env, before: seq<Op>, later: seq<Op>)
    ensures Run(env, before + later) == Continued(env, Run(env, before), later)
  {
    if |later| == 0 {
      assert before + later == before;
    } else {
      RunContinues(env, before, later[..|later| - 1]);
      assert before + later == before + later[..|later| - 1] + [later[|later| - 1]];
      RunOneMore(env, before + later[..|later| - 1], later[|later| - 1]);
    }
  }

  lemma RunOneMore(env: Env, ops: seq<Op>, op: Op)
    ensures Run(env, ops + [op]) == Apply(env, Run(env, ops), op)
  {
    assert (ops + [op])[..|ops|] == ops;
  }

  lemma {:induction false} ContinuedRemembers(env: Env, db: DB, ops: seq<Op>, s: string)
    requires !env.cfg.autoReconcile && KnownFingerprint(db, s).Some? && forall i :: 0 <= i < |ops| ==> !Forgets(ops[i], s)
    ensures KnownFingerprint(Continued(env, db, ops), s) == KnownFingerprint(db, s)
  {
    if |ops| > 0 {
      ContinuedRemembers(env, db, ops[..|ops| - 1], s);
      ApplyRemembers(env, Continued(env, db, ops[..|ops| - 1]), ops[|ops| - 1], s);
    }
  }

  /** Once a source was processed, and until it is reverted or purged, whatever else happens in
      between, ingesting it again changes nothing; the answer tells whether it still is the same. */
  lemma ProcessedSourceIsSealed(env: Env, before: seq<Op>, src: Source, later: seq<Op>, again: Source)
    requires !env.cfg.autoReconcile && again.sourceId == src.sourceId
    requires var reply := Ingested(env, Run(env, before), src).1; reply.Done? && reply.processed > 0
    requires forall op <- later :: !Forgets(op, src.sourceId)
    ensures var db := Run(env, before + [Ingest(src)] + later);
      Ingested(env, db, again) ==
        (db, if env.cfg.ingestLockedOnly && !again.final then NotFinal
             else if SourceFingerprint(again.matches) == SourceFingerprint(src.matches) then Done(0, [], 0, false)
             else SourceChanged)
  {
    var first := Ingested(env, Run(env, before), src).0;
    RunOneMore(env, before, Ingest(src));
    RunContinues(env, before + [Ingest(src)], later);
    ProcessedIsRemembered(env, Run(env, before), src);
    ContinuedRemembers(env, first, later, src.sourceId);
    KnownSourceIsSealed(env, Run(env, before + [Ingest(src)] + later), again);
  }

  /** Ingesting an unchanged source again, at any later time before its revert, its games listed
      in any order, changes nothing and reports nothing processed. */
  lemma ReingestChangesNothing(env: Env, before: seq<Op>, src: Source, later: seq<Op>, again: Source)
    requires !env.cfg.autoReconcile && again.sourceId == src.sourceId && (env.cfg.ingestLockedOnly ==> again.final)
    requires DistinctOrders(src.matches) && multiset(again.matches) == multiset(src.matches)
    requires var reply := Ingested(env, Run(env, before), src).1; reply.Done? && reply.processed > 0
    requires forall op <- later :: !Forgets(op, src.sourceId)
    ensures var db := Run(env, before + [Ingest(src)] + later);
      Ingested(env, db, again) == (db, Done(0, [], 0, false))
  {
    FingerprintIgnoresListOrder(src.matches, again.matches);
    ProcessedSourceIsSealed(env, before, src, later, again);
  }
}
