/** The automatic lock of a session in serial runs: when a draft may still have all its scores, and
    when a session is locked exactly because it has. */
module SessionLocks {
  import opened Options
  import opened GameKeys
  import opened Snapshots
  import opened SessionTables
  import opened Swaps
  import opened SwapLaws
  import opened SessionSteps
  import opened SessionLaws

  /** There are games, and every one has a score. */
  predicate Finished(games: seq<GameRow>) { |games| > 0 && AllScored(games) }

  /** Seen on the snapshot: every scheduled game has an entry in gameScores. */
  predicate FullyScored(s: Snapshot) {
    NonNegative(s.schedule) && |s.schedule| > 0 && CountScored(s.schedule, s.gameScores) == |s.schedule|
  }

  ghost predicate ScoresWithinLimit(s: Snapshot) {
    NonNegative(s.schedule) && forall i :: 0 <= i < |s.schedule| ==> WithinLimit(s.schedule[i], s.gameScores)
  }

  lemma {:induction false} CountIsBounded(games: seq<Game>, scores: map<string, Score>)
    requires NonNegative(games)
    ensures CountScored(games, scores) <= |games|
  {
    if |games| > 0 { CountIsBounded(games[..|games| - 1], scores); }
  }

  /** A publish that leaves every row scored was seen as fully scored; the converse needs the limit
      of the strict parser. */
  lemma PublishedFinished(s: Snapshot)
    requires NonNegative(s.schedule)
    ensures Finished(GameRows(s)) ==> FullyScored(s)
    ensures FullyScored(s) && ScoresWithinLimit(s) ==> Finished(GameRows(s))
  {
    SnapshotCountAgreesWithRows(s);
    AllScoredCounts(GameRows(s));
    CountIsBounded(s.schedule, s.gameScores);
  }

  // ---------------------------------------------------------------- drafts are unfinished

  ghost predicate DraftIsOpen(x: Option<Session>) {
    x.Some? && x.value.row.status == Draft ==> !Finished(x.value.tables.games)
  }

  /** Not an unlock, nor the first publish of a schedule that is scored already. */
  ghost predicate LeavesLocking(x: Option<Session>, op: Op) {
    !op.Unlock? && (op.Save? && x.None? ==> !FullyScored(op.s))
  }

  lemma SavedDraftIsOpen(x: Option<Session>, s: Snapshot, resolvable: bool, today: int)
    requires DraftIsOpen(x) && (x.None? ==> !FullyScored(s))
    ensures DraftIsOpen(SaveStep(x, s, resolvable, today).0)
  {
    if SaveStep(x, s, resolvable, today).1.Done? { PublishedFinished(s); }
  }

  lemma ScoredDraftIsOpen(x: Session, key: string, a: int, b: int, expected: Option<nat>)
    requires DraftIsOpen(Some(x))
    ensures DraftIsOpen(ScoreStep(Some(x), key, a, b, expected).0)
  {
    if ScoreStep(Some(x), key, a, b, expected).1.Done? { LastScoreLocks(x, key, a, b, expected); }
  }

  /** The game whose marks a step changes keeps or loses its score. */
  lemma OneMarkChanged(games: seq<GameRow>, i: nat, r: GameRow)
    requires i < |games| && (r.scoreA.Some? ==> games[i].scoreA.Some?)
    ensures Finished(games[i := r]) ==> Finished(games)
  {
    var after := games[i := r];
    if Finished(after) {
      forall k | 0 <= k < |games| ensures games[k].scoreA.Some? { assert after[k].scoreA.Some?; }
    }
  }

  lemma MarkedDraftIsOpen(x: Session, key: string, played: bool, expected: Option<nat>)
    requires DraftIsOpen(Some(x))
    ensures DraftIsOpen(PlayedStep(Some(x), key, played, expected).0)
  {
    if Split(key).Some? {
      var i := GameIndex(x.tables.games, Split(key).value.0, Split(key).value.1);
      if i.Some? { OneMarkChanged(x.tables.games, i.value, PlayedRow(x.tables.games[i.value], i.value, played)); }
    }
  }

  lemma SkippedDraftIsOpen(x: Session, key: string, refs: seq<string>, expected: Option<nat>)
    requires DraftIsOpen(Some(x))
    ensures DraftIsOpen(SkippedStep(Some(x), key, refs, expected).0)
  {
    if Split(key).Some? {
      var i := GameIndex(x.tables.games, Split(key).value.0, Split(key).value.1);
      if i.Some? {
        var r := x.tables.games[i.value];
        OneMarkChanged(x.tables.games, i.value, r.(skipped := Kept(refs), version := r.version + 1));
      }
    }
  }

  lemma SwapKeepsFinished(games: seq<GameRow>, kind: Kind, a: Target, b: Target)
    requires Legal(games) && GoesThrough(kind, games, a, b)
    ensures Finished(Swapped(kind, games, a, b)) <==> Finished(games)
  {
    SwapTouchesOnlyPlaces(games, kind, a, b);
    var after := Swapped(kind, games, a, b);
    forall i | 0 <= i < |games| ensures after[i].scoreA == games[i].scoreA { assert MarksKept(games[i], after[i]); }
  }

  lemma StepKeepsDraftsOpen(x: Option<Session>, op: Op)
    requires DraftIsOpen(x) && LeavesLocking(x, op) && (x.Some? ==> Legal(x.value.tables.games))
    ensures DraftIsOpen(Step(x, op).0)
  {
    match op
    case Save(s, resolvable, today) => SavedDraftIsOpen(x, s, resolvable, today);
    case SetScore(key, a, b, expected) => if x.Some? { ScoredDraftIsOpen(x.value, key, a, b, expected); }
    case SetPlayed(key, played, expected) => if x.Some? { MarkedDraftIsOpen(x.value, key, played, expected); }
    case SetSkipped(key, refs, expected) => if x.Some? { SkippedDraftIsOpen(x.value, key, refs, expected); }
    case Swap(kind, a, b, expected) =>
      if x.Some? && GoesThrough(kind, x.value.tables.games, a, b) { SwapKeepsFinished(x.value.tables.games, kind, a, b); }
    case SetAbsent(refs, expected) =>
    case Delete =>
    case AdminDelete =>
  }

  /** No step of the run is an unlock, and no session of it starts fully scored. */
  ghost predicate LockingRun(ops: seq<Op>) {
    forall i :: 0 <= i < |ops| ==> LeavesLocking(Run(None, ops[..i]), ops[i])
  }

  lemma LockingPrefix(ops: seq<Op>)
    requires |ops| > 0 && LockingRun(ops)
    ensures LockingRun(ops[..|ops| - 1]) && LeavesLocking(Run(None, ops[..|ops| - 1]), ops[|ops| - 1])
  {
    var front := ops[..|ops| - 1];
    forall i | 0 <= i < |front| ensures LeavesLocking(Run(None, front[..i]), front[i]) { assert front[..i] == ops[..i]; }
  }

  /** In a serial run without unlock, of sessions not fully scored from their first publish on, a
      draft with games always lacks a score: whatever completes the scores locks the session. */
  lemma {:induction false} DraftsStayOpen(ops: seq<Op>)
    requires LockingRun(ops)
    ensures DraftIsOpen(Run(None, ops))
  {
    if |ops| > 0 {
      var front := ops[..|ops| - 1];
      LockingPrefix(ops);
      DraftsStayOpen(front);
      RunsKeepRowsOk(front);
      StepKeepsDraftsOpen(Run(None, front), ops[|ops| - 1]);
    }
  }

  // ---------------------------------------------------------------- locked sessions are finished

  ghost predicate LockedIsFinished(x: Option<Session>) {
    x.Some? && x.value.row.status != Draft ==> Finished(x.value.tables.games)
  }

  /** A publish that does not ask for the lock, of a day not past, scored within the limit. */
  ghost predicate LocksByScoresOnly(op: Op) {
    op.Save? ==>
      !op.s.session.locked && ScoresWithinLimit(op.s) && (op.s.session.date.On? ==> op.today <= op.s.session.date.day)
  }

  lemma SavedLockIsFinished(x: Option<Session>, op: Op)
    requires op.Save? && LocksByScoresOnly(op) && LockedIsFinished(x)
    ensures LockedIsFinished(SaveStep(x, op.s, op.resolvable, op.today).0)
  {
    if SaveStep(x, op.s, op.resolvable, op.today).1.Done? { PublishedFinished(op.s); }
  }

  lemma ScoredLockIsFinished(x: Session, key: string, a: int, b: int, expected: Option<nat>)
    requires x.row.status == Draft
    ensures LockedIsFinished(ScoreStep(Some(x), key, a, b, expected).0)
  {
    if ScoreStep(Some(x), key, a, b, expected).1.Done? { LastScoreLocks(x, key, a, b, expected); }
  }

  lemma StepKeepsLocksFinished(x: Option<Session>, op: Op)
    requires LockedIsFinished(x) && LocksByScoresOnly(op) && !op.Unlock?
    ensures LockedIsFinished(Step(x, op).0)
  {
    if x.Some? && x.value.row.status != Draft {
      if !op.AdminDelete? { LockedIsFrozen(x.value, op); }
    } else {
      match op
      case Save(s, resolvable, today) => SavedLockIsFinished(x, op);
      case SetScore(key, a, b, expected) => if x.Some? { ScoredLockIsFinished(x.value, key, a, b, expected); }
      case SetPlayed(key, played, expected) =>
      case SetSkipped(key, refs, expected) =>
      case Swap(kind, a, b, expected) =>
      case SetAbsent(refs, expected) =>
      case Delete =>
      case AdminDelete =>
    }
  }

  lemma {:induction false} LocksStayFinished(ops: seq<Op>)
    requires LockingRun(ops) && forall op <- ops :: LocksByScoresOnly(op)
    ensures LockedIsFinished(Run(None, ops))
  {
    if |ops| > 0 {
      var front := ops[..|ops| - 1];
      LockingPrefix(ops);
      assert ops[|ops| - 1] in ops && forall op <- front :: op in ops;
      LocksStayFinished(front);
      StepKeepsLocksFinished(Run(None, front), ops[|ops| - 1]);
    }
  }

  /** Where besides nothing else asks for the lock, a session is locked exactly when it has games
      and every one of them has a score. */
  lemma LockedExactlyWhenFinished(ops: seq<Op>)
    requires LockingRun(ops) && forall op <- ops :: LocksByScoresOnly(op)
    ensures Run(None, ops).Some? ==>
      (Run(None, ops).value.row.status != Draft <==> Finished(Run(None, ops).value.tables.games))
  {
    DraftsStayOpen(ops);
    LocksStayFinished(ops);
  }

  /** What locks a session on a publish: being asked to, or, unless it is the first publish, a
      fully scored schedule or a past day. What the snapshot shows as fully scored is what the
      rows say, for scores within the limit. */
  lemma FinishedScheduleLocks(x: Option<Session>, s: Snapshot, resolvable: bool, today: int)
    requires SaveStep(x, s, resolvable, today).1.Done?
    ensures var y := SaveStep(x, s, resolvable, today).0.value;
      && y.row.status == (if s.session.locked || (x.Some? && (FullyScored(s) || s.session.date.day < today)) then Locked else Draft)
      && (Finished(y.tables.games) ==> FullyScored(s))
      && (ScoresWithinLimit(s) && FullyScored(s) ==> Finished(y.tables.games))
  {
    PublishedFinished(s);
  }
}
