/** What every serial run of the session operations keeps. */
module SessionLaws {
  import opened Options
  import opened GameKeys
  import opened Text
  import opened Snapshots
  import opened SessionTables
  import opened SnapshotRoundTrip
  import opened Swaps
  import opened SwapLaws
  import opened SessionSteps

  // ---------------------------------------------------------------- the session version

  /** What a game row says about the schedule, without its marks, scores, skips and version. */
  function Scheduled(r: GameRow): GameRow {
    GameRow(r.slot, r.court, IsScheduled, false, None, None, None, 0, [], r.seats)
  }

  /** Everything the session version vouches for: header, status, roster, absences, schedule. */
  function Vouched(x: Session): Session {
    WithGames(x, seq(|x.tables.games|, i requires 0 <= i < |x.tables.games| => Scheduled(x.tables.games[i])))
  }

  ghost predicate Newer(x: Session, y: Session) {
    x.row.version < y.row.version || (x.row.version == y.row.version && Vouched(x) == Vouched(y))
  }

  lemma OneGameChanged(x: Session, i: nat, r: GameRow)
    requires i < |x.tables.games| && Scheduled(r) == Scheduled(x.tables.games[i])
    ensures Vouched(WithGames(x, x.tables.games[i := r])) == Vouched(x)
  {
    var games := x.tables.games;
    assert forall k :: 0 <= k < |games| ==> Scheduled(games[i := r][k]) == Scheduled(games[k]);
  }

  lemma ScoreVouches(x: Session, key: string, a: int, b: int, expected: Option<nat>)
    ensures ScoreStep(Some(x), key, a, b, expected).0.Some? && Newer(x, ScoreStep(Some(x), key, a, b, expected).0.value)
  {
    if Split(key).Some? {
      var i := GameIndex(x.tables.games, Split(key).value.0, Split(key).value.1);
      if i.Some? { OneGameChanged(x, i.value, ScoredRow(x.tables.games[i.value], i.value, a, b)); }
    }
  }

  lemma PlayedVouches(x: Session, key: string, played: bool, expected: Option<nat>)
    ensures PlayedStep(Some(x), key, played, expected).0.Some? && Newer(x, PlayedStep(Some(x), key, played, expected).0.value)
  {
    if Split(key).Some? {
      var i := GameIndex(x.tables.games, Split(key).value.0, Split(key).value.1);
      if i.Some? { OneGameChanged(x, i.value, PlayedRow(x.tables.games[i.value], i.value, played)); }
    }
  }

  lemma SkippedVouches(x: Session, key: string, refs: seq<string>, expected: Option<nat>)
    ensures SkippedStep(Some(x), key, refs, expected).0.Some? && Newer(x, SkippedStep(Some(x), key, refs, expected).0.value)
  {
    if Split(key).Some? {
      var i := GameIndex(x.tables.games, Split(key).value.0, Split(key).value.1);
      if i.Some? {
        var r := x.tables.games[i.value];
        OneGameChanged(x, i.value, r.(skipped := Kept(refs), version := r.version + 1));
      }
    }
  }

  /** A step that leaves a session leaves it newer, or vouching for the same. */
  lemma StepVouches(x: Session, op: Op)
    requires Step(Some(x), op).0.Some?
    ensures Newer(x, Step(Some(x), op).0.value)
  {
    match op
    case SetScore(key, a, b, expected) => ScoreVouches(x, key, a, b, expected);
    case SetPlayed(key, played, expected) => PlayedVouches(x, key, played, expected);
    case SetSkipped(key, refs, expected) => SkippedVouches(x, key, refs, expected);
    case Save(s, resolvable, today) =>
    case SetAbsent(refs, expected) =>
    case Swap(kind, a, b, expected) =>
    case Unlock =>
    case Delete =>
    case AdminDelete =>
  }

  ghost function Run(x: Option<Session>, ops: seq<Op>): Option<Session> {
    if |ops| == 0 then x else Step(Run(x, ops[..|ops| - 1]), ops[|ops| - 1]).0
  }

  /** The session is not deleted anywhere in the run. */
  ghost predicate Lives(x: Option<Session>, ops: seq<Op>) { forall i :: 0 <= i <= |ops| ==> Run(x, ops[..i]).Some? }

  /** Between creation and deletion the version never decreases, and two states with one version
      agree on header, status, roster, absences and schedule. */
  lemma {:induction false} EqualVersionsAgree(x: Session, ops: seq<Op>)
    requires Lives(Some(x), ops)
    ensures Run(Some(x), ops).Some? && Newer(x, Run(Some(x), ops).value)
  {
    assert ops[..|ops|] == ops;
    if |ops| > 0 {
      var front := ops[..|ops| - 1];
      forall i | 0 <= i <= |front| ensures Run(Some(x), front[..i]).Some? { assert front[..i] == ops[..i]; }
      EqualVersionsAgree(x, front);
      StepVouches(Run(Some(x), front).value, ops[|ops| - 1]);
    }
  }

  // ---------------------------------------------------------------- locked sessions

  /** Nothing but Unlock and the administrator's delete touches a session that is not a draft. */
  lemma LockedIsFrozen(x: Session, op: Op)
    requires x.row.status != Draft && !op.Unlock? && !op.AdminDelete?
    ensures Step(Some(x), op).0 == Some(x) && Step(Some(x), op).1.Failed?
  {
  }

  /** Until it is unlocked or deleted, a locked session stays as it is through any run. */
  lemma {:induction false} LockedStaysFrozen(x: Session, ops: seq<Op>)
    requires x.row.status != Draft && forall op <- ops :: !op.Unlock? && !op.AdminDelete?
    ensures Run(Some(x), ops) == Some(x)
  {
    if |ops| > 0 {
      LockedStaysFrozen(x, ops[..|ops| - 1]);
      LockedIsFrozen(x, ops[|ops| - 1]);
    }
  }

  /** Unlocking changes the status and the version and nothing else. */
  lemma UnlockChangesOnlyTheLock(x: Session)
    ensures Step(Some(x), Unlock).0.Some?
    ensures var y := Step(Some(x), Unlock).0.value;
      y.row.status == Draft && y == x.(row := y.row) && y.row == x.row.(status := Draft, version := y.row.version)
      && (y.row.version == x.row.version <==> x.row.status == Draft)
  {
  }

  /** Whatever is tried on a locked session before it is unlocked, the unlocked session is the one
      that was locked, as a draft one version up. */
  lemma UnlockedAsItWasLocked(x: Session, tried: seq<Op>)
    requires x.row.status != Draft && forall op <- tried :: !op.Unlock? && !op.AdminDelete?
    ensures Run(Some(x), tried + [Unlock]) == Some(x.(row := x.row.(status := Draft, version := x.row.version + 1)))
  {
    LockedStaysFrozen(x, tried);
    assert (tried + [Unlock])[..|tried|] == tried;
    UnlockChangesOnlyTheLock(x);
  }

  // ---------------------------------------------------------------- the rows of every reachable session

  /** Scores come in pairs and only on played games; the three marks of being played agree. */
  ghost predicate RowOk(r: GameRow, order: nat) {
    && (r.scoreA.Some? <==> r.scoreB.Some?) && (r.scoreA.Some? ==> r.isPlayed && ScoreOk(Score(r.scoreA.value, r.scoreB.value)))
    && (r.isPlayed <==> r.status == IsPlayed) && r.playedOrder == if r.isPlayed then Some(order + 1) else None
  }

  ghost predicate RowsOk(games: seq<GameRow>) {
    Legal(games) && Full(games) && forall i :: 0 <= i < |games| ==> RowOk(games[i], i)
  }

  ghost predicate SeatsOk(seats: map<Seat, string>) {
    NobodyTwice(seats) && seats.Keys == {SEATS[0], SEATS[1], SEATS[2], SEATS[3]}
  }

  lemma SeatsAreLegal(g: Game, refs: set<string>)
    requires KnownRefs(MembersOf(g), refs)
    ensures SeatsOk(SeatsOf(g))
  {
    MembersAreTrimmed(g);
    var m := MembersOf(g);
    assert Trim(m[0]) != Trim(m[1]) && Trim(m[0]) != Trim(m[2]) && Trim(m[0]) != Trim(m[3])
        && Trim(m[1]) != Trim(m[2]) && Trim(m[1]) != Trim(m[3]) && Trim(m[2]) != Trim(m[3]);
  }

  lemma MarksAreOk(g: Game, order: nat, played: seq<string>, scores: map<string, Score>)
    requires g.slot >= 0 && g.court >= 0
    requires KeyOf(g) in scores ==> KeyOf(g) in played && ScoreOk(scores[KeyOf(g)])
    ensures RowOk(GameRowOf(g, order, played, scores), order)
  {
  }

  lemma RowHasTheSeats(g: Game, order: nat, played: seq<string>, scores: map<string, Score>)
    requires g.slot >= 0 && g.court >= 0
    ensures GameRowOf(g, order, played, scores).seats == SeatsOf(g)
  {
  }

  lemma PublishedSeatsOk(s: Snapshot, i: nat)
    requires NonNegative(s.schedule) && i < |s.schedule| && Holds(GameRefs, s)
    ensures SeatsOk(GameRows(s)[i].seats)
  {
    assert s.schedule[i] in s.schedule;
    SeatsAreLegal(s.schedule[i], Refs(s.players));
    RowHasTheSeats(s.schedule[i], i, s.playedGames, s.gameScores);
  }

  lemma PublishedMarksOk(s: Snapshot, i: nat)
    requires NonNegative(s.schedule) && i < |s.schedule| && Holds(Scores, s)
    ensures RowOk(GameRows(s)[i], i)
  {
    MarksAreOk(s.schedule[i], i, s.playedGames, s.gameScores);
  }

  lemma PublishedPlacesDiffer(s: Snapshot)
    requires NonNegative(s.schedule) && KeysDiffer(s.schedule)
    ensures PlacesDiffer(GameRows(s))
  {
    var rows := GameRows(s);
    forall i | 0 <= i < |rows| ensures rows[i].slot == s.schedule[i].slot && rows[i].court == s.schedule[i].court {
    }
  }

  lemma PublishedRowsOk(s: Snapshot)
    requires NonNegative(s.schedule) && Holds(Keys, s) && Holds(Scores, s) && Holds(GameRefs, s)
    ensures RowsOk(GameRows(s))
  {
    PublishedPlacesDiffer(s);
    var rows := GameRows(s);
    forall i | 0 <= i < |rows| ensures RowOk(rows[i], i) && SeatsOk(rows[i].seats) {
      PublishedMarksOk(s, i);
      PublishedSeatsOk(s, i);
    }
  }

  lemma OneRowOk(games: seq<GameRow>, i: nat, r: GameRow)
    requires RowsOk(games) && i < |games| && RowOk(r, i)
    requires r.slot == games[i].slot && r.court == games[i].court && r.seats == games[i].seats
    ensures RowsOk(games[i := r])
  {
  }

  lemma SwapKeepsRowsOk(games: seq<GameRow>, kind: Kind, a: Target, b: Target)
    requires RowsOk(games) && GoesThrough(kind, games, a, b)
    ensures RowsOk(Swapped(kind, games, a, b))
  {
    SwapKeepsTheBoard(games, kind, a, b);
    SwapTouchesOnlyPlaces(games, kind, a, b);
    var after := Swapped(kind, games, a, b);
    forall i | 0 <= i < |games| ensures RowOk(after[i], i) {
      assert MarksKept(games[i], after[i]);
    }
  }

  ghost predicate Keeps(x: Session, y: Option<Session>) {
    RowsOk(x.tables.games) && y.Some? ==> RowsOk(y.value.tables.games)
  }

  lemma ScoreKeepsRowsOk(x: Session, key: string, a: int, b: int, expected: Option<nat>)
    ensures Keeps(x, ScoreStep(Some(x), key, a, b, expected).0)
  {
    if RowsOk(x.tables.games) && ScoreStep(Some(x), key, a, b, expected).1.Done? {
      var i := ScoredShape(x, key, a, b, expected);
      ScoredRowOk(x.tables.games[i], i, a, b);
      OneRowOk(x.tables.games, i, ScoredRow(x.tables.games[i], i, a, b));
    }
  }

  lemma ScoredShape(x: Session, key: string, a: int, b: int, expected: Option<nat>) returns (i: nat)
    requires ScoreStep(Some(x), key, a, b, expected).1.Done?
    ensures i < |x.tables.games| && ScoreOk(Score(a, b))
    ensures ScoreStep(Some(x), key, a, b, expected).0.Some?
    ensures ScoreStep(Some(x), key, a, b, expected).0.value.tables.games
         == x.tables.games[i := ScoredRow(x.tables.games[i], i, a, b)]
  {
    i := GameIndex(x.tables.games, Split(key).value.0, Split(key).value.1).value;
  }

  lemma ScoredRowOk(r: GameRow, order: nat, a: int, b: int)
    requires RowOk(r, order) && ScoreOk(Score(a, b))
    ensures RowOk(ScoredRow(r, order, a, b), order)
  {
  }

  lemma PlayedKeepsRowsOk(x: Session, key: string, played: bool, expected: Option<nat>)
    ensures Keeps(x, PlayedStep(Some(x), key, played, expected).0)
  {
    var y := PlayedStep(Some(x), key, played, expected).0;
    if RowsOk(x.tables.games) && y != Some(x) {
      var i := PlayedShape(x, key, played, expected);
      PlayedRowOk(x.tables.games[i], i, played);
      OneRowOk(x.tables.games, i, PlayedRow(x.tables.games[i], i, played));
    }
  }

  lemma PlayedShape(x: Session, key: string, played: bool, expected: Option<nat>) returns (i: nat)
    requires PlayedStep(Some(x), key, played, expected).0 != Some(x)
    ensures i < |x.tables.games|
    ensures PlayedStep(Some(x), key, played, expected).0
         == Some(WithGames(x, x.tables.games[i := PlayedRow(x.tables.games[i], i, played)]))
  {
    i := GameIndex(x.tables.games, Split(key).value.0, Split(key).value.1).value;
  }

  lemma PlayedRowOk(r: GameRow, order: nat, played: bool)
    requires RowOk(r, order)
    ensures RowOk(PlayedRow(r, order, played), order)
  {
  }

  lemma SkippedShape(x: Session, key: string, refs: seq<string>, expected: Option<nat>) returns (i: nat, r: GameRow)
    ensures SkippedStep(Some(x), key, refs, expected).0 == Some(x)
      || (i < |x.tables.games| && r == x.tables.games[i].(skipped := r.skipped, version := r.version)
          && SkippedStep(Some(x), key, refs, expected).0 == Some(WithGames(x, x.tables.games[i := r])))
  {
    i := 0;
    r :| true;
    if Split(key).Some? && GameIndex(x.tables.games, Split(key).value.0, Split(key).value.1).Some? {
      i := GameIndex(x.tables.games, Split(key).value.0, Split(key).value.1).value;
      r := x.tables.games[i].(skipped := Kept(refs), version := x.tables.games[i].version + 1);
    }
  }

  lemma SkippedKeepsRowsOk(x: Session, key: string, refs: seq<string>, expected: Option<nat>)
    ensures Keeps(x, SkippedStep(Some(x), key, refs, expected).0)
  {
    var y := SkippedStep(Some(x), key, refs, expected).0;
    var i, r := SkippedShape(x, key, refs, expected);
    if RowsOk(x.tables.games) && y != Some(x) { OneRowOk(x.tables.games, i, r); }
  }

  lemma SaveWritesRowsOk(x: Option<Session>, s: Snapshot, resolvable: bool, today: int)
    requires SaveStep(x, s, resolvable, today).1.Done?
    ensures RowsOk(SaveStep(x, s, resolvable, today).0.value.tables.games)
  {
    PublishedRowsOk(s);
  }

  lemma SwapStepKeepsRowsOk(x: Session, kind: Kind, a: Target, b: Target, expected: Option<nat>)
    ensures Keeps(x, SwapStep(Some(x), kind, a, b, expected).0)
  {
    if RowsOk(x.tables.games) && GoesThrough(kind, x.tables.games, a, b) { SwapKeepsRowsOk(x.tables.games, kind, a, b); }
  }

  lemma StepKeepsRowsOk(x: Option<Session>, op: Op)
    requires x.Some? ==> RowsOk(x.value.tables.games)
    ensures Step(x, op).0.Some? ==> RowsOk(Step(x, op).0.value.tables.games)
  {
    match op
    case Save(s, resolvable, today) => if SaveStep(x, s, resolvable, today).1.Done? { SaveWritesRowsOk(x, s, resolvable, today); }
    case SetScore(key, a, b, expected) => if x.Some? { ScoreKeepsRowsOk(x.value, key, a, b, expected); }
    case SetPlayed(key, played, expected) => if x.Some? { PlayedKeepsRowsOk(x.value, key, played, expected); }
    case SetSkipped(key, refs, expected) => if x.Some? { SkippedKeepsRowsOk(x.value, key, refs, expected); }
    case Swap(kind, a, b, expected) => if x.Some? { SwapStepKeepsRowsOk(x.value, kind, a, b, expected); }
    case SetAbsent(refs, expected) =>
    case Unlock =>
    case Delete =>
    case AdminDelete =>
  }

  /** Whatever is done to a session from its creation on, its game rows keep these relations. */
  lemma {:induction false} RunsKeepRowsOk(ops: seq<Op>)
    ensures Run(None, ops).Some? ==> RowsOk(Run(None, ops).value.tables.games)
  {
    if |ops| > 0 {
      RunsKeepRowsOk(ops[..|ops| - 1]);
      StepKeepsRowsOk(Run(None, ops[..|ops| - 1]), ops[|ops| - 1]);
    }
  }

  // ---------------------------------------------------------------- counting scores

  /** After a score is stored, the session is locked exactly when every game has one. */
  lemma LastScoreLocks(x: Session, key: string, a: int, b: int, expected: Option<nat>)
    requires ScoreStep(Some(x), key, a, b, expected).1.Done?
    ensures var y := ScoreStep(Some(x), key, a, b, expected).0.value;
      y.row.status == (if AllScored(y.tables.games) then Locked else Draft)
      && y.row.version == x.row.version + (if AllScored(y.tables.games) then 1 else 0)
  {
  }

  function ScoredRows(games: seq<GameRow>): nat {
    if |games| == 0 then 0 else ScoredRows(games[..|games| - 1]) + if games[|games| - 1].scoreA.Some? then 1 else 0
  }

  lemma {:induction false} AllScoredCounts(games: seq<GameRow>)
    ensures ScoredRows(games) <= |games| && (ScoredRows(games) == |games| <==> AllScored(games))
  {
    if |games| > 0 {
      AllScoredCounts(games[..|games| - 1]);
      assert forall i :: 0 <= i < |games| - 1 ==> games[i] == games[..|games| - 1][i];
    }
  }

  /** A scored game's key is within reach of the strict parser. */
  ghost predicate WithinLimit(g: Game, scores: map<string, Score>)
    requires g.slot >= 0 && g.court >= 0
  {
    KeyOf(g) in scores ==> g.slot <= LIMIT && g.court <= LIMIT
  }

  lemma {:induction false} CountsCompare(rows: seq<GameRow>, games: seq<Game>, played: seq<string>, scores: map<string, Score>)
    requires Mirror(rows, games, played, scores)
    ensures ScoredRows(rows) <= CountScored(games, scores)
    ensures ScoredRows(rows) == CountScored(games, scores) <==> EachWithinLimit(games, scores)
  {
    if |rows| > 0 {
      var n := |rows| - 1;
      CountsCompare(rows[..n], games[..n], played, scores);
      ScoreIsStored(rows[n], games[n], played, scores);
      AllWithinLimit(games, scores);
    }
  }

  ghost predicate EachWithinLimit(games: seq<Game>, scores: map<string, Score>)
    requires NonNegative(games)
  {
    forall i :: 0 <= i < |games| ==> WithinLimit(games[i], scores)
  }

  lemma AllWithinLimit(games: seq<Game>, scores: map<string, Score>)
    requires |games| > 0 && NonNegative(games)
    ensures EachWithinLimit(games, scores)
       <==> EachWithinLimit(games[..|games| - 1], scores) && WithinLimit(games[|games| - 1], scores)
  {
    assert forall i :: 0 <= i < |games| - 1 ==> games[i] == games[..|games| - 1][i];
  }

  lemma ScoreIsStored(row: GameRow, g: Game, played: seq<string>, scores: map<string, Score>)
    requires g.slot >= 0 && g.court >= 0
    requires row == WithScore(row.(scoreA := None, scoreB := None), StoredScore(scores, KeyOf(g)))
    ensures row.scoreA.Some? <==> KeyOf(g) in scores && WithinLimit(g, scores)
  {
    SplitInvertsGameKey(g.slot, g.court);
  }

  /** The count made on the snapshot is the count of scored rows written from it, exactly when no
      scored game lies beyond slot or court 2^30; otherwise it is larger. */
  lemma SnapshotCountAgreesWithRows(s: Snapshot)
    requires NonNegative(s.schedule)
    ensures ScoredRows(GameRows(s)) <= CountScored(s.schedule, s.gameScores)
    ensures ScoredRows(GameRows(s)) == CountScored(s.schedule, s.gameScores)
            <==> forall i :: 0 <= i < |s.schedule| ==> WithinLimit(s.schedule[i], s.gameScores)
  {
    RowsMirrorTheSchedule(s);
    CountsCompare(GameRows(s), s.schedule, s.playedGames, s.gameScores);
  }
}
