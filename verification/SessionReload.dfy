/** Every reachable session loads as a snapshot that validates, so a client may always publish
    back what it was given. */
module SessionReload {
  import opened Options
  import opened GameKeys
  import opened Text
  import opened Sorting
  import opened Snapshots
  import opened SessionTables
  import opened SessionLoad
  import opened SnapshotRoundTrip
  import opened SnapshotReload
  import opened Swaps
  import opened SessionSteps
  import opened SessionLaws

  function RefSet(players: seq<PlayerRow>): set<string> { Refs(PlayersOf(players)) }

  /** The sections that only a publish can change. */
  ghost predicate PlanOk(s: Snapshot) { Holds(Header, s) && Holds(Players, s) && Holds(Courts, s) && Holds(FixMatches, s) }

  ghost predicate GameOk(r: GameRow, refs: set<string>) {
    && (forall seat <- r.seats :: Trim(r.seats[seat]) == r.seats[seat] && r.seats[seat] != "" && r.seats[seat] in refs)
    && KnownRefs(r.skipped, refs)
  }

  ghost predicate RefsTrimmed(players: seq<PlayerRow>) {
    forall i :: 0 <= i < |players| ==> Trim(players[i].ref) == players[i].ref
  }

  ghost predicate GamesOk(games: seq<GameRow>, refs: set<string>) {
    forall i :: 0 <= i < |games| ==> GameOk(games[i], refs)
  }

  ghost predicate Sound(x: Session) {
    && RowsOk(x.tables.games) && PlanOk(Loaded(x))
    && RefsTrimmed(x.tables.players) && GamesOk(x.tables.games, RefSet(x.tables.players))
  }

  // ---------------------------------------------------------------- sound sessions load as valid snapshots

  lemma LoadedKeys(games: seq<GameRow>)
    requires PlacesDiffer(games)
    ensures KeysDiffer(ScheduleOf(games))
  {
    var s := ScheduleOf(games);
    assert forall i :: 0 <= i < |s| ==> s[i].slot == games[i].slot && s[i].court == games[i].court;
  }

  lemma LoadedGame(r: GameRow, refs: set<string>)
    requires GameOk(r, refs) && NobodyTwice(r.seats) && r.seats.Keys == {SEATS[0], SEATS[1], SEATS[2], SEATS[3]}
    ensures KnownRefs(MembersOf(GameOf(r)), refs)
  {
    var m := MembersOf(GameOf(r));
    assert SEATS[0] in r.seats && SEATS[1] in r.seats && SEATS[2] in r.seats && SEATS[3] in r.seats;
    assert forall k :: 0 <= k < 4 ==> m[k] == r.seats[SEATS[k]] == Trim(m[k]);
  }

  lemma LoadedGames(games: seq<GameRow>, refs: set<string>)
    requires Legal(games) && Full(games) && GamesOk(games, refs)
    ensures forall g <- ScheduleOf(games) :: KnownRefs(MembersOf(g), refs)
  {
    var s := ScheduleOf(games);
    forall g | g in s ensures KnownRefs(MembersOf(g), refs) {
      var i :| 0 <= i < |s| && s[i] == g;
      LoadedGame(games[i], refs);
    }
  }

  lemma {:induction false} LoadedPlayed(games: seq<GameRow>)
    requires PlacesDiffer(games)
    ensures Distinct(PlayedKeys(games))
    ensures forall k :: k in PlayedKeys(games) <==>
              exists i :: 0 <= i < |games| && games[i].isPlayed && games[i].playedOrder.Some? && KeyOfRow(games[i]) == k
  {
    if |games| > 0 {
      var front, r := games[..|games| - 1], games[|games| - 1];
      LoadedPlayed(front);
      var before := PlayedKeys(front);
      assert games == front + [r];
      forall i | 0 <= i < |front| ensures KeyOfRow(front[i]) != KeyOfRow(r) {
        if KeyOfRow(front[i]) == KeyOfRow(r) { GameKeyIsInjective(front[i].slot, front[i].court, r.slot, r.court); }
      }
      forall i | 0 <= i < |before| ensures before[i] != KeyOfRow(r) { assert before[i] in before; }
    }
  }

  lemma {:induction false} LoadedScores(games: seq<GameRow>, k: string)
    requires forall i :: 0 <= i < |games| ==> RowOk(games[i], i)
    requires k in ScoreMap(games)
    ensures ScoreOk(ScoreMap(games)[k])
    ensures exists i :: 0 <= i < |games| && games[i].isPlayed && games[i].playedOrder.Some? && KeyOfRow(games[i]) == k
  {
    var front, r := games[..|games| - 1], games[|games| - 1];
    if KeyOfRow(r) != k || r.scoreA.None? {
      LoadedScores(front, k);
      var i :| 0 <= i < |front| && front[i].isPlayed && front[i].playedOrder.Some? && KeyOfRow(front[i]) == k;
      assert games[i] == front[i];
    } else {
      assert RowOk(r, |games| - 1);
    }
  }

  lemma {:induction false} LoadedSkips(games: seq<GameRow>, refs: set<string>, k: string)
    requires GamesOk(games, refs)
    requires k in SkippedMap(games)
    ensures KnownRefs(SkippedMap(games)[k], refs)
    ensures exists i :: 0 <= i < |games| && KeyOfRow(games[i]) == k
  {
    var front, r := games[..|games| - 1], games[|games| - 1];
    if KeyOfRow(r) != k || r.skipped == [] {
      LoadedSkips(front, refs, k);
      var i :| 0 <= i < |front| && KeyOfRow(front[i]) == k;
      assert games[i] == front[i];
    } else {
      assert GameOk(r, refs);
    }
  }

  lemma KeyOfRowIsScheduled(games: seq<GameRow>, i: nat)
    requires i < |games|
    ensures NonNegative(ScheduleOf(games)) && KeyOfRow(games[i]) in KeySet(ScheduleOf(games))
  {
    assert ScheduleOf(games)[i] in ScheduleOf(games);
  }

  lemma PlayedAreScheduled(games: seq<GameRow>)
    requires RowsOk(games)
    ensures Distinct(PlayedKeys(games)) && NonNegative(ScheduleOf(games))
    ensures forall k <- PlayedKeys(games) :: k in KeySet(ScheduleOf(games))
  {
    LoadedPlayed(games);
    forall k | k in PlayedKeys(games) ensures k in KeySet(ScheduleOf(games)) {
      var i :| 0 <= i < |games| && games[i].isPlayed && games[i].playedOrder.Some? && KeyOfRow(games[i]) == k;
      KeyOfRowIsScheduled(games, i);
    }
  }

  lemma ScoredArePlayed(games: seq<GameRow>)
    requires RowsOk(games)
    ensures forall k <- ScoreMap(games) :: k in PlayedKeys(games) && ScoreOk(ScoreMap(games)[k])
  {
    LoadedPlayed(games);
    forall k | k in ScoreMap(games) ensures k in PlayedKeys(games) && ScoreOk(ScoreMap(games)[k]) { LoadedScores(games, k); }
  }

  lemma LoadedMarks(x: Session)
    requires RowsOk(x.tables.games)
    ensures Holds(Played, Loaded(x)) && Holds(Scores, Loaded(x))
  {
    PlayedAreScheduled(x.tables.games);
    ScoredArePlayed(x.tables.games);
  }

  lemma LoadedSkipped(x: Session)
    requires GamesOk(x.tables.games, RefSet(x.tables.players))
    ensures Holds(Skipped, Loaded(x))
  {
    var games, s := x.tables.games, Loaded(x);
    forall k | k in s.skipped ensures k in KeySet(s.schedule) && KnownRefs(s.skipped[k], RefSet(x.tables.players)) {
      LoadedSkips(games, RefSet(x.tables.players), k);
      var i :| 0 <= i < |games| && KeyOfRow(games[i]) == k;
      KeyOfRowIsScheduled(games, i);
    }
  }

  /** Sorted absent entries come from pairwise different roster rows. */
  lemma SortedEntries(players: seq<PlayerRow>) returns (sorted: seq<AbsentEntry>)
    ensures sorted == Sort(AbsentEntries(players), Before)
    ensures forall i :: 0 <= i < |sorted| ==> sorted[i].sortOrder < |players| && sorted[i].ref == players[sorted[i].sortOrder].ref
    ensures forall i, j :: 0 <= i < j < |sorted| ==> sorted[i].sortOrder != sorted[j].sortOrder
  {
    var entries := AbsentEntries(players);
    EntriesAreAbsentRows(players);
    BeforeIsStrictWeak();
    SortSorts(entries, Before);
    sorted := Sort(entries, Before);
    forall i | 0 <= i < |sorted| ensures sorted[i].sortOrder < |players| && sorted[i].ref == players[sorted[i].sortOrder].ref {
      assert sorted[i] in multiset(sorted);
      var k := IndexIn(entries, sorted[i]);
    }
    forall i, j | 0 <= i < j < |sorted| ensures sorted[i].sortOrder != sorted[j].sortOrder {
      PairIsContained(sorted, i, j);
      var k, l := PairIsFound(entries, sorted[i], sorted[j]);
    }
  }

  lemma InRefSet(players: seq<PlayerRow>, i: nat)
    requires i < |players|
    ensures Trim(players[i].ref) in RefSet(players)
  {
    assert PlayersOf(players)[i] in PlayersOf(players);
  }

  lemma LoadedAbsent(players: seq<PlayerRow>)
    requires forall i :: 0 <= i < |players| ==> Trim(players[i].ref) == players[i].ref != ""
    requires forall i, j :: 0 <= i < j < |players| ==> players[i].ref != players[j].ref
    ensures KnownRefs(AbsentRefs(players), RefSet(players))
  {
    var sorted := SortedEntries(players);
    var refs := RefsOf(sorted);
    forall i | 0 <= i < |refs| ensures Trim(refs[i]) == refs[i] != "" && refs[i] in RefSet(players) {
      InRefSet(players, sorted[i].sortOrder);
    }
    forall i, j | 0 <= i < j < |refs| ensures refs[i] != refs[j] {
      assert sorted[i].sortOrder != sorted[j].sortOrder;
    }
  }

  lemma RosterRefs(x: Session)
    requires Holds(Players, Loaded(x))
    requires forall i :: 0 <= i < |x.tables.players| ==> Trim(x.tables.players[i].ref) == x.tables.players[i].ref
    ensures forall i :: 0 <= i < |x.tables.players| ==> Trim(x.tables.players[i].ref) == x.tables.players[i].ref != ""
    ensures forall i, j :: 0 <= i < j < |x.tables.players| ==> x.tables.players[i].ref != x.tables.players[j].ref
  {
    var s := Loaded(x);
    forall i | 0 <= i < |x.tables.players| ensures x.tables.players[i].ref != "" {
      assert s.players[i] in s.players && PlayerOk(s.players[i]);
    }
    forall i, j | 0 <= i < j < |x.tables.players| ensures x.tables.players[i].ref != x.tables.players[j].ref {
      assert s.players[i].id != s.players[j].id;
    }
  }

  lemma LoadedSchedule(x: Session)
    requires RowsOk(x.tables.games)
    requires GamesOk(x.tables.games, RefSet(x.tables.players))
    ensures Holds(Keys, Loaded(x)) && Holds(GameRefs, Loaded(x))
  {
    LoadedKeys(x.tables.games);
    LoadedGames(x.tables.games, RefSet(x.tables.players));
  }

  lemma LoadedAbsences(x: Session)
    requires Sound(x)
    ensures Holds(Absent, Loaded(x))
  {
    RosterRefs(x);
    LoadedAbsent(x.tables.players);
  }

  lemma SoundIsPublishable(x: Session)
    requires Sound(x)
    ensures Valid(Loaded(x))
  {
    LoadedSchedule(x);
    LoadedAbsences(x);
    LoadedMarks(x);
    LoadedSkipped(x);
  }

  // ---------------------------------------------------------------- operations other than publishing keep the plan

  /** What the plan sections look at. */
  ghost predicate SamePlan(x: Session, y: Session) {
    && x.row.day == y.row.day && x.row.start == y.row.start && x.row.slotMinutes == y.row.slotMinutes
    && x.tables.courts == y.tables.courts && x.tables.fixes == y.tables.fixes
    && PlayersOf(x.tables.players) == PlayersOf(y.tables.players)
  }

  lemma SamePlanSameSections(x: Session, y: Session)
    requires SamePlan(x, y)
    ensures PlanOk(Loaded(x)) ==> PlanOk(Loaded(y))
    ensures RefSet(x.tables.players) == RefSet(y.tables.players)
    ensures RefsTrimmed(x.tables.players) ==> RefsTrimmed(y.tables.players)
  {
    assert |x.tables.players| == |PlayersOf(x.tables.players)| == |y.tables.players|;
    forall i | 0 <= i < |y.tables.players| ensures y.tables.players[i].ref == x.tables.players[i].ref {
      assert PlayersOf(x.tables.players)[i] == PlayersOf(y.tables.players)[i];
    }
  }

  lemma MarkingKeepsPlayers(players: seq<PlayerRow>, refs: seq<string>)
    ensures PlayersOf(MarkedAbsent(players, refs)) == PlayersOf(players)
  {
  }

  lemma StepKeepsPlan(x: Session, op: Op)
    requires Step(Some(x), op).0.Some? && !op.Save?
    ensures SamePlan(x, Step(Some(x), op).0.value)
  {
    match op
    case SetScore(key, a, b, expected) =>
    case SetPlayed(key, played, expected) =>
    case SetSkipped(key, refs, expected) =>
    case SetAbsent(refs, expected) => MarkingKeepsPlayers(x.tables.players, Kept(refs));
    case Swap(kind, a, b, expected) =>
    case Unlock =>
    case Delete =>
    case AdminDelete =>
  }

  // ---------------------------------------------------------------- and seat and skip only known players

  ghost predicate KeepsGamesOk(x: Session, y: Option<Session>) {
    GamesOk(x.tables.games, RefSet(x.tables.players)) && y.Some? ==> GamesOk(y.value.tables.games, RefSet(x.tables.players))
  }

  /** Marks do not matter here. */
  lemma OneGameOk(games: seq<GameRow>, i: nat, r: GameRow, refs: set<string>)
    requires i < |games| && r.seats == games[i].seats && r.skipped == games[i].skipped
    ensures GamesOk(games, refs) ==> GamesOk(games[i := r], refs)
  {
  }

  lemma ScoreKeepsGamesOk(x: Session, key: string, a: int, b: int, expected: Option<nat>)
    ensures KeepsGamesOk(x, ScoreStep(Some(x), key, a, b, expected).0)
  {
    if ScoreStep(Some(x), key, a, b, expected).1.Done? {
      var i := ScoredShape(x, key, a, b, expected);
      OneGameOk(x.tables.games, i, ScoredRow(x.tables.games[i], i, a, b), RefSet(x.tables.players));
    }
  }

  lemma PlayedKeepsGamesOk(x: Session, key: string, played: bool, expected: Option<nat>)
    ensures KeepsGamesOk(x, PlayedStep(Some(x), key, played, expected).0)
  {
    if PlayedStep(Some(x), key, played, expected).0 != Some(x) {
      var i := PlayedShape(x, key, played, expected);
      OneGameOk(x.tables.games, i, PlayedRow(x.tables.games[i], i, played), RefSet(x.tables.players));
    }
  }

  /** A deduplicated request on the roster is a list of known references. */
  lemma KeptAreKnown(players: seq<PlayerRow>, refs: seq<string>)
    requires RefsTrimmed(players) && Distinct(Kept(refs)) && AllOnRoster(players, Kept(refs))
    ensures KnownRefs(Kept(refs), RefSet(players))
  {
    KeptAreTrimmed(refs);
    var kept := Kept(refs);
    forall i | 0 <= i < |kept| ensures Trim(kept[i]) in RefSet(players) {
      assert kept[i] in kept && OnRoster(players, kept[i]);
      var k :| 0 <= k < |players| && players[k].ref == kept[i];
      InRefSet(players, k);
    }
  }

  lemma SkippedKeepsGamesOk(x: Session, key: string, refs: seq<string>, expected: Option<nat>)
    requires RefsTrimmed(x.tables.players)
    ensures KeepsGamesOk(x, SkippedStep(Some(x), key, refs, expected).0)
  {
    if SkippedStep(Some(x), key, refs, expected).0 != Some(x) { KeptAreKnown(x.tables.players, refs); }
  }

  ghost predicate SeatedFrom(seats: map<Seat, string>, a: map<Seat, string>, b: map<Seat, string>) {
    forall s <- seats :: (exists t <- a :: a[t] == seats[s]) || (exists t <- b :: b[t] == seats[s])
  }

  lemma SeatedFromIsOk(r: GameRow, a: GameRow, b: GameRow, refs: set<string>)
    requires SeatedFrom(r.seats, a.seats, b.seats) && GameOk(a, refs) && GameOk(b, refs) && r.skipped == a.skipped
    ensures GameOk(r, refs)
  {
  }

  lemma SidesAreSeatedFrom(x: map<Seat, string>)
    requires forall k :: 0 <= k < 4 ==> SEATS[k] in x
    ensures SeatedFrom(SidesSwapped(x), x, x)
  {
    assert SEATS[0] in x && SEATS[1] in x && SEATS[2] in x && SEATS[3] in x;
  }

  lemma SwappedSeats(games: seq<GameRow>, kind: Kind, a: Target, b: Target)
    requires GoesThrough(kind, games, a, b)
    ensures var i := GameIndex(games, a.slot, a.court).value;
      var j := if a.slot == b.slot && a.court == b.court then i else GameIndex(games, b.slot, b.court).value;
      SeatedFrom(Swapped(kind, games, a, b)[i].seats, games[i].seats, games[j].seats)
      && SeatedFrom(Swapped(kind, games, a, b)[j].seats, games[j].seats, games[i].seats)
  {
    var i := GameIndex(games, a.slot, a.court).value;
    if a.slot == b.slot && a.court == b.court {
      if kind == TeamSwap { SidesAreSeatedFrom(games[i].seats); }
    }
  }

  lemma SwapKeepsGamesOk(games: seq<GameRow>, kind: Kind, a: Target, b: Target, refs: set<string>)
    requires GoesThrough(kind, games, a, b) && GamesOk(games, refs)
    ensures GamesOk(Swapped(kind, games, a, b), refs)
  {
    SwappedSeats(games, kind, a, b);
    var i, after := GameIndex(games, a.slot, a.court).value, Swapped(kind, games, a, b);
    var j := if a.slot == b.slot && a.court == b.court then i else GameIndex(games, b.slot, b.court).value;
    SwappedElsewhere(games, kind, a, b, i, j);
    forall k | 0 <= k < |games| ensures GameOk(after[k], refs) {
      assert GameOk(games[i], refs) && GameOk(games[j], refs) && GameOk(games[k], refs);
      if k == i {
        SeatedFromIsOk(after[i], games[i], games[j], refs);
      } else if k == j {
        SeatedFromIsOk(after[j], games[j], games[i], refs);
      }
    }
  }

  /** Skips stay with their rows, and no third row is touched. */
  lemma SwappedElsewhere(games: seq<GameRow>, kind: Kind, a: Target, b: Target, i: nat, j: nat)
    requires GoesThrough(kind, games, a, b) && GameIndex(games, a.slot, a.court) == Some(i)
    requires if a.slot == b.slot && a.court == b.court then i == j else GameIndex(games, b.slot, b.court) == Some(j)
    ensures var after := Swapped(kind, games, a, b);
      && |after| == |games| && after[i].skipped == games[i].skipped && after[j].skipped == games[j].skipped
      && forall k :: 0 <= k < |games| && k != i && k != j ==> after[k] == games[k]
  {
  }

  lemma StepKeepsGamesOk(x: Session, op: Op)
    requires !op.Save? && RefsTrimmed(x.tables.players)
    ensures KeepsGamesOk(x, Step(Some(x), op).0)
  {
    match op
    case SetScore(key, a, b, expected) => ScoreKeepsGamesOk(x, key, a, b, expected);
    case SetPlayed(key, played, expected) => PlayedKeepsGamesOk(x, key, played, expected);
    case SetSkipped(key, refs, expected) => SkippedKeepsGamesOk(x, key, refs, expected);
    case Swap(kind, a, b, expected) =>
      if GamesOk(x.tables.games, RefSet(x.tables.players)) && GoesThrough(kind, x.tables.games, a, b) {
        SwapKeepsGamesOk(x.tables.games, kind, a, b, RefSet(x.tables.players));
      }
    case SetAbsent(refs, expected) =>
    case Unlock =>
    case Delete =>
    case AdminDelete =>
  }

  // ---------------------------------------------------------------- publishing

  lemma SeatsHoldMembers(g: Game)
    ensures forall seat <- SeatsOf(g) :: SeatsOf(g)[seat] in MembersOf(g)
  {
    var m := MembersOf(g);
    assert m[0] in m && m[1] in m && m[2] in m && m[3] in m;
  }

  lemma SeatedGameOk(g: Game, order: nat, played: seq<string>, scores: map<string, Score>, refs: set<string>)
    requires g.slot >= 0 && g.court >= 0 && KnownRefs(MembersOf(g), refs)
    ensures GameOk(GameRowOf(g, order, played, scores), refs)
  {
    MembersAreTrimmed(g);
    var m := MembersOf(g);
    assert forall k :: 0 <= k < 4 ==> Trim(m[k]) == m[k] != "" && m[k] in refs;
    RowHasTheSeats(g, order, played, scores);
    SeatsHoldMembers(g);
  }

  lemma PublishedGamesOk(s: Snapshot)
    requires NonNegative(s.schedule) && Holds(GameRefs, s)
    ensures GamesOk(GameRows(s), Refs(s.players))
  {
    forall i | 0 <= i < |s.schedule| ensures GameOk(GameRows(s)[i], Refs(s.players)) {
      assert s.schedule[i] in s.schedule;
      SeatedGameOk(s.schedule[i], i, s.playedGames, s.gameScores, Refs(s.players));
    }
  }

  /** A snapshot whose trimmed ids differ and whose default court times do not pass midnight. */
  ghost predicate Tidy(s: Snapshot) {
    Valid(s) && TrimmedIdsDiffer(s.players) && DefaultCourtsAscend(s.session)
  }

  lemma PublishedPlan(s: Snapshot, status: Status, version: nat)
    requires Tidy(s) && NonNegative(s.schedule)
    ensures PlanOk(Loaded(Published(s, status, version)))
  {
    LoadedNormalForm(s, status, version);
    ReloadIsPublishable(s, status != Draft, version);
  }

  lemma PublishedRoster(s: Snapshot)
    ensures RefsTrimmed(PlayerRows(s.players, s.absent)) && RefSet(PlayerRows(s.players, s.absent)) == Refs(s.players)
  {
    var rows := PlayerRows(s.players, s.absent);
    forall i | 0 <= i < |rows| ensures Trim(rows[i].ref) == rows[i].ref { TrimIsIdempotent(s.players[i].id); }
    RefsAreTrimmed(s.players);
    assert PlayersOf(rows) == NormalPlayers(s.players);
  }

  lemma PublishedIsSound(s: Snapshot, status: Status, version: nat)
    requires Tidy(s) && NonNegative(s.schedule)
    ensures Sound(Published(s, status, version))
  {
    PublishedRowsOk(s);
    PublishedPlan(s, status, version);
    PublishedRoster(s);
    PublishedGamesOk(s);
  }

  // ---------------------------------------------------------------- runs

  ghost predicate TidySaves(ops: seq<Op>) { forall i :: 0 <= i < |ops| && ops[i].Save? && Valid(ops[i].s) ==> Tidy(ops[i].s) }

  lemma SavePublishes(x: Option<Session>, s: Snapshot, resolvable: bool, today: int) returns (status: Status, version: nat)
    requires SaveStep(x, s, resolvable, today).1.Done?
    ensures NonNegative(s.schedule) && s.session.date.On? && s.session.slotMinutes >= 0 && s.session.courts >= 0
    ensures SaveStep(x, s, resolvable, today).0 == Some(Published(s, status, version))
  {
    version := if x.Some? then x.value.row.version + 1 else 1;
    status := if s.session.locked || LocksItself(x.Some?, s, today) then Locked else Draft;
  }

  lemma SaveKeepsSound(x: Option<Session>, s: Snapshot, resolvable: bool, today: int)
    requires SaveStep(x, s, resolvable, today).1.Done? && Tidy(s)
    ensures Sound(SaveStep(x, s, resolvable, today).0.value)
  {
    var status, version := SavePublishes(x, s, resolvable, today);
    PublishedIsSound(s, status, version);
  }

  lemma RefusedSaveChangesNothing(x: Option<Session>, s: Snapshot, resolvable: bool, today: int)
    ensures SaveStep(x, s, resolvable, today).1.Done? ==> Valid(s)
    ensures !SaveStep(x, s, resolvable, today).1.Done? ==> SaveStep(x, s, resolvable, today).0 == x
  {
  }

  lemma SoundAgain(x: Session, y: Session)
    requires Sound(x) && RowsOk(y.tables.games) && SamePlan(x, y) && KeepsGamesOk(x, Some(y))
    ensures Sound(y)
  {
    SamePlanSameSections(x, y);
  }

  lemma OtherStepKeepsSound(x: Session, op: Op, y: Session)
    requires Sound(x) && !op.Save? && Step(Some(x), op).0 == Some(y)
    ensures Sound(y)
  {
    StepKeepsRowsOk(Some(x), op);
    StepKeepsPlan(x, op);
    StepKeepsGamesOk(x, op);
    SoundAgain(x, y);
  }

  lemma StepKeepsSound(x: Option<Session>, op: Op)
    requires x.Some? ==> Sound(x.value)
    requires op.Save? && Valid(op.s) ==> Tidy(op.s)
    ensures Step(x, op).0.Some? ==> Sound(Step(x, op).0.value)
  {
    if op.Save? {
      RefusedSaveChangesNothing(x, op.s, op.resolvable, op.today);
      if SaveStep(x, op.s, op.resolvable, op.today).1.Done? { SaveKeepsSound(x, op.s, op.resolvable, op.today); }
    } else if x.Some? && Step(x, op).0.Some? {
      OtherStepKeepsSound(x.value, op, Step(x, op).0.value);
    }
  }

  lemma {:induction false} RunsStaySound(ops: seq<Op>)
    requires TidySaves(ops)
    ensures Run(None, ops).Some? ==> Sound(Run(None, ops).value)
  {
    if |ops| > 0 {
      var front := ops[..|ops| - 1];
      assert forall i :: 0 <= i < |front| ==> front[i] == ops[i];
      RunsStaySound(front);
      StepKeepsSound(Run(None, front), ops[|ops| - 1]);
    }
  }

  /** Whatever has been done to a session, the snapshot a client loads is one it may publish back. */
  lemma LoadedSnapshotsValidate(ops: seq<Op>)
    requires TidySaves(ops) && Run(None, ops).Some?
    ensures Valid(Loaded(Run(None, ops).value))
  {
    RunsStaySound(ops);
    SoundIsPublishable(Run(None, ops).value);
  }
}
