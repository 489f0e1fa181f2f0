/** Publishing again what was loaded: when it is accepted, and that it then changes nothing. */
module SnapshotReload {
  import opened Options
  import opened GameKeys
  import opened Text
  import opened Sorting
  import opened Snapshots
  import opened SessionTables
  import opened SessionLoad
  import opened SnapshotRoundTrip

  // ---------------------------------------------------------------- normal forms are fixed points

  lemma NormalConfigIsIdempotent(c: Config, players: nat, locked: bool, locked': bool)
    requires c.slotMinutes >= 0 && c.courts >= 0
    ensures NormalConfig(NormalConfig(c, players, locked), players, locked') == NormalConfig(c, players, locked')
  {
    var n := NormalConfig(c, players, locked);
    assert CourtCount(n) == CourtCount(c) && StartOf(n) == StartOf(c) && SlotLength(n) == SlotLength(c);
    assert forall i :: 0 <= i < CourtCount(c) ==> TimeAt(n, i) == TimeAt(c, i);
    if i :| 0 <= i < CourtCount(c) && NameAt(c, i) != "" {
      assert forall k :: 0 <= k < CourtCount(c) ==> NameAt(n, k) == NameAt(c, k);
      assert NameAt(n, i) != "";
    } else {
      assert forall k :: 0 <= k < CourtCount(c) ==> NameAt(n, k) == "";
    }
  }

  lemma NormalIdsAreIdempotent(ids: seq<string>)
    ensures NormalIds(NormalIds(ids)) == NormalIds(ids)
  {
    forall i | 0 <= i < |ids| ensures Trim(Trim(ids[i])) == Trim(ids[i]) { TrimIsIdempotent(ids[i]); }
  }

  lemma NormalPlayersAreIdempotent(players: seq<Player>)
    ensures NormalPlayers(NormalPlayers(players)) == NormalPlayers(players)
  {
    forall i | 0 <= i < |players| ensures NormalPlayer(NormalPlayer(players[i])) == NormalPlayer(players[i]) {
      TrimIsIdempotent(players[i].id);
    }
  }

  lemma NormalSlotIsIdempotent(slot: Option<string>)
    ensures NormalSlot(NormalSlot(slot)) == NormalSlot(slot)
  {
    if slot.Some? { TrimIsIdempotent(slot.value); }
    TrimIsIdempotent("");
  }

  lemma NormalFixesKeepIds(fixes: seq<Fix>, i: nat)
    requires i < |fixes|
    ensures FixId(NormalFixes(fixes), i) == FixId(fixes, i)
  {
  }

  lemma NormalFixesAreIdempotent(fixes: seq<Fix>)
    ensures NormalFixes(NormalFixes(fixes)) == NormalFixes(fixes)
  {
    forall i | 0 <= i < |fixes| ensures NormalFix(NormalFixes(fixes), i) == NormalFix(fixes, i) {
      NormalFixesKeepIds(fixes, i);
      NormalSlotIsIdempotent(fixes[i].slots.s0);
      NormalSlotIsIdempotent(fixes[i].slots.s1);
      NormalSlotIsIdempotent(fixes[i].slots.s2);
      NormalSlotIsIdempotent(fixes[i].slots.s3);
    }
  }

  lemma NormalScheduleIsIdempotent(games: seq<Game>)
    ensures NormalSchedule(NormalSchedule(games)) == NormalSchedule(games)
  {
    forall i | 0 <= i < |games| ensures NormalGame(NormalGame(games[i])) == NormalGame(games[i]) {
      var g := games[i];
      TrimIsIdempotent(g.teamA.first);
      TrimIsIdempotent(g.teamA.second);
      TrimIsIdempotent(g.teamB.first);
      TrimIsIdempotent(g.teamB.second);
    }
  }

  lemma NormalScheduleKeepsKeys(games: seq<Game>)
    requires NonNegative(games)
    ensures NonNegative(NormalSchedule(games)) && KeySet(NormalSchedule(games)) == KeySet(games)
  {
    var n := NormalSchedule(games);
    forall k | k in KeySet(games) ensures k in KeySet(n) {
      var g :| g in games && KeyOf(g) == k;
      var i :| 0 <= i < |games| && games[i] == g;
      assert n[i] in n;
    }
    forall k | k in KeySet(n) ensures k in KeySet(games) {
      var g :| g in n && KeyOf(g) == k;
      var i :| 0 <= i < |n| && n[i] == g;
      assert games[i] in games;
    }
  }

  /** The normalised list holds the same keys. */
  lemma {:induction false} SameKeysPlayed(games: seq<Game>, played: seq<string>, k: string)
    requires NonNegative(games)
    ensures k in InScheduleOrder(games, played) <==> k in played && k in KeySet(games)
  {
    if |games| > 0 {
      var front, g := games[..|games| - 1], games[|games| - 1];
      SameKeysPlayed(front, played, k);
      assert games == front + [g];
      assert KeySet(games) == KeySet(front) + {KeyOf(g)};
    }
  }

  lemma KeySetSnoc(front: seq<Game>, g: Game)
    requires NonNegative(front) && g.slot >= 0 && g.court >= 0
    ensures NonNegative(front + [g]) && KeySet(front + [g]) == KeySet(front) + {KeyOf(g)}
  {
    var games := front + [g];
    forall i | 0 <= i < |games| ensures games[i].slot >= 0 && games[i].court >= 0 { assert games[i] == if i < |front| then front[i] else g; }
    assert g in games && forall h <- front :: h in games;
  }

  lemma InOrderSnoc(front: seq<Game>, g: Game, played: seq<string>)
    requires NonNegative(front) && NonNegative(front + [g]) && g.slot >= 0 && g.court >= 0
    ensures InScheduleOrder(front + [g], played) == InScheduleOrder(front, played) + if KeyOf(g) in played then [KeyOf(g)] else []
  {
    assert (front + [g])[..|front|] == front;
  }

  lemma NormalScheduleSnoc(front: seq<Game>, g: Game, played: seq<string>)
    requires NonNegative(front) && g.slot >= 0 && g.court >= 0
    ensures NonNegative(NormalSchedule(front)) && NonNegative(NormalSchedule(front + [g]))
    ensures InScheduleOrder(NormalSchedule(front + [g]), played)
         == InScheduleOrder(NormalSchedule(front), played) + if KeyOf(g) in played then [KeyOf(g)] else []
  {
    assert NormalSchedule(front + [g]) == NormalSchedule(front) + [NormalGame(g)];
    InOrderSnoc(NormalSchedule(front), NormalGame(g), played);
  }

  lemma {:induction false} PlayedTwice(games: seq<Game>, played: seq<string>, again: seq<string>)
    requires NonNegative(games) && forall k <- KeySet(games) :: k in again <==> k in played
    ensures NonNegative(NormalSchedule(games))
    ensures InScheduleOrder(NormalSchedule(games), again) == InScheduleOrder(games, played)
  {
    if |games| > 0 {
      var front, g := games[..|games| - 1], games[|games| - 1];
      assert games == front + [g];
      KeySetSnoc(front, g);
      PlayedTwice(front, played, again);
      NormalScheduleSnoc(front, g, again);
      InOrderSnoc(front, g, played);
    }
  }

  /** Normalising again only sets the version and the lock. */
  lemma NormalIsIdempotent(s: Snapshot, locked: bool, version: nat, locked': bool, version': nat)
    requires s.session.slotMinutes >= 0 && s.session.courts >= 0 && NonNegative(s.schedule)
    ensures var n := Normal(s, locked, version);
      n.session.slotMinutes >= 0 && n.session.courts >= 0 && NonNegative(n.schedule)
      && Normal(n, locked', version') == n.(version := Some(version'), session := n.session.(locked := locked'))
  {
    NormalConfigIsIdempotent(s.session, |s.players|, locked, locked');
    NormalPlayersAreIdempotent(s.players);
    NormalFixesAreIdempotent(s.fixMatches);
    NormalScheduleIsIdempotent(s.schedule);
    NormalIdsAreIdempotent(s.absent);
    var again := InScheduleOrder(s.schedule, s.playedGames);
    forall k <- KeySet(s.schedule) ensures k in again <==> k in s.playedGames {
      SameKeysPlayed(s.schedule, s.playedGames, k);
    }
    PlayedTwice(s.schedule, s.playedGames, again);
  }

  // ---------------------------------------------------------------- when a loaded snapshot is valid again

  ghost predicate TrimmedIdsDiffer(players: seq<Player>) {
    forall i, j :: 0 <= i < j < |players| ==> Trim(players[i].id) != Trim(players[j].id)
  }

  /** Courts without a time of their own do not end past midnight. */
  ghost predicate DefaultCourtsAscend(c: Config)
    requires c.slotMinutes >= 0 && c.courts >= 0
  {
    CourtCount(c) > |c.courtTimes| ==> StartOf(c) < DefaultEnd(c)
  }

  lemma ReloadedHeader(s: Snapshot, locked: bool, version: nat)
    requires Valid(s) && NonNegative(s.schedule)
    ensures Holds(Header, Normal(s, locked, version))
  {
  }

  lemma ReloadedPlayers(s: Snapshot, locked: bool, version: nat)
    requires Holds(Players, s) && s.session.slotMinutes >= 0 && s.session.courts >= 0 && NonNegative(s.schedule)
    ensures Holds(Players, Normal(s, locked, version)) <==> TrimmedIdsDiffer(s.players)
  {
    var n := NormalPlayers(s.players);
    forall p | p in n ensures PlayerOk(p) {
      var i :| 0 <= i < |n| && n[i] == p;
      assert s.players[i] in s.players;
      TrimIsIdempotent(s.players[i].id);
    }
    if Holds(Players, Normal(s, locked, version)) {
      forall i, j | 0 <= i < j < |n| ensures Trim(s.players[i].id) != Trim(s.players[j].id) {
        assert n[i].id != n[j].id;
      }
    }
  }

  lemma ReloadedCourts(c: Config, players: nat, locked: bool)
    requires c.slotMinutes >= 0 && c.courts >= 0 && forall t <- c.courtTimes :: Ascending(t)
    ensures (forall t <- NormalConfig(c, players, locked).courtTimes :: Ascending(t)) <==> DefaultCourtsAscend(c)
  {
    var times := NormalConfig(c, players, locked).courtTimes;
    if DefaultCourtsAscend(c) {
      forall i | 0 <= i < |times| ensures Ascending(times[i]) {
        if i < |c.courtTimes| { assert c.courtTimes[i] in c.courtTimes; }
      }
    } else {
      assert times[|c.courtTimes|] in times;
    }
  }

  lemma RefsAreTrimmed(players: seq<Player>)
    ensures Refs(NormalPlayers(players)) == Refs(players)
  {
    var n := NormalPlayers(players);
    forall i | 0 <= i < |players| ensures Trim(n[i].id) == Trim(players[i].id) { TrimIsIdempotent(players[i].id); }
    forall r | r in Refs(players) ensures r in Refs(n) {
      var p :| p in players && Trim(p.id) == r;
      var i :| 0 <= i < |players| && players[i] == p;
      assert n[i] in n;
    }
    forall r | r in Refs(n) ensures r in Refs(players) {
      var p :| p in n && Trim(p.id) == r;
      var i :| 0 <= i < |n| && n[i] == p;
      assert players[i] in players;
    }
  }

  lemma ReloadedRefs(ids: seq<string>, refs: set<string>)
    requires KnownRefs(ids, refs)
    ensures KnownRefs(NormalIds(ids), refs)
  {
    forall i | 0 <= i < |ids| ensures Trim(NormalIds(ids)[i]) == Trim(ids[i]) { TrimIsIdempotent(ids[i]); }
  }

  lemma SameMembers(g: Game)
    ensures MembersOf(NormalGame(g)) == MembersOf(g)
  {
    MembersAreTrimmed(g);
    var m := MembersOf(g);
    assert Trim(m[0]) == m[0] && Trim(m[1]) == m[1] && Trim(m[2]) == m[2] && Trim(m[3]) == m[3];
  }

  lemma ReloadedGames(games: seq<Game>, refs: set<string>)
    requires forall g <- games :: KnownRefs(MembersOf(g), refs)
    ensures forall g <- NormalSchedule(games) :: KnownRefs(MembersOf(g), refs)
  {
    var n := NormalSchedule(games);
    forall i | 0 <= i < |n| ensures KnownRefs(MembersOf(n[i]), refs) {
      assert games[i] in games;
      SameMembers(games[i]);
    }
  }

  lemma ReloadedSlot(slot: Option<string>, refs: set<string>)
    requires SlotOk(slot, refs)
    ensures SlotOk(NormalSlot(slot), refs)
  {
    if slot.Some? { TrimIsIdempotent(slot.value); }
    TrimIsIdempotent("");
  }

  lemma ReloadedFixes(s: Snapshot, locked: bool, version: nat)
    requires Holds(FixMatches, s) && s.session.slotMinutes >= 0 && s.session.courts >= 0 && NonNegative(s.schedule)
    ensures Holds(FixMatches, Normal(s, locked, version))
  {
    var n, refs := NormalFixes(s.fixMatches), Refs(s.players);
    RefsAreTrimmed(s.players);
    forall i | 0 <= i < |n| ensures FixId(n, i) == FixId(s.fixMatches, i) { NormalFixesKeepIds(s.fixMatches, i); }
    forall f | f in n
      ensures SlotOk(f.slots.s0, refs) && SlotOk(f.slots.s1, refs) && SlotOk(f.slots.s2, refs) && SlotOk(f.slots.s3, refs)
    {
      var i :| 0 <= i < |n| && n[i] == f;
      var was := s.fixMatches[i];
      assert was in s.fixMatches;
      ReloadedSlot(was.slots.s0, refs);
      ReloadedSlot(was.slots.s1, refs);
      ReloadedSlot(was.slots.s2, refs);
      ReloadedSlot(was.slots.s3, refs);
    }
  }

  lemma {:induction false} PlayedOnce(games: seq<Game>, played: seq<string>)
    requires KeysDiffer(games)
    ensures Distinct(InScheduleOrder(games, played))
  {
    if |games| > 0 {
      var front, g := games[..|games| - 1], games[|games| - 1];
      PlayedOnce(front, played);
      forall k | k in InScheduleOrder(front, played) ensures k != KeyOf(g) {
        SameKeysPlayed(front, played, k);
        var h :| h in front && KeyOf(h) == k;
        if k == KeyOf(g) { GameKeyIsInjective(h.slot, h.court, g.slot, g.court); }
      }
      var before := InScheduleOrder(front, played);
      assert forall i :: 0 <= i < |before| ==> before[i] in before;
    }
  }

  lemma ReloadedMarks(s: Snapshot, locked: bool, version: nat)
    requires s.session.slotMinutes >= 0 && s.session.courts >= 0 && Holds(Keys, s) && Holds(Played, s) && Holds(Scores, s)
    ensures Holds(Played, Normal(s, locked, version)) && Holds(Scores, Normal(s, locked, version))
  {
    NormalScheduleKeepsKeys(s.schedule);
    PlayedOnce(s.schedule, s.playedGames);
    var again := InScheduleOrder(s.schedule, s.playedGames);
    forall k ensures k in again <==> k in s.playedGames && k in KeySet(s.schedule) {
      SameKeysPlayed(s.schedule, s.playedGames, k);
    }
  }

  lemma ReloadedKeys(s: Snapshot, locked: bool, version: nat)
    requires s.session.slotMinutes >= 0 && s.session.courts >= 0 && Holds(Keys, s)
    ensures Holds(Keys, Normal(s, locked, version))
  {
  }

  lemma ReloadedPlan(s: Snapshot, locked: bool, version: nat)
    requires s.session.slotMinutes >= 0 && NonNegative(s.schedule) && Holds(Courts, s) && Holds(GameRefs, s)
    ensures Holds(Courts, Normal(s, locked, version)) <==> DefaultCourtsAscend(s.session)
    ensures Holds(GameRefs, Normal(s, locked, version))
  {
    ReloadedCourts(s.session, |s.players|, locked);
    RefsAreTrimmed(s.players);
    ReloadedGames(s.schedule, Refs(s.players));
  }

  lemma ReloadedAbsent(s: Snapshot, locked: bool, version: nat)
    requires s.session.slotMinutes >= 0 && s.session.courts >= 0 && NonNegative(s.schedule) && Holds(Absent, s)
    ensures Holds(Absent, Normal(s, locked, version)) && Holds(Skipped, Normal(s, locked, version))
  {
    RefsAreTrimmed(s.players);
    ReloadedRefs(s.absent, Refs(s.players));
    NormalScheduleKeepsKeys(s.schedule);
  }

  /** What Load returns can be published again exactly when trimming makes no two ids equal and
      no court without explicit times runs past midnight. */
  lemma ReloadIsPublishable(s: Snapshot, locked: bool, version: nat)
    requires Valid(s) && NonNegative(s.schedule)
    ensures Valid(Normal(s, locked, version)) <==> TrimmedIdsDiffer(s.players) && DefaultCourtsAscend(s.session)
  {
    ReloadedHeader(s, locked, version);
    ReloadedPlayers(s, locked, version);
    ReloadedPlan(s, locked, version);
    ReloadedKeys(s, locked, version);
    ReloadedFixes(s, locked, version);
    ReloadedAbsent(s, locked, version);
    ReloadedMarks(s, locked, version);
  }

  lemma DistinctIdsAreUnambiguous(s: Snapshot)
    requires TrimmedIdsDiffer(s.players)
    ensures AbsentAreUnambiguous(s)
  {
  }

  lemma NormalIdsDiffer(players: seq<Player>)
    requires TrimmedIdsDiffer(players)
    ensures TrimmedIdsDiffer(NormalPlayers(players))
  {
    forall i | 0 <= i < |players| ensures Trim(NormalPlayers(players)[i].id) == Trim(players[i].id) {
      TrimIsIdempotent(players[i].id);
    }
  }

  lemma LoadedNormalForm(n: Snapshot, status: Status, version: nat)
    requires Valid(n) && NonNegative(n.schedule) && TrimmedIdsDiffer(n.players)
    ensures Loaded(Published(n, status, version)) == Normal(n, status != Draft, version)
  {
    DistinctIdsAreUnambiguous(n);
    LoadAfterSave(n, status, version);
  }

  lemma LatePlayer(id: string) returns (p: Player)
    requires |id| == 1 && !IsSpace(id[0])
    ensures p.id == id && PlayerOk(p) && Trim(p.id) == id
  {
    p := Player(id, id, "M", 1);
  }

  /** A session without games. */
  function Unplayed(c: Config, players: seq<Player>): Snapshot {
    Snapshot(None, c, players, [], [], [], map[], [], map[])
  }

  lemma UnplayedIsValid(c: Config, players: seq<Player>)
    requires Holds(Header, Unplayed(c, players)) && Holds(Players, Unplayed(c, players)) && Holds(Courts, Unplayed(c, players))
    ensures Valid(Unplayed(c, players))
  {
  }

  lemma FourPlayers() returns (players: seq<Player>)
    ensures |players| == 4 && (forall p <- players :: PlayerOk(p)) && TrimmedIdsDiffer(players)
    ensures forall i, j :: 0 <= i < j < 4 ==> players[i].id != players[j].id
  {
    var a := LatePlayer("a");
    var b := LatePlayer("b");
    var c := LatePlayer("c");
    var d := LatePlayer("d");
    players := [a, b, c, d];
  }

  /** One court from 23:30, an hour a slot, no times of the court's own. */
  lemma LateConfig() returns (c: Config)
    ensures c.date.On? && c.start != Bad && c.slotMinutes >= 0 && c.playerCount == 4
    ensures c.courts >= 0 && c.courtTimes == [] && !DefaultCourtsAscend(c)
  {
    c := Config("", On(0), 1, At(1410), 60, [], 4, [], false);
    assert CourtCount(c) == 1 && DefaultEnd(c) == 30;
  }

  lemma LateEvening() returns (s: Snapshot)
    ensures Valid(s) && NonNegative(s.schedule) && TrimmedIdsDiffer(s.players) && !DefaultCourtsAscend(s.session)
  {
    var players := FourPlayers();
    var c := LateConfig();
    UnplayedIsValid(c, players);
    s := Unplayed(c, players);
  }

  /** A session that runs past midnight can be published once: what Load then returns is refused. */
  lemma LateEveningIsPublishableOnce(status: Status, version: nat) returns (s: Snapshot)
    ensures Valid(s) && NonNegative(s.schedule) && !Valid(Loaded(Published(s, status, version)))
  {
    s := LateEvening();
    ReloadIsPublishable(s, status != Draft, version);
    LoadedNormalForm(s, status, version);
  }

  /** Publishing again what came back as l, the valid normal form of s. */
  lemma NormalComesBack(s: Snapshot, l: Snapshot, locked: bool, version: nat, status': Status, version': nat)
    requires s.session.slotMinutes >= 0 && s.session.courts >= 0 && NonNegative(s.schedule) && TrimmedIdsDiffer(s.players)
    requires l == Normal(s, locked, version) && Valid(l) && NonNegative(l.schedule)
    ensures Loaded(Published(l, status', version')) == l.(version := Some(version'), session := l.session.(locked := status' != Draft))
  {
    NormalIdsDiffer(s.players);
    LoadedNormalForm(l, status', version');
    NormalIsIdempotent(s, locked, version, status' != Draft, version');
  }

  lemma SecondLoad(s: Snapshot, l: Snapshot, locked: bool, version: nat, status': Status, version': nat)
    requires Valid(s) && NonNegative(s.schedule) && TrimmedIdsDiffer(s.players) && DefaultCourtsAscend(s.session)
    requires l == Normal(s, locked, version)
    ensures Valid(l) && NonNegative(l.schedule)
    ensures Loaded(Published(l, status', version')) == l.(version := Some(version'), session := l.session.(locked := status' != Draft))
  {
    ReloadIsPublishable(s, locked, version);
    NormalComesBack(s, l, locked, version, status', version');
  }

  /** Publishing what was loaded, and loading it again, is the identity but for version and lock. */
  lemma SecondRoundTripIsIdentity(s: Snapshot, status: Status, version: nat, status': Status, version': nat)
    requires Valid(s) && NonNegative(s.schedule) && TrimmedIdsDiffer(s.players) && DefaultCourtsAscend(s.session)
    ensures var l := Loaded(Published(s, status, version));
      Valid(l) && NonNegative(l.schedule)
      && Loaded(Published(l, status', version')) == l.(version := Some(version'), session := l.session.(locked := status' != Draft))
  {
    LoadedNormalForm(s, status, version);
    SecondLoad(s, Loaded(Published(s, status, version)), status != Draft, version, status', version');
  }
}
