/** Save then Load: what survives, what is put in normal form, and what is lost. */
module SnapshotRoundTrip {
  import opened Options
  import opened GameKeys
  import opened Text
  import opened Sorting
  import opened Snapshots
  import opened SessionTables
  import opened SessionLoad

  /** The rows of a session published from a valid snapshot. */
  function RowOf(s: Snapshot, status: Status, version: nat): SessionRow
    requires s.session.date.On? && s.session.slotMinutes >= 0
  {
    SessionRow(s.session.title, s.session.date.day, StartOf(s.session), SlotLength(s.session), |s.absent| > 0, status, version)
  }

  function Published(s: Snapshot, status: Status, version: nat): Session
    requires s.session.date.On? && s.session.slotMinutes >= 0 && s.session.courts >= 0 && NonNegative(s.schedule)
  {
    Session(RowOf(s, status, version), TablesOf(s))
  }

  // ---------------------------------------------------------------- the normal form, stated on the snapshot alone

  function TimeAt(c: Config, i: nat): CourtTime
    requires c.slotMinutes >= 0
  {
    if i < |c.courtTimes| then c.courtTimes[i] else CourtTime(At(StartOf(c)), At(DefaultEnd(c)))
  }

  function NameAt(c: Config, i: nat): string { if i < |c.courtNames| then c.courtNames[i] else "" }

  /** Names beyond the last court are cut off, missing ones are blank; all blank is none at all. */
  function NormalNames(c: Config): seq<string>
    requires c.courts >= 0
  {
    if exists i :: 0 <= i < CourtCount(c) && NameAt(c, i) != "" then seq(CourtCount(c), i requires 0 <= i => NameAt(c, i)) else []
  }

  function NormalConfig(c: Config, players: nat, locked: bool): Config
    requires c.slotMinutes >= 0 && c.courts >= 0
  {
    Config(c.title, c.date, CourtCount(c), At(StartOf(c)), SlotLength(c),
           seq(CourtCount(c), i requires 0 <= i => TimeAt(c, i)), players, NormalNames(c), locked)
  }

  function NormalSlot(slot: Option<string>): Option<string> { Some(if slot.Some? then Trim(slot.value) else "") }

  function NormalFix(fixes: seq<Fix>, i: nat): Fix
    requires i < |fixes|
  {
    var s := fixes[i].slots;
    Fix(FixId(fixes, i), Slots(NormalSlot(s.s0), NormalSlot(s.s1), NormalSlot(s.s2), NormalSlot(s.s3)))
  }

  function NormalFixes(fixes: seq<Fix>): seq<Fix> {
    seq(|fixes|, i requires 0 <= i < |fixes| => NormalFix(fixes, i))
  }

  function NormalTeam(t: Team): Team { Team(Trim(t.first), Trim(t.second)) }

  function NormalGame(g: Game): Game { Game(g.slot, g.court, NormalTeam(g.teamA), NormalTeam(g.teamB)) }

  function NormalSchedule(games: seq<Game>): seq<Game> {
    seq(|games|, i requires 0 <= i < |games| => NormalGame(games[i]))
  }

  /** The played keys in schedule order. */
  function InScheduleOrder(schedule: seq<Game>, played: seq<string>): seq<string>
    requires NonNegative(schedule)
  {
    if |schedule| == 0 then []
    else
      var (front, g) := (schedule[..|schedule| - 1], schedule[|schedule| - 1]);
      InScheduleOrder(front, played) + if KeyOf(g) in played then [KeyOf(g)] else []
  }

  /** The scores of games whose slot and court the strict parser accepts. */
  function KeptScores(scores: map<string, Score>): map<string, Score> {
    map k | k in scores && Split(k).Some? :: scores[k]
  }

  function NormalIds(ids: seq<string>): seq<string> { seq(|ids|, i requires 0 <= i < |ids| => Trim(ids[i])) }

  function NormalPlayer(p: Player): Player { p.(id := Trim(p.id)) }

  function NormalPlayers(players: seq<Player>): seq<Player> {
    seq(|players|, i requires 0 <= i < |players| => NormalPlayer(players[i]))
  }

  /** References trimmed, defaults made explicit, skips dropped, and scores kept where slot and
      court are at most 2^30. */
  function Normal(s: Snapshot, locked: bool, version: nat): Snapshot
    requires s.session.slotMinutes >= 0 && s.session.courts >= 0 && NonNegative(s.schedule)
  {
    Snapshot(
      Some(version),
      NormalConfig(s.session, |s.players|, locked),
      NormalPlayers(s.players),
      NormalFixes(s.fixMatches),
      NormalSchedule(s.schedule),
      InScheduleOrder(s.schedule, s.playedGames),
      KeptScores(s.gameScores),
      NormalIds(s.absent),
      map[])
  }

  // ---------------------------------------------------------------- Load after Save, part by part

  /** What the round trip needs of a valid snapshot. */
  ghost predicate Storable(s: Snapshot) {
    && s.session.date.On? && s.session.slotMinutes >= 0 && s.session.courts >= 0 && NonNegative(s.schedule)
    && (forall t <- s.session.courtTimes :: Ascending(t)) && KnownRefs(s.absent, Refs(s.players))
    && forall k <- s.gameScores :: k in KeySet(s.schedule)
  }

  ghost predicate SlotsKnown(s: Snapshot) {
    && "" !in Refs(s.players)
    && forall f <- s.fixMatches ::
         && SlotOk(f.slots.s0, Refs(s.players)) && SlotOk(f.slots.s1, Refs(s.players))
         && SlotOk(f.slots.s2, Refs(s.players)) && SlotOk(f.slots.s3, Refs(s.players))
  }

  lemma TimesRoundTrip(c: Config)
    requires c.slotMinutes >= 0 && c.courts >= 0 && forall t <- c.courtTimes :: Ascending(t)
    ensures var rows := CourtRows(c);
      seq(|rows|, i requires 0 <= i < |rows| => CourtTime(At(rows[i].start), At(rows[i].end)))
        == seq(CourtCount(c), i requires 0 <= i => TimeAt(c, i))
  {
    var rows := CourtRows(c);
    forall i | 0 <= i < |rows| ensures CourtTime(At(rows[i].start), At(rows[i].end)) == TimeAt(c, i) {
      if i < |c.courtTimes| { assert c.courtTimes[i] in c.courtTimes; }
    }
  }

  lemma NamesRoundTrip(c: Config)
    requires c.slotMinutes >= 0 && c.courts >= 0
    ensures var rows := CourtRows(c);
      (if exists r <- rows :: r.name != "" then seq(|rows|, i requires 0 <= i < |rows| => rows[i].name) else []) == NormalNames(c)
  {
    var rows := CourtRows(c);
    if r :| r in rows && r.name != "" {
      var i :| 0 <= i < |rows| && rows[i] == r;
      assert NameAt(c, i) != "";
    }
    if i :| 0 <= i < CourtCount(c) && NameAt(c, i) != "" {
      assert rows[i] in rows && rows[i].name != "";
    }
  }

  lemma ConfigRoundTrip(s: Snapshot, status: Status, version: nat)
    requires Storable(s)
    ensures ConfigOf(RowOf(s, status, version), CourtRows(s.session), |s.players|)
         == NormalConfig(s.session, |s.players|, status != Draft)
  {
    TimesRoundTrip(s.session);
    NamesRoundTrip(s.session);
  }

  lemma SlotRoundTrip(slot: Option<string>, refs: set<string>)
    requires SlotOk(slot, refs) && "" !in refs
    ensures Shown(Link(slot, refs)) == NormalSlot(slot)
  {
  }

  lemma RefsAreNotBlank(s: Snapshot)
    requires Valid(s)
    ensures "" !in Refs(s.players)
  {
    forall p | p in s.players ensures Trim(p.id) != "" { assert PlayerOk(p); }
  }

  lemma FixesRoundTrip(s: Snapshot, i: nat)
    requires SlotsKnown(s) && i < |s.fixMatches|
    ensures FixOf(FixRows(s.fixMatches, Refs(s.players))[i]) == NormalFix(s.fixMatches, i)
  {
    var f, refs := s.fixMatches[i], Refs(s.players);
    assert f in s.fixMatches;
    SlotRoundTrip(f.slots.s0, refs);
    SlotRoundTrip(f.slots.s1, refs);
    SlotRoundTrip(f.slots.s2, refs);
    SlotRoundTrip(f.slots.s3, refs);
  }

  lemma GameRoundTrip(g: Game, order: nat, played: seq<string>, scores: map<string, Score>)
    requires g.slot >= 0 && g.court >= 0
    ensures GameOf(GameRowOf(g, order, played, scores)) == NormalGame(g)
  {
    assert SEATS[0] != SEATS[1] && SEATS[2] != SEATS[3];
  }

  /** The rows carry the games' keys, and the marks and scores listed under those keys. */
  ghost predicate Mirror(rows: seq<GameRow>, games: seq<Game>, played: seq<string>, scores: map<string, Score>) {
    && |rows| == |games| && NonNegative(games)
    && forall i :: 0 <= i < |rows| ==>
         && KeyOfRow(rows[i]) == KeyOf(games[i]) && rows[i].skipped == []
         && (rows[i].isPlayed <==> KeyOf(games[i]) in played) && (rows[i].isPlayed ==> rows[i].playedOrder.Some?)
         && rows[i] == WithScore(rows[i].(scoreA := None, scoreB := None), StoredScore(scores, KeyOf(games[i])))
  }

  lemma {:induction false} PlayedRoundTrip(rows: seq<GameRow>, games: seq<Game>, played: seq<string>, scores: map<string, Score>)
    requires Mirror(rows, games, played, scores)
    ensures PlayedKeys(rows) == InScheduleOrder(games, played) && SkippedMap(rows) == map[]
  {
    if |rows| > 0 { PlayedRoundTrip(rows[..|rows| - 1], games[..|games| - 1], played, scores); }
  }

  function StoredScores(scores: map<string, Score>, keys: set<string>): map<string, Score> {
    map k | k in scores && Split(k).Some? && k in keys :: scores[k]
  }

  lemma StoredScoresGrow(scores: map<string, Score>, keys: set<string>, key: string)
    ensures StoredScores(scores, keys + {key})
         == if StoredScore(scores, key).Some? then StoredScores(scores, keys)[key := scores[key]] else StoredScores(scores, keys)
  {
  }

  lemma {:induction false} ScoresRoundTrip(rows: seq<GameRow>, games: seq<Game>, played: seq<string>, scores: map<string, Score>)
    requires Mirror(rows, games, played, scores)
    ensures ScoreMap(rows) == StoredScores(scores, KeySet(games))
  {
    if |rows| > 0 {
      var front, g := games[..|games| - 1], games[|games| - 1];
      ScoresRoundTrip(rows[..|rows| - 1], front, played, scores);
      assert games == front + [g];
      assert KeySet(games) == KeySet(front) + {KeyOf(g)};
      StoredScoresGrow(scores, KeySet(front), KeyOf(g));
      LastScore(rows, StoredScore(scores, KeyOf(g)));
    }
  }

  lemma LastScore(rows: seq<GameRow>, score: Option<Score>)
    requires |rows| > 0
    requires rows[|rows| - 1] == WithScore(rows[|rows| - 1].(scoreA := None, scoreB := None), score)
    ensures ScoreMap(rows) == var front := ScoreMap(rows[..|rows| - 1]);
              if score.Some? then front[KeyOfRow(rows[|rows| - 1]) := score.value] else front
  {
  }

  lemma RowsMirrorTheSchedule(s: Snapshot)
    requires NonNegative(s.schedule)
    ensures Mirror(GameRows(s), s.schedule, s.playedGames, s.gameScores)
  {
  }

  lemma GamesRoundTrip(s: Snapshot)
    requires NonNegative(s.schedule) && forall k <- s.gameScores :: k in KeySet(s.schedule)
    ensures PlayedKeys(GameRows(s)) == InScheduleOrder(s.schedule, s.playedGames) && SkippedMap(GameRows(s)) == map[]
    ensures ScoreMap(GameRows(s)) == KeptScores(s.gameScores)
  {
    RowsMirrorTheSchedule(s);
    PlayedRoundTrip(GameRows(s), s.schedule, s.playedGames, s.gameScores);
    ScoresRoundTrip(GameRows(s), s.schedule, s.playedGames, s.gameScores);
    assert StoredScores(s.gameScores, KeySet(s.schedule)) == KeptScores(s.gameScores);
  }

  // ---------------------------------------------------------------- the absent list

  /** The entry an absent player gives rise to. */
  ghost predicate EntryFor(s: Snapshot, e: AbsentEntry) {
    && e.sortOrder < |s.players| && e.ref == Trim(s.players[e.sortOrder].id)
    && ListedAt(s.absent, e.ref) == Some(e.absentOrder)
  }

  lemma {:induction false} EntriesAreAbsentRows(rows: seq<PlayerRow>)
    ensures forall i :: 0 <= i < |AbsentEntries(rows)| ==>
              var e := AbsentEntries(rows)[i];
              e.sortOrder < |rows| && rows[e.sortOrder].isAbsent && e == EntryOf(rows[e.sortOrder], e.sortOrder)
    ensures forall i, j :: 0 <= i < j < |AbsentEntries(rows)| ==> AbsentEntries(rows)[i].sortOrder < AbsentEntries(rows)[j].sortOrder
  {
    if |rows| > 0 { EntriesAreAbsentRows(rows[..|rows| - 1]); }
  }

  lemma {:induction false} AbsentRowsHaveEntries(rows: seq<PlayerRow>, i: nat)
    requires i < |rows| && rows[i].isAbsent
    ensures EntryOf(rows[i], i) in AbsentEntries(rows)
  {
    if i < |rows| - 1 { AbsentRowsHaveEntries(rows[..|rows| - 1], i); }
  }

  lemma AbsentEntriesOf(s: Snapshot) returns (entries: seq<AbsentEntry>)
    ensures entries == AbsentEntries(PlayerRows(s.players, s.absent))
    ensures forall e <- entries :: EntryFor(s, e)
    ensures forall e: AbsentEntry :: EntryFor(s, e) ==> e in entries
    ensures forall i, j :: 0 <= i < j < |entries| ==> entries[i].sortOrder < entries[j].sortOrder
  {
    var rows := PlayerRows(s.players, s.absent);
    entries := AbsentEntries(rows);
    EntriesAreAbsentRows(rows);
    forall e | EntryFor(s, e) ensures e in entries {
      AbsentRowsHaveEntries(rows, e.sortOrder);
      assert e == EntryOf(rows[e.sortOrder], e.sortOrder);
    }
  }

  lemma BeforeIsStrictWeak()
    ensures StrictWeak(Before)
  {
  }

  lemma DistinctCountsOnce<T>(s: seq<T>, x: T)
    requires Distinct(s)
    ensures multiset(s)[x] == if x in s then 1 else 0
  {
    if |s| > 0 {
      DistinctCountsOnce(s[1..], x);
      assert s == [s[0]] + s[1..];
    }
  }

  lemma SameMembersSameMultiset<T>(a: seq<T>, b: seq<T>)
    requires Distinct(a) && Distinct(b) && forall x :: x in a <==> x in b
    ensures multiset(a) == multiset(b)
  {
    forall x ensures multiset(a)[x] == multiset(b)[x] {
      DistinctCountsOnce(a, x);
      DistinctCountsOnce(b, x);
    }
  }

  /** No absent reference is the trimmed id of two players. */
  ghost predicate AbsentAreUnambiguous(s: Snapshot) {
    forall i, j :: 0 <= i < j < |s.players| && Trim(s.players[i].id) == Trim(s.players[j].id) ==>
      ListedAt(s.absent, Trim(s.players[i].id)).None?
  }

  lemma ListedOnce(ids: seq<string>, i: nat)
    requires i < |ids| && forall k, l :: 0 <= k < l < |ids| ==> Trim(ids[k]) != Trim(ids[l])
    ensures ListedAt(ids, Trim(ids[i])) == Some(i)
  {
    var r := ListedAt(ids, Trim(ids[i]));
  }

  lemma PlayerWithRef(players: seq<Player>, ref: string) returns (k: nat)
    requires ref in Refs(players)
    ensures k < |players| && Trim(players[k].id) == ref
  {
    var p :| p in players && Trim(p.id) == ref;
    k :| 0 <= k < |players| && players[k] == p;
  }

  /** The entries in the order of the absent list. */
  lemma AbsentInOrder(s: Snapshot) returns (target: seq<AbsentEntry>)
    requires KnownRefs(s.absent, Refs(s.players))
    ensures |target| == |s.absent| && forall k :: 0 <= k < |target| ==> EntryFor(s, target[k]) && target[k].absentOrder == k
    ensures RefsOf(target) == NormalIds(s.absent)
  {
    target := [];
    for i := 0 to |s.absent|
      invariant |target| == i && forall k :: 0 <= k < i ==>
          EntryFor(s, target[k]) && target[k].absentOrder == k && target[k].ref == Trim(s.absent[k])
    {
      ListedOnce(s.absent, i);
      var k := PlayerWithRef(s.players, Trim(s.absent[i]));
      target := target + [AbsentEntry(Trim(s.absent[i]), i, k)];
    }
  }

  /** Without ambiguity, one entry for each absent reference is all the entries there are. */
  lemma EntriesAreExactly(s: Snapshot, entries: seq<AbsentEntry>, target: seq<AbsentEntry>)
    requires AbsentAreUnambiguous(s)
    requires forall e <- entries :: EntryFor(s, e)
    requires forall e: AbsentEntry :: EntryFor(s, e) ==> e in entries
    requires forall i, j :: 0 <= i < j < |entries| ==> entries[i].sortOrder < entries[j].sortOrder
    requires |target| == |s.absent| && forall k :: 0 <= k < |target| ==> EntryFor(s, target[k]) && target[k].absentOrder == k
    ensures multiset(entries) == multiset(target)
  {
    forall e | e in entries ensures e in target {
      assert EntryFor(s, e) && EntryFor(s, target[e.absentOrder]);
      var t := target[e.absentOrder];
      assert t.ref == Trim(s.absent[e.absentOrder]) == e.ref;
      assert t.sortOrder == e.sortOrder;
    }
    forall e | e in target ensures e in entries {
      var k :| 0 <= k < |target| && target[k] == e;
      assert EntryFor(s, target[k]);
    }
    SameMembersSameMultiset(entries, target);
  }

  lemma SortedAlready(entries: seq<AbsentEntry>, target: seq<AbsentEntry>)
    requires multiset(entries) == multiset(target)
    requires forall i, j :: 0 <= i < j < |target| ==> target[i].absentOrder < target[j].absentOrder
    ensures Sort(entries, Before) == target
  {
    BeforeIsStrictWeak();
    assert StrictlyInOrder(target, Before);
    SortOfOrdered(target, Before);
    SortForgetsInputOrder(target, entries, Before);
  }

  lemma AbsentRoundTrip(s: Snapshot)
    requires KnownRefs(s.absent, Refs(s.players)) && AbsentAreUnambiguous(s)
    ensures AbsentRefs(PlayerRows(s.players, s.absent)) == NormalIds(s.absent)
  {
    var entries := AbsentEntriesOf(s);
    var target := AbsentInOrder(s);
    EntriesAreExactly(s, entries, target);
    SortedAlready(entries, target);
  }

  lemma TwiceInSorted(entries: seq<AbsentEntry>, x: AbsentEntry, y: AbsentEntry) returns (k: nat, l: nat)
    requires x in entries && y in entries && x != y && x.ref == y.ref
    ensures k < l < |RefsOf(Sort(entries, Before))|
    ensures RefsOf(Sort(entries, Before))[k] == RefsOf(Sort(entries, Before))[l]
  {
    BeforeIsStrictWeak();
    SortSorts(entries, Before);
    var sorted := Sort(entries, Before);
    k := IndexIn(sorted, x);
    l := IndexIn(sorted, y);
    if l < k { k, l := l, k; }
  }

  lemma RepeatedIsNotNormal(ids: seq<string>, refs: set<string>, out: seq<string>, k: nat, l: nat)
    requires KnownRefs(ids, refs) && k < l < |out| && out[k] == out[l]
    ensures out != NormalIds(ids)
  {
    assert Distinct(NormalIds(ids));
  }

  lemma TwoEntries(s: Snapshot) returns (x: AbsentEntry, y: AbsentEntry)
    requires !AbsentAreUnambiguous(s)
    ensures |s.absent| > 0 && EntryFor(s, x) && EntryFor(s, y) && x != y && x.ref == y.ref
  {
    var i, j :| 0 <= i < j < |s.players| && Trim(s.players[i].id) == Trim(s.players[j].id)
                && ListedAt(s.absent, Trim(s.players[i].id)).Some?;
    var ref := Trim(s.players[i].id);
    var at := ListedAt(s.absent, ref).value;
    x, y := AbsentEntry(ref, at, i), AbsentEntry(ref, at, j);
  }

  /** Two players with one trimmed id come back as two absentees. */
  lemma AmbiguousAbsentRepeat(s: Snapshot)
    requires KnownRefs(s.absent, Refs(s.players)) && !AbsentAreUnambiguous(s)
    ensures |s.absent| > 0 && AbsentRefs(PlayerRows(s.players, s.absent)) != NormalIds(s.absent)
  {
    var entries := AbsentEntriesOf(s);
    var x, y := TwoEntries(s);
    var k, l := TwiceInSorted(entries, x, y);
    RepeatedIsNotNormal(s.absent, Refs(s.players), RefsOf(Sort(entries, Before)), k, l);
  }

  // ---------------------------------------------------------------- the main results

  lemma FixListRoundTrip(s: Snapshot)
    requires SlotsKnown(s)
    ensures FixesOf(FixRows(s.fixMatches, Refs(s.players))) == NormalFixes(s.fixMatches)
  {
    forall i | 0 <= i < |s.fixMatches|
      ensures FixOf(FixRows(s.fixMatches, Refs(s.players))[i]) == NormalFix(s.fixMatches, i)
    {
      FixesRoundTrip(s, i);
    }
  }

  lemma ScheduleRoundTrip(s: Snapshot)
    requires NonNegative(s.schedule)
    ensures ScheduleOf(GameRows(s)) == NormalSchedule(s.schedule)
  {
    forall i | 0 <= i < |s.schedule| ensures GameOf(GameRows(s)[i]) == NormalGame(s.schedule[i]) {
      GameRoundTrip(s.schedule[i], i, s.playedGames, s.gameScores);
    }
  }

  lemma AbsentAgreesIff(s: Snapshot)
    requires KnownRefs(s.absent, Refs(s.players))
    ensures AbsentAgain(s) == NormalIds(s.absent) <==> AbsentAreUnambiguous(s)
  {
    if AbsentAreUnambiguous(s) {
      AbsentRoundTrip(s);
    } else {
      AmbiguousAbsentRepeat(s);
    }
  }

  /** The absent as read back, when any were written. */
  function AbsentAgain(s: Snapshot): seq<string> {
    if |s.absent| > 0 then AbsentRefs(PlayerRows(s.players, s.absent)) else []
  }

  lemma OnlyTheAbsent(s: Snapshot, l: Snapshot, n: Snapshot)
    requires KnownRefs(s.absent, Refs(s.players))
    requires l == n.(absent := l.absent) && l.absent == AbsentAgain(s) && n.absent == NormalIds(s.absent)
    ensures l == n <==> AbsentAreUnambiguous(s)
  {
    AbsentAgreesIff(s);
  }

  lemma AllButTheAbsent(s: Snapshot, status: Status, version: nat)
    requires Storable(s) && SlotsKnown(s)
    ensures var l := Loaded(Published(s, status, version)); l == Normal(s, status != Draft, version).(absent := l.absent)
    ensures Loaded(Published(s, status, version)).absent == AbsentAgain(s)
  {
    ConfigRoundTrip(s, status, version);
    assert PlayersOf(PlayerRows(s.players, s.absent)) == NormalPlayers(s.players);
    FixListRoundTrip(s);
    ScheduleRoundTrip(s);
    GamesRoundTrip(s);
  }

  lemma LoadOfStorable(s: Snapshot, status: Status, version: nat)
    requires Storable(s) && SlotsKnown(s)
    ensures Loaded(Published(s, status, version)) == Normal(s, status != Draft, version) <==> AbsentAreUnambiguous(s)
  {
    AllButTheAbsent(s, status, version);
    OnlyTheAbsent(s, Loaded(Published(s, status, version)), Normal(s, status != Draft, version));
  }

  /** Loading what was published gives the normal form, exactly when no absent reference is ambiguous. */
  lemma LoadAfterSave(s: Snapshot, status: Status, version: nat)
    requires Valid(s) && NonNegative(s.schedule)
    ensures Loaded(Published(s, status, version)) == Normal(s, status != Draft, version) <==> AbsentAreUnambiguous(s)
  {
    RefsAreNotBlank(s);
    LoadOfStorable(s, status, version);
  }
}
