/** The relational rows of a session, what syncSessionTables writes into them, and what Load
    reads back. A session player's internal id is represented by its player_ref. */
module SessionTables {
  import opened Options
  import opened GameKeys
  import opened Text
  import opened Snapshots

  datatype Status = Draft | Locked | Completed | Archived

  datatype SessionRow = SessionRow(
    title: string, day: int, start: Minute, slotMinutes: nat, includeAbsent: bool, status: Status, version: nat)

  /** court_index is the position. */
  datatype CourtRow = CourtRow(name: string, start: Minute, end: Minute)

  /** sort_order is the position. */
  datatype PlayerRow = PlayerRow(
    ref: string, name: string, gender: string, tier: int, isAbsent: bool, absentOrder: Option<nat>)

  /** sort_order is the position; a slot holds the player it links to. */
  datatype FixRow = FixRow(legacyRef: string, slots: Slots)

  datatype Side = SideA | SideB

  datatype Seat = Seat(side: Side, position: nat)

  datatype GameStatus = IsScheduled | IsPlayed

  /** legacy_order is the position; seats are the rows of scheduled_game_players. */
  datatype GameRow = GameRow(
    slot: nat, court: nat, status: GameStatus, isPlayed: bool, playedOrder: Option<nat>,
    scoreA: Option<int>, scoreB: Option<int>, version: nat, skipped: seq<string>, seats: map<Seat, string>)

  datatype Tables = Tables(courts: seq<CourtRow>, players: seq<PlayerRow>, fixes: seq<FixRow>, games: seq<GameRow>)

  datatype Session = Session(row: SessionRow, tables: Tables)

  // ---------------------------------------------------------------- session_courts

  function StartOf(c: Config): Minute { if c.start.At? then c.start.minute else 0 }

  function SlotLength(c: Config): nat
    requires c.slotMinutes >= 0
  {
    if c.slotMinutes == 0 then 20 else c.slotMinutes
  }

  function CourtCount(c: Config): nat
    requires c.courts >= 0
  {
    if |c.courtTimes| > c.courts then |c.courtTimes| else c.courts
  }

  function DefaultEnd(c: Config): Minute
    requires c.slotMinutes >= 0
  {
    (StartOf(c) + SlotLength(c)) % 1440
  }

  function CourtRowAt(c: Config, i: nat): CourtRow
    requires c.slotMinutes >= 0
  {
    CourtRow(
      if i < |c.courtNames| then c.courtNames[i] else "",
      if i < |c.courtTimes| && c.courtTimes[i].start.At? then c.courtTimes[i].start.minute else StartOf(c),
      if i < |c.courtTimes| && c.courtTimes[i].end.At? then c.courtTimes[i].end.minute else DefaultEnd(c))
  }

  function CourtRows(c: Config): seq<CourtRow>
    requires c.slotMinutes >= 0 && c.courts >= 0
  {
    seq(CourtCount(c), i requires 0 <= i => CourtRowAt(c, i))
  }

  method SyncCourts(c: Config) returns (rows: seq<CourtRow>)
    requires c.slotMinutes >= 0 && c.courts >= 0
    ensures rows == CourtRows(c)
  {
    var count := c.courts;
    if |c.courtTimes| > count { count := |c.courtTimes|; }
    rows := [];
    for ci := 0 to count
      invariant rows == CourtRows(c)[..ci]
    {
      var name := "";
      if ci < |c.courtNames| { name := c.courtNames[ci]; }
      var start, end, endSet := StartOf(c), StartOf(c), false;
      if ci < |c.courtTimes| {
        if c.courtTimes[ci].start.At? { start := c.courtTimes[ci].start.minute; }
        if c.courtTimes[ci].end.At? { end, endSet := c.courtTimes[ci].end.minute, true; }
      }
      if !endSet { end := (StartOf(c) + SlotLength(c)) % 1440; }
      assert CourtRow(name, start, end) == CourtRowAt(c, ci) == CourtRows(c)[ci];
      rows := rows + [CourtRow(name, start, end)];
    }
  }

  // ---------------------------------------------------------------- session_players

  /** The position at which a reference is listed; the last one if it is listed twice. */
  function ListedAt(ids: seq<string>, ref: string): (r: Option<nat>)
    ensures r.Some? ==> r.value < |ids| && Trim(ids[r.value]) == ref
    ensures r.None? ==> forall i :: 0 <= i < |ids| ==> Trim(ids[i]) != ref
  {
    if |ids| == 0 then None
    else if Trim(ids[|ids| - 1]) == ref then Some(|ids| - 1)
    else ListedAt(ids[..|ids| - 1], ref)
  }

  function PlayerRowOf(p: Player, absent: seq<string>): PlayerRow {
    var order := ListedAt(absent, Trim(p.id));
    PlayerRow(Trim(p.id), p.name, p.gender, p.tier, order.Some?, order)
  }

  function PlayerRows(players: seq<Player>, absent: seq<string>): seq<PlayerRow> {
    seq(|players|, i requires 0 <= i < |players| => PlayerRowOf(players[i], absent))
  }

  method SyncPlayers(players: seq<Player>, absent: seq<string>) returns (rows: seq<PlayerRow>)
    ensures rows == PlayerRows(players, absent)
  {
    var absentOrder: map<string, nat> := map[];
    for i := 0 to |absent|
      invariant Orders(absentOrder, absent[..i])
    {
      OneMoreListed(absentOrder, absent, i);
      absentOrder := absentOrder[Trim(absent[i]) := i];
    }
    assert absent[..|absent|] == absent;
    rows := [];
    for i := 0 to |players|
      invariant rows == PlayerRows(players, absent)[..i]
    {
      var ref := Trim(players[i].id);
      var order := OrderIn(absentOrder, ref);
      assert order == ListedAt(absent, ref);
      rows := rows + [PlayerRow(ref, players[i].name, players[i].gender, players[i].tier, ref in absentOrder, order)];
    }
  }

  function OrderIn(m: map<string, nat>, ref: string): Option<nat> { if ref in m then Some(m[ref]) else None }

  /** The map holds the position each reference is listed at last. */
  ghost predicate Orders(m: map<string, nat>, ids: seq<string>) { forall ref: string :: OrderIn(m, ref) == ListedAt(ids, ref) }

  lemma OneMoreListed(m: map<string, nat>, ids: seq<string>, i: nat)
    requires i < |ids| && Orders(m, ids[..i])
    ensures Orders(m[Trim(ids[i]) := i], ids[..i + 1])
  {
    var more := ids[..i + 1];
    assert more[..|more| - 1] == ids[..i];
    forall ref: string ensures OrderIn(m[Trim(ids[i]) := i], ref) == ListedAt(more, ref) {
      assert OrderIn(m, ref) == ListedAt(ids[..i], ref);
    }
  }

  // ---------------------------------------------------------------- fix_matches

  function Link(slot: Option<string>, refs: set<string>): Option<string> {
    if slot.Some? && Trim(slot.value) in refs then Some(Trim(slot.value)) else None
  }

  function Linked(s: Slots, refs: set<string>): Slots {
    Slots(Link(s.s0, refs), Link(s.s1, refs), Link(s.s2, refs), Link(s.s3, refs))
  }

  function FixRows(fixes: seq<Fix>, refs: set<string>): seq<FixRow> {
    seq(|fixes|, i requires 0 <= i < |fixes| => FixRow(FixId(fixes, i), Linked(fixes[i].slots, refs)))
  }

  function SlotAt(s: Slots, k: nat): Option<string> {
    if k == 0 then s.s0 else if k == 1 then s.s1 else if k == 2 then s.s2 else s.s3
  }

  function WithSlot(s: Slots, k: nat, v: Option<string>): Slots {
    if k == 0 then s.(s0 := v) else if k == 1 then s.(s1 := v) else if k == 2 then s.(s2 := v) else s.(s3 := v)
  }

  const OPEN := Slots(None, None, None, None)

  /** Inserts the fixed matches, then links their slots through the id of the inserted row. */
  method SyncFixes(fixes: seq<Fix>, refs: set<string>) returns (rows: seq<FixRow>)
    requires forall i, j :: 0 <= i < j < |fixes| ==> FixId(fixes, i) != FixId(fixes, j)
    ensures rows == FixRows(fixes, refs)
  {
    rows := [];
    var fixIds: map<string, nat> := map[];
    for i := 0 to |fixes|
      invariant rows == seq(i, k requires 0 <= k < i => FixRow(FixId(fixes, k), OPEN))
      invariant forall k :: 0 <= k < i ==> FixId(fixes, k) in fixIds && fixIds[FixId(fixes, k)] == k
    {
      rows := rows + [FixRow(FixId(fixes, i), OPEN)];
      fixIds := fixIds[FixId(fixes, i) := i];
    }
    for i := 0 to |fixes|
      invariant |rows| == |fixes|
      invariant forall k :: 0 <= k < |fixes| ==> rows[k].legacyRef == FixId(fixes, k)
      invariant forall k :: 0 <= k < |fixes| ==> rows[k].slots == if k < i then Linked(fixes[k].slots, refs) else OPEN
    {
      var row := fixIds[FixId(fixes, i)];
      for k := 0 to 4
        invariant |rows| == |fixes|
        invariant forall l :: 0 <= l < |fixes| ==> rows[l].legacyRef == FixId(fixes, l)
        invariant forall l :: 0 <= l < |fixes| && l != i ==>
            rows[l].slots == if l < i then Linked(fixes[l].slots, refs) else OPEN
        invariant forall l :: 0 <= l < 4 ==>
            SlotAt(rows[i].slots, l) == if l < k then Link(SlotAt(fixes[i].slots, l), refs) else None
      {
        var slot := SlotAt(fixes[i].slots, k);
        if slot.Some? && Trim(slot.value) in refs {
          rows := rows[row := rows[row].(slots := WithSlot(rows[row].slots, k, Some(Trim(slot.value))))];
        }
      }
      assert SlotAt(rows[i].slots, 0) == Link(SlotAt(fixes[i].slots, 0), refs);
      assert SlotAt(rows[i].slots, 1) == Link(SlotAt(fixes[i].slots, 1), refs);
      assert SlotAt(rows[i].slots, 2) == Link(SlotAt(fixes[i].slots, 2), refs);
      assert SlotAt(rows[i].slots, 3) == Link(SlotAt(fixes[i].slots, 3), refs);
    }
  }

  // ---------------------------------------------------------------- scheduled_games and their players

  const SEATS := [Seat(SideA, 0), Seat(SideA, 1), Seat(SideB, 0), Seat(SideB, 1)]

  function SeatsOf(g: Game): map<Seat, string> {
    map[SEATS[0] := MembersOf(g)[0], SEATS[1] := MembersOf(g)[1], SEATS[2] := MembersOf(g)[2], SEATS[3] := MembersOf(g)[3]]
  }

  /** The score a game's row ends up with: keys the strict parser refuses are skipped. */
  function StoredScore(scores: map<string, Score>, key: string): Option<Score> {
    if key in scores && Split(key).Some? then Some(scores[key]) else None
  }

  /** A row as first inserted: without players and without a score. */
  function BareRow(g: Game, order: nat, played: bool): GameRow
    requires g.slot >= 0 && g.court >= 0
  {
    GameRow(g.slot, g.court, if played then IsPlayed else IsScheduled, played, if played then Some(order + 1) else None,
            None, None, 1, [], map[])
  }

  function WithScore(row: GameRow, score: Option<Score>): GameRow {
    if score.None? then row else row.(scoreA := Some(score.value.a), scoreB := Some(score.value.b))
  }

  function GameRowOf(g: Game, order: nat, playedGames: seq<string>, scores: map<string, Score>): GameRow
    requires g.slot >= 0 && g.court >= 0
  {
    WithScore(BareRow(g, order, KeyOf(g) in playedGames).(seats := SeatsOf(g)), StoredScore(scores, KeyOf(g)))
  }

  function GameRows(s: Snapshot): seq<GameRow>
    requires NonNegative(s.schedule)
  {
    seq(|s.schedule|, i requires 0 <= i < |s.schedule| => GameRowOf(s.schedule[i], i, s.playedGames, s.gameScores))
  }

  ghost predicate KeysDiffer(games: seq<Game>) {
    && NonNegative(games)
    && forall i, j :: 0 <= i < j < |games| ==> games[i].slot != games[j].slot || games[i].court != games[j].court
  }

  method InsertGames(games: seq<Game>, played: seq<string>) returns (rows: seq<GameRow>, ids: map<string, nat>)
    requires KeysDiffer(games)
    ensures |rows| == |games|
    ensures forall i :: 0 <= i < |rows| ==> rows[i] == BareRow(games[i], i, KeyOf(games[i]) in played)
    ensures forall i :: 0 <= i < |rows| ==> KeyOf(games[i]) in ids && ids[KeyOf(games[i])] == i
  {
    rows, ids := [], map[];
    var playedSet := set k <- played;
    for i := 0 to |games|
      invariant |rows| == i && forall k :: 0 <= k < i ==> rows[k] == BareRow(games[k], k, KeyOf(games[k]) in played)
      invariant forall k :: 0 <= k < i ==> KeyOf(games[k]) in ids && ids[KeyOf(games[k])] == k
    {
      var g := games[i];
      var key := KeyOf(g);
      var isPlayed := key in playedSet;
      forall k | 0 <= k < i ensures KeyOf(games[k]) != key {
        if KeyOf(games[k]) == key { GameKeyIsInjective(games[k].slot, games[k].court, g.slot, g.court); }
      }
      rows := rows + [GameRow(g.slot, g.court, if isPlayed then IsPlayed else IsScheduled, isPlayed,
                              if isPlayed then Some(i + 1) else None, None, None, 1, [], map[])];
      ids := ids[key := i];
    }
  }

  method SeatMembers(g: Game, refs: set<string>) returns (seats: map<Seat, string>)
    requires KnownRefs(MembersOf(g), refs)
    ensures seats == SeatsOf(g)
  {
    var members := MembersOf(g);
    MembersAreTrimmed(g);
    seats := map[];
    for k := 0 to 4
      invariant seats == FirstSeats(members, k)
    {
      assert Trim(members[k]) == members[k];
      if members[k] in refs { seats := seats[SEATS[k] := members[k]]; }
    }
    AllSeats(g);
  }

  lemma AllSeats(g: Game)
    ensures FirstSeats(MembersOf(g), 4) == SeatsOf(g)
  {
    var m := MembersOf(g);
    assert FirstSeats(m, 1) == map[SEATS[0] := m[0]];
    assert FirstSeats(m, 2) == map[SEATS[0] := m[0], SEATS[1] := m[1]];
    assert FirstSeats(m, 3) == map[SEATS[0] := m[0], SEATS[1] := m[1], SEATS[2] := m[2]];
  }

  /** The first k members on their seats. */
  function FirstSeats(members: seq<string>, k: nat): map<Seat, string>
    requires k <= |members| == 4
  {
    if k == 0 then map[] else FirstSeats(members, k - 1)[SEATS[k - 1] := members[k - 1]]
  }

  method InsertMembers(games: seq<Game>, bare: seq<GameRow>, ids: map<string, nat>, refs: set<string>)
    returns (rows: seq<GameRow>)
    requires |bare| == |games| && NonNegative(games)
    requires forall i :: 0 <= i < |bare| ==> KeyOf(games[i]) in ids && ids[KeyOf(games[i])] == i
    requires forall g <- games :: KnownRefs(MembersOf(g), refs)
    ensures |rows| == |bare| && forall i :: 0 <= i < |rows| ==> rows[i] == bare[i].(seats := SeatsOf(games[i]))
  {
    rows := bare;
    for i := 0 to |games|
      invariant |rows| == |bare|
      invariant forall k :: 0 <= k < i ==> rows[k] == bare[k].(seats := SeatsOf(games[k]))
      invariant forall k :: i <= k < |rows| ==> rows[k] == bare[k]
    {
      assert games[i] in games;
      var seats := SeatMembers(games[i], refs);
      var game := ids[KeyOf(games[i])];
      rows := rows[game := rows[game].(seats := seats)];
    }
  }

  /** UPDATE scheduled_games SET score_a, score_b WHERE slot_index, court_index. */
  function UpdateScore(rows: seq<GameRow>, slot: nat, court: nat, score: Score): seq<GameRow> {
    seq(|rows|, i requires 0 <= i < |rows| =>
      if rows[i].slot == slot && rows[i].court == court then WithScore(rows[i], Some(score)) else rows[i])
  }

  predicate Canonical(key: string) { Split(key).Some? ==> key == GameKey(Split(key).value.0, Split(key).value.1) }

  function KeyOfRow(r: GameRow): string { GameKey(r.slot, r.court) }

  /** A scheduled game's key is canonical, and the strict parser takes it back to its game. */
  lemma KeyMatches(key: string, slot: nat, court: nat)
    requires Canonical(key)
    ensures Split(key) == Some((slot, court)) <==> key == GameKey(slot, court) && Split(key).Some?
  {
    SplitInvertsGameKey(slot, court);
  }

  method UpdateScores(bare: seq<GameRow>, scores: map<string, Score>) returns (rows: seq<GameRow>)
    requires forall k <- scores :: Canonical(k)
    requires forall r <- bare :: r.scoreA == r.scoreB == None
    ensures |rows| == |bare|
    ensures forall i :: 0 <= i < |rows| ==> rows[i] == WithScore(bare[i], StoredScore(scores, KeyOfRow(bare[i])))
  {
    rows := bare;
    var rest := scores.Keys;
    var done: map<string, Score> := map[];
    while rest != {}
      invariant rest <= scores.Keys && |rows| == |bare|
      invariant done == map k | k in scores && k !in rest :: scores[k]
      invariant forall i :: 0 <= i < |rows| ==> rows[i] == WithScore(bare[i], StoredScore(done, KeyOfRow(bare[i])))
    {
      var key :| key in rest;
      rest := rest - {key};
      var at := Split(key);
      forall i | 0 <= i < |rows|
        ensures at == Some((bare[i].slot, bare[i].court)) <==> key == KeyOfRow(bare[i]) && at.Some?
      {
        KeyMatches(key, bare[i].slot, bare[i].court);
      }
      if at.Some? {
        rows := UpdateScore(rows, at.value.0, at.value.1, scores[key]);
      }
      done := done[key := scores[key]];
    }
    assert done == scores;
  }

  lemma ScheduledKeysAreCanonical(g: Game)
    requires g.slot >= 0 && g.court >= 0
    ensures Canonical(KeyOf(g))
  {
    SplitInvertsGameKey(g.slot, g.court);
  }

  // ---------------------------------------------------------------- syncSessionTables

  function TablesOf(s: Snapshot): Tables
    requires s.session.slotMinutes >= 0 && s.session.courts >= 0 && NonNegative(s.schedule)
  {
    Tables(CourtRows(s.session), PlayerRows(s.players, s.absent), FixRows(s.fixMatches, Refs(s.players)), GameRows(s))
  }

  lemma ValidIsWritable(s: Snapshot)
    requires Valid(s)
    ensures s.session.slotMinutes >= 0 && s.session.courts >= 0 && KeysDiffer(s.schedule)
    ensures forall k <- s.gameScores :: Canonical(k)
  {
    forall k <- s.gameScores ensures Canonical(k) {
      var g :| g in s.schedule && KeyOf(g) == k;
      ScheduledKeysAreCanonical(g);
    }
  }

  method SyncSessionTables(s: Snapshot) returns (t: Tables)
    requires Valid(s)
    ensures s.session.slotMinutes >= 0 && s.session.courts >= 0 && KeysDiffer(s.schedule)
    ensures t == TablesOf(s)
  {
    ValidIsWritable(s);
    var courts := SyncCourts(s.session);
    var players := SyncPlayers(s.players, s.absent);
    var fixes := SyncFixes(s.fixMatches, Refs(s.players));
    var bare, ids := InsertGames(s.schedule, s.playedGames);
    var seated := InsertMembers(s.schedule, bare, ids, Refs(s.players));
    var games := UpdateScores(seated, s.gameScores);
    assert games == GameRows(s);
    t := Tables(courts, players, fixes, games);
  }
}
