/** Load: the snapshot rebuilt from the rows. */
module SessionLoad {
  import opened Options
  import opened GameKeys
  import opened Sorting
  import opened Snapshots
  import opened SessionTables

  function SeatRef(seats: map<Seat, string>, k: nat): string
    requires k < 4
  {
    if SEATS[k] in seats then seats[SEATS[k]] else ""
  }

  function GameOf(r: GameRow): Game {
    Game(r.slot, r.court, Team(SeatRef(r.seats, 0), SeatRef(r.seats, 1)), Team(SeatRef(r.seats, 2), SeatRef(r.seats, 3)))
  }

  function PlayedKeys(games: seq<GameRow>): seq<string> {
    if |games| == 0 then []
    else
      var (front, r) := (games[..|games| - 1], games[|games| - 1]);
      PlayedKeys(front) + if r.isPlayed && r.playedOrder.Some? then [KeyOfRow(r)] else []
  }

  function ScoreMap(games: seq<GameRow>): map<string, Score> {
    if |games| == 0 then map[]
    else
      var (front, r) := (games[..|games| - 1], games[|games| - 1]);
      if r.scoreA.Some? && r.scoreB.Some? then ScoreMap(front)[KeyOfRow(r) := Score(r.scoreA.value, r.scoreB.value)]
      else ScoreMap(front)
  }

  function SkippedMap(games: seq<GameRow>): map<string, seq<string>> {
    if |games| == 0 then map[]
    else
      var (front, r) := (games[..|games| - 1], games[|games| - 1]);
      if r.skipped != [] then SkippedMap(front)[KeyOfRow(r) := r.skipped] else SkippedMap(front)
  }

  datatype AbsentEntry = AbsentEntry(ref: string, absentOrder: nat, sortOrder: nat)

  predicate Before(x: AbsentEntry, y: AbsentEntry) {
    if x.absentOrder != y.absentOrder then x.absentOrder < y.absentOrder else x.sortOrder < y.sortOrder
  }

  function EntryOf(p: PlayerRow, i: nat): AbsentEntry {
    AbsentEntry(p.ref, if p.absentOrder.Some? then p.absentOrder.value else 0, i)
  }

  function AbsentEntries(players: seq<PlayerRow>): seq<AbsentEntry> {
    if |players| == 0 then []
    else
      var (front, p) := (players[..|players| - 1], players[|players| - 1]);
      AbsentEntries(front) + if p.isAbsent then [EntryOf(p, |players| - 1)] else []
  }

  function RefsOf(entries: seq<AbsentEntry>): seq<string> {
    seq(|entries|, i requires 0 <= i < |entries| => entries[i].ref)
  }

  /** The absent list: by absent_order, then by sort_order. */
  function AbsentRefs(players: seq<PlayerRow>): seq<string> { RefsOf(Sort(AbsentEntries(players), Before)) }

  function Shown(slot: Option<string>): Option<string> { Some(if slot.Some? then slot.value else "") }

  function FixOf(r: FixRow): Fix {
    Fix(r.legacyRef, Slots(Shown(r.slots.s0), Shown(r.slots.s1), Shown(r.slots.s2), Shown(r.slots.s3)))
  }

  function ConfigOf(row: SessionRow, courts: seq<CourtRow>, playerCount: nat): Config {
    Config(row.title, On(row.day), |courts|, At(row.start), row.slotMinutes,
           seq(|courts|, i requires 0 <= i < |courts| => CourtTime(At(courts[i].start), At(courts[i].end))),
           playerCount,
           if exists c <- courts :: c.name != "" then seq(|courts|, i requires 0 <= i < |courts| => courts[i].name) else [],
           row.status != Draft)
  }

  function PlayersOf(rows: seq<PlayerRow>): seq<Player> {
    seq(|rows|, i requires 0 <= i < |rows| => Player(rows[i].ref, rows[i].name, rows[i].gender, rows[i].tier))
  }

  function FixesOf(rows: seq<FixRow>): seq<Fix> { seq(|rows|, i requires 0 <= i < |rows| => FixOf(rows[i])) }

  function ScheduleOf(rows: seq<GameRow>): seq<Game> { seq(|rows|, i requires 0 <= i < |rows| => GameOf(rows[i])) }

  function Loaded(x: Session): Snapshot {
    var t := x.tables;
    Snapshot(
      Some(x.row.version),
      ConfigOf(x.row, t.courts, |t.players|),
      PlayersOf(t.players),
      FixesOf(t.fixes),
      ScheduleOf(t.games),
      PlayedKeys(t.games),
      ScoreMap(t.games),
      if x.row.includeAbsent then AbsentRefs(t.players) else [],
      SkippedMap(t.games))
  }

  // ---------------------------------------------------------------- Load, as the program runs it

  method LoadConfig(row: SessionRow, courts: seq<CourtRow>, playerCount: nat) returns (c: Config)
    ensures c == ConfigOf(row, courts, playerCount)
  {
    var anyCourtName := false;
    for i := 0 to |courts|
      invariant !anyCourtName && forall c <- courts[..i] :: c.name == ""
    {
      if courts[i].name != "" {
        anyCourtName := true;
        assert courts[i] in courts;
        break;
      }
    }
    assert courts[..|courts|] == courts;
    assert anyCourtName <==> exists c <- courts :: c.name != "";
    var times, names := [], [];
    for i := 0 to |courts|
      invariant |times| == i && forall k :: 0 <= k < i ==> times[k] == CourtTime(At(courts[k].start), At(courts[k].end))
      invariant |names| == if anyCourtName then i else 0
      invariant anyCourtName ==> forall k :: 0 <= k < i ==> names[k] == courts[k].name
    {
      times := times + [CourtTime(At(courts[i].start), At(courts[i].end))];
      if anyCourtName { names := names + [courts[i].name]; }
    }
    c := Config(row.title, On(row.day), |courts|, At(row.start), row.slotMinutes, times, playerCount, names, row.status != Draft);
  }

  method LoadPlayers(rows: seq<PlayerRow>, includeAbsent: bool) returns (players: seq<Player>, absent: seq<string>)
    ensures players == PlayersOf(rows)
    ensures absent == if includeAbsent then AbsentRefs(rows) else []
  {
    players := [];
    var entries := [];
    for i := 0 to |rows|
      invariant players == PlayersOf(rows)[..i]
      invariant entries == if includeAbsent then AbsentEntries(rows[..i]) else []
    {
      assert rows[..i + 1][..i] == rows[..i];
      players := players + [Player(rows[i].ref, rows[i].name, rows[i].gender, rows[i].tier)];
      if includeAbsent && rows[i].isAbsent {
        entries := entries + [AbsentEntry(rows[i].ref, if rows[i].absentOrder.Some? then rows[i].absentOrder.value else 0, i)];
      }
    }
    assert rows[..|rows|] == rows;
    entries := Sort(entries, Before);
    absent := [];
    for i := 0 to |entries|
      invariant absent == RefsOf(entries)[..i]
    {
      absent := absent + [entries[i].ref];
    }
  }

  method LoadFixes(rows: seq<FixRow>) returns (fixes: seq<Fix>)
    ensures fixes == FixesOf(rows)
  {
    fixes := [];
    for i := 0 to |rows|
      invariant |fixes| == i && forall k :: 0 <= k < i ==> fixes[k] == FixOf(rows[k])
    {
      var slots := OPEN;
      for k := 0 to 4
        invariant forall l :: 0 <= l < k ==> SlotAt(slots, l) == Shown(SlotAt(rows[i].slots, l))
      {
        var slot := SlotAt(rows[i].slots, k);
        slots := WithSlot(slots, k, Some(if slot.Some? then slot.value else ""));
      }
      assert SlotAt(slots, 0) == Shown(SlotAt(rows[i].slots, 0));
      assert SlotAt(slots, 1) == Shown(SlotAt(rows[i].slots, 1));
      assert SlotAt(slots, 2) == Shown(SlotAt(rows[i].slots, 2));
      assert SlotAt(slots, 3) == Shown(SlotAt(rows[i].slots, 3));
      fixes := fixes + [Fix(rows[i].legacyRef, slots)];
    }
  }

  method LoadGames(rows: seq<GameRow>)
    returns (schedule: seq<Game>, played: seq<string>, scores: map<string, Score>, skipped: map<string, seq<string>>)
    ensures schedule == ScheduleOf(rows)
    ensures played == PlayedKeys(rows) && scores == ScoreMap(rows) && skipped == SkippedMap(rows)
  {
    schedule, played, scores, skipped := [], [], map[], map[];
    for i := 0 to |rows|
      invariant |schedule| == i && forall k :: 0 <= k < i ==> schedule[k] == GameOf(rows[k])
      invariant played == PlayedKeys(rows[..i]) && scores == ScoreMap(rows[..i]) && skipped == SkippedMap(rows[..i])
    {
      assert rows[..i + 1][..i] == rows[..i];
      var r := rows[i];
      schedule := schedule + [GameOf(r)];
      var key := GameKey(r.slot, r.court);
      if r.isPlayed && r.playedOrder.Some? { played := played + [key]; }
      if r.scoreA.Some? && r.scoreB.Some? { scores := scores[key := Score(r.scoreA.value, r.scoreB.value)]; }
      if |r.skipped| > 0 { skipped := skipped[key := r.skipped]; }
    }
    assert rows[..|rows|] == rows;
  }

  method Load(x: Session) returns (s: Snapshot)
    ensures s == Loaded(x)
  {
    var config := LoadConfig(x.row, x.tables.courts, |x.tables.players|);
    var players, absent := LoadPlayers(x.tables.players, x.row.includeAbsent);
    var fixes := LoadFixes(x.tables.fixes);
    var schedule, played, scores, skipped := LoadGames(x.tables.games);
    s := Snapshot(Some(x.row.version), config, players, fixes, schedule, played, scores, absent, skipped);
  }
}
