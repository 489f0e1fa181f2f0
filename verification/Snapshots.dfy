/** The published snapshot of a session (internal/domain/snapshot.go) and ValidateSnapshot.
    Dates and times of day are taken as parsed. */
module Snapshots {
  import opened Options
  import opened GameKeys
  import opened Sorting
  import opened Text

  type Minute = m: nat | m < 1440

  datatype Clock = Blank | Bad | At(minute: Minute)

  datatype Day = NoDay | BadDay | On(day: int)

  datatype CourtTime = CourtTime(start: Clock, end: Clock)

  datatype Config = Config(
    title: string,
    date: Day,
    courts: int,
    start: Clock,
    slotMinutes: int,
    courtTimes: seq<CourtTime>,
    playerCount: int,
    courtNames: seq<string>,
    locked: bool
  )

  datatype Player = Player(id: string, name: string, gender: string, tier: int)

  datatype Slots = Slots(s0: Option<string>, s1: Option<string>, s2: Option<string>, s3: Option<string>)

  datatype Fix = Fix(id: string, slots: Slots)

  datatype Team = Team(first: string, second: string)

  datatype Game = Game(slot: int, court: int, teamA: Team, teamB: Team)

  datatype Score = Score(a: int, b: int)

  datatype Snapshot = Snapshot(
    version: Option<nat>,
    session: Config,
    players: seq<Player>,
    fixMatches: seq<Fix>,
    schedule: seq<Game>,
    playedGames: seq<string>,
    gameScores: map<string, Score>,
    absent: seq<string>,
    skipped: map<string, seq<string>>
  )

  // ---------------------------------------------------------------- the rules

  /** The sections in the order they are checked. */
  datatype Section = Header | Players | Courts | Keys | GameRefs | FixMatches | Absent | Played | Scores | Skipped

  function Refs(players: seq<Player>): set<string> { set p <- players :: Trim(p.id) }

  function MembersOf(g: Game): seq<string> {
    [Trim(g.teamA.first), Trim(g.teamA.second), Trim(g.teamB.first), Trim(g.teamB.second)]
  }

  function FixId(fixes: seq<Fix>, i: nat): string
    requires i < |fixes|
  {
    if fixes[i].id == "" then "fix-" + Itoa(i) else fixes[i].id
  }

  predicate SlotOk(slot: Option<string>, refs: set<string>) {
    slot.None? || Trim(slot.value) == "" || Trim(slot.value) in refs
  }

  predicate PlayerOk(p: Player) {
    Trim(p.id) != "" && Trim(p.name) != "" && (p.gender == "M" || p.gender == "F") && 1 <= p.tier <= 8
  }

  predicate Ascending(t: CourtTime) { t.start.At? && t.end.At? && t.start.minute < t.end.minute }

  predicate ScoreOk(s: Score) { 0 <= s.a <= 99 && 0 <= s.b <= 99 && s.a != s.b }

  /** Known, non-blank and pairwise different once trimmed. */
  predicate KnownRefs(ids: seq<string>, refs: set<string>) {
    && (forall i :: 0 <= i < |ids| ==> Trim(ids[i]) != "" && Trim(ids[i]) in refs)
    && (forall i, j :: 0 <= i < j < |ids| ==> Trim(ids[i]) != Trim(ids[j]))
  }

  predicate NonNegative(games: seq<Game>) { forall i :: 0 <= i < |games| ==> games[i].slot >= 0 && games[i].court >= 0 }

  function KeyOf(g: Game): string
    requires g.slot >= 0 && g.court >= 0
  {
    GameKey(g.slot, g.court)
  }

  function KeySet(games: seq<Game>): set<string>
    requires NonNegative(games)
  {
    set g <- games :: KeyOf(g)
  }

  /** What each section demands; the later ones are only looked at when the earlier ones hold. */
  ghost predicate Holds(section: Section, s: Snapshot) {
    match section
    case Header => s.session.date.On? && s.session.start != Bad && s.session.slotMinutes >= 0
    case Players =>
      && (forall p <- s.players :: PlayerOk(p))
      && 4 <= |s.players| <= 60 && s.session.playerCount == |s.players|
      && (forall i, j :: 0 <= i < j < |s.players| ==> s.players[i].id != s.players[j].id)
    case Courts => s.session.courts >= 0 && forall t <- s.session.courtTimes :: Ascending(t)
    case Keys =>
      && NonNegative(s.schedule)
      && forall i, j :: 0 <= i < j < |s.schedule| ==>
           s.schedule[i].slot != s.schedule[j].slot || s.schedule[i].court != s.schedule[j].court
    case GameRefs => forall g <- s.schedule :: KnownRefs(MembersOf(g), Refs(s.players))
    case FixMatches =>
      && (forall i, j :: 0 <= i < j < |s.fixMatches| ==> FixId(s.fixMatches, i) != FixId(s.fixMatches, j))
      && forall f <- s.fixMatches ::
           && SlotOk(f.slots.s0, Refs(s.players)) && SlotOk(f.slots.s1, Refs(s.players))
           && SlotOk(f.slots.s2, Refs(s.players)) && SlotOk(f.slots.s3, Refs(s.players))
    case Absent => KnownRefs(s.absent, Refs(s.players))
    case Played =>
      NonNegative(s.schedule) && Distinct(s.playedGames) && forall k <- s.playedGames :: k in KeySet(s.schedule)
    case Scores =>
      && NonNegative(s.schedule)
      && forall k <- s.gameScores :: k in KeySet(s.schedule) && k in s.playedGames && ScoreOk(s.gameScores[k])
    case Skipped =>
      NonNegative(s.schedule)
      && forall k <- s.skipped :: k in KeySet(s.schedule) && KnownRefs(s.skipped[k], Refs(s.players))
  }

  ghost predicate Valid(s: Snapshot) {
    && Holds(Header, s) && Holds(Players, s) && Holds(Courts, s) && Holds(Keys, s) && Holds(GameRefs, s)
    && Holds(FixMatches, s) && Holds(Absent, s) && Holds(Played, s) && Holds(Scores, s) && Holds(Skipped, s)
  }

  ghost function BrokenPlan(s: Snapshot): Option<Section> {
    if !Holds(Header, s) then Some(Header)
    else if !Holds(Players, s) then Some(Players)
    else if !Holds(Courts, s) then Some(Courts)
    else if !Holds(Keys, s) then Some(Keys)
    else if !Holds(GameRefs, s) then Some(GameRefs)
    else None
  }

  ghost function BrokenDetail(s: Snapshot): Option<Section> {
    if !Holds(FixMatches, s) then Some(FixMatches)
    else if !Holds(Absent, s) then Some(Absent)
    else if !Holds(Played, s) then Some(Played)
    else if !Holds(Scores, s) then Some(Scores)
    else if !Holds(Skipped, s) then Some(Skipped)
    else None
  }

  /** The first section that fails, if any. */
  ghost function FirstBroken(s: Snapshot): (r: Option<Section>)
    ensures r.None? <==> Valid(s)
    ensures r.Some? ==> !Holds(r.value, s)
  {
    if BrokenPlan(s).Some? then BrokenPlan(s) else BrokenDetail(s)
  }

  // ---------------------------------------------------------------- the checks, as the program runs them

  method CheckPlayers(s: Snapshot) returns (ok: bool)
    ensures ok <==> Holds(Players, s)
  {
    for i := 0 to |s.players|
      invariant forall p <- s.players[..i] :: PlayerOk(p)
    {
      assert s.players[i] in s.players;
      if !PlayerOk(s.players[i]) { return false; }
    }
    assert s.players[..|s.players|] == s.players;
    if |s.players| < 4 || |s.players| > 60 { return false; }
    var seen: set<string> := {};
    for i := 0 to |s.players|
      invariant seen == set k | 0 <= k < i :: s.players[k].id
      invariant forall k, l :: 0 <= k < l < i ==> s.players[k].id != s.players[l].id
    {
      if s.players[i].id in seen { return false; }
      seen := seen + {s.players[i].id};
    }
    if s.session.playerCount != 0 && s.session.playerCount != |s.players| { return false; }
    if s.session.playerCount < 4 || s.session.playerCount > 60 { return false; }
    return true;
  }

  method CheckCourts(s: Snapshot) returns (ok: bool)
    ensures ok <==> Holds(Courts, s)
  {
    if s.session.courts < 0 { return false; }
    var times := s.session.courtTimes;
    for i := 0 to |times|
      invariant forall t <- times[..i] :: Ascending(t)
    {
      assert times[i] in times;
      var (start, end) := (times[i].start, times[i].end);
      if start == Blank || end == Blank { return false; }
      if start == Bad || end == Bad || end.minute <= start.minute { return false; }
    }
    assert times[..|times|] == times;
    return true;
  }

  method CheckKeys(games: seq<Game>) returns (ok: bool, keys: set<string>)
    ensures ok <==> NonNegative(games) && forall i, j :: 0 <= i < j < |games| ==>
                      games[i].slot != games[j].slot || games[i].court != games[j].court
    ensures ok ==> keys == KeySet(games)
  {
    keys := {};
    for i := 0 to |games|
      invariant NonNegative(games[..i]) && keys == KeySet(games[..i])
      invariant forall k, l :: 0 <= k < l < i ==> games[k].slot != games[l].slot || games[k].court != games[l].court
    {
      var g := games[i];
      assert g in games;
      if g.slot < 0 || g.court < 0 { return false, keys; }
      if KeyOf(g) in keys {
        var h :| h in games[..i] && KeyOf(h) == KeyOf(g);
        GameKeyIsInjective(h.slot, h.court, g.slot, g.court);
        return false, keys;
      }
      forall k | 0 <= k < i ensures games[k].slot != g.slot || games[k].court != g.court {
        assert games[k] in games[..i] && KeyOf(games[k]) in keys;
      }
      assert games[..i + 1] == games[..i] + [g];
      keys := keys + {KeyOf(g)};
    }
    assert games[..|games|] == games;
    ok := true;
  }

  method CheckRefs(ids: seq<string>, refs: set<string>) returns (ok: bool)
    ensures ok <==> KnownRefs(ids, refs)
  {
    var seen: set<string> := {};
    for i := 0 to |ids|
      invariant KnownRefs(ids[..i], refs) && seen == set k | 0 <= k < i :: Trim(ids[k])
    {
      var ref := Trim(ids[i]);
      if ref == "" || ref !in refs || ref in seen { return false; }
      seen := seen + {ref};
    }
    assert ids[..|ids|] == ids;
    return true;
  }

  method CheckMembers(g: Game, refs: set<string>) returns (ok: bool)
    ensures ok <==> KnownRefs(MembersOf(g), refs)
  {
    var members := MembersOf(g);
    MembersAreTrimmed(g);
    var distinct: set<string> := {};
    for k := 0 to 4
      invariant forall l :: 0 <= l < k ==> members[l] != "" && members[l] in refs
      invariant distinct == FirstMembers(members, k)
    {
      if members[k] == "" || members[k] !in refs {
        assert Trim(members[k]) == members[k];
        return false;
      }
      distinct := distinct + {members[k]};
    }
    FourMembers(members, refs);
    return |distinct| == 4;
  }

  function FirstMembers(members: seq<string>, k: nat): set<string>
    requires k <= |members|
  {
    if k == 0 then {} else FirstMembers(members, k - 1) + {members[k - 1]}
  }

  lemma FourMembers(m: seq<string>, refs: set<string>)
    requires |m| == 4 && forall l :: 0 <= l < 4 ==> Trim(m[l]) == m[l] != "" && m[l] in refs
    ensures KnownRefs(m, refs) <==> |FirstMembers(m, 4)| == 4
  {
    AllMembers(m);
    FourDistinct(m[0], m[1], m[2], m[3]);
  }

  lemma AllMembers(m: seq<string>)
    requires |m| == 4
    ensures FirstMembers(m, 4) == {m[0], m[1], m[2], m[3]}
  {
    assert FirstMembers(m, 1) == {m[0]};
    assert FirstMembers(m, 2) == {m[0], m[1]};
    assert FirstMembers(m, 3) == {m[0], m[1], m[2]};
  }

  ghost predicate GamesKnown(games: seq<Game>, refs: set<string>) { forall g <- games :: KnownRefs(MembersOf(g), refs) }

  lemma OneMoreKnown(games: seq<Game>, i: nat, refs: set<string>)
    requires i < |games|
    ensures GamesKnown(games[..i + 1], refs) <==> GamesKnown(games[..i], refs) && KnownRefs(MembersOf(games[i]), refs)
    ensures !GamesKnown(games[..i + 1], refs) ==> !GamesKnown(games, refs)
  {
    assert games[..i + 1] == games[..i] + [games[i]];
    assert forall g <- games[..i + 1] :: g in games;
  }

  method CheckGames(games: seq<Game>, refs: set<string>) returns (ok: bool)
    ensures ok <==> GamesKnown(games, refs)
  {
    for i := 0 to |games|
      invariant GamesKnown(games[..i], refs)
    {
      var known := CheckMembers(games[i], refs);
      OneMoreKnown(games, i, refs);
      if !known { return false; }
    }
    assert games[..|games|] == games;
    return true;
  }

  lemma MembersAreTrimmed(g: Game)
    ensures forall i :: 0 <= i < 4 ==> Trim(MembersOf(g)[i]) == MembersOf(g)[i]
  {
    TrimIsIdempotent(g.teamA.first);
    TrimIsIdempotent(g.teamA.second);
    TrimIsIdempotent(g.teamB.first);
    TrimIsIdempotent(g.teamB.second);
  }

  /** The program counts a set of four references to learn that they differ. */
  lemma FourDistinct(a: string, b: string, c: string, d: string)
    ensures |{a, b, c, d}| == 4 <==> a != b && a != c && a != d && b != c && b != d && c != d
  {
    var all := {a, b, c, d};
    assert all - {a} == {b, c, d} - {a};
    if a == b { assert all == {b, c, d}; }
    if a == c { assert all == {b, c, d}; }
    if a == d { assert all == {b, c, d}; }
    if b == c { assert all == {a, c, d}; }
    if b == d { assert all == {a, c, d}; }
    if c == d { assert all == {a, b, d}; }
    AtMostThree(b, c, d);
    AtMostThree(a, c, d);
    AtMostThree(a, b, d);
  }

  lemma AtMostThree(a: string, b: string, c: string)
    ensures |{a, b, c}| <= 3
  {
    assert {a, b, c} == {a} + {b} + {c};
  }

  method CheckFixes(s: Snapshot, refs: set<string>) returns (ok: bool)
    requires refs == Refs(s.players)
    ensures ok <==> Holds(FixMatches, s)
  {
    var fixes := s.fixMatches;
    var seen: set<string> := {};
    for i := 0 to |fixes|
      invariant FixesSeen(fixes, i, seen)
      invariant forall k :: 0 <= k < i ==> SlotsOk(fixes[k], refs)
    {
      var legacyRef := fixes[i].id;
      if legacyRef == "" { legacyRef := "fix-" + Itoa(i); }
      OneMoreFix(fixes, i, seen);
      if legacyRef in seen { return false; }
      seen := seen + {legacyRef};
      var slots := fixes[i].slots;
      if !SlotOk(slots.s0, refs) || !SlotOk(slots.s1, refs) || !SlotOk(slots.s2, refs) || !SlotOk(slots.s3, refs) {
        assert fixes[i] in fixes;
        return false;
      }
    }
    forall f | f in fixes ensures SlotsOk(f, refs) {
      var k :| 0 <= k < |fixes| && fixes[k] == f;
    }
    return true;
  }

  predicate SlotsOk(f: Fix, refs: set<string>) {
    SlotOk(f.slots.s0, refs) && SlotOk(f.slots.s1, refs) && SlotOk(f.slots.s2, refs) && SlotOk(f.slots.s3, refs)
  }

  /** The ids of the first fixed matches: these, and no two the same. */
  ghost predicate FixesSeen(fixes: seq<Fix>, n: nat, seen: set<string>)
    requires n <= |fixes|
  {
    && (forall k :: 0 <= k < n ==> FixId(fixes, k) in seen)
    && (forall id <- seen :: exists k :: 0 <= k < n && FixId(fixes, k) == id)
    && (forall k, l :: 0 <= k < l < n ==> FixId(fixes, k) != FixId(fixes, l))
  }

  lemma OneMoreFix(fixes: seq<Fix>, i: nat, seen: set<string>)
    requires i < |fixes| && FixesSeen(fixes, i, seen)
    ensures FixId(fixes, i) !in seen ==> FixesSeen(fixes, i + 1, seen + {FixId(fixes, i)})
    ensures FixId(fixes, i) in seen ==> exists k :: 0 <= k < i && FixId(fixes, k) == FixId(fixes, i)
  {
  }

  method CheckPlayed(played: seq<string>, keys: set<string>) returns (ok: bool)
    ensures ok <==> Distinct(played) && forall k <- played :: k in keys
  {
    var seen: set<string> := {};
    for i := 0 to |played|
      invariant seen == set k | 0 <= k < i :: played[k]
      invariant Distinct(played[..i]) && forall k <- played[..i] :: k in keys
    {
      assert played[i] in played;
      if played[i] !in keys || played[i] in seen { return false; }
      seen := seen + {played[i]};
    }
    assert played[..|played|] == played;
    return true;
  }

  method CheckScores(scores: map<string, Score>, keys: set<string>, played: set<string>) returns (ok: bool)
    ensures ok <==> forall k <- scores :: k in keys && k in played && ScoreOk(scores[k])
  {
    var rest := scores.Keys;
    while rest != {}
      invariant rest <= scores.Keys
      invariant forall k <- scores.Keys - rest :: k in keys && k in played && ScoreOk(scores[k])
    {
      var k :| k in rest;
      rest := rest - {k};
      if k !in keys || k !in played || !ScoreOk(scores[k]) { return false; }
    }
    return true;
  }

  method CheckSkipped(skipped: map<string, seq<string>>, keys: set<string>, refs: set<string>) returns (ok: bool)
    ensures ok <==> forall k <- skipped :: k in keys && KnownRefs(skipped[k], refs)
  {
    var rest := skipped.Keys;
    while rest != {}
      invariant rest <= skipped.Keys
      invariant forall k <- skipped.Keys - rest :: k in keys && KnownRefs(skipped[k], refs)
    {
      var k :| k in rest;
      rest := rest - {k};
      if k !in keys { return false; }
      var known := CheckRefs(skipped[k], refs);
      if !known { return false; }
    }
    return true;
  }

  method CheckPlan(s: Snapshot) returns (broken: Option<Section>, keys: set<string>)
    ensures broken == BrokenPlan(s)
    ensures broken.None? ==> NonNegative(s.schedule) && keys == KeySet(s.schedule)
  {
    keys := {};
    if !s.session.date.On? || s.session.start == Bad || s.session.slotMinutes < 0 { return Some(Header), keys; }
    var ok := CheckPlayers(s);
    if !ok { return Some(Players), keys; }
    ok := CheckCourts(s);
    if !ok { return Some(Courts), keys; }
    ok, keys := CheckKeys(s.schedule);
    if !ok { return Some(Keys), keys; }
    ok := CheckGames(s.schedule, Refs(s.players));
    if !ok { return Some(GameRefs), keys; }
    return None, keys;
  }

  method CheckDetail(s: Snapshot, keys: set<string>) returns (broken: Option<Section>)
    requires NonNegative(s.schedule) && keys == KeySet(s.schedule)
    ensures broken == BrokenDetail(s)
  {
    var refs := Refs(s.players);
    var ok := CheckFixes(s, refs);
    if !ok { return Some(FixMatches); }
    ok := CheckRefs(s.absent, refs);
    if !ok { return Some(Absent); }
    ok := CheckPlayed(s.playedGames, keys);
    if !ok { return Some(Played); }
    ok := CheckScores(s.gameScores, keys, set k <- s.playedGames);
    if !ok { return Some(Scores); }
    ok := CheckSkipped(s.skipped, keys, refs);
    return if ok then None else Some(Skipped);
  }

  /** The error names the first section that fails. */
  method ValidateSnapshot(s: Snapshot) returns (broken: Option<Section>)
    ensures broken.None? <==> Valid(s)
    ensures broken == FirstBroken(s)
  {
    var keys;
    broken, keys := CheckPlan(s);
    if broken.None? { broken := CheckDetail(s, keys); }
  }
}
