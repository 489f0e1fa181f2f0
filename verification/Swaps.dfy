/** SwapMembers: the statements each kind of swap runs on the rows of one session, with the
    UNIQUE constraints of the tables as aborts, and exactly when a swap goes through. */
module Swaps {
  import opened Options
  import opened SessionTables

  datatype Kind = PlayerSwap | TeamSwap | SlotSwap

  datatype Target = Target(slot: nat, court: nat, side: Side, position: nat)

  const TEMP_SLOT: nat := 0x10_0000  // 1 << 20

  function SeatOf(t: Target): Seat { Seat(t.side, t.position) }

  function GameIndex(games: seq<GameRow>, slot: nat, court: nat): (r: Option<nat>)
    ensures r.Some? ==> r.value < |games| && games[r.value].slot == slot && games[r.value].court == court
    ensures r.None? ==> forall i :: 0 <= i < |games| ==> games[i].slot != slot || games[i].court != court
  {
    if |games| == 0 then None
    else if games[|games| - 1].slot == slot && games[|games| - 1].court == court then Some(|games| - 1)
    else GameIndex(games[..|games| - 1], slot, court)
  }

  // ---------------------------------------------------------------- the constraints

  /** UNIQUE(scheduled_game, session_player). */
  ghost predicate NobodyTwice(seats: map<Seat, string>) {
    forall s <- seats, t <- seats :: s != t ==> seats[s] != seats[t]
  }

  /** UNIQUE(session, slot_index, court_index). */
  ghost predicate PlacesDiffer(games: seq<GameRow>) {
    forall i, j :: 0 <= i < j < |games| ==> games[i].slot != games[j].slot || games[i].court != games[j].court
  }

  ghost predicate Legal(games: seq<GameRow>) {
    PlacesDiffer(games) && forall i :: 0 <= i < |games| ==> NobodyTwice(games[i].seats)
  }

  ghost predicate Full(games: seq<GameRow>) {
    forall i :: 0 <= i < |games| ==> games[i].seats.Keys == {SEATS[0], SEATS[1], SEATS[2], SEATS[3]}
  }

  /** Nobody but the holder of `seat` is p. */
  ghost predicate FreeFor(seats: map<Seat, string>, seat: Seat, p: string) {
    forall s <- seats :: s != seat ==> seats[s] != p
  }

  ghost predicate PlaceFree(games: seq<GameRow>, i: nat, slot: nat, court: nat) {
    forall k :: 0 <= k < |games| && k != i ==> games[k].slot != slot || games[k].court != court
  }

  // ---------------------------------------------------------------- one statement at a time

  /** The rows as the running transaction sees them; a failed transaction is dropped whole. */
  class Board {
    var games: seq<GameRow>

    constructor (rows: seq<GameRow>)
      ensures games == rows
    {
      games := rows;
    }

    /** UPDATE scheduled_game_players SET session_player_internal_id. */
    method Sit(i: nat, seat: Seat, p: string) returns (ok: bool)
      requires i < |games| && seat in games[i].seats
      modifies this
      ensures ok <==> FreeFor(old(games)[i].seats, seat, p)
      ensures games == if ok then old(games)[i := old(games)[i].(seats := old(games)[i].seats[seat := p])] else old(games)
      ensures old(Legal(games)) ==> Legal(games)
    {
      var seats := games[i].seats;
      ok := forall s <- seats :: s != seat ==> seats[s] != p;
      if ok { games := games[i := games[i].(seats := seats[seat := p])]; }
    }

    /** UPDATE scheduled_games SET slot_index, court_index, version = version + 1. */
    method Move(i: nat, slot: nat, court: nat) returns (ok: bool)
      requires i < |games|
      modifies this
      ensures ok <==> PlaceFree(old(games), i, slot, court)
      ensures games == if ok then old(games)[i := old(games)[i].(slot := slot, court := court, version := old(games)[i].version + 1)]
                       else old(games)
      ensures old(Legal(games)) ==> Legal(games)
    {
      ok := forall k :: 0 <= k < |games| && k != i ==> games[k].slot != slot || games[k].court != court;
      if ok { games := games[i := games[i].(slot := slot, court := court, version := games[i].version + 1)]; }
    }

    /** DELETE FROM scheduled_game_players. */
    method Vacate(i: nat, seats: set<Seat>)
      requires i < |games|
      modifies this
      ensures games == old(games)[i := old(games)[i].(seats := old(games)[i].seats - seats)]
      ensures old(Legal(games)) ==> Legal(games)
    {
      games := games[i := games[i].(seats := games[i].seats - seats)];
    }

    /** INSERT INTO scheduled_game_players, several rows at once. */
    method Enter(i: nat, rows: map<Seat, string>) returns (ok: bool)
      requires i < |games|
      modifies this
      ensures ok <==> rows.Keys !! old(games)[i].seats.Keys && NobodyTwice(old(games)[i].seats + rows)
      ensures games == if ok then old(games)[i := old(games)[i].(seats := old(games)[i].seats + rows)] else old(games)
      ensures old(Legal(games)) ==> Legal(games)
    {
      var seats := games[i].seats + rows;
      ok := rows.Keys !! games[i].seats.Keys && forall s <- seats, t <- seats :: s != t ==> seats[s] != seats[t];
      if ok { games := games[i := games[i].(seats := seats)]; }
    }

    /** UPDATE scheduled_games SET version = version + 1. */
    method Bump(i: nat)
      requires i < |games|
      modifies this
      ensures games == old(games)[i := old(games)[i].(version := old(games)[i].version + 1)]
      ensures old(Legal(games)) ==> Legal(games)
    {
      games := games[i := games[i].(version := games[i].version + 1)];
    }

    // -------------------------------------------------------------- the swaps

    method SwapSlots(a: Target, b: Target) returns (ok: bool)
      requires Legal(games) && (a.slot != b.slot || a.court != b.court)
      modifies this
      ensures ok <==> SlotSwapGoesThrough(old(games), a, b)
      ensures ok ==> games == SlotsSwapped(old(games), a, b)
      ensures Legal(games)
    {
      var i, j := GameIndex(games, a.slot, a.court), GameIndex(games, b.slot, b.court);
      if i.None? || j.None? { return false; }
      ok := Move(i.value, TEMP_SLOT, 0);
      if !ok { return; }
      ok := Move(j.value, a.slot, a.court);
      if !ok { return; }
      ok := Move(i.value, b.slot, b.court);
    }

    method SwapPlayer(a: Target, b: Target) returns (ok: bool)
      requires Legal(games) && (a.slot != b.slot || a.court != b.court)
      modifies this
      ensures ok <==> PlayerSwapGoesThrough(old(games), a, b)
      ensures ok ==> games == PlayersSwapped(old(games), a, b)
      ensures Legal(games)
    {
      var i, j := GameIndex(games, a.slot, a.court), GameIndex(games, b.slot, b.court);
      if i.None? || j.None? { return false; }
      if SeatOf(a) !in games[i.value].seats || SeatOf(b) !in games[j.value].seats { return false; }
      var playerA, playerB := games[i.value].seats[SeatOf(a)], games[j.value].seats[SeatOf(b)];
      ok := Sit(j.value, SeatOf(b), playerA);
      if !ok { return; }
      ok := Sit(i.value, SeatOf(a), playerB);
      if !ok { return; }
      Bump(i.value);
      Bump(j.value);
    }

    /** One position of a team swap. */
    method SwapPosition(i: nat, j: nat, seat: Seat) returns (ok: bool)
      requires i < |games| && j < |games| && i != j
      modifies this
      ensures ok <==>
        var x, y := old(games)[i].seats, old(games)[j].seats;
        seat in x && seat in y && FreeFor(y, seat, x[seat]) && FreeFor(x, seat, y[seat])
      ensures ok ==>
        games == old(games)[i := old(games)[i].(seats := old(games)[i].seats[seat := old(games)[j].seats[seat]])]
                           [j := old(games)[j].(seats := old(games)[j].seats[seat := old(games)[i].seats[seat]])]
      ensures old(Legal(games)) ==> Legal(games)
    {
      if seat !in games[i].seats || seat !in games[j].seats { return false; }
      var playerA, playerB := games[i].seats[seat], games[j].seats[seat];
      ok := Sit(j, seat, playerA);
      if !ok { return; }
      ok := Sit(i, seat, playerB);
    }

    /** Both positions, the first before the second. */
    method SwapPositions(i: nat, j: nat, side: Side) returns (ok: bool)
      requires i < |games| && j < |games| && i != j && Legal(games)
      modifies this
      ensures ok <==> TeamsCanSwap(old(games)[i].seats, old(games)[j].seats, side)
      ensures ok ==> var x, y := old(games)[i].seats, old(games)[j].seats;
        games == old(games)[i := old(games)[i].(seats := WithTeam(x, side, y))][j := old(games)[j].(seats := WithTeam(y, side, x))]
      ensures Legal(games)
    {
      TeamSwapByPosition(games[i].seats, games[j].seats, side);
      ok := SwapPosition(i, j, Seat(side, 0));
      if !ok { return; }
      ok := SwapPosition(i, j, Seat(side, 1));
    }

    method SwapTeam(a: Target, b: Target) returns (ok: bool)
      requires Legal(games) && (a.slot != b.slot || a.court != b.court)
      modifies this
      ensures ok <==> TeamSwapGoesThrough(old(games), a, b)
      ensures ok ==> games == TeamsSwapped(old(games), a, b)
      ensures Legal(games)
    {
      if a.side != b.side { return false; }
      var i, j := GameIndex(games, a.slot, a.court), GameIndex(games, b.slot, b.court);
      if i.None? || j.None? { return false; }
      ok := SwapPositions(i.value, j.value, a.side);
      if !ok { return; }
      Bump(i.value);
      Bump(j.value);
    }

    /** Seats deleted and inserted again, then the version. */
    method Reseat(i: nat, gone: set<Seat>, rows: map<Seat, string>) returns (ok: bool)
      requires i < |games|
      modifies this
      ensures ok <==> rows.Keys !! (old(games)[i].seats - gone).Keys && NobodyTwice(old(games)[i].seats - gone + rows)
      ensures ok ==>
        var g := old(games)[i]; games == old(games)[i := g.(seats := g.seats - gone + rows, version := g.version + 1)]
      ensures old(Legal(games)) ==> Legal(games)
    {
      Vacate(i, gone);
      ok := Enter(i, rows);
      if !ok { return; }
      Bump(i);
    }

    method SwapPlayerSameGame(a: Target, b: Target) returns (ok: bool)
      requires Legal(games) && SeatOf(a) != SeatOf(b)
      modifies this
      ensures ok <==> SameGamePlayersGoThrough(old(games), a, b)
      ensures ok ==> games == SameGamePlayersSwapped(old(games), a, b)
      ensures Legal(games)
    {
      var i := GameIndex(games, a.slot, a.court);
      if i.None? { return false; }
      var seats := games[i.value].seats;
      if SeatOf(a) !in games[i.value].seats || SeatOf(b) !in games[i.value].seats { return false; }
      var playerA, playerB := games[i.value].seats[SeatOf(a)], games[i.value].seats[SeatOf(b)];
      if playerA == playerB { return false; }
      PairReseated(seats, SeatOf(a), SeatOf(b));
      ok := Reseat(i.value, {SeatOf(a), SeatOf(b)}, map[SeatOf(a) := playerB, SeatOf(b) := playerA]);
    }

    method SwapTeamSameGame(a: Target, b: Target) returns (ok: bool)
      requires Legal(games)
      modifies this
      ensures ok <==> SameGameTeamsGoThrough(old(games), a, b)
      ensures ok ==> games == SameGameTeamsSwapped(old(games), a, b)
      ensures Legal(games)
    {
      if a.side == b.side { return false; }
      var i := GameIndex(games, a.slot, a.court);
      if i.None? { return false; }
      var seats := games[i.value].seats;
      if exists k :: 0 <= k < 4 && SEATS[k] !in seats { return false; }
      SidesReseated(seats);
      ok := Reseat(i.value, seats.Keys, SidesSwapped(seats));
    }

    /** The whole operation, after the session has been locked and its version compared. */
    method SwapMembers(kind: Kind, a: Target, b: Target) returns (ok: bool)
      requires Legal(games)
      modifies this
      ensures ok <==> GoesThrough(kind, old(games), a, b)
      ensures ok ==> games == Swapped(kind, old(games), a, b)
      ensures Legal(games)
    {
      if !WellAimed(kind, a, b) { return false; }
      if a.slot == b.slot && a.court == b.court {
        if kind == PlayerSwap { ok := SwapPlayerSameGame(a, b); } else { ok := SwapTeamSameGame(a, b); }
      } else if kind == SlotSwap {
        ok := SwapSlots(a, b);
      } else if kind == PlayerSwap {
        ok := SwapPlayer(a, b);
      } else {
        ok := SwapTeam(a, b);
      }
    }
  }

  // ---------------------------------------------------------------- when a swap goes through, and what it leaves

  ghost predicate BothFound(games: seq<GameRow>, a: Target, b: Target) {
    GameIndex(games, a.slot, a.court).Some? && GameIndex(games, b.slot, b.court).Some?
  }

  /** Both games exist and no game sits at the temporary slot, not even one of the two. */
  ghost predicate SlotSwapGoesThrough(games: seq<GameRow>, a: Target, b: Target) {
    BothFound(games, a, b) && GameIndex(games, TEMP_SLOT, 0).None?
  }

  ghost function SlotsSwapped(games: seq<GameRow>, a: Target, b: Target): seq<GameRow>
    requires BothFound(games, a, b)
  {
    var i, j := GameIndex(games, a.slot, a.court).value, GameIndex(games, b.slot, b.court).value;
    games[i := games[i].(slot := b.slot, court := b.court, version := games[i].version + 2)]
         [j := games[j].(slot := a.slot, court := a.court, version := games[j].version + 1)]
  }

  /** Both seats are taken and neither player would meet himself in the other game. */
  ghost predicate PlayerSwapGoesThrough(games: seq<GameRow>, a: Target, b: Target) {
    BothFound(games, a, b)
    && var x, y := games[GameIndex(games, a.slot, a.court).value].seats, games[GameIndex(games, b.slot, b.court).value].seats;
    && SeatOf(a) in x && SeatOf(b) in y
    && (x[SeatOf(a)] == y[SeatOf(b)] || (x[SeatOf(a)] !in y.Values && y[SeatOf(b)] !in x.Values))
  }

  ghost function PlayersSwapped(games: seq<GameRow>, a: Target, b: Target): seq<GameRow>
    requires PlayerSwapGoesThrough(games, a, b)
  {
    var i, j := GameIndex(games, a.slot, a.court).value, GameIndex(games, b.slot, b.court).value;
    var x, y := games[i].seats, games[j].seats;
    games[i := games[i].(seats := x[SeatOf(a) := y[SeatOf(b)]], version := games[i].version + 1)]
         [j := games[j].(seats := y[SeatOf(b) := x[SeatOf(a)]], version := games[j].version + 1)]
  }

  function WithTeam(seats: map<Seat, string>, side: Side, from: map<Seat, string>): map<Seat, string>
    requires Seat(side, 0) in from && Seat(side, 1) in from
  {
    seats[Seat(side, 0) := from[Seat(side, 0)]][Seat(side, 1) := from[Seat(side, 1)]]
  }

  /** A player on one team plays the other position on the other. */
  predicate Crossed(x: map<Seat, string>, y: map<Seat, string>, side: Side)
    requires Seat(side, 0) in x && Seat(side, 1) in x && Seat(side, 0) in y && Seat(side, 1) in y
  {
    x[Seat(side, 0)] == y[Seat(side, 1)] || x[Seat(side, 1)] == y[Seat(side, 0)]
  }

  ghost predicate TeamsCanSwap(x: map<Seat, string>, y: map<Seat, string>, side: Side) {
    && Seat(side, 0) in x && Seat(side, 1) in x && Seat(side, 0) in y && Seat(side, 1) in y
    && NobodyTwice(WithTeam(x, side, y)) && NobodyTwice(WithTeam(y, side, x)) && !Crossed(x, y, side)
  }

  /** The teams carry the same letter, the two games they would make are legal, and no player of
      one team plays the other position on the other: the positions are swapped one by one, and
      a crossed partner trips the constraint half way. */
  ghost predicate TeamSwapGoesThrough(games: seq<GameRow>, a: Target, b: Target) {
    && a.side == b.side && BothFound(games, a, b)
    && TeamsCanSwap(games[GameIndex(games, a.slot, a.court).value].seats, games[GameIndex(games, b.slot, b.court).value].seats, a.side)
  }

  ghost predicate PositionFree(x: map<Seat, string>, y: map<Seat, string>, seat: Seat) {
    seat in x && seat in y && FreeFor(y, seat, x[seat]) && FreeFor(x, seat, y[seat])
  }

  lemma TeamSwapByPosition(x: map<Seat, string>, y: map<Seat, string>, side: Side)
    requires NobodyTwice(x) && NobodyTwice(y)
    ensures TeamsCanSwap(x, y, side) <==>
      && PositionFree(x, y, Seat(side, 0))
      && PositionFree(x[Seat(side, 0) := y[Seat(side, 0)]], y[Seat(side, 0) := x[Seat(side, 0)]], Seat(side, 1))
  {
    var p0, p1 := Seat(side, 0), Seat(side, 1);
    if p0 in x && p1 in x && p0 in y && p1 in y && !Crossed(x, y, side) {
      OneTeamReplaced(x, y, side);
      OneTeamReplaced(y, x, side);
    }
  }

  lemma OneTeamReplaced(x: map<Seat, string>, y: map<Seat, string>, side: Side)
    requires NobodyTwice(x) && NobodyTwice(y)
    requires Seat(side, 0) in x && Seat(side, 1) in x && Seat(side, 0) in y && Seat(side, 1) in y && !Crossed(x, y, side)
    ensures NobodyTwice(WithTeam(x, side, y)) <==>
      FreeFor(x, Seat(side, 0), y[Seat(side, 0)]) && FreeFor(x[Seat(side, 0) := y[Seat(side, 0)]], Seat(side, 1), y[Seat(side, 1)])
  {
    var p0, p1, z := Seat(side, 0), Seat(side, 1), WithTeam(x, side, y);
    if NobodyTwice(z) {
      forall s <- x | s != p0 ensures x[s] != y[p0] {
        assert s in z && p0 in z && z[p0] == y[p0] && (s == p1 || z[s] == x[s]);
      }
      forall s <- x | s != p1 ensures x[p0 := y[p0]][s] != y[p1] {
        assert s in z && p1 in z && z[p1] == y[p1] && (s == p0 || z[s] == x[s]) && y[p0] != y[p1];
      }
    }
  }

  ghost function TeamsSwapped(games: seq<GameRow>, a: Target, b: Target): seq<GameRow>
    requires TeamSwapGoesThrough(games, a, b)
  {
    var i, j := GameIndex(games, a.slot, a.court).value, GameIndex(games, b.slot, b.court).value;
    var x, y := games[i].seats, games[j].seats;
    games[i := games[i].(seats := WithTeam(x, a.side, y), version := games[i].version + 1)]
         [j := games[j].(seats := WithTeam(y, a.side, x), version := games[j].version + 1)]
  }

  ghost predicate SameGamePlayersGoThrough(games: seq<GameRow>, a: Target, b: Target) {
    && GameIndex(games, a.slot, a.court).Some?
    && SeatOf(a) in games[GameIndex(games, a.slot, a.court).value].seats
    && SeatOf(b) in games[GameIndex(games, a.slot, a.court).value].seats
  }

  ghost function SameGamePlayersSwapped(games: seq<GameRow>, a: Target, b: Target): seq<GameRow>
    requires SameGamePlayersGoThrough(games, a, b)
  {
    var i := GameIndex(games, a.slot, a.court).value;
    var x := games[i].seats;
    games[i := games[i].(seats := x[SeatOf(a) := x[SeatOf(b)]][SeatOf(b) := x[SeatOf(a)]], version := games[i].version + 1)]
  }

  /** Two players of one game take each other's seats. */
  lemma PairReseated(x: map<Seat, string>, s: Seat, t: Seat)
    requires NobodyTwice(x) && s in x && t in x && s != t
    ensures var rows, out := map[s := x[t], t := x[s]], {s, t};
      && rows.Keys !! (x - out).Keys && x - out + rows == x[s := x[t]][t := x[s]] && NobodyTwice(x - out + rows)
  {
    var z := x[s := x[t]][t := x[s]];
    assert x - {s, t} + map[s := x[t], t := x[s]] == z;
    forall u <- z, v <- z | u != v ensures z[u] != z[v] {
      assert u in x && v in x;
    }
  }

  lemma SidesReseated(x: map<Seat, string>)
    requires NobodyTwice(x) && forall k :: 0 <= k < 4 ==> SEATS[k] in x
    ensures var rows := SidesSwapped(x);
      rows.Keys !! (x - x.Keys).Keys && x - x.Keys + rows == rows && NobodyTwice(x - x.Keys + rows)
  {
    var z := SidesSwapped(x);
    assert x - x.Keys + z == z;
    assert SEATS[0] in x && SEATS[1] in x && SEATS[2] in x && SEATS[3] in x;
  }

  ghost predicate SameGameTeamsGoThrough(games: seq<GameRow>, a: Target, b: Target) {
    && a.side != b.side && GameIndex(games, a.slot, a.court).Some?
    && forall k :: 0 <= k < 4 ==> SEATS[k] in games[GameIndex(games, a.slot, a.court).value].seats
  }

  function SidesSwapped(seats: map<Seat, string>): map<Seat, string>
    requires forall k :: 0 <= k < 4 ==> SEATS[k] in seats
  {
    map[SEATS[0] := seats[SEATS[2]], SEATS[1] := seats[SEATS[3]], SEATS[2] := seats[SEATS[0]], SEATS[3] := seats[SEATS[1]]]
  }

  ghost function SameGameTeamsSwapped(games: seq<GameRow>, a: Target, b: Target): seq<GameRow>
    requires SameGameTeamsGoThrough(games, a, b)
  {
    var i := GameIndex(games, a.slot, a.court).value;
    games[i := games[i].(seats := SidesSwapped(games[i].seats), version := games[i].version + 1)]
  }

  /** The checks made before anything is looked up. */
  predicate WellAimed(kind: Kind, a: Target, b: Target) {
    && (a.slot == b.slot && a.court == b.court ==> kind != SlotSwap && SeatOf(a) != SeatOf(b))
    && (kind != SlotSwap ==> a.position <= 1 && b.position <= 1)
  }

  ghost predicate GoesThrough(kind: Kind, games: seq<GameRow>, a: Target, b: Target) {
    && WellAimed(kind, a, b)
    && if a.slot == b.slot && a.court == b.court then
         if kind == PlayerSwap then SameGamePlayersGoThrough(games, a, b) else SameGameTeamsGoThrough(games, a, b)
       else if kind == SlotSwap then SlotSwapGoesThrough(games, a, b)
       else if kind == PlayerSwap then PlayerSwapGoesThrough(games, a, b)
       else TeamSwapGoesThrough(games, a, b)
  }

  ghost function Swapped(kind: Kind, games: seq<GameRow>, a: Target, b: Target): seq<GameRow>
    requires GoesThrough(kind, games, a, b)
  {
    if a.slot == b.slot && a.court == b.court then
      if kind == PlayerSwap then SameGamePlayersSwapped(games, a, b) else SameGameTeamsSwapped(games, a, b)
    else if kind == SlotSwap then SlotsSwapped(games, a, b)
    else if kind == PlayerSwap then PlayersSwapped(games, a, b)
    else TeamsSwapped(games, a, b)
  }
}
