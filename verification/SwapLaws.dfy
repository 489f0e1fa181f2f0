/** What a swap that goes through guarantees: undone by itself, nobody gains or loses a game. */
module SwapLaws {
  import opened Options
  import opened Sorting
  import opened SessionTables
  import opened Swaps

  // ---------------------------------------------------------------- a swap undoes itself

  /** The same rows but for their versions. */
  ghost predicate SamePlacement(x: seq<GameRow>, y: seq<GameRow>) {
    |x| == |y| && forall i :: 0 <= i < |x| ==> x[i] == y[i].(version := x[i].version)
  }

  lemma IndexIsUnique(games: seq<GameRow>, i: nat)
    requires PlacesDiffer(games) && i < |games|
    ensures GameIndex(games, games[i].slot, games[i].court) == Some(i)
  {
  }

  lemma NoIndex(games: seq<GameRow>, slot: nat, court: nat)
    requires forall k :: 0 <= k < |games| ==> games[k].slot != slot || games[k].court != court
    ensures GameIndex(games, slot, court).None?
  {
  }

  lemma SlotSwapTwice(games: seq<GameRow>, a: Target, b: Target)
    requires Legal(games) && SlotSwapGoesThrough(games, a, b) && (a.slot != b.slot || a.court != b.court)
    ensures PlacesDiffer(SlotsSwapped(games, a, b)) && SlotSwapGoesThrough(SlotsSwapped(games, a, b), a, b)
    ensures SamePlacement(SlotsSwapped(SlotsSwapped(games, a, b), a, b), games)
  {
    var i, j := GameIndex(games, a.slot, a.court).value, GameIndex(games, b.slot, b.court).value;
    var once := SlotsSwapped(games, a, b);
    assert PlacesDiffer(once);
    IndexIsUnique(once, i);
    IndexIsUnique(once, j);
    NoIndex(once, TEMP_SLOT, 0);
  }

  lemma SamePlacesSameIndex(x: seq<GameRow>, y: seq<GameRow>, slot: nat, court: nat)
    requires |x| == |y| && forall i :: 0 <= i < |x| ==> x[i].slot == y[i].slot && x[i].court == y[i].court
    ensures GameIndex(x, slot, court) == GameIndex(y, slot, court)
  {
  }

  lemma PlayerSwapTwice(games: seq<GameRow>, a: Target, b: Target)
    requires Legal(games) && PlayerSwapGoesThrough(games, a, b) && (a.slot != b.slot || a.court != b.court)
    ensures PlayerSwapGoesThrough(PlayersSwapped(games, a, b), a, b)
    ensures SamePlacement(PlayersSwapped(PlayersSwapped(games, a, b), a, b), games)
  {
    var once := PlayersSwapped(games, a, b);
    SamePlacesSameIndex(games, once, a.slot, a.court);
    SamePlacesSameIndex(games, once, b.slot, b.court);
    var i, j := GameIndex(games, a.slot, a.court).value, GameIndex(games, b.slot, b.court).value;
    ExchangedTwice(games[i].seats, SeatOf(a), games[j].seats, SeatOf(b));
  }

  /** Two players exchanged between two games, and back. */
  lemma ExchangedTwice(x: map<Seat, string>, s: Seat, y: map<Seat, string>, t: Seat)
    requires NobodyTwice(x) && NobodyTwice(y) && s in x && t in y
    requires x[s] == y[t] || (x[s] !in y.Values && y[t] !in x.Values)
    ensures x[s := y[t]][s := x[s]] == x && y[t := x[s]][t := y[t]] == y
    ensures x[s] == y[t] || (y[t] !in y[t := x[s]].Values && x[s] !in x[s := y[t]].Values)
  {
    if x[s] != y[t] {
      PlayerLeaves(x, s, y[t]);
      PlayerLeaves(y, t, x[s]);
    }
    assert x[s := y[t]][s := x[s]] == x;
    assert y[t := x[s]][t := y[t]] == y;
  }

  /** Reseating removes exactly the former holder. */
  lemma PlayerLeaves(x: map<Seat, string>, seat: Seat, p: string)
    requires NobodyTwice(x) && seat in x && x[seat] != p
    ensures x[seat] !in x[seat := p].Values
  {
  }

  lemma TeamSwapTwice(games: seq<GameRow>, a: Target, b: Target)
    requires Legal(games) && TeamSwapGoesThrough(games, a, b) && (a.slot != b.slot || a.court != b.court)
    ensures TeamSwapGoesThrough(TeamsSwapped(games, a, b), a, b)
    ensures SamePlacement(TeamsSwapped(TeamsSwapped(games, a, b), a, b), games)
  {
    var once := TeamsSwapped(games, a, b);
    SamePlacesSameIndex(games, once, a.slot, a.court);
    SamePlacesSameIndex(games, once, b.slot, b.court);
    var i, j := GameIndex(games, a.slot, a.court).value, GameIndex(games, b.slot, b.court).value;
    var x, y := games[i].seats, games[j].seats;
    TeamsCanSwapBack(x, y, a.side);
  }

  lemma TeamsCanSwapBack(x: map<Seat, string>, y: map<Seat, string>, side: Side)
    requires NobodyTwice(x) && NobodyTwice(y) && TeamsCanSwap(x, y, side)
    ensures WithTeam(WithTeam(x, side, y), side, WithTeam(y, side, x)) == x
    ensures WithTeam(WithTeam(y, side, x), side, WithTeam(x, side, y)) == y
    ensures TeamsCanSwap(WithTeam(x, side, y), WithTeam(y, side, x), side)
  {
    assert WithTeam(WithTeam(x, side, y), side, WithTeam(y, side, x)) == x;
    assert WithTeam(WithTeam(y, side, x), side, WithTeam(x, side, y)) == y;
  }

  lemma SameGamePlayersTwice(games: seq<GameRow>, a: Target, b: Target)
    requires Legal(games) && SameGamePlayersGoThrough(games, a, b) && SeatOf(a) != SeatOf(b)
    ensures SameGamePlayersGoThrough(SameGamePlayersSwapped(games, a, b), a, b)
    ensures SamePlacement(SameGamePlayersSwapped(SameGamePlayersSwapped(games, a, b), a, b), games)
  {
    var once := SameGamePlayersSwapped(games, a, b);
    SamePlacesSameIndex(games, once, a.slot, a.court);
    var x := games[GameIndex(games, a.slot, a.court).value].seats;
    var y := x[SeatOf(a) := x[SeatOf(b)]][SeatOf(b) := x[SeatOf(a)]];
    assert y[SeatOf(a) := y[SeatOf(b)]][SeatOf(b) := y[SeatOf(a)]] == x;
  }

  lemma SidesTwice(x: map<Seat, string>)
    requires x.Keys == {SEATS[0], SEATS[1], SEATS[2], SEATS[3]}
    ensures forall k :: 0 <= k < 4 ==> SEATS[k] in x && SEATS[k] in SidesSwapped(x)
    ensures SidesSwapped(SidesSwapped(x)) == x
  {
    assert forall k :: 0 <= k < 4 ==> SEATS[k] in x && SEATS[k] in SidesSwapped(x);
  }

  lemma SameGameTeamsTwice(games: seq<GameRow>, a: Target, b: Target)
    requires Legal(games) && Full(games) && SameGameTeamsGoThrough(games, a, b)
    ensures SameGameTeamsGoThrough(SameGameTeamsSwapped(games, a, b), a, b)
    ensures SamePlacement(SameGameTeamsSwapped(SameGameTeamsSwapped(games, a, b), a, b), games)
  {
    var once := SameGameTeamsSwapped(games, a, b);
    SamePlacesSameIndex(games, once, a.slot, a.court);
    SidesTwice(games[GameIndex(games, a.slot, a.court).value].seats);
  }

  /** The same swap, asked for again, goes through again and restores every placement. */
  lemma SwapIsAnInvolution(games: seq<GameRow>, kind: Kind, a: Target, b: Target)
    requires Legal(games) && Full(games) && GoesThrough(kind, games, a, b)
    ensures GoesThrough(kind, Swapped(kind, games, a, b), a, b)
    ensures SamePlacement(Swapped(kind, Swapped(kind, games, a, b), a, b), games)
  {
    if a.slot == b.slot && a.court == b.court {
      if kind == PlayerSwap { SameGamePlayersTwice(games, a, b); } else { SameGameTeamsTwice(games, a, b); }
    } else if kind == SlotSwap {
      SlotSwapTwice(games, a, b);
    } else if kind == PlayerSwap {
      PlayerSwapTwice(games, a, b);
    } else {
      TeamSwapTwice(games, a, b);
    }
  }

  // ---------------------------------------------------------------- nobody gains or loses a game

  function Held(seats: map<Seat, string>, seat: Seat, p: string): nat {
    if seat in seats && seats[seat] == p then 1 else 0
  }

  function SeatsHeld(seats: map<Seat, string>, p: string): nat {
    Held(seats, SEATS[0], p) + Held(seats, SEATS[1], p) + Held(seats, SEATS[2], p) + Held(seats, SEATS[3], p)
  }

  /** How many seats of the session a player holds. */
  function Appearances(games: seq<GameRow>, p: string): nat {
    if |games| == 0 then 0 else Appearances(games[..|games| - 1], p) + SeatsHeld(games[|games| - 1].seats, p)
  }

  lemma {:induction false} AppearancesAfter(games: seq<GameRow>, i: nat, row: GameRow, p: string)
    requires i < |games|
    ensures Appearances(games[i := row], p) == Appearances(games, p) - SeatsHeld(games[i].seats, p) + SeatsHeld(row.seats, p)
  {
    var n := |games| - 1;
    if i < n {
      AppearancesAfter(games[..n], i, row, p);
      assert games[i := row][..n] == games[..n][i := row];
    } else {
      assert games[i := row][..n] == games[..n];
    }
  }

  lemma AppearancesAfterTwo(games: seq<GameRow>, i: nat, x: GameRow, j: nat, y: GameRow, p: string)
    requires i < |games| && j < |games| && i != j
    requires SeatsHeld(x.seats, p) + SeatsHeld(y.seats, p) == SeatsHeld(games[i].seats, p) + SeatsHeld(games[j].seats, p)
    ensures Appearances(games[i := x][j := y], p) == Appearances(games, p)
  {
    AppearancesAfter(games, i, x, p);
    AppearancesAfter(games[i := x], j, y, p);
  }

  lemma ReseatedCount(x: map<Seat, string>, seat: Seat, q: string, p: string)
    requires seat in SEATS && seat in x
    ensures SeatsHeld(x[seat := q], p) == SeatsHeld(x, p) - (if x[seat] == p then 1 else 0) + (if q == p then 1 else 0)
  {
  }

  lemma TeamCount(x: map<Seat, string>, y: map<Seat, string>, side: Side, p: string)
    requires Seat(side, 0) in x && Seat(side, 1) in x && Seat(side, 0) in y && Seat(side, 1) in y
    ensures SeatsHeld(WithTeam(x, side, y), p) + SeatsHeld(WithTeam(y, side, x), p) == SeatsHeld(x, p) + SeatsHeld(y, p)
  {
    var p0, p1 := Seat(side, 0), Seat(side, 1);
    assert p0 in SEATS && p1 in SEATS by {
      if side == SideA { assert p0 == SEATS[0] && p1 == SEATS[1]; } else { assert p0 == SEATS[2] && p1 == SEATS[3]; }
    }
    ReseatedCount(x, p0, y[p0], p);
    ReseatedCount(x[p0 := y[p0]], p1, y[p1], p);
    ReseatedCount(y, p0, x[p0], p);
    ReseatedCount(y[p0 := x[p0]], p1, x[p1], p);
  }

  lemma OnBoard(t: Target)
    requires t.position <= 1
    ensures SeatOf(t) in SEATS
  {
    if t.side == SideA { assert SeatOf(t) == SEATS[t.position]; } else { assert SeatOf(t) == SEATS[2 + t.position]; }
  }

  lemma PlayerSwapConserves(games: seq<GameRow>, a: Target, b: Target, p: string)
    requires PlayerSwapGoesThrough(games, a, b) && a.position <= 1 && b.position <= 1 && (a.slot != b.slot || a.court != b.court)
    ensures Appearances(PlayersSwapped(games, a, b), p) == Appearances(games, p)
  {
    var i, j, after := GameIndex(games, a.slot, a.court).value, GameIndex(games, b.slot, b.court).value, PlayersSwapped(games, a, b);
    OnBoard(a);
    OnBoard(b);
    ReseatedCount(games[i].seats, SeatOf(a), games[j].seats[SeatOf(b)], p);
    ReseatedCount(games[j].seats, SeatOf(b), games[i].seats[SeatOf(a)], p);
    AppearancesAfterTwo(games, i, after[i], j, after[j], p);
  }

  lemma TeamSwapConserves(games: seq<GameRow>, a: Target, b: Target, p: string)
    requires TeamSwapGoesThrough(games, a, b) && (a.slot != b.slot || a.court != b.court)
    ensures Appearances(TeamsSwapped(games, a, b), p) == Appearances(games, p)
  {
    var i, j, after := GameIndex(games, a.slot, a.court).value, GameIndex(games, b.slot, b.court).value, TeamsSwapped(games, a, b);
    TeamCount(games[i].seats, games[j].seats, a.side, p);
    AppearancesAfterTwo(games, i, after[i], j, after[j], p);
  }

  lemma SameGamePlayersConserve(games: seq<GameRow>, a: Target, b: Target, p: string)
    requires SameGamePlayersGoThrough(games, a, b) && a.position <= 1 && b.position <= 1
    ensures Appearances(SameGamePlayersSwapped(games, a, b), p) == Appearances(games, p)
  {
    var i, after := GameIndex(games, a.slot, a.court).value, SameGamePlayersSwapped(games, a, b);
    var x := games[i].seats;
    OnBoard(a);
    OnBoard(b);
    ReseatedCount(x, SeatOf(a), x[SeatOf(b)], p);
    ReseatedCount(x[SeatOf(a) := x[SeatOf(b)]], SeatOf(b), x[SeatOf(a)], p);
    AppearancesAfter(games, i, after[i], p);
  }

  lemma SidesConserve(x: map<Seat, string>, p: string)
    requires forall k :: 0 <= k < 4 ==> SEATS[k] in x
    ensures SeatsHeld(SidesSwapped(x), p) == SeatsHeld(x, p)
  {
    assert SEATS[0] in x && SEATS[1] in x && SEATS[2] in x && SEATS[3] in x;
  }

  /** Every player keeps his number of games, whatever is swapped. */
  lemma SwapConservesAppearances(games: seq<GameRow>, kind: Kind, a: Target, b: Target, p: string)
    requires GoesThrough(kind, games, a, b)
    ensures Appearances(Swapped(kind, games, a, b), p) == Appearances(games, p)
  {
    if a.slot == b.slot && a.court == b.court {
      if kind == PlayerSwap {
        SameGamePlayersConserve(games, a, b, p);
      } else {
        var i := GameIndex(games, a.slot, a.court).value;
        SidesConserve(games[i].seats, p);
        AppearancesAfter(games, i, SameGameTeamsSwapped(games, a, b)[i], p);
      }
    } else if kind == SlotSwap {
      var i, j, after := GameIndex(games, a.slot, a.court).value, GameIndex(games, b.slot, b.court).value, SlotsSwapped(games, a, b);
      AppearancesAfterTwo(games, i, after[i], j, after[j], p);
    } else if kind == PlayerSwap {
      PlayerSwapConserves(games, a, b, p);
    } else {
      TeamSwapConserves(games, a, b, p);
    }
  }

  // ---------------------------------------------------------------- what a swap keeps

  lemma NewcomerKeepsItLegal(x: map<Seat, string>, seat: Seat, q: string)
    requires NobodyTwice(x) && seat in x && (q == x[seat] || q !in x.Values)
    ensures NobodyTwice(x[seat := q]) && x[seat := q].Keys == x.Keys
  {
  }

  lemma RenamedKeepsItLegal(x: map<Seat, string>, s: Seat, t: Seat)
    requires NobodyTwice(x) && s in x && t in x
    ensures NobodyTwice(x[s := x[t]][t := x[s]]) && x[s := x[t]][t := x[s]].Keys == x.Keys
  {
  }

  lemma SidesKeepItLegal(x: map<Seat, string>)
    requires NobodyTwice(x) && forall k :: 0 <= k < 4 ==> SEATS[k] in x
    ensures NobodyTwice(SidesSwapped(x)) && SidesSwapped(x).Keys == {SEATS[0], SEATS[1], SEATS[2], SEATS[3]}
  {
    assert SEATS[0] in x && SEATS[1] in x && SEATS[2] in x && SEATS[3] in x;
  }

  lemma TeamsKeepKeys(x: map<Seat, string>, y: map<Seat, string>, side: Side)
    requires TeamsCanSwap(x, y, side)
    ensures WithTeam(x, side, y).Keys == x.Keys && WithTeam(y, side, x).Keys == y.Keys
  {
  }

  ghost predicate SamePlaceLegally(was: GameRow, now: GameRow) {
    now.slot == was.slot && now.court == was.court && NobodyTwice(now.seats) && now.seats.Keys == was.seats.Keys
  }

  lemma BoardAfterOne(games: seq<GameRow>, i: nat, x: GameRow)
    requires Legal(games) && Full(games) && i < |games| && SamePlaceLegally(games[i], x)
    ensures Legal(games[i := x]) && Full(games[i := x])
  {
  }

  lemma PlacesExchanged(games: seq<GameRow>, i: nat, j: nat, after: seq<GameRow>)
    requires PlacesDiffer(games) && i < |games| && j < |games| && i != j && |after| == |games|
    requires after[i].slot == games[j].slot && after[i].court == games[j].court
    requires after[j].slot == games[i].slot && after[j].court == games[i].court
    requires forall k :: 0 <= k < |games| && k != i && k != j ==> after[k] == games[k]
    ensures PlacesDiffer(after)
  {
  }

  lemma SlotBoard(games: seq<GameRow>, a: Target, b: Target)
    requires Legal(games) && Full(games) && SlotSwapGoesThrough(games, a, b) && (a.slot != b.slot || a.court != b.court)
    ensures Legal(SlotsSwapped(games, a, b)) && Full(SlotsSwapped(games, a, b))
  {
    var i, j, after := GameIndex(games, a.slot, a.court).value, GameIndex(games, b.slot, b.court).value, SlotsSwapped(games, a, b);
    PlacesExchanged(games, i, j, after);
    SeatsDecide(games, after);
  }

  /** The other constraints speak of seats only. */
  lemma SeatsDecide(games: seq<GameRow>, after: seq<GameRow>)
    requires Legal(games) && Full(games) && PlacesDiffer(after)
    requires |after| == |games| && forall k :: 0 <= k < |games| ==> after[k].seats == games[k].seats
    ensures Legal(after) && Full(after)
  {
  }

  lemma PlayerBoard(games: seq<GameRow>, a: Target, b: Target)
    requires Legal(games) && Full(games) && PlayerSwapGoesThrough(games, a, b) && (a.slot != b.slot || a.court != b.court)
    ensures Legal(PlayersSwapped(games, a, b)) && Full(PlayersSwapped(games, a, b))
  {
    var i, j := GameIndex(games, a.slot, a.court).value, GameIndex(games, b.slot, b.court).value;
    NewcomerKeepsItLegal(games[i].seats, SeatOf(a), games[j].seats[SeatOf(b)]);
    NewcomerKeepsItLegal(games[j].seats, SeatOf(b), games[i].seats[SeatOf(a)]);
    var after := PlayersSwapped(games, a, b);
    BoardAfterOne(games, i, after[i]);
    BoardAfterOne(games[i := after[i]], j, after[j]);
  }

  lemma TeamBoard(games: seq<GameRow>, a: Target, b: Target)
    requires Legal(games) && Full(games) && TeamSwapGoesThrough(games, a, b) && (a.slot != b.slot || a.court != b.court)
    ensures Legal(TeamsSwapped(games, a, b)) && Full(TeamsSwapped(games, a, b))
  {
    var i, j := GameIndex(games, a.slot, a.court).value, GameIndex(games, b.slot, b.court).value;
    TeamsKeepKeys(games[i].seats, games[j].seats, a.side);
    var after := TeamsSwapped(games, a, b);
    BoardAfterOne(games, i, after[i]);
    BoardAfterOne(games[i := after[i]], j, after[j]);
  }

  lemma SameGameBoard(games: seq<GameRow>, kind: Kind, a: Target, b: Target)
    requires Legal(games) && Full(games) && GoesThrough(kind, games, a, b) && a.slot == b.slot && a.court == b.court
    ensures Legal(Swapped(kind, games, a, b)) && Full(Swapped(kind, games, a, b))
  {
    var i := GameIndex(games, a.slot, a.court).value;
    if kind == PlayerSwap {
      RenamedKeepsItLegal(games[i].seats, SeatOf(a), SeatOf(b));
    } else {
      SidesKeepItLegal(games[i].seats);
    }
    BoardAfterOne(games, i, Swapped(kind, games, a, b)[i]);
  }

  /** Places stay unique, and four different players sit in every game. */
  lemma SwapKeepsTheBoard(games: seq<GameRow>, kind: Kind, a: Target, b: Target)
    requires Legal(games) && Full(games) && GoesThrough(kind, games, a, b)
    ensures Legal(Swapped(kind, games, a, b)) && Full(Swapped(kind, games, a, b))
  {
    if a.slot == b.slot && a.court == b.court {
      SameGameBoard(games, kind, a, b);
    } else if kind == SlotSwap {
      SlotBoard(games, a, b);
    } else if kind == PlayerSwap {
      PlayerBoard(games, a, b);
    } else {
      TeamBoard(games, a, b);
    }
  }

  ghost predicate MarksKept(was: GameRow, now: GameRow) {
    && now == was.(slot := now.slot, court := now.court, seats := now.seats, version := now.version)
    && was.version <= now.version <= was.version + 2
  }

  /** Marks, scores, skips and order belong to the row and move with it. */
  lemma SwapTouchesOnlyPlaces(games: seq<GameRow>, kind: Kind, a: Target, b: Target)
    requires Legal(games) && GoesThrough(kind, games, a, b)
    ensures |Swapped(kind, games, a, b)| == |games|
    ensures forall i :: 0 <= i < |games| ==> MarksKept(games[i], Swapped(kind, games, a, b)[i])
  {
  }

  /** Two teams with crossed partners cannot be swapped, although both games would end up legal. */
  lemma CrossedTeamsAreRefused(p: string, q: string, r: string, s: string, t: string, u: string, v: string)
    returns (x: map<Seat, string>, y: map<Seat, string>)
    requires Distinct([p, q, r, s, t, u, v])
    ensures Seat(SideA, 0) in x && Seat(SideA, 1) in x && Seat(SideA, 0) in y && Seat(SideA, 1) in y
    ensures NobodyTwice(x) && NobodyTwice(y) && NobodyTwice(WithTeam(x, SideA, y)) && NobodyTwice(WithTeam(y, SideA, x))
    ensures !TeamsCanSwap(x, y, SideA)
  {
    x, y := FourSeats(p, q, r, s), FourSeats(q, t, u, v);
    SevenDiffer([p, q, r, s, t, u, v]);
    FourDiffer(p, q, r, s);
    FourDiffer(q, t, u, v);
    assert WithTeam(x, SideA, y) == FourSeats(q, t, r, s) && WithTeam(y, SideA, x) == FourSeats(p, q, u, v);
    FourDiffer(q, t, r, s);
    FourDiffer(p, q, u, v);
    assert Crossed(x, y, SideA);
  }

  function FourSeats(a0: string, a1: string, b0: string, b1: string): map<Seat, string> {
    map[Seat(SideA, 0) := a0, Seat(SideA, 1) := a1, Seat(SideB, 0) := b0, Seat(SideB, 1) := b1]
  }

  lemma FourDiffer(a0: string, a1: string, b0: string, b1: string)
    requires a0 != a1 && a0 != b0 && a0 != b1 && a1 != b0 && a1 != b1 && b0 != b1
    ensures NobodyTwice(FourSeats(a0, a1, b0, b1))
  {
  }

  lemma SevenDiffer(n: seq<string>)
    requires |n| == 7 && Distinct(n)
    ensures n[0] != n[1] && n[0] != n[2] && n[0] != n[3] && n[0] != n[5] && n[0] != n[6]
    ensures n[1] != n[2] && n[1] != n[3] && n[1] != n[4] && n[1] != n[5] && n[1] != n[6]
    ensures n[2] != n[3] && n[4] != n[2] && n[4] != n[3] && n[4] != n[5] && n[4] != n[6] && n[5] != n[6]
  {
  }
}
