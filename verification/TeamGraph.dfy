/** What an accepted draw is: a simple 3-regular graph on the six teams; and how a team's six
    players fill its three partai. */
module TeamGraph {
  import opened Sorting
  import opened TeamTournaments

  // ---------------------------------------------------------------- handshake

  function Total(groups: seq<TeamMatch>, ids: seq<string>): nat {
    if |ids| == 0 then 0 else Total(groups, ids[..|ids| - 1]) + Appearances(groups, ids[|ids| - 1])
  }

  /** A match adds one appearance for each of its two teams. */
  lemma {:induction false} OneMatchCounts(groups: seq<TeamMatch>, m: TeamMatch, ids: seq<string>)
    requires Distinct(ids) && m.teamA != m.teamB
    ensures Total(groups + [m], ids)
         == Total(groups, ids) + (if m.teamA in ids then 1 else 0) + (if m.teamB in ids then 1 else 0)
  {
    if |ids| > 0 {
      var front, last := ids[..|ids| - 1], ids[|ids| - 1];
      OneMatchCounts(groups, m, front);
      assert (groups + [m])[..|groups|] == groups;
      assert ids == front + [last];
      assert last !in front;
    }
  }

  lemma {:induction false} NoMatchesNoAppearances(ids: seq<string>)
    ensures Total([], ids) == 0
  {
    if |ids| > 0 { NoMatchesNoAppearances(ids[..|ids| - 1]); }
  }

  /** Every match between two different listed teams. */
  ghost predicate Between(groups: seq<TeamMatch>, ids: seq<string>) {
    forall i :: 0 <= i < |groups| ==> groups[i].teamA != groups[i].teamB && groups[i].teamA in ids && groups[i].teamB in ids
  }

  /** Handshake: appearances add up to twice the matches. */
  lemma {:induction false} Handshake(groups: seq<TeamMatch>, ids: seq<string>)
    requires Distinct(ids) && Between(groups, ids)
    ensures Total(groups, ids) == 2 * |groups|
  {
    if |groups| == 0 {
      NoMatchesNoAppearances(ids);
    } else {
      var front, m := groups[..|groups| - 1], groups[|groups| - 1];
      Handshake(front, ids);
      OneMatchCounts(front, m, ids);
      assert groups == front + [m];
    }
  }

  lemma {:induction false} ThreeEach(groups: seq<TeamMatch>, teams: seq<TeamInfo>)
    requires EachPlaysThree(teams, groups)
    ensures Total(groups, Ids(teams)) == 3 * |teams|
  {
    if |teams| > 0 {
      var front := teams[..|teams| - 1];
      ThreeEach(groups, front);
      assert Ids(teams)[..|teams| - 1] == Ids(front);
    }
  }

  lemma {:induction false} GroupsAreMatches(matches: seq<TeamMatch>, ids: seq<string>)
    requires EachMatchOk(matches, ids)
    ensures Between(Groups(matches), ids)
  {
    if |matches| > 0 { GroupsAreMatches(matches[..|matches| - 1], ids); }
  }

  /** Six teams with three matches each need nine of them: the count the check demands is forced. */
  lemma ThreeEachMeansNine(t: Tournament)
    requires |t.teams| == 6 && Distinct(Ids(t.teams)) && EachMatchOk(t.matches, Ids(t.teams))
    requires EachPlaysThree(t.teams, Groups(t.matches))
    ensures |Groups(t.matches)| == 9
  {
    GroupsAreMatches(t.matches, Ids(t.teams));
    Handshake(Groups(t.matches), Ids(t.teams));
    ThreeEach(Groups(t.matches), t.teams);
  }

  // ---------------------------------------------------------------- the graph

  ghost predicate Meet(groups: seq<TeamMatch>, a: string, b: string) {
    exists i :: 0 <= i < |groups| && {groups[i].teamA, groups[i].teamB} == {a, b}
  }

  function Opponents(groups: seq<TeamMatch>, id: string): set<string> {
    if |groups| == 0 then {}
    else
      var m := groups[|groups| - 1];
      Opponents(groups[..|groups| - 1], id)
      + (if m.teamA == id then {m.teamB} else {}) + (if m.teamB == id then {m.teamA} else {})
  }

  lemma {:induction false} OpponentsMeet(groups: seq<TeamMatch>, a: string, b: string)
    ensures b in Opponents(groups, a) <==> Meet(groups, a, b)
  {
    if |groups| > 0 {
      var front, m := groups[..|groups| - 1], groups[|groups| - 1];
      OpponentsMeet(front, a, b);
      if Meet(groups, a, b) {
        var i :| 0 <= i < |groups| && {groups[i].teamA, groups[i].teamB} == {a, b};
        if i < |front| {
          assert front[i] == groups[i];
        } else {
          assert m.teamA in {a, b} && m.teamB in {a, b} && a in {m.teamA, m.teamB} && b in {m.teamA, m.teamB};
        }
      }
      if Meet(front, a, b) {
        var i :| 0 <= i < |front| && {front[i].teamA, front[i].teamB} == {a, b};
        assert groups[i] == front[i];
      }
      if (m.teamA == a && m.teamB == b) || (m.teamB == a && m.teamA == b) {
        assert {m.teamA, m.teamB} == {a, b} && groups[|front|] == m;
      }
    }
  }

  ghost predicate IdsNoNul(groups: seq<TeamMatch>) { forall i :: 0 <= i < |groups| ==> NoNul(groups[i].teamA) && NoNul(groups[i].teamB) }

  lemma MeetingsHaveKeys(groups: seq<TeamMatch>, a: string, b: string, c: string, d: string)
    requires forall i :: 0 <= i < |groups| ==> groups[i].teamA != groups[i].teamB
    requires Meet(groups, a, b) && {a, b} == {c, d} && c != d
    ensures PairKey(c, d) in PairKeys(groups)
  {
    var i :| 0 <= i < |groups| && {groups[i].teamA, groups[i].teamB} == {a, b};
    SamePairSameKey(groups[i].teamA, groups[i].teamB, c, d);
    assert PairKeys(groups)[i] == PairKey(c, d);
  }

  lemma NewOpponent(front: seq<TeamMatch>, m: TeamMatch, id: string, other: string)
    requires m.teamA != m.teamB && {m.teamA, m.teamB} == {id, other}
    requires forall i :: 0 <= i < |front| ==> front[i].teamA != front[i].teamB
    requires PairKey(m.teamA, m.teamB) !in PairKeys(front)
    ensures other !in Opponents(front, id)
  {
    OpponentsMeet(front, id, other);
    if Meet(front, id, other) { MeetingsHaveKeys(front, id, other, m.teamA, m.teamB); }
  }

  /** No pair meets twice, so a team has as many opponents as matches. */
  lemma OneMoreOpponent(front: seq<TeamMatch>, m: TeamMatch, id: string)
    requires m.teamA != m.teamB && forall i :: 0 <= i < |front| ==> front[i].teamA != front[i].teamB
    requires PairKey(m.teamA, m.teamB) !in PairKeys(front)
    ensures |Opponents(front + [m], id)| == |Opponents(front, id)| + if m.teamA == id || m.teamB == id then 1 else 0
  {
    assert (front + [m])[..|front|] == front;
    if m.teamA == id {
      NewOpponent(front, m, id, m.teamB);
    } else if m.teamB == id {
      NewOpponent(front, m, id, m.teamA);
    }
  }

  lemma {:induction false} AsManyOpponentsAsMatches(groups: seq<TeamMatch>, id: string)
    requires (forall i :: 0 <= i < |groups| ==> groups[i].teamA != groups[i].teamB) && Distinct(PairKeys(groups))
    ensures |Opponents(groups, id)| == Appearances(groups, id)
  {
    if |groups| > 0 {
      var front, m := groups[..|groups| - 1], groups[|groups| - 1];
      assert groups == front + [m];
      PairKeysSnoc(front, m);
      AsManyOpponentsAsMatches(front, id);
      OneMoreOpponent(front, m, id);
    }
  }

  lemma SamePairSameKey(a: string, b: string, c: string, d: string)
    requires a != b && c != d && {a, b} == {c, d}
    ensures PairKey(a, b) == PairKey(c, d)
  {
    assert a in {c, d} && b in {c, d};
    PairKeyIsSymmetric(a, b);
  }

  lemma OpponentsAreMutual(groups: seq<TeamMatch>, ids: seq<string>, a: string, b: string)
    requires Between(groups, ids) && b in Opponents(groups, a)
    ensures a != b && b in ids && a in Opponents(groups, b)
  {
    OpponentsMeet(groups, a, b);
    OpponentsMeet(groups, b, a);
    var k :| 0 <= k < |groups| && {groups[k].teamA, groups[k].teamB} == {a, b};
    assert groups[k].teamA in {a, b} && groups[k].teamB in {a, b} && b in {groups[k].teamA, groups[k].teamB};
    assert {b, a} == {a, b};
  }

  /** The accepted draw is a simple 3-regular graph: no loops, opponents are mutual and among the
      six teams, and everybody has exactly three. */
  lemma DrawIsSimpleAndRegular(t: Tournament, norm: string -> string, i: nat)
    requires ValidTournament(t, norm) && |Groups(t.matches)| == 9 && i < 6
    ensures |Opponents(Groups(t.matches), t.teams[i].id)| == 3
    ensures t.teams[i].id !in Opponents(Groups(t.matches), t.teams[i].id)
    ensures forall o <- Opponents(Groups(t.matches), t.teams[i].id) ::
              o in Ids(t.teams) && t.teams[i].id in Opponents(Groups(t.matches), o)
  {
    var groups, ids, id := Groups(t.matches), Ids(t.teams), t.teams[i].id;
    GroupsAreMatches(t.matches, ids);
    AsManyOpponentsAsMatches(groups, id);
    forall o | o in Opponents(groups, id) ensures o != id && o in ids && id in Opponents(groups, o) {
      OpponentsAreMutual(groups, ids, id, o);
    }
  }

  /** Without NUL in the ids the key check is exact: a repeated key is a repeated pairing. */
  lemma RepeatedKeyIsRepeatedPairing(groups: seq<TeamMatch>, i: nat, j: nat)
    requires IdsNoNul(groups) && i < j < |groups|
    requires groups[i].teamA != groups[i].teamB && groups[j].teamA != groups[j].teamB
    ensures PairKeys(groups)[i] == PairKeys(groups)[j]
            <==> {groups[i].teamA, groups[i].teamB} == {groups[j].teamA, groups[j].teamB}
  {
    if PairKeys(groups)[i] == PairKeys(groups)[j] {
      PairKeyIsInjective(groups[i].teamA, groups[i].teamB, groups[j].teamA, groups[j].teamB);
    }
    if {groups[i].teamA, groups[i].teamB} == {groups[j].teamA, groups[j].teamB} {
      SamePairSameKey(groups[i].teamA, groups[i].teamB, groups[j].teamA, groups[j].teamB);
    }
  }

  function AsSet(s: seq<string>): set<string> { set x <- s }

  lemma {:induction false} DistinctSize(s: seq<string>)
    requires Distinct(s)
    ensures |AsSet(s)| == |s|
  {
    if |s| > 0 {
      var front := s[..|s| - 1];
      DistinctSize(front);
      assert s == front + [s[|s| - 1]];
      assert AsSet(s) == AsSet(front) + {s[|s| - 1]};
      assert s[|s| - 1] !in front;
    }
  }

  lemma CommonOpponents(all: set<string>, own: set<string>, theirs: set<string>)
    requires own <= all && theirs <= all && |all| == 4 && |own| == 3 && |theirs| == 3
    ensures |own * theirs| >= 2
  {
    assert |own + theirs| + |own * theirs| == |own| + |theirs|;
    assert own + theirs <= all;
    SmallerSet(own + theirs, all);
  }

  lemma {:induction false} SmallerSet(a: set<string>, b: set<string>)
    requires a <= b
    ensures |a| <= |b|
  {
    if a != {} {
      var x :| x in a;
      SmallerSet(a - {x}, b - {x});
    }
  }

  lemma SixLessTwo(ids: seq<string>, a: string, b: string)
    requires Distinct(ids) && |ids| == 6 && a in ids && b in ids && a != b
    ensures |AsSet(ids) - {a, b}| == 4
  {
    DistinctSize(ids);
    assert AsSet(ids) - {a, b} == AsSet(ids) - {a} - {b};
  }

  /** Two sets of three opponents among the other four teams. */
  lemma ShareTwo(ids: seq<string>, a: string, b: string, own: set<string>, theirs: set<string>)
    requires Distinct(ids) && |ids| == 6 && a in ids && b in ids && a != b
    requires |own| == 3 && |theirs| == 3 && a !in own && b !in own && a !in theirs && b !in theirs
    requires (forall o <- own :: o in ids) && (forall o <- theirs :: o in ids)
    ensures |own * theirs| >= 2
  {
    SixLessTwo(ids, a, b);
    CommonOpponents(AsSet(ids) - {a, b}, own, theirs);
  }

  /** The draw cannot fall apart: two teams that do not meet share at least two opponents. */
  lemma TeamsThatDoNotMeetShareOpponents(t: Tournament, norm: string -> string, i: nat, j: nat)
    requires ValidTournament(t, norm) && |Groups(t.matches)| == 9 && i < 6 && j < 6 && i != j
    requires !Meet(Groups(t.matches), t.teams[i].id, t.teams[j].id)
    ensures |Opponents(Groups(t.matches), t.teams[i].id) * Opponents(Groups(t.matches), t.teams[j].id)| >= 2
  {
    var groups, ids := Groups(t.matches), Ids(t.teams);
    var a, b := t.teams[i].id, t.teams[j].id;
    DrawIsSimpleAndRegular(t, norm, i);
    DrawIsSimpleAndRegular(t, norm, j);
    OpponentsMeet(groups, a, b);
    IdsAreListed(t.teams, i, j);
    ShareTwo(ids, a, b, Opponents(groups, a), Opponents(groups, b));
  }

  lemma IdsAreListed(teams: seq<TeamInfo>, i: nat, j: nat)
    requires i < |teams| && j < |teams| && i != j && Distinct(Ids(teams))
    ensures teams[i].id in Ids(teams) && teams[j].id in Ids(teams) && teams[i].id != teams[j].id
  {
    assert Ids(teams)[i] == teams[i].id && Ids(teams)[j] == teams[j].id;
  }

  // ---------------------------------------------------------------- players of a partai

  const PARTAI_CLASSES := [["C+", "C"], ["A+", "A"], ["B+", "B"]]

  predicate ClassInPartai(idx: int, cls: string) {
    0 <= idx < |PARTAI_CLASSES| && cls in PARTAI_CLASSES[idx]
  }

  function PositionOf(cls: string): nat { if |cls| > 0 && cls[|cls| - 1] == '+' then 0 else 1 }

  datatype Placed = Placed(name: string, position: nat)

  function Chosen(players: seq<TeamPlayer>, idx: int): seq<Placed> {
    if |players| == 0 then []
    else
      var p := players[|players| - 1];
      Chosen(players[..|players| - 1], idx) + if ClassInPartai(idx, p.cls) then [Placed(p.name, PositionOf(p.cls))] else []
  }

  /** The selection loop of extractTeamMatches, for one team and one partai. */
  method ChoosePlayers(players: seq<TeamPlayer>, idx: int) returns (chosen: seq<Placed>)
    ensures chosen == Chosen(players, idx)
  {
    chosen := [];
    for i := 0 to |players|
      invariant chosen == Chosen(players[..i], idx)
    {
      assert players[..i + 1][..i] == players[..i];
      var cls := players[i].cls;
      if !ClassInPartai(idx, cls) { continue; }
      var pos := 1;
      if |cls| > 0 && cls[|cls| - 1] == '+' { pos := 0; }
      chosen := chosen + [Placed(players[i].name, pos)];
    }
    assert players[..|players|] == players;
  }

  /** How many chosen players stand at a position. */
  function AtPosition(chosen: seq<Placed>, position: nat): nat {
    if |chosen| == 0 then 0
    else AtPosition(chosen[..|chosen| - 1], position) + if chosen[|chosen| - 1].position == position then 1 else 0
  }

  function ClassFor(idx: nat, position: nat): string
    requires idx < 3 && position < 2
  {
    PARTAI_CLASSES[idx][position]
  }

  lemma PlacesAreClasses(idx: nat, cls: string)
    requires idx < 3 && ClassInPartai(idx, cls)
    ensures PositionOf(cls) < 2 && cls == ClassFor(idx, PositionOf(cls))
  {
    var pair := PARTAI_CLASSES[idx];
    assert |pair| == 2;
    assert cls == pair[0] || cls == pair[1];
  }

  lemma ClassesStandAtTheirPlace(idx: nat, position: nat)
    requires idx < 3 && position < 2
    ensures ClassInPartai(idx, ClassFor(idx, position)) && PositionOf(ClassFor(idx, position)) == position
  {
    assert ClassFor(idx, position) in PARTAI_CLASSES[idx];
  }

  lemma LastChosen(players: seq<TeamPlayer>, idx: nat, position: nat)
    requires |players| > 0
    ensures var front, p := players[..|players| - 1], players[|players| - 1];
      && |Chosen(players, idx)| == |Chosen(front, idx)| + (if ClassInPartai(idx, p.cls) then 1 else 0)
      && AtPosition(Chosen(players, idx), position)
         == AtPosition(Chosen(front, idx), position) + if ClassInPartai(idx, p.cls) && PositionOf(p.cls) == position then 1 else 0
  {
    var p := players[|players| - 1];
    var before := Chosen(players[..|players| - 1], idx);
    assert (before + [Placed(p.name, PositionOf(p.cls))])[..|before|] == before;
    if !ClassInPartai(idx, p.cls) { assert Chosen(players, idx) == before; }
  }

  lemma {:induction false} OneForEachClass(players: seq<TeamPlayer>, idx: nat, position: nat)
    requires idx < 3 && position < 2 && Distinct(Classes(players))
    ensures AtPosition(Chosen(players, idx), position) == if ClassFor(idx, position) in Classes(players) then 1 else 0
  {
    if |players| > 0 {
      var n := |players| - 1;
      var front, p := players[..n], players[n];
      assert Classes(front) == Classes(players)[..n] && Classes(players) == Classes(front) + [p.cls];
      DistinctSnoc(Classes(front), p.cls);
      OneForEachClass(front, idx, position);
      LastChosen(players, idx, position);
      ClassesStandAtTheirPlace(idx, position);
      if ClassInPartai(idx, p.cls) { PlacesAreClasses(idx, p.cls); }
    }
  }

  lemma {:induction false} PositionsAddUp(players: seq<TeamPlayer>, idx: nat)
    requires idx < 3
    ensures |Chosen(players, idx)| == AtPosition(Chosen(players, idx), 0) + AtPosition(Chosen(players, idx), 1)
  {
    if |players| > 0 {
      var front, p := players[..|players| - 1], players[|players| - 1];
      PositionsAddUp(front, idx);
      LastChosen(players, idx, 0);
      LastChosen(players, idx, 1);
      if ClassInPartai(idx, p.cls) { PlacesAreClasses(idx, p.cls); }
    }
  }

  lemma AllClassesPresent(players: seq<TeamPlayer>, cls: string)
    requires |players| == 6 && PlayersOk(players) && cls in CLASSES
    ensures cls in Classes(players)
  {
    var have, all := AsSet(Classes(players)), AsSet(CLASSES);
    DistinctSize(Classes(players));
    ClassesAreKnown(players);
    AllClasses();
    AtMostSix();
    if cls !in have {
      assert cls in all;
      SmallerSet(have, all - {cls});
      assert false;
    }
  }

  lemma AllClasses()
    ensures AsSet(CLASSES) == {"A+", "A", "B+", "B", "C+", "C"}
  {
  }

  lemma ClassesAreKnown(players: seq<TeamPlayer>)
    requires PlayersOk(players)
    ensures AsSet(Classes(players)) <= AsSet(CLASSES)
  {
    forall c | c in AsSet(Classes(players)) ensures c in AsSet(CLASSES) {
      var i :| 0 <= i < |players| && players[i].cls == c;
      assert PlayerOk(players[i]);
    }
  }

  lemma AtMostSix()
    ensures |{"A+", "A", "B+", "B", "C+", "C"}| <= 6
  {
    assert {"A+", "A", "B+", "B", "C+", "C"} == {"A+"} + {"A"} + {"B+"} + {"B"} + {"C+"} + {"C"};
  }

  /** In a valid team exactly two players play each partai, one at position 0 and one at 1. */
  lemma TwoPlayersPerPartai(team: TeamInfo, idx: nat)
    requires TeamOk(team) && idx < 3
    ensures |Chosen(team.players, idx)| == 2
    ensures AtPosition(Chosen(team.players, idx), 0) == 1 && AtPosition(Chosen(team.players, idx), 1) == 1
  {
    PositionsAddUp(team.players, idx);
    OneForEachClass(team.players, idx, 0);
    OneForEachClass(team.players, idx, 1);
    assert ClassFor(idx, 0) in CLASSES && ClassFor(idx, 1) in CLASSES;
    AllClassesPresent(team.players, ClassFor(idx, 0));
    AllClassesPresent(team.players, ClassFor(idx, 1));
  }

  /** And every player plays exactly one of the three. */
  lemma OnePartaiPerPlayer(team: TeamInfo, i: nat)
    requires TeamOk(team) && i < |team.players|
    ensures exists idx: nat :: idx < 3 && ClassInPartai(idx, team.players[i].cls)
              && forall other: nat :: other < 3 && ClassInPartai(other, team.players[i].cls) ==> other == idx
  {
    var cls := team.players[i].cls;
    assert PlayerOk(team.players[i]);
    assert cls in PARTAI_CLASSES[0] || cls in PARTAI_CLASSES[1] || cls in PARTAI_CLASSES[2];
    assert ClassInPartai(0, cls) || ClassInPartai(1, cls) || ClassInPartai(2, cls);
    assert cls[0] == 'C' <==> ClassInPartai(0, cls);
    assert cls[0] == 'A' <==> ClassInPartai(1, cls);
    assert cls[0] == 'B' <==> ClassInPartai(2, cls);
  }
}
