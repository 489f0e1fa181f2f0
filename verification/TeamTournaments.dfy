/** Team tournaments: ValidateTeamTournament, and the choice of players for each partai. The
    normalisation of player names is a parameter. */
module TeamTournaments {
  import opened Options
  import opened Text
  import opened Sorting

  datatype TeamPlayer = TeamPlayer(name: string, cls: string)

  datatype TeamInfo = TeamInfo(id: string, name: string, players: seq<TeamPlayer>)

  datatype Partai = Partai(scoreA: Option<int>, scoreB: Option<int>)

  datatype TeamMatch = TeamMatch(id: string, phase: string, teamA: string, teamB: string, partai: seq<Partai>)

  datatype Tournament = Tournament(name: string, date: string, teams: seq<TeamInfo>, matches: seq<TeamMatch>)

  const CLASSES := ["A+", "A", "B+", "B", "C+", "C"]

  // ---------------------------------------------------------------- pairKey

  const NUL: string := "\0"

  function PairKey(a: string, b: string): string { if Less(a, b) then a + NUL + b else b + NUL + a }

  predicate NoNul(s: string) { '\0' !in s }

  lemma PairKeyIsSymmetric(a: string, b: string)
    ensures PairKey(a, b) == PairKey(b, a)
  {
    LessIsTotal(a, b);
    if Less(a, b) && Less(b, a) {
      LessIsTransitive(a, b, a);
      LessIsIrreflexive(a);
    }
  }

  lemma {:induction false} SplitAtNul(a: string, b: string, c: string, d: string)
    requires a + NUL + b == c + NUL + d && NoNul(a) && NoNul(c)
    ensures a == c && b == d
  {
    var s, t := a + NUL + b, c + NUL + d;
    if |a| == 0 || |c| == 0 {
      assert s[0] == t[0];
      assert |a| == 0 && |c| == 0;
      assert s[1..] == b && t[1..] == d;
    } else {
      assert s[0] == a[0] && t[0] == c[0];
      assert s[1..] == a[1..] + NUL + b && t[1..] == c[1..] + NUL + d;
      SplitAtNul(a[1..], b, c[1..], d);
      assert a == [a[0]] + a[1..] && c == [c[0]] + c[1..];
    }
  }

  /** Without NUL in the ids, the key stands for the unordered pair. */
  lemma PairKeyIsInjective(a: string, b: string, c: string, d: string)
    requires NoNul(a) && NoNul(b) && NoNul(c) && NoNul(d) && PairKey(a, b) == PairKey(c, d)
    ensures {a, b} == {c, d}
  {
    var (x, y) := if Less(a, b) then (a, b) else (b, a);
    var (z, w) := if Less(c, d) then (c, d) else (d, c);
    SplitAtNul(x, y, z, w);
  }

  /** With NUL it does not: different pairs can share a key. */
  lemma PairKeyCollidesOnNul()
    ensures PairKey("a", "b\0c") == PairKey("a\0b", "c") && {"a", "b\0c"} != {"a\0b", "c"}
  {
    assert Less("a", "b\0c") && Less("a\0b", "c") by {
      assert "a"[0] < "b\0c"[0] && "a\0b"[0] < "c"[0];
    }
    assert "a" + NUL + "b\0c" == "a\0b" + NUL + "c";
    assert |"a"| == 1 && |"a\0b"| == 3 && |"c"| == 1 && "a"[0] != "c"[0];
  }

  // ---------------------------------------------------------------- what validation demands

  function Classes(players: seq<TeamPlayer>): seq<string> { seq(|players|, i requires 0 <= i < |players| => players[i].cls) }

  function Names(players: seq<TeamPlayer>, norm: string -> string): seq<string> {
    seq(|players|, i requires 0 <= i < |players| => norm(players[i].name))
  }

  predicate PlayerOk(p: TeamPlayer) { Trim(p.name) != "" && p.cls in CLASSES }

  predicate PlayersOk(players: seq<TeamPlayer>) {
    (forall i :: 0 <= i < |players| ==> PlayerOk(players[i])) && Distinct(Classes(players))
  }

  predicate TeamOk(t: TeamInfo) { Trim(t.id) != "" && Trim(t.name) != "" && |t.players| == 6 && PlayersOk(t.players) }

  /** All players of all teams, in order. */
  function Roster(teams: seq<TeamInfo>): seq<TeamPlayer> {
    if |teams| == 0 then [] else Roster(teams[..|teams| - 1]) + teams[|teams| - 1].players
  }

  function Ids(teams: seq<TeamInfo>): seq<string> { seq(|teams|, i requires 0 <= i < |teams| => teams[i].id) }

  predicate TeamsOk(teams: seq<TeamInfo>, norm: string -> string) {
    && (forall i :: 0 <= i < |teams| ==> TeamOk(teams[i])) && Distinct(Ids(teams)) && Distinct(Names(Roster(teams), norm))
  }

  function Target(phase: string): int { if phase == "final" then 42 else 30 }

  predicate PartaiOk(p: Partai, phase: string) {
    || (p.scoreA.None? && p.scoreB.None?)
    || (p.scoreA.Some? && p.scoreB.Some?
        && ((p.scoreA.value == Target(phase) && 0 <= p.scoreB.value < Target(phase))
            || (p.scoreB.value == Target(phase) && 0 <= p.scoreA.value < Target(phase))))
  }

  function MatchIds(matches: seq<TeamMatch>): seq<string> { seq(|matches|, i requires 0 <= i < |matches| => matches[i].id) }

  function PairKeys(groups: seq<TeamMatch>): seq<string> {
    seq(|groups|, i requires 0 <= i < |groups| => PairKey(groups[i].teamA, groups[i].teamB))
  }

  predicate MatchOk(m: TeamMatch, ids: seq<string>) {
    && Trim(m.id) != "" && (m.phase == "group" || m.phase == "final")
    && m.teamA != "" && m.teamB != "" && m.teamA != m.teamB && m.teamA in ids && m.teamB in ids
    && |m.partai| == 3 && forall i :: 0 <= i < |m.partai| ==> PartaiOk(m.partai[i], m.phase)
  }

  predicate IsGroup(m: TeamMatch) { m.phase == "group" }

  function Groups(matches: seq<TeamMatch>): seq<TeamMatch> {
    if |matches| == 0 then []
    else Groups(matches[..|matches| - 1]) + if IsGroup(matches[|matches| - 1]) then [matches[|matches| - 1]] else []
  }

  function Plays(m: TeamMatch, id: string): nat { (if m.teamA == id then 1 else 0) + if m.teamB == id then 1 else 0 }

  function Appearances(groups: seq<TeamMatch>, id: string): nat {
    if |groups| == 0 then 0 else Appearances(groups[..|groups| - 1], id) + Plays(groups[|groups| - 1], id)
  }

  predicate EachMatchOk(matches: seq<TeamMatch>, ids: seq<string>) {
    forall i :: 0 <= i < |matches| ==> MatchOk(matches[i], ids)
  }

  predicate MatchesOk(matches: seq<TeamMatch>, ids: seq<string>) {
    EachMatchOk(matches, ids) && Distinct(MatchIds(matches)) && Distinct(PairKeys(Groups(matches)))
  }

  predicate EachPlaysThree(teams: seq<TeamInfo>, groups: seq<TeamMatch>) {
    forall i :: 0 <= i < |teams| ==> Appearances(groups, teams[i].id) == 3
  }

  predicate CountsOk(t: Tournament) {
    var groups := Groups(t.matches);
    && |t.matches| - |groups| <= 1 && (|groups| == 0 || |groups| == 9)
    && (|groups| == 9 ==> EachPlaysThree(t.teams, groups))
  }

  predicate ValidTournament(t: Tournament, norm: string -> string) {
    && Trim(t.name) != "" && t.date != "" && |t.teams| == 6
    && TeamsOk(t.teams, norm) && MatchesOk(t.matches, Ids(t.teams)) && CountsOk(t)
  }

  // ---------------------------------------------------------------- the checks, as the program runs them

  method CheckPartai(p: Partai, phase: string) returns (ok: bool)
    ensures ok <==> PartaiOk(p, phase)
  {
    if p.scoreA.None? && p.scoreB.None? { return true; }
    if p.scoreA.None? || p.scoreB.None? { return false; }
    var a, b := p.scoreA.value, p.scoreB.value;
    if a == b { return false; }
    var target := 30;
    if phase == "final" { target := 42; }
    var winner, loser := a, b;
    if b > a { winner, loser := b, a; }
    return !(winner != target || loser > target - 1 || loser < 0 || winner < 0);
  }

  lemma DistinctSnoc(s: seq<string>, x: string)
    ensures Distinct(s + [x]) <==> Distinct(s) && x !in s
  {
    var longer := s + [x];
    if Distinct(longer) {
      forall i | 0 <= i < |s| ensures s[i] != x { assert longer[i] == s[i] && longer[|s|] == x; }
      forall i, j | 0 <= i < j < |s| ensures s[i] != s[j] { assert longer[i] == s[i] && longer[j] == s[j]; }
    }
  }

  lemma DistinctOfPrefix(a: seq<string>, b: seq<string>)
    requires a <= b && Distinct(b)
    ensures Distinct(a)
  {
  }

  /** Names and classes one player at a time. */
  lemma PlayersSnoc(players: seq<TeamPlayer>, p: TeamPlayer, norm: string -> string)
    ensures Names(players + [p], norm) == Names(players, norm) + [norm(p.name)]
    ensures PlayersOk(players + [p]) <==> PlayersOk(players) && PlayerOk(p) && p.cls !in Classes(players)
    ensures Classes(players + [p]) == Classes(players) + [p.cls]
  {
    assert Classes(players + [p]) == Classes(players) + [p.cls];
    DistinctSnoc(Classes(players), p.cls);
    EachPlayerOkSnoc(players, p);
  }

  lemma EachPlayerOkSnoc(players: seq<TeamPlayer>, p: TeamPlayer)
    ensures var longer := players + [p];
      (forall i :: 0 <= i < |longer| ==> PlayerOk(longer[i])) <==> (forall i :: 0 <= i < |players| ==> PlayerOk(players[i])) && PlayerOk(p)
  {
    var longer := players + [p];
    if forall i :: 0 <= i < |longer| ==> PlayerOk(longer[i]) {
      assert longer[|players|] == p;
      forall i | 0 <= i < |players| ensures PlayerOk(players[i]) { assert longer[i] == players[i]; }
    }
  }

  lemma PlayersOkOfPrefix(players: seq<TeamPlayer>, n: nat)
    requires n <= |players| && PlayersOk(players)
    ensures PlayersOk(players[..n])
  {
    assert Classes(players[..n]) <= Classes(players);
    DistinctOfPrefix(Classes(players[..n]), Classes(players));
  }

  lemma NamesOfPrefix(a: seq<TeamPlayer>, b: seq<TeamPlayer>, norm: string -> string)
    requires a <= b && Distinct(Names(b, norm))
    ensures Distinct(Names(a, norm))
  {
    assert Names(a, norm) <= Names(b, norm);
    DistinctOfPrefix(Names(a, norm), Names(b, norm));
  }

  ghost predicate Holds(seen: set<string>, list: seq<string>) { forall x :: x in seen <==> x in list }

  /** One team's players against the names already taken. */
  method CheckPlayers(players: seq<TeamPlayer>, ghost before: seq<TeamPlayer>, names: set<string>, norm: string -> string)
    returns (ok: bool, taken: set<string>)
    requires Distinct(Names(before, norm)) && Holds(names, Names(before, norm))
    ensures ok <==> PlayersOk(players) && Distinct(Names(before + players, norm))
    ensures ok ==> Holds(taken, Names(before + players, norm))
  {
    var classes: set<string> := {};
    taken := names;
    assert before + players[..0] == before;
    for k := 0 to |players|
      invariant PlayersOk(players[..k]) && Holds(classes, Classes(players[..k]))
      invariant Distinct(Names(before + players[..k], norm)) && Holds(taken, Names(before + players[..k], norm))
    {
      var p := players[k];
      assert players[..k + 1] == players[..k] + [p];
      PlayersSnoc(players[..k], p, norm);
      if PlayersOk(players) { PlayersOkOfPrefix(players, k + 1); }
      if Trim(p.name) == "" || p.cls !in CLASSES || p.cls in classes { return false, taken; }
      classes := classes + {p.cls};
      assert before + players[..k + 1] == (before + players[..k]) + [p];
      PlayersSnoc(before + players[..k], p, norm);
      DistinctSnoc(Names(before + players[..k], norm), norm(p.name));
      if Distinct(Names(before + players, norm)) { NamesOfPrefix(before + players[..k + 1], before + players, norm); }
      if norm(p.name) in taken { return false, taken; }
      taken := taken + {norm(p.name)};
    }
    assert players[..|players|] == players;
    ok := true;
  }

  lemma {:induction false} RosterOfPrefix(teams: seq<TeamInfo>, n: nat)
    requires n <= |teams|
    ensures Roster(teams[..n]) <= Roster(teams)
    decreases |teams|
  {
    if n < |teams| {
      RosterOfPrefix(teams[..|teams| - 1], n);
      assert teams[..|teams| - 1][..n] == teams[..n];
    } else {
      assert teams[..n] == teams;
    }
  }

  lemma TeamsOkOfPrefix(teams: seq<TeamInfo>, n: nat, norm: string -> string)
    requires n <= |teams| && TeamsOk(teams, norm)
    ensures TeamsOk(teams[..n], norm)
  {
    RosterOfPrefix(teams, n);
    NamesOfPrefix(Roster(teams[..n]), Roster(teams), norm);
    assert Ids(teams[..n]) <= Ids(teams);
    DistinctOfPrefix(Ids(teams[..n]), Ids(teams));
  }

  lemma TeamsOkSnoc(teams: seq<TeamInfo>, t: TeamInfo, norm: string -> string)
    requires TeamsOk(teams, norm)
    ensures TeamsOk(teams + [t], norm)
            <==> TeamOk(t) && t.id !in Ids(teams) && Distinct(Names(Roster(teams) + t.players, norm))
    ensures Roster(teams + [t]) == Roster(teams) + t.players && Ids(teams + [t]) == Ids(teams) + [t.id]
  {
    var longer := teams + [t];
    assert longer[..|teams|] == teams && longer[|teams|] == t;
    assert Ids(longer) == Ids(teams) + [t.id];
    DistinctSnoc(Ids(teams), t.id);
  }

  method CheckTeam(t: TeamInfo, ids: set<string>, ghost before: seq<TeamPlayer>, names: set<string>, norm: string -> string)
    returns (ok: bool, taken: set<string>)
    requires Distinct(Names(before, norm)) && Holds(names, Names(before, norm))
    ensures ok <==> TeamOk(t) && t.id !in ids && Distinct(Names(before + t.players, norm))
    ensures ok ==> Holds(taken, Names(before + t.players, norm))
  {
    if Trim(t.id) == "" || t.id in ids { return false, names; }
    if Trim(t.name) == "" || |t.players| != 6 { return false, names; }
    ok, taken := CheckPlayers(t.players, before, names, norm);
  }

  method CheckTeams(teams: seq<TeamInfo>, norm: string -> string) returns (ok: bool, ids: set<string>)
    ensures ok <==> TeamsOk(teams, norm)
    ensures ok ==> Holds(ids, Ids(teams))
  {
    ids := {};
    var names: set<string> := {};
    for k := 0 to |teams|
      invariant TeamsOk(teams[..k], norm) && Holds(ids, Ids(teams[..k])) && Holds(names, Names(Roster(teams[..k]), norm))
    {
      var t := teams[k];
      assert teams[..k + 1] == teams[..k] + [t];
      TeamsOkSnoc(teams[..k], t, norm);
      if TeamsOk(teams, norm) { TeamsOkOfPrefix(teams, k + 1, norm); }
      var fine;
      fine, names := CheckTeam(t, ids, Roster(teams[..k]), names, norm);
      if !fine { return false, ids; }
      ids := ids + {t.id};
    }
    assert teams[..|teams|] == teams;
    ok := true;
  }

  method CheckMatch(m: TeamMatch, ids: set<string>, ghost list: seq<string>) returns (ok: bool)
    requires Holds(ids, list)
    ensures ok <==> MatchOk(m, list)
  {
    if Trim(m.id) == "" || (m.phase != "group" && m.phase != "final") { return false; }
    if m.teamA == "" || m.teamB == "" || m.teamA == m.teamB { return false; }
    if m.teamA !in ids || m.teamB !in ids || |m.partai| != 3 { return false; }
    for i := 0 to |m.partai|
      invariant forall k :: 0 <= k < i ==> PartaiOk(m.partai[k], m.phase)
    {
      var fine := CheckPartai(m.partai[i], m.phase);
      if !fine { return false; }
    }
    return true;
  }

  lemma {:induction false} GroupsOfPrefix(matches: seq<TeamMatch>, n: nat)
    requires n <= |matches|
    ensures Groups(matches[..n]) <= Groups(matches)
    decreases |matches|
  {
    if n < |matches| {
      GroupsOfPrefix(matches[..|matches| - 1], n);
      assert matches[..|matches| - 1][..n] == matches[..n];
    } else {
      assert matches[..n] == matches;
    }
  }

  lemma MatchesOkOfPrefix(matches: seq<TeamMatch>, n: nat, ids: seq<string>)
    requires n <= |matches| && MatchesOk(matches, ids)
    ensures MatchesOk(matches[..n], ids)
  {
    GroupsOfPrefix(matches, n);
    assert PairKeys(Groups(matches[..n])) <= PairKeys(Groups(matches));
    DistinctOfPrefix(PairKeys(Groups(matches[..n])), PairKeys(Groups(matches)));
    assert MatchIds(matches[..n]) <= MatchIds(matches);
    DistinctOfPrefix(MatchIds(matches[..n]), MatchIds(matches));
  }

  lemma PairKeysSnoc(groups: seq<TeamMatch>, m: TeamMatch)
    ensures PairKeys(groups + [m]) == PairKeys(groups) + [PairKey(m.teamA, m.teamB)]
    ensures Distinct(PairKeys(groups + [m])) <==> Distinct(PairKeys(groups)) && PairKey(m.teamA, m.teamB) !in PairKeys(groups)
  {
    assert PairKeys(groups + [m]) == PairKeys(groups) + [PairKey(m.teamA, m.teamB)];
    DistinctSnoc(PairKeys(groups), PairKey(m.teamA, m.teamB));
  }

  lemma EachMatchSnoc(matches: seq<TeamMatch>, m: TeamMatch, ids: seq<string>)
    requires EachMatchOk(matches, ids)
    ensures EachMatchOk(matches + [m], ids) <==> MatchOk(m, ids)
  {
    assert (matches + [m])[|matches|] == m;
  }

  lemma MatchesOkSnoc(matches: seq<TeamMatch>, m: TeamMatch, ids: seq<string>)
    requires MatchesOk(matches, ids)
    ensures MatchesOk(matches + [m], ids) <==>
      MatchOk(m, ids) && m.id !in MatchIds(matches) && (IsGroup(m) ==> PairKey(m.teamA, m.teamB) !in PairKeys(Groups(matches)))
    ensures Groups(matches + [m]) == Groups(matches) + if IsGroup(m) then [m] else []
    ensures MatchIds(matches + [m]) == MatchIds(matches) + [m.id]
  {
    assert (matches + [m])[..|matches|] == matches;
    assert Groups(matches + [m]) == Groups(matches) + if IsGroup(m) then [m] else [];
    if !IsGroup(m) { assert Groups(matches + [m]) == Groups(matches); }
    EachMatchSnoc(matches, m, ids);
    PairKeysSnoc(Groups(matches), m);
    assert MatchIds(matches + [m]) == MatchIds(matches) + [m.id];
    DistinctSnoc(MatchIds(matches), m.id);
  }

  ghost predicate Tallied(appear: map<string, nat>, groups: seq<TeamMatch>) {
    forall id :: CountIn(appear, id) == Appearances(groups, id)
  }

  function Tally(appear: map<string, nat>, id: string): map<string, nat> { appear[id := CountIn(appear, id) + 1] }

  lemma TallySnoc(appear: map<string, nat>, groups: seq<TeamMatch>, m: TeamMatch)
    requires Tallied(appear, groups)
    ensures Tallied(Tally(Tally(appear, m.teamA), m.teamB), groups + [m])
  {
    forall id ensures CountIn(Tally(Tally(appear, m.teamA), m.teamB), id) == Appearances(groups + [m], id) {
      assert (groups + [m])[..|groups|] == groups;
      assert CountIn(appear, id) == Appearances(groups, id);
    }
  }

  function CountIn(appear: map<string, nat>, id: string): nat { if id in appear then appear[id] else 0 }

  /** The sets and counts the loop keeps for the matches it has passed. */
  ghost predicate Kept(done: seq<TeamMatch>, seen: set<string>, paired: set<string>, appear: map<string, nat>, finals: nat) {
    && Holds(seen, MatchIds(done)) && Holds(paired, PairKeys(Groups(done)))
    && finals == |done| - |Groups(done)| && Tallied(appear, Groups(done))
  }

  lemma GroupMatchKept(done: seq<TeamMatch>, m: TeamMatch, ids: seq<string>, seen: set<string>, paired: set<string>, appear: map<string, nat>, finals: nat)
    requires MatchesOk(done, ids) && Kept(done, seen, paired, appear, finals) && IsGroup(m)
    ensures Kept(done + [m], seen + {m.id}, paired + {PairKey(m.teamA, m.teamB)}, Tally(Tally(appear, m.teamA), m.teamB), finals)
  {
    MatchesOkSnoc(done, m, ids);
    PairKeysSnoc(Groups(done), m);
    TallySnoc(appear, Groups(done), m);
  }

  lemma FinalMatchKept(done: seq<TeamMatch>, m: TeamMatch, ids: seq<string>, seen: set<string>, paired: set<string>, appear: map<string, nat>, finals: nat)
    requires MatchesOk(done, ids) && Kept(done, seen, paired, appear, finals) && !IsGroup(m)
    ensures Kept(done + [m], seen + {m.id}, paired, appear, finals + 1)
  {
    MatchesOkSnoc(done, m, ids);
    assert Groups(done + [m]) == Groups(done);
  }

  method CheckMatches(matches: seq<TeamMatch>, ids: set<string>, ghost list: seq<string>)
    returns (ok: bool, appear: map<string, nat>, finals: nat)
    requires Holds(ids, list)
    ensures ok <==> MatchesOk(matches, list)
    ensures ok ==> finals == |matches| - |Groups(matches)| && Tallied(appear, Groups(matches))
  {
    var seen: set<string>, paired: set<string> := {}, {};
    appear, finals := map[], 0;
    for k := 0 to |matches|
      invariant MatchesOk(matches[..k], list) && Kept(matches[..k], seen, paired, appear, finals)
    {
      var m := matches[k];
      ghost var done := matches[..k];
      assert matches[..k + 1] == done + [m];
      MatchesOkSnoc(done, m, list);
      if MatchesOk(matches, list) { MatchesOkOfPrefix(matches, k + 1, list); }
      var fine := CheckMatch(m, ids, list);
      if !fine || m.id in seen { return false, appear, finals; }
      if m.phase == "group" {
        GroupMatchKept(done, m, list, seen, paired, appear, finals);
        appear := Tally(appear, m.teamA);
        appear := Tally(appear, m.teamB);
        var key := PairKey(m.teamA, m.teamB);
        if key in paired { return false, appear, finals; }
        paired := paired + {key};
      } else {
        FinalMatchKept(done, m, list, seen, paired, appear, finals);
        finals := finals + 1;
      }
      seen := seen + {m.id};
    }
    assert matches[..|matches|] == matches;
    ok := true;
  }

  method CheckAppearances(teams: seq<TeamInfo>, appear: map<string, nat>, ghost groups: seq<TeamMatch>) returns (ok: bool)
    requires Tallied(appear, groups)
    ensures ok <==> EachPlaysThree(teams, groups)
  {
    for i := 0 to |teams|
      invariant EachPlaysThree(teams[..i], groups)
    {
      assert CountIn(appear, teams[i].id) == Appearances(groups, teams[i].id);
      if CountIn(appear, teams[i].id) != 3 { return false; }
    }
    assert teams[..|teams|] == teams;
    return true;
  }

  method ValidateTeamTournament(t: Tournament, norm: string -> string) returns (ok: bool)
    ensures ok <==> ValidTournament(t, norm)
  {
    if Trim(t.name) == "" || t.date == "" || |t.teams| != 6 { return false; }
    var fine, ids := CheckTeams(t.teams, norm);
    if !fine { return false; }
    var appear, finals;
    fine, appear, finals := CheckMatches(t.matches, ids, Ids(t.teams));
    if !fine || finals > 1 { return false; }
    var groups := |t.matches| - finals;
    if groups != 0 && groups != 9 { return false; }
    if groups == 9 {
      fine := CheckAppearances(t.teams, appear, Groups(t.matches));
      return fine;
    }
    return true;
  }
}
