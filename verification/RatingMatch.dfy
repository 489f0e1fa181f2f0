/** Raw matches as the extractors deliver them, their identity, and the fingerprint of a source.
    Digests are represented by the canonical text they are taken over. */
module RatingMatch {
  import opened Sorting
  import Text

  datatype Team = A | B

  datatype RawPlayer = RawPlayer(name: string, placeholder: bool, team: Team, position: int, absent: bool)

  datatype RawMatch = RawMatch(
    stableGameId: string, date: int, kind: string, sourceId: string, gameOrder: string,
    scoreA: int, scoreB: int, target: int, phase: string, players: seq<RawPlayer>)

  function Select(players: seq<RawPlayer>, keep: RawPlayer -> bool): seq<RawPlayer> {
    if |players| == 0 then []
    else
      var front := Select(players[..|players| - 1], keep);
      if keep(players[|players| - 1]) then front + [players[|players| - 1]] else front
  }

  /** Void: some player of the game was absent. */
  predicate Void(m: RawMatch) { exists p <- m.players :: p.absent }

  method IsVoid(m: RawMatch) returns (void: bool)
    ensures void <==> Void(m)
  {
    for i := 0 to |m.players|
      invariant forall p <- m.players[..i] :: !p.absent
    {
      if m.players[i].absent { return true; }
    }
    return false;
  }

  function Present(team: Team): RawPlayer -> bool {
    (p: RawPlayer) => p.team == team && !p.placeholder && !p.absent
  }

  function Real(team: Team): RawPlayer -> bool {
    (p: RawPlayer) => p.team == team && !p.placeholder
  }

  function Unknown(team: Team): RawPlayer -> bool {
    (p: RawPlayer) => p.team == team && p.placeholder
  }

  /** The three loops PlayersByTeam, PlayersByTeamInclAbsent and PlaceholdersByTeam. */
  method PlayersByTeam(m: RawMatch, team: Team) returns (out: seq<RawPlayer>)
    ensures out == Select(m.players, Present(team))
  {
    out := [];
    for i := 0 to |m.players|
      invariant out == Select(m.players[..i], Present(team))
    {
      assert m.players[..i + 1][..i] == m.players[..i];
      var p := m.players[i];
      if p.team == team && !p.placeholder && !p.absent { out := out + [p]; }
    }
    assert m.players[..|m.players|] == m.players;
  }

  method PlayersByTeamInclAbsent(m: RawMatch, team: Team) returns (out: seq<RawPlayer>)
    ensures out == Select(m.players, Real(team))
  {
    out := [];
    for i := 0 to |m.players|
      invariant out == Select(m.players[..i], Real(team))
    {
      assert m.players[..i + 1][..i] == m.players[..i];
      var p := m.players[i];
      if p.team == team && !p.placeholder { out := out + [p]; }
    }
    assert m.players[..|m.players|] == m.players;
  }

  method PlaceholdersByTeam(m: RawMatch, team: Team) returns (out: seq<RawPlayer>)
    ensures out == Select(m.players, Unknown(team))
  {
    out := [];
    for i := 0 to |m.players|
      invariant out == Select(m.players[..i], Unknown(team))
    {
      assert m.players[..i + 1][..i] == m.players[..i];
      var p := m.players[i];
      if p.team == team && p.placeholder { out := out + [p]; }
    }
    assert m.players[..|m.players|] == m.players;
  }

  lemma {:induction false} SelectMembers(players: seq<RawPlayer>, keep: RawPlayer -> bool)
    ensures forall p :: p in Select(players, keep) <==> p in players && keep(p)
  {
    if |players| > 0 {
      SelectMembers(players[..|players| - 1], keep);
      assert players == players[..|players| - 1] + [players[|players| - 1]];
    }
  }

  // ---------------------------------------------------------------- identity of a match

  function Names(players: seq<RawPlayer>, team: Team): seq<string> {
    if |players| == 0 then []
    else
      var front := Names(players[..|players| - 1], team);
      var last := players[|players| - 1];
      if last.team == team then front + [last.name] else front
  }

  function Join(names: seq<string>): string {
    if |names| == 0 then "" else if |names| == 1 then names[0] else names[0] + "," + Join(names[1..])
  }

  function TeamNames(m: RawMatch, team: Team): seq<string> {
    Sort(Names(m.players, team), Text.Less)
  }

  /** The parts hashed by MatchKey. */
  datatype Key = Key(
    kind: string, sourceId: string, stableGameId: string, teamA: string, teamB: string,
    scoreA: int, scoreB: int, target: int, phase: string, gameOrder: string)

  function MatchKey(m: RawMatch): Key {
    Key(m.kind, m.sourceId, m.stableGameId, Join(TeamNames(m, A)), Join(TeamNames(m, B)),
        m.scoreA, m.scoreB, m.target, m.phase, m.gameOrder)
  }

  // ---------------------------------------------------------------- identity of a source

  datatype Canonical = Canonical(
    stableGameId: string, gameOrder: string, scoreA: int, scoreB: int, target: int, phase: string,
    teamA: seq<string>, teamB: seq<string>)

  function CanonicalOf(m: RawMatch): Canonical {
    Canonical(m.stableGameId, m.gameOrder, m.scoreA, m.scoreB, m.target, m.phase, TeamNames(m, A), TeamNames(m, B))
  }

  function Canonicals(matches: seq<RawMatch>): (r: seq<Canonical>)
    ensures |r| == |matches|
  {
    seq(|matches|, i requires 0 <= i < |matches| => CanonicalOf(matches[i]))
  }

  predicate CanonicalBefore(a: Canonical, b: Canonical) { Text.Less(a.gameOrder, b.gameOrder) }

  predicate MatchBefore(a: RawMatch, b: RawMatch) { Text.Less(a.gameOrder, b.gameOrder) }

  /** The text hashed by SourceFingerprint. */
  function SourceFingerprint(matches: seq<RawMatch>): seq<Canonical> {
    Sort(Canonicals(matches), CanonicalBefore)
  }

  function SortMatchesByOrder(matches: seq<RawMatch>): seq<RawMatch> {
    Sort(matches, MatchBefore)
  }

  lemma OrdersAreStrictWeak()
    ensures StrictWeak(CanonicalBefore) && StrictWeak(MatchBefore) && StrictWeak(Text.Less)
  {
    Text.LessIsStrictWeak();
  }

  predicate DistinctOrders(matches: seq<RawMatch>) {
    forall i, j :: 0 <= i < j < |matches| ==> matches[i].gameOrder != matches[j].gameOrder
  }

  lemma DistinctOrdersDoNotTie(matches: seq<RawMatch>)
    requires DistinctOrders(matches)
    ensures NoTies(matches, MatchBefore) && NoTies(Canonicals(matches), CanonicalBefore)
  {
    forall i, j | 0 <= i < j < |matches|
      ensures Text.Less(matches[i].gameOrder, matches[j].gameOrder) || Text.Less(matches[j].gameOrder, matches[i].gameOrder)
    {
      Text.LessIsTotal(matches[i].gameOrder, matches[j].gameOrder);
    }
  }

  lemma CanonicalsWithout(s: seq<RawMatch>, i: nat)
    requires i < |s|
    ensures multiset(Canonicals(s)) == multiset(Canonicals(s[..i] + s[i + 1..])) + multiset{CanonicalOf(s[i])}
  {
    var x, y := Canonicals(s[..i]), Canonicals(s[i + 1..]);
    assert Canonicals(s) == x + [CanonicalOf(s[i])] + y;
    assert Canonicals(s[..i] + s[i + 1..]) == x + y;
  }

  lemma CanonicalsOfTail(a: seq<RawMatch>)
    requires |a| > 0
    ensures multiset(Canonicals(a)) == multiset(Canonicals(a[1..])) + multiset{CanonicalOf(a[0])}
  {
    assert Canonicals(a) == [CanonicalOf(a[0])] + Canonicals(a[1..]);
  }

  /** A permutation of a without its first match. */
  lemma WithoutFirst(a: seq<RawMatch>, b: seq<RawMatch>) returns (rest: seq<RawMatch>)
    requires |a| > 0 && multiset(a) == multiset(b)
    ensures multiset(a[1..]) == multiset(rest)
    ensures multiset(Canonicals(b)) == multiset(Canonicals(rest)) + multiset{CanonicalOf(a[0])}
  {
    assert a[0] in multiset(a);
    var i := IndexIn(b, a[0]);
    TakeOut(a, b, i);
    CanonicalsWithout(b, i);
    rest := b[..i] + b[i + 1..];
  }

  lemma {:induction false} CanonicalsOfPermutation(a: seq<RawMatch>, b: seq<RawMatch>)
    requires multiset(a) == multiset(b)
    ensures multiset(Canonicals(a)) == multiset(Canonicals(b))
  {
    if |a| == 0 {
      SameMultisetSameSize(a, b);
    } else {
      var rest := WithoutFirst(a, b);
      CanonicalsOfPermutation(a[1..], rest);
      CanonicalsOfTail(a);
    }
  }

  /** An unchanged source has one fingerprint, in whatever order its games were listed. */
  lemma FingerprintIgnoresListOrder(a: seq<RawMatch>, b: seq<RawMatch>)
    requires DistinctOrders(a) && multiset(a) == multiset(b)
    ensures SourceFingerprint(a) == SourceFingerprint(b)
  {
    OrdersAreStrictWeak();
    DistinctOrdersDoNotTie(a);
    CanonicalsOfPermutation(a, b);
    SortForgetsInputOrder(Canonicals(a), Canonicals(b), CanonicalBefore);
  }
}
