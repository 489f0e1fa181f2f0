/** The write operations as the program runs them, one transaction each, on the stored sessions. */
module SessionStore {
  import opened Options
  import opened GameKeys
  import opened Text
  import opened Sorting
  import opened Snapshots
  import opened SessionTables
  import opened SnapshotRoundTrip
  import opened Swaps
  import opened SessionSteps

  // ---------------------------------------------------------------- small loops the operations share

  method CountScoredGames(s: Snapshot) returns (count: nat)
    requires NonNegative(s.schedule)
    ensures count == CountScored(s.schedule, s.gameScores)
  {
    count := 0;
    for i := 0 to |s.schedule|
      invariant count == CountScored(s.schedule[..i], s.gameScores)
    {
      assert s.schedule[..i + 1][..i] == s.schedule[..i];
      var key := KeyOf(s.schedule[i]);
      if key in s.gameScores { count := count + 1; }
    }
    assert s.schedule[..|s.schedule|] == s.schedule;
  }

  method AllGamesScored(games: seq<GameRow>) returns (all: bool)
    ensures all <==> AllScored(games)
  {
    var remaining := 0;
    for i := 0 to |games|
      invariant remaining >= 0 && (remaining == 0 <==> forall k :: 0 <= k < i ==> games[k].scoreA.Some?)
    {
      if games[i].scoreA.None? { remaining := remaining + 1; }
    }
    return remaining == 0;
  }

  lemma {:induction false} KeptOfPrefix(refs: seq<string>, i: nat)
    requires i <= |refs|
    ensures Kept(refs[..i]) <= Kept(refs)
    decreases |refs|
  {
    if i < |refs| {
      KeptOfPrefix(refs[..|refs| - 1], i);
      assert refs[..|refs| - 1][..i] == refs[..i];
    } else {
      assert refs[..i] == refs;
    }
  }

  /** Trims, drops blanks and refuses duplicates. */
  method CleanRefs(refs: seq<string>) returns (clean: Option<seq<string>>)
    ensures clean == if Distinct(Kept(refs)) then Some(Kept(refs)) else None
  {
    var kept: seq<string>, seen: set<string> := [], {};
    for i := 0 to |refs|
      invariant kept == Kept(refs[..i]) && Distinct(kept) && forall r :: r in seen <==> r in kept
    {
      assert refs[..i + 1][..i] == refs[..i];
      KeptOfPrefix(refs, i + 1);
      var ref := Trim(refs[i]);
      if ref != "" {
        if ref in seen {
          var k :| 0 <= k < |kept| && kept[k] == ref;
          assert Kept(refs)[k] == Kept(refs[..i + 1])[k] && Kept(refs)[|kept|] == Kept(refs[..i + 1])[|kept|];
          return None;
        }
        seen := seen + {ref};
        kept := kept + [ref];
      }
    }
    assert refs[..|refs|] == refs;
    return Some(kept);
  }

  function Count(m: map<string, nat>, s: string): nat { if s in m then m[s] else 0 }

  /** The map holds these many of each string. */
  ghost predicate Counts(m: map<string, nat>, strings: multiset<string>) { forall s :: Count(m, s) == strings[s] }

  method CountStrings(a: seq<string>) returns (m: map<string, nat>)
    ensures Counts(m, multiset(a))
  {
    m := map[];
    for i := 0 to |a|
      invariant Counts(m, multiset(a[..i]))
    {
      assert a[..i + 1] == a[..i] + [a[i]];
      assert Count(m, a[i]) == multiset(a[..i])[a[i]];
      m := m[a[i] := Count(m, a[i]) + 1];
    }
    assert a[..|a|] == a;
  }

  lemma TakeOne(m: map<string, nat>, all: multiset<string>, taken: multiset<string>, s: string)
    requires taken <= all && Counts(m, all - taken) && Count(m, s) > 0
    ensures taken + multiset{s} <= all && Counts(m[s := m[s] - 1], all - (taken + multiset{s}))
  {
    assert Count(m, s) == (all - taken)[s];
    forall t ensures Count(m[s := m[s] - 1], t) == (all - (taken + multiset{s}))[t] {
      assert Count(m, t) == (all - taken)[t];
    }
  }

  method EqualStringSets(a: seq<string>, b: seq<string>) returns (equal: bool)
    ensures equal <==> multiset(a) == multiset(b)
  {
    if |a| != |b| {
      assert |multiset(a)| == |a| && |multiset(b)| == |b|;
      return false;
    }
    var left := CountStrings(a);
    for i := 0 to |b|
      invariant multiset(b[..i]) <= multiset(a) && Counts(left, multiset(a) - multiset(b[..i]))
    {
      assert b[..i + 1] == b[..i] + [b[i]];
      if b[i] !in left || left[b[i]] == 0 {
        assert Count(left, b[i]) == (multiset(a) - multiset(b[..i]))[b[i]];
        assert b == b[..i + 1] + b[i + 1..];
        assert multiset(b)[b[i]] > multiset(a)[b[i]];
        return false;
      }
      TakeOne(left, multiset(a), multiset(b[..i]), b[i]);
      left := left[b[i] := left[b[i]] - 1];
    }
    assert b[..|b|] == b;
    SameSizeSubset(multiset(b), multiset(a));
    return true;
  }

  lemma SameSizeSubset(x: multiset<string>, y: multiset<string>)
    requires x <= y && |x| == |y|
    ensures x == y
  {
    assert y == x + (y - x);
    assert |y - x| == 0;
  }

  // ---------------------------------------------------------------- the store

  function Stored(sessions: map<string, Session>, id: string): Option<Session> {
    if id in sessions then Some(sessions[id]) else None
  }

  /** Only the session under this id is replaced, or removed. */
  function Put(sessions: map<string, Session>, id: string, x: Option<Session>): map<string, Session> {
    if x.Some? then sessions[id := x.value] else sessions - {id}
  }

  /** The step's outcome is reported, and its session stored. */
  ghost predicate Becomes(before: map<string, Session>, id: string, step: (Option<Session>, Outcome),
                          after: map<string, Session>, r: Outcome) {
    r == step.1 && after == Put(before, id, step.0)
  }

  class SessionStore {
    var sessions: map<string, Session>

    method Save(id: string, s: Snapshot, resolvable: bool, today: int) returns (r: Outcome)
      modifies this
      ensures Trim(id) == "" ==> r == Failed(Invalid) && sessions == old(sessions)
      ensures Trim(id) != "" ==> Becomes(old(sessions), Trim(id), SaveStep(Stored(old(sessions), Trim(id)), s, resolvable, today), sessions, r)
    {
      var key := Trim(id);
      if key == "" { return Failed(Invalid); }
      var x;
      x, r := SaveOver(if key in sessions then Some(sessions[key]) else None, s, resolvable, today);
      if x.Some? { sessions := sessions[key := x.value]; }
    }

    /** The locked row, if there is one, and what becomes of it. */
    method SaveOver(x: Option<Session>, s: Snapshot, resolvable: bool, today: int) returns (y: Option<Session>, r: Outcome)
      ensures (y, r) == SaveStep(x, s, resolvable, today)
    {
      var next := 1;
      if x.Some? {
        var row := x.value.row;
        if row.status != Draft { return x, Failed(IsLocked); }
        if s.version.Some? && s.version.value != row.version { return x, Failed(VersionMismatch); }
        next := row.version + 1;
      } else if s.version.Some? {
        return x, Failed(VersionMismatch);
      }
      var broken := ValidateSnapshot(s);
      if broken.Some? || !resolvable { return x, Failed(Invalid); }
      PublishWrites(x, s, today);
      var written := Write(s, x.Some?, next, today);
      return Some(written), Done;
    }

    /** The rows of a snapshot that was accepted. */
    method Write(s: Snapshot, found: bool, next: nat, today: int) returns (x: Session)
      requires Valid(s)
      ensures x == Published(s, if s.session.locked || LocksItself(found, s, today) then Locked else Draft, next)
    {
      var tables := SyncSessionTables(s);
      var row := HeaderRow(s, found, next, today);
      x := Session(row, tables);
    }

    /** The sessions row, after the check that may lock it. */
    method HeaderRow(s: Snapshot, found: bool, next: nat, today: int) returns (row: SessionRow)
      requires s.session.date.On? && s.session.slotMinutes >= 0 && NonNegative(s.schedule)
      ensures row == RowOf(s, if s.session.locked || LocksItself(found, s, today) then Locked else Draft, next)
    {
      var status := if s.session.locked then Locked else Draft;
      row := SessionRow(s.session.title, s.session.date.day, StartOf(s.session), SlotLength(s.session), |s.absent| > 0, status, next);
      if found && status == Draft {
        var count := CountScoredGames(s);
        var allScored := |s.schedule| > 0 && count == |s.schedule|;
        var pastDate := s.session.date.day < today;
        if allScored || pastDate { row := row.(status := Locked, version := next); }
      }
    }

    method SetGameScore(id: string, gameKey: string, a: int, b: int, expected: Option<nat>) returns (r: Outcome)
      modifies this
      ensures Becomes(old(sessions), id, ScoreStep(Stored(old(sessions), id), gameKey, a, b, expected), sessions, r)
    {
      var at := SplitGameKey(gameKey);
      if at.None? || !ScoreOk(Score(a, b)) { return Failed(Invalid); }
      if id !in sessions { return Failed(NotFound); }
      var x := sessions[id];
      if x.row.status != Draft { return Failed(IsLocked); }
      var games := x.tables.games;
      var i := GameIndex(games, at.value.0, at.value.1);
      if i.None? { return Failed(Invalid); }
      var row := games[i.value];
      if expected.Some? && expected.value != row.version { return Failed(VersionMismatch); }
      var playedOrder := i.value + 1;
      row := row.(scoreA := Some(a), scoreB := Some(b), isPlayed := true, status := IsPlayed,
                  playedOrder := if row.isPlayed then row.playedOrder else Some(playedOrder), version := row.version + 1);
      games := games[i.value := row];
      x := x.(tables := x.tables.(games := games));
      var all := AllGamesScored(games);
      if all { x := x.(row := x.row.(status := Locked, version := x.row.version + 1)); }
      sessions := sessions[id := x];
      return Done;
    }

    method SetGamePlayed(id: string, gameKey: string, played: bool, expected: Option<nat>) returns (r: Outcome)
      modifies this
      ensures Becomes(old(sessions), id, PlayedStep(Stored(old(sessions), id), gameKey, played, expected), sessions, r)
    {
      var at := SplitGameKey(gameKey);
      if at.None? { return Failed(Invalid); }
      if id !in sessions { return Failed(NotFound); }
      var x := sessions[id];
      if x.row.status != Draft { return Failed(IsLocked); }
      var games := x.tables.games;
      var i := GameIndex(games, at.value.0, at.value.1);
      if i.None? { return Failed(Invalid); }
      var row := games[i.value];
      if expected.Some? && expected.value != row.version { return Failed(VersionMismatch); }
      if row.isPlayed == played { return Done; }
      if played {
        row := row.(isPlayed := true, status := IsPlayed, playedOrder := Some(i.value + 1), version := row.version + 1);
      } else {
        row := row.(isPlayed := false, status := IsScheduled, playedOrder := None, scoreA := None, scoreB := None,
                    version := row.version + 1);
      }
      sessions := sessions[id := x.(tables := x.tables.(games := games[i.value := row]))];
      return Done;
    }

    method SetGameSkipped(id: string, gameKey: string, refs: seq<string>, expected: Option<nat>) returns (r: Outcome)
      modifies this
      ensures Becomes(old(sessions), id, SkippedStep(Stored(old(sessions), id), gameKey, refs, expected), sessions, r)
    {
      var at := SplitGameKey(gameKey);
      if at.None? { return Failed(Invalid); }
      var clean := CleanRefs(refs);
      if clean.None? { return Failed(Invalid); }
      if id !in sessions { return Failed(NotFound); }
      var x;
      x, r := SkipIn(sessions[id], gameKey, at.value, refs, clean.value, expected);
      sessions := sessions[id := x];
    }

    /** The transaction on the locked session. */
    method SkipIn(x: Session, ghost key: string, at: (nat, nat), ghost refs: seq<string>, clean: seq<string>, expected: Option<nat>)
      returns (y: Session, r: Outcome)
      requires Split(key) == Some(at) && clean == Kept(refs) && Distinct(clean)
      ensures (Some(y), r) == SkippedStep(Some(x), key, refs, expected)
    {
      if x.row.status != Draft { return x, Failed(IsLocked); }
      var known := RefsOnRoster(x.tables.players, clean);
      if !known { return x, Failed(Invalid); }
      var games := x.tables.games;
      var i := GameIndex(games, at.0, at.1);
      if i.None? { return x, Failed(Invalid); }
      var row := games[i.value];
      if expected.Some? && expected.value != row.version { return x, Failed(VersionMismatch); }
      SkipsAreSet(x, key, refs, expected, i.value);
      var same := EqualStringSets(row.skipped, clean);
      if same { return x, Done; }
      row := row.(skipped := clean, version := row.version + 1);
      return x.(tables := x.tables.(games := games[i.value := row])), Done;
    }

    method RefsOnRoster(players: seq<PlayerRow>, refs: seq<string>) returns (known: bool)
      ensures known <==> AllOnRoster(players, refs)
    {
      for i := 0 to |refs|
        invariant forall k :: 0 <= k < i ==> OnRoster(players, refs[k])
      {
        var count := 0;
        for j := 0 to |players|
          invariant count >= 0 && (count == 0 <==> forall k :: 0 <= k < j ==> players[k].ref != refs[i])
        {
          if players[j].ref == refs[i] { count := count + 1; }
        }
        if count == 0 {
          assert refs[i] in refs;
          return false;
        }
      }
      return true;
    }

    /** Clears every mark, then sets the listed ones one UPDATE at a time. */
    method MarkAbsent(players: seq<PlayerRow>, refs: seq<string>) returns (rows: seq<PlayerRow>)
      requires forall i :: 0 <= i < |refs| ==> Trim(refs[i]) == refs[i]
      ensures rows == MarkedAbsent(players, refs)
    {
      rows := seq(|players|, i requires 0 <= i < |players| => players[i].(isAbsent := false, absentOrder := None));
      for k := 0 to |refs|
        invariant rows == MarkedAbsent(players, refs[..k])
      {
        assert refs[..k + 1][..k] == refs[..k];
        rows := seq(|rows|, i requires 0 <= i < |rows| =>
          if rows[i].ref == refs[k] then rows[i].(isAbsent := true, absentOrder := Some(k)) else rows[i]);
      }
      assert refs[..|refs|] == refs;
    }

    method SetAbsentPlayers(id: string, refs: seq<string>, expected: Option<nat>) returns (r: Outcome)
      modifies this
      ensures Becomes(old(sessions), id, AbsentStep(Stored(old(sessions), id), refs, expected), sessions, r)
    {
      var clean := CleanRefs(refs);
      if clean.None? { return Failed(Invalid); }
      if id !in sessions { return Failed(NotFound); }
      var x;
      x, r := AbsentIn(sessions[id], refs, clean.value, expected);
      sessions := sessions[id := x];
    }

    /** The transaction on the locked session. */
    method AbsentIn(x: Session, ghost refs: seq<string>, clean: seq<string>, expected: Option<nat>) returns (y: Session, r: Outcome)
      requires clean == Kept(refs) && Distinct(clean)
      ensures (Some(y), r) == AbsentStep(Some(x), refs, expected)
    {
      if x.row.status != Draft { return x, Failed(IsLocked); }
      if expected.Some? && expected.value != x.row.version { return x, Failed(VersionMismatch); }
      var known := RefsOnRoster(x.tables.players, clean);
      if !known { return x, Failed(Invalid); }
      KeptAreTrimmed(refs);
      var players := MarkAbsent(x.tables.players, clean);
      var row := x.row.(includeAbsent := |clean| > 0, version := x.row.version + 1);
      return Session(row, x.tables.(players := players)), Done;
    }

    method SwapMembers(id: string, kind: Kind, a: Target, b: Target, expected: Option<nat>) returns (r: Outcome)
      requires id in sessions ==> Legal(sessions[id].tables.games)
      modifies this
      ensures Becomes(old(sessions), id, SwapStep(Stored(old(sessions), id), kind, a, b, expected), sessions, r)
    {
      if !WellAimed(kind, a, b) { return Failed(Invalid); }
      if id !in sessions { return Failed(NotFound); }
      var x := sessions[id];
      if x.row.status != Draft { return Failed(IsLocked); }
      if expected.Some? && expected.value != x.row.version { return Failed(VersionMismatch); }
      var board := new Board(x.tables.games);
      var ok := board.SwapMembers(kind, a, b);
      if !ok { return Failed(Invalid); }
      x := x.(tables := x.tables.(games := board.games), row := x.row.(version := x.row.version + 1));
      sessions := sessions[id := x];
      return Done;
    }

    method Unlock(id: string) returns (r: Outcome)
      modifies this
      ensures Trim(id) == "" ==> r == Failed(Invalid) && sessions == old(sessions)
      ensures Trim(id) != "" ==> Becomes(old(sessions), Trim(id), UnlockStep(Stored(old(sessions), Trim(id))), sessions, r)
    {
      var key := Trim(id);
      if key == "" { return Failed(Invalid); }
      if key !in sessions { return Failed(NotFound); }
      var row := sessions[key].row;
      if row.status != Draft {
        sessions := sessions[key := sessions[key].(row := row.(status := Draft, version := row.version + 1))];
      }
      return Done;
    }

    /** The administrator may delete a session in any status. */
    method AdminDelete(id: string) returns (r: Outcome)
      modifies this
      ensures Trim(id) == "" ==> r == Failed(Invalid) && sessions == old(sessions)
      ensures Trim(id) != "" ==> Becomes(old(sessions), id, Step(Stored(old(sessions), id), SessionSteps.AdminDelete), sessions, r)
    {
      if Trim(id) == "" { return Failed(Invalid); }
      if id !in sessions { return Failed(NotFound); }
      sessions := sessions - {id};
      return Done;
    }

    method Delete(id: string) returns (r: Outcome)
      modifies this
      ensures Trim(id) == "" ==> r == Failed(Invalid) && sessions == old(sessions)
      ensures Trim(id) != "" ==> Becomes(old(sessions), id, DeleteStep(Stored(old(sessions), id)), sessions, r)
    {
      if Trim(id) == "" { return Failed(Invalid); }
      if id !in sessions { return Failed(NotFound); }
      if sessions[id].row.status != Draft { return Failed(IsLocked); }
      sessions := sessions - {id};
      return Done;
    }
  }
}
