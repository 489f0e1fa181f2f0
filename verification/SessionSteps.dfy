/** The write operations on one session, as steps from its stored value to the next. */
module SessionSteps {
  import opened Options
  import opened GameKeys
  import opened Text
  import opened Sorting
  import opened Snapshots
  import opened SessionTables
  import opened SnapshotRoundTrip
  import opened Swaps

  datatype Error = NotFound | IsLocked | VersionMismatch | Invalid

  datatype Outcome = Done | Failed(error: Error)

  /** An expected version is what If-Match carries (section 13.1.1 of RFC 9110). `resolvable`:
      every player's name resolves, to different people; `today`: the current day in Jakarta. */
  datatype Op =
    | Save(s: Snapshot, resolvable: bool, today: int)
    | SetScore(key: string, a: int, b: int, expected: Option<nat>)
    | SetPlayed(key: string, played: bool, expected: Option<nat>)
    | SetSkipped(key: string, refs: seq<string>, expected: Option<nat>)
    | SetAbsent(refs: seq<string>, expected: Option<nat>)
    | Swap(kind: Kind, from: Target, to: Target, expected: Option<nat>)
    | Unlock
    | Delete
    | AdminDelete

  predicate Mismatch(expected: Option<nat>, actual: nat) { expected.Some? && expected.value != actual }

  // ---------------------------------------------------------------- Save

  /** countScoredGames. */
  function CountScored(games: seq<Game>, scores: map<string, Score>): nat
    requires NonNegative(games)
  {
    if |games| == 0 then 0
    else CountScored(games[..|games| - 1], scores) + if KeyOf(games[|games| - 1]) in scores then 1 else 0
  }

  /** Draft sessions lock themselves when every game has a score, or when their day is past. A
      session published for the first time does not: only a stored draft is looked at. */
  predicate LocksItself(found: bool, s: Snapshot, today: int)
    requires NonNegative(s.schedule) && s.session.date.On?
  {
    && found && !s.session.locked
    && ((|s.schedule| > 0 && CountScored(s.schedule, s.gameScores) == |s.schedule|) || s.session.date.day < today)
  }

  ghost function SaveStep(x: Option<Session>, s: Snapshot, resolvable: bool, today: int): (Option<Session>, Outcome) {
    if x.Some? && x.value.row.status != Draft then (x, Failed(IsLocked))
    else if s.version.Some? && (x.None? || s.version.value != x.value.row.version) then (x, Failed(VersionMismatch))
    else if !Valid(s) || !resolvable then (x, Failed(Invalid))
    else
      var version := if x.Some? then x.value.row.version + 1 else 1;
      var status := if s.session.locked || LocksItself(x.Some?, s, today) then Locked else Draft;
      (Some(Published(s, status, version)), Done)
  }

  /** Past all checks, a publish writes the snapshot. */
  lemma PublishWrites(x: Option<Session>, s: Snapshot, today: int)
    requires Valid(s) && (x.Some? ==> x.value.row.status == Draft)
    requires s.version.Some? ==> x.Some? && s.version.value == x.value.row.version
    ensures SaveStep(x, s, true, today) ==
      (Some(Published(s, if s.session.locked || LocksItself(x.Some?, s, today) then Locked else Draft,
                      if x.Some? then x.value.row.version + 1 else 1)), Done)
  {
  }

  // ---------------------------------------------------------------- one game

  function ScoredRow(r: GameRow, order: nat, a: int, b: int): GameRow {
    r.(scoreA := Some(a), scoreB := Some(b), isPlayed := true, status := IsPlayed,
       playedOrder := if r.isPlayed then r.playedOrder else Some(order + 1), version := r.version + 1)
  }

  function PlayedRow(r: GameRow, order: nat, played: bool): GameRow {
    if played then r.(isPlayed := true, status := IsPlayed, playedOrder := Some(order + 1), version := r.version + 1)
    else r.(isPlayed := false, status := IsScheduled, playedOrder := None, scoreA := None, scoreB := None, version := r.version + 1)
  }

  predicate AllScored(games: seq<GameRow>) { forall i :: 0 <= i < |games| ==> games[i].scoreA.Some? }

  function WithGames(x: Session, games: seq<GameRow>): Session { x.(tables := x.tables.(games := games)) }

  function LockedNow(x: Session): Session { x.(row := x.row.(status := Locked, version := x.row.version + 1)) }

  ghost function ScoreStep(x: Option<Session>, key: string, a: int, b: int, expected: Option<nat>): (Option<Session>, Outcome) {
    if Split(key).None? || !ScoreOk(Score(a, b)) then (x, Failed(Invalid))
    else if x.None? then (x, Failed(NotFound))
    else if x.value.row.status != Draft then (x, Failed(IsLocked))
    else
      var games := x.value.tables.games;
      var i := GameIndex(games, Split(key).value.0, Split(key).value.1);
      if i.None? then (x, Failed(Invalid))
      else if Mismatch(expected, games[i.value].version) then (x, Failed(VersionMismatch))
      else
        var y := WithGames(x.value, games[i.value := ScoredRow(games[i.value], i.value, a, b)]);
        (Some(if AllScored(y.tables.games) then LockedNow(y) else y), Done)
  }

  ghost function PlayedStep(x: Option<Session>, key: string, played: bool, expected: Option<nat>): (Option<Session>, Outcome) {
    if Split(key).None? then (x, Failed(Invalid))
    else if x.None? then (x, Failed(NotFound))
    else if x.value.row.status != Draft then (x, Failed(IsLocked))
    else
      var games := x.value.tables.games;
      var i := GameIndex(games, Split(key).value.0, Split(key).value.1);
      if i.None? then (x, Failed(Invalid))
      else if Mismatch(expected, games[i.value].version) then (x, Failed(VersionMismatch))
      else if games[i.value].isPlayed == played then (x, Done)
      else (Some(WithGames(x.value, games[i.value := PlayedRow(games[i.value], i.value, played)])), Done)
  }

  /** The references kept from a request: trimmed, blanks dropped. */
  function Kept(refs: seq<string>): seq<string> {
    if |refs| == 0 then []
    else Kept(refs[..|refs| - 1]) + if Trim(refs[|refs| - 1]) == "" then [] else [Trim(refs[|refs| - 1])]
  }

  lemma {:induction false} KeptAreTrimmed(refs: seq<string>)
    ensures forall i :: 0 <= i < |Kept(refs)| ==> Trim(Kept(refs)[i]) == Kept(refs)[i] != ""
  {
    if |refs| > 0 {
      KeptAreTrimmed(refs[..|refs| - 1]);
      TrimIsIdempotent(refs[|refs| - 1]);
    }
  }

  predicate OnRoster(players: seq<PlayerRow>, ref: string) { exists i :: 0 <= i < |players| && players[i].ref == ref }

  predicate AllOnRoster(players: seq<PlayerRow>, refs: seq<string>) { forall r <- refs :: OnRoster(players, r) }

  ghost function SkippedStep(x: Option<Session>, key: string, refs: seq<string>, expected: Option<nat>): (Option<Session>, Outcome) {
    if Split(key).None? || !Distinct(Kept(refs)) then (x, Failed(Invalid))
    else if x.None? then (x, Failed(NotFound))
    else if x.value.row.status != Draft then (x, Failed(IsLocked))
    else
      var games := x.value.tables.games;
      var i := GameIndex(games, Split(key).value.0, Split(key).value.1);
      if !AllOnRoster(x.value.tables.players, Kept(refs)) || i.None? then (x, Failed(Invalid))
      else if Mismatch(expected, games[i.value].version) then (x, Failed(VersionMismatch))
      else
        var r := games[i.value];
        if multiset(r.skipped) == multiset(Kept(refs)) then (x, Done)
        else (Some(WithGames(x.value, games[i.value := r.(skipped := Kept(refs), version := r.version + 1)])), Done)
  }

  /** Past all checks, the skips of game i are replaced, or found equal as a multiset. */
  lemma SkipsAreSet(x: Session, key: string, refs: seq<string>, expected: Option<nat>, i: nat)
    requires Split(key).Some? && Distinct(Kept(refs)) && x.row.status == Draft && AllOnRoster(x.tables.players, Kept(refs))
    requires GameIndex(x.tables.games, Split(key).value.0, Split(key).value.1) == Some(i)
    requires !Mismatch(expected, x.tables.games[i].version)
    ensures SkippedStep(Some(x), key, refs, expected) ==
      (Some(if multiset(x.tables.games[i].skipped) == multiset(Kept(refs)) then x
            else WithGames(x, x.tables.games[i := x.tables.games[i].(skipped := Kept(refs), version := x.tables.games[i].version + 1)])),
       Done)
  {
  }

  // ---------------------------------------------------------------- the whole session

  function MarkedAbsent(players: seq<PlayerRow>, refs: seq<string>): seq<PlayerRow> {
    seq(|players|, i requires 0 <= i < |players| =>
      var order := ListedAt(refs, players[i].ref);
      players[i].(isAbsent := order.Some?, absentOrder := order))
  }

  ghost function AbsentStep(x: Option<Session>, refs: seq<string>, expected: Option<nat>): (Option<Session>, Outcome) {
    if !Distinct(Kept(refs)) then (x, Failed(Invalid))
    else if x.None? then (x, Failed(NotFound))
    else if x.value.row.status != Draft then (x, Failed(IsLocked))
    else if Mismatch(expected, x.value.row.version) then (x, Failed(VersionMismatch))
    else if !AllOnRoster(x.value.tables.players, Kept(refs)) then (x, Failed(Invalid))
    else
      var y := x.value;
      (Some(Session(y.row.(includeAbsent := |Kept(refs)| > 0, version := y.row.version + 1),
                    y.tables.(players := MarkedAbsent(y.tables.players, Kept(refs))))), Done)
  }

  ghost function SwapStep(x: Option<Session>, kind: Kind, a: Target, b: Target, expected: Option<nat>): (Option<Session>, Outcome) {
    if !WellAimed(kind, a, b) then (x, Failed(Invalid))
    else if x.None? then (x, Failed(NotFound))
    else if x.value.row.status != Draft then (x, Failed(IsLocked))
    else if Mismatch(expected, x.value.row.version) then (x, Failed(VersionMismatch))
    else if !GoesThrough(kind, x.value.tables.games, a, b) then (x, Failed(Invalid))
    else
      var y := WithGames(x.value, Swapped(kind, x.value.tables.games, a, b));
      (Some(y.(row := y.row.(version := y.row.version + 1))), Done)
  }

  ghost function UnlockStep(x: Option<Session>): (Option<Session>, Outcome) {
    if x.None? then (x, Failed(NotFound))
    else if x.value.row.status == Draft then (x, Done)
    else (Some(x.value.(row := x.value.row.(status := Draft, version := x.value.row.version + 1))), Done)
  }

  ghost function DeleteStep(x: Option<Session>): (Option<Session>, Outcome) {
    if x.None? then (x, Failed(NotFound))
    else if x.value.row.status != Draft then (x, Failed(IsLocked))
    else (None, Done)
  }

  ghost function Step(x: Option<Session>, op: Op): (Option<Session>, Outcome) {
    match op
    case Save(s, resolvable, today) => SaveStep(x, s, resolvable, today)
    case SetScore(key, a, b, expected) => ScoreStep(x, key, a, b, expected)
    case SetPlayed(key, played, expected) => PlayedStep(x, key, played, expected)
    case SetSkipped(key, refs, expected) => SkippedStep(x, key, refs, expected)
    case SetAbsent(refs, expected) => AbsentStep(x, refs, expected)
    case Swap(kind, a, b, expected) => SwapStep(x, kind, a, b, expected)
    case Unlock => UnlockStep(x)
    case Delete => DeleteStep(x)
    case AdminDelete => if x.None? then (x, Failed(NotFound)) else (None, Done)
  }
}
