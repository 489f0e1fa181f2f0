/** Each commit of an interleaving is what the operation does alone on the rows of that moment;
    only the automatic lock can differ, by what was committed between its count and its commit. */
module GranularCommits {
  import opened Options
  import opened GameKeys
  import opened Sorting
  import opened Snapshots
  import opened SessionTables
  import opened Swaps
  import opened SwapLaws
  import opened SessionSteps
  import opened GranularRaces

  // ---------------------------------------------------------------- what was counted

  /** The rows as a transaction sees them that has written its own. */
  ghost predicate AllScoredWith(games: seq<GameRow>, log: seq<Commit>, g: nat, row: GameRow) {
    var seen := Replayed(games, log);
    g < |seen| && AllScored(seen[g := row])
  }

  ghost predicate CountOk(w0: World, w: World, t: nat) {
    t < |w.txns| && w.txns[t].phase.Counted? ==>
      var x := w.txns[t];
      && x.phase.at <= |w.log|
      && (x.phase.all <==> x.change.EnterScore? && AllScoredWith(w0.games, w.log[..x.phase.at], x.game, x.phase.row))
  }

  /** The flag of a commit tells whether every game was scored when its transaction counted. */
  ghost predicate FlagOk(games: seq<GameRow>, log: seq<Commit>, i: nat)
    requires i < |log|
  {
    var c, now := log[i], Replayed(games, log[..i]);
    && c.counted <= i && c.game < |now|
    && (c.all <==> c.change.EnterScore? && AllScoredWith(games, log[..c.counted], c.game, Applied(now[c.game], c.game, c.change)))
  }

  /** The session row after these commits: the first that counted every game as scored locks it. */
  function RowAfter(status: Status, version: nat, log: seq<Commit>): (Status, nat) {
    if |log| == 0 then (status, version)
    else
      var (s, v) := RowAfter(status, version, log[..|log| - 1]);
      if log[|log| - 1].all && s == Draft then (Locked, v + 1) else (s, v)
  }

  ghost predicate Flags(w0: World, w: World) {
    && (forall t :: CountOk(w0, w, t)) && (forall i :: 0 <= i < |w.log| ==> FlagOk(w0.games, w.log, i))
    && (w.status, w.version) == RowAfter(w0.status, w0.version, w.log)
  }

  lemma FlagsSurvive(w0: World, w: World, v: World, t: nat)
    requires Flags(w0, w) && v.log == w.log && v.status == w.status && v.version == w.version
    requires forall u: nat :: u != t && u < |v.txns| ==> u < |w.txns| && v.txns[u] == w.txns[u]
    requires CountOk(w0, v, t)
    ensures Flags(w0, v)
  {
    forall u ensures CountOk(w0, v, u) {
      assert CountOk(w0, w, u);
    }
  }

  lemma FlagsGrow(games: seq<GameRow>, log: seq<Commit>, c: Commit)
    requires forall i :: 0 <= i < |log| ==> FlagOk(games, log, i)
    requires FlagOk(games, log + [c], |log|)
    ensures forall i :: 0 <= i < |log + [c]| ==> FlagOk(games, log + [c], i)
  {
    var longer := log + [c];
    forall i | 0 <= i < |longer| ensures FlagOk(games, longer, i) {
      if i < |log| {
        assert FlagOk(games, log, i) && longer[..i] == log[..i] && longer[..longer[i].counted] == log[..log[i].counted];
      }
    }
  }

  /** What a commit does to the history. */
  lemma CommitGrowsTheLog(w: World, t: nat)
    requires t < |w.txns| && w.txns[t].phase.Counted? && w.txns[t].game < |w.games|
    ensures var x, v := w.txns[t], Do(w, Advance(t));
      var c := Commit(t, x.game, x.change, x.expected, w.games[x.game].version, x.phase.all, x.phase.at);
      && v.log == w.log + [c] && v.txns == w.txns[t := x.(phase := Closed)]
      && (v.status, v.version) == if c.all && w.status == Draft then (Locked, w.version + 1) else (w.status, w.version)
  {
  }

  lemma RowAfterSnoc(status: Status, version: nat, log: seq<Commit>, c: Commit)
    ensures RowAfter(status, version, log + [c]) ==
      var (s, v) := RowAfter(status, version, log);
      if c.all && s == Draft then (Locked, v + 1) else (s, v)
  {
    assert (log + [c])[..|log|] == log;
  }

  lemma CountStays(w0: World, w: World, v: World, c: Commit, u: nat)
    requires CountOk(w0, w, u) && v.log == w.log + [c]
    requires u < |v.txns| && v.txns[u].phase.Counted? ==> u < |w.txns| && v.txns[u] == w.txns[u]
    ensures CountOk(w0, v, u)
  {
    if u < |v.txns| && v.txns[u].phase.Counted? {
      assert v.log[..v.txns[u].phase.at] == w.log[..v.txns[u].phase.at];
    }
  }

  lemma CountsStay(w0: World, w: World, v: World, c: Commit)
    requires (forall u :: CountOk(w0, w, u)) && v.log == w.log + [c]
    requires forall u: nat :: u < |v.txns| && v.txns[u].phase.Counted? ==> u < |w.txns| && v.txns[u] == w.txns[u]
    ensures forall u :: CountOk(w0, v, u)
  {
    forall u ensures CountOk(w0, v, u) {
      CountStays(w0, w, v, c, u);
    }
  }

  /** The flag of a new commit is what its transaction had counted. */
  lemma NewFlag(w0: World, w: World, t: nat, c: Commit)
    requires Keeps(w0, w) && CountOk(w0, w, t) && t < |w.txns| && w.txns[t].phase.Counted?
    requires c.game == w.txns[t].game && c.change == w.txns[t].change
    requires c.all == w.txns[t].phase.all && c.counted == w.txns[t].phase.at
    ensures FlagOk(w0.games, w.log + [c], |w.log|)
  {
    assert TxnOk(w, t);
    var longer := w.log + [c];
    assert longer[..|w.log|] == w.log && longer[..c.counted] == w.log[..c.counted];
  }

  lemma FlagsAfterCommit(w0: World, w: World, v: World, t: nat, c: Commit)
    requires Keeps(w0, w) && Flags(w0, w) && t < |w.txns| && w.txns[t].phase.Counted?
    requires c.game == w.txns[t].game && c.change == w.txns[t].change
    requires c.all == w.txns[t].phase.all && c.counted == w.txns[t].phase.at
    requires v.log == w.log + [c] && v.txns == w.txns[t := w.txns[t].(phase := Closed)]
    requires (v.status, v.version) == if c.all && w.status == Draft then (Locked, w.version + 1) else (w.status, w.version)
    ensures Flags(w0, v)
  {
    assert CountOk(w0, w, t);
    NewFlag(w0, w, t, c);
    FlagsGrow(w0.games, w.log, c);
    RowAfterSnoc(w0.status, w0.version, w.log, c);
    CountsStay(w0, w, v, c);
  }

  lemma CommitKeepsFlags(w0: World, w: World, t: nat)
    requires Keeps(w0, w) && Flags(w0, w) && t < |w.txns| && w.txns[t].phase.Counted? && w.txns[t].game < |w.games|
    ensures Flags(w0, Do(w, Advance(t)))
  {
    CommitGrowsTheLog(w, t);
    var x := w.txns[t];
    FlagsAfterCommit(w0, w, Do(w, Advance(t)), t,
      Commit(t, x.game, x.change, x.expected, w.games[x.game].version, x.phase.all, x.phase.at));
  }

  /** Nothing but a commit touches the log and the session row, and only its own transaction moves. */
  lemma OtherStepsAreLocal(w: World, e: Event, t: nat)
    requires !e.Arrive? && e.txn == t < |w.txns| && !(e.Advance? && w.txns[t].phase.Counted?)
    ensures var v := Do(w, e);
      && v.log == w.log && v.status == w.status && v.version == w.version && |v.txns| == |w.txns|
      && (forall u: nat :: u != t && u < |w.txns| ==> v.txns[u] == w.txns[u])
      && (v.txns[t] == w.txns[t] || !v.txns[t].phase.Counted? || (e.Advance? && w.txns[t].phase.Written?))
  {
  }

  lemma CountingIsOk(w0: World, w: World, t: nat)
    requires Keeps(w0, w) && t < |w.txns| && w.txns[t].phase.Written?
    ensures CountOk(w0, Do(w, Advance(t)), t)
  {
    assert TxnOk(w, t);
    assert w.log[..|w.log|] == w.log;
  }

  lemma DoKeepsFlags(w0: World, w: World, e: Event)
    requires Keeps(w0, w) && Flags(w0, w)
    ensures Flags(w0, Do(w, e))
  {
    if e.Arrive? {
      FlagsSurvive(w0, w, Do(w, e), |w.txns|);
    } else if e.txn < |w.txns| {
      var t := e.txn;
      assert TxnOk(w, t) && CountOk(w0, w, t);
      if e.Advance? && w.txns[t].phase.Counted? {
        CommitKeepsFlags(w0, w, t);
      } else {
        OtherStepsAreLocal(w, e, t);
        if e.Advance? && w.txns[t].phase.Written? { CountingIsOk(w0, w, t); }
        FlagsSurvive(w0, w, Do(w, e), t);
      }
    }
  }

  lemma {:induction false} InterleavingsKeepFlags(w0: World, events: seq<Event>)
    requires Fresh(w0)
    ensures Flags(w0, Interleaved(w0, events))
  {
    if |events| > 0 {
      InterleavingsKeep(w0, events[..|events| - 1]);
      InterleavingsKeepFlags(w0, events[..|events| - 1]);
      DoKeepsFlags(w0, Interleaved(w0, events[..|events| - 1]), events[|events| - 1]);
    }
  }

  // ---------------------------------------------------------------- the operation alone

  /** The request served alone, by the operation of SessionSteps. */
  ghost function Alone(x: Session, c: Change, key: string, expected: Option<nat>): (Option<Session>, Outcome) {
    match c
    case EnterScore(a, b) => ScoreStep(Some(x), key, a, b, expected)
    case SetMark(played) => PlayedStep(Some(x), key, played, expected)
    case SetSkips(refs) => SkippedStep(Some(x), key, refs, expected)
  }

  /** What the operation checks before it opens its transaction, and the roster check of skips. */
  ghost predicate Admitted(x: Session, c: Change) {
    match c
    case EnterScore(a, b) => ScoreOk(Score(a, b))
    case SetMark(played) => true
    case SetSkips(refs) => Kept(refs) == refs && Distinct(refs) && AllOnRoster(x.tables.players, refs)
  }

  /** The key leads to this row, at the version the writer expects. */
  ghost predicate Addressed(x: Session, key: string, g: nat, expected: Option<nat>) {
    && x.row.status == Draft && g < |x.tables.games|
    && Split(key).Some? && GameIndex(x.tables.games, Split(key).value.0, Split(key).value.1) == Some(g)
    && !Mismatch(expected, x.tables.games[g].version)
  }

  /** The step succeeds with exactly these rows, and locks the draft or leaves its row alone. */
  ghost predicate Makes(x: Session, step: (Option<Session>, Outcome), games: seq<GameRow>, locks: bool) {
    && step.1.Done? && step.0.Some?
    && step.0.value == (if locks then LockedNow(WithGames(x, games)) else WithGames(x, games))
  }

  lemma SerialScore(x: Session, key: string, g: nat, a: int, b: int, expected: Option<nat>)
    requires Addressed(x, key, g, expected) && ScoreOk(Score(a, b))
    ensures var games := x.tables.games[g := Applied(x.tables.games[g], g, EnterScore(a, b))];
      Makes(x, ScoreStep(Some(x), key, a, b, expected), games, AllScored(games))
  {
  }

  lemma SerialMark(x: Session, key: string, g: nat, played: bool, expected: Option<nat>)
    requires Addressed(x, key, g, expected) && x.tables.games[g].isPlayed != played
    ensures var games := x.tables.games[g := Applied(x.tables.games[g], g, SetMark(played))];
      Makes(x, PlayedStep(Some(x), key, played, expected), games, false)
  {
  }

  lemma SerialSkips(x: Session, key: string, g: nat, refs: seq<string>, expected: Option<nat>)
    requires Addressed(x, key, g, expected) && multiset(x.tables.games[g].skipped) != multiset(refs)
    requires Kept(refs) == refs && Distinct(refs) && AllOnRoster(x.tables.players, refs)
    ensures var games := x.tables.games[g := Applied(x.tables.games[g], g, SetSkips(refs))];
      Makes(x, SkippedStep(Some(x), key, refs, expected), games, false)
  {
  }

  /** On a draft with these rows, the operation run alone makes this change. */
  lemma SerialStep(x: Session, key: string, g: nat, c: Change, expected: Option<nat>)
    requires Addressed(x, key, g, expected) && Admitted(x, c) && !NothingToDo(x.tables.games[g], c)
    ensures var games := x.tables.games[g := Applied(x.tables.games[g], g, c)];
      Makes(x, Alone(x, c, key, expected), games, c.EnterScore? && AllScored(games))
  {
    match c
    case EnterScore(a, b) => SerialScore(x, key, g, a, b, expected);
    case SetMark(played) => SerialMark(x, key, g, played, expected);
    case SetSkips(refs) => SerialSkips(x, key, g, refs, expected);
  }

  /** A game within the limit is addressed by its own key. */
  lemma KeyAddressesItsRow(x: Session, g: nat)
    requires x.row.status == Draft && PlacesDiffer(x.tables.games) && g < |x.tables.games|
    requires x.tables.games[g].slot <= LIMIT && x.tables.games[g].court <= LIMIT
    ensures Addressed(x, KeyOfRow(x.tables.games[g]), g, None)
  {
    SplitInvertsGameKey(x.tables.games[g].slot, x.tables.games[g].court);
    IndexIsUnique(x.tables.games, g);
  }

  ghost predicate SamePlaces(games: seq<GameRow>, after: seq<GameRow>) {
    |after| == |games| && forall i :: 0 <= i < |games| ==> after[i].slot == games[i].slot && after[i].court == games[i].court
  }

  lemma {:induction false} PlacesStay(games: seq<GameRow>, log: seq<Commit>)
    ensures SamePlaces(games, Replayed(games, log))
  {
    if |log| > 0 { PlacesStay(games, log[..|log| - 1]); }
  }

  ghost predicate WithinReach(games: seq<GameRow>) {
    forall i :: 0 <= i < |games| ==> games[i].slot <= LIMIT && games[i].court <= LIMIT
  }

  /** Entry i of the log made a change of the rows before it, at the version its writer expected. */
  ghost predicate LoggedAt(games: seq<GameRow>, log: seq<Commit>, i: nat) {
    i < |log| &&
    var before, c := Replayed(games, log[..i]), log[i];
    && c.game < |before| && !Mismatch(c.expected, before[c.game].version) && !NothingToDo(before[c.game], c.change)
    && Replayed(games, log[..i + 1]) == before[c.game := Applied(before[c.game], c.game, c.change)]
    && FlagOk(games, log, i)
  }

  lemma LoggedChange(games: seq<GameRow>, log: seq<Commit>, i: nat)
    requires Honest(games, log) && i < |log| && FlagOk(games, log, i)
    ensures LoggedAt(games, log, i)
  {
    assert log[..i + 1][..i] == log[..i];
  }

  lemma LoggedChangeAlone(games: seq<GameRow>, log: seq<Commit>, i: nat, x: Session)
    requires PlacesDiffer(games) && WithinReach(games) && LoggedAt(games, log, i)
    requires x.row.status == Draft && x.tables.games == Replayed(games, log[..i]) && Admitted(x, log[i].change)
    ensures var c, after := log[i], Replayed(games, log[..i + 1]);
      && c.game < |x.tables.games|
      && Makes(x, Alone(x, c.change, KeyOfRow(x.tables.games[c.game]), c.expected), after, c.change.EnterScore? && AllScored(after))
      && (c.counted == i ==> (c.all <==> c.change.EnterScore? && AllScored(after)))
  {
    var c := log[i];
    PlacesStay(games, log[..i]);
    KeyAddressesItsRow(x, c.game);
    SerialStep(x, KeyOfRow(x.tables.games[c.game]), c.game, c.change, c.expected);
  }

  /** Every logged change is the operation alone: served on a draft that holds the rows of all
      commits before it, addressed by the key of its game, the request succeeds with exactly the
      rows after this commit. It locks the session as its commit did, unless something was
      committed between the count of that transaction and its commit. */
  lemma CommitIsTheSerialOperation(w0: World, events: seq<Event>, i: nat, x: Session)
    requires Fresh(w0) && PlacesDiffer(w0.games) && WithinReach(w0.games)
    requires i < |Interleaved(w0, events).log|
    requires var log := Interleaved(w0, events).log;
      x.row.status == Draft && x.tables.games == Replayed(w0.games, log[..i]) && Admitted(x, log[i].change)
    ensures var log := Interleaved(w0, events).log;
      var c, after := log[i], Replayed(w0.games, log[..i + 1]);
      && c.game < |x.tables.games|
      && Makes(x, Alone(x, c.change, KeyOfRow(x.tables.games[c.game]), c.expected), after, c.change.EnterScore? && AllScored(after))
      && (c.counted == i ==> (c.all <==> c.change.EnterScore? && AllScored(after)))
  {
    InterleavingsKeep(w0, events);
    InterleavingsKeepFlags(w0, events);
    LoggedChange(w0.games, Interleaved(w0, events).log, i);
    LoggedChangeAlone(w0.games, Interleaved(w0, events).log, i, x);
  }

  /** The session row of an interleaving is locked, one version up, by the first commit whose
      transaction had counted every game as scored, and stays as it was before and after that. */
  lemma SessionRowFollowsTheLog(w0: World, events: seq<Event>)
    requires Fresh(w0)
    ensures var w := Interleaved(w0, events);
      && (w.status, w.version) == RowAfter(w0.status, w0.version, w.log)
      && forall i :: 0 <= i < |w.log| ==> FlagOk(w0.games, w.log, i)
  {
    InterleavingsKeepFlags(w0, events);
  }

  // ---------------------------------------------------------------- serialisable runs

  /** The requests of the log served one after the other, each by the key of its game. */
  ghost function Served(x: Session, log: seq<Commit>): Session {
    if |log| == 0 then x
    else
      var y, c := Served(x, log[..|log| - 1]), log[|log| - 1];
      if c.game >= |y.tables.games| then y
      else
        var z := Alone(y, c.change, KeyOfRow(y.tables.games[c.game]), c.expected).0;
        if z.Some? then z.value else y
  }

  /** x with these rows and this session row. */
  function Showing(x: Session, games: seq<GameRow>, row: (Status, nat)): Session {
    WithGames(x, games).(row := x.row.(status := row.0, version := row.1))
  }

  /** Nothing was committed between a count and its commit, nor into a locked session. */
  ghost predicate Undisturbed(status: Status, version: nat, log: seq<Commit>) {
    forall i :: 0 <= i < |log| ==> log[i].counted == i && RowAfter(status, version, log[..i]).0 == Draft
  }

  /** One request more, its step known. */
  lemma ServedSnoc(x: Session, log: seq<Commit>, c: Commit, z: Session)
    requires var y := Served(x, log);
      c.game < |y.tables.games| && Alone(y, c.change, KeyOfRow(y.tables.games[c.game]), c.expected).0 == Some(z)
    ensures Served(x, log + [c]) == z
  {
    assert (log + [c])[..|log|] == log;
  }

  lemma AloneGives(games: seq<GameRow>, log: seq<Commit>, i: nat, y: Session)
    requires PlacesDiffer(games) && WithinReach(games) && LoggedAt(games, log, i) && log[i].counted == i
    requires y.row.status == Draft && y.tables.games == Replayed(games, log[..i]) && Admitted(y, log[i].change)
    ensures var c, after := log[i], WithGames(y, Replayed(games, log[..i + 1]));
      && c.game < |y.tables.games|
      && Alone(y, c.change, KeyOfRow(y.tables.games[c.game]), c.expected).0 == Some(if c.all then LockedNow(after) else after)
  {
    LoggedChangeAlone(games, log, i, y);
  }

  /** One request more of the log, on what the requests before it left. */
  lemma ServedOnTop(x: Session, log: seq<Commit>, i: nat, y: Session, z: Session)
    requires i < |log| && y == Served(x, log[..i]) && log[i].game < |y.tables.games|
    requires Alone(y, log[i].change, KeyOfRow(y.tables.games[log[i].game]), log[i].expected).0 == Some(z)
    ensures Served(x, log[..i + 1]) == z
  {
    assert log[..i + 1] == log[..i] + [log[i]];
    ServedSnoc(x, log[..i], log[i], z);
  }

  lemma ShowingNext(x: Session, games: seq<GameRow>, row: (Status, nat), after: seq<GameRow>, locks: bool)
    ensures var next := WithGames(Showing(x, games, row), after);
      (if locks then LockedNow(next) else next) == Showing(x, after, if locks then (Locked, row.1 + 1) else row)
  {
  }

  lemma RowAfterPrefix(status: Status, version: nat, log: seq<Commit>, i: nat)
    requires i < |log| && RowAfter(status, version, log[..i]).0 == Draft
    ensures var row := RowAfter(status, version, log[..i]);
      RowAfter(status, version, log[..i + 1]) == if log[i].all then (Locked, row.1 + 1) else row
  {
    assert log[..i + 1] == log[..i] + [log[i]];
    RowAfterSnoc(status, version, log[..i], log[i]);
  }

  lemma {:induction false} PrefixIsServed(x: Session, log: seq<Commit>, k: nat)
    requires k <= |log| && PlacesDiffer(x.tables.games) && WithinReach(x.tables.games)
    requires forall i :: 0 <= i < |log| ==> LoggedAt(x.tables.games, log, i)
    requires Undisturbed(x.row.status, x.row.version, log) && forall c <- log :: Admitted(x, c.change)
    ensures Served(x, log[..k])
         == Showing(x, Replayed(x.tables.games, log[..k]), RowAfter(x.row.status, x.row.version, log[..k]))
  {
    if k > 0 {
      var i, games := k - 1, x.tables.games;
      PrefixIsServed(x, log, i);
      assert LoggedAt(games, log, i) && log[i] in log;
      var y := Served(x, log[..i]);
      var after := WithGames(y, Replayed(games, log[..k]));
      AloneGives(games, log, i, y);
      ServedOnTop(x, log, i, y, if log[i].all then LockedNow(after) else after);
      RowAfterPrefix(x.row.status, x.row.version, log, i);
      ShowingNext(x, Replayed(games, log[..i]), RowAfter(x.row.status, x.row.version, log[..i]), Replayed(games, log[..k]), log[i].all);
    }
  }

  /** A run in which nothing came between a count and its commit, and nothing was committed into
      the locked session, is serial: it ends with the rows, the status and the version that its
      commits, served one after the other, leave. */
  lemma UndisturbedRunsAreSerial(w0: World, events: seq<Event>, x: Session)
    requires Fresh(w0) && PlacesDiffer(w0.games) && WithinReach(w0.games)
    requires x.tables.games == w0.games && x.row.status == w0.status && x.row.version == w0.version
    requires Undisturbed(w0.status, w0.version, Interleaved(w0, events).log)
    requires forall c <- Interleaved(w0, events).log :: Admitted(x, c.change)
    ensures var w := Interleaved(w0, events); Served(x, w.log) == Showing(x, w.games, (w.status, w.version))
  {
    var log := Interleaved(w0, events).log;
    InterleavingsKeep(w0, events);
    InterleavingsKeepFlags(w0, events);
    forall i | 0 <= i < |log| ensures LoggedAt(w0.games, log, i) {
      assert FlagOk(w0.games, log, i);
      LoggedChange(w0.games, log, i);
    }
    PrefixIsServed(x, log, |log|);
    assert log[..|log|] == log;
  }
}
