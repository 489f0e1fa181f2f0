/** SetGameScore, SetGamePlayed and SetGameSkipped interleaved: each transaction reads the
    session's status, locks its game row without waiting, compares the version, writes, counts
    the unscored games and commits. Statements of different transactions mix freely; a statement
    sees the committed rows and its own transaction's writes (read committed). */
module GranularRaces {
  import opened Options
  import opened SessionTables
  import opened SessionSteps

  datatype Change = EnterScore(a: int, b: int) | SetMark(played: bool) | SetSkips(refs: seq<string>)

  function Applied(r: GameRow, order: nat, c: Change): GameRow {
    match c
    case EnterScore(a, b) => ScoredRow(r, order, a, b)
    case SetMark(played) => PlayedRow(r, order, played)
    case SetSkips(refs) => r.(skipped := refs, version := r.version + 1)
  }

  /** The row already is as requested: the transaction is rolled back and reports success. */
  ghost predicate NothingToDo(r: GameRow, c: Change) {
    match c
    case EnterScore(a, b) => false
    case SetMark(played) => r.isPlayed == played
    case SetSkips(refs) => multiset(r.skipped) == multiset(refs)
  }

  datatype Phase =
    | Begun
    | SawDraft
    | Holding(seen: GameRow)                      // the row is locked and read
    | Written(row: GameRow)                       // the UPDATE has run, uncommitted
    | Counted(row: GameRow, all: bool, at: nat)   // unscored games counted, after so many commits
    | Closed

  datatype Txn = Txn(game: nat, change: Change, expected: Option<nat>, phase: Phase)

  /** One committed change, with the version its row had before, and what its transaction had
      counted: whether every game was scored, after how many commits. */
  datatype Commit = Commit(
    txn: nat, game: nat, change: Change, expected: Option<nat>, version: nat, all: bool, counted: nat)

  datatype World = World(
    status: Status, version: nat, games: seq<GameRow>, locks: map<nat, nat>, txns: seq<Txn>, log: seq<Commit>)

  datatype Event =
    | Arrive(game: nat, change: Change, expected: Option<nat>)
    | Advance(txn: nat)
    | Abandon(txn: nat)

  function Phased(w: World, t: nat, p: Phase): World
    requires t < |w.txns|
  {
    w.(txns := w.txns[t := w.txns[t].(phase := p)])
  }

  /** Rolled back: the lock is released, nothing is kept. */
  function Closes(w: World, t: nat): World
    requires t < |w.txns|
  {
    Phased(w.(locks := map g | g in w.locks && w.locks[g] != t :: w.locks[g]), t, Closed)
  }

  function Commits(w: World, t: nat, row: GameRow, all: bool, at: nat): World
    requires t < |w.txns| && w.txns[t].game < |w.games|
  {
    var x := w.txns[t];
    var locked := all && w.status == Draft;
    Closes(w.(games := w.games[x.game := row],
              status := if locked then Locked else w.status,
              version := if locked then w.version + 1 else w.version,
              log := w.log + [Commit(t, x.game, x.change, x.expected, w.games[x.game].version, all, at)]), t)
  }

  ghost function Do(w: World, e: Event): World {
    match e
    case Arrive(game, change, expected) => w.(txns := w.txns + [Txn(game, change, expected, Begun)])
    case Abandon(t) => if t < |w.txns| && w.txns[t].phase != Closed then Closes(w, t) else w
    case Advance(t) =>
      if t >= |w.txns| then w
      else
        var x := w.txns[t];
        match x.phase
        case Begun => if w.status == Draft then Phased(w, t, SawDraft) else Closes(w, t)
        case SawDraft =>
          if x.game >= |w.games| || x.game in w.locks then Closes(w, t)
          else Phased(w.(locks := w.locks[x.game := t]), t, Holding(w.games[x.game]))
        case Holding(seen) =>
          if Mismatch(x.expected, seen.version) || NothingToDo(seen, x.change) then Closes(w, t)
          else Phased(w, t, Written(Applied(seen, x.game, x.change)))
        case Written(row) =>
          if x.game < |w.games| then
            Phased(w, t, Counted(row, x.change.EnterScore? && AllScored(w.games[x.game := row]), |w.log|))
          else w
        case Counted(row, all, at) => if x.game < |w.games| then Commits(w, t, row, all, at) else w
        case Closed => w
  }

  ghost function Interleaved(w: World, events: seq<Event>): World {
    if |events| == 0 then w else Do(Interleaved(w, events[..|events| - 1]), events[|events| - 1])
  }

  predicate Fresh(w: World) { w.txns == [] && w.locks == map[] && w.log == [] }

  // ---------------------------------------------------------------- what every interleaving keeps

  /** Who is past the lock holds it, and the row it read is still the committed one. */
  ghost predicate TxnOk(w: World, t: nat) {
    t < |w.txns| && (w.txns[t].phase.Holding? || w.txns[t].phase.Written? || w.txns[t].phase.Counted?) ==>
      var x := w.txns[t];
      && x.game in w.locks && w.locks[x.game] == t && x.game < |w.games|
      && (x.phase.Holding? ==> x.phase.seen == w.games[x.game])
      && (x.phase.Written? || x.phase.Counted? ==>
            !Mismatch(x.expected, w.games[x.game].version) && !NothingToDo(w.games[x.game], x.change)
            && x.phase.row == Applied(w.games[x.game], x.game, x.change))
  }

  /** The rows are those of the committed changes, applied one after the other. */
  ghost function Replayed(games: seq<GameRow>, log: seq<Commit>): seq<GameRow> {
    if |log| == 0 then games
    else
      var (before, c) := (Replayed(games, log[..|log| - 1]), log[|log| - 1]);
      if c.game < |before| then before[c.game := Applied(before[c.game], c.game, c.change)] else before
  }

  /** Every logged change was made on the version its writer expected, and was a change. */
  ghost predicate Honest(games: seq<GameRow>, log: seq<Commit>) {
    forall i :: 0 <= i < |log| ==>
      var before := Replayed(games, log[..i]);
      log[i].game < |before| && before[log[i].game].version == log[i].version
      && !Mismatch(log[i].expected, log[i].version) && !NothingToDo(before[log[i].game], log[i].change)
  }

  ghost predicate Keeps(w0: World, w: World) {
    && (forall t :: TxnOk(w, t))
    && |w.games| == |w0.games| && w.games == Replayed(w0.games, w.log) && Honest(w0.games, w.log)
  }

  lemma ClosingKeepsTxns(w: World, t: nat)
    requires (forall u :: TxnOk(w, u)) && t < |w.txns|
    ensures forall u :: TxnOk(Closes(w, t), u)
  {
    forall u ensures TxnOk(Closes(w, t), u) { assert TxnOk(w, u); }
  }

  lemma Arrives(w0: World, w: World, e: Event)
    requires Keeps(w0, w) && e.Arrive?
    ensures Keeps(w0, Do(w, e))
  {
    var v := Do(w, e);
    forall t ensures TxnOk(v, t) { assert TxnOk(w, t); }
  }

  lemma ClosesKeeps(w0: World, w: World, t: nat)
    requires Keeps(w0, w) && t < |w.txns|
    ensures Keeps(w0, Closes(w, t))
  {
    ClosingKeepsTxns(w, t);
  }

  /** Nobody else's lock moves when one transaction steps on under its own lock. */
  lemma PhasedKeeps(w0: World, w: World, t: nat, p: Phase)
    requires Keeps(w0, w) && t < |w.txns| && TxnOk(Phased(w, t, p), t)
    ensures Keeps(w0, Phased(w, t, p))
  {
    forall u ensures TxnOk(Phased(w, t, p), u) { assert TxnOk(w, u); }
  }

  lemma Locks(w0: World, w: World, t: nat)
    requires Keeps(w0, w) && t < |w.txns| && w.txns[t].phase.SawDraft?
    requires w.txns[t].game < |w.games| && w.txns[t].game !in w.locks
    ensures Keeps(w0, Phased(w.(locks := w.locks[w.txns[t].game := t]), t, Holding(w.games[w.txns[t].game])))
  {
    var v := Phased(w.(locks := w.locks[w.txns[t].game := t]), t, Holding(w.games[w.txns[t].game]));
    forall u ensures TxnOk(v, u) { assert TxnOk(w, u); }
  }

  lemma ReplayedSnoc(games: seq<GameRow>, log: seq<Commit>, c: Commit)
    requires c.game < |Replayed(games, log)|
    ensures Replayed(games, log + [c])
         == Replayed(games, log)[c.game := Applied(Replayed(games, log)[c.game], c.game, c.change)]
  {
    assert (log + [c])[..|log|] == log;
  }

  lemma HonestSnoc(games: seq<GameRow>, log: seq<Commit>, c: Commit)
    requires Honest(games, log) && c.game < |Replayed(games, log)|
    requires Replayed(games, log)[c.game].version == c.version && !Mismatch(c.expected, c.version)
    requires !NothingToDo(Replayed(games, log)[c.game], c.change)
    ensures Honest(games, log + [c])
  {
    var longer := log + [c];
    forall i | 0 <= i < |longer|
      ensures var before := Replayed(games, longer[..i]);
        longer[i].game < |before| && before[longer[i].game].version == longer[i].version
        && !Mismatch(longer[i].expected, longer[i].version) && !NothingToDo(before[longer[i].game], longer[i].change)
    {
      if i < |log| { assert longer[..i] == log[..i]; } else { assert longer[..i] == log; }
    }
  }

  lemma CommitsKeeps(w0: World, w: World, t: nat, row: GameRow, all: bool, at: nat)
    requires Keeps(w0, w) && t < |w.txns| && w.txns[t].phase == Counted(row, all, at) && w.txns[t].game < |w.games|
    ensures Keeps(w0, Commits(w, t, row, all, at))
  {
    var x, v := w.txns[t], Commits(w, t, row, all, at);
    assert TxnOk(w, t);
    var c := Commit(t, x.game, x.change, x.expected, w.games[x.game].version, all, at);
    ReplayedSnoc(w0.games, w.log, c);
    HonestSnoc(w0.games, w.log, c);
    forall u ensures TxnOk(v, u) { assert TxnOk(w, u); }
  }

  lemma DoKeeps(w0: World, w: World, e: Event)
    requires Keeps(w0, w)
    ensures Keeps(w0, Do(w, e))
  {
    if e.Arrive? {
      Arrives(w0, w, e);
    } else if e.txn < |w.txns| {
      var t := e.txn;
      assert TxnOk(w, t);
      var x := w.txns[t];
      ClosesKeeps(w0, w, t);
      if e.Advance? {
        match x.phase
        case Begun => PhasedKeeps(w0, w, t, SawDraft);
        case SawDraft => if x.game < |w.games| && x.game !in w.locks { Locks(w0, w, t); }
        case Holding(seen) =>
          if !(Mismatch(x.expected, seen.version) || NothingToDo(seen, x.change)) {
            PhasedKeeps(w0, w, t, Written(Applied(seen, x.game, x.change)));
          }
        case Written(row) =>
          PhasedKeeps(w0, w, t, Counted(row, x.change.EnterScore? && AllScored(w.games[x.game := row]), |w.log|));
        case Counted(row, all, at) => CommitsKeeps(w0, w, t, row, all, at);
        case Closed =>
      }
    }
  }

  lemma {:induction false} InterleavingsKeep(w0: World, events: seq<Event>)
    requires Fresh(w0)
    ensures Keeps(w0, Interleaved(w0, events))
  {
    if |events| > 0 {
      InterleavingsKeep(w0, events[..|events| - 1]);
      DoKeeps(w0, Interleaved(w0, events[..|events| - 1]), events[|events| - 1]);
    }
  }

  // ---------------------------------------------------------------- versions

  function CommitsOn(log: seq<Commit>, game: nat): nat {
    if |log| == 0 then 0 else CommitsOn(log[..|log| - 1], game) + if log[|log| - 1].game == game then 1 else 0
  }

  lemma {:induction false} VersionsCount(games: seq<GameRow>, log: seq<Commit>, g: nat)
    requires g < |games|
    ensures |Replayed(games, log)| == |games|
    ensures Replayed(games, log)[g].version == games[g].version + CommitsOn(log, g)
  {
    if |log| > 0 { VersionsCount(games, log[..|log| - 1], g); }
  }

  lemma {:induction false} CommitsGrow(log: seq<Commit>, i: nat, j: nat, g: nat)
    requires i <= j <= |log|
    ensures CommitsOn(log[..i], g) <= CommitsOn(log[..j], g)
    decreases j - i
  {
    if i < j {
      CommitsGrow(log, i, j - 1, g);
      assert log[..j][..j - 1] == log[..j - 1];
    }
  }

  lemma LaterCommitsSeeLaterVersions(games: seq<GameRow>, log: seq<Commit>, i: nat, j: nat)
    requires Honest(games, log) && i < j < |log| && log[i].game == log[j].game
    ensures log[i].version < log[j].version
  {
    var g := log[i].game;
    SizesStay(games, log[..i]);
    VersionsCount(games, log[..i], g);
    VersionsCount(games, log[..j], g);
    assert log[..i + 1][..i] == log[..i];
    CommitsGrow(log, i + 1, j, g);
  }

  lemma {:induction false} SizesStay(games: seq<GameRow>, log: seq<Commit>)
    ensures |Replayed(games, log)| == |games|
  {
    if |log| > 0 { SizesStay(games, log[..|log| - 1]); }
  }

  /** Under any interleaving of any number of writers: the rows are those of the committed changes
      in commit order, and every row's version has grown by one for each change committed on it. */
  lemma RowsAreSerial(w0: World, events: seq<Event>, g: nat)
    requires Fresh(w0) && g < |w0.games|
    ensures var w := Interleaved(w0, events);
      && w.games == Replayed(w0.games, w.log) && |w.games| == |w0.games|
      && w.games[g].version == w0.games[g].version + CommitsOn(w.log, g)
  {
    InterleavingsKeep(w0, events);
    VersionsCount(w0.games, Interleaved(w0, events).log, g);
  }

  /** Of the writers presenting one expected version of one game, at most one commits a change. */
  lemma OneWriterPerVersion(w0: World, events: seq<Event>, i: nat, j: nat)
    requires Fresh(w0)
    requires i < j < |Interleaved(w0, events).log|
    requires Interleaved(w0, events).log[i].game == Interleaved(w0, events).log[j].game
    requires Interleaved(w0, events).log[i].expected.Some?
    ensures Interleaved(w0, events).log[i].expected != Interleaved(w0, events).log[j].expected
  {
    InterleavingsKeep(w0, events);
    LaterCommitsSeeLaterVersions(w0.games, Interleaved(w0, events).log, i, j);
  }
}
