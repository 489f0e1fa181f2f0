/** What interleaving takes from the automatic lock: two last scores at once miss it, and a locked
    session still takes the changes of writers that had seen the draft. Exactly when it does. */
module GranularLocks {
  import opened Options
  import opened SessionTables
  import opened SessionSteps
  import opened GranularRaces

  // ---------------------------------------------------------------- two last scores at once

  lemma OneMore(w0: World, events: seq<Event>, e: Event)
    ensures Interleaved(w0, events + [e]) == Do(Interleaved(w0, events), e)
  {
    assert (events + [e])[..|events|] == events;
  }

  /** The events of one score from the first read to the count, taken alone. */
  function Scoring(t: nat): seq<Event> { [Advance(t), Advance(t), Advance(t), Advance(t)] }

  lemma ScoringReachesTheCount(w0: World, events: seq<Event>, t: nat)
    requires t < |Interleaved(w0, events).txns|
    requires var w := Interleaved(w0, events); var x := w.txns[t];
      x.phase == Begun && x.change.EnterScore? && x.expected.None? && x.game < |w.games| && x.game !in w.locks && w.status == Draft
    ensures var w := Interleaved(w0, events); var x := w.txns[t];
      var row := Applied(w.games[x.game], x.game, x.change);
      Interleaved(w0, events + Scoring(t))
        == Phased(w.(locks := w.locks[x.game := t]), t, Counted(row, AllScored(w.games[x.game := row]), |w.log|))
  {
    var w := Interleaved(w0, events);
    var x := w.txns[t];
    var row := Applied(w.games[x.game], x.game, x.change);
    OneMore(w0, events, Advance(t));
    assert Interleaved(w0, events + [Advance(t)]) == Phased(w, t, SawDraft);
    OneMore(w0, events + [Advance(t)], Advance(t));
    var w2 := Phased(w.(locks := w.locks[x.game := t]), t, Holding(w.games[x.game]));
    assert Interleaved(w0, events + [Advance(t)] + [Advance(t)]) == w2;
    OneMore(w0, events + [Advance(t)] + [Advance(t)], Advance(t));
    assert Interleaved(w0, events + [Advance(t)] + [Advance(t)] + [Advance(t)]) == Phased(w2, t, Written(row));
    OneMore(w0, events + [Advance(t)] + [Advance(t)] + [Advance(t)], Advance(t));
    assert events + [Advance(t)] + [Advance(t)] + [Advance(t)] + [Advance(t)] == events + Scoring(t);
  }

  lemma Arriving(w0: World, events: seq<Event>, game: nat, change: Change)
    ensures var w := Interleaved(w0, events);
      Interleaved(w0, events + [Arrive(game, change, None)]) == w.(txns := w.txns + [Txn(game, change, None, Begun)])
  {
    OneMore(w0, events, Arrive(game, change, None));
  }

  lemma Committing(w0: World, events: seq<Event>, t: nat, row: GameRow, all: bool, at: nat)
    requires var w := Interleaved(w0, events); t < |w.txns| && w.txns[t].phase == Counted(row, all, at) && w.txns[t].game < |w.games|
    ensures Interleaved(w0, events + [Advance(t)]) == Commits(Interleaved(w0, events), t, row, all, at)
  {
    OneMore(w0, events, Advance(t));
  }

  /** Two writers arrive at a fresh draft. */
  lemma TwoArrive(w0: World, c: Change) returns (events: seq<Event>)
    requires Fresh(w0)
    ensures Interleaved(w0, events) == w0.(txns := [Txn(0, c, None, Begun), Txn(1, c, None, Begun)])
  {
    Arriving(w0, [], 0, c);
    Arriving(w0, [] + [Arrive(0, c, None)], 1, c);
    events := [] + [Arrive(0, c, None)] + [Arrive(1, c, None)];
    assert Interleaved(w0, events).txns == [Txn(0, c, None, Begun), Txn(1, c, None, Begun)];
  }

  /** Both writers of the last two scores of a two-game draft, each up to its count. */
  lemma BothCount(w0: World, c: Change) returns (events: seq<Event>)
    requires Fresh(w0) && w0.status == Draft && |w0.games| == 2 && c.EnterScore?
    requires w0.games[0].scoreA.None? && w0.games[1].scoreA.None?
    ensures var w := Interleaved(w0, events);
      && w.games == w0.games && w.log == [] && w.status == Draft && |w.txns| == 2
      && w.txns[0].game == 0 && w.txns[0].phase == Counted(Applied(w0.games[0], 0, c), false, 0)
      && w.txns[1].game == 1 && w.txns[1].phase == Counted(Applied(w0.games[1], 1, c), false, 0)
  {
    events := TwoArrive(w0, c);
    OneLeftUnscored(w0.games, 0, 1, Applied(w0.games[0], 0, c));
    OneLeftUnscored(w0.games, 1, 0, Applied(w0.games[1], 1, c));
    ScoringReachesTheCount(w0, events, 0);
    ScoringReachesTheCount(w0, events + Scoring(0), 1);
    events := events + Scoring(0) + Scoring(1);
  }

  lemma OneLeftUnscored(games: seq<GameRow>, i: nat, j: nat, row: GameRow)
    requires i < |games| && j < |games| && i != j && games[j].scoreA.None?
    ensures !AllScored(games[i := row])
  {
    assert games[i := row][j].scoreA.None?;
  }

  /** Two last scores entered at once each count the other's game as unscored: every game ends up
      scored and the session stays open. */
  lemma ConcurrentLastScoresDoNotLock(w0: World, a: int, b: int) returns (events: seq<Event>)
    requires Fresh(w0) && w0.status == Draft && |w0.games| == 2
    requires w0.games[0].scoreA.None? && w0.games[1].scoreA.None?
    ensures AllScored(Interleaved(w0, events).games) && Interleaved(w0, events).status == Draft
  {
    var c := EnterScore(a, b);
    events := BothCount(w0, c);
    Committing(w0, events, 0, Applied(w0.games[0], 0, c), false, 0);
    events := events + [Advance(0)];
    Committing(w0, events, 1, Applied(w0.games[1], 1, c), false, 0);
    events := events + [Advance(1)];
  }

  // ---------------------------------------------------------------- changes after the lock

  /** The transaction still has a change to make: it is past its checks, or it has seen the draft
      and would pass them on the row as it is. */
  ghost predicate CanStillCommit(w: World, t: nat) {
    t < |w.txns| &&
    var x := w.txns[t];
    match x.phase
    case Begun => false
    case SawDraft =>
      x.game < |w.games| && !Mismatch(x.expected, w.games[x.game].version) && !NothingToDo(w.games[x.game], x.change)
    case Holding(seen) => !Mismatch(x.expected, seen.version) && !NothingToDo(seen, x.change)
    case Written(row) => true
    case Counted(row, all, at) => true
    case Closed => false
  }

  predicate Active(p: Phase) { p.Holding? || p.Written? || p.Counted? }

  /** The lock on a game is held by an unfinished transaction on that game. */
  ghost predicate LockHeld(w: World, g: nat) {
    g in w.locks ==> var t := w.locks[g]; t < |w.txns| && w.txns[t].game == g && Active(w.txns[t].phase)
  }

  ghost predicate LocksHeld(w: World) { forall g :: LockHeld(w, g) }

  lemma ClosingKeepsLocksHeld(w: World, v: World, t: nat)
    requires LocksHeld(w) && t < |w.txns| && v.locks == Closes(w, t).locks && v.txns == Closes(w, t).txns
    ensures LocksHeld(v)
  {
    forall g ensures LockHeld(v, g) { assert LockHeld(w, g); }
  }

  lemma SteppingKeepsLocksHeld(w: World, v: World, t: nat, p: Phase)
    requires LocksHeld(w) && t < |w.txns| && v.txns == Phased(w, t, p).txns && (Active(w.txns[t].phase) ==> Active(p))
    requires v.locks == w.locks || (v.locks == w.locks[w.txns[t].game := t] && Active(p))
    ensures LocksHeld(v)
  {
    forall g ensures LockHeld(v, g) { assert LockHeld(w, g); }
  }

  /** A transaction closes and lets its lock go, or steps on and keeps it. */
  lemma StepsOfOne(w: World, e: Event, t: nat)
    requires !e.Arrive? && e.txn == t < |w.txns|
    ensures var v, p := Do(w, e), Do(w, e).txns[t].phase;
      || v == w
      || (v.locks == Closes(w, t).locks && v.txns == Closes(w, t).txns)
      || (v.txns == Phased(w, t, p).txns && (Active(w.txns[t].phase) ==> Active(p))
          && (v.locks == w.locks || (v.locks == w.locks[w.txns[t].game := t] && Active(p))))
  {
  }

  lemma DoKeepsLocksHeld(w: World, e: Event)
    requires LocksHeld(w)
    ensures LocksHeld(Do(w, e))
  {
    var v := Do(w, e);
    if e.Arrive? {
      forall g ensures LockHeld(v, g) { assert LockHeld(w, g); }
    } else if e.txn < |w.txns| {
      StepsOfOne(w, e, e.txn);
      if v.locks == Closes(w, e.txn).locks && v.txns == Closes(w, e.txn).txns {
        ClosingKeepsLocksHeld(w, v, e.txn);
      } else if v != w {
        SteppingKeepsLocksHeld(w, v, e.txn, v.txns[e.txn].phase);
      }
    }
  }

  lemma {:induction false} LocksAreHeld(w0: World, events: seq<Event>)
    requires Fresh(w0)
    ensures LocksHeld(Interleaved(w0, events))
  {
    if |events| > 0 {
      LocksAreHeld(w0, events[..|events| - 1]);
      DoKeepsLocksHeld(Interleaved(w0, events[..|events| - 1]), events[|events| - 1]);
    }
  }

  // Nobody left: nothing changes.

  lemma NobodyLeftStep(w: World, e: Event)
    requires w.status != Draft && forall t :: !CanStillCommit(w, t)
    ensures var v := Do(w, e);
      && v.games == w.games && v.status == w.status && v.version == w.version && v.log == w.log
      && forall t :: !CanStillCommit(v, t)
  {
    var v := Do(w, e);
    if !e.Arrive? { assert !CanStillCommit(w, e.txn); }
    forall t ensures !CanStillCommit(v, t) { assert !CanStillCommit(w, t); }
  }

  lemma {:induction false} NobodyLeft(w: World, events: seq<Event>)
    requires w.status != Draft && forall t :: !CanStillCommit(w, t)
    ensures var v := Interleaved(w, events);
      && v.games == w.games && v.status == w.status && v.version == w.version && v.log == w.log
      && forall t :: !CanStillCommit(v, t)
  {
    if |events| > 0 {
      NobodyLeft(w, events[..|events| - 1]);
      NobodyLeftStep(Interleaved(w, events[..|events| - 1]), events[|events| - 1]);
    }
  }

  // Somebody left: it can finish.

  /** The row comes out different: its version is the next. */
  lemma CommitChanges(w0: World, w: World, t: nat)
    requires Keeps(w0, w) && t < |w.txns| && w.txns[t].phase.Counted?
    ensures Do(w, Advance(t)).games != w.games
  {
    assert TxnOk(w, t);
    var g := w.txns[t].game;
    assert Do(w, Advance(t)).games[g].version == w.games[g].version + 1;
  }

  /** One step of t on its way to the commit, nothing committed. */
  lemma Onward(w0: World, w: World, t: nat)
    requires Keeps(w0, w) && CanStillCommit(w, t) && w.txns[t].phase.Counted? == false
    requires w.txns[t].phase.SawDraft? ==> w.txns[t].game !in w.locks
    ensures var v := Do(w, Advance(t));
      && Keeps(w0, v) && v.games == w.games && CanStillCommit(v, t)
      && (w.txns[t].phase.SawDraft? ==> v.txns[t].phase.Holding?)
      && (w.txns[t].phase.Holding? ==> v.txns[t].phase.Written?)
      && (w.txns[t].phase.Written? ==> v.txns[t].phase.Counted?)
  {
    assert TxnOk(w, t);
    DoKeeps(w0, w, Advance(t));
  }

  lemma {:induction false} Finishes(w0: World, w: World, t: nat) returns (events: seq<Event>)
    requires Keeps(w0, w) && CanStillCommit(w, t)
    requires w.txns[t].phase.SawDraft? ==> w.txns[t].game !in w.locks
    ensures Interleaved(w, events).games != w.games
    decreases match w.txns[t].phase case SawDraft => 4 case Holding(_) => 3 case Written(_) => 2 case _ => 1
  {
    var v := Do(w, Advance(t));
    if w.txns[t].phase.Counted? {
      CommitChanges(w0, w, t);
      events := [Advance(t)];
      assert events[..0] == [];
    } else {
      Onward(w0, w, t);
      var rest := Finishes(w0, v, t);
      Prepended(w, Advance(t), rest);
      events := [Advance(t)] + rest;
    }
  }

  lemma {:induction false} Prepended(w: World, e: Event, rest: seq<Event>)
    ensures Interleaved(w, [e] + rest) == Interleaved(Do(w, e), rest)
  {
    if |rest| == 0 {
      assert [e] + rest == [e] && [e][..0] == [];
    } else {
      Prepended(w, e, rest[..|rest| - 1]);
      assert ([e] + rest)[..|rest|] == [e] + rest[..|rest| - 1];
    }
  }

  /** The holder of the lock gives up; the rows and the waiting transaction stay as they are. */
  lemma HolderGivesUp(w0: World, w: World, t: nat)
    requires Keeps(w0, w) && LocksHeld(w) && CanStillCommit(w, t) && w.txns[t].phase.SawDraft? && w.txns[t].game in w.locks
    ensures var v := Do(w, Abandon(w.locks[w.txns[t].game]));
      && Keeps(w0, v) && v.games == w.games && CanStillCommit(v, t) && v.txns[t] == w.txns[t] && v.txns[t].game !in v.locks
  {
    var u := w.locks[w.txns[t].game];
    assert LockHeld(w, w.txns[t].game);
    DoKeeps(w0, w, Abandon(u));
  }

  lemma SomebodyLeft(w0: World, w: World, t: nat) returns (events: seq<Event>)
    requires Keeps(w0, w) && LocksHeld(w) && CanStillCommit(w, t)
    ensures Interleaved(w, events).games != w.games
  {
    if w.txns[t].phase.SawDraft? && w.txns[t].game in w.locks {
      var giveUp := Abandon(w.locks[w.txns[t].game]);
      HolderGivesUp(w0, w, t);
      var rest := Finishes(w0, Do(w, giveUp), t);
      Prepended(w, giveUp, rest);
      events := [giveUp] + rest;
    } else {
      events := Finishes(w0, w, t);
    }
  }

  lemma {:induction false} Continued(w0: World, before: seq<Event>, after: seq<Event>)
    ensures Interleaved(w0, before + after) == Interleaved(Interleaved(w0, before), after)
  {
    if |after| == 0 {
      assert before + after == before;
    } else {
      Continued(w0, before, after[..|after| - 1]);
      assert (before + after)[..|before + after| - 1] == before + after[..|after| - 1];
    }
  }

  ghost predicate ChangesLater(w0: World, before: seq<Event>, after: seq<Event>) {
    Interleaved(w0, before + after).games != Interleaved(w0, before).games
  }

  /** A session that is not a draft any more still changes in some continuation, if and only if
      some transaction has a change left to make. */
  lemma LockedRowsChangeIff(w0: World, before: seq<Event>)
    requires Fresh(w0) && Interleaved(w0, before).status != Draft
    ensures (exists after :: ChangesLater(w0, before, after)) <==> exists t :: CanStillCommit(Interleaved(w0, before), t)
  {
    var w := Interleaved(w0, before);
    InterleavingsKeep(w0, before);
    LocksAreHeld(w0, before);
    if t: nat :| CanStillCommit(w, t) {
      var after := SomebodyLeft(w0, w, t);
      Continued(w0, before, after);
      assert ChangesLater(w0, before, after);
    } else {
      forall after ensures !ChangesLater(w0, before, after) {
        NobodyLeft(w, after);
        Continued(w0, before, after);
      }
    }
  }

  /** With every transaction closed, or not yet past the status check, a locked session stays
      exactly as it is, whoever arrives: rows, status and version. */
  lemma QuietLockStays(w0: World, before: seq<Event>, after: seq<Event>)
    requires Fresh(w0) && Interleaved(w0, before).status != Draft
    requires forall x <- Interleaved(w0, before).txns :: x.phase == Begun || x.phase == Closed
    ensures var w, v := Interleaved(w0, before), Interleaved(w0, before + after);
      v.games == w.games && v.status == w.status && v.version == w.version && v.log == w.log
  {
    var w := Interleaved(w0, before);
    forall t: nat ensures !CanStillCommit(w, t) {
      if t < |w.txns| { assert w.txns[t] in w.txns; }
    }
    NobodyLeft(w, after);
    Continued(w0, before, after);
  }

  /** One writer has read the draft status; another sets the last score and locks the session. */
  lemma LockedBehindAWriter(w0: World, c: Change) returns (events: seq<Event>)
    requires Fresh(w0) && w0.status == Draft && |w0.games| == 2 && c.EnterScore?
    requires w0.games[0].scoreA.Some? && w0.games[1].scoreA.None?
    ensures var w := Interleaved(w0, events);
      && w.status == Locked && |w.games| == 2 && w.games[0] == w0.games[0] && w.locks == map[]
      && |w.txns| > 0 && w.txns[0] == Txn(0, c, None, SawDraft)
  {
    Arriving(w0, [], 0, c);
    events := [] + [Arrive(0, c, None)];
    OneMore(w0, events, Advance(0));
    events := events + [Advance(0)];
    assert Interleaved(w0, events).txns == [Txn(0, c, None, SawDraft)];
    Arriving(w0, events, 1, c);
    events := events + [Arrive(1, c, None)];
    ScoringReachesTheCount(w0, events, 1);
    events := events + Scoring(1);
    var row := Applied(w0.games[1], 1, c);
    assert AllScored(w0.games[1 := row]);
    Committing(w0, events, 1, row, true, 0);
    events := events + [Advance(1)];
  }

  /** It does happen: a writer that read the status while the session was a draft commits after
      another has set the last score and locked it. */
  lemma LateWriterChangesALockedSession(w0: World, a: int, b: int) returns (before: seq<Event>, after: seq<Event>)
    requires Fresh(w0) && w0.status == Draft && |w0.games| == 2
    requires w0.games[0].scoreA.Some? && w0.games[1].scoreA.None?
    ensures Interleaved(w0, before).status == Locked && ChangesLater(w0, before, after)
  {
    before := LockedBehindAWriter(w0, EnterScore(a, b));
    var w := Interleaved(w0, before);
    InterleavingsKeep(w0, before);
    LocksAreHeld(w0, before);
    assert CanStillCommit(w, 0);
    after := SomebodyLeft(w0, w, 0);
    Continued(w0, before, after);
  }
}
