/** What a rebuild preserves and determines, from any contents of the tables it overwrites. */
module RatingRebuild {
  import opened RatingMatch
  import opened RatingFold
  import opened RatingLog
  import opened Sorting
  import Text

  ghost predicate UniqueKeys(log: seq<Entry>) {
    forall i, j :: 0 <= i < j < |log| ==> log[i].ev.key != log[j].ev.key
  }

  /** The entry whose event has the key, if its game was played. */
  ghost predicate HasEntry(log: seq<Entry>, key: Key, id: Id, team: Team) {
    exists i :: 0 <= i < |log| && PlaysIn(log[i], key, id, team)
  }

  ghost predicate DisjointSides(log: seq<Entry>) {
    forall en <- log :: en.sideA !! en.sideB
  }

  predicate PlaysIn(en: Entry, key: Key, id: Id, team: Team) {
    TwoSided(en) && en.ev.key == key && id in (if team == A then en.sideA else en.sideB)
  }

  lemma HasEntrySnoc(front: seq<Entry>, last: Entry, key: Key, id: Id, team: Team)
    ensures HasEntry(front + [last], key, id, team) <==> HasEntry(front, key, id, team) || PlaysIn(last, key, id, team)
  {
    var log := front + [last];
    if HasEntry(front, key, id, team) {
      var i :| 0 <= i < |front| && PlaysIn(front[i], key, id, team);
      assert log[i] == front[i];
    }
    if PlaysIn(last, key, id, team) { assert log[|front|] == last; }
  }

  lemma StepDeltasAt(c: Calc, base: Id -> Row, rows: map<Id, Row>, en: Entry, key: Key, id: Id, team: Team)
    requires en.sideA !! en.sideB
    ensures var d := StepDeltas(c, base, rows, en);
      ((key, id) in d && d[(key, id)].team == team) <==> PlaysIn(en, key, id, team)
    ensures (key, id) in StepDeltas(c, base, rows, en) ==> en.ev.key == key
  {
  }

  /** A replay writes one delta for each player of each two-sided event, under his own team. */
  lemma {:induction false} ReplayDeltasAt(c: Calc, base: Id -> Row, log: seq<Entry>, key: Key, id: Id, team: Team)
    requires UniqueKeys(log) && DisjointSides(log)
    ensures (key, id) in ReplayDeltas(c, base, log) && ReplayDeltas(c, base, log)[(key, id)].team == team
       <==> HasEntry(log, key, id, team)
  {
    if |log| > 0 {
      var front, last := log[..|log| - 1], log[|log| - 1];
      assert log == front + [last];
      ReplayDeltasAt(c, base, front, key, id, team);
      HasEntrySnoc(front, last, key, id, team);
      StepDeltasAt(c, base, Replay(c, base, front), last, key, id, team);
      if last.ev.key == key {
        assert forall i :: 0 <= i < |front| ==> front[i] == log[i] && front[i].ev.key != key;
        NoEntryNoDelta(c, base, front, key, id);
      }
    }
  }

  lemma {:induction false} NoEntryNoDelta(c: Calc, base: Id -> Row, log: seq<Entry>, key: Key, id: Id)
    requires forall i :: 0 <= i < |log| ==> log[i].ev.key != key
    ensures (key, id) !in ReplayDeltas(c, base, log)
  {
    if |log| > 0 {
      NoEntryNoDelta(c, base, log[..|log| - 1], key, id);
    }
  }

  /** What a rebuild makes of one event: the same players, unless a side was missing. */
  function Kept(en: Entry): Entry { if TwoSided(en) then en else Entry(en.ev, {}, {}) }

  function KeptAll(log: seq<Entry>): (r: seq<Entry>)
    ensures |r| == |log|
  {
    seq(|log|, i requires 0 <= i < |log| => Kept(log[i]))
  }

  /** The (event, player, team) triples of every two-sided event survive a rebuild. */
  lemma TriplesSurvive(c: Calc, base: Id -> Row, log: seq<Entry>, i: nat)
    requires UniqueKeys(log) && DisjointSides(log) && i < |log|
    ensures EntryOf(ReplayDeltas(c, base, log), log[i].ev) == Kept(log[i])
  {
    var ds, key := ReplayDeltas(c, base, log), log[i].ev.key;
    forall id: Id, team: Team
      ensures id in Side(ds, key, team) <==> id in (if team == A then Kept(log[i]).sideA else Kept(log[i]).sideB)
    {
      ReplayDeltasAt(c, base, log, key, id, team);
      assert id in Side(ds, key, team) <==> (key, id) in ds && ds[(key, id)].team == team;
    }
    assert Side(ds, key, A) == Kept(log[i]).sideA;
    assert Side(ds, key, B) == Kept(log[i]).sideB;
  }

  lemma {:induction false} ReplayOfKept(c: Calc, base: Id -> Row, log: seq<Entry>)
    ensures Replay(c, base, KeptAll(log)) == Replay(c, base, log)
    ensures ReplayDeltas(c, base, KeptAll(log)) == ReplayDeltas(c, base, log)
  {
    if |log| > 0 {
      ReplayOfKept(c, base, log[..|log| - 1]);
      assert KeptAll(log)[..|log| - 1] == KeptAll(log[..|log| - 1]);
    }
  }

  // ---------------------------------------------------------------- which base rows matter

  ghost predicate SameBase(b1: Id -> Row, b2: Id -> Row, ids: set<Id>) {
    forall id <- ids :: b1(id) == b2(id)
  }

  ghost predicate PlayersWithin(log: seq<Entry>, ids: set<Id>) {
    forall en <- log :: en.sideA <= ids && en.sideB <= ids
  }

  lemma RowUsesOwnBase(c: Calc, b1: Id -> Row, b2: Id -> Row, rows: map<Id, Row>, en: Entry, ids: set<Id>, id: Id)
    requires SameBase(b1, b2, ids) && en.sideA <= ids && en.sideB <= ids && id in rows.Keys + en.sideA + en.sideB
    requires Facing(b1, rows, en.sideA) == Facing(b2, rows, en.sideA)
    requires Facing(b1, rows, en.sideB) == Facing(b2, rows, en.sideB)
    ensures StepRow(c, b1, rows, en, id) == StepRow(c, b2, rows, en, id)
    ensures StepDelta(c, b1, rows, en, id) == StepDelta(c, b2, rows, en, id)
  {
    assert Get(b1, rows, id) == Get(b2, rows, id);
  }

  lemma StepUsesOwnBase(c: Calc, b1: Id -> Row, b2: Id -> Row, rows: map<Id, Row>, en: Entry, ids: set<Id>)
    requires SameBase(b1, b2, ids) && en.sideA <= ids && en.sideB <= ids
    ensures Step(c, b1, rows, en) == Step(c, b2, rows, en)
    ensures StepDeltas(c, b1, rows, en) == StepDeltas(c, b2, rows, en)
  {
    FacingUsesOwnBase(b1, b2, rows, en.sideA, ids);
    FacingUsesOwnBase(b1, b2, rows, en.sideB, ids);
    forall id | id in rows.Keys + en.sideA + en.sideB {
      RowUsesOwnBase(c, b1, b2, rows, en, ids, id);
    }
  }

  lemma FacingUsesOwnBase(b1: Id -> Row, b2: Id -> Row, rows: map<Id, Row>, side: set<Id>, ids: set<Id>)
    requires SameBase(b1, b2, ids) && side <= ids
    ensures Facing(b1, rows, side) == Facing(b2, rows, side)
  {
    SortedIdsEnumerate(side);
    StatesUseOwnBase(b1, b2, rows, SortedIds(side), ids);
  }

  lemma StatesUseOwnBase(b1: Id -> Row, b2: Id -> Row, rows: map<Id, Row>, list: seq<Id>, ids: set<Id>)
    requires SameBase(b1, b2, ids) && forall id <- list :: id in ids
    ensures States(b1, rows, list) == States(b2, rows, list)
  {}

  /** Base rows of players outside the log are never looked at. */
  lemma {:induction false} ReplayUsesOwnBase(c: Calc, b1: Id -> Row, b2: Id -> Row, log: seq<Entry>, ids: set<Id>)
    requires SameBase(b1, b2, ids) && PlayersWithin(log, ids)
    ensures Replay(c, b1, log) == Replay(c, b2, log)
    ensures ReplayDeltas(c, b1, log) == ReplayDeltas(c, b2, log)
    ensures Replay(c, b1, log).Keys <= ids
  {
    if |log| > 0 {
      var front, last := log[..|log| - 1], log[|log| - 1];
      assert last in log && forall en <- front :: en in log;
      ReplayUsesOwnBase(c, b1, b2, front, ids);
      StepUsesOwnBase(c, b1, b2, Replay(c, b1, front), last, ids);
    }
  }

  // ---------------------------------------------------------------- the rebuild itself

  function LogOf(db: DB): seq<Entry> { Entries(InOrderOfPlay(db.events), db.deltas) }

  ghost predicate UniqueEvents(events: seq<Event>) {
    forall i, j :: 0 <= i < j < |events| ==> events[i].key != events[j].key
  }

  lemma EventOrderIsStrictWeak()
    ensures StrictWeak(EventBefore)
  {
    Text.LessIsStrictWeak();
    forall x, y, z | !EventBefore(x, y) && !EventBefore(y, z) ensures !EventBefore(x, z) {
      Text.LessIsTotal(x.sourceId, y.sourceId);
      Text.LessIsTotal(y.sourceId, z.sourceId);
      Text.LessIsTotal(x.gameOrder, y.gameOrder);
    }
  }

  lemma LogHasUniqueKeys(db: DB)
    requires UniqueEvents(db.events)
    ensures UniqueKeys(LogOf(db)) && DisjointSides(LogOf(db))
  {
    EventOrderIsStrictWeak();
    SortSorts(db.events, EventBefore);
    var sorted := InOrderOfPlay(db.events);
    forall i, j | 0 <= i < j < |sorted| ensures sorted[i].key != sorted[j].key {
      PairIsContained(sorted, i, j);
      var k, l := PairIsFound(db.events, sorted[i], sorted[j]);
    }
  }

  /** Every player of the deltas table has a row. */
  ghost predicate DeltasAreRated(db: DB) {
    forall k <- db.deltas :: k.1 in db.players
  }

  lemma LogPlayersAreRated(db: DB)
    requires DeltasAreRated(db)
    ensures PlayersWithin(LogOf(db), db.players.Keys)
  {}

  /** From arbitrary ratings in rating_players, a rebuild depends only on the events, the team
      each delta assigns, the tiers and the configuration, and the set of rated ids. */
  lemma RebuildIsSelfStabilising(env: Env, db1: DB, db2: DB)
    requires db1.events == db2.events && db1.sources == db2.sources && db1.players.Keys == db2.players.Keys
    requires db1.deltas.Keys == db2.deltas.Keys && forall k <- db1.deltas :: db1.deltas[k].team == db2.deltas[k].team
    ensures Rebuilt(env, db1) == Rebuilt(env, db2)
  {
    var events := InOrderOfPlay(db1.events);
    forall i | 0 <= i < |events| ensures EntryOf(db1.deltas, events[i]) == EntryOf(db2.deltas, events[i]) {
      assert Side(db1.deltas, events[i].key, A) == Side(db2.deltas, events[i].key, A);
      assert Side(db1.deltas, events[i].key, B) == Side(db2.deltas, events[i].key, B);
    }
    assert LogOf(db1) == LogOf(db2);
  }

  lemma RebuiltLog(env: Env, db: DB)
    requires UniqueEvents(db.events)
    ensures LogOf(Rebuilt(env, db)) == KeptAll(LogOf(db))
  {
    LogHasUniqueKeys(db);
    var log := LogOf(db);
    var base := RebuildBase(env, db.players.Keys);
    forall i | 0 <= i < |log| ensures LogOf(Rebuilt(env, db))[i] == Kept(log[i]) {
      TriplesSurvive(env.arith, base, log, i);
    }
  }

  /** A second rebuild changes nothing. */
  lemma RebuildIsIdempotent(env: Env, db: DB)
    requires UniqueEvents(db.events) && DeltasAreRated(db)
    ensures Rebuilt(env, Rebuilt(env, db)) == Rebuilt(env, db)
  {
    var base, log := RebuildBase(env, db.players.Keys), LogOf(db);
    LogPlayersAreRated(db);
    ReplayUsesOwnBase(env.arith, base, base, log, db.players.Keys);
    var again := Rebuilt(env, db);
    assert again.players.Keys == db.players.Keys;
    RebuiltLog(env, db);
    ReplayOfKept(env.arith, base, log);
  }
}
