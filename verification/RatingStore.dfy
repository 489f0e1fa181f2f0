/** The transactions over the rating tables: the incremental ingest of one source, the full
    rebuild, and the revert. The two replaying loops are written separately, as in the program,
    and each is proved against the tables-as-values of RatingLog. */
module RatingStore {
  import opened Glicko
  import opened Options
  import opened RatingConfig
  import opened RatingMatch
  import opened RatingFold
  import opened RatingLog
  import opened Sorting

  /** The body shared by the update loops: idle growth, the new state, the counters, the delta. */
  method UpdateRuntime(c: Calc, rt: Row, u: Upd, t: Terms) returns (rt': Row, d: Delta)
    ensures rt' == Played(c, rt, u.opps, u.out, t)
    ensures d == DeltaOf(c, rt, u.team, u.opps, u.out, t)
  {
    var st := State(rt.rating, rt.rd);
    if rt.last.Some? && t.date > rt.last.value {
      st := st.(rd := c.grow(st.rd, t.date - rt.last.value));
    }
    var expected := c.mean(st.rating, u.opps);
    var (newSt, delta) := c.update(st, u.opps, u.out, t.movm, t.weight);
    rt' := rt.(rating := newSt.rating, rd := newSt.rd);
    rt' := rt'.(games := rt'.games + 1);
    if u.out == 1.0 {
      rt' := rt'.(wins := rt'.wins + 1);
    } else if u.out == 0.0 {
      rt' := rt'.(losses := rt'.losses + 1);
    }
    rt' := rt'.(last := Some(t.date));
    if newSt.rating > rt'.peak { rt' := rt'.(peak := newSt.rating); }
    var outcome := W;
    if u.out == 0.0 { outcome := L; }
    d := Delta(u.team, outcome, expected, Round4(t.movm), delta, newSt.rating);
  }

  lemma SortKeepsLength(ms: seq<RawMatch>)
    ensures |SortMatchesByOrder(ms)| == |ms|
  {
    OrdersAreStrictWeak();
    SortSorts(ms, MatchBefore);
  }

  class RatingStore {
    const env: Env
    var events: seq<Event>
    var deltas: map<(Key, Id), Delta>
    var players: map<Id, Row>
    var sources: map<string, SourceRow>

    function Db(): DB
      reads this
    {
      DB(events, deltas, players, sources)
    }

    constructor (env: Env)
      ensures this.env == env && Db() == DB([], map[], map[], map[])
    {
      this.env := env;
      events, deltas, players, sources := [], map[], map[], map[];
    }

    // -------------------------------------------------------------- ingest

    /** Matches that absence or the season start do not rule out. */
    method FilterPlayable(matches: seq<RawMatch>) returns (playable: seq<RawMatch>, skipped: seq<Skipped>)
      ensures playable == Playable(env.cfg, matches) && skipped == Unplayable(env.cfg, matches)
    {
      playable, skipped := [], [];
      for i := 0 to |matches|
        invariant playable == Playable(env.cfg, matches[..i]) && skipped == Unplayable(env.cfg, matches[..i])
      {
        assert matches[..i + 1][..i] == matches[..i];
        var m := matches[i];
        var void := false;
        if env.cfg.absentPolicy == Some(SkipGame) { void := IsVoid(m); }
        if void {
          skipped := skipped + [Skipped(m.stableGameId, VoidGame)];
        } else if env.cfg.seasonStart.Some? && m.date < env.cfg.seasonStart.value {
          skipped := skipped + [Skipped(m.stableGameId, PreSeason)];
        } else {
          playable := playable + [m];
        }
      }
      assert matches[..|matches|] == matches;
    }

    /** Drops what the batch repeats and what is logged already. */
    method Deduplicate(matches: seq<RawMatch>, logged: set<Key>) returns (batch: seq<RawMatch>, stale: seq<Skipped>)
      ensures batch == Fresh(matches, logged) && stale == Stale(matches, logged)
    {
      var seen: set<Key> := {};
      batch, stale := [], [];
      for i := 0 to |matches|
        invariant seen == KeysOf(matches[..i])
        invariant batch == Fresh(matches[..i], logged) && stale == Stale(matches[..i], logged)
      {
        var m := matches[i];
        OneMoreMatch(matches, i, logged);
        var k := MatchKey(m);
        if k in seen {
          stale := stale + [Skipped(m.stableGameId, DuplicateInBatch)];
        } else {
          seen := seen + {k};
          if k in logged {
            stale := stale + [Skipped(m.stableGameId, AlreadyIngested)];
          } else {
            batch := batch + [m];
          }
        }
      }
      assert matches[..|matches|] == matches;
    }

    /** What the loop over the first i + 1 matches does to the last of them. */
    lemma OneMoreMatch(matches: seq<RawMatch>, i: nat, logged: set<Key>)
      requires i < |matches|
      ensures var front, m, more := matches[..i], matches[i], matches[..i + 1];
        && KeysOf(more) == KeysOf(front) + {MatchKey(m)}
        && Fresh(more, logged) == Fresh(front, logged) + (if MatchKey(m) in KeysOf(front) || MatchKey(m) in logged then [] else [m])
        && Stale(more, logged) == Stale(front, logged)
             + (if MatchKey(m) in KeysOf(front) then [Skipped(m.stableGameId, DuplicateInBatch)]
                else if MatchKey(m) in logged then [Skipped(m.stableGameId, AlreadyIngested)] else [])
    {
      var more := matches[..i + 1];
      assert more[..|more| - 1] == matches[..i] && more == matches[..i] + [matches[i]];
      KeysOfSnoc(matches[..i], matches[i]);
    }

    lemma KeysOfSnoc(front: seq<RawMatch>, m: RawMatch)
      ensures KeysOf(front + [m]) == KeysOf(front) + {MatchKey(m)}
    {
      assert m in front + [m];
      forall x | x in front ensures MatchKey(x) in KeysOf(front + [m]) { assert x in front + [m]; }
    }

    /** Names of real players to player ids, over all matches. */
    ghost predicate Resolves(playerIDs: map<string, Id>, ms: seq<RawMatch>) {
      && playerIDs.Keys == RatedNames(env, ms) && playerIDs.Values == Named(env, ms)
      && forall m <- ms, p <- m.players | !p.placeholder ::
           Resolve(env, p) == if p.name in playerIDs then Some(playerIDs[p.name]) else None
    }

    ghost predicate NamedIn(ms: seq<RawMatch>, n: string) { exists m <- ms, p <- m.players :: !p.placeholder && p.name == n }

    /** Every name found belongs to a real player of some match, and leads to his id. */
    ghost predicate Found(out: map<string, Id>, ms: seq<RawMatch>) {
      forall n <- out :: n != "" && n in env.alias && out[n] == env.alias[n] && NamedIn(ms, n)
    }

    /** No player that resolves is missing. */
    ghost predicate Covers(out: map<string, Id>, ps: seq<RawPlayer>) {
      forall k :: 0 <= k < |ps| && Resolve(env, ps[k]).Some? ==> ps[k].name in out
    }

    ghost predicate CoversAll(out: map<string, Id>, ms: seq<RawMatch>) {
      forall i :: 0 <= i < |ms| ==> Covers(out, ms[i].players)
    }

    lemma Resolved(out: map<string, Id>, ms: seq<RawMatch>, m: RawMatch, p: RawPlayer)
      requires Found(out, ms) && CoversAll(out, ms) && m in ms && p in m.players
      ensures Resolve(env, p).Some? ==> p.name in out
      ensures !p.placeholder ==> Resolve(env, p) == if p.name in out then Some(out[p.name]) else None
    {
      var i :| 0 <= i < |ms| && ms[i] == m;
      assert Covers(out, ms[i].players);
      var k :| 0 <= k < |m.players| && m.players[k] == p;
    }

    lemma FoundIsRated(out: map<string, Id>, ms: seq<RawMatch>, n: string)
      requires Found(out, ms) && n in out
      ensures n in RatedNames(env, ms) && out[n] in Named(env, ms)
    {
      assert NamedIn(ms, n);
      var m, p :| m in ms && p in m.players && !p.placeholder && p.name == n;
      assert Resolve(env, p) == Some(out[n]);
    }

    lemma KeysAreRated(out: map<string, Id>, ms: seq<RawMatch>)
      requires Found(out, ms) && CoversAll(out, ms)
      ensures out.Keys == RatedNames(env, ms)
    {
      forall n ensures n in out.Keys <==> n in RatedNames(env, ms) {
        if n in out.Keys { FoundIsRated(out, ms, n); }
        if n in RatedNames(env, ms) {
          var m, p :| m in ms && p in m.players && Resolve(env, p).Some? && p.name == n;
          Resolved(out, ms, m, p);
        }
      }
    }

    lemma ValuesAreNamed(out: map<string, Id>, ms: seq<RawMatch>)
      requires Found(out, ms) && CoversAll(out, ms)
      ensures out.Values == Named(env, ms)
    {
      forall id ensures id in out.Values <==> id in Named(env, ms) {
        if id in out.Values {
          var n :| n in out && out[n] == id;
          FoundIsRated(out, ms, n);
        }
        if id in Named(env, ms) {
          var m, p :| m in ms && p in m.players && Resolve(env, p).Some? && Resolve(env, p).value == id;
          Resolved(out, ms, m, p);
          assert out[p.name] == id;
        }
      }
    }

    lemma AllResolved(out: map<string, Id>, ms: seq<RawMatch>)
      requires Found(out, ms) && CoversAll(out, ms)
      ensures Resolves(out, ms)
    {
      KeysAreRated(out, ms);
      ValuesAreNamed(out, ms);
      forall m, p | m in ms && p in m.players && !p.placeholder
        ensures Resolve(env, p) == if p.name in out then Some(out[p.name]) else None
      {
        Resolved(out, ms, m, p);
      }
    }

    method ResolveMatch(m: RawMatch, before: map<string, Id>, ghost ms: seq<RawMatch>) returns (out: map<string, Id>)
      requires m in ms && Found(before, ms)
      ensures Found(out, ms) && Covers(out, m.players) && before.Keys <= out.Keys
    {
      out := before;
      for j := 0 to |m.players|
        invariant Found(out, ms) && before.Keys <= out.Keys
        invariant forall k :: 0 <= k < j && Resolve(env, m.players[k]).Some? ==> m.players[k].name in out
      {
        var p := m.players[j];
        if !p.placeholder && p.name != "" && p.name !in out && p.name in env.alias {
          assert p in m.players && NamedIn(ms, p.name);
          out := out[p.name := env.alias[p.name]];
        }
      }
    }

    method ResolveRatingPlayers(ms: seq<RawMatch>) returns (out: map<string, Id>)
      ensures Resolves(out, ms)
    {
      out := map[];
      for i := 0 to |ms|
        invariant Found(out, ms)
        invariant forall k :: 0 <= k < i ==> Covers(out, ms[k].players)
      {
        assert ms[i] in ms;
        ghost var before := out;
        out := ResolveMatch(ms[i], out, ms);
        forall k | 0 <= k < i ensures Covers(out, ms[k].players) { assert Covers(before, ms[k].players); }
      }
      AllResolved(out, ms);
    }

    method TeamPlayersOf(m: RawMatch, team: Team) returns (ps: seq<RawPlayer>)
      ensures ps == TeamPlayers(env, m, team)
      ensures forall p <- ps :: p in m.players && !p.placeholder
    {
      if env.cfg.absentPolicy == Some(Count) {
        ps := PlayersByTeamInclAbsent(m, team);
        SelectMembers(m.players, Real(team));
      } else {
        ps := PlayersByTeam(m, team);
        SelectMembers(m.players, Present(team));
      }
    }

    /** The players of a side that the match may rate. */
    method EligibleOf(m: RawMatch, team: Team, playerIDs: map<string, Id>, ghost ms: seq<RawMatch>) returns (ids: seq<Id>)
      requires Resolves(playerIDs, ms) && m in ms
      ensures ids == Eligible(env, m, team)
      ensures forall id <- ids :: id in playerIDs.Values
    {
      var ps := TeamPlayersOf(m, team);
      ids := [];
      ghost var fielded: seq<Id> := [];
      for i := 0 to |ps|
        invariant fielded == ResolveAll(env, ps[..i]) && ids == Gate(env, m.date, fielded)
        invariant forall id <- ids :: id in playerIDs.Values
      {
        assert ps[..i + 1][..i] == ps[..i];
        var p := ps[i];
        assert p in ps;
        if p.name in playerIDs {
          var pid := playerIDs[p.name];
          fielded := fielded + [pid];
          assert fielded[..|fielded| - 1] == ResolveAll(env, ps[..i]);
          if pid !in env.registeredAt || m.date >= env.registeredAt[pid] { ids := ids + [pid]; }
        }
      }
      assert ps[..|ps|] == ps;
    }

    lemma OneMoreResolved(ps: seq<RawPlayer>, i: nat)
      requires i < |ps|
      ensures ResolveAll(env, ps[..i + 1]) ==
        ResolveAll(env, ps[..i]) + if Resolve(env, ps[i]).Some? then [Resolve(env, ps[i]).value] else []
    {
      assert ps[..i + 1][..i] == ps[..i];
    }

    lemma OneMoreFaced(rows: map<Id, Row>, faced: seq<Id>, id: Id)
      requires id in rows
      ensures States(Base(env), rows, faced + [id]) == States(Base(env), rows, faced) + [State(rows[id].rating, rows[id].rd)]
    {
      StatesOfConcat(Base(env), rows, faced, [id]);
    }

    /** The states of the players that resolve. */
    method KnownOpponents(ps: seq<RawPlayer>, playerIDs: map<string, Id>, runtime: map<Id, Row>, ghost stored: map<Id, Row>)
      returns (opps: seq<State>)
      requires forall p <- ps :: Resolve(env, p) == if p.name in playerIDs then Some(playerIDs[p.name]) else None
      requires runtime.Keys == playerIDs.Values
      ensures opps == States(Base(env), stored + runtime, ResolveAll(env, ps))
    {
      opps := [];
      for i := 0 to |ps|
        invariant opps == States(Base(env), stored + runtime, ResolveAll(env, ps[..i]))
      {
        var p := ps[i];
        assert p in ps;
        OneMoreResolved(ps, i);
        if p.name in playerIDs {
          var pid := playerIDs[p.name];
          OneMoreFaced(stored + runtime, ResolveAll(env, ps[..i]), pid);
          opps := opps + [State(runtime[pid].rating, runtime[pid].rd)];
        }
      }
      assert ps[..|ps|] == ps;
    }

    /** The opponents seen by whoever plays against oppTeam. */
    method OpponentsFor(m: RawMatch, oppTeam: Team, playerIDs: map<string, Id>, runtime: map<Id, Row>,
                        ghost stored: map<Id, Row>, ghost ms: seq<RawMatch>) returns (opps: seq<State>)
      requires Resolves(playerIDs, ms) && m in ms && runtime.Keys == playerIDs.Values
      ensures opps == Opponents(env, stored + runtime, m, oppTeam)
    {
      var ps := TeamPlayersOf(m, oppTeam);
      opps := KnownOpponents(ps, playerIDs, runtime, stored);
      var unknown := PlaceholdersByTeam(m, oppTeam);
      ghost var known := opps;
      for i := 0 to |unknown|
        invariant opps == known + seq(i, _ => State(env.cfg.params.initialRating, env.cfg.params.initialRD))
      {
        opps := opps + [State(env.cfg.params.initialRating, env.cfg.params.initialRD)];
      }
    }

    /** The stored row, or the base row formed from the player's tier. */
    method LoadRuntime(stored: map<Id, Row>, id: Id) returns (rt: Row)
      ensures rt == Get(Base(env), stored, id)
    {
      rt := NewRow(env.cfg, env.cfg.params.initialRating);
      if id in stored {
        rt := stored[id];
      } else {
        var tier := TierOf(env, id);
        if tier != "" {
          var init := FormingForTier(env.cfg, tier);
          if init.Some? { rt := rt.(rating := init.value, peak := init.value); }
        }
      }
    }

    method LoadAll(stored: map<Id, Row>, ids: set<Id>) returns (runtime: map<Id, Row>)
      ensures runtime.Keys == ids && stored + runtime == Filled(Base(env), stored, ids)
    {
      runtime := map[];
      var rest := ids;
      while rest != {}
        invariant rest <= ids
        invariant runtime == map id | id in ids - rest :: Get(Base(env), stored, id)
      {
        var id :| id in rest;
        var rt := LoadRuntime(stored, id);
        runtime := runtime[id := rt];
        rest := rest - {id};
      }
    }

    /** Upserts every runtime row. */
    method Flush(stored: map<Id, Row>, runtime: map<Id, Row>) returns (rows: map<Id, Row>)
      ensures rows == stored + runtime
    {
      rows := stored;
      var rest := runtime.Keys;
      while rest != {}
        invariant rest <= runtime.Keys
        invariant rows == stored + map id | id in runtime.Keys - rest :: runtime[id]
      {
        var id :| id in rest;
        rows := rows[id := runtime[id]];
        rest := rest - {id};
      }
    }

    /** ingest: everything between the advisory lock and the commit. Work happens on copies that
        replace the tables only where the program commits. */
    method Ingest(src: Source) returns (reply: Reply)
      modifies this
      ensures (Db(), reply) == Ingested(env, old(Db()), src)
    {
      if env.cfg.ingestLockedOnly && !src.final { return NotFinal; }
      var fingerprint := SourceFingerprint(src.matches);
      var reconcile := false;
      var tx := Db();
      if src.sourceId in sources {
        var known := sources[src.sourceId].fingerprint;
        if known == Some(fingerprint) { return Done(0, [], 0, false); }
        if known.Some? {
          if !env.cfg.autoReconcile { return SourceChanged; }
          reconcile := true;
          tx := WithoutEvents(tx, src.sourceId);
        }
      }

      var out;
      out, reply := IngestFrom(src, tx, reconcile);
      events, deltas, players, sources := out.events, out.deltas, out.players, out.sources;
    }

    method IngestFrom(src: Source, cut: DB, reconcile: bool) returns (out: DB, reply: Reply)
      ensures (out, reply) == IngestedFrom(env, Db(), cut, src, reconcile)
    {
      out := Db();
      var playable, skipped := FilterPlayable(src.matches);
      if |playable| == 0 {
        if src.final {
          out := cut;
          if src.sourceId !in cut.sources {
            out := cut.(sources := cut.sources[src.sourceId := SourceRow(src.kind, None, src.final)]);
          }
        }
        return out, Done(0, skipped, 0, reconcile);
      }
      playable := SortMatchesByOrder(playable);
      SortKeepsLength(Playable(env.cfg, src.matches));
      var log := InOrderOfPlay(cut.events);
      if |log| > 0 {
        var newest := log[|log| - 1];
        if !Chronological(playable[0].date, src.createdAt, src.sourceId, newest) { return out, OutOfOrder; }
      }
      var batch, stale := Deduplicate(playable, Keys(cut.events));
      skipped := skipped + stale;
      if |batch| == 0 { return out, Done(0, skipped, 0, reconcile); }
      var processed, unrated, names;
      out, processed, unrated, names := ProcessBatch(src, cut, batch);
      reply := Done(processed, skipped + unrated, names, reconcile);
    }

    /** From resolving the players to recording the source. */
    method ProcessBatch(src: Source, db: DB, batch: seq<RawMatch>)
      returns (tx: DB, processed: nat, unrated: seq<Skipped>, names: nat)
      ensures tx == Committed(env, db, src, batch)
      ensures processed == Processed(env, batch) && unrated == Unrated(env, batch) && names == |RatedNames(env, batch)|
    {
      var playerIDs := ResolveRatingPlayers(batch);
      var ids := playerIDs.Values;
      var runtime := LoadAll(db.players, ids);
      ghost var filled := db.(players := db.players + runtime);
      tx, runtime, processed, unrated := RecordBatch(src, db, batch, playerIDs, runtime);
      var rows := Flush(db.players, runtime);
      tx := tx.(players := rows);
      CommittedFrom(src, db, batch, filled, tx);
      if processed > 0 {
        tx := tx.(sources := tx.sources[src.sourceId := IngestedRow(tx, src)]);
      }
      names := |playerIDs.Keys|;
    }

    lemma CommittedFrom(src: Source, db: DB, batch: seq<RawMatch>, filled: DB, played: DB)
      requires filled == db.(players := Filled(Base(env), db.players, Named(env, batch)))
      requires played == RecordedAll(env, src, filled, batch) && played.sources == db.sources
      ensures Committed(env, db, src, batch) ==
        if Processed(env, batch) > 0 then played.(sources := played.sources[src.sourceId := IngestedRow(played, src)]) else played
    {
    }

    /** The loop over the batch; rows are changed in the runtime only. */
    method RecordBatch(src: Source, db: DB, batch: seq<RawMatch>, playerIDs: map<string, Id>, rows: map<Id, Row>)
      returns (tx: DB, runtime: map<Id, Row>, processed: nat, unrated: seq<Skipped>)
      requires Resolves(playerIDs, batch) && rows.Keys == playerIDs.Values
      ensures runtime.Keys == rows.Keys && tx.players == db.players && tx.sources == db.sources
      ensures tx.(players := db.players + runtime) == RecordedAll(env, src, db.(players := db.players + rows), batch)
      ensures processed == Processed(env, batch) && unrated == Unrated(env, batch)
    {
      tx, runtime, processed, unrated := db, rows, 0, [];
      ghost var start := db.(players := db.players + rows);
      for i := 0 to |batch|
        invariant runtime.Keys == rows.Keys && tx.players == db.players && tx.sources == db.sources
        invariant tx.(players := db.players + runtime) == RecordedAll(env, src, start, batch[..i])
        invariant processed == Processed(env, batch[..i]) && unrated == Unrated(env, batch[..i])
      {
        assert batch[..i + 1][..i] == batch[..i];
        var recorded;
        tx, runtime, recorded := RecordMatch(src, batch[i], batch, playerIDs, tx, runtime);
        if recorded {
          processed := processed + 1;
        } else {
          unrated := unrated + [Skipped(batch[i].stableGameId, NobodyEligible)];
        }
      }
      assert batch[..|batch|] == batch;
    }

    /** The body of the main ingest loop: insert the event, queue the updates, apply them. */
    method RecordMatch(src: Source, m: RawMatch, ghost ms: seq<RawMatch>, playerIDs: map<string, Id>, tx: DB, runtime: map<Id, Row>)
      returns (tx': DB, runtime': map<Id, Row>, recorded: bool)
      requires Resolves(playerIDs, ms) && m in ms && runtime.Keys == playerIDs.Values
      ensures runtime'.Keys == runtime.Keys && tx'.players == tx.players && tx'.sources == tx.sources
      ensures recorded <==> HasBothSides(env, m)
      ensures tx'.(players := tx.players + runtime') == Recorded(env, src, tx.(players := tx.players + runtime), m)
    {
      tx', runtime', recorded := tx, runtime, false;
      var eligibleA := EligibleOf(m, A, playerIDs, ms);
      var eligibleB := EligibleOf(m, B, playerIDs, ms);
      if |eligibleA| == 0 || |eligibleB| == 0 { return; }
      tx', runtime' := WriteMatch(src, m, ms, playerIDs, tx, runtime, eligibleA, eligibleB);
      recorded := true;
    }

    method WriteMatch(src: Source, m: RawMatch, ghost ms: seq<RawMatch>, playerIDs: map<string, Id>, tx: DB, runtime: map<Id, Row>,
                      eligibleA: seq<Id>, eligibleB: seq<Id>)
      returns (tx': DB, runtime': map<Id, Row>)
      requires Resolves(playerIDs, ms) && m in ms && runtime.Keys == playerIDs.Values && HasBothSides(env, m)
      requires eligibleA == Eligible(env, m, A) && eligibleB == Eligible(env, m, B)
      requires forall id <- eligibleA + eligibleB :: id in runtime
      ensures runtime'.Keys == runtime.Keys && tx'.players == tx.players && tx'.sources == tx.sources
      ensures tx'.(players := tx.players + runtime') == Recorded(env, src, tx.(players := tx.players + runtime), m)
    {
      tx' := tx;
      var ev := EventOf(env, src, m);
      var weight := PhaseWeight(env.cfg, m.phase);
      if weight <= 0.0 { weight := 1.0; }
      var t := Terms(m.date, env.arith.movm(m.scoreA, m.scoreB, m.target), weight);
      var updates := QueueUpdates(m, eligibleA, eligibleB, playerIDs, runtime, tx.players, ms);
      var ds;
      runtime', ds := ApplyUpdates(ev.key, updates, t, runtime, Base(env), tx.players);
      tx' := tx'.(events := tx'.events + [ev], deltas := tx'.deltas + ds);
    }

    method QueueUpdates(m: RawMatch, eligibleA: seq<Id>, eligibleB: seq<Id>, playerIDs: map<string, Id>, runtime: map<Id, Row>,
                        ghost stored: map<Id, Row>, ghost ms: seq<RawMatch>)
      returns (updates: seq<Upd>)
      requires Resolves(playerIDs, ms) && m in ms && runtime.Keys == playerIDs.Values
      requires eligibleA == Eligible(env, m, A) && eligibleB == Eligible(env, m, B)
      requires forall id <- eligibleA + eligibleB :: id in runtime
      ensures updates == MatchUpdates(env, stored + runtime, m)
      ensures forall u <- updates :: u.id in runtime
    {
      var outcomeA := 0.0;
      if m.scoreA > m.scoreB { outcomeA := 1.0; } else if m.scoreA == m.scoreB { outcomeA := 0.5; }
      var outcomeB := 1.0 - outcomeA;
      var sideA := QueueAgainst(m, eligibleA, A, outcomeA, B, playerIDs, runtime, stored, ms);
      var sideB := QueueAgainst(m, eligibleB, B, outcomeB, A, playerIDs, runtime, stored, ms);
      UpdateTargets(eligibleA, eligibleB, outcomeA, Opponents(env, stored + runtime, m, B), Opponents(env, stored + runtime, m, A));
      updates := sideA + sideB;
    }

    /** The updates of one side, each with the opponents gathered anew. */
    method QueueAgainst(m: RawMatch, ids: seq<Id>, team: Team, out: real, oppTeam: Team, playerIDs: map<string, Id>,
                        runtime: map<Id, Row>, ghost stored: map<Id, Row>, ghost ms: seq<RawMatch>)
      returns (updates: seq<Upd>)
      requires Resolves(playerIDs, ms) && m in ms && runtime.Keys == playerIDs.Values
      ensures updates == SideUpdates(ids, team, out, Opponents(env, stored + runtime, m, oppTeam))
    {
      updates := [];
      for i := 0 to |ids|
        invariant updates == SideUpdates(ids[..i], team, out, Opponents(env, stored + runtime, m, oppTeam))
      {
        var opps := OpponentsFor(m, oppTeam, playerIDs, runtime, stored, ms);
        updates := updates + [Upd(ids[i], team, out, opps)];
      }
      assert ids[..|ids|] == ids;
    }

    /** The rows and deltas after the first i updates of the queue. */
    ghost predicate AppliedUpTo(c: Calc, base: Id -> Row, rows: map<Id, Row>, key: Key, us: seq<Upd>, t: Terms, i: nat,
                                now: map<Id, Row>, ds: map<(Key, Id), Delta>)
      requires i <= |us|
    {
      now == ApplyAll(c, base, rows, us[..i], t) && ds == DeltasAll(c, base, rows, key, us[..i], t)
    }

    lemma OneMoreUpdate(c: Calc, base: Id -> Row, rows: map<Id, Row>, key: Key, us: seq<Upd>, t: Terms, i: nat,
                        now: map<Id, Row>, ds: map<(Key, Id), Delta>)
      requires i < |us| && AppliedUpTo(c, base, rows, key, us, t, i, now, ds) && us[i].id in now
      ensures var u, rt := us[i], now[us[i].id];
        AppliedUpTo(c, base, rows, key, us, t, i + 1, now[u.id := Played(c, rt, u.opps, u.out, t)],
                    ds[(key, u.id) := DeltaOf(c, rt, u.team, u.opps, u.out, t)])
    {
      assert us[..i + 1][..i] == us[..i];
    }

    lemma RuntimeRowReplaced(stored: map<Id, Row>, runtime: map<Id, Row>, id: Id, rt: Row)
      requires id in runtime
      ensures (stored + runtime)[id] == runtime[id] && (stored + runtime)[id := rt] == stored + runtime[id := rt]
      ensures runtime[id := rt].Keys == runtime.Keys
    {
    }

    /** Applies the queue in order; each row is read when its turn comes. */
    method ApplyUpdates(key: Key, updates: seq<Upd>, t: Terms, rows: map<Id, Row>,
                        ghost base: Id -> Row, ghost stored: map<Id, Row>)
      returns (runtime: map<Id, Row>, ds: map<(Key, Id), Delta>)
      requires forall u <- updates :: u.id in rows
      ensures runtime.Keys == rows.Keys
      ensures stored + runtime == ApplyAll(env.arith, base, stored + rows, updates, t)
      ensures ds == DeltasAll(env.arith, base, stored + rows, key, updates, t)
    {
      runtime, ds := rows, map[];
      for i := 0 to |updates|
        invariant runtime.Keys == rows.Keys
        invariant AppliedUpTo(env.arith, base, stored + rows, key, updates, t, i, stored + runtime, ds)
      {
        var u := updates[i];
        assert u in updates;
        var rt, d := UpdateRuntime(env.arith, runtime[u.id], u, t);
        RuntimeRowReplaced(stored, runtime, u.id, rt);
        OneMoreUpdate(env.arith, base, stored + rows, key, updates, t, i, stored + runtime, ds);
        runtime := runtime[u.id := rt];
        ds := ds[(key, u.id) := d];
      }
      assert updates[..|updates|] == updates;
    }

    // -------------------------------------------------------------- rebuild

    /** getRT: the runtime row, created from the mid rating of the player's tier on first use. */
    method GetRT(id: Id, prior: set<Id>, runtime: map<Id, Row>) returns (runtime': map<Id, Row>)
      ensures runtime' == Filled(RebuildBase(env, prior), runtime, {id})
    {
      runtime' := runtime;
      if id !in runtime {
        var rt := NewRow(env.cfg, env.cfg.params.initialRating);
        var tier := if id in prior then TierOf(env, id) else "";
        if tier != "" {
          var mid := MidRatingForTier(env.cfg, tier);
          if mid.Some? { rt := rt.(rating := mid.value, peak := mid.value); }
        }
        runtime' := runtime'[id := rt];
      }
    }

    /** Runtime rows were added for some of the allowed players, and each is its base row. */
    ghost predicate Extends(prior: set<Id>, rows: map<Id, Row>, runtime: map<Id, Row>, allowed: set<Id>) {
      SameGets(RebuildBase(env, prior), rows, runtime) && rows.Keys <= runtime.Keys <= rows.Keys + allowed
    }

    lemma OneMoreRow(prior: set<Id>, rows: map<Id, Row>, runtime: map<Id, Row>, id: Id, allowed: set<Id>)
      requires Extends(prior, rows, runtime, allowed) && id in allowed
      ensures var more := Filled(RebuildBase(env, prior), runtime, {id});
        Extends(prior, rows, more, allowed) && id in more && more[id] == Get(RebuildBase(env, prior), rows, id)
        && runtime.Keys <= more.Keys
    {
      var base := RebuildBase(env, prior);
      forall x: Id ensures Get(base, rows, x) == Get(base, Filled(base, runtime, {id}), x) {
        assert Get(base, rows, x) == Get(base, runtime, x);
      }
    }

    lemma OneMoreState(base: Id -> Row, rows: map<Id, Row>, ids: seq<Id>, i: nat)
      requires i < |ids|
      ensures States(base, rows, ids[..i + 1]) == States(base, rows, ids[..i]) + [StateOf(base, rows, ids[i])]
    {
      assert ids[..i + 1] == ids[..i] + [ids[i]];
    }

    method OppsFor(opp: seq<Id>, prior: set<Id>, rows: map<Id, Row>, ghost allowed: set<Id>)
      returns (runtime: map<Id, Row>, out: seq<State>)
      requires forall id <- opp :: id in allowed
      ensures Extends(prior, rows, runtime, allowed)
      ensures out == States(RebuildBase(env, prior), rows, opp)
    {
      ghost var base := RebuildBase(env, prior);
      runtime, out := rows, [];
      for i := 0 to |opp|
        invariant Extends(prior, rows, runtime, allowed)
        invariant out == States(base, rows, opp[..i])
      {
        var id := opp[i];
        assert id in allowed;
        OneMoreRow(prior, rows, runtime, id, allowed);
        OneMoreState(base, rows, opp, i);
        runtime := GetRT(id, prior, runtime);
        out := out + [State(runtime[id].rating, runtime[id].rd)];
      }
      assert opp[..|opp|] == opp;
    }

    lemma OneMoreQueued(ids: seq<Id>, team: Team, out: real, opps: seq<State>, i: nat)
      requires i < |ids|
      ensures SideUpdates(ids[..i + 1], team, out, opps) == SideUpdates(ids[..i], team, out, opps) + [Upd(ids[i], team, out, opps)]
    {
    }

    /** One player of a side: his runtime row, and the states of his opponents. */
    method QueueOne(id: Id, opp: seq<Id>, prior: set<Id>, ghost rows: map<Id, Row>, before: map<Id, Row>, ghost allowed: set<Id>)
      returns (runtime: map<Id, Row>, opps: seq<State>)
      requires id in allowed && (forall o <- opp :: o in allowed) && Extends(prior, rows, before, allowed)
      ensures Extends(prior, rows, runtime, allowed) && id in runtime && before.Keys <= runtime.Keys
      ensures opps == States(RebuildBase(env, prior), rows, opp)
    {
      OneMoreRow(prior, rows, before, id, allowed);
      runtime := GetRT(id, prior, before);
      ghost var grown := runtime;
      StatesRespectGets(RebuildBase(env, prior), rows, grown, opp);
      runtime, opps := OppsFor(opp, prior, runtime, allowed);
      ExtendedTwice(prior, rows, grown, runtime, allowed);
    }

    /** The queue for one side, creating runtime rows on the way. */
    method QueueSide(ids: seq<Id>, team: Team, out: real, opp: seq<Id>, prior: set<Id>, rows: map<Id, Row>, ghost allowed: set<Id>)
      returns (runtime: map<Id, Row>, updates: seq<Upd>)
      requires (forall id <- ids :: id in allowed) && (forall id <- opp :: id in allowed)
      ensures updates == SideUpdates(ids, team, out, States(RebuildBase(env, prior), rows, opp))
      ensures Extends(prior, rows, runtime, allowed) && forall id <- ids :: id in runtime
    {
      ghost var faced := States(RebuildBase(env, prior), rows, opp);
      runtime, updates := rows, [];
      for i := 0 to |ids|
        invariant updates == SideUpdates(ids[..i], team, out, faced)
        invariant Extends(prior, rows, runtime, allowed)
        invariant forall k :: 0 <= k < i ==> ids[k] in runtime
      {
        assert ids[i] in ids;
        OneMoreQueued(ids, team, out, faced, i);
        var opps;
        runtime, opps := QueueOne(ids[i], opp, prior, rows, runtime, allowed);
        updates := updates + [Upd(ids[i], team, out, opps)];
      }
      assert ids[..|ids|] == ids;
    }

    method QueueBoth(playersA: seq<Id>, playersB: seq<Id>, outcomeA: real, prior: set<Id>, rows: map<Id, Row>, ghost en: Entry)
      returns (runtime: map<Id, Row>, updates: seq<Upd>)
      requires playersA == SortedIds(en.sideA) && playersB == SortedIds(en.sideB)
      ensures forall u <- updates :: u.id in runtime
      ensures runtime == Filled(RebuildBase(env, prior), rows, en.sideA + en.sideB)
      ensures updates == Updates(playersA, playersB, outcomeA, States(RebuildBase(env, prior), runtime, playersB),
                                 States(RebuildBase(env, prior), runtime, playersA))
    {
      SidesAllowed(en);
      var updatesA, updatesB;
      runtime, updatesA := QueueSide(playersA, A, outcomeA, playersB, prior, rows, en.sideA + en.sideB);
      ghost var half := runtime;
      runtime, updatesB := QueueSide(playersB, B, 1.0 - outcomeA, playersA, prior, runtime, en.sideA + en.sideB);
      BothQueued(playersA, playersB, outcomeA, prior, rows, half, runtime, en, updatesA, updatesB);
      updates := updatesA + updatesB;
    }

    lemma BothQueued(playersA: seq<Id>, playersB: seq<Id>, outcomeA: real, prior: set<Id>, rows: map<Id, Row>, half: map<Id, Row>,
                     runtime: map<Id, Row>, en: Entry, updatesA: seq<Upd>, updatesB: seq<Upd>)
      requires playersA == SortedIds(en.sideA) && playersB == SortedIds(en.sideB)
      requires Extends(prior, rows, half, en.sideA + en.sideB) && Extends(prior, half, runtime, en.sideA + en.sideB)
      requires (forall id <- playersA :: id in half) && (forall id <- playersB :: id in runtime)
      requires updatesA == SideUpdates(playersA, A, outcomeA, States(RebuildBase(env, prior), rows, playersB))
      requires updatesB == SideUpdates(playersB, B, 1.0 - outcomeA, States(RebuildBase(env, prior), half, playersA))
      ensures forall u <- updatesA + updatesB :: u.id in runtime
      ensures runtime == Filled(RebuildBase(env, prior), rows, en.sideA + en.sideB)
      ensures updatesA + updatesB == Updates(playersA, playersB, outcomeA, States(RebuildBase(env, prior), runtime, playersB),
                                             States(RebuildBase(env, prior), runtime, playersA))
    {
      ghost var base := RebuildBase(env, prior);
      SidesListed(en);
      ExtendedTwice(prior, rows, half, runtime, en.sideA + en.sideB);
      StatesAlongTheWay(prior, rows, half, runtime, playersA, playersB, en.sideA + en.sideB);
      ExtendedToAll(prior, rows, runtime, en);
      UpdateTargets(playersA, playersB, outcomeA, States(base, runtime, playersB), States(base, runtime, playersA));
    }

    lemma SidesAllowed(en: Entry)
      ensures forall id <- SortedIds(en.sideA) :: id in en.sideA + en.sideB
      ensures forall id <- SortedIds(en.sideB) :: id in en.sideA + en.sideB
    {
      SortedIdsEnumerate(en.sideA);
      SortedIdsEnumerate(en.sideB);
    }

    lemma SidesListed(en: Entry)
      ensures forall id :: id in en.sideA + en.sideB ==> id in SortedIds(en.sideA) || id in SortedIds(en.sideB)
    {
      SortedIdsEnumerate(en.sideA);
      SortedIdsEnumerate(en.sideB);
    }

    lemma StatesAlongTheWay(prior: set<Id>, rows: map<Id, Row>, half: map<Id, Row>, runtime: map<Id, Row>,
                            playersA: seq<Id>, playersB: seq<Id>, allowed: set<Id>)
      requires Extends(prior, rows, runtime, allowed) && Extends(prior, half, runtime, allowed)
      ensures States(RebuildBase(env, prior), rows, playersB) == States(RebuildBase(env, prior), runtime, playersB)
      ensures States(RebuildBase(env, prior), half, playersA) == States(RebuildBase(env, prior), runtime, playersA)
    {
      StatesRespectGets(RebuildBase(env, prior), rows, runtime, playersB);
      StatesRespectGets(RebuildBase(env, prior), half, runtime, playersA);
    }

    lemma ExtendedTwice(prior: set<Id>, rows: map<Id, Row>, half: map<Id, Row>, runtime: map<Id, Row>, allowed: set<Id>)
      requires Extends(prior, rows, half, allowed) && Extends(prior, half, runtime, allowed)
      ensures Extends(prior, rows, runtime, allowed)
    {
      var base := RebuildBase(env, prior);
      forall id: Id ensures Get(base, rows, id) == Get(base, runtime, id) {
        assert Get(base, rows, id) == Get(base, half, id);
      }
    }

    lemma ExtendedToAll(prior: set<Id>, rows: map<Id, Row>, runtime: map<Id, Row>, en: Entry)
      requires Extends(prior, rows, runtime, en.sideA + en.sideB)
      requires forall id :: id in en.sideA + en.sideB ==> id in runtime
      ensures runtime == Filled(RebuildBase(env, prior), rows, en.sideA + en.sideB)
    {
      var base := RebuildBase(env, prior);
      forall id | id in runtime ensures runtime[id] == Get(base, rows, id) {
        assert runtime[id] == Get(base, runtime, id);
      }
    }

    lemma QueuePlaysTheStep(playersA: seq<Id>, playersB: seq<Id>, prior: set<Id>, rows: map<Id, Row>, en: Entry, start: map<Id, Row>,
                            updates: seq<Upd>)
      requires TwoSided(en) && en.sideA !! en.sideB
      requires playersA == SortedIds(en.sideA) && playersB == SortedIds(en.sideB)
      requires start == Filled(RebuildBase(env, prior), rows, en.sideA + en.sideB)
      requires updates == Updates(playersA, playersB, OutcomeA(en.ev.scoreA, en.ev.scoreB),
                                  States(RebuildBase(env, prior), start, playersB), States(RebuildBase(env, prior), start, playersA))
      ensures ApplyAll(env.arith, RebuildBase(env, prior), start, updates, TermsOf(env.arith, en.ev))
           == Step(env.arith, RebuildBase(env, prior), rows, en)
      ensures DeltasAll(env.arith, RebuildBase(env, prior), start, en.ev.key, updates, TermsOf(env.arith, en.ev))
           == StepDeltas(env.arith, RebuildBase(env, prior), rows, en)
    {
      var base := RebuildBase(env, prior);
      SortedIdsEnumerate(en.sideA);
      SortedIdsEnumerate(en.sideB);
      UpdatesPlayTheStep(env.arith, base, start, en, playersA, playersB, States(base, start, playersB), States(base, start, playersA));
      StepOfFilled(env.arith, base, rows, en, en.sideA + en.sideB);
      StepIsFull(base, rows, en);
    }

    lemma StepIsFull(base: Id -> Row, rows: map<Id, Row>, en: Entry)
      requires TwoSided(en)
      ensures Filled(base, Step(env.arith, base, rows, en), en.sideA + en.sideB) == Step(env.arith, base, rows, en)
    {
    }

    /** One event of the log, its players read from the deltas table in order of team and id. */
    method ReplayEvent(ev: Event, playersA: seq<Id>, playersB: seq<Id>, prior: set<Id>, rows: map<Id, Row>, ghost en: Entry)
      returns (runtime: map<Id, Row>, ds: map<(Key, Id), Delta>)
      requires en.ev == ev && en.sideA !! en.sideB
      requires playersA == SortedIds(en.sideA) && playersB == SortedIds(en.sideB)
      ensures runtime == Step(env.arith, RebuildBase(env, prior), rows, en)
      ensures ds == StepDeltas(env.arith, RebuildBase(env, prior), rows, en)
    {
      runtime, ds := rows, map[];
      SidesInOrder(en);
      if |playersA| == 0 || |playersB| == 0 { return; }
      var weight := ev.phaseWeight;
      if weight <= 0.0 { weight := 1.0; }
      var t := Terms(ev.date, env.arith.movm(ev.scoreA, ev.scoreB, ev.target), weight);
      var outcomeA := 0.0;
      if ev.scoreA > ev.scoreB { outcomeA := 1.0; } else if ev.scoreA == ev.scoreB { outcomeA := 0.5; }
      var updates;
      runtime, updates := QueueBoth(playersA, playersB, outcomeA, prior, rows, en);
      QueuePlaysTheStep(playersA, playersB, prior, rows, en, runtime, updates);
      runtime, ds := ApplyToRuntime(ev.key, updates, t, runtime, RebuildBase(env, prior));
    }

    method ApplyToRuntime(key: Key, updates: seq<Upd>, t: Terms, rows: map<Id, Row>, ghost base: Id -> Row)
      returns (runtime: map<Id, Row>, ds: map<(Key, Id), Delta>)
      requires forall u <- updates :: u.id in rows
      ensures runtime == ApplyAll(env.arith, base, rows, updates, t)
      ensures ds == DeltasAll(env.arith, base, rows, key, updates, t)
    {
      runtime, ds := ApplyUpdates(key, updates, t, rows, base, map[]);
      assert map[] + rows == rows && map[] + runtime == runtime;
    }

    lemma SidesInOrder(en: Entry)
      ensures TwoSided(en) <==> |SortedIds(en.sideA)| > 0 && |SortedIds(en.sideB)| > 0
    {
      SortedIdsEnumerate(en.sideA);
      SortedIdsEnumerate(en.sideB);
      if en.sideA != {} { var x :| x in en.sideA; assert x in SortedIds(en.sideA); }
      if en.sideB != {} { var x :| x in en.sideB; assert x in SortedIds(en.sideB); }
    }

    /** The event-to-player mapping, read before the deltas are deleted. */
    method ReadPlayers(rows: seq<Event>) returns (playersOf: seq<(seq<Id>, seq<Id>)>)
      ensures |playersOf| == |rows|
      ensures forall j :: 0 <= j < |rows| ==>
        playersOf[j] == (SortedIds(Side(deltas, rows[j].key, A)), SortedIds(Side(deltas, rows[j].key, B)))
    {
      playersOf := [];
      for i := 0 to |rows|
        invariant |playersOf| == i
        invariant forall j :: 0 <= j < i ==>
          playersOf[j] == (SortedIds(Side(deltas, rows[j].key, A)), SortedIds(Side(deltas, rows[j].key, B)))
      {
        playersOf := playersOf + [(SortedIds(Side(deltas, rows[i].key, A)), SortedIds(Side(deltas, rows[i].key, B)))];
      }
    }

    lemma OneMoreReset(base: Id -> Row, runtime: map<Id, Row>, done: set<Id>, id: Id)
      ensures Filled(base, runtime, done + {id})
           == if id in runtime then Filled(base, runtime, done) else Filled(base, runtime, done)[id := base(id)]
    {
    }

    /** Players left without a game: the mid rating of their tier and empty counters. */
    method ResetPrior(prior: set<Id>, runtime: map<Id, Row>) returns (rows: map<Id, Row>)
      ensures rows == Filled(RebuildBase(env, prior), runtime, prior)
    {
      rows := runtime;
      var rest := prior;
      while rest != {}
        invariant rest <= prior
        invariant rows == Filled(RebuildBase(env, prior), runtime, prior - rest)
      {
        var id :| id in rest;
        if id !in runtime {
          var rating := env.cfg.params.initialRating;
          var tier := TierOf(env, id);
          if tier != "" {
            var mid := MidRatingForTier(env.cfg, tier);
            if mid.Some? { rating := mid.value; }
          }
          rows := rows[id := Row(rating, env.cfg.params.initialRD, rating, 0, 0, 0, None)];
        }
        OneMoreReset(RebuildBase(env, prior), runtime, prior - rest, id);
        assert prior - (rest - {id}) == (prior - rest) + {id};
        rest := rest - {id};
      }
      assert prior - {} == prior;
    }

    /** How many players the log rates. */
    ghost function Rated(db: DB): nat { |PlayersOf(Entries(InOrderOfPlay(db.events), db.deltas))| }

    /** rebuildAll: reads the log and its players, empties both result tables, and replays. */
    method RebuildAll() returns (rebuilt: nat)
      modifies this
      ensures Db() == Rebuilt(env, old(Db()))
      ensures rebuilt == Rated(old(Db()))
    {
      var prior := players.Keys;
      var rows := InOrderOfPlay(events);
      ghost var log := Entries(rows, deltas);
      var playersOf := ReadPlayers(rows);

      LogInHand(rows, playersOf, deltas);
      players, deltas := map[], map[];
      var runtime, written := ReplayLog(rows, playersOf, prior, log);
      deltas := written;
      var flushed := Flush(players, runtime);
      assert flushed == runtime;
      players := ResetPrior(prior, flushed);
      ReplayRatesThePlayers(env.arith, RebuildBase(env, prior), log);
      rebuilt := |runtime.Keys|;
    }

    lemma {:induction false} ReplayRatesThePlayers(c: Calc, base: Id -> Row, log: seq<Entry>)
      ensures Replay(c, base, log).Keys == PlayersOf(log)
    {
      if |log| > 0 {
        var front, last := log[..|log| - 1], log[|log| - 1];
        ReplayRatesThePlayers(c, base, front);
        assert log == front + [last];
        PlayersSnoc(front, last);
      }
    }

    lemma PlayersSnoc(log: seq<Entry>, en: Entry)
      ensures PlayersOf(log + [en]) == PlayersOf(log) + if TwoSided(en) then en.sideA + en.sideB else {}
    {
      assert en in log + [en] && forall x <- log :: x in log + [en];
    }

    /** An event with its players in order of team and id. */
    ghost predicate EntryInHand(en: Entry, ev: Event, playersOf: (seq<Id>, seq<Id>)) {
      && en.ev == ev && en.sideA !! en.sideB
      && playersOf == (SortedIds(en.sideA), SortedIds(en.sideB))
    }

    lemma LogInHand(rows: seq<Event>, playersOf: seq<(seq<Id>, seq<Id>)>, ds: map<(Key, Id), Delta>)
      requires |playersOf| == |rows|
      requires forall j :: 0 <= j < |rows| ==> playersOf[j] == (SortedIds(Side(ds, rows[j].key, A)), SortedIds(Side(ds, rows[j].key, B)))
      ensures forall j :: 0 <= j < |rows| ==> EntryInHand(Entries(rows, ds)[j], rows[j], playersOf[j])
    {
      forall j | 0 <= j < |rows| ensures EntryInHand(Entries(rows, ds)[j], rows[j], playersOf[j]) {
        SidesAreDisjoint(ds, rows[j]);
      }
    }

    /** The replay loop: the runtime rows and the deltas written for every event in turn. */
    method ReplayLog(rows: seq<Event>, playersOf: seq<(seq<Id>, seq<Id>)>, prior: set<Id>, ghost log: seq<Entry>)
      returns (runtime: map<Id, Row>, written: map<(Key, Id), Delta>)
      requires |playersOf| == |log| == |rows|
      requires forall i :: 0 <= i < |rows| ==> EntryInHand(log[i], rows[i], playersOf[i])
      ensures runtime == Replay(env.arith, RebuildBase(env, prior), log)
      ensures written == ReplayDeltas(env.arith, RebuildBase(env, prior), log)
    {
      runtime, written := map[], map[];
      for i := 0 to |rows|
        invariant runtime == Replay(env.arith, RebuildBase(env, prior), log[..i])
        invariant written == ReplayDeltas(env.arith, RebuildBase(env, prior), log[..i])
      {
        assert log[..i + 1][..i] == log[..i];
        assert EntryInHand(log[i], rows[i], playersOf[i]);
        var ds;
        runtime, ds := ReplayEvent(rows[i], playersOf[i].0, playersOf[i].1, prior, runtime, log[i]);
        written := written + ds;
      }
      assert log[..|rows|] == log;
    }

    lemma SidesAreDisjoint(deltas: map<(Key, Id), Delta>, ev: Event)
      ensures EntryOf(deltas, ev).sideA !! EntryOf(deltas, ev).sideB
    {}

    /** RevertSource: delete the events with their deltas, forget the fingerprint, rebuild. */
    method RevertSource(sourceId: string) returns (removed: nat, rebuilt: nat)
      modifies this
      ensures Db() == Reverted(env, old(Db()), sourceId)
      ensures removed == |old(events)| - |Others(old(events), sourceId)|
      ensures rebuilt == if removed == 0 then 0 else Rated(WithoutEvents(old(Db()), sourceId))
    {
      rebuilt := 0;
      removed := CountEvents(sourceId);
      if removed == 0 { return; }
      var cut := WithoutEvents(Db(), sourceId);
      events, deltas := cut.events, cut.deltas;
      if sourceId in sources {
        sources := sources[sourceId := sources[sourceId].(fingerprint := None)];
      }
      RevertRebuilds(old(Db()), Db(), sourceId);
      rebuilt := RebuildAll();
    }

    lemma RevertRebuilds(db: DB, cut: DB, sourceId: string)
      requires Others(db.events, sourceId) != db.events && cut.events == WithoutEvents(db, sourceId).events
      requires cut.deltas == WithoutEvents(db, sourceId).deltas && cut.players == db.players
      requires cut.sources ==
        if sourceId in db.sources then db.sources[sourceId := db.sources[sourceId].(fingerprint := None)] else db.sources
      ensures Reverted(env, db, sourceId) == Rebuilt(env, cut) && Rated(WithoutEvents(db, sourceId)) == Rated(cut)
    {
      assert cut == WithoutEvents(db, sourceId).(sources := cut.sources);
    }

    /** The rating half of AdminDeleteSession: delete the events and the source row, rebuild. */
    method PurgeSource(sourceId: string)
      modifies this
      ensures Db() == Purged(env, old(Db()), sourceId)
    {
      var cut := WithoutEvents(Db(), sourceId);
      events, deltas := cut.events, cut.deltas;
      sources := sources - {sourceId};
      var rebuilt := RebuildAll();
    }

    method CountEvents(sourceId: string) returns (count: nat)
      ensures count == |events| - |Others(events, sourceId)|
      ensures count == 0 <==> Others(events, sourceId) == events
    {
      count := 0;
      for i := 0 to |events|
        invariant count == i - |Others(events[..i], sourceId)|
        invariant count == 0 <==> Others(events[..i], sourceId) == events[..i]
      {
        assert events[..i + 1][..i] == events[..i];
        assert events[..i + 1] == events[..i] + [events[i]];
        if events[i].sourceId == sourceId { count := count + 1; }
      }
      assert events[..|events|] == events;
    }

    method SetSourceFinalized(sourceId: string, kind: string, finalized: bool)
      modifies this
      ensures Db() == Finalized(old(Db()), sourceId, kind, finalized)
    {
      if sourceId in sources {
        sources := sources[sourceId := sources[sourceId].(finalized := finalized, kind := kind)];
      } else {
        sources := sources[sourceId := SourceRow(kind, None, finalized)];
      }
    }
  }
}