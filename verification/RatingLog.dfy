/** The rating tables as values, and what each transaction makes of them. */
module RatingLog {
  import opened Glicko
  import opened Options
  import opened RatingConfig
  import opened RatingMatch
  import opened RatingFold
  import opened Sorting
  import Text

  /** A row of rating_sources; no fingerprint: known but not ingested. */
  datatype SourceRow = SourceRow(kind: string, fingerprint: Option<seq<Canonical>>, finalized: bool)

  datatype DB = DB(
    events: seq<Event>,                  // in insertion order
    deltas: map<(Key, Id), Delta>,
    players: map<Id, Row>,
    sources: map<string, SourceRow>)

  /** What the transactions read but never write: the arithmetic, the configuration, how names
      resolve to players, and the players' tiers and registration days. */
  datatype Env = Env(arith: Calc, cfg: Config, alias: map<string, Id>, tiers: map<Id, string>, registeredAt: map<Id, int>)

  /** What an extractor returns. */
  datatype Source = Source(kind: string, sourceId: string, createdAt: int, final: bool, matches: seq<RawMatch>)

  datatype Reason = VoidGame | PreSeason | DuplicateInBatch | AlreadyIngested | NobodyEligible

  datatype Skipped = Skipped(gameRef: string, reason: Reason)

  datatype Reply =
    | NotFinal
    | SourceChanged
    | OutOfOrder
    | Done(processed: nat, skipped: seq<Skipped>, players: nat, reconcile: bool)

  // ---------------------------------------------------------------- base rows

  function NewRow(cfg: Config, rating: real): Row {
    Row(rating, cfg.params.initialRD, rating, 0, 0, 0, None)
  }

  function TierOf(env: Env, id: Id): string { if id in env.tiers then env.tiers[id] else "" }

  function OrInitial(cfg: Config, rating: Option<real>): Row {
    NewRow(cfg, if rating.Some? then rating.value else cfg.params.initialRating)
  }

  /** The row an ingest starts a new player from. */
  function FormingRow(env: Env, id: Id): Row {
    var tier := TierOf(env, id);
    OrInitial(env.cfg, if tier != "" then FormingForTier(env.cfg, tier) else None)
  }

  /** The row a rebuild starts a rated player from. */
  function MidRow(env: Env, id: Id): Row {
    var tier := TierOf(env, id);
    OrInitial(env.cfg, if tier != "" then MidRatingForTier(env.cfg, tier) else None)
  }

  function Base(env: Env): Id -> Row { (id: Id) => FormingRow(env, id) }

  /** A rebuild knows the tiers of the players that had a row. */
  function RebuildBase(env: Env, rated: set<Id>): Id -> Row {
    (id: Id) => if id in rated then MidRow(env, id) else OrInitial(env.cfg, None)
  }

  // ---------------------------------------------------------------- the log

  /** ORDER BY date, created_at, source_id, game_order. */
  predicate EventBefore(a: Event, b: Event) {
    a.date < b.date || (a.date == b.date &&
    (a.createdAt < b.createdAt || (a.createdAt == b.createdAt &&
    (Text.Less(a.sourceId, b.sourceId) || (a.sourceId == b.sourceId &&
     Text.Less(a.gameOrder, b.gameOrder))))))
  }

  function InOrderOfPlay(events: seq<Event>): seq<Event> { Sort(events, EventBefore) }

  /** The players the deltas table maps to one side of an event. */
  function Side(deltas: map<(Key, Id), Delta>, key: Key, team: Team): set<Id> {
    set k <- deltas.Keys | k.0 == key && deltas[k].team == team :: k.1
  }

  function EntryOf(deltas: map<(Key, Id), Delta>, ev: Event): Entry {
    Entry(ev, Side(deltas, ev.key, A), Side(deltas, ev.key, B))
  }

  function Entries(events: seq<Event>, deltas: map<(Key, Id), Delta>): (r: seq<Entry>)
    ensures |r| == |events|
  {
    seq(|events|, i requires 0 <= i < |events| => EntryOf(deltas, events[i]))
  }

  function Keys(events: seq<Event>): set<Key> { set e <- events :: e.key }

  // ---------------------------------------------------------------- rebuild and revert

  function Rebuilt(env: Env, db: DB): DB {
    var base := RebuildBase(env, db.players.Keys);
    var log := Entries(InOrderOfPlay(db.events), db.deltas);
    db.(deltas := ReplayDeltas(env.arith, base, log),
        players := Filled(base, Replay(env.arith, base, log), db.players.Keys))
  }

  /** Everybody who plays in some two-sided event. */
  function PlayersOf(log: seq<Entry>): set<Id> {
    set en <- log, id <- en.sideA + en.sideB | TwoSided(en) :: id
  }

  function Others(events: seq<Event>, sourceId: string): seq<Event> {
    if |events| == 0 then []
    else
      var front := Others(events[..|events| - 1], sourceId);
      if events[|events| - 1].sourceId == sourceId then front else front + [events[|events| - 1]]
  }

  /** The events of a source and, by cascade, their deltas are deleted. */
  function WithoutEvents(db: DB, sourceId: string): DB {
    var gone := set e <- db.events | e.sourceId == sourceId :: e.key;
    db.(events := Others(db.events, sourceId),
        deltas := map k <- db.deltas | k.0 !in gone :: db.deltas[k])
  }

  /** RevertSource: nothing to do for a source without events. */
  function Reverted(env: Env, db: DB, sourceId: string): DB {
    if Others(db.events, sourceId) == db.events then db
    else
      var cut := WithoutEvents(db, sourceId);
      var sources := if sourceId in db.sources then db.sources[sourceId := db.sources[sourceId].(fingerprint := None)] else db.sources;
      Rebuilt(env, cut.(sources := sources))
  }

  /** What the administrator's delete of a session does to the ratings: its events and its source
      row go, and everything is rebuilt. */
  function Purged(env: Env, db: DB, sourceId: string): DB {
    Rebuilt(env, WithoutEvents(db, sourceId).(sources := db.sources - {sourceId}))
  }

  /** SetSourceFinalized: an upsert that leaves the fingerprint alone. */
  function Finalized(db: DB, sourceId: string, kind: string, finalized: bool): DB {
    db.(sources := db.sources[sourceId :=
      if sourceId in db.sources then db.sources[sourceId].(kind := kind, finalized := finalized)
      else SourceRow(kind, None, finalized)])
  }

  // ---------------------------------------------------------------- ingest: choosing the matches

  predicate IsPlayable(cfg: Config, m: RawMatch) {
    !(cfg.absentPolicy == Some(SkipGame) && Void(m)) && !(cfg.seasonStart.Some? && m.date < cfg.seasonStart.value)
  }

  function Playable(cfg: Config, matches: seq<RawMatch>): seq<RawMatch> {
    if |matches| == 0 then []
    else
      var front := Playable(cfg, matches[..|matches| - 1]);
      if IsPlayable(cfg, matches[|matches| - 1]) then front + [matches[|matches| - 1]] else front
  }

  /** The matches that are not playable, each with its reason. */
  function Unplayable(cfg: Config, matches: seq<RawMatch>): seq<Skipped> {
    if |matches| == 0 then []
    else
      var front, last := Unplayable(cfg, matches[..|matches| - 1]), matches[|matches| - 1];
      if IsPlayable(cfg, last) then front
      else front + [Skipped(last.stableGameId, if cfg.absentPolicy == Some(SkipGame) && Void(last) then VoidGame else PreSeason)]
  }

  /** The batch must come after everything already logged. */
  predicate Chronological(date: int, createdAt: int, sourceId: string, newest: Event) {
    !(date < newest.date
      || (date == newest.date && createdAt < newest.createdAt)
      || (date == newest.date && createdAt == newest.createdAt
          && (Text.Less(sourceId, newest.sourceId) || sourceId == newest.sourceId)))
  }

  function KeysOf(matches: seq<RawMatch>): set<Key> { set m <- matches :: MatchKey(m) }

  /** Matches neither repeated in the batch nor logged before. */
  function Fresh(matches: seq<RawMatch>, logged: set<Key>): seq<RawMatch> {
    if |matches| == 0 then []
    else
      var front, last := matches[..|matches| - 1], matches[|matches| - 1];
      if MatchKey(last) in KeysOf(front) || MatchKey(last) in logged then Fresh(front, logged)
      else Fresh(front, logged) + [last]
  }

  /** The matches dropped by Fresh. */
  function Stale(matches: seq<RawMatch>, logged: set<Key>): seq<Skipped> {
    if |matches| == 0 then []
    else
      var front, last := matches[..|matches| - 1], matches[|matches| - 1];
      if MatchKey(last) in KeysOf(front) then Stale(front, logged) + [Skipped(last.stableGameId, DuplicateInBatch)]
      else if MatchKey(last) in logged then Stale(front, logged) + [Skipped(last.stableGameId, AlreadyIngested)]
      else Stale(front, logged)
  }

  // ---------------------------------------------------------------- ingest: who plays whom

  function Resolve(env: Env, p: RawPlayer): Option<Id> {
    if !p.placeholder && p.name != "" && p.name in env.alias then Some(env.alias[p.name]) else None
  }

  function ResolveAll(env: Env, ps: seq<RawPlayer>): seq<Id> {
    if |ps| == 0 then []
    else
      var front, id := ResolveAll(env, ps[..|ps| - 1]), Resolve(env, ps[|ps| - 1]);
      if id.Some? then front + [id.value] else front
  }

  /** Registered by the day of the match, or never gated. */
  predicate Registered(env: Env, date: int, id: Id) {
    id in env.registeredAt ==> date >= env.registeredAt[id]
  }

  function Gate(env: Env, date: int, ids: seq<Id>): seq<Id> {
    if |ids| == 0 then []
    else
      var front, last := Gate(env, date, ids[..|ids| - 1]), ids[|ids| - 1];
      if Registered(env, date, last) then front + [last] else front
  }

  function TeamPlayers(env: Env, m: RawMatch, team: Team): seq<RawPlayer> {
    Select(m.players, if env.cfg.absentPolicy == Some(Count) then Real(team) else Present(team))
  }

  /** The players of a side, and those among them who get a delta. */
  function Fielded(env: Env, m: RawMatch, team: Team): seq<Id> { ResolveAll(env, TeamPlayers(env, m, team)) }

  function Eligible(env: Env, m: RawMatch, team: Team): seq<Id> { Gate(env, m.date, Fielded(env, m, team)) }

  function Placeholders(m: RawMatch, team: Team): nat { |Select(m.players, Unknown(team))| }

  /** The opponents a side is rated against: everybody fielded, gated or not, and one synthetic
      newcomer for every placeholder. */
  function Opponents(env: Env, rows: map<Id, Row>, m: RawMatch, team: Team): seq<State> {
    States(Base(env), rows, Fielded(env, m, team))
    + seq(Placeholders(m, team), _ => State(env.cfg.params.initialRating, env.cfg.params.initialRD))
  }

  function PhaseWeight(cfg: Config, phase: string): real {
    if phase in cfg.phaseWeights then cfg.phaseWeights[phase] else 0.0
  }

  function EventOf(env: Env, src: Source, m: RawMatch): Event {
    Event(MatchKey(m), m.kind, src.sourceId, m.date, src.createdAt, m.gameOrder, m.scoreA, m.scoreB, m.target,
          PhaseWeight(env.cfg, m.phase))
  }

  function MatchUpdates(env: Env, rows: map<Id, Row>, m: RawMatch): seq<Upd> {
    Updates(Eligible(env, m, A), Eligible(env, m, B), OutcomeA(m.scoreA, m.scoreB),
            Opponents(env, rows, m, B), Opponents(env, rows, m, A))
  }

  predicate HasBothSides(env: Env, m: RawMatch) {
    Eligible(env, m, A) != [] && Eligible(env, m, B) != []
  }

  /** One fresh match; it is passed over when a side has nobody to rate. */
  function Recorded(env: Env, src: Source, db: DB, m: RawMatch): DB {
    if !HasBothSides(env, m) then db
    else
      var ev := EventOf(env, src, m);
      var us, t := MatchUpdates(env, db.players, m), TermsOf(env.arith, ev);
      db.(events := db.events + [ev],
          deltas := db.deltas + DeltasAll(env.arith, Base(env), db.players, ev.key, us, t),
          players := ApplyAll(env.arith, Base(env), db.players, us, t))
  }

  function RecordedAll(env: Env, src: Source, db: DB, ms: seq<RawMatch>): DB {
    if |ms| == 0 then db else Recorded(env, src, RecordedAll(env, src, db, ms[..|ms| - 1]), ms[|ms| - 1])
  }

  function Processed(env: Env, ms: seq<RawMatch>): nat {
    if |ms| == 0 then 0
    else Processed(env, ms[..|ms| - 1]) + (if HasBothSides(env, ms[|ms| - 1]) then 1 else 0)
  }

  /** The matches passed over for want of somebody to rate. */
  function Unrated(env: Env, ms: seq<RawMatch>): seq<Skipped> {
    if |ms| == 0 then []
    else
      var front, last := Unrated(env, ms[..|ms| - 1]), ms[|ms| - 1];
      if HasBothSides(env, last) then front else front + [Skipped(last.stableGameId, NobodyEligible)]
  }

  /** All real players named in the matches, on either side and absent or not. */
  function Named(env: Env, ms: seq<RawMatch>): set<Id> {
    set m <- ms, p <- m.players | Resolve(env, p).Some? :: Resolve(env, p).value
  }

  /** Their names; two names may stand for one player. */
  function RatedNames(env: Env, ms: seq<RawMatch>): set<string> {
    set m <- ms, p <- m.players | Resolve(env, p).Some? :: p.name
  }

  // ---------------------------------------------------------------- ingest

  function KnownFingerprint(db: DB, sourceId: string): Option<seq<Canonical>> {
    if sourceId in db.sources then db.sources[sourceId].fingerprint else None
  }

  /** The source row left by a successful ingest: finalized keeps its stored value. */
  function IngestedRow(db: DB, src: Source): SourceRow {
    SourceRow(src.kind, Some(SourceFingerprint(src.matches)),
              if src.sourceId in db.sources then db.sources[src.sourceId].finalized else src.final)
  }

  /** The batch committed on top of db: base rows for all named players, then match by match. */
  function Committed(env: Env, db: DB, src: Source, batch: seq<RawMatch>): DB {
    var filled := db.(players := Filled(Base(env), db.players, Named(env, batch)));
    var played := RecordedAll(env, src, filled, batch);
    if Processed(env, batch) > 0 then played.(sources := db.sources[src.sourceId := IngestedRow(db, src)]) else played
  }

  /** What is left to do once a source may be ingested into db. */
  function Batch(cfg: Config, db: DB, src: Source): seq<RawMatch> {
    Fresh(SortMatchesByOrder(Playable(cfg, src.matches)), Keys(db.events))
  }

  predicate TooLate(cfg: Config, db: DB, src: Source) {
    var playable := SortMatchesByOrder(Playable(cfg, src.matches));
    var log := InOrderOfPlay(db.events);
    playable != [] && log != [] && !Chronological(playable[0].date, src.createdAt, src.sourceId, log[|log| - 1])
  }

  /** The transaction after the fingerprint check. `cut` is its working copy; returning db undone
      means that nothing was committed. */
  function IngestedFrom(env: Env, db: DB, cut: DB, src: Source, reconcile: bool): (DB, Reply) {
    if Playable(env.cfg, src.matches) == [] then
      (if !src.final then db
       else if src.sourceId in cut.sources then cut
       else cut.(sources := cut.sources[src.sourceId := SourceRow(src.kind, None, true)]),
       Done(0, Unplayable(env.cfg, src.matches), 0, reconcile))
    else if TooLate(env.cfg, cut, src) then (db, OutOfOrder)
    else
      var batch := Batch(env.cfg, cut, src);
      var skipped := Unplayable(env.cfg, src.matches) + Stale(SortMatchesByOrder(Playable(env.cfg, src.matches)), Keys(cut.events));
      if batch == [] then (db, Done(0, skipped, 0, reconcile))
      else (Committed(env, cut, src, batch),
            Done(Processed(env, batch), skipped + Unrated(env, batch), |RatedNames(env, batch)|, reconcile))
  }

  function Ingested(env: Env, db: DB, src: Source): (DB, Reply) {
    var known := KnownFingerprint(db, src.sourceId);
    if env.cfg.ingestLockedOnly && !src.final then (db, NotFinal)
    else if known == Some(SourceFingerprint(src.matches)) then (db, Done(0, [], 0, false))
    else if known.Some? && !env.cfg.autoReconcile then (db, SourceChanged)
    else IngestedFrom(env, db, if known.Some? then WithoutEvents(db, src.sourceId) else db, src, known.Some?)
  }
}
