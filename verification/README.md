# Verified model of the badminton match server

This project models the parts of the server that keep state and proves, with Dafny, what they
promise. Sources are cited by path and line.

- **Rating engine** (`Rating*`, `Glicko*`). Ratings are a view over an append-only event log.
  `RatingStore` writes both loops as the program does, `ingest` match by match and `rebuildAll`
  event by event, and proves each equal to a specification (`RatingLog`) built on one pure fold
  (`RatingFold`). `RatingHistory` and `RatingErase` hold the results about whole runs: the
  incremental tables are what a rebuild computes, and when reverting a source erases it. `Glicko`
  models the arithmetic over exact reals with the transcendental functions as parameters
  characterised by their laws.
- **Session store** (`Snapshots`, `Session*`, `Snapshot*`, `Swaps`, `SwapLaws`). Validation, the
  tables written from a snapshot and read back, and every write operation as a step of a state
  machine; the operations themselves are methods on the stored sessions, and swaps run statement
  by statement with the UNIQUE constraints as aborts.
- **Granular writers** (`GranularRaces`, `GranularCommits`, `GranularLocks`) and the **watcher hub** (`WatchHub`) as interleavings of
  any number of calls.
- **Rate limiter** (`RateLimiter`, `LimiterTraces`), **game keys** (`GameKeys`) and **team
  tournaments** (`TeamTournaments`, `TeamGraph`).

`dafny verify dfyconfig.toml` checks the whole project.

## Hypotheses

The agreement of ingest and rebuild is stated for a validated configuration that does not change,
fixed tiers, `auto_reconcile` off, and sources whose games carry distinct orders, one day and
distinct players, with no placeholder and no gated player among the opponents. The exclusion
of placeholders and gated players cannot be dropped: `RatingOpponents` proves that ingest and
replay see the same opponents exactly without them, and `RatingWitnesses` has runs with either that
leave tables a rebuild changes. Nor can `auto_reconcile` be on: `RatingLimits` states exactly when a
reconciling ingest agrees with the log, and `RatingWitnesses` has a run in which it does not. The
order of strings is that of their code points, so that the comparison in the program and the ORDER
BY of the database on source_id and game_order are taken to agree. Arithmetic results assume increasing
parameter ranges on the 0.01 grid, and base ratings in range, which `Validate` does not check.

The session results about reloading assume that published snapshots have trimmed ids that differ
and default court times that do not pass midnight; `SnapshotReload` proves both conditions necessary.

In `RatingErase` a history is compared with the one that leaves out every ingest, revert and purge of
the source, under the condition that the source kept no other out; `RevertErasesIff` shows that the
condition is exact.

## Where code and description differ

- The first publish of a session never locks itself, even with every game scored or a past day:
  the status compared is that of the stored row, which is absent
  (internal/store/session.go:661, against the note at internal/store/session.go:671-672);
  see `SessionLocks.FinishedScheduleLocks`.
- A session without explicit court times whose slot crosses midnight can be published once, but
  what Load then returns is refused as invalid (internal/store/session.go:983-986,
  internal/domain/validate.go:80-89).
- A team swap between two games is refused when partners are crossed, although both games would
  be legal (internal/store/swap.go:281-330); a slot swap is refused if a game sits at the temporary
  slot, even one of the two (internal/store/swap.go:214-231).
- Placeholders are always rated as unknown: `placeholder_policy` is validated and then never
  consulted (internal/store/rating.go:392-394, internal/domain/rating_config.go:20-25);
  `RatingPolicies` proves that no history depends on it.
- Reverting a source does not undo what it kept out: a source refused as out of order after it
  (internal/store/rating.go:203-221) stays out when it is reverted (internal/store/rating_revert.go:48-101),
  though it would have been processed had the other never been ingested. `RatingErase` states exactly
  when this parts the two histories, and `RatingWitnesses.EarlierSourceIsKeptOut` is such a run.
- A granular writer checks the status before it locks its row, so it can commit into a session
  that was locked meanwhile (internal/store/granular.go:99-134); `GranularLocks` states when.

## Model

| member | source | states |
|---|---|---|
| RatingHistory.IncrementalEqualsRebuilt | internal/store/rating_revert.go:166-425 | after every run of ingests, reverts, purges, rebuilds and finalizations a full rebuild changes no rating, deviation, peak, counter, last-played day or delta: the incremental tables are the rebuilt ones |
| RatingHistory.RunsAreConsistent | internal/store/rating.go:203-481 | after every run the event log is strictly ordered by (date, created_at, source_id, game_order) in insertion order with unique match keys, every delta belongs to a logged event and a rated player, and both result tables are the replay of the log |
| RatingErase.RevertErasesTheSource | internal/store/rating_revert.go:48-101 | reverting a source, wherever it stands in the log, leaves exactly the events, deltas and ratings of the history in which it was never ingested, provided that it kept no other source out: that none refused as out of order would have been processed by that history; who is rated in one of the two only sits at the base of his tier with no game, and if nothing was refused nobody is rated there who is not rated here |
| RatingErase.RevertErasesIff | internal/store/rating_revert.go:48-101 | at every point of a run a revert would leave the history without the source if and only if the source never kept another out |
| RatingErase.PartsAtTheRefusal | internal/store/rating.go:203-221 | as long as nothing was kept out, a refusal parts the two histories if and only if the one without the source processes what was refused |
| RatingErase.RevertErasesFromTheAccepted | internal/store/rating_revert.go:48-101 | whatever was refused, a revert leaves the events, deltas and ratings of the history without the source and without the refused ingests of others |
| RatingWitnesses.EarlierSourceIsKeptOut | internal/store/rating.go:203-221 | a run in which a source is kept out: of an earlier day, it is refused after the first source, would have been processed alone, and stays out when the first is reverted |
| RatingErase.HistoriesCorrespond | internal/store/rating_revert.go:48-101 | run in step, a history and the one without the source are both consistent and have logs that differ by exactly the source, as long as it keeps no other out |
| RatingHistory.RevertReplaysTheRest | internal/store/rating_revert.go:79-97 | a revert leaves the replay of the log without the source, for everybody rated so far |
| RatingRebuild.RebuildIsSelfStabilising | internal/store/rating_revert.go:166-425 | from arbitrary values in rating_players and rating_deltas the rebuilt tables depend only on the events, the team of each delta, tiers, configuration and the set of rated ids |
| RatingRebuild.RebuildIsIdempotent | internal/store/rating_revert.go:166-425 | a second rebuild changes nothing, given that every delta belongs to a player with a row |
| RatingRebuild.TriplesSurvive | internal/store/rating_revert.go:203-253 | a rebuild rewrites the (event, player, team) triples of every two-sided event and no others |
| RatingHistory.ReingestChangesNothing | internal/store/rating.go:127-151 | in any history in which a source was processed and since neither reverted nor purged, ingesting it again unchanged, its games listed in any order, changes nothing and reports nothing processed |
| RatingHistory.ProcessedSourceIsSealed | internal/store/rating.go:127-151 | in such a history no ingest of that source changes anything; the answer is a no-op exactly when the fingerprint is the one processed, and a refusal otherwise |
| RatingHistory.PurgeReplaysTheRest | internal/store/rating_admin.go:53-92 | deleting a session leaves the replay of the log without it, for everybody rated so far, and no source row |
| RatingErase.PurgeIsTheRevertWithoutTheRow | internal/store/rating_admin.go:53-92 | after any run the ratings left by deleting a session are those left by reverting it, the source row apart |
| RatingIngest.ReplyAccountsForEveryMatch | internal/store/rating.go:171-351 | the matches processed and those listed as skipped are together as many as the source has; only a source found unchanged is answered without a list |
| RatingIngest.ProcessedIsTheGrowth | internal/store/rating.go:326-456 | whatever the tables hold, an ingest without reconciling only appends to the log, exactly as many events as it reports processed, and none if it refuses |
| RatingPolicies.PlaceholderPolicyIsIgnored | internal/store/rating.go:381-396 | whatever placeholder_policy says, every ingest answers the same and every history leaves the same tables |
| RatingStore.RatingStore.Ingest | internal/store/rating.go:96-506 | the imperative ingest transaction, loop by loop, leaves exactly the tables and the reply of its specification: gates, fingerprint, order guard, deduplication, match loop, flush; the reply counts the names resolved and lists every skipped match with its reason |
| RatingStore.RatingStore.RebuildAll | internal/store/rating_revert.go:166-425 | the imperative replay with its lazily created runtime rows, flush and reset leaves exactly the replay of the log, and returns how many players play in some two-sided event |
| RatingStore.RatingStore.RevertSource | internal/store/rating_revert.go:48-101 | deletes the events of the source with their deltas, forgets its fingerprint and rebuilds; nothing for a source without events |
| RatingStore.RatingStore.PurgeSource | internal/store/rating_admin.go:75-90 | the rating half of deleting a session: its events with their deltas and its source row go, then everything is rebuilt |
| RatingStore.RatingStore.SetSourceFinalized | internal/store/rating_revert.go:107-137 | upserts the finalized flag and the kind, and leaves fingerprint, log and ratings alone |
| RatingStore.RatingStore.RecordMatch | internal/store/rating.go:326-456 | one match: recorded exactly when both sides have an eligible player; event, deltas and runtime rows as specified |
| RatingStore.RatingStore.Deduplicate | internal/store/rating.go:223-245 | keeps the matches neither repeated in the batch nor logged before, in order, and lists the others with the reason |
| RatingStore.RatingStore.EligibleOf | internal/store/rating.go:331-351 | the resolved players of a side whose registration day is not after the match |
| RatingStore.RatingStore.OpponentsFor | internal/store/rating.go:381-396 | everybody fielded by the other side, gated or not, and one synthetic newcomer for every placeholder |
| RatingStore.RatingStore.ResetPrior | internal/store/rating_revert.go:400-422 | players left without a game get the base rating of their tier and empty counters; all others keep their row |
| RatingFold.UpdatesPlayTheStep | internal/store/rating.go:398-456 | player by player, in any order of either side and with opponents read in any order, a game does what one simultaneous step of the replay does |
| RatingFold.GlickoIsOrderBlind | internal/domain/rating.go:149-198 | the update and the stored expectation treat the opponents as a multiset |
| RatingRuns.RecordedIsAStep | internal/store/rating.go:326-456 | recording a replayable match is one step of the replay |
| RatingIngest.CommittedKeepsConsistent | internal/store/rating.go:247-500 | a committed batch keeps the tables the replay of the log and appends exactly its own entries |
| RatingIngest.GuardOrdersTheLog | internal/store/rating.go:203-221 | what passes the order guard comes after everything logged so far |
| RatingBounds.RunsStayInRange | internal/domain/rating.go:149-198 | through every run ratings stay in [ratingMin, ratingMax], deviations in [rdMin, rdMax], deltas within maxDelta, all on the 0.01 grid, and the peak bounds the rating |
| RatingBounds.RunsCountTheLog | internal/store/rating.go:434-439 | games_played, wins and losses count the logged games, whatever was reverted or rebuilt on the way |
| RatingBounds.IngestAlwaysFacesSomebody | internal/store/rating.go:353-396 | no update of an ingest has an empty opponent list, so the division by a zero dSq is never reached |
| RatingBounds.ReplayAlwaysFacesSomebody | internal/store/rating_revert.go:291-331 | nor has an update of a rebuild |
| RatingBounds.PlayingTightensDeviations | internal/domain/rating.go:181-195 | a game never takes a deviation above what idle growth, rounded to the stored grid, had made it |
| RatingLimits.ReconcileAgreesOnlyOnNothing | internal/store/rating.go:138-150 | with auto_reconcile on, a reconciling ingest leaves tables that a rebuild does not change if and only if the source had no logged event |
| RatingWitnesses.CorrectionBreaksAgreement | internal/store/rating.go:138-150 | such a run: a source with one game, ingested, corrected and ingested again, leaves tables that a rebuild changes |
| RatingLimits.ReconcileCounts | internal/store/rating.go:138-150 | the deleted games stay in the counters and the new ones are added on top |
| RatingOpponents.OpponentsAgreeIffReplayable | internal/store/rating.go:381-396 | ingest and replay agree on the opponents of both sides, in number and in the unrounded deviations they lead to, if and only if there is no placeholder and nobody is gated |
| RatingWitnesses.UnloggedOpponentBreaksAgreement | internal/store/rating.go:381-396 | with the default parameters, one doubles game with a placeholder or a gated player, ingested into empty tables, leaves stored deviations of both its opponents that a rebuild changes, from at most 185 to at least 190 |
| GlickoExample.OneOrTwoNewcomers | internal/domain/rating.go:149-197 | under the default parameters a newcomer ends with a deviation of at least 190 after meeting one newcomer, and of at most 185 after meeting two |
| RatingConfig.Validate | internal/domain/rating_config.go:94-161 | the validation loop accepts exactly the configurations with sane ranges, positive weights, known policies and eight valid entries in both tier tables |
| RatingConfig.TierTablesAreComplete | internal/domain/rating_config.go:141-159 | eight valid keys are all eight tiers, in both tables |
| RatingConfig.BaseRatingsAgree | internal/domain/rating_config.go:192-217 | under a valid configuration the base ratings used by ingest and rebuild agree for every tier string, and exist for exactly the eight tiers |
| RatingMatch.PlayersByTeam | internal/domain/rating_match.go:79-87 | the players of a side that are neither placeholders nor absent, in order |
| RatingMatch.PlaceholdersByTeam | internal/domain/rating_match.go:102-110 | the placeholders of a side, in order |
| RatingMatch.FingerprintIgnoresListOrder | internal/domain/rating_match.go:145-177 | a source with distinct game orders has one fingerprint input, in whatever order its matches were listed |
| Sorting.SortForgetsInputOrder | internal/domain/rating_match.go:181-183 | the result of a library sort on input without ties depends only on the multiset sorted |
| Glicko.GlickoUpdate | internal/domain/rating.go:149-198 | the accumulating loop computes the update with exact cap, clamp and rounding half away from zero |
| Glicko.UpdateIgnoresOrder | internal/domain/rating.go:149-198 | the order of the opponents does not matter |
| Glicko.ExpectedOverAll | internal/store/rating.go:427-433 | the expectation stored beside a delta is the rounded mean over the opponents, 0 for none |
| GlickoLaws.GRange | internal/domain/rating.go:62-65 | 0 < G <= 1 |
| GlickoLaws.ExpectedComplement | internal/domain/rating.go:68-70 | the two expectations of one pairing at one deviation add up to 1 |
| GlickoLaws.UpdateStaysInRange | internal/domain/rating.go:162-197 | the new state is in range and on the grid, and the delta within the cap, from any old state |
| GlickoLaws.PlayingNeverAddsUncertainty | internal/domain/rating.go:181-195 | playing never raises a deviation on the 0.01 grid; off it, only by rounding |
| GlickoLaws.ResultMovesRatingItsWay | internal/domain/rating.go:149-179 | a win never lowers and a loss never raises a rating |
| GlickoLaws.DeltaFallsWithAdvantage | internal/domain/rating.go:149-172 | against one opponent the delta is non-increasing in the own rating and non-decreasing in the opponent's |
| GlickoLaws.OneOnOneIsZeroSum | internal/domain/rating.go:149-172 | one against one at equal deviations, margin and weight the two deltas are exact negatives, for any ratings |
| GlickoLaws.GrowthStaysInRange | internal/domain/rating.go:86-99 | idle growth never shrinks a deviation nor takes it past rdMax |
| GlickoLaws.MarginLaws | internal/domain/rating.go:74-82 | the margin multiplier is symmetric, bounded by its cap and grows with the margin |
| RateLimiter.Limiter.Allow | internal/middleware/ratelimit.go:138-159 | grants exactly when a token is there after the refill, and leaves the other buckets alone |
| RateLimiter.Limiter.Sweep | internal/middleware/ratelimit.go:101-116 | drops the idle buckets; on overflow keeps as many as fit, none of them used less recently than an evicted one |
| RateLimiter.Limiter.EvictOldest | internal/middleware/ratelimit.go:120-136 | removes exactly n buckets and none more recently used than a kept one |
| LimiterTraces.SweepsAreInvisibleIff | internal/middleware/ratelimit.go:101-116 | sweeping changes no answer of any history without overflow if and only if a bucket refills within the idle timeout |
| LimiterTraces.DefaultSweepsAreInvisible | internal/middleware/ratelimit.go:70-80 | the production values meet that condition |
| LimiterTraces.WindowBound | internal/middleware/ratelimit.go:138-159 | in any window of any history without overflow one IP gets at most burst + rate * length grants |
| LimiterTraces.RunKeepsSane | internal/middleware/ratelimit.go:138-159 | tokens stay within [0, burst] and no bucket is from the future |
| LimiterTraces.PoliteClientsAreServed | internal/middleware/ratelimit.go:138-159 | a client whose requests, in the history, are at least 1/rate apart is never denied |
| LimiterTraces.SweepWithoutOverflow | internal/middleware/ratelimit.go:112-115 | without overflow a sweep has only one possible result |
| GameKeys.ParseUintStrict | internal/store/session.go:1160-1176 | accepts exactly the non-empty digit strings of value at most 2^30, and returns the value; the accumulator stays below 2^34 |
| GameKeys.SplitGameKey | internal/store/session.go:1143-1158 | accepts exactly two such numerals joined by a dash, and returns their values |
| GameKeys.SplitInvertsGameKey | internal/domain/snapshot.go:67-70 | the parser inverts GameKey exactly up to 2^30 and refuses it beyond |
| GameKeys.GameKeyIsInjective | internal/domain/snapshot.go:67-70 | different games have different keys |
| GameKeys.LeadingZerosAreAccepted | internal/store/session.go:1143-1176 | the strict parser also takes spellings that GameKey never writes |
| Snapshots.ValidateSnapshot | internal/domain/validate.go:24-224 | the validation loops accept exactly the valid snapshots and otherwise name the first section that fails |
| Snapshots.CheckPlayers | internal/domain/validate.go:47-75 | the roster section holds exactly when 4 to 60 complete players with distinct ids match playerCount |
| Snapshots.CheckKeys | internal/domain/validate.go:92-102 | slot/court pairs are non-negative and differ, decided on the key strings |
| Snapshots.CheckMembers | internal/domain/validate.go:110-125 | four known, non-blank and different players, decided by counting a set |
| Text.TrimIsIdempotent | internal/domain/validate.go:226-230 | trimming a trimmed reference changes nothing |
| SessionTables.SyncSessionTables | internal/store/session.go:944-1125 | the delete-and-insert loops write exactly the specified courts, players, fixed matches and games |
| SessionTables.SyncPlayers | internal/store/session.go:996-1017 | every player row with its absent order |
| SessionTables.SyncFixes | internal/store/session.go:1020-1056 | the fixed matches, their slots linked through the id of the inserted row |
| SessionTables.UpdateScores | internal/store/session.go:1112-1123 | every row ends up with the score listed under its own key, if the strict parser takes the key |
| SessionLoad.Load | internal/store/session.go:393-498 | rebuilds the snapshot from the rows: court names only if one is set, absent list by absent_order, open slots as empty strings |
| SnapshotRoundTrip.LoadAfterSave | internal/store/session.go:944-1125 | loading what was published gives the normal form of the snapshot if and only if no absent reference is the trimmed id of two players |
| SnapshotRoundTrip.AbsentRoundTrip | internal/store/session.go:996-1017 | the absent list comes back in its own order |
| SnapshotRoundTrip.ScoresRoundTrip | internal/store/session.go:1112-1123 | exactly the scores with slot and court up to 2^30 come back |
| SnapshotReload.NormalIsIdempotent | internal/store/session.go:393-498 | normalising a normal form only sets version and lock |
| SnapshotReload.SameKeysPlayed | internal/store/session.go:1059-1081 | the normalised played list holds the same keys |
| SnapshotReload.ReloadIsPublishable | internal/domain/validate.go:24-224 | what Load returns validates again if and only if trimming makes no two ids equal and no court without explicit times runs past midnight |
| SnapshotReload.SecondRoundTripIsIdentity | internal/store/session.go:944-1125 | under that condition publishing what was loaded and loading it again is the identity but for version and lock |
| SnapshotReload.LateEveningIsPublishableOnce | internal/domain/validate.go:80-89 | a session from 23:30 with one-hour slots is valid, and what Load returns after publishing it is not |
| SessionStore.SessionStore.Save | internal/store/session.go:516-707 | lock, version check, validation, synchronisation and self-locking, exactly as the step; other sessions untouched |
| SessionStore.SessionStore.SetGameScore | internal/store/granular.go:84-209 | exactly the score step: checks in order, marks, version, and the lock on the last score |
| SessionStore.SessionStore.SetGamePlayed | internal/store/granular.go:225-308 | exactly the played step; unmarking removes the score, setting what is set changes nothing |
| SessionStore.SessionStore.SetGameSkipped | internal/store/granular.go:407-522 | exactly the skip step; the same set in another order changes nothing |
| SessionStore.SessionStore.SetAbsentPlayers | internal/store/granular.go:313-404 | exactly the absence step |
| SessionStore.SessionStore.SwapMembers | internal/store/swap.go:35-156 | exactly the swap step: it goes through under the stated condition or leaves everything |
| SessionStore.SessionStore.Unlock | internal/store/session.go:737-799 | exactly the unlock step |
| SessionStore.SessionStore.Delete | internal/store/session.go:695-732 | removes a draft and refuses any other status |
| SessionStore.SessionStore.AdminDelete | internal/store/rating_admin.go:53-92 | removes the session in any status; what happens to its ratings is PurgeSource |
| SessionStore.EqualStringSets | internal/store/granular.go:523-538 | true exactly for equal multisets |
| SessionStore.CleanRefs | internal/store/granular.go:314-327 | trims, drops blanks, and refuses exactly the lists with duplicates |
| SessionStore.AllGamesScored | internal/store/granular.go:213-222 | true exactly when every row has a score |
| SessionStore.CountScoredGames | internal/store/session.go:1185-1194 | the number of scheduled games with an entry in gameScores |
| SessionLaws.EqualVersionsAgree | internal/store/session.go:586-603 | between creation and deletion the session version never decreases, and two states with one version agree on header, status, roster, absences and schedule |
| SessionLaws.LockedStaysFrozen | internal/store/granular.go:122-124 | a session that is not a draft stays as it is through any run without unlock and administrator's delete |
| SessionLaws.UnlockedAsItWasLocked | internal/store/session.go:780-786 | whatever is tried on a locked session before it is unlocked, the unlocked session is the one that was locked, as a draft one version up |
| SessionLaws.RunsKeepRowsOk | internal/store/granular.go:154-165 | in every reachable session each row has both scores or neither, a score only when played, and played, status and played_order agree; places are unique and four different players sit in every game |
| SessionLocks.LockedExactlyWhenFinished | internal/store/granular.go:177-194 | in serial runs without unlock, of sessions whose first publish is not fully scored and whose publishes neither ask for the lock nor are of a past day, a session is locked exactly when it has games and all are scored |
| SessionLocks.DraftsStayOpen | internal/store/granular.go:177-194 | in every serial run without unlock, of sessions whose first publish is not fully scored, a draft with games always lacks a score |
| SessionLaws.SnapshotCountAgreesWithRows | internal/store/session.go:1185-1194 | the count on the snapshot equals the scored rows written from it if and only if no scored game lies beyond 2^30; otherwise it is larger |
| SessionLocks.FinishedScheduleLocks | internal/store/session.go:657-680 | publishing locks a session exactly when the snapshot asks for it or, unless it is the first publish, its schedule is fully scored or its day is past; fully scored on the snapshot is fully scored in the rows, for scores within the limit |
| SessionReload.LoadedSnapshotsValidate | internal/domain/validate.go:24-224 | whatever has been done to a session, the snapshot a client loads is valid and may be published back |
| SessionReload.SwapKeepsGamesOk | internal/store/swap.go:199-434 | a swap seats only players already seated in its two games |
| Swaps.Board.SwapMembers | internal/store/swap.go:35-143 | statement by statement, a swap goes through exactly under its condition, and every statement leaves legal rows |
| Swaps.Board.SwapSlots | internal/store/swap.go:199-231 | through the temporary slot; goes through exactly when both games exist and no game sits there |
| Swaps.Board.SwapPlayer | internal/store/swap.go:233-279 | goes through exactly when both seats are taken and neither player would meet himself |
| Swaps.Board.SwapTeam | internal/store/swap.go:281-330 | goes through exactly when both resulting games are legal and no partners are crossed |
| Swaps.Board.SwapPlayerSameGame | internal/store/swap.go:333-384 | delete and reinsert two seats |
| Swaps.Board.SwapTeamSameGame | internal/store/swap.go:387-434 | delete and reinsert all four seats |
| SwapLaws.SwapIsAnInvolution | internal/store/swap.go:199-434 | the same swap asked again goes through again and restores every placement |
| SwapLaws.SwapConservesAppearances | internal/store/swap.go:199-434 | every player keeps his number of seats |
| SwapLaws.SwapKeepsTheBoard | internal/store/swap.go:199-434 | places stay unique and four different players sit in every game |
| SwapLaws.SwapTouchesOnlyPlaces | internal/store/swap.go:199-434 | marks, scores, skips and order stay with their row; versions rise by at most two |
| SwapLaws.CrossedTeamsAreRefused | internal/store/swap.go:281-330 | with any seven names there are two teams with crossed partners that cannot be swapped although both games would end up legal |
| GranularRaces.RowsAreSerial | internal/store/granular.go:126-165 | under any interleaving of any number of writers the rows are those of the committed changes in commit order, and each row's version has grown by one per change |
| GranularRaces.OneWriterPerVersion | internal/store/granular.go:126-165 | of the writers presenting one expected version of one game at most one commits a change |
| GranularRaces.InterleavingsKeep | internal/store/granular.go:126-198 | who is past the row lock holds it, and the row it read is still the committed one |
| GranularCommits.CommitIsTheSerialOperation | internal/store/granular.go:84-198 | in any interleaving each logged change is the one the operation, addressed by the key of its game, makes alone on a draft with the rows of all commits before; it locks as its commit did if nothing was committed between its count and its commit |
| GranularCommits.SessionRowFollowsTheLog | internal/store/granular.go:177-194 | the session is locked, one version up, by the first commit whose transaction had counted every game as scored, with the rows as of that count |
| GranularCommits.UndisturbedRunsAreSerial | internal/store/granular.go:84-198 | a run in which nothing is committed between a count and its commit, nor into a locked session, ends with the rows, status and version of serving its commits one after the other |
| GranularLocks.ConcurrentLastScoresDoNotLock | internal/store/granular.go:177-194 | two last scores entered at once leave every game scored and the session open |
| GranularLocks.LockedRowsChangeIff | internal/store/granular.go:99-134 | a session that is no draft any more changes in some continuation if and only if some transaction is past its checks, or has seen the draft and would pass them |
| GranularLocks.QuietLockStays | internal/store/granular.go:99-134 | with every transaction closed or not yet past the status check, a locked session keeps its rows, status and version under any continuation |
| GranularLocks.LateWriterChangesALockedSession | internal/store/granular.go:99-134 | such a continuation happens: a writer that read the status as draft commits after another has locked the session |
| WatchHub.NothingIsSentOnAClosedChannel | internal/store/session.go:79-112 | however Subscribe, Unsubscribe and Broadcast interleave, no send meets a closed channel |
| WatchHub.RunsKeepInv | internal/store/session.go:65-112 | locks, watcher sets, offers and channels stay in the stated relation in every run |
| WatchHub.NoEmptyWatcherSets | internal/store/session.go:79-87 | no empty watcher set remains |
| WatchHub.SubscribersSeeOffersInOrder | internal/store/session.go:98-112 | buffers hold at most four, and a subscriber receives an in-order subsequence of the offers on its channel, all of them if no send met a full buffer |
| WatchHub.BroadcastReachesEveryWatcher | internal/store/session.go:98-112 | a broadcast with nobody left to visit was offered to every watcher of its session and to no other session |
| WatchHub.LaterBroadcastsComeLater | internal/store/session.go:98-112 | a subscriber sees two broadcasts in order if the first had returned before the second was called |
| TeamTournaments.ValidateTeamTournament | internal/domain/validate_team.go:20-134 | accepts exactly six complete teams with distinct names, valid matches and partai, and no or nine group matches with three appearances each |
| TeamTournaments.CheckPartai | internal/domain/validate_team.go:138-161 | no score, or one side exactly at the target and the other below it |
| TeamTournaments.PairKeyIsSymmetric | internal/domain/validate_team.go:173-178 | the key of a pairing does not depend on the order |
| TeamTournaments.PairKeyIsInjective | internal/domain/validate_team.go:173-178 | on ids without NUL the key stands for the unordered pair |
| TeamGraph.RepeatedKeyIsRepeatedPairing | internal/domain/validate_team.go:97-110 | on ids without NUL two group matches have one key exactly when they pair the same two teams |
| TeamTournaments.PairKeyCollidesOnNul | internal/domain/validate_team.go:173-178 | with NUL in the ids two pairings can share a key |
| TeamGraph.Handshake | internal/domain/validate_team.go:71-134 | appearances add up to twice the group matches |
| TeamGraph.ThreeEachMeansNine | internal/domain/validate_team.go:122-132 | six teams with three appearances each force nine group matches |
| TeamGraph.DrawIsSimpleAndRegular | internal/domain/validate_team.go:71-134 | an accepted draw is a simple 3-regular graph on the six teams |
| TeamGraph.TeamsThatDoNotMeetShareOpponents | internal/domain/validate_team.go:71-134 | two teams that do not meet share at least two opponents |
| TeamGraph.ChoosePlayers | internal/store/rating_extract.go:405-442 | the selection loop of one team and one partai |
| TeamGraph.TwoPlayersPerPartai | internal/store/rating_extract.go:405-478 | in a valid team exactly two players play each partai, one at position 0 and one at 1 |
| TeamGraph.OnePartaiPerPlayer | internal/store/rating_extract.go:466-478 | every player of a valid team plays exactly one of the three partai |

## Left out

- Postgres itself: tables are values and constraints are aborts; SQL text, advisory locks, isolation levels other than read committed in `GranularRaces`, migrations and missing-column fallbacks are not part of this model.
- Idempotency keys, the outbox, metrics and the broadcast after a commit: they do not change the modelled rows.
- Lookups of sessions and sources by uuid: a session is found by its share code, a source by its id.
- SessionStore.SessionStore.Save: whether the names of a snapshot resolve to different people is a parameter; registering players and setting their first tier on a publish are left out, because they touch tables outside the session.
- Parsing of dates and times of day: dates are day numbers, times are minutes, an unparsable value is a value of its own.
- IEEE rounding of the rating arithmetic: exact reals, with logarithm, power and square root as parameters under stated laws.
- SHA-256: match keys and fingerprints are compared by their canonical inputs, so that an event is identified by its unique match key. A fingerprint leaves out dates and absence marks, as in the source.
- Internal ids of session players: a player is represented by the trimmed reference that Load shows for him.
- Pointers to runtime rows: a runtime row is a value in a map, written back when updated.
- The sequence number stored beside an ingested source.
- SessionStore.SessionStore.AdminDelete: says nothing about ratings, which are tables of their own; RatingStore.RatingStore.PurgeSource does.
- Two transactions of one request: deleting a session commits its own deletion before the ratings are rebuilt; the model takes both together.
- Contention errors: in the serial model a transaction never meets a held lock; in `GranularRaces` it is rolled back.
- Interleavings with Save, SwapMembers, SetAbsentPlayers, Unlock and Delete: `GranularRaces` has only the three granular writers, since a publish resets the row versions.
- Career statistics, merging and deleting of players, seasons and the classic tournament tables.
- TierForRating: the default bands leave gaps that fall back to D, so it is not monotone.
- HTTP handlers, JSON, tokens, CORS and the SSE transport.
- GlickoLaws.PlayingNeverAddsUncertainty: an idle player's deviation is stored off the 0.01 grid only in memory; the bound is then its rounded value, since rounding may add back less than half a cent.
- LimiterTraces.WindowBound: histories in which the size limit evicts buckets are not covered, because an evicted IP starts with a full bucket again.
- GranularRaces.RowsAreSerial: says nothing about the session row; GranularCommits and GranularLocks do.
- SnapshotRoundTrip.LoadAfterSave: skipped players are lost by a publish, as in the source, so the normal form has none.
