# Verified models of the agent API

Dafny models of the services under `apps/api` that keep shared state or produce event streams, with
proofs about all their runs. `dafny verify dfyconfig.toml` checks the whole project.

## What is modelled

- **Concurrent session updates** (`LockedUpdates.dfy`). `update_session` as a step system: any number
  of clients take the Redis lease lock, read through the cache, write the row, write the cache and
  release, while entries are evicted, time passes, clients crash and unlocked readers re-cache. The lock
  alone is safe in every run. Which steps keep database and cache coherent is decided exactly, and
  two of the unprotected ones are shown to lose a turn. `SpelledUpdates.dfy` adds callers that spell the
  session id differently and so take different locks.
- **Acquiring the lock** (`LockManager.dfy`). The retry loop with its backoff, jitter and timeout,
  against an environment that changes the store between attempts, and the release on both exits.
- **The shared store** (`Redis.dfy`). Documents and sets under string keys with expiries and a clock;
  one method for each server command.
- **Sessions over cache and table** (`SessionModel.dfy`, `SessionIndex.dfy`, `SessionStore.dfy`,
  `SessionRepo.dfy`, `SessionService.dfy`). The service's calls one after the other, with expiries in
  between. The invariant says that payloads describe their rows, that each cached session is in its
  owner's index and that the index outlives it and names rows of that owner only. From it follow
  transparency, ownership refusals included, and the exactness of owner lists. Timestamps are left
  out of the comparison, because both sides read their own clock. Costs (`Costs.dfy`) are decimals,
  rounded and bounded by their column. `UpdateBridge.dfy` relates rows and locks to those of the
  concurrent model.
- **Environment placeholders** (`Placeholders.dfy`). The leftmost scan for `${NAME}` on texts and its
  lifting to JSON trees. Idempotence is false in general; the exact condition on the environment is
  proved in both directions.
- **The streaming pipeline** (`Pipeline.dfy`). Producer and consumer tasks around the bounded queue, with
  init handling, disconnects, cancellation and the final status.
- **One streaming query** (`StreamRunner.dfy`). SDK messages to events, the poll of the interrupt marker
  after each, the closing events, registration and the consumer that stops listening at any point.
  `QueryEndpoint.dfy` sends such a stream through the pipeline.
- **Server-sent events** (`Sse.dfy`). The printer for assistant events and the client's parser of sections
  9.2.5 and 9.2.6 of the WHATWG HTML Standard.
- **MCP servers of an API key** (`McpStore.dfy`), **checkpoints** (`Checkpoints.dfy`), **listing pages**
  (`Sorting.dfy`, `Pagination.dfy`), **shutdown** (`Shutdown.dfy`) and **token usage** (`Usage.dfy`): the
  smaller stores and monitors, each over whole runs.

Protocols in which several tasks interleave are step systems over values; code that runs on its own is
a class with the source's fields. SHA-256, UUID parsing, ISO timestamps and `str()` are function
parameters; `Codec.Sound` states what is assumed of them: reading a printed time gives it back, a hash
is not empty, a printed UUID is its own canonical spelling without a colon, and no text that is
accepted as a UUID begins with `owner:`. `SessionModel.SoundCodecExists` shows that they can be met.
A float stands for the decimal that its `str` prints.

## Findings

- `create_session` with an id or parent id in another UUID spelling leaves a cached copy that answers
  differently from the table (`SessionStore.CreateTransparentIff`).
- `update_session` with a cost finer than a micro-dollar leaves a cached cost that differs from the table's
  (`SessionStore.UpdateTransparentIff`, `LockedUpdates.ExactStepIff`).
- `delete_session` leaves the row of a session that is not cached (`SessionService.SessionService.DeleteSession`,
  `SessionService.DeletionMissesRow`).
- Callers that spell one session id differently take different locks: turns are safe exactly if all spell it
  alike (`SpelledUpdates.SpellingsIff`).
- The unlocked re-cache in `get_session`, and a critical section longer than the lease, lose turns
  (`LockedUpdates.UnlockedRecacheLosesTurn`, `LockedUpdates.LateWriterLosesTurn`).
- Cancelling the producer with a full queue blocks the clean-up for good (`Pipeline.CancelStuckIff`,
  `Pipeline.StuckReachable`); an internal stream error reaches the client but not the session status
  (`Pipeline.CompleteDelivery`, `Pipeline.InternalCompletes`).
- The endpoint looks for `turns` in the result data, which names its count `num_turns`: the stored turn
  count is the number of message events (`QueryEndpoint.StatusOfStream`, `QueryEndpoint.StoredTurnsDiffer`).
  When the two agree is decided by `QueryEndpoint.TurnsAgreeIff`.
- A memory extraction error event does not make the done reason an error, and is the only error event that
  does not (`StreamRunner.ErrorCompletedIff`).
- The interrupt marker outlives the run it stopped and stops the next one of the session
  (`StreamRunner.StaleMarkerStops`).
- A list of checkpoints may show expired ones, which do not validate (`Checkpoints.ListedButExpired`); it
  shows none exactly if the first one it shows is live (`Checkpoints.AllShownValidIff`).
- A value in the first usage of a query that is no integer is kept. The run raises exactly if it is no number
  at all and an integer comes for its key later (`Usage.RaisesIff`), so the order of the events can matter;
  when it does not is decided by `Usage.OrderIndependentIff`. The usages that this repository sends are dumps
  of integer fields, for which neither happens (`Usage.CleanRuns`).

## Model

| member | source | states |
|---|---|---|
| LockedUpdates.MutualExclusion | apps/api/services/session_lock_manager.py:44-82 | In every run of every number of clients, crashes and expiries included, two clients with unexpired leases are never both inside, and the lock key then holds the inside client's token and lease |
| LockedUpdates.LateReleaseHarmless | apps/api/adapters/cache.py:475-495 | A release, however late, never removes the lock that another client holds |
| LockedUpdates.StepCoherentIff | apps/api/services/session.py:469-515 | A step keeps database, cache and everything a client has read in agreement exactly if it is one the lock protects; the exact list of unprotected steps is the predicate `Protected` |
| LockedUpdates.ProtectedRunCoherent | apps/api/services/session.py:469-515 | Every run of protected steps ends coherent, with one log entry for each database write |
| LockedUpdates.NoLostUpdates | apps/api/services/session.py:439-515 | After any protected interleaving the row is the result of the completed updates one after the other on the first row, and outside a critical section any cached copy is that row, up to the precision of the cost column |
| LockedUpdates.ExactStepIff | apps/api/services/session.py:483-498 | Copies of the row stay exact at every step but one: the write of an update whose cost is finer than the column |
| LockedUpdates.ExactCopies | apps/api/services/session.py:483-498 | If all costs are ones the column holds, any cached copy outside a critical section equals the row |
| LockedUpdates.NoLostTurns | apps/api/services/session.py:469-502 | With incrementing clients the turn count is the start plus the number of completed database writes |
| LockedUpdates.UnlockedRecacheLosesTurn | apps/api/services/session.py:303-309 | A concrete run: the unlocked re-cache of a read makes two complete increments count as one |
| LockedUpdates.LateWriterLosesTurn | apps/api/services/session_lock_manager.py:64-72 | A concrete run: a critical section that outlives its lease loses a turn |
| SpelledUpdates.OneSpellingKeepsTurns | apps/api/services/session_lock_manager.py:40 | Callers that all spell the id alike lose no turn, whether the spelling is canonical or not |
| SpelledUpdates.TwoSpellingsLoseTurn | apps/api/services/session_lock_manager.py:40 | Callers with any two spellings have a run, protected by their locks, in which two writes count one turn |
| SpelledUpdates.SpellingsIff | apps/api/services/session_lock_manager.py:40 | For any set of spellings, no turn is ever lost exactly if there is at most one |
| UpdateBridge.UpdateProjects | apps/api/services/session.py:476-495 | An update of a stored row is the same update in the concurrent model as in the session model |
| UpdateBridge.AcquireProjects | apps/api/adapters/cache.py:464-473 | An acquisition of the step system is possible exactly if SET NX EX succeeds, and leaves the same lock in the store |
| UpdateBridge.ReleaseProjects | apps/api/adapters/cache.py:475-495 | A release of the step system is the guarded deletion on the store |
| LockManager.SessionLockManager.WithSessionLock | apps/api/services/session_lock_manager.py:28-82 | The operation runs exactly if some attempt within the timeout finds the lock free, under that attempt's token; the lock is given back by compare-and-delete whether it returns or raises, and a failing release is not reported; no wait ends 0.55 s past the timeout; for any jitter in the tenth, any other clients and any call durations |
| LockManager.SessionLockManager.Acquire | apps/api/services/session_lock_manager.py:42-62 | The retry loop ends; all attempts but the last found the lock held; their number fits the timeout |
| LockManager.TotalDelayLinear | apps/api/services/session_lock_manager.py:22-23 | The waits double up to the maximum: after six of them each further one adds half a second |
| LockManager.DefaultAttempts | apps/api/services/session_lock_manager.py:33-62 | At most 17 attempts for the default timeout of five seconds |
| LockManager.AttemptsBounded | apps/api/services/session_lock_manager.py:42-62 | For every timeout the number of attempts is linearly bounded |
| Redis.Put | apps/api/adapters/cache.py:222-260 | A written key is live with its value and expiry, every other key is as before |
| Redis.AddMember | apps/api/adapters/cache.py:395-406 | Adding to a set keeps its members and its expiry; a new set has none |
| Redis.RemoveMember | apps/api/adapters/cache.py:408-419 | Removing takes out exactly the one member and never prolongs the set |
| Redis.SetExpiry | apps/api/adapters/cache.py:521-532 | Only the expiry of a live key changes; a missing key stays missing |
| Redis.LockRoundTrip | apps/api/adapters/cache.py:464-495 | A held lock cannot be taken, another token does not free it, and taking and freeing restores what every client sees |
| Redis.RedisCache.GetManyJson | apps/api/adapters/cache.py:189-220 | The bulk read answers position by position as single reads would |
| Redis.RedisCache.AcquireLock | apps/api/adapters/cache.py:448-473 | The lock value is returned exactly if the lock was free, and is then the one stored until the lease ends; otherwise nothing changes |
| Redis.RedisCache.ReleaseLock | apps/api/adapters/cache.py:475-495 | Answers whether the lock was the caller's; then it is gone, otherwise nothing changes, and no other key ever does |
| Costs.RoundStable | apps/api/models/session.py:61-64 | What the cost column gives back it takes back unchanged, and it moves no cost by more than half a micro-dollar |
| Costs.RoundIs | apps/api/models/session.py:61-64 | The rounded cost is the one whole number of micro-dollars nearest to it, halves away from zero |
| Costs.FitsIff | apps/api/models/session.py:61-64 | The column refuses exactly the costs of ten thousand dollars and more, after rounding |
| Costs.FinerCost | apps/api/adapters/session_repo.py:123-124 | A cost that fits the column and is not held exactly |
| SessionModel.SoundCodecExists | apps/api/services/session.py:156 | The assumptions on the library functions can be met, with a second spelling of an id accepted |
| SessionModel.PayloadRoundTrip | apps/api/services/session_cache_manager.py:144-205 | Parsing a cached payload undoes writing it, for every session; the status is normalised |
| SessionModel.ParseStatusStable | apps/api/utils/session_utils.py:23-28 | Status normalisation is idempotent and gives one of the three known values |
| SessionModel.ParseStatusIff | apps/api/utils/session_utils.py:23-28 | Exactly the spellings of `completed` and `error` in any capitals are these two; everything else is active |
| SessionModel.DirectReadAnswers | apps/api/services/session.py:251-346 | An answer, case by case: failure for a malformed id, absent without a row, refused for another owner's key, else every column of the row |
| SessionModel.MergeIs | apps/api/services/session_metadata_manager.py:22-51 | A changed key has its new value, every other key its stored one, no key comes or goes besides, and the other columns stay |
| SessionModel.ChangeIs | apps/api/services/session.py:476-495 | Given columns take the given value, turns grow by one if asked, all others stay |
| SessionIndex.KeysApart | apps/api/services/session_cache_manager.py:26-28 | Session keys and owner-index keys coincide only for ids that spell an index |
| SessionIndex.WrittenAgreeing | apps/api/services/session_cache_manager.py:30-60 | Writing a row and caching it keeps the whole agreement: payloads describe rows, every cached session is in its owner's index, the index outlives it and names only the owner's rows |
| SessionIndex.ShrunkAgreeing | apps/api/services/session_cache_manager.py:125-136 | Losing entries, index members or rows in the allowed way keeps the agreement |
| SessionStore.WriteThrough | apps/api/services/session.py:489-498 | A row and a cached session that describes it may be written together |
| SessionStore.ReadAgrees | apps/api/services/session.py:251-346 | A read through the cache gives, up to timestamps, the answer of the table alone, refusals and failures included |
| SessionStore.AgreeingIsTransparent | apps/api/services/session.py:251-346 | An agreeing cache is transparent for every id and every API key |
| SessionStore.RecacheAgreeing | apps/api/services/session.py:303-309 | Re-caching a row just read keeps the agreement |
| SessionStore.TickAgreeing | apps/api/services/session_cache_manager.py:33-60 | Any passing of time, with any set of expiries, keeps the agreement |
| SessionStore.UncacheAgreeing | apps/api/services/session_cache_manager.py:125-136 | Removing the cached copy, with or without its row, keeps the agreement |
| SessionStore.MissedUncacheAgreeing | apps/api/services/session.py:527-559 | Deleting what is not cached keeps the agreement |
| SessionStore.CanonicalCreate | apps/api/services/session.py:131-160 | Creation under canonically spelled ids keeps the agreement |
| SessionStore.CreateTransparentIff | apps/api/services/session.py:105-170 | Creation keeps reads transparent exactly if session and parent id are spelled as UUIDs print; any other spelling is answered differently by cache and table |
| SessionStore.UpdateTransparentIff | apps/api/services/session.py:483-498 | An update keeps reads transparent exactly if its cost is absent or one the column holds; otherwise cache and table answer different costs |
| SessionRepo.SessionRepository.Create | apps/api/adapters/session_repo.py:38-81 | A new row is stored exactly if its id is free and its parent exists |
| SessionRepo.SessionRepository.Update | apps/api/adapters/session_repo.py:96-137 | Only the given columns and the update time of the one row change, a cost in the precision of its column; a cost that does not fit is an error |
| SessionRepo.SessionRepository.UpdateMetadata | apps/api/adapters/session_repo.py:139-164 | Only the metadata and the update time of the one row change |
| SessionRepo.SessionRepository.Delete | apps/api/adapters/session_repo.py:448-463 | The row goes, unless it is missing or other rows name it as parent; the three cases are told apart |
| SessionService.SessionCacheManager.ListForOwner | apps/api/services/session_cache_manager.py:87-104 | Exactly the index members that are cached and parse, each once |
| SessionService.SessionService.GetSession | apps/api/services/session.py:251-346 | The answer is that of the table alone, every column of the row the id names or the right refusal, and the agreement is kept |
| SessionService.SessionService.CreateSession | apps/api/services/session.py:105-249 | Error cases, new row and answer as a plain table gives them, column by column; transparent afterwards exactly if the ids are canonical |
| SessionService.SessionService.UpdateSession | apps/api/services/session.py:439-515 | The read-modify-write answers and changes the row as the plain table would, column by column and only that row, whatever is cached; transparent afterwards exactly if the column holds the cost |
| SessionService.SessionService.MergeInto | apps/api/services/session_metadata_manager.py:22-51 | In the one row every changed key has its new value and every other key its stored one; all else stays; the answer is the new row |
| SessionService.SessionService.PromoteSession | apps/api/services/session.py:586-633 | Afterwards `mode` is `code` and `project_id` the given project, whatever was stored there; other metadata, columns and rows stay |
| SessionService.SessionService.UpdateTags | apps/api/services/session.py:635-682 | Afterwards `tags` is the list of the given texts in order, whatever was stored there; other metadata, columns and rows stay |
| SessionService.SessionService.DeleteSession | apps/api/services/session.py:517-573 | The row is deleted exactly if the session is cached at that moment and has no children; otherwise it stays |
| SessionService.DeletionMissesRow | apps/api/services/session.py:557-573 | A session that is created, runs out of the cache and is deleted: the answer is no and the row stays |
| SessionService.SessionService.ListForOwner | apps/api/services/session_cache_manager.py:87-104 | The list is exactly the live cached sessions of the owner, each once |
| SessionService.Run | apps/api/services/session.py:105-682 | Over every sequence of calls and expiries, answers and tables are step by step those of a service without a cache, deletions happening exactly when the session is cached, up to the first creation under another spelling or update with a finer cost; from that call on reads are not transparent |
| SessionService.StepShown | apps/api/services/session.py:105-682 | Each step of such a run, column by column on the row that its id names |
| Placeholders.MatchLenIff | apps/api/services/mcp_config_loader.py:18 | The scan matches a prefix exactly if it is a placeholder |
| Placeholders.OccurrencesDisjoint | apps/api/services/mcp_config_loader.py:18 | Two placeholder occurrences in a text are the same or do not overlap |
| Placeholders.EveryOccurrenceReplaced | apps/api/services/mcp_config_loader.py:201-246 | Every occurrence is replaced wherever it stands, and the text around it is resolved on its own |
| Placeholders.SettledFixed | apps/api/services/mcp_config_loader.py:201-246 | A text without replaceable placeholders is left unchanged |
| Placeholders.ImageSettled | apps/api/services/mcp_config_loader.py:201-246 | With separated values one pass leaves nothing for a second |
| Placeholders.OverlapWitness | apps/api/services/mcp_config_loader.py:201-246 | Every overlap of a value with a placeholder yields a text whose result would be changed again |
| Placeholders.IdempotentIff | apps/api/services/mcp_config_loader.py:201-246 | Resolving twice equals resolving once on every text exactly if no replacement value overlaps a replaceable placeholder |
| Placeholders.NestedNotStable | apps/api/services/mcp_config_loader.py:201-246 | A concrete text on which a second pass changes the result |
| Placeholders.ForeignSeparated | apps/api/services/mcp_config_loader.py:201-246 | Values without `$` and `}` and with a character foreign to placeholders are always safe |
| Placeholders.ShapeKept | apps/api/services/mcp_config_loader.py:176-199 | Resolution keeps the shape and the keys of every JSON tree |
| Placeholders.TreeStable | apps/api/services/mcp_config_loader.py:176-199 | Idempotence on texts carries over to every JSON tree |
| Placeholders.TreeIdempotentIff | apps/api/services/mcp_config_loader.py:149-199 | The same exact condition decides idempotence on all configuration trees |
| Placeholders.ResolvedAt | apps/api/services/mcp_config_loader.py:176-199 | At every path through keys and positions, of any depth: a text becomes its resolved text, every other leaf stays, containers keep their places, and no path appears or disappears |
| Placeholders.ResolvedIff | apps/api/services/mcp_config_loader.py:176-199 | The resolved document is the one and only document that is resolved at every path |
| Pipeline.StepInv | apps/api/routes/query_stream.py:168-257 | Every step of producer, consumer, disconnect and cancellation keeps the pipeline invariant |
| Pipeline.QueueRefines | apps/api/routes/query_stream.py:168-257 | In every reachable state taken plus queued items are the items put, at most 100 are queued, what was put begins the sequential reference, and the sentinel is put once and last; a disconnect interrupts the session |
| Pipeline.WovenEvents | apps/api/routes/query_stream.py:170-192 | Without the failure items the queued sequence is the agent's stream |
| Pipeline.FailureBeforeInit | apps/api/routes/query_stream.py:91-135 | A failure item stands immediately before the init event it is about, and tells an unreadable init from a failed creation |
| Pipeline.FailuresBounded | apps/api/routes/query_stream.py:181-182 | There are never more failure items than init events, and none for a resumed session |
| Pipeline.WovenStep | apps/api/routes/query_stream.py:71-135 | Each event is put as it is, right after its failure item exactly if no session was named before it and its init data is broken or its session cannot be created |
| Pipeline.SidIs | apps/api/routes/query_stream.py:71-82 | The session id is the query's own, else the one of the first init that names one, else none |
| Pipeline.InterruptedIff | apps/api/routes/query_stream.py:184-197 | In every run the agent is asked to stop exactly if, with the session id known, the producer saw the client gone, the request was cancelled, or the producer was cancelled in its try body |
| Pipeline.ErrorSeen | apps/api/routes/query_stream.py:137-148 | The error flag is set exactly if an error event or a failure item was put |
| Pipeline.TurnsCounted | apps/api/routes/query_stream.py:137-156 | The turn count is the last one a result reported, or none, plus the messages since |
| Pipeline.CostIs | apps/api/routes/query_stream.py:149-154 | The cost is the last one a result reported |
| Pipeline.SessionFixed | apps/api/routes/query_stream.py:71-74 | The first init that names a session decides the session id for good |
| Pipeline.StepDecreases | apps/api/routes/query_stream.py:168-257 | Every step decreases a measure on remaining source, queue and phases |
| Pipeline.RunBounded | apps/api/routes/query_stream.py:168-257 | No run has more steps than the measure of its first state |
| Pipeline.ProgressIff | apps/api/routes/query_stream.py:241-272 | Some step other than the client leaving is possible exactly until the end, except in the one stuck state |
| Pipeline.CancelStuckIff | apps/api/routes/query_stream.py:194-223 | Cancelling the producer gets stuck exactly if the queue is full and it is not yet putting its sentinel |
| Pipeline.StuckReachable | apps/api/routes/query_stream.py:221-272 | A run that ends stuck: an init event and 99 messages queued, one more pulled, then the client leaves |
| Pipeline.InternalCompletes | apps/api/routes/query_stream.py:198-220 | A run that delivers the internal error and leaves the session completed |
| Pipeline.CompleteDelivery | apps/api/routes/query_stream.py:225-272 | Every run of a client that keeps reading, once it cannot go on, has delivered the whole sequence and the sentinel; the session status is an error exactly if an error other than the internal one was delivered |
| StreamRunner.QueryExecutor.Next | apps/api/services/agent/query_executor.py:161-199 | The generator yields exactly the events of the messages in order, each with the context of that moment, and ends as its source does |
| StreamRunner.QueryExecutor.CheckSpecialToolUses | apps/api/services/agent/handlers.py:214-247 | The loop over the blocks computes the event of the message |
| StreamRunner.FirstQuestion | apps/api/services/agent/handlers.py:214-247 | An assistant message is a question exactly if a block asks one, and the first such block is the one |
| StreamRunner.EveryMessage | apps/api/services/agent/handlers.py:68-95 | Every message that calls for an event gives exactly that one, in message order and with the context after the message; no other message gives any |
| StreamRunner.PartialsIff | apps/api/services/agent/handlers.py:84-95 | Partial events appear exactly if the request asked for them and the SDK sent a known fragment |
| StreamRunner.QueryExecutor.MapSdkMessage | apps/api/services/agent/handlers.py:68-95 | The dispatch on the message kind updates the context and gives an event as the mapping says |
| StreamRunner.StreamQueryRunner.Forward | apps/api/services/agent/stream_query_runner.py:94-109 | The loop forwards the events up to the first poll that finds the marker, fails or is cancelled, or to the end |
| StreamRunner.StreamQueryRunner.Run | apps/api/services/agent/stream_query_runner.py:92-132 | The consumer sees the trace as far as it listens, and on every exit the session is unregistered or the failing unregistration raises |
| StreamRunner.AgentService.QueryStream | apps/api/services/agent/service.py:271-296 | The init event comes first; once the runner has been left the session is not active, unless its unregistration failed |
| StreamRunner.SessionControl.Interrupt | apps/api/services/agent/session_control.py:27-34 | The marker is written exactly if the session is active |
| StreamRunner.StreamCases | apps/api/services/agent/stream_query_runner.py:92-130 | The exact stream of a run that registration ends and of one in which every poll is answered and finds no marker: all events, then the closing that the executor's end calls for |
| StreamRunner.StoppedCases | apps/api/services/agent/stream_query_runner.py:98-109 | The exact stream of a run whose first poll that is not clear finds the marker, fails or is cancelled: the events up to it, then result and done[interrupted], the error closing, or nothing |
| StreamRunner.CutShortIff | apps/api/services/agent/stream_query_runner.py:92-130 | A run is cut short exactly by a cancelled registration, a cancelled first poll that is not clear, or a cancelled executor after clear polls |
| StreamRunner.StreamIsWord | apps/api/services/agent/stream_query_runner.py:92-130 | A stream is a full word of the event grammar exactly if it is not cancelled first, while it registers, polls or waits for the executor; it then has exactly one done event, the last |
| StreamRunner.SeenIsPrefix | apps/api/services/agent/stream_query_runner.py:92-130 | Whatever a consumer has seen when it stops is the beginning of a word |
| StreamRunner.ReasonIff | apps/api/services/agent/stream_query_runner.py:98-130 | The done reason is interrupted exactly if after some event the poll found the live marker and every poll before was answered and found none; completed exactly if that holds of all polls and the run ended normally without error |
| StreamRunner.ErrorCompletedIff | apps/api/services/agent/query_executor.py:189-199 | A client sees an error event and then the reason completed exactly if the executor ended without error, its memory extraction failed and no poll stopped the run |
| StreamRunner.LastResultDecides | apps/api/services/agent/handlers.py:249-306 | The last result message decides error flag, cost and the turn count that later messages add to |
| StreamRunner.NoResult | apps/api/services/agent/query_executor.py:161-163 | Without a result message every message counts as a turn and the run as successful |
| StreamRunner.InterruptLatency | apps/api/services/agent/stream_query_runner.py:94-109 | A marker that is set and stays is obeyed after at most one more event, and closes the stream as interrupted unless it was over before |
| StreamRunner.InterruptObeyed | apps/api/services/agent/session_control.py:27-34 | An interrupt accepted before a poll, in a run that polls within the marker's TTL, lets one more event through and closes the stream as interrupted, unless it was over before |
| StreamRunner.StaleMarkerStops | apps/api/services/agent/session_tracker.py:48-65 | A marker that outlives its run stops the next run of the session after one event |
| StreamRunner.RunKeepsMarker | apps/api/services/agent/stream_query_runner.py:131-132 | The clean-up of a run leaves the marker as it is |
| QueryEndpoint.StreamHasOneInit | apps/api/services/agent/service.py:271-296 | The agent's stream has exactly one init event, the first |
| QueryEndpoint.StatusOfStream | apps/api/routes/query_stream.py:71-239 | After a stream that ran to its end: one failure item exactly if the creation failed, an error status exactly after such a failure or an error event, as many turns as messages, the cost of the closing result |
| QueryEndpoint.TurnsAgreeIff | apps/api/routes/query_stream.py:143-152 | For an undisturbed run the stored turns are the reported ones exactly if the user messages and the assistant messages without a question are as many as the turns the SDK messages add up to |
| QueryEndpoint.TurnsAgreeWithoutResult | apps/api/services/agent/query_executor.py:161-162 | Without a result message: exactly if every message is a user or plain assistant message |
| QueryEndpoint.TurnsAgreeAfterResult | apps/api/services/agent/handlers.py:260-262 | After a result message that reports turns: exactly if those and the messages since are as many as the user and plain assistant messages of the run |
| QueryEndpoint.StoredTurnsDiffer | apps/api/routes/query_stream.py:149-152 | A run whose result event reports five turns and whose session keeps none |
| Sse.ParseEvent | apps/api/services/assistants/run_streaming.py:363-381 | One clean event is read as its one message and the parser starts afresh after it |
| Sse.RoundTrip | apps/api/services/assistants/run_streaming.py:363-381 | Parsing the concatenated text gives back every list of clean events: types, data, order |
| Sse.RoundTripIff | apps/api/services/assistants/run_streaming.py:363-381 | A single event is read back exactly if neither its type nor its JSON text contains a line break |
| Sse.ListRoundTripIff | apps/api/services/assistants/run_streaming.py:363-381 | A list of events is read back exactly if no type and no JSON text in it contains a line break |
| Sse.ArrivedPrefix | apps/api/services/assistants/run_streaming.py:363-381 | Any part of the text that has arrived gives the first messages of the whole |
| McpStore.GoodIff | apps/api/services/mcp_redis_keys.py:10-30 | A key passes validation exactly if it has a visible character and none of the nine special ones |
| McpStore.KeysInjective | apps/api/services/mcp_redis_keys.py:32-74 | Keys of different servers differ, keys of different indexes differ, and no server key is an index key |
| McpStore.PutRefines | apps/api/services/mcp_server_configs.py:214-216 | Writing a record and its index entry is one update of the two-level table |
| McpStore.DropRefines | apps/api/services/mcp_server_configs.py:269-272 | Removing the index entry and the record is one removal from the table |
| McpStore.McpServerConfigService.CreateServer | apps/api/services/mcp_server_configs.py:179-216 | Refuses bad keys, answers nothing for an existing name, else the table gains the record; no other Redis key changes |
| McpStore.McpServerConfigService.GetServer | apps/api/services/mcp_server_configs.py:218-225 | Answers the table's record |
| McpStore.McpServerConfigService.UpdateServer | apps/api/services/mcp_server_configs.py:227-267 | Replaces an existing record and nothing else; that reads see the new record is `ReadYourWrites` |
| McpStore.McpServerConfigService.DeleteServer | apps/api/services/mcp_server_configs.py:269-272 | Removes the record and says whether it was there, although the index is changed before the name is validated |
| McpStore.McpServerConfigService.ListServers | apps/api/services/mcp_server_configs.py:69-86 | On any store: the indexed names that have a record, once each, the others taken out of the index; on a refining store exactly the table's records |
| McpStore.McpServerConfigService.Run | apps/api/services/mcp_server_configs.py:179-272 | Over every sequence of calls the table is the plain replay, and every answer follows from the calls and answers before it |
| McpStore.ReadYourWrites | apps/api/services/mcp_server_configs.py:69-272 | In terms of calls and answers alone: a get answers the record of the last answered creation or update since the last deletion, a listing has exactly these records, an update changes that record, a creation succeeds exactly if there is none |
| McpStore.HoldsIff | apps/api/services/mcp_server_configs.py:179-272 | The table before any call has exactly the records that the calls and answers so far tell of |
| McpStore.ErrorIs | apps/api/services/mcp_redis_keys.py:10-30 | A blank key is refused as empty, any other bad key by the first special character in it |
| McpStore.HeldIff | apps/api/services/mcp_server_configs.py:179-272 | Exactly the created and not deleted names of valid keys are held |
| McpStore.Isolation | apps/api/services/mcp_server_configs.py:179-272 | What an API key sees depends on its own calls alone |
| Checkpoints.KeysApart | apps/api/services/checkpoint.py:53-63 | The three kinds of keys are injective and disjoint |
| Checkpoints.DocRoundTrip | apps/api/services/checkpoint.py:291-324 | Parsing a stored checkpoint undoes writing it |
| Checkpoints.WrittenAgrees | apps/api/services/checkpoint.py:102-109 | The three writes of a creation make all three kinds of keys say what the longer history says |
| Checkpoints.TickAgrees | apps/api/services/checkpoint.py:208-289 | Expiry keeps the three kinds of keys in agreement with the history |
| Checkpoints.CheckpointService.CreateCheckpoint | apps/api/services/checkpoint.py:65-119 | A new checkpoint extends the history by itself and nothing else |
| Checkpoints.CheckpointService.GetCheckpoint | apps/api/services/checkpoint.py:121-130 | The checkpoint made under the id, while its TTL lasts |
| Checkpoints.CheckpointService.GetByUserMessage | apps/api/services/checkpoint.py:132-153 | The last checkpoint made for the message, while its TTL lasts |
| Checkpoints.CheckpointService.ListCheckpoints | apps/api/services/checkpoint.py:155-189 | The checkpoints of the live list document, sorted by creation time |
| Checkpoints.CheckpointService.ValidateCheckpoint | apps/api/services/checkpoint.py:191-206 | True exactly for a live checkpoint of that session, which is then in what the listing of the session returns |
| Checkpoints.KeptIff | apps/api/services/checkpoint.py:248-277 | A checkpoint is in its session's list exactly if the list never ran out since it was made |
| Checkpoints.ValidIsListed | apps/api/services/checkpoint.py:155-206 | A checkpoint that validates is always listed |
| Checkpoints.ValidIsShown | apps/api/services/checkpoint.py:155-206 | A validated checkpoint is in the result of the listing |
| Checkpoints.ShownIff | apps/api/services/checkpoint.py:155-189 | A checkpoint is shown exactly if the list never ran out since and the session's last checkpoint is live |
| Checkpoints.AllShownValidIff | apps/api/services/checkpoint.py:155-206 | Everything the list of a session shows still validates exactly if the first checkpoint it shows does |
| Checkpoints.ListedButExpired | apps/api/services/checkpoint.py:248-277 | A history in which a checkpoint is listed and does not validate |
| Checkpoints.LatestForMessage | apps/api/services/checkpoint.py:279-289 | Lookup by message finds the last checkpoint made for it |
| Checkpoints.CreationOrder | apps/api/services/checkpoint.py:186-189 | With a clock that does not run backwards the list is in creation order |
| Sorting.SortMeets | apps/api/services/session.py:417-418 | The sort is sorted and keeps elements of equal key in order |
| Sorting.SortedUnique | apps/api/services/session.py:417-418 | Being sorted with equal keys in order determines the list |
| Sorting.FilterSort | apps/api/services/session.py:417-425 | Filtering the sorted list is sorting the filtered one |
| Pagination.PagesPartition | apps/api/services/session.py:427-437 | The pages together are the selection in order; pages before the last are full, the last is not empty, later ones are |
| Pagination.SelectionUnique | apps/api/services/session.py:417-425 | The selection is the one stably sorted list of the matching sessions |
| Pagination.SelectionIff | apps/api/services/session.py:417-425 | The selection is the one list whose creation times never increase and that has, for each time, the matching sessions of that time as they came |
| Pagination.MatchesIff | apps/api/services/session.py:741-775 | A session matches exactly if mode and project are the given texts, all given tags are in its list of texts, and its title contains the search text |
| Pagination.SelectedIff | apps/api/services/session.py:741-775 | A session is selected exactly if it is cached and passes every filter |
| Shutdown.EventAlwaysExact | apps/api/services/shutdown.py:45-99 | In every reachable state the event is set exactly if shutdown has begun and no session is active |
| Shutdown.ActiveIff | apps/api/services/shutdown.py:45-84 | Exactly the sessions registered before shutdown and not ended since are active |
| Shutdown.OnlyFewer | apps/api/services/shutdown.py:45-99 | After shutdown has begun sessions only end, and a set event stays set |
| Shutdown.DrainedForeverIff | apps/api/services/shutdown.py:101-131 | Nothing active is final exactly if shutdown has begun |
| Shutdown.ShutdownManager.RegisterSession | apps/api/services/shutdown.py:45-67 | Refused exactly during shutdown |
| Shutdown.ShutdownManager.UnregisterSession | apps/api/services/shutdown.py:69-84 | The session ends, and the last one during shutdown sets the event |
| Shutdown.ShutdownManager.InitiateShutdown | apps/api/services/shutdown.py:86-99 | Shutdown begins, with the event at once if nothing is active |
| Shutdown.ShutdownManager.WaitForSessions | apps/api/services/shutdown.py:101-131 | True exactly if nothing was active at the start or the event is set before the timeout; then nothing is active |
| Usage.TotalIs | apps/api/services/agent/single_query_aggregator.py:68-81 | The whole outcome is decided by the first event that reports usage and the sums over all: what it keeps that is no integer stays, integers are added on top |
| Usage.RaisesIff | apps/api/services/agent/single_query_aggregator.py:74-81 | A run raises exactly if an event reports an integer under a key where the first usage had a null or a text |
| Usage.ConservedIff | apps/api/services/agent/single_query_aggregator.py:40-81 | The aggregated usage has for every key the sum of all reported integers, and no other key, exactly if the first usage of the run has integers only |
| Usage.UsageIff | apps/api/services/agent/single_query_aggregator.py:51-62 | The usages that count are those of assistant messages and results |
| Usage.SumByKind | apps/api/services/agent/single_query_aggregator.py:51-62 | What is summed under a key is the integers of the assistant messages plus those of the results |
| Usage.AddsUpIff | apps/api/services/agent/single_query_aggregator.py:40-81 | The total has under every key the sum over assistant messages plus the sum over results, and no other key, exactly if the first usage given has integers only |
| Usage.AssistantCounts | apps/api/services/agent/single_query_aggregator.py:51-55 | A concrete assistant message whose tokens are in the total, and the same user message whose tokens are not |
| Usage.NullThenNumber | apps/api/services/agent/single_query_aggregator.py:74-81 | A concrete run that raises: a null in the first usage, a number for the same key later |
| Usage.SumOfPermuted | apps/api/services/agent/single_query_aggregator.py:40-81 | The sums do not depend on the order of the events |
| Usage.NumberThenNull | apps/api/services/agent/single_query_aggregator.py:74-81 | The same two events the other way round do not raise, so the order matters |
| Usage.OrderIndependentIff | apps/api/services/agent/single_query_aggregator.py:40-81 | The outcome is the same in every order of the events exactly if every counting event put first makes the run raise, or none does and all keep the same values |
| Usage.CleanRuns | apps/api/schemas/responses.py:12-18 | If every usage has integers only, no run raises, all sums are right and the order does not matter |
| Usage.OrderIndependent | apps/api/services/agent/single_query_aggregator.py:40-81 | Two orders that both begin with a usage of integers only have the same totals |
| Usage.SingleQueryAggregator.AccumulateUsage | apps/api/services/agent/single_query_aggregator.py:68-81 | Key by key, in any order of the keys, numbers are added; raises exactly on a clash |
| Usage.SingleQueryAggregator.HandleEvent | apps/api/services/agent/single_query_aggregator.py:40-66 | Case by case: an assistant message adds its content and its own usage, a result its usage, an error sets the flag, any other event changes nothing |
| Usage.AddedToIs | apps/api/services/agent/single_query_aggregator.py:68-81 | Key by key: a first usage is taken as it is; later integers are added, other values are passed over, a clash raises |
| Usage.ContentIs | apps/api/services/agent/single_query_aggregator.py:53-54 | The blocks of every assistant message stand between those of the events before and after it, and no other event adds any |
| Usage.SingleQueryAggregator.HandleAll | apps/api/services/agent/single_query_aggregator.py:40-81 | Over a whole stream: all content in order, the total usage, and the error flag exactly if an error event occurred |
| Usage.SumOverWithout | apps/api/services/agent/stream_orchestrator.py:118-139 | The sum over models does not depend on their order |
| Usage.SumModels | apps/api/services/agent/stream_orchestrator.py:107-131 | Each model has the counts of its four named fields, and the totals are field by field the sums over the models listed |
| Usage.BuildResultUsage | apps/api/services/agent/stream_orchestrator.py:93-140 | The total has the four named counts of the SDK's own usage, or without one the sums over the models |

## Left out

- LockedUpdates.NoLostUpdates: all clients spell the session id the same way; other spellings are in SpelledUpdates, for turns only.
- SpelledUpdates.SpellingsIff: cached copies under another spelling, which a creation can leave, are not modelled.
- LockedUpdates.NoLostTurns: promotion, tagging and deletion take no lock and are not steps of the concurrent model.
- LockManager.SessionLockManager.WithSessionLock: the manager without a cache, which runs the operation directly, is left out.
- SessionService.Run: what happens after a call that broke transparency is left out; the lock around `update_session` is in LockedUpdates and LockManager, not here.
- SessionService.SessionService.GetSession: failures of the database and of Redis, with their 503 and 500 answers, are left out.
- SessionService.SessionService.CreateSession: failures of the database and of Redis are left out.
- SessionService.SessionService.UpdateSession: failures in the middle of a call other than a cost that does not fit are left out, and no time passes inside one call.
- SessionRepo.SessionRepository.Update: the text lengths of the columns are not modelled.
- Pipeline.CompleteDelivery: exceptions of the disconnect check and of the final status update are not steps.
- StreamRunner.StreamQueryRunner.Run: the durations and the bodies of the events are not modelled; the agent's messages are an arbitrary finite sequence.
- StreamRunner.AgentService.QueryStream: the inner generator is taken to be finalised with the outer one; when a consumer abandons the stream the event loop may do that, and with it the unregistration, somewhat later.
- QueryEndpoint.StatusOfStream: streams that are cut short by a cancellation are left out.
- StreamRunner.QueryExecutor.Next: file tracking, memory injection and multimodal input change no event kind and are left out.
- Sse.RoundTrip: the JSON text is a parameter; that `json.dumps` prints no line break is assumed, and `[DONE]` is read as a message of the default type.
- McpStore.McpServerConfigService.CreateServer: the record is one opaque document; the defaults that `_map_record` fills in are not modelled.
- Checkpoints.CheckpointService.CreateCheckpoint: the service without a cache is left out, and ids are fresh, as random UUIDs are.
- Usage.ConservedIff: booleans in usage dicts count as the integers 0 and 1, and the rounding of floating-point sums is not modelled.
- Usage.SingleQueryAggregator.HandleEvent: event data that is JSON but no object, and usage that is no dict, are not modelled.
- Usage.BuildResultUsage: all counts of a model are integers, as the event schema demands.
- HTTP routes, middleware, request schemas, SQL text, migrations, logging, webhooks, mem0 and the Claude SDK itself.
- The session service without a database, listing through the database, and the scan over all cached sessions.
- The legacy MCP operations without an API key, whose keys can overlap scoped ones.
- `merge_configs` and reading the configuration file, which would add only easy members.
- The other cached resources (agents, skills, slash commands, presets, projects) and the assistant, run and thread services.
