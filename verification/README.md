# Relay server: a verified model of the durable Run Server and the token service

This project models the parts of the relay server in which state is shared between requests, and
proves what holds over whole histories of them:

- the run event log, which every Agent event enters twice (a Redis stream first, PostgreSQL second);
- the bootstrap import, which translates Codex threads into rows and reconciles what is gone;
- the command outbox with its leases and retries, and idempotent run creation;
- the readers: paged polling, the merged event stream, and the subscribe-then-wait protocol;
- the token service: one-time grants, rotating refresh secrets, revocation;
- the request/response gateways to the Agent and the connection registry.

`dafny verify dfyconfig.toml` checks the whole project.

## How the model is built

Each SQL transaction is one atomic step: a function from a database value to the database it commits,
or the error it rolls back with (`RuntimeStore`, `Bootstrap`, `AuthStore`). Handlers are split at their
store calls, so in `RelaySystem` any other step can fall between the Redis append, the PostgreSQL append
and the command mark of one message, and between the two phases of CreateRun. A trace is an arbitrary
list of such steps with arbitrary arguments; the Agent is an arbitrary sender. What a theorem assumes
about the trace is a named predicate in its `requires` (`NeverRewritten`, `Healthy`, `Disciplined`, `Settled`,
`AllFresh`, `FromManifest`, `OneSnapshot`), and is listed in its row below.

The program's objects are classes (`PostgresStore.Store`, `RedisBroker.Broker`, `Coordinator.Coordinator`,
`AuthStore.PostgresStore`, `GatewayStore.RequestGateway`, `Registry.Store`) whose methods follow the
source statement by statement, loops included, and are proved to do what those functions say.
Transactions work on a copy of the tables and assign it back on commit.

What each operation stores is also said on the rows themselves, without the functions that compute them:
messages by kind (`MessageEffects`), turns and batches (`TurnContents`, `BatchContents`), requests
(`RequestRows`) and rounds of dispatch (`DispatchRounds`). Over whole traces every stored event and every run
is traced back to the message, batch or request it came from (`EventOrigins`, `RequestTraces`), and every
answer of the token service to the history before it (`AuthHistory`, `AuthExact`).

Instants are nanoseconds; PostgreSQL keeps microseconds, so stored instants are truncated (`Micro`) where
the code compares them. New identifiers and the clock are parameters. A clash of identifiers is a
constraint error, as in PostgreSQL. JSON documents are values with equality and the fields that the
server decodes.

Six promises turned out to need a condition. The exact condition is proved, in both directions, over all
traces or all inputs:

- The row of a run is the replay of its log in every state of a trace if and only if no step commits an
  event behind a persisted one whose status it overwrites (`RunReplay.ReplayExact`).
  `Histories.OverlapBreaksFold` is a history in which two overlapping handlers do that, no call failing.
- Importing the same threads a second time changes nothing if and only if no two turns collided on one row
  before the first import (`Convergence.ImportConverges`); a third import never changes anything
  (`Convergence.ImportSettles`). `Histories.ReimportStillChanges` is a history with a collision.
- A waiting run keeps a start command that can be claimed if and only if no step marks the start command of
  a still waiting run delivered (`Outbox.NeverLostExact`); an Agent that echoes its own commands never does
  (`Outbox.EchoedRunNeverLost`). `Histories.AcceptStrandsOther` is a history in which another run's accept does.
- A polling client holds every event up to its cursor exactly once if and only if no event is committed
  behind its cursor and no import rewrites the events up to it to others (`Polling.RunPollExactlyOnce`);
  in-order appends never do. `Histories.PollMissesEvent` is a history in which a client misses an event.
- A waiter can be left asleep for good if and only if a version is set that the waiter has just read and
  not yet subscribed under (`WaitProtocol.LostExact`); fresh versions never are
  (`WaitProtocol.FreshNeverLoses`). `WaitProtocol.RepeatedVersionLosesWakeup` is such a trace.
- A long poll can sleep on a committed and announced event until its deadline if and only if the announcement
  slips past it after its page and before its subscription (`PollWait.SleepsExact`). Fresh versions close all
  of that window but the part between the page and the first read of the version
  (`PollWait.FreshSleepsExact`), and `PollWait.AnnouncedBetweenSleeps` is a trace that falls into it.

## Model

| member | source | states |
|---|---|---|
| RunReplay.ReplayExact | internal/runtime/coordinator.go:122-152 | over every trace, failed store calls, overlapping handlers of one run, claims, releases, cancels and bootstrap included: in all its states the run's status and final_sequence are the fold of its events in sequence order, if and only if no step commits an event of the run out of place |
| RunReplay.StepFoldExact | internal/runtime/postgres.go:393-461 | the same for one step of any kind: it keeps the row the replay of its log if and only if it does not commit an event out of place |
| RunReplay.LogIsReference | internal/runtime/coordinator.go:122-152 | over every trace that does not bootstrap the run, every persisted event passed its stream; if none of its events fails, however its handlers overlap, the stream is the reference log of record-high sequences, and whenever no message is under way the events are that log and persisted_through_sequence its last number |
| RunLog.RunLogIsFold | internal/runtime/coordinator.go:122-152 | if the run is not bootstrapped, none of its events fails and its messages are taken one after another, the row is in order in every state: events, status, persisted_through_sequence and final_sequence are the fold of the reference log but for an entry in flight, whatever is duplicated, reordered, dropped or resent with other contents and whatever the rest of the server does between the store calls |
| RunLog.LateAppendExact | internal/runtime/postgres.go:393-438 | an append leaves the row a fold if and only if the event bears no status, or no persisted event above it does, or it repeats the current non-terminal status |
| Histories.OverlapBreaksFold | internal/runtime/coordinator.go:122-152 | a history from the first step on: run.accepted and turn.started pass Redis in order, their handlers reach PostgreSQL in the other order, and the run is left accepted while its log says running, no call having failed |
| RunLog.FreshRunInOrder | internal/runtime/postgres.go:239-242 | a run just created starts in order if and only if at most one message came before it and is still on its way; with an empty stream it does |
| RunLog.GateExact | internal/runtime/redis.go:55-75 | whatever is offered to the gate, in whatever order and however often, the stream is ascending and holds exactly the offers numbered above all offers before them |
| RunLog.GateAnswers | internal/runtime/redis.go:55-75 | after any such history a further offer is appended exactly if it is numbered above all before it, let through unchanged if it repeats such an offer, and refused otherwise |
| RedisBroker.Broker.AppendRunEvent | internal/runtime/redis.go:55-75 | XADD with the equality check on an existing identifier is the gate; streams stay strictly ascending |
| Manifest.ManifestAppliedOnce | internal/runtime/postgres.go:623-644 | a job fed from a numbered manifest, in any trace of the whole server with duplicated, reordered, dropped or rolled back deliveries: the state equals that of the trace whose deliveries for the job are batches 0..last_committed_batch_no once each in order |
| Manifest.BatchAcksSound | internal/runtime/coordinator.go:104-121 | in every state of such a trace, every acknowledged batch number is at most last_committed_batch_no and carries the manifest's checksum |
| TurnImport.ImportEqualsFeeding | internal/runtime/postgres.go:719-752 | for every finished turn with any number of items, one-shot import and feeding its events one at a time to a run without events give the same events, status, persisted_through_sequence and final_sequence, and each logs one session event of the same kind and status |
| TurnImport.FeedTurn | internal/runtime/postgres.go:393-461 | the whole store after feeding a finished turn event by event |
| RunTable.ReimportExact | internal/runtime/postgres.go:674-740 | with distinct turn identifiers, a second import pass changes the run table if and only if two turns collided in the table before the first |
| RunTable.ReimportSettles | internal/runtime/postgres.go:674-740 | whatever collided, a third pass changes nothing: import reaches its fixed point in at most two passes |
| Convergence.ImportConverges | internal/runtime/postgres.go:667-754 | re-importing the same threads under any batch numbers, snapshot and job changes no run and no run event if and only if no turns collided before the first import, and then no session log, sequence or thread changes either |
| Convergence.ImportSettles | internal/runtime/postgres.go:667-754 | collisions or not, a third import of the same threads changes no run, no run event and no session log |
| Convergence.CollisionExample | internal/runtime/postgres.go:683-690 | for any two turns, a row named after one that holds the other: the first import leaves one row, the second adds the missing one, the third changes nothing |
| Histories.ReimportStillChanges | internal/runtime/postgres.go:683-690 | a history from the first step on: turn b is imported, a live turn.started on its run names turn a, and of three imports of both turns the second still changes the runs and the third does not |
| Convergence.ImportHistory | internal/runtime/postgres.go:667-754 | a whole import is its finished turns written in order; every session's sequence advances by exactly the number of runs changed on its behalf; logs only grow |
| Convergence.ImportItemCount | internal/runtime/postgres.go:667-672 | item_count advances by exactly the number of finished turns, changed or not |
| Convergence.FirstImportChangesAll | internal/runtime/postgres.go:667-712 | a first import of turns that still need importing changes all of them |
| Archive.NamedNeverArchived | internal/runtime/postgres.go:645-666 | over any trace whose batches carry one snapshot, final and safe ones included, no project and no stored session named by a committed batch is archived at the end, nor at any point after that batch |
| Archive.CommitArchives | internal/runtime/postgres.go:755-790 | a committed batch archives exactly the stale idle rows, never a session without thread or with a run in flight, never a project with one; the counters grow by exactly the rows newly archived; a batch that is not final, safe and with a snapshot archives nothing |
| SystemInvariant.ReachableStore | internal/runtime/postgres.go:393-461 | in every reachable state, bootstrap and failed store calls included: persisted_through_sequence is the largest persisted sequence, a set final_sequence names a terminal event, a terminal status implies it is set, queued or dispatching exactly when no status-bearing event is persisted, session logs are numbered 1..last_session_sequence; rows are never deleted and session logs only grow at the end |
| StoreInvariant.AppendAgentEventKeeps | internal/runtime/postgres.go:393-461 | appending an event keeps the store invariant and extends the store |
| StoreInvariant.ApplyBatchKeeps | internal/runtime/postgres.go:623-802 | applying any bootstrap batch keeps the store invariant and extends the store |
| StoreInvariant.CreateRunKeeps | internal/runtime/postgres.go:215-263 | creating a run keeps the store invariant, its unique indexes and foreign keys |
| StoreInvariant.ClaimCommandsKeeps | internal/runtime/postgres.go:348-383 | claiming keeps the store invariant: a dispatching run still has no status-bearing event |
| StoreInvariant.RequestCancelKeeps | internal/runtime/postgres.go:314-346 | requesting a cancel keeps the store invariant and at most one command per kind and run |
| StoreInvariant.CreateSessionKeeps | internal/runtime/postgres.go:107-136 | creating a session keeps the store invariant |
| StoreInvariant.CreateSyncJobKeeps | internal/runtime/postgres.go:570-612 | creating a sync job keeps the store invariant |
| Outbox.NeverLostExact | internal/runtime/postgres.go:348-391 | in every state of a trace each queued or dispatching run has an undelivered run.start command, if and only if no step (an accept, or an applied final batch, naming it) marks the start command of a still waiting run delivered |
| Outbox.EchoNeverStrands | internal/runtime/coordinator.go:136-151 | an accept that echoes the command of its own run never does that, because its run has left the queue; a batch that names no run.start command neither |
| Histories.AcceptStrandsOther | internal/runtime/coordinator.go:136-151 | a history from the first step on: the accept of a second run names the first run's command, which is marked, and the first run stays queued with no start command undelivered |
| Outbox.EchoedRunNeverLost | internal/runtime/coordinator.go:136-151 | over traces whose accepts name the command of their own run and whose final batches name no start command, and whose clock never falls, a queued or dispatching run has a start command that every claim from a finite instant on sees as eligible |
| Outbox.RunNeverLost | internal/runtime/postgres.go:348-391 | over traces in which no step does that and the clock never falls, a queued or dispatching run has a start command that every claim from a finite instant on sees as eligible |
| Outbox.RetriesBounded | internal/runtime/postgres.go:348-391 | over every trace whose clock never falls, a command claimed n times was claimed over at least n-1 seconds |
| CreateRunOnce.CreateRunIdempotent | internal/runtime/postgres.go:194-232 | under any interleaving of two-phase calls with no keyed run re-homed: all successful callers of a session and key got the same run and sent the same request, and every later caller gets it or a conflict |
| CreateRunOnce.CreatedExactlyOnce | internal/runtime/postgres.go:233-259 | every created run has exactly one run.start command and exactly one run.created event, in its own session |
| Acknowledgements.DurableAckSound | internal/router/router.go:74-116 | every durable_ack is preceded by a received_ack of the same delivery and backed by a committed event row or a forward to the App, never both; the cache of run identifiers names only stored runs |
| Pages.ListEventsPage | internal/runtime/postgres.go:499-524 | a page holds at most limit rows, the next ones after the cursor with none skipped, and has_more exactly when the log goes on; a limit below one is refused |
| Pages.PageExact | internal/runtime/postgres.go:543-568 | the same page, as a function, meets that description for every table and cursor |
| Polling.RunPollExactlyOnce | internal/runtime/http.go:398-448 | a client polling a run with next_cursor, over every trace of the server and with answers lost at will: in all states it holds every event between its first and present cursor exactly once in ascending order and with the stored contents, if and only if no event is ever committed behind its cursor and no bootstrap rewrite changes an event between the two cursors |
| Histories.PollMissesEvent | internal/runtime/coordinator.go:122-152 | a history from the first step on: a client polls between two overlapping handlers of its run, its cursor passes event 2, event 1 is committed behind it, and the client, past it, does not hold it |
| Polling.RunPollAnswers | internal/runtime/http.go:398-448 | over every trace of the server: no page exceeds its limit, and an answer with terminal and without has_more puts the client at or past final_sequence |
| Polling.NewClientPolls | protocol/runtime-polling.md:20-25 | a new client, wherever its cursor, while the run's events are appended in order: every event once, ascending, and every answer sound |
| Polling.SessionPollConsecutive | internal/runtime/http.go:351-396 | in any trace of the server, a client polling a session from cursor c receives c+1, c+2, ... with none skipped or repeated and with the logged contents |
| Polling.RespondOk | internal/runtime/http.go:406-440 | the answer to one read of status and page, in this order, keeps the limit and the final_sequence promise |
| Polling.RespondExact | internal/runtime/http.go:406-440 | a poll waits on if and only if nothing lies beyond the cursor, the run goes on and there is time left; otherwise its answer has the page, the cursor after it, terminal exactly for a run that is over, and timed_out exactly for a wait that ended with nothing |
| Polling.StatusAfterPageMisses | internal/runtime/http.go:407-424 | reading the page before the status would break that promise |
| EventStream.RunEventsTick | internal/runtime/http.go:309-340 | one tick emits the longest contiguous prefix of the union of both stores after the cursor, the persisted copy preferred, and moves the cursor to the last emitted number; the open-ended scan ends |
| EventStream.Stream | internal/runtime/http.go:505-542 | whatever the stores hold at each tick, the identifiers emitted over a connection are cursor+1, cursor+2, ... with no gap or repeat, each event as the stores showed it |
| EventStream.TickUnique | internal/runtime/http.go:326-337 | that prefix is unique |
| EventStream.ReadRunEvents | internal/runtime/redis.go:77-98 | reading a stream from a cursor gives exactly the entries above it; a negative cursor is refused |
| WaitProtocol.NoLostWakeup | internal/runtime/redis.go:116-146 | in every interleaving of waiters and notifiers with fresh versions, a waiter for which a version was set after its first read has woken, or wakes by its own next steps, unless that notification is still to be published to it |
| WaitProtocol.PublishedIsObserved | internal/runtime/redis.go:140-146 | once published, such a notification leaves no waiter asleep |
| WaitProtocol.LostExact | internal/runtime/redis.go:116-146 | along a trace some waiter can end up blocked for good on what it missed, if and only if somewhere in it a version is set that a waiter has just read and not yet subscribed under |
| WaitProtocol.FreshNeverLoses | internal/runtime/redis.go:140-146 | as long as every notification sets a version of its own, no waiter is lost at any point of any trace |
| WaitProtocol.RepeatedVersionLosesWakeup | internal/runtime/redis.go:116-131 | such a trace: a version that returns between two steps of a waiter |
| PollWait.SleepsExact | internal/runtime/http.go:398-448 | page read, first version, subscription, second version and block as separate steps of a poll, commit, version and publication as separate steps of a writer: along a trace a poll can end up blocked although an event beyond its cursor was committed and announced and no announcement is on its way, if and only if somewhere in it an announcement is made that a poll with something to see has read its page too early and its version too late to notice |
| PollWait.FreshSleepsExact | internal/runtime/redis.go:116-146 | with versions of their own, if and only if an event beyond a poll's cursor is announced between its page and its first read of the version |
| PollWait.AnnouncedBetweenSleeps | internal/runtime/http.go:407-448 | such a trace: event 5 is committed and announced right after a poll from 4 read its page |
| PollWait.DeadlineAnswers | internal/runtime/http.go:478-486 | a sleeping poll is late and not wrong: at its deadline its last page holds the event |
| AuthTraces.RefreshSecretsOnce | internal/auth/postgres.go:150-216 | over every trace with fresh secrets, each refresh secret is redeemed at most once and no current secret is in the history |
| AuthTraces.ReplayRevokes | internal/auth/postgres.go:183-200 | after any trace, presenting again a secret that some refresh of the trace redeemed, to its session while live, revokes the session and all its access tokens and touches no other session |
| AuthTraces.RedeemedRevokes | internal/auth/postgres.go:183-200 | the same for any store: nothing but the session and its tokens changes |
| AuthTraces.RevocationPermanent | internal/auth/postgres.go:117-148 | after a revocation the session stays revoked and no later refresh or authentication for it succeeds |
| AuthTraces.RevokedForGood | internal/auth/postgres.go:117-284 | over every trace: after a sign-out that succeeded, a client that was dropped or a replayed secret, no later refresh or authentication of the session succeeds |
| AuthTraces.AuthenticationTraces | internal/auth/service.go:70-137 | every successful authentication traces to exactly one consumed grant, carries exactly its normalised scopes, and happens before session creation + RefreshTTL + AccessTTL however often it was rotated; no grant is consumed twice |
| AuthTraces.ReachableAuth | internal/auth/postgres.go:67-284 | the invariant behind these over every trace: grants and clients correspond one to one, tokens belong to their session's client and end in time, a revoked client has no live session, a revoked session no live token |
| AuthTraces.Configured | internal/auth/service.go:25-36 | every lifetime the service works with is positive, a positive configuration is kept, and an empty one means 15 minutes, 30 days and 10 minutes |
| AuthTokens.NormalizeExact | internal/auth/service.go:165-183 | accepted scopes are duplicate-free, allowed and exactly the requested ones, refused exactly when one is not allowed, and an empty request means all three |
| AuthTokens.NormalizeScopesLoop | internal/auth/service.go:165-183 | the loop with its seen set gives the scopes in order of first mention |
| AuthTokens.TrimExact | internal/auth/service.go:38-39 | trimming strips blanks from both ends, all of them, and nothing else |
| AuthTokens.ParseExact | internal/auth/service.go:222-229 | a token parses exactly when, trimmed, it is a prefixed identifier, one dot and a secret of at least 32 bytes |
| AuthTokens.TokenRoundTrip | internal/auth/service.go:193-207 | a minted token parses back to its identifier and secret |
| AuthExact.HistoryDecides | internal/auth/service.go:70-158 | after any trace with fresh secrets every request is answered as the history of what was handed out, redeemed and revoked gives, without a look at the tables |
| AuthExact.AuthenticatesExact | internal/auth/postgres.go:117-148 | an authentication succeeds if and only if the bearer is a token and the secret handed out with it by one pairing or refresh, its session was not signed out, replayed or dropped with its client, and the token's own time is not over; the principal is that session's client with the name and normalised scopes its link asked for |
| AuthExact.OnlyMintedAuthenticate | internal/auth/service.go:107-113 | over every trace, only an identifier and a secret that one pairing or refresh request of the trace was given together authenticate |
| AuthExact.PairExact | internal/auth/postgres.go:67-115 | a pairing succeeds if and only if its code is that of a link not used up and not expired and its identifiers are new |
| AuthExact.RefreshExact | internal/auth/postgres.go:150-216 | a refresh succeeds if and only if it shows the secret handed out last for a session that is still open; a secret redeemed before ends the session instead |
| AuthExact.SignOutExact | internal/auth/postgres.go:218-237 | a sign-out succeeds if and only if it shows the secret handed out last for the session |
| AuthExact.LinkExact | internal/auth/service.go:38-68 | a link is created if and only if it has a name of at most 120 bytes, allowed scopes, and an identifier and code of its own |
| AuthHistory.StepBacked | internal/auth/postgres.go:60-284 | every request keeps each table in agreement with the history: grants with links and pairings, sessions with the last secret, tokens with what minted them, revocations with what ended them |
| AuthStore.PostgresStore.CreatePairingGrant | internal/auth/postgres.go:60-65 | inserts the grant or refuses a taken identifier or code |
| AuthStore.PostgresStore.ExchangePairingGrant | internal/auth/postgres.go:67-115 | the whole new tables of a consumed grant, or the refusal that leaves them unchanged |
| AuthStore.PostgresStore.AuthenticateAccess | internal/auth/postgres.go:117-148 | the principal or the refusal, in the order of the checks; it succeeds if and only if the token is known with that very secret, neither it nor its session nor its client is revoked, and it has not expired |
| AuthStore.PostgresStore.RotateRefresh | internal/auth/postgres.go:150-216 | rotation, refusal, or replay, which is refused and yet committed |
| AuthStore.PostgresStore.RevokeSession | internal/auth/postgres.go:218-237 | only the current secret signs a session out |
| AuthStore.PostgresStore.RevokeSessionTx | internal/auth/postgres.go:239-245 | session and tokens revoked, earlier revocation times kept, a session without a row left alone |
| AuthStore.PostgresStore.RevokeClientRows | internal/auth/postgres.go:264-284 | client, sessions and tokens revoked together |
| AuthStore.RevokeSessionExact | internal/auth/postgres.go:239-245 | the session and its tokens end at the first time and for the first reason given, and nothing else changes |
| AuthStore.RevokeClientExact | internal/auth/postgres.go:264-284 | so do a client, all its sessions and all its tokens |
| AuthStore.TouchExact | internal/auth/postgres.go:140-147 | after a successful authentication the client's note is at most a minute old, a younger one is kept, and nothing else changes |
| Gateway.GatewaySafe | internal/runtime/source.go:45-122 | in every interleaving of request, handler and FailPending steps: at most 16 pending entries, which are exactly the registered unfinished requests; at most one delivery per waiter; a request that got an answer got a reply handled under its own trace or the error of a FailPending call; any other result is its own refusal, failed send or cancellation |
| Gateway.BeginExact | internal/runtime/source.go:45-66 | a new request is refused without an Agent, refused at 16 pending entries and registered otherwise |
| Gateway.ReplyArrives | internal/runtime/source.go:45-107 | a reply under the trace of a waiting request is what it gets, and its entry is freed |
| Gateway.FailureArrives | internal/runtime/source.go:109-122 | a FailPending call gives every waiting request its error |
| Gateway.ReplyTouchesOnlyItsTrace | internal/runtime/source.go:96-105 | a reply, however late, touches no request but the one whose trace it names |
| Gateway.LateReplyInvisible | internal/runtime/source.go:96-105 | a reply that comes when no request waits for it any more, all its handler's steps included, is invisible: every request, result and pending entry of the trace is that of the trace without it |
| Gateway.ProfileRepliesMatched | internal/runtime/execution_profiles.go:75-95 | a profile reply is taken if and only if an unfinished request waits under its trace, and is otherwise left to the router |
| GatewayStore.RequestGateway.Register | internal/runtime/source.go:50-58 | refused exactly when 16 are pending; otherwise a fresh empty waiter under the trace |
| GatewayStore.RequestGateway.Handle | internal/runtime/source.go:77-107 | leaves messages of other types alone; a reply fills its own waiter if empty and no other |
| GatewayStore.RequestGateway.FailPending | internal/runtime/source.go:109-122 | every waiter that holds nothing gets the error |
| Registry.LatestWins | internal/hub/registry.go:41-83 | for every history of connections a role's peer is exactly its latest one that has not left, so a replaced connection's disconnect never evicts its successor |
| Registry.NotesExact | internal/hub/registry.go:41-109 | for every history the note remembered of a kind is exactly the latest one of that kind since the Agent slot last changed |
| Registry.Store.Replace | internal/hub/registry.go:41-59 | takes the slot, returns the replaced peer, forgets the Agent's cached state |
| Registry.Store.Remove | internal/hub/registry.go:61-83 | empties the slot only for the peer that holds it |
| Registry.Store.RememberAgentState | internal/hub/registry.go:97-109 | keeps a hello, status or capabilities note and no other |
| Registry.Store.AgentState | internal/hub/registry.go:124-138 | exactly the remembered notes, each once, hello before status before capabilities |
| Registry.ReplayExact | internal/hub/registry.go:124-138 | what an App is sent on connecting is, after any history, exactly the latest note of each kind since the Agent slot last changed |
| PostgresStore.BootstrapBatch | internal/runtime/coordinator.go:283-337 | the batch carries the message's own fields and project, one session with the thread's project and title, and exactly the finished turns in order, one run each |
| PostgresStore.TurnRun | internal/runtime/coordinator.go:301-335 | event i is item.completed with item i at the turn's start, else the thread's creation; then the closing event of the turn's kind with its thread, turn, status and error at its end; the prompt is the text of the first user item that has any, and empty if none has |
| TurnContents.TurnTranslates | internal/runtime/coordinator.go:301-335 | the same for the function the theorems speak of |
| TurnContents.ImportStoresTurn | internal/runtime/postgres.go:668-754 | importing a finished turn, whatever row was there: the row of its name, else the one that holds the turn, now has its status, prompt, times and exactly its events, keeps its key and profile, and no other row changes |
| BatchContents.BatchLands | internal/runtime/postgres.go:623-802 | a batch that is taken leaves its project under its name, its thread's session with its project and title, every finished turn as the contents of its row unless a later turn of the thread was stored under the same one, the job's batch number, checksum, counters and status, and its own command delivered if it was final |
| PostgresStore.ImportedEventsMatch | internal/runtime/postgres.go:824-854 | the row-by-row comparison is equality of the whole log |
| PostgresStore.ImportSessionRow | internal/runtime/postgres.go:651-666 | insert, resolve the stored session, update it |
| PostgresStore.ImportRunRow | internal/runtime/postgres.go:668-754 | find the target, compare, and rewrite or insert |
| PostgresStore.ImportRunRows | internal/runtime/postgres.go:667-754 | the loop over the runs of a batch with its count |
| PostgresStore.ReconcileRows | internal/runtime/postgres.go:759-790 | the two archiving updates and their affected rows |
| PostgresStore.Store.ApplyBootstrapBatch | internal/runtime/postgres.go:623-802 | the whole transaction: repeat, out of order, or committed; an error leaves every table unchanged |
| PostgresStore.Store.CreateRun | internal/runtime/postgres.go:194-263 | lookup outside, then the locked transaction; a successful call answers with the run its key already has, or leaves a new queued run with the caller's session, prompt, profile, key and hash and no events, a start command due at once, and one run.created line |
| RequestRows.CreateRunStores | internal/runtime/postgres.go:215-263 | every outcome of the transaction, field by field, and which refusal means what |
| RequestTraces.RequestKept | internal/runtime/postgres.go:719-740 | over every trace a run keeps its profile, key and hash, and, unless a batch rewrites it, its prompt and session |
| RequestTraces.RunsWereAsked | internal/runtime/postgres.go:236-242 | over every trace a run with a key was asked for by a CreateRun with that identifier, key, hash and profile, and has its prompt and session or a prompt that a batch brought; a run without a key has no profile and a batch's prompt |
| PostgresStore.Store.RequestCancelOf | internal/runtime/postgres.go:314-346 | the first cancel of a run that is not over marks it at that time, changes nothing else of it, and leaves a run.cancel command for it, a fresh one due at once if there was none |
| RequestRows.CancelStores | internal/runtime/postgres.go:314-346 | every outcome of the transaction |
| RequestTraces.CancelsHaveCommands | internal/runtime/postgres.go:314-346 | over every trace a run whose cancel was requested has a run.cancel command |
| RequestRows.SessionStores | internal/runtime/postgres.go:107-136 | every outcome of creating a session, field by field |
| RequestRows.JobStores | internal/runtime/postgres.go:570-612 | every outcome of creating a sync job: the one with the key, the one that is not finished, or a new one with its command |
| RequestTraces.OneActiveJob | internal/runtime/postgres.go:570-644 | over every trace at most one sync job is queued or running |
| RequestRows.ProjectsStore | internal/runtime/postgres.go:69-88 | announced projects are there under the last name given, no longer archived, and the others are as before |
| PostgresStore.Store.ClaimCommandRows | internal/runtime/postgres.go:348-383 | claims distinct eligible commands up to the limit, oldest first and none older passed over, all of them if fewer, and dispatches their runs |
| PostgresStore.Store.MarkDelivered | internal/runtime/postgres.go:384-387 | the command is delivered and its lease dropped |
| PostgresStore.Store.Release | internal/runtime/postgres.go:388-391 | the command is pending again after one second |
| PostgresStore.Store.AppendEvent | internal/runtime/postgres.go:393-461 | inserts once, then updates thread, run row and session log, or leaves every table unchanged |
| PostgresStore.Store.UpsertProjectRows | internal/runtime/postgres.go:69-88 | the loop over announced projects, blank ones skipped |
| Coordinator.Coordinator.AgentMessage | internal/runtime/coordinator.go:122-152 | one call does to store, broker, cache and peer what the three machine steps of a message do, and reports exactly when the message is the Run Server's; a message new to a stored run, no call failing, ends its stream with an event of its kind, leaves run, session and outbox as its kind says (see MessageStored), and is acknowledged as received and, unless refused, as durable |
| Coordinator.HandledLands | internal/runtime/coordinator.go:122-152 | the same for the three machine steps in a row, whatever the tables hold |
| MessageEffects.MessageStored | internal/runtime/postgres.go:393-461 | kind by kind: run.accepted makes the run accepted, turn.started running with its turn and first start, turn.completed completed, turn.failed and turn.rejected failed, turn.interrupted canceled, the last four with final_sequence and finish time, the item and output messages only log; the stored event has the kind, document and instant of the message; the session gets one line of the matching kind or none and its thread if it had none; nothing else changes; refused exactly when a turn.started names a turn or thread that another row holds |
| EventOrigins.EventsHaveOrigins | internal/runtime/coordinator.go:122-152 | over every trace of the server, an event stored under a number of a run was brought by a message of the Agent for that run and number, of the kind that makes such an event, or as that event of a finished turn of a batch |
| Acknowledgements.StoredAreAcked | internal/runtime/coordinator.go:136-145 | over every trace, every delivery whose event reached PostgreSQL has had its durable_ack sent |
| Coordinator.Coordinator.OwnsRuntimeRun | internal/runtime/coordinator.go:166-179 | cached, stored or unknown because the lookup failed; only stored runs are cached |
| Coordinator.Coordinator.BootstrapMessage | internal/runtime/coordinator.go:104-121 | acknowledged only when applied, and the command marked after a final batch |
| Coordinator.Coordinator.SendCommand | internal/runtime/coordinator.go:233-281 | a cancel that was sent and a bootstrap whose job is over are delivered; any other send that failed, and a bootstrap without a job, is pending again one second later; a sent start or bootstrap stays claimed; no other command changes |
| Coordinator.Coordinator.Dispatch | internal/runtime/coordinator.go:216-231 | claims up to eight commands, oldest first, does that to each, counting one more attempt under a lease of 15 seconds, and touches no other |
| DispatchRounds.StartsStayUndelivered | internal/runtime/coordinator.go:216-281 | a round of dispatch never delivers a start command |
| DispatchRounds.RoundExact | internal/runtime/coordinator.go:216-281 | what a round leaves of every command, claimed or not, by the outcome of its send |
| DispatchRounds.RoundsDeliver | internal/runtime/coordinator.go:216-281 | over any number of rounds a command becomes delivered if and only if some round claimed it and it was a cancel that was sent or a bootstrap whose job is over |
| DispatchRounds.FailedSendsRetried | internal/runtime/coordinator.go:225-229 | over any number of rounds a command whose last send came to nothing is pending, and eligible exactly from one second after that round on |
| DispatchRounds.SentComeBack | internal/runtime/postgres.go:348-383 | a command that was sent and not settled is eligible again exactly when its lease has run out |

## Left out

- SQL isolation below the transaction: every transaction is one atomic step; row locks and re-evaluation under READ COMMITTED are not modelled. Which eligible commands a claim of the interleaved machine picks is left open (`Claimable`) instead.
- A store call that takes effect and still reports an error (the answer to an XADD or a COMMIT is lost): a failed call of the machine has no effect. To rows and streams such a call is the successful step after which its handler goes no further, and the theorems cover traces that stop there; that the real handler then withholds its acknowledgement is not modelled.
- Redis stream trimming, key expiry (a version key lives an hour, far beyond the 15 s a poll may wait) and Redis errors inside the wait protocol.
- The contents of command payloads, worker identifiers, error codes, the created_at and updated_at columns of runs and the updated_at column of jobs, which nothing in the modelled logic reads; session creation instants in `AuthStore` are kept untruncated for the same reason.
- JSON encoding, SHA-256, random generation and constant-time comparison: documents are values, hashes injective, secrets fresh where a theorem says so.
- CreateSession, CreateSyncJob and session lookups by key exist as transactions on values only (`RuntimeStore`), not as methods of the store class; what the class then does not show is their update in place.
- The coordinator, gateways and wait protocol are interleaved as state machines on values; the classes beside them show the same operations on objects, one call at a time.
- Traces in which batches of two jobs carry different snapshots: a later snapshot is meant to archive what it does not name, so nothing is promised to the earlier one.
- HTTP routing, query parsing, authentication middleware, WebSocket plumbing, presence keys and heartbeats, configuration, the command-line tools, and the router's rejection messages.
- The notes an App is replayed may come from a connection that has been replaced: the code does not tie them to the current one.
